/** Validation of a snapshot archive, entry by entry, and what it amounts to. */
module ArchiveValidation {
  import opened Archives
  import opened Identities
  import opened ResourceLimits
  import opened Sequences

  // ---------------------------------------------------------------- entries after the manifest

  function Name(entry: Entry): string { entry.name }

  /** The first entries are complete, distinct and declared. */
  predicate GoodSoFar(entries: seq<Entry>, files: seq<File>, n: nat) {
    && n <= |entries| && Distinct(Map(entries[..n], Name))
    && forall i :: 0 <= i < n ==> Complete(entries[i]) && EntryItem(entries[i]) in Items(files)
  }

  lemma ItemsDistinct(entries: seq<Entry>)
    requires Distinct(Map(entries, Name))
    ensures Distinct(EntryItems(entries))
  {
  }

  /** Part of what fits fits. */
  lemma SomeItemsFit(limits: Limits, items: seq<Item>, rest: seq<Item>, all: seq<Item>)
    requires Fits(limits, Map(all, ItemSize)) && multiset(items) + multiset(rest) == multiset(all)
    ensures Fits(limits, Map(items, ItemSize))
  {
    assert multiset(items + rest) == multiset(all);
    MapAnyOrder(items + rest, all, ItemSize);
    FitsAnyOrder(limits, Map(items + rest, ItemSize), Map(all, ItemSize));
    assert Map(items + rest, ItemSize) == Map(items, ItemSize) + Map(rest, ItemSize);
    FitsPart(limits, Map(items, ItemSize), Map(rest, ItemSize));
  }

  /** Distinct declared entries can never be more, or larger, than the manifest is. */
  lemma DeclaredFits(limits: Limits, entries: seq<Entry>, files: seq<File>)
    requires Fits(limits, Sizes(files)) && GoodSoFar(entries, files, |entries|)
    ensures Fits(limits, Map(entries, EntrySize))
  {
    assert entries[..|entries|] == entries;
    ItemsDistinct(entries);
    var items := EntryItems(entries);
    forall x | x in items ensures x in Items(files) {
      var i :| 0 <= i < |items| && items[i] == x;
    }
    var rest := Complement(items, Items(files));
    assert Map(Items(files), ItemSize) == Sizes(files);
    SomeItemsFit(limits, items, rest, Items(files));
    assert Map(items, ItemSize) == Map(entries, EntrySize);
  }

  lemma FitsPart(limits: Limits, some: seq<int>, rest: seq<int>)
    requires Fits(limits, some + rest)
    ensures Fits(limits, some)
  {
    SumConcat(some, rest);
    assert forall i :: 0 <= i < |some| ==> (some + rest)[i] == some[i];
    assert forall i :: 0 <= i < |rest| ==> (some + rest)[|some| + i] == rest[i];
    SumNonNegative(rest);
  }

  function ItemPath(item: Item): string { item.path }

  lemma ExactlyMeansDistinct(entries: seq<Entry>, files: seq<File>)
    requires HoldsExactly(entries, files) && Distinct(Names(files))
    ensures Distinct(Map(entries, Name)) && |entries| == |files|
  {
    MapAnyOrder(Items(files), EntryItems(entries), ItemPath);
    assert Map(EntryItems(entries), ItemPath) == Map(entries, Name) && Map(Items(files), ItemPath) == Names(files);
    DistinctAnyOrder(Names(files), Map(entries, Name));
    assert |multiset(EntryItems(entries))| == |entries| && |multiset(Items(files))| == |files|;
  }

  /** In an archive that holds the declared files, no entry is incomplete, undeclared or repeated. */
  lemma ExactlyMeansGood(entries: seq<Entry>, files: seq<File>, i: nat)
    requires i < |entries| && Distinct(Names(files))
    ensures HoldsExactly(entries, files) ==>
      && Complete(entries[i]) && EntryItem(entries[i]) in Items(files)
      && forall k :: 0 <= k < i ==> entries[k].name != entries[i].name
  {
    if HoldsExactly(entries, files) {
      ExactlyMeansDistinct(entries, files);
      assert EntryItems(entries)[i] in multiset(Items(files));
      var names := Map(entries, Name);
      forall k | 0 <= k < i ensures entries[k].name != entries[i].name {
        assert names[k] != names[i];
      }
    }
  }

  function Expected(files: seq<File>): map<string, File>
    requires Distinct(Names(files))
  {
    SamePathSameFile(files);
    map f | f in files :: f.logicalPath := f
  }

  lemma SamePathSameFile(files: seq<File>)
    requires Distinct(Names(files))
    ensures forall f, g :: f in files && g in files && f.logicalPath == g.logicalPath ==> f == g
  {
  }

  /** Being declared is being found under one's name with one's size and hash. */
  lemma DeclaredByName(files: seq<File>, entry: Entry)
    requires Distinct(Names(files))
    ensures EntryItem(entry) in Items(files) <==>
            && entry.name in Expected(files) && Expected(files)[entry.name].size == entry.size
            && Expected(files)[entry.name].sha256 == entry.content.sha256
  {
  }

  lemma GoodOneMore(entries: seq<Entry>, files: seq<File>, n: nat)
    requires n < |entries| && GoodSoFar(entries, files, n)
    requires Complete(entries[n]) && EntryItem(entries[n]) in Items(files)
    requires forall k :: 0 <= k < n ==> entries[k].name != entries[n].name
    ensures GoodSoFar(entries, files, n + 1)
  {
  }

  /** The counter accepts every entry that has a fresh declared name and the declared size. */
  lemma CounterAccepts(limits: Limits, entries: seq<Entry>, files: seq<File>, n: nat)
    requires Fits(limits, Sizes(files)) && Distinct(Names(files))
    requires n < |entries| && GoodSoFar(entries, files, n) && entries[n].size >= 0
    requires entries[n].name in Expected(files) && Expected(files)[entries[n].name].size == entries[n].size
    requires forall k :: 0 <= k < n ==> entries[k].name != entries[n].name
    ensures Fits(limits, Map(entries[..n], EntrySize) + [entries[n].size as int])
  {
    var file := Expected(files)[entries[n].name];
    var repaired := entries[n].(regular := true, content := Content(file.size as nat, file.sha256));
    var others := entries[..n] + [repaired];
    DeclaredByName(files, repaired);
    assert others[..n] == entries[..n];
    GoodOneMore(others, files, n);
    DeclaredFits(limits, others, files);
    assert Map(others, EntrySize) == Map(entries[..n], EntrySize) + [entries[n].size as int];
  }

  lemma DeclaredIsAccepted(rules: Rules, files: seq<File>, name: string)
    requires ValidFiles(rules, files)
    ensures name in Expected(files) ==> rules.accepts(name)
  {
  }

  predicate Seen(seen: set<string>, entries: seq<Entry>, n: nat)
    requires n <= |entries|
  {
    |seen| == n && seen == set k | 0 <= k < n :: entries[k].name
  }

  /** What is known after the first entries. */
  ghost predicate Scanned(entries: seq<Entry>, files: seq<File>, n: nat, seen: set<string>, counter: Counter)
    reads counter
  {
    GoodSoFar(entries, files, n) && Seen(seen, entries, n) && counter.Counts(Map(entries[..n], EntrySize))
  }

  /** What is checked of an entry's header: a regular file under a fresh accepted name, with the
      size declared for it. */
  predicate WellNamed(rules: Rules, expected: map<string, File>, seen: set<string>, entry: Entry) {
    && entry.regular && entry.size >= 0 && rules.accepts(entry.name) && entry.name !in seen
    && entry.name in expected && expected[entry.name].size == entry.size
  }

  /** What is checked of its content: there in full, and with the declared hash. */
  predicate WellFilled(expected: map<string, File>, entry: Entry)
    requires entry.name in expected
  {
    entry.content.length == entry.size as int && entry.content.sha256 == expected[entry.name].sha256
  }

  /** An entry passing both checks extends the good ones. */
  lemma ChecksExtend(rules: Rules, entries: seq<Entry>, files: seq<File>, i: nat, seen: set<string>)
    requires ValidFiles(rules, files) && i < |entries| && GoodSoFar(entries, files, i) && Seen(seen, entries, i)
    requires WellNamed(rules, Expected(files), seen, entries[i]) && WellFilled(Expected(files), entries[i])
    ensures GoodSoFar(entries, files, i + 1) && Seen(seen + {entries[i].name}, entries, i + 1)
  {
    DeclaredByName(files, entries[i]);
    SeenOneMore(entries, i, seen);
    GoodOneMore(entries, files, i);
  }

  lemma SeenOneMore(entries: seq<Entry>, i: nat, seen: set<string>)
    requires i < |entries| && Seen(seen, entries, i) && entries[i].name !in seen
    ensures Seen(seen + {entries[i].name}, entries, i + 1)
    ensures forall k :: 0 <= k < i ==> entries[k].name != entries[i].name
  {
  }

  /** One failing either check spoils the archive. */
  lemma ChecksSpoil(rules: Rules, entries: seq<Entry>, files: seq<File>, i: nat, seen: set<string>)
    requires ValidFiles(rules, files) && i < |entries| && Seen(seen, entries, i)
    requires !(WellNamed(rules, Expected(files), seen, entries[i]) && WellFilled(Expected(files), entries[i]))
    ensures !HoldsExactly(entries, files)
  {
    DeclaredByName(files, entries[i]);
    DeclaredIsAccepted(rules, files, entries[i].name);
    ExactlyMeansGood(entries, files, i);
  }

  /** Checks one entry after the manifest. The counter is never what refuses it. */
  method CheckEntry(rules: Rules, entries: seq<Entry>, files: seq<File>, i: nat, seen: set<string>, counter: Counter)
    returns (ok: bool)
    requires Fits(rules.limits, Sizes(files)) && ValidFiles(rules, files)
    requires i < |entries| && counter.limits == rules.limits && Scanned(entries, files, i, seen, counter)
    modifies counter
    ensures ok ==> Scanned(entries, files, i + 1, seen + {entries[i].name}, counter)
    ensures ok ==> counter.bytes as int == old(counter.bytes) as int + entries[i].size as int
    ensures !ok ==> !HoldsExactly(entries, files)
  {
    var entry, expected := entries[i], Expected(files);
    var named := WellNamed(rules, expected, seen, entry);
    if !named {
      ChecksSpoil(rules, entries, files, i, seen);
      return false;
    }
    CounterAccepts(rules.limits, entries, files, i);
    assert Map(entries[..i + 1], EntrySize) == Map(entries[..i], EntrySize) + [entry.size as int];
    ok := counter.Add(entry.size, Map(entries[..i], EntrySize));
    assert ok;
    CountedSum(entries, i);
    ok := WellFilled(expected, entry);
    if ok {
      ChecksExtend(rules, entries, files, i, seen);
    } else {
      ChecksSpoil(rules, entries, files, i, seen);
    }
  }

  lemma CountedSum(entries: seq<Entry>, i: nat)
    requires i < |entries|
    ensures Sum(Map(entries[..i + 1], EntrySize)) == Sum(Map(entries[..i], EntrySize)) + entries[i].size as int
  {
    var more := Map(entries[..i + 1], EntrySize);
    assert more[..i] == Map(entries[..i], EntrySize);
  }

  /** Reads the entries after the manifest. */
  method ScanEntries(rules: Rules, entries: seq<Entry>, files: seq<File>, header: int64)
    returns (ok: bool, total: int64)
    requires Valid(rules.limits) && Fits(rules.limits, Sizes(files)) && ValidFiles(rules, files)
    requires 0 <= header <= rules.limits.maxManifestSize
    ensures ok <==> HoldsExactly(entries, files)
    ensures ok ==> total as int == header as int + Total(entries) && total >= 0
  {
    var seen: set<string> := {};
    var counter := new Counter(rules.limits);
    total := header;
    var i := 0;
    while i < |entries|
      invariant 0 <= i <= |entries| && fresh(counter) && counter.limits == rules.limits
      invariant Scanned(entries, files, i, seen, counter) && total as int == header as int + counter.bytes as int
    {
      ok := CheckEntry(rules, entries, files, i, seen, counter);
      if !ok { return; }
      CountedWithin(counter, Map(entries[..i + 1], EntrySize));
      seen := seen + {entries[i].name};
      total := total + entries[i].size;
      i := i + 1;
    }
    assert entries[..i] == entries;
    CountedWithin(counter, Map(entries, EntrySize));
    ExactlyWhenComplete(entries, files);
    ok := |seen| == |Expected(files)|;
  }

  lemma CountedWithin(counter: Counter, sizes: seq<int>)
    requires counter.Counts(sizes)
    ensures 0 <= counter.bytes <= counter.limits.maxTotalSize
  {
    SumNonNegative(sizes);
  }

  /** Entries found good one by one are the declared files exactly when there are as many. */
  lemma ExactlyWhenComplete(entries: seq<Entry>, files: seq<File>)
    requires Distinct(Names(files)) && GoodSoFar(entries, files, |entries|)
    ensures HoldsExactly(entries, files) <==> |entries| == |Expected(files)|
  {
    assert entries[..|entries|] == entries;
    ItemsDistinct(entries);
    ExpectedSize(files);
    var items := EntryItems(entries);
    forall x | x in items ensures x in Items(files) {
      var i :| 0 <= i < |items| && items[i] == x;
    }
    if |entries| == |files| { Pigeonhole(items, Items(files)); }
    if HoldsExactly(entries, files) { ExactlyMeansDistinct(entries, files); }
  }

  lemma ExpectedSize(files: seq<File>)
    requires Distinct(Names(files))
    ensures |Expected(files)| == |files|
  {
    DistinctElements(Names(files));
    var names := Elements(Names(files));
    forall i | 0 <= i < |files| ensures Names(files)[i] in Expected(files) {
      assert files[i] in files;
    }
    forall name | name in Expected(files) ensures name in names {
      var i :| 0 <= i < |files| && files[i] == Expected(files)[name];
      assert Names(files)[i] == name;
    }
    assert Expected(files).Keys == names;
  }

  lemma FilesOneMore(files: seq<File>, i: nat)
    requires i < |files| && Distinct(Names(files[..i]))
    ensures Names(files[..i + 1]) == Names(files[..i]) + [files[i].logicalPath]
    ensures files[i].logicalPath !in Names(files[..i]) ==> Distinct(Names(files[..i + 1]))
    ensures files[i].logicalPath in Names(files[..i]) ==> !Distinct(Names(files))
  {
  }

  lemma HexDigits(character: char)
    ensures IsHex(character) <==> character in "0123456789abcdefABCDEF"
  {
    var digits := "0123456789abcdefABCDEF";
    assert digits[0] == '0' && digits[1] == '1' && digits[2] == '2' && digits[3] == '3' && digits[4] == '4'
           && digits[5] == '5' && digits[6] == '6' && digits[7] == '7' && digits[8] == '8' && digits[9] == '9';
    assert digits[10] == 'a' && digits[11] == 'b' && digits[12] == 'c' && digits[13] == 'd' && digits[14] == 'e'
           && digits[15] == 'f';
    assert digits[16] == 'A' && digits[17] == 'B' && digits[18] == 'C' && digits[19] == 'D' && digits[20] == 'E'
           && digits[21] == 'F';
  }

  lemma ValidFilesAre(rules: Rules, files: seq<File>)
    ensures ValidFiles(rules, files) <==>
      && Distinct(Names(files))
      && forall file :: file in files ==>
           && rules.accepts(file.logicalPath) && file.size >= 0 && file.component != ""
           && |file.sha256| == 64 && forall c :: c in file.sha256 ==> c in "0123456789abcdefABCDEF"
  {
    forall c: char ensures IsHex(c) <==> c in "0123456789abcdefABCDEF" { HexDigits(c); }
  }

  /** The file part of manifest validation. */
  method ValidateManifest(rules: Rules, value: Manifest) returns (ok: bool)
    ensures ok <==> ValidManifest(rules, value)
    ensures ok <==>
      && value.sound && Distinct(Names(value.files))
      && forall file :: file in value.files ==>
           && rules.accepts(file.logicalPath) && file.size >= 0 && file.component != ""
           && |file.sha256| == 64 && forall c :: c in file.sha256 ==> c in "0123456789abcdefABCDEF"
  {
    ValidFilesAre(rules, value.files);
    if !value.sound { return false; }
    var files, seen: set<string>, i := value.files, {}, 0;
    while i < |files|
      invariant 0 <= i <= |files| && forall k :: 0 <= k < i ==> ValidFile(rules, files[k])
      invariant Distinct(Names(files[..i])) && forall name :: name in seen <==> name in Names(files[..i])
    {
      FilesOneMore(files, i);
      if files[i].logicalPath in seen || !ValidFile(rules, files[i]) { return false; }
      seen := seen + {files[i].logicalPath};
      i := i + 1;
    }
    assert files[..i] == files;
    ok := true;
  }

  /** The bounds of a manifest whose sizes are not negative, without overflow in the running total. */
  method ValidateManifestLimits(limits: Limits, value: Manifest) returns (ok: bool)
    requires Valid(limits) && forall i :: 0 <= i < |value.files| ==> value.files[i].size >= 0
    ensures ok <==> WithinLimits(limits, value)
  {
    if |value.files| > limits.maxFiles as int { return false; }
    var i := 0;
    while i < |value.collections|
      invariant 0 <= i <= |value.collections|
      invariant forall k :: 0 <= k < i ==> value.collections[k] <= limits.maxFiles
    {
      if value.collections[i] > limits.maxFiles { return false; }
      i := i + 1;
    }
    ghost var sizes := Sizes(value.files);
    var total: int64 := 0;
    i := 0;
    while i < |value.files|
      invariant 0 <= i <= |value.files|
      invariant total as int == Sum(sizes[..i]) && 0 <= total <= limits.maxTotalSize
      invariant forall k :: 0 <= k < i ==> sizes[k] <= limits.maxFileSize as int
    {
      var size := value.files[i].size;
      if size > limits.maxFileSize { return false; }
      assert sizes[..i + 1][..i] == sizes[..i];
      if size > limits.maxTotalSize - total {
        SumPrefix(sizes, i + 1);
        return false;
      }
      total := total + size;
      i := i + 1;
    }
    assert sizes[..i] == sizes;
    ok := true;
  }

  lemma SumPrefix(sizes: seq<int>, n: nat)
    requires n <= |sizes| && forall i :: 0 <= i < |sizes| ==> sizes[i] >= 0
    ensures Sum(sizes[..n]) <= Sum(sizes)
  {
    assert sizes == sizes[..n] + sizes[n..];
    SumConcat(sizes[..n], sizes[n..]);
    SumNonNegative(sizes[n..]);
  }


  // ---------------------------------------------------------------- the whole archive

  lemma TotalSplit(entries: seq<Entry>)
    requires entries != []
    ensures Total(entries) == entries[0].size as int + Total(entries[1..])
  {
    var head := [entries[0].size as int];
    assert Map(entries, EntrySize) == head + Map(entries[1..], EntrySize);
    SumConcat(head, Map(entries[1..], EntrySize));
    assert Sum(head) == head[0] by { assert head[..0] == []; }
  }

  predicate AcceptableLead(rules: Rules, entries: seq<Entry>, value: Manifest) {
    LeadsWith(rules, entries, value) && ValidManifest(rules, value) && WithinLimits(rules.limits, value)
  }

  /** The manifest an archive leads with, if it is one that can be accepted. */
  method ReadManifest(rules: Rules, entries: seq<Entry>) returns (result: Option<Manifest>)
    requires Valid(rules.limits)
    ensures forall value :: AcceptableLead(rules, entries, value) <==> result == Some(value)
  {
    if entries == [] { return None; }
    var first := entries[0];
    if !first.regular || first.size < 0 || first.name != MANIFEST_NAME { return None; }
    if first.size > rules.limits.maxManifestSize || first.content.length != first.size as int { return None; }
    var decoded := rules.decode(first.content);
    if decoded.None? { return None; }
    var valid := ValidateManifest(rules, decoded.value);
    if !valid { return None; }
    var within := ValidateManifestLimits(rules.limits, decoded.value);
    if !within { return None; }
    return decoded;
  }

  /** Whether the entries stay within the compression ratio, decided by dividing. */
  method CheckRatio(limits: Limits, total: int64, compressed: int64) returns (ok: bool)
    requires total >= 0 && compressed > 0 && limits.maxCompressionRatio >= 1
    ensures ok <==> total as int <= limits.maxCompressionRatio as int * compressed as int
  {
    if total == 0 { return true; }
    RatioTestExact(total as nat, compressed as nat, limits.maxCompressionRatio as nat);
    ok := (total - 1) / compressed + 1 <= limits.maxCompressionRatio;
  }

  /** Accepts exactly the acceptable archives, and returns the manifest they lead with. */
  method ValidateArchive(rules: Rules, archive: Archive) returns (result: Option<Manifest>)
    ensures forall value :: Acceptable(rules, archive, value) <==> result == Some(value)
  {
    var limits := rules.limits;
    if !Valid(limits) { return None; }
    if archive.size <= 0 || archive.size > limits.maxTotalSize + limits.maxManifestSize { return None; }
    result := ReadManifest(rules, archive.entries);
    if result.None? { return; }
    var exact, total := ScanEntries(rules, archive.entries[1..], result.value.files, archive.entries[0].size);
    if !exact || !archive.intact { return None; }
    TotalSplit(archive.entries);
    var modest := CheckRatio(limits, total, archive.size);
    if !modest { return None; }
  }
}
