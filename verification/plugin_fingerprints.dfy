/** The fingerprint of a plugin's directory tree: one row for everything found below it. */
module PluginFingerprints {
  import opened Delimited
  import opened Fingerprints
  import opened Identities
  import opened LogicalPaths
  import opened ResourceLimits

  /** What a walk finds: a directory, a regular file as it was hashed, or something it refuses (a
      link, a foreign owner, a special file, a file that changed meanwhile). */
  datatype Node = Folder | Regular(size: int64, mode: nat, sha256: string) | Refused

  /** An entry of the walk, in walking order, by its path below the plugin's directory. */
  datatype Entry = Entry(relative: string, node: Node)

  function Logical(entry: Entry): string { "plugin/" + entry.relative }

  predicate HexDigest(digest: string) { forall c :: c in digest ==> '0' <= c <= '9' || 'a' <= c <= 'f' }

  predicate Hashed(entries: seq<Entry>) {
    forall i :: 0 <= i < |entries| && entries[i].node.Regular? ==> HexDigest(entries[i].node.sha256)
  }

  function Row(entry: Entry, modes: bool): (row: seq<string>)
    requires !entry.node.Refused? && (entry.node.Regular? ==> entry.node.size >= 0)
    ensures |row| >= 2
  {
    match entry.node
    case Folder => ["d", Logical(entry)]
    case Regular(size, mode, sha256) =>
      if modes then ["f", Logical(entry), Decimal(size as nat), Decimal(mode), sha256]
      else ["f", Logical(entry), Decimal(size as nat), sha256]
  }

  predicate Writable(entries: seq<Entry>) {
    forall i :: 0 <= i < |entries| ==>
        !entries[i].node.Refused? && (entries[i].node.Regular? ==> entries[i].node.size >= 0)
  }

  function RowsOf(entries: seq<Entry>, modes: bool): (rows: seq<seq<string>>)
    requires Writable(entries)
    ensures |rows| == |entries| && Rows(rows)
    ensures forall i :: 0 <= i < |entries| ==> rows[i] == Row(entries[i], modes)
  {
    seq(|entries|, i requires 0 <= i < |entries| => Row(entries[i], modes))
  }

  function TreeText(entries: seq<Entry>, modes: bool): string
    requires Writable(entries)
  {
    Text(RowsOf(entries, modes))
  }

  /** The sizes of the regular files, in order. */
  function Sizes(entries: seq<Entry>): seq<int> {
    if entries == [] then []
    else
      var last := entries[|entries| - 1].node;
      Sizes(entries[..|entries| - 1]) + if last.Regular? then [last.size as int] else []
  }

  predicate Walkable(entry: Entry, accepts: string -> bool) {
    accepts(Logical(entry)) && !entry.node.Refused?
  }

  predicate AllWalkable(entries: seq<Entry>, accepts: string -> bool) {
    forall i :: 0 <= i < |entries| ==> Walkable(entries[i], accepts)
  }

  /** A tree has a fingerprint when all its paths and nodes are in order, its files fit the bounds,
      and it has a file. */
  predicate Fingerprintable(entries: seq<Entry>, limits: Limits, accepts: string -> bool)
    requires Valid(limits)
  {
    AllWalkable(entries, accepts) && Fits(limits, Sizes(entries)) && Sizes(entries) != []
  }

  // ---------------------------------------------------------------- the walk

  datatype Fingerprint = Fingerprint(text: string, files: int64, bytes: int64)

  lemma FitsShorter(limits: Limits, sizes: seq<int>, more: seq<int>)
    requires Valid(limits) && Fits(limits, more)
        && (more == sizes || (|more| == |sizes| + 1 && more[..|sizes|] == sizes))
    ensures Fits(limits, sizes)
  {
  }

  /** A prefix that does not fit rules out the whole. */
  lemma {:induction false} SizesPrefix(entries: seq<Entry>, limits: Limits, i: nat)
    requires Valid(limits) && i <= |entries| && Fits(limits, Sizes(entries))
    ensures Fits(limits, Sizes(entries[..i]))
    decreases |entries|
  {
    if i < |entries| {
      var front := entries[..|entries| - 1];
      FitsShorter(limits, Sizes(front), Sizes(entries));
      SizesPrefix(front, limits, i);
      assert front[..i] == entries[..i];
    } else {
      assert entries[..i] == entries;
    }
  }

  lemma {:induction false} WritableSizes(entries: seq<Entry>)
    requires forall i :: 0 <= i < |entries| ==> !entries[i].node.Refused?
    requires forall i :: 0 <= i < |Sizes(entries)| ==> Sizes(entries)[i] >= 0
    ensures Writable(entries)
  {
    if entries != [] {
      var front := entries[..|entries| - 1];
      forall i | 0 <= i < |Sizes(front)| ensures Sizes(front)[i] >= 0 {
        assert Sizes(entries)[i] == Sizes(front)[i];
      }
      WritableSizes(front);
      if entries[|entries| - 1].node.Regular? { assert Sizes(entries)[|Sizes(front)|] >= 0; }
      assert entries == front + [entries[|entries| - 1]];
    }
  }

  /** The line an entry adds to the text. */
  function EntryLine(entry: Entry, modes: bool): string
    requires !entry.node.Refused? && (entry.node.Regular? ==> entry.node.size >= 0)
  {
    Join(Row(entry, modes), NUL) + [LF]
  }

  lemma WritableStep(entries: seq<Entry>, entry: Entry)
    requires Writable(entries) && !entry.node.Refused? && (entry.node.Regular? ==> entry.node.size >= 0)
    ensures Writable(entries + [entry])
  {
  }

  lemma OneMoreRow(entries: seq<Entry>, entry: Entry, modes: bool)
    requires Writable(entries) && !entry.node.Refused? && (entry.node.Regular? ==> entry.node.size >= 0)
    ensures Writable(entries + [entry])
    ensures TreeText(entries + [entry], modes) == TreeText(entries, modes) + EntryLine(entry, modes)
  {
    var all := entries + [entry];
    WritableStep(entries, entry);
    assert all[|entries|] == entry;
    assert forall i :: 0 <= i < |entries| ==> all[i] == entries[i];
    TextConcat(RowsOf(entries, modes), [Row(entry, modes)]);
    assert RowsOf(all, modes) == RowsOf(entries, modes) + [Row(entry, modes)];
    assert Text([Row(entry, modes)]) == EntryLine(entry, modes) + Text([]);
  }

  /** Everything the walk has passed is in order. */
  ghost predicate Walked(done: seq<Entry>, limits: Limits, accepts: string -> bool, text: string, modes: bool) {
    && Valid(limits) && AllWalkable(done, accepts) && Fits(limits, Sizes(done))
    && Writable(done) && text == TreeText(done, modes)
  }

  lemma SizesStep(done: seq<Entry>, entry: Entry)
    ensures Sizes(done + [entry]) == Sizes(done) + (if entry.node.Regular? then [entry.node.size as int] else [])
    ensures !entry.node.Regular? ==> Sizes(done + [entry]) == Sizes(done)
  {
    assert (done + [entry])[..|done|] == done;
  }

  /** A size that fits is not negative. */
  lemma FittingSize(done: seq<Entry>, entry: Entry, limits: Limits)
    requires Valid(limits) && Fits(limits, Sizes(done + [entry]))
    ensures entry.node.Regular? ==> entry.node.size >= 0
  {
    SizesStep(done, entry);
    if entry.node.Regular? { assert Sizes(done + [entry])[|Sizes(done)|] == entry.node.size as int; }
  }

  lemma OneMoreWalked(done: seq<Entry>, entry: Entry, limits: Limits, accepts: string -> bool, text: string,
                      modes: bool)
    requires Walked(done, limits, accepts, text, modes) && Walkable(entry, accepts)
    requires Fits(limits, Sizes(done + [entry]))
    ensures entry.node.Regular? ==> entry.node.size >= 0
    ensures Walked(done + [entry], limits, accepts, text + EntryLine(entry, modes), modes)
  {
    FittingSize(done, entry, limits);
    OneMoreRow(done, entry, modes);
  }

  /** One entry of the walk; false when it is refused. */
  method Visit(ghost done: seq<Entry>, entry: Entry, counter: Counter, accepts: string -> bool, hashed: string,
               modes: bool)
    returns (ok: bool, text: string)
    requires Walked(done, counter.limits, accepts, hashed, modes) && counter.Counts(Sizes(done))
    modifies counter
    ensures ok <==> Walkable(entry, accepts)
                    && Fits(counter.limits, Sizes(done + [entry]))
    ensures ok ==> Walked(done + [entry], counter.limits, accepts, text, modes) && counter.Counts(Sizes(done + [entry]))
  {
    ok, text := Walkable(entry, accepts), hashed;
    SizesStep(done, entry);
    if ok && entry.node.Regular? { ok := counter.Add(entry.node.size, Sizes(done)); }
    if ok {
      OneMoreWalked(done, entry, counter.limits, accepts, hashed, modes);
      text := hashed + EntryLine(entry, modes);
    }
  }

  lemma PrefixFingerprintable(entries: seq<Entry>, limits: Limits, accepts: string -> bool, i: nat)
    requires Valid(limits) && i < |entries| && Fingerprintable(entries, limits, accepts)
    ensures Walkable(entries[i], accepts) && Fits(limits, Sizes(entries[..i + 1]))
  {
    SizesPrefix(entries, limits, i + 1);
  }

  /** Walks a tree, adding to the running hash and the counter. */
  method FingerprintTree(entries: seq<Entry>, limits: Limits, accepts: string -> bool, modes: bool)
    returns (result: Option<Fingerprint>)
    requires Valid(limits)
    ensures result.Some? <==> Fingerprintable(entries, limits, accepts)
    ensures result.Some? ==>
      && Writable(entries) && result.value.text == TreeText(entries, modes)
      && result.value.files as int == |Sizes(entries)| && result.value.bytes as int == Sum(Sizes(entries))
  {
    var counter := new Counter(limits);
    var text := "";
    for i := 0 to |entries|
      invariant Walked(entries[..i], limits, accepts, text, modes) && counter.Counts(Sizes(entries[..i]))
      invariant fresh(counter) && counter.limits == limits
    {
      assert entries[..i + 1] == entries[..i] + [entries[i]];
      var ok;
      ok, text := Visit(entries[..i], entries[i], counter, accepts, text, modes);
      if !ok {
        if Fingerprintable(entries, limits, accepts) { PrefixFingerprintable(entries, limits, accepts, i); }
        return None;
      }
    }
    assert entries[..|entries|] == entries;
    if counter.files == 0 { return None; }
    result := Some(Fingerprint(text, counter.files, counter.bytes));
  }

  // ---------------------------------------------------------------- reading it back

  ghost predicate ReadablePaths(accepts: string -> bool) { forall path :: accepts(path) ==> Readable(path) }

  /** The rule for logical paths. */
  function PathRule(maxLength: nat, normal: string -> bool): string -> bool {
    path => ValidateLogicalPath(path, maxLength, normal).Accepted?
  }

  /** No path it accepts has a separator in it. */
  lemma PathRuleReadable(maxLength: nat, normal: string -> bool)
    ensures ReadablePaths(PathRule(maxLength, normal))
  {
    forall path | PathRule(maxLength, normal)(path) ensures Readable(path) {
      assert IsControl(NUL) && IsControl(LF);
    }
  }

  lemma RowIsReadable(entry: Entry, accepts: string -> bool, modes: bool)
    requires ReadablePaths(accepts) && Walkable(entry, accepts)
        && (entry.node.Regular? ==> entry.node.size >= 0 && HexDigest(entry.node.sha256))
    ensures AllReadable(Row(entry, modes))
  {
  }

  /** An entry as the form without modes sees it. */
  function Modeless(entry: Entry): Entry {
    if entry.node.Regular? then entry.(node := entry.node.(mode := 0)) else entry
  }

  function Seen(entry: Entry, modes: bool): Entry { if modes then entry else Modeless(entry) }

  lemma SameRow(first: Entry, second: Entry, modes: bool)
    requires !first.node.Refused? && (first.node.Regular? ==> first.node.size >= 0)
    requires !second.node.Refused? && (second.node.Regular? ==> second.node.size >= 0)
    requires Row(first, modes) == Row(second, modes)
    ensures Seen(first, modes) == Seen(second, modes)
  {
    var one, other := Row(first, modes), Row(second, modes);
    assert one[0] == other[0] && one[1] == other[1];
    assert first.relative == Logical(first)[7..] && second.relative == Logical(second)[7..];
    assert "d"[0] == 'd' && "f"[0] == 'f';
    if first.node.Regular? {
      assert one[2] == other[2] && one[3] == other[3];
      ValueDecimal(first.node.size as nat);
      ValueDecimal(second.node.size as nat);
      ValueDecimal(first.node.mode);
      ValueDecimal(second.node.mode);
      if modes { assert one[4] == other[4]; }
    }
  }

  lemma ReadableTree(entries: seq<Entry>, limits: Limits, accepts: string -> bool, modes: bool)
    requires Valid(limits) && ReadablePaths(accepts) && Fingerprintable(entries, limits, accepts) && Hashed(entries)
    ensures Writable(entries) && ReadableRows(RowsOf(entries, modes))
  {
    WritableSizes(entries) by {
      assert forall i :: 0 <= i < |entries| ==> Walkable(entries[i], accepts);
    }
    forall i | 0 <= i < |entries| ensures AllReadable(Row(entries[i], modes)) {
      RowIsReadable(entries[i], accepts, modes);
    }
  }

  /** Two trees have the same text exactly when they hold the same entries, up to file modes in
      the form without them: a plugin's paths have passed the path rule, so nothing is ambiguous. */
  lemma TreeTextInjective(first: seq<Entry>, second: seq<Entry>, limits: Limits, accepts: string -> bool, modes: bool)
    requires Valid(limits) && ReadablePaths(accepts) && Fingerprintable(first, limits, accepts)
        && Fingerprintable(second, limits, accepts)
    requires Hashed(first) && Hashed(second)
    ensures Writable(first) && Writable(second)
    ensures TreeText(first, modes) == TreeText(second, modes)
            <==> |first| == |second| && forall i :: 0 <= i < |first| ==> Seen(first[i], modes) == Seen(second[i], modes)
  {
    ReadableTree(first, limits, accepts, modes);
    ReadableTree(second, limits, accepts, modes);
    if TreeText(first, modes) == TreeText(second, modes) {
      TextInjective(RowsOf(first, modes), RowsOf(second, modes));
      forall i | 0 <= i < |first| ensures Seen(first[i], modes) == Seen(second[i], modes) {
        assert RowsOf(first, modes)[i] == RowsOf(second, modes)[i];
        SameRow(first[i], second[i], modes);
      }
    }
    if |first| == |second| && forall i :: 0 <= i < |first| ==> Seen(first[i], modes) == Seen(second[i], modes) {
      forall i | 0 <= i < |first| ensures RowsOf(first, modes)[i] == RowsOf(second, modes)[i] {
        assert Seen(first[i], modes) == Seen(second[i], modes);
      }
      assert RowsOf(first, modes) == RowsOf(second, modes);
    }
  }

  /** Trees whose full texts agree have the same content, whichever modes were set since. */
  lemma FullImpliesContent(first: seq<Entry>, second: seq<Entry>, limits: Limits, accepts: string -> bool)
    requires Valid(limits) && ReadablePaths(accepts) && Fingerprintable(first, limits, accepts)
        && Fingerprintable(second, limits, accepts)
    requires Hashed(first) && Hashed(second)
    requires Writable(first) && Writable(second) && TreeText(first, true) == TreeText(second, true)
    ensures TreeText(first, false) == TreeText(second, false)
  {
    TreeTextInjective(first, second, limits, accepts, true);
    TreeTextInjective(first, second, limits, accepts, false);
    assert forall i :: 0 <= i < |first| ==> Seen(first[i], true) == Seen(second[i], true);
  }

  lemma {:induction false} HasFile(entries: seq<Entry>)
    requires Sizes(entries) != []
    ensures exists i :: 0 <= i < |entries| && entries[i].node.Regular?
  {
    var front := entries[..|entries| - 1];
    if !entries[|entries| - 1].node.Regular? {
      HasFile(front);
      var i :| 0 <= i < |front| && front[i].node.Regular?;
      assert entries[i].node.Regular?;
    }
  }

  /** The two forms never agree, even for one tree: they must not be compared with each other. */
  lemma FormsNeverAgree(first: seq<Entry>, second: seq<Entry>, limits: Limits, accepts: string -> bool)
    requires Valid(limits) && ReadablePaths(accepts) && Fingerprintable(first, limits, accepts)
        && Fingerprintable(second, limits, accepts)
    requires Hashed(first) && Hashed(second)
    ensures Writable(first) && Writable(second) && TreeText(first, true) != TreeText(second, false)
  {
    ReadableTree(first, limits, accepts, true);
    ReadableTree(second, limits, accepts, false);
    var with, without := RowsOf(first, true), RowsOf(second, false);
    HasFile(first);
    var i :| 0 <= i < |first| && first[i].node.Regular?;
    assert |with[i]| == 5 && forall k :: 0 <= k < |without| ==> |without[k]| <= 4;
    if Text(with) == Text(without) { TextInjective(with, without); }
  }
}
