/** Writing a snapshot archive, and what validating it returns. */
module ArchiveWriting {
  import opened Archives
  import opened ArchiveValidation
  import opened Identities
  import opened ResourceLimits
  import opened Sequences
  import opened Sorting

  /** A file to be captured, and what reading its source really yields when it is written. */
  datatype Candidate = Candidate(entry: File, sourcePath: string, content: Content)

  function CandidateFile(candidate: Candidate): File { candidate.entry }

  function CandidatePath(candidate: Candidate): string { candidate.entry.logicalPath }

  predicate HasItsSource(candidate: Candidate) { candidate.entry.generated <==> candidate.sourcePath == "" }

  /** One candidate for each declared file, generated or with a source as declared. */
  predicate ValidCandidates(files: seq<File>, candidates: seq<Candidate>) {
    && multiset(Map(candidates, CandidateFile)) == multiset(files)
    && forall i :: 0 <= i < |candidates| ==> HasItsSource(candidates[i])
  }

  /** The source is still what was declared. */
  predicate Unchanged(candidate: Candidate) {
    candidate.content.length == candidate.entry.size as int && candidate.content.sha256 == candidate.entry.sha256
  }

  predicate AllUnchanged(candidates: seq<Candidate>) {
    forall i :: 0 <= i < |candidates| ==> Unchanged(candidates[i])
  }

  predicate GoodCandidates(candidates: seq<Candidate>, files: seq<File>, n: nat) {
    && n <= |candidates| && Distinct(Map(candidates[..n], CandidatePath))
    && forall i :: 0 <= i < n ==> candidates[i].entry in files && HasItsSource(candidates[i])
  }

  lemma CandidatesOneMore(candidates: seq<Candidate>, files: seq<File>, n: nat)
    requires n < |candidates| && GoodCandidates(candidates, files, n)
    requires candidates[n].entry in files && HasItsSource(candidates[n])
    requires forall k :: 0 <= k < n ==> CandidatePath(candidates[k]) != CandidatePath(candidates[n])
    ensures GoodCandidates(candidates, files, n + 1)
  {
  }

  lemma ValidMeansGood(candidates: seq<Candidate>, files: seq<File>)
    requires Distinct(Names(files)) && ValidCandidates(files, candidates)
    ensures GoodCandidates(candidates, files, |candidates|) && |candidates| == |files|
  {
    var entries := Map(candidates, CandidateFile);
    assert |multiset(entries)| == |entries| && |multiset(files)| == |files|;
    assert candidates[..|candidates|] == candidates;
    MapAnyOrder(files, entries, Path);
    assert Map(entries, Path) == Map(candidates, CandidatePath);
    DistinctAnyOrder(Names(files), Map(candidates, CandidatePath));
    forall i | 0 <= i < |candidates| ensures candidates[i].entry in files {
      assert entries[i] in multiset(files);
    }
  }

  lemma GoodMeansValid(candidates: seq<Candidate>, files: seq<File>)
    requires GoodCandidates(candidates, files, |candidates|) && |candidates| == |files|
    ensures ValidCandidates(files, candidates)
  {
    var entries, paths := Map(candidates, CandidateFile), Map(candidates, CandidatePath);
    assert candidates[..|candidates|] == candidates;
    forall i, j | 0 <= i < j < |entries| ensures entries[i] != entries[j] {
      assert paths[i] != paths[j];
    }
    forall x | x in entries ensures x in files {
      var i :| 0 <= i < |entries| && entries[i] == x;
    }
    Pigeonhole(entries, files);
  }

  /** Among valid candidates none is undeclared, without its source, or repeated. */
  lemma ValidMeansFresh(candidates: seq<Candidate>, files: seq<File>, i: nat)
    requires i < |candidates| && Distinct(Names(files))
    ensures ValidCandidates(files, candidates) ==>
      && candidates[i].entry in files && HasItsSource(candidates[i])
      && forall k :: 0 <= k < i ==> CandidatePath(candidates[k]) != CandidatePath(candidates[i])
  {
    if ValidCandidates(files, candidates) {
      ValidMeansGood(candidates, files);
      assert candidates[..|candidates|] == candidates;
      var paths := Map(candidates, CandidatePath);
      forall k | 0 <= k < i ensures CandidatePath(candidates[k]) != CandidatePath(candidates[i]) {
        assert paths[k] != paths[i];
      }
    }
  }

  lemma FoundByPath(files: seq<File>, file: File)
    requires Distinct(Names(files))
    ensures file in files <==> file.logicalPath in Expected(files) && Expected(files)[file.logicalPath] == file
  {
  }

  lemma ValidWhenComplete(candidates: seq<Candidate>, files: seq<File>)
    requires Distinct(Names(files)) && GoodCandidates(candidates, files, |candidates|)
    ensures ValidCandidates(files, candidates) <==> |candidates| == |files|
  {
    if |candidates| == |files| { GoodMeansValid(candidates, files); }
    if ValidCandidates(files, candidates) { ValidMeansGood(candidates, files); }
  }

  predicate SeenPaths(seen: set<string>, candidates: seq<Candidate>, n: nat)
    requires n <= |candidates|
  {
    |seen| == n && seen == set k | 0 <= k < n :: CandidatePath(candidates[k])
  }

  lemma SeenOneMore(seen: set<string>, candidates: seq<Candidate>, i: nat)
    requires i < |candidates| && SeenPaths(seen, candidates, i) && CandidatePath(candidates[i]) !in seen
    ensures SeenPaths(seen + {CandidatePath(candidates[i])}, candidates, i + 1)
  {
  }

  /** Checks one candidate against the inventory and the candidates before it. */
  method CheckCandidate(files: seq<File>, candidates: seq<Candidate>, i: nat, expected: map<string, File>,
                        seen: set<string>)
    returns (ok: bool)
    requires Distinct(Names(files)) && expected == Expected(files)
    requires i < |candidates| && GoodCandidates(candidates, files, i) && SeenPaths(seen, candidates, i)
    ensures ok ==> GoodCandidates(candidates, files, i + 1) && CandidatePath(candidates[i]) !in seen
    ensures !ok ==> !ValidCandidates(files, candidates)
  {
    var path := CandidatePath(candidates[i]);
    FoundByPath(files, candidates[i].entry);
    ValidMeansFresh(candidates, files, i);
    if path !in expected || expected[path] != candidates[i].entry { return false; }
    if path in seen || !HasItsSource(candidates[i]) { return false; }
    CandidatesOneMore(candidates, files, i);
    ok := true;
  }

  /** Whether there is one candidate for each declared file, decided by looking them up by path. */
  method ValidateCandidates(files: seq<File>, candidates: seq<Candidate>) returns (ok: bool)
    requires Distinct(Names(files))
    ensures ok <==> ValidCandidates(files, candidates)
    ensures ok ==> forall i :: 0 <= i < |candidates| ==>
              (candidates[i].entry.generated <==> candidates[i].sourcePath == "")
  {
    var expected, seen: set<string>, i := Expected(files), {}, 0;
    while i < |candidates|
      invariant 0 <= i <= |candidates| && GoodCandidates(candidates, files, i) && SeenPaths(seen, candidates, i)
    {
      ok := CheckCandidate(files, candidates, i, expected, seen);
      if !ok { return; }
      SeenOneMore(seen, candidates, i);
      seen := seen + {CandidatePath(candidates[i])};
      i := i + 1;
    }
    ExpectedSize(files);
    ValidWhenComplete(candidates, files);
    ok := |seen| == |expected|;
  }

  // ---------------------------------------------------------------- writing

  function CandidateEntry(candidate: Candidate): Entry {
    Entry(candidate.entry.logicalPath, true, candidate.entry.size, candidate.content)
  }

  function ManifestEntry(rules: Rules, value: Manifest): Entry
    requires rules.encode(value).length as int <= MAX_INT64
  {
    Entry(MANIFEST_NAME, true, rules.encode(value).length as int64, rules.encode(value))
  }

  /** Writes the manifest and then the candidates in path order, checking each source as it is read. */
  method WriteArchive(rules: Rules, value: Manifest, candidates: seq<Candidate>) returns (result: Option<seq<Entry>>)
    requires Valid(rules.limits)
    ensures result.Some? <==>
      rules.encode(value).length <= rules.limits.maxManifestSize as int && AllUnchanged(candidates)
    ensures result.Some? ==>
      && |result.value| > 0 && result.value[0] == ManifestEntry(rules, value)
      && multiset(result.value[1..]) == multiset(Map(candidates, CandidateEntry))
  {
    var encoded := rules.encode(value);
    if encoded.length > rules.limits.maxManifestSize as int { return None; }
    var entries, i := [ManifestEntry(rules, value)], 0;
    var ordered := SortSlice(candidates, CandidatePath);
    assert |multiset(ordered)| == |ordered| && |multiset(candidates)| == |candidates|;
    while i < |ordered|
      invariant 0 <= i <= |ordered| && AllUnchanged(ordered[..i])
      invariant entries == [ManifestEntry(rules, value)] + Map(ordered[..i], CandidateEntry)
    {
      if !Unchanged(ordered[i]) {
        assert ordered[i] in multiset(candidates);
        return None;
      }
      assert Map(ordered[..i + 1], CandidateEntry) == Map(ordered[..i], CandidateEntry) + [CandidateEntry(ordered[i])];
      entries := entries + [CandidateEntry(ordered[i])];
      i := i + 1;
    }
    assert ordered[..i] == ordered;
    UnchangedAnyOrder(ordered, candidates);
    MapAnyOrder(ordered, candidates, CandidateEntry);
    assert entries[1..] == Map(ordered, CandidateEntry);
    return Some(entries);
  }

  lemma UnchangedAnyOrder(some: seq<Candidate>, others: seq<Candidate>)
    requires multiset(some) == multiset(others) && AllUnchanged(some)
    ensures AllUnchanged(others)
  {
    forall i | 0 <= i < |others| ensures Unchanged(others[i]) {
      assert others[i] in multiset(some);
    }
  }

  // ---------------------------------------------------------------- the round trip

  /** Unchanged candidates, one for each file, are exactly the declared files once written. */
  lemma WrittenHoldsExactly(entries: seq<Entry>, candidates: seq<Candidate>, files: seq<File>)
    requires ValidCandidates(files, candidates) && AllUnchanged(candidates)
    requires multiset(entries) == multiset(Map(candidates, CandidateEntry))
    ensures HoldsExactly(entries, files)
  {
    var written := Map(candidates, CandidateEntry);
    MapAnyOrder(entries, written, EntryItem);
    MapAnyOrder(Map(candidates, CandidateFile), files, ItemOf);
    assert Map(written, EntryItem) == Map(Map(candidates, CandidateFile), ItemOf) by {
      forall i | 0 <= i < |candidates| ensures EntryItem(written[i]) == ItemOf(candidates[i].entry) {
        assert Unchanged(candidates[i]);
      }
    }
    forall i | 0 <= i < |entries| ensures Complete(entries[i]) {
      assert entries[i] in multiset(written);
      var k :| 0 <= k < |written| && written[k] == entries[i];
      assert Unchanged(candidates[k]);
    }
  }

  /** Decoding a manifest gives back what was encoded. */
  predicate RoundTrips(rules: Rules, value: Manifest) { rules.decode(rules.encode(value)) == Some(value) }

  predicate SizesAllowed(rules: Rules, archive: Archive) {
    && 0 < archive.size as int <= rules.limits.maxTotalSize as int + rules.limits.maxManifestSize as int
    && Total(archive.entries) <= rules.limits.maxCompressionRatio as int * archive.size as int
  }

  /** Creates a snapshot: the checks before writing, the writing, and the validation of what was
      written. `size` is what compression makes of it. */
  method Create(rules: Rules, value: Manifest, candidates: seq<Candidate>, size: int64)
    returns (result: Option<Manifest>, archive: Option<Archive>)
    requires Valid(rules.limits)
    ensures result.Some? ==>
      archive.Some? && Acceptable(rules, archive.value, result.value)
          && HoldsExactly(archive.value.entries[1..], value.files)
    ensures result.Some? && RoundTrips(rules, value) ==> result.value == value
    ensures ValidManifest(rules, value) && WithinLimits(rules.limits, value) && ValidCandidates(value.files, candidates)
            && rules.encode(value).length <= rules.limits.maxManifestSize as int && AllUnchanged(candidates)
            ==> archive.Some?
    ensures RoundTrips(rules, value) && archive.Some? && SizesAllowed(rules, archive.value) ==> result == Some(value)
  {
    result, archive := None, None;
    var valid := ValidateManifest(rules, value);
    if !valid { return; }
    var within := ValidateManifestLimits(rules.limits, value);
    if !within { return; }
    var matched := ValidateCandidates(value.files, candidates);
    if !matched { return; }
    var entries := WriteArchive(rules, value, candidates);
    if entries.None? { return; }
    archive := Some(Archive(size, entries.value, true));
    WrittenHoldsExactly(entries.value[1..], candidates, value.files);
    result := ValidateArchive(rules, archive.value);
    if RoundTrips(rules, value) { assert LeadsWith(rules, entries.value, value); }
    if RoundTrips(rules, value) && SizesAllowed(rules, archive.value) {
      assert Acceptable(rules, archive.value, value);
    }
    if result.Some? { assert Acceptable(rules, archive.value, result.value); }
  }
}
