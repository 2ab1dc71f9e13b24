/** Staging selected payloads of a snapshot: validated once, then read again. */
module Staging {
  import opened Archives
  import opened ArchiveValidation
  import opened Identities
  import opened ResourceLimits
  import opened Sequences

  /** A staged file: the number of its payload, and the size and hash it is known by. */
  datatype Staged = Staged(payload: nat, size: int64, sha256: string)

  /** The staged files, and the names payloads were created for, in the order of their numbers. */
  datatype Stage = Stage(staged: map<string, Staged>, created: seq<string>)

  const NOTHING := Stage(map[], [])

  /** The staging directory, by payload number. Only an unhealthy one fails to write or remove. */
  class Directory {
    var payloads: map<nat, Content>
    const healthy: bool

    constructor (healthy: bool)
      ensures payloads == map[] && this.healthy == healthy
    {
      payloads, this.healthy := map[], healthy;
    }

    /** Creates a payload and fills it; one that cannot be filled is left with other content. */
    method Write(number: nat, content: Content) returns (created: bool, ok: bool)
      modifies this
      ensures healthy ==> ok
      ensures ok ==> created && payloads == old(payloads)[number := content]
      ensures created ==> payloads.Keys == old(payloads).Keys + {number}
      ensures !created ==> payloads == old(payloads)
    {
      var refused: bool, spoiled: bool, other: Content := *, *, *;
      if refused && !healthy { return false, false; }
      ok := !spoiled || healthy;
      payloads := payloads[number := if ok then content else other];
      created := true;
    }

    method Remove(number: nat)
      modifies this
      ensures payloads == old(payloads) - {number} || (!healthy && payloads == old(payloads))
    {
      var failed: bool := *;
      if !failed || healthy { payloads := payloads - {number}; }
    }
  }

  /** There are payloads of the first numbers, and no others. */
  ghost predicate Numbered(payloads: map<nat, Content>, n: nat) { forall k: nat :: k in payloads <==> k < n }

  predicate ValidRequest(rules: Rules, files: seq<File>, requested: seq<string>)
    requires Distinct(Names(files))
  {
    && Distinct(requested)
    && forall i :: 0 <= i < |requested| ==> rules.accepts(requested[i]) && requested[i] in Expected(files)
  }

  predicate Carries(content: Content, file: File) {
    content.length == file.size as int && content.sha256 == file.sha256
  }

  /** Payload number k carries what the inventory declares for the name it was created for. */
  predicate StagedAt(stage: Stage, payloads: map<nat, Content>, expected: map<string, File>, k: nat)
    requires k < |stage.created|
  {
    var name := stage.created[k];
    && name in stage.staged && name in expected && k in payloads
    && stage.staged[name] == Staged(k, expected[name].size, expected[name].sha256)
    && Carries(payloads[k], expected[name])
  }

  /** Exactly the wanted names are staged, each under a payload of its own, and nothing else is there. */
  ghost predicate StagesExactly(stage: Stage, payloads: map<nat, Content>, expected: map<string, File>,
                                wanted: set<string>) {
    && Numbered(payloads, |stage.created|)
    && stage.staged.Keys == Elements(stage.created) == wanted
    && forall k :: 0 <= k < |stage.created| ==> StagedAt(stage, payloads, expected, k)
  }

  /** What staging one more payload leaves. */
  function AddPayload(stage: Stage, name: string, file: File): Stage {
    Stage(stage.staged[name := Staged(|stage.created|, file.size, file.sha256)], stage.created + [name])
  }

  lemma AddPayloadStages(stage: Stage, payloads: map<nat, Content>, expected: map<string, File>, wanted: set<string>,
                         name: string, content: Content)
    requires StagesExactly(stage, payloads, expected, wanted)
    requires name in expected && name !in wanted && Carries(content, expected[name])
    ensures StagesExactly(AddPayload(stage, name, expected[name]), payloads[|stage.created| := content], expected,
                          wanted + {name})
  {
    var number, more := |stage.created|, AddPayload(stage, name, expected[name]);
    var after := payloads[number := content];
    ElementsAppend(stage.created, name);
    forall k | 0 <= k < |more.created| ensures StagedAt(more, after, expected, k) {
      if k < number {
        assert StagedAt(stage, payloads, expected, k) && stage.created[k] in Elements(stage.created);
      }
    }
  }

  /** What is staged for a name is what the inventory declares for it, byte for byte. */
  lemma StagedCarries(stage: Stage, payloads: map<nat, Content>, expected: map<string, File>, wanted: set<string>,
                      name: string)
    requires StagesExactly(stage, payloads, expected, wanted) && name in wanted
    ensures name in stage.staged && name in expected && stage.staged[name].payload in payloads
    ensures var content := payloads[stage.staged[name].payload];
            && content.length == stage.staged[name].size as int == expected[name].size as int
            && content.sha256 == stage.staged[name].sha256 == expected[name].sha256
  {
    var k :| 0 <= k < |stage.created| && stage.created[k] == name;
    assert StagedAt(stage, payloads, expected, k);
  }

  /** No two names share a payload. */
  lemma OwnPayloads(stage: Stage, payloads: map<nat, Content>, expected: map<string, File>, wanted: set<string>,
                    first: string, second: string)
    requires StagesExactly(stage, payloads, expected, wanted) && first in wanted && second in wanted
    requires stage.staged[first].payload == stage.staged[second].payload
    ensures first == second
  {
    var j :| 0 <= j < |stage.created| && stage.created[j] == first;
    var k :| 0 <= k < |stage.created| && stage.created[k] == second;
    assert StagedAt(stage, payloads, expected, j) && StagedAt(stage, payloads, expected, k);
  }

  /** The requested names, checked one by one. */
  method CheckRequest(rules: Rules, files: seq<File>, requested: seq<string>) returns (ok: bool)
    requires Distinct(Names(files))
    ensures ok <==> ValidRequest(rules, files, requested)
  {
    var names, expected, i: nat := {}, Expected(files), 0;
    while i < |requested|
      invariant 0 <= i <= |requested| && Distinct(requested[..i])
      invariant names == set k | 0 <= k < i :: requested[k]
      invariant forall k :: 0 <= k < i ==> rules.accepts(requested[k]) && requested[k] in expected
    {
      if !rules.accepts(requested[i]) || requested[i] in names || requested[i] !in expected { return false; }
      names := names + {requested[i]};
      i := i + 1;
    }
    assert requested[..i] == requested;
    ok := true;
  }

  lemma DeclaredIsValid(rules: Rules, files: seq<File>, name: string)
    requires ValidFiles(rules, files)
    ensures name in Expected(files) ==> rules.accepts(name) && Expected(files)[name].size >= 0
  {
  }

  /** What is known when the first entries have been read again. */
  ghost predicate Restaged(entries: seq<Entry>, files: seq<File>, n: nat, seen: set<string>, requested: set<string>,
                     stage: Stage, payloads: map<nat, Content>)
    requires Distinct(Names(files))
  {
    && GoodSoFar(entries, files, n) && Seen(seen, entries, n)
    && StagesExactly(stage, payloads, Expected(files), seen * requested)
  }

  /** Reads one entry again and stages it if it is wanted; only an unhealthy disk refuses a payload. */
  method StageEntry(rules: Rules, entries: seq<Entry>, files: seq<File>, i: nat, seen: set<string>,
                    requested: set<string>, stage: Stage, directory: Directory)
    returns (ok: bool, more: Stage)
    requires ValidFiles(rules, files) && i < |entries|
    requires Restaged(entries, files, i, seen, requested, stage, directory.payloads)
    modifies directory
    ensures ok ==> Restaged(entries, files, i + 1, seen + {entries[i].name}, requested, more, directory.payloads)
    ensures !ok && directory.healthy ==> !HoldsExactly(entries, files)
    ensures Numbered(directory.payloads, |more.created|)
  {
    var entry, expected := entries[i], Expected(files);
    var good := Unspoiled(expected, seen, entry);
    UnspoiledDecides(rules, entries, files, i, seen);
    if !good { return false, stage; }
    ok, more := KeepPayload(expected, entry, seen, requested, stage, directory);
  }

  /** What is checked of an entry when it is read again. */
  predicate Unspoiled(expected: map<string, File>, seen: set<string>, entry: Entry) {
    && entry.regular && entry.name in expected && entry.size == expected[entry.name].size && entry.name !in seen
    && WellFilled(expected, entry)
  }

  /** Fewer checks than validation makes, to the same effect. */
  lemma UnspoiledDecides(rules: Rules, entries: seq<Entry>, files: seq<File>, i: nat, seen: set<string>)
    requires ValidFiles(rules, files) && i < |entries| && GoodSoFar(entries, files, i) && Seen(seen, entries, i)
    ensures if Unspoiled(Expected(files), seen, entries[i])
            then GoodSoFar(entries, files, i + 1) && Seen(seen + {entries[i].name}, entries, i + 1)
            else !HoldsExactly(entries, files)
  {
    DeclaredIsValid(rules, files, entries[i].name);
    if Unspoiled(Expected(files), seen, entries[i]) {
      ChecksExtend(rules, entries, files, i, seen);
    } else {
      ChecksSpoil(rules, entries, files, i, seen);
    }
  }

  /** Writes a payload if it is wanted. What was created is remembered even if it could not be filled. */
  method KeepPayload(expected: map<string, File>, entry: Entry, seen: set<string>, requested: set<string>,
                     stage: Stage, directory: Directory)
    returns (ok: bool, more: Stage)
    requires Unspoiled(expected, seen, entry) && StagesExactly(stage, directory.payloads, expected, seen * requested)
    modifies directory
    ensures ok ==> StagesExactly(more, directory.payloads, expected, (seen + {entry.name}) * requested)
    ensures directory.healthy ==> ok
    ensures Numbered(directory.payloads, |more.created|)
  {
    if entry.name !in requested {
      assert (seen + {entry.name}) * requested == seen * requested;
      return true, stage;
    }
    AddPayloadStages(stage, directory.payloads, expected, seen * requested, entry.name, entry.content);
    assert (seen + {entry.name}) * requested == seen * requested + {entry.name};
    var number := |stage.created|;
    var created: bool;
    created, ok := directory.Write(number, entry.content);
    more := if created then AddPayload(stage, entry.name, expected[entry.name]) else stage;
  }

  /** Reads the entries after the manifest again. */
  method StageEntries(rules: Rules, entries: seq<Entry>, files: seq<File>, requested: set<string>, directory: Directory)
    returns (ok: bool, stage: Stage)
    requires ValidFiles(rules, files) && requested <= Expected(files).Keys && directory.payloads == map[]
    modifies directory
    ensures ok ==> HoldsExactly(entries, files) && StagesExactly(stage, directory.payloads, Expected(files), requested)
    ensures directory.healthy && HoldsExactly(entries, files) ==> ok
    ensures Numbered(directory.payloads, |stage.created|)
  {
    var seen: set<string>, i := {}, 0;
    stage := NOTHING;
    while i < |entries|
      invariant 0 <= i <= |entries| && Restaged(entries, files, i, seen, requested, stage, directory.payloads)
    {
      ok, stage := StageEntry(rules, entries, files, i, seen, requested, stage, directory);
      if !ok { return; }
      seen := seen + {entries[i].name};
      i := i + 1;
    }
    ExactlyWhenComplete(entries, files);
    if |seen| != |Expected(files)| { return false, stage; }
    SeenIsAll(entries, files, seen);
    StagedCount(stage, directory.payloads, Expected(files), seen, requested);
    ok := |stage.staged| == |requested|;
  }

  /** Removes what was created; a removal that fails is ignored. */
  method CleanUp(directory: Directory, stage: Stage)
    requires Numbered(directory.payloads, |stage.created|)
    modifies directory
    ensures directory.healthy ==> directory.payloads == map[]
  {
    for k := 0 to |stage.created|
      invariant forall number :: number in directory.payloads ==> number < |stage.created|
      invariant directory.healthy ==> forall number :: number in directory.payloads ==> number >= k
    {
      directory.Remove(k);
    }
    assert directory.healthy ==> directory.payloads.Keys == {};
  }

  lemma StagedCount(stage: Stage, payloads: map<nat, Content>, expected: map<string, File>, seen: set<string>,
                    requested: set<string>)
    requires StagesExactly(stage, payloads, expected, seen * requested) && requested <= seen
    ensures StagesExactly(stage, payloads, expected, requested) && |stage.staged| == |requested|
  {
  }

  lemma SeenIsAll(entries: seq<Entry>, files: seq<File>, seen: set<string>)
    requires Distinct(Names(files)) && GoodSoFar(entries, files, |entries|)
    requires Seen(seen, entries, |entries|) && |seen| == |Expected(files)|
    ensures seen == Expected(files).Keys
  {
    forall name | name in seen ensures name in Expected(files) {
      var k :| 0 <= k < |entries| && entries[k].name == name;
      DeclaredByName(files, entries[k]);
    }
    SubsetOfSameSize(seen, Expected(files).Keys);
  }

  lemma SubsetOfSameSize<T>(some: set<T>, all: set<T>)
    requires some <= all && |some| == |all|
    ensures some == all
  {
    assert |all - some| == |all| - |some|;
    assert all == some + (all - some);
  }

  /** Whether the first entry is still a manifest of the allowed size. */
  predicate LeadsAgain(rules: Rules, entries: seq<Entry>) {
    && entries != [] && entries[0].regular && entries[0].name == MANIFEST_NAME
    && entries[0].size <= rules.limits.maxManifestSize && entries[0].content.length == entries[0].size as int
  }

  /** Stages exactly the requested files of an acceptable archive, or cleans up: then nothing is left
      in the directory unless it cannot be removed. The archive is read a second time: `reopened` is
      what that reading finds, and `untouched` whether the file is still the one that was opened. */
  method StageSelected(rules: Rules, archive: Archive, reopened: Archive, untouched: bool,
                       requested: seq<string>, directory: Directory)
    returns (result: Option<Manifest>, stage: Stage)
    requires directory.payloads == map[]
    modifies directory
    ensures result.Some? ==>
      && Acceptable(rules, archive, result.value)
      && ValidRequest(rules, result.value.files, requested)
      && StagesExactly(stage, directory.payloads, Expected(result.value.files), Elements(requested))
    ensures result.Some? ==>
      && untouched && reopened.intact
      && (reopened.entries == [] ||
          var first := reopened.entries[0];
          && first.regular && first.name == MANIFEST_NAME && first.size <= rules.limits.maxManifestSize
          && first.content.length == first.size as int)
    ensures result.None? ==> stage == NOTHING && (directory.healthy ==> directory.payloads == map[])
    ensures directory.healthy && untouched && reopened == archive ==>
      forall value :: Acceptable(rules, archive, value) && ValidRequest(rules, value.files, requested) ==>
          result == Some(value)
  {
    stage := NOTHING;
    result := ValidateArchive(rules, archive);
    if result.None? { return; }
    var files := result.value.files;
    assert Acceptable(rules, archive, result.value);
    var valid := CheckRequest(rules, files, requested);
    if !valid { return None, stage; }
    var wanted := Elements(requested);
    if reopened.entries == [] {
      // Only an empty inventory leaves nothing to read, and then nothing can have been requested.
      if |Expected(files)| == 0 && reopened.intact && untouched {
        assert wanted == {};
        return result, stage;
      }
      return None, stage;
    }
    if !LeadsAgain(rules, reopened.entries) { return None, stage; }
    var ok, staged := StageEntries(rules, reopened.entries[1..], files, wanted, directory);
    if !ok || !reopened.intact || !untouched {
      CleanUp(directory, staged);
      return None, stage;
    }
    return result, staged;
  }
}
