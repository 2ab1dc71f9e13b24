/** The check that rollback will find every payload it can need. */
module StagedRecovery {
  import opened Identities
  import opened Rollback
  import opened Sequences
  import opened ResourceLimits

  /** One file of the recovery snapshot. */
  datatype Recovered = Recovered(logicalPath: string, size: int64, sha256: string, mode: nat)

  /** A payload staged from it. */
  datatype Payload = Payload(size: int64, sha256: string)

  /** The loader settings file, when it exists before the restore. */
  datatype Guard = Guard(size: int64, sha256: string, mode: nat)

  /** A plugin that Decky replaces or removes, and what was approved of it. */
  datatype DeckyPlugin = DeckyPlugin(directory: string, files: nat, bytes: int64)

  datatype Needs = Needs(actions: seq<Action>, guard: Option<Guard>, plugins: seq<DeckyPlugin>)

  const LOADER_PATH := "recovery/decky-loader-settings/loader.json"

  predicate Undoable(action: Action) { action.operation.Replace? || action.operation.Remove? }

  function PathOf(file: Recovered): string { file.logicalPath }

  function Declared(files: seq<Recovered>): map<string, Recovered>
    requires Distinct(Map(files, PathOf))
  {
    OnePerPath(files);
    map f | f in files :: f.logicalPath := f
  }

  lemma OnePerPath(files: seq<Recovered>)
    requires Distinct(Map(files, PathOf))
    ensures forall f, g :: f in files && g in files && f.logicalPath == g.logicalPath ==> f == g
  {
  }

  predicate DeclaresAction(declared: map<string, Recovered>, action: Action) {
    && action.logicalPath in declared
    && declared[action.logicalPath].size as int == action.existingSize
    && declared[action.logicalPath].sha256 == action.existingSha256
    && declared[action.logicalPath].mode == action.existingMode
  }

  predicate DeclaresGuard(declared: map<string, Recovered>, guard: Guard) {
    LOADER_PATH in declared && declared[LOADER_PATH] == Recovered(LOADER_PATH, guard.size, guard.sha256, guard.mode)
  }

  function Prefix(plugin: DeckyPlugin): string { "recovery/plugins/" + plugin.directory + "/" }

  predicate Beneath(plugin: DeckyPlugin, file: Recovered) { Prefix(plugin) <= file.logicalPath }

  /** Whether neither group nor others may write. */
  predicate SafeMode(mode: nat) { mode / 0x10 % 2 == 0 && mode / 2 % 2 == 0 }

  function FilesBeneath(plugin: DeckyPlugin, files: seq<Recovered>): seq<Recovered> {
    if files == [] then []
    else
      var rest, last := FilesBeneath(plugin, files[..|files| - 1]), files[|files| - 1];
      if Beneath(plugin, last) then rest + [last] else rest
  }

  function SizeOf(file: Recovered): int { file.size as int }

  predicate DeclaresPlugin(files: seq<Recovered>, plugin: DeckyPlugin) {
    var beneath := FilesBeneath(plugin, files);
    && |beneath| == plugin.files && Sum(Map(beneath, SizeOf)) == plugin.bytes as int
    && forall i :: 0 <= i < |beneath| ==> SafeMode(beneath[i].mode)
  }

  /** The paths rollback may ask for. */
  function NeededByActions(actions: seq<Action>): set<string> {
    set a | a in actions && Undoable(a) :: a.logicalPath
  }

  function NeededByGuard(guard: Option<Guard>): set<string> { if guard.Some? then {LOADER_PATH} else {} }

  function NeededByPlugin(plugin: DeckyPlugin, files: seq<Recovered>): set<string> {
    set f | f in files && Beneath(plugin, f) :: f.logicalPath
  }

  function NeededByPlugins(plugins: seq<DeckyPlugin>, files: seq<Recovered>): set<string> {
    set p, f | p in plugins && f in files && Beneath(p, f) :: f.logicalPath
  }

  function Needed(needs: Needs, files: seq<Recovered>): set<string> {
    NeededByActions(needs.actions) + NeededByGuard(needs.guard) + NeededByPlugins(needs.plugins, files)
  }

  predicate Stages(staged: map<string, Payload>, file: Recovered) {
    file.logicalPath in staged && staged[file.logicalPath] == Payload(file.size, file.sha256)
  }

  predicate DeclaresActions(declared: map<string, Recovered>, actions: seq<Action>) {
    forall k :: 0 <= k < |actions| && Undoable(actions[k]) ==> DeclaresAction(declared, actions[k])
  }

  predicate DeclaresPlugins(files: seq<Recovered>, plugins: seq<DeckyPlugin>) {
    forall k :: 0 <= k < |plugins| ==> DeclaresPlugin(files, plugins[k])
  }

  /** The recovery snapshot declares everything a rollback can need with its approved identity. */
  predicate DeclaresNeeds(needs: Needs, files: seq<Recovered>, declared: map<string, Recovered>) {
    && DeclaresActions(declared, needs.actions)
    && (needs.guard.Some? ==> DeclaresGuard(declared, needs.guard.value))
    && DeclaresPlugins(files, needs.plugins)
  }

  /** Exactly what is needed is staged, as declared. */
  predicate StagesNeeded(needed: set<string>, files: seq<Recovered>, staged: map<string, Payload>)
    requires Distinct(Map(files, PathOf))
  {
    && staged.Keys == needed
    && forall path :: path in needed ==> path in Declared(files) && Stages(staged, Declared(files)[path])
  }

  // ---------------------------------------------------------------- the check

  predicate Agrees(expected: map<string, Recovered>, declared: map<string, Recovered>) {
    forall path :: path in expected ==> path in declared && expected[path] == declared[path]
  }

  method CheckActions(actions: seq<Action>, declared: map<string, Recovered>)
    returns (ok: bool, expected: map<string, Recovered>)
    ensures ok <==> DeclaresActions(declared, actions)
    ensures ok ==> expected.Keys == NeededByActions(actions) && Agrees(expected, declared)
  {
    expected := map[];
    var i := 0;
    while i < |actions|
      invariant 0 <= i <= |actions| && Agrees(expected, declared)
      invariant forall k :: 0 <= k < i && Undoable(actions[k]) ==> DeclaresAction(declared, actions[k])
      invariant expected.Keys == NeededByActions(actions[..i])
    {
      var action := actions[i];
      assert actions[..i + 1] == actions[..i] + [action];
      if Undoable(action) {
        if !DeclaresAction(declared, action) { return false, expected; }
        expected := expected[action.logicalPath := declared[action.logicalPath]];
      }
      i := i + 1;
    }
    assert actions[..i] == actions;
    ok := true;
  }

  lemma BeneathOneMore(plugin: DeckyPlugin, files: seq<Recovered>, i: nat)
    requires i < |files|
    ensures FilesBeneath(plugin, files[..i + 1])
            == FilesBeneath(plugin, files[..i]) + if Beneath(plugin, files[i]) then [files[i]] else []
    ensures NeededByPlugin(plugin, files[..i + 1])
            == NeededByPlugin(plugin, files[..i]) + if Beneath(plugin, files[i]) then {files[i].logicalPath} else {}
  {
    assert files[..i + 1][..i] == files[..i];
    assert files[..i + 1] == files[..i] + [files[i]];
  }

  lemma {:induction false} BeneathPart(plugin: DeckyPlugin, files: seq<Recovered>, n: nat)
    requires n <= |files|
    ensures FilesBeneath(plugin, files[..n]) <= FilesBeneath(plugin, files)
    ensures forall f :: f in FilesBeneath(plugin, files) ==> f in files
  {
    if n < |files| {
      BeneathPart(plugin, files[..|files| - 1], n);
      assert files[..|files| - 1][..n] == files[..n];
    } else {
      assert files[..n] == files;
      if files != [] { BeneathPart(plugin, files[..|files| - 1], |files| - 1); }
    }
  }

  predicate AllSizesKnown(files: seq<Recovered>) { forall i :: 0 <= i < |files| ==> files[i].size >= 0 }

  /** A running total past the 64-bit range already exceeds what could have been approved. */
  lemma TooManyBytes(plugin: DeckyPlugin, files: seq<Recovered>, n: nat)
    requires n <= |files| && AllSizesKnown(files)
    requires Sum(Map(FilesBeneath(plugin, files[..n]), SizeOf)) > plugin.bytes as int
    ensures !DeclaresPlugin(files, plugin)
  {
    BeneathPart(plugin, files, n);
    var some, all := Map(FilesBeneath(plugin, files[..n]), SizeOf), Map(FilesBeneath(plugin, files), SizeOf);
    assert all == some + all[|some|..];
    SumConcat(some, all[|some|..]);
    forall k | 0 <= k < |all| ensures all[k] >= 0 {
      assert FilesBeneath(plugin, files)[k] in files;
    }
    SumNonNegative(all[|some|..]);
  }

  lemma UnsafeFile(plugin: DeckyPlugin, files: seq<Recovered>, i: nat)
    requires i < |files| && Beneath(plugin, files[i]) && !SafeMode(files[i].mode)
    ensures !DeclaresPlugin(files, plugin)
  {
    BeneathOneMore(plugin, files, i);
    BeneathPart(plugin, files, i + 1);
    var some, all := FilesBeneath(plugin, files[..i + 1]), FilesBeneath(plugin, files);
    assert all[|some| - 1] == files[i];
  }

  /** The files of one plugin counted so far. */
  ghost predicate Counted(plugin: DeckyPlugin, files: seq<Recovered>, i: nat, count: nat, bytes: int64) {
    && i <= |files| && count == |FilesBeneath(plugin, files[..i])|
    && bytes as int == Sum(Map(FilesBeneath(plugin, files[..i]), SizeOf)) && bytes >= 0
    && forall k :: 0 <= k < count ==> SafeMode(FilesBeneath(plugin, files[..i])[k].mode)
  }

  lemma CountOneMore(plugin: DeckyPlugin, files: seq<Recovered>, i: nat)
    requires i < |files| && Beneath(plugin, files[i])
    ensures var some := FilesBeneath(plugin, files[..i]);
            FilesBeneath(plugin, files[..i + 1]) == some + [files[i]]
            && Sum(Map(FilesBeneath(plugin, files[..i + 1]), SizeOf)) == Sum(Map(some, SizeOf)) + files[i].size as int
  {
    BeneathOneMore(plugin, files, i);
    var more := Map(FilesBeneath(plugin, files[..i + 1]), SizeOf);
    assert more[..|more| - 1] == Map(FilesBeneath(plugin, files[..i]), SizeOf);
  }

  /** Counts one more file of a plugin, refusing unsafe modes and a total out of range. */
  method CountFile(plugin: DeckyPlugin, files: seq<Recovered>, i: nat, count: nat, bytes: int64)
    returns (ok: bool, counted: nat, total: int64)
    requires i < |files| && AllSizesKnown(files) && Counted(plugin, files, i, count, bytes)
    ensures if ok then Counted(plugin, files, i + 1, counted, total) else !DeclaresPlugin(files, plugin)
  {
    BeneathOneMore(plugin, files, i);
    if !Beneath(plugin, files[i]) {
      assert FilesBeneath(plugin, files[..i + 1]) == FilesBeneath(plugin, files[..i]);
      return true, count, bytes;
    }
    CountOneMore(plugin, files, i);
    if !SafeMode(files[i].mode) {
      UnsafeFile(plugin, files, i);
      return false, count, bytes;
    }
    if files[i].size as int > MAX_INT64 - bytes as int {
      TooManyBytes(plugin, files, i + 1);
      return false, count, bytes;
    }
    return true, count + 1, bytes + files[i].size;
  }

  /** The expected payloads with a plugin's files added. */
  function WithPlugin(expected: map<string, Recovered>, plugin: DeckyPlugin, files: seq<Recovered>)
    : map<string, Recovered> {
    if files == [] then expected
    else
      var rest, last := WithPlugin(expected, plugin, files[..|files| - 1]), files[|files| - 1];
      if Beneath(plugin, last) then rest[last.logicalPath := last] else rest
  }

  lemma {:induction false} WithPluginAgrees(expected: map<string, Recovered>, plugin: DeckyPlugin,
                                            files: seq<Recovered>, declared: map<string, Recovered>)
    requires Agrees(expected, declared)
    requires forall f :: f in files ==> f.logicalPath in declared && declared[f.logicalPath] == f
    ensures Agrees(WithPlugin(expected, plugin, files), declared)
    ensures WithPlugin(expected, plugin, files).Keys == expected.Keys + NeededByPlugin(plugin, files)
  {
    if files != [] {
      var i := |files| - 1;
      WithPluginAgrees(expected, plugin, files[..i], declared);
      BeneathOneMore(plugin, files, i);
      assert files[..i + 1] == files;
    }
  }

  method CheckPlugin(plugin: DeckyPlugin, files: seq<Recovered>, expected: map<string, Recovered>)
    returns (ok: bool, more: map<string, Recovered>)
    requires AllSizesKnown(files)
    ensures ok <==> DeclaresPlugin(files, plugin)
    ensures ok ==> more == WithPlugin(expected, plugin, files)
  {
    more := expected;
    var count: nat, bytes: int64, i := 0, 0, 0;
    while i < |files|
      invariant 0 <= i <= |files| && Counted(plugin, files, i, count, bytes)
      invariant more == WithPlugin(expected, plugin, files[..i])
    {
      ok, count, bytes := CountFile(plugin, files, i, count, bytes);
      if !ok { return; }
      assert files[..i + 1][..i] == files[..i];
      if Beneath(plugin, files[i]) { more := more[files[i].logicalPath := files[i]]; }
      i := i + 1;
    }
    assert files[..i] == files;
    ok := count == plugin.files && bytes == plugin.bytes;
  }

  lemma PluginsOneMore(plugins: seq<DeckyPlugin>, files: seq<Recovered>, i: nat)
    requires i < |plugins|
    ensures NeededByPlugins(plugins[..i + 1], files)
            == NeededByPlugins(plugins[..i], files) + NeededByPlugin(plugins[i], files)
  {
  }

  method CheckPlugins(plugins: seq<DeckyPlugin>, files: seq<Recovered>, ghost declared: map<string, Recovered>,
                      start: map<string, Recovered>)
    returns (ok: bool, expected: map<string, Recovered>)
    requires AllSizesKnown(files) && Agrees(start, declared)
    requires forall f :: f in files ==> f.logicalPath in declared && declared[f.logicalPath] == f
    ensures ok <==> DeclaresPlugins(files, plugins)
    ensures ok ==> Agrees(expected, declared) && expected.Keys == start.Keys + NeededByPlugins(plugins, files)
  {
    expected := start;
    var i := 0;
    while i < |plugins|
      invariant 0 <= i <= |plugins| && Agrees(expected, declared)
      invariant forall k :: 0 <= k < i ==> DeclaresPlugin(files, plugins[k])
      invariant expected.Keys == start.Keys + NeededByPlugins(plugins[..i], files)
    {
      WithPluginAgrees(expected, plugins[i], files, declared);
      PluginsOneMore(plugins, files, i);
      ok, expected := CheckPlugin(plugins[i], files, expected);
      if !ok { return; }
      i := i + 1;
    }
    assert plugins[..i] == plugins;
    ok := true;
  }

  /** Whether everything expected is staged as declared, and nothing else is. */
  method CheckStaged(expected: map<string, Recovered>, staged: map<string, Payload>) returns (ok: bool)
    requires forall path :: path in expected ==> expected[path].logicalPath == path
    ensures ok <==> staged.Keys == expected.Keys && forall path :: path in expected ==> Stages(staged, expected[path])
  {
    var left := expected.Keys;
    while left != {}
      invariant left <= expected.Keys
      invariant forall path :: path in expected && path !in left ==> Stages(staged, expected[path])
      decreases left
    {
      var path :| path in left;
      if !Stages(staged, expected[path]) { return false; }
      left := left - {path};
    }
    assert expected.Keys <= staged.Keys;
    ok := |staged| == |expected|;
    assert |staged| == |staged.Keys| && |expected| == |expected.Keys|;
    SubsetSize(expected.Keys, staged.Keys);
  }

  lemma SubsetSize<T>(some: set<T>, all: set<T>)
    requires some <= all
    ensures |some| == |all| <==> some == all
  {
    assert all == some + (all - some) && |all| == |some| + |all - some|;
  }

  method CheckGuard(guard: Option<Guard>, declared: map<string, Recovered>, start: map<string, Recovered>)
    returns (ok: bool, expected: map<string, Recovered>)
    requires Agrees(start, declared)
    ensures ok <==> guard.Some? ==> DeclaresGuard(declared, guard.value)
    ensures ok ==> Agrees(expected, declared) && expected.Keys == start.Keys + NeededByGuard(guard)
  {
    if guard.None? { return true, start; }
    if !DeclaresGuard(declared, guard.value) { return false, start; }
    return true, start[LOADER_PATH := declared[LOADER_PATH]];
  }

  /** What must be staged, unless the recovery snapshot fails to declare it as approved. */
  method CollectNeeded(needs: Needs, files: seq<Recovered>, declared: map<string, Recovered>)
    returns (ok: bool, expected: map<string, Recovered>)
    requires AllSizesKnown(files) && forall f :: f in files ==>
        f.logicalPath in declared && declared[f.logicalPath] == f
    ensures ok <==> DeclaresNeeds(needs, files, declared)
    ensures ok ==> Agrees(expected, declared) && expected.Keys == Needed(needs, files)
  {
    ok, expected := CheckActions(needs.actions, declared);
    if !ok { return; }
    ok, expected := CheckGuard(needs.guard, declared, expected);
    if !ok { return; }
    ok, expected := CheckPlugins(needs.plugins, files, declared, expected);
  }

  lemma StagedWhenExpected(needed: set<string>, files: seq<Recovered>, expected: map<string, Recovered>,
                           staged: map<string, Payload>)
    requires Distinct(Map(files, PathOf)) && Agrees(expected, Declared(files)) && expected.Keys == needed
    ensures forall path :: path in expected ==> expected[path].logicalPath == path
    ensures StagesNeeded(needed, files, staged)
            <==> staged.Keys == expected.Keys && forall path :: path in expected ==> Stages(staged, expected[path])
  {
  }

  /** Accepts exactly when the recovery snapshot declares all a rollback can need and exactly that
      is staged. */
  method ValidateStagedRecovery(needs: Needs, created: seq<Recovered>, actual: seq<Recovered>,
                                staged: map<string, Payload>)
    returns (ok: bool)
    requires Distinct(Map(actual, PathOf)) && AllSizesKnown(actual)
    ensures ok <==> created == actual && DeclaresNeeds(needs, actual, Declared(actual))
                    && StagesNeeded(Needed(needs, actual), actual, staged)
  {
    if created != actual { return false; }
    var expected: map<string, Recovered>;
    OnePerPath(actual);
    ok, expected := CollectNeeded(needs, actual, Declared(actual));
    if !ok { return; }
    StagedWhenExpected(Needed(needs, actual), actual, expected, staged);
    ok := CheckStaged(expected, staged);
  }

  // ---------------------------------------------------------------- rollback lacks nothing

  /** What rollback reads from the staged payloads; the mode comes from the plan. */
  function Payloads(staged: map<string, Payload>): map<string, Identity>
    requires forall path :: path in staged ==> staged[path].size >= 0
  {
    map path | path in staged :: Identity(staged[path].size as nat, staged[path].sha256, 0)
  }

  /** The bytes of a file that lies beneath a prefix, and nothing otherwise. */
  function BytesBeneath(prefix: string, file: Recovered): int {
    if prefix <= file.logicalPath then file.size as int else 0
  }

  function Amounts(plugin: DeckyPlugin, files: seq<Recovered>): seq<int> {
    Map(files, f => BytesBeneath(Prefix(plugin), f))
  }

  lemma {:induction false} SumBeneath(plugin: DeckyPlugin, files: seq<Recovered>)
    ensures Sum(Map(FilesBeneath(plugin, files), SizeOf)) == Sum(Amounts(plugin, files))
  {
    if files != [] {
      var i := |files| - 1;
      SumBeneath(plugin, files[..i]);
      assert Amounts(plugin, files)[..i] == Amounts(plugin, files[..i]) && files[..i + 1] == files;
      if Beneath(plugin, files[i]) { CountOneMore(plugin, files, i); }
    }
  }

  lemma {:induction false} MembersBeneath(plugin: DeckyPlugin, files: seq<Recovered>)
    ensures forall f :: f in FilesBeneath(plugin, files) <==> f in files && Beneath(plugin, f)
  {
    if files != [] {
      MembersBeneath(plugin, files[..|files| - 1]);
      assert files == files[..|files| - 1] + [files[|files| - 1]];
    }
  }

  lemma {:induction false} CountBeneath(plugin: DeckyPlugin, files: seq<Recovered>, n: nat)
    requires n <= |files| && Distinct(Map(files, PathOf))
    ensures |FilesBeneath(plugin, files[..n])| == |NeededByPlugin(plugin, files[..n])|
  {
    if n > 0 {
      CountBeneath(plugin, files, n - 1);
      BeneathOneMore(plugin, files, n - 1);
      PathIsNew(plugin, files, n - 1);
    }
  }

  lemma PathIsNew(plugin: DeckyPlugin, files: seq<Recovered>, i: nat)
    requires i < |files| && Distinct(Map(files, PathOf))
    ensures files[i].logicalPath !in NeededByPlugin(plugin, files[..i])
  {
    var paths := Map(files, PathOf);
    forall k | 0 <= k < i ensures files[k].logicalPath != files[i].logicalPath {
      assert paths[k] != paths[i];
    }
  }

  /** A plugin can be put back from what is staged: all its files are there as the recovery snapshot
      declares them, nobody else may write them, and they are as many and as large as was approved. */
  predicate PluginRecoverable(plugin: DeckyPlugin, files: seq<Recovered>, staged: map<string, Payload>) {
    && (forall f :: f in files && Prefix(plugin) <= f.logicalPath ==> Stages(staged, f) && SafeMode(f.mode))
    && |set f | f in files && Prefix(plugin) <= f.logicalPath :: f.logicalPath| == plugin.files
    && Sum(Amounts(plugin, files)) == plugin.bytes as int
  }

  lemma DeclaredIsRecoverable(needs: Needs, files: seq<Recovered>, staged: map<string, Payload>, plugin: DeckyPlugin)
    requires Distinct(Map(files, PathOf)) && plugin in needs.plugins && DeclaresPlugins(files, needs.plugins)
    requires StagesNeeded(Needed(needs, files), files, staged)
    ensures PluginRecoverable(plugin, files, staged)
  {
    OnePerPath(files);
    SumBeneath(plugin, files);
    CountBeneath(plugin, files, |files|);
    MembersBeneath(plugin, files);
    assert files[..|files|] == files;
    assert DeclaresPlugin(files, plugin);
    assert (set f | f in files && Prefix(plugin) <= f.logicalPath :: f.logicalPath) == NeededByPlugin(plugin, files);
    forall f | f in files && Prefix(plugin) <= f.logicalPath ensures Stages(staged, f) && SafeMode(f.mode) {
      assert f.logicalPath in NeededByPlugins(needs.plugins, files) && Declared(files)[f.logicalPath] == f;
      assert f in FilesBeneath(plugin, files);
    }
  }

  /** Once the check accepts, rolling back never meets a missing or a wrong payload: not for a file, the
      loader's settings or a plugin that Decky replaces or removes. */
  lemma RollbackLacksNothing(needs: Needs, files: seq<Recovered>, staged: map<string, Payload>)
    requires Distinct(Map(files, PathOf)) && AllSizesKnown(files)
    requires DeclaresNeeds(needs, files, Declared(files)) && StagesNeeded(Needed(needs, files), files, staged)
    ensures (forall path :: path in staged ==> staged[path].size >= 0)
        && AllRecoverable(needs.actions, Payloads(staged))
    ensures needs.guard.Some? ==>
      && At(staged, LOADER_PATH) == Some(Payload(needs.guard.value.size, needs.guard.value.sha256))
      && exists f :: f in files && f.logicalPath == LOADER_PATH && f.mode == needs.guard.value.mode
    ensures forall plugin :: plugin in needs.plugins ==> PluginRecoverable(plugin, files, staged)
  {
    forall path | path in staged ensures staged[path].size >= 0 {
      assert path in Needed(needs, files);
      var f := Declared(files)[path];
      var i :| 0 <= i < |files| && files[i] == f;
    }
    forall k | 0 <= k < |needs.actions| ensures Recovers(needs.actions[k], Payloads(staged)) {
      var action := needs.actions[k];
      if Undoable(action) {
        assert action in needs.actions && action.logicalPath in NeededByActions(needs.actions);
        assert DeclaresAction(Declared(files), action);
        assert Stages(staged, Declared(files)[action.logicalPath]);
      }
    }
    if needs.guard.Some? { assert LOADER_PATH in Needed(needs, files) && Declared(files)[LOADER_PATH] in files; }
    forall plugin | plugin in needs.plugins ensures PluginRecoverable(plugin, files, staged) {
      DeclaredIsRecoverable(needs, files, staged, plugin);
    }
  }

  lemma SecondBit(rest: nat, digit: nat)
    requires digit < 8
    ensures (4 * rest + digit / 2) % 2 == 0 <==> digit in {0, 1, 4, 5}
  {
    assert (4 * rest + digit / 2) % 2 == digit / 2 % 2;
  }

  /** In octal: neither the group's digit nor that of others has its write bit set. */
  lemma SafeModeDigits(owner: nat, group: nat, others: nat)
    requires group < 8 && others < 8
    ensures SafeMode(0x40 * owner + 8 * group + others) <==> group in {0, 1, 4, 5} && others in {0, 1, 4, 5}
  {
    var mode := 0x40 * owner + 8 * group + others;
    assert mode / 0x10 == 4 * owner + group / 2;
    assert mode / 2 == 4 * (8 * owner + group) + others / 2;
    SecondBit(owner, group);
    SecondBit(8 * owner + group, others);
  }
}
