/** What a check that outlives its marker does to a run. */
module TransactionCounterexamples {
  import opened Identities
  import opened Transaction
  import opened TransactionSafety
  import opened TransactionTheorems
  import opened TransactionExecutions
  import opened TransactionExclusion
  import opened TransactionExposure

  // ---------------------------------------------------------------- a check that outlives its marker

  const PAYLOAD := Identity(1, "payload", 0x180)

  function Created(path: string): Item { Item(path, None, Some(PAYLOAD), path, {}, false) }

  const FIRST_PLAN := Plan([], [Created("a")])
  const SECOND_PLAN := Plan([], [Created("b"), Created("c")])
  const THIRD_PLAN := Plan([], [Created("d")])

  /** A first restore, applied and waiting for its reboot, in a machine that has rebooted. */
  const REBOOTED := State(map["a" := PAYLOAD], Some(Marker(0, FIRST_PLAN, 0, AwaitingReboot)), 1, 1, map[], map[], [])

  lemma FirstRestored()
    ensures Restored(Items(FIRST_PLAN), map[]) == map["a" := PAYLOAD]
  {
    assert Items(FIRST_PLAN) == [Created("a")] && Items(FIRST_PLAN)[..0] == [];
  }

  lemma FirstRestore()
    ensures Reachable(Serialized, Initial(map[]), REBOOTED)
  {
    Start(Serialized, Initial(map[]));
    RunAsks(Serialized, Initial(map[]), Initial(map[]), FIRST_PLAN, Committed);
    FirstRestored();
    FirstRebooted();
  }

  lemma FirstRebooted()
    requires Restored(Items(FIRST_PLAN), map[]) == map["a" := PAYLOAD]
    requires Reachable(Serialized, Initial(map[]), Asked(Initial(map[]), FIRST_PLAN, Committed))
    ensures Reachable(Serialized, Initial(map[]), REBOOTED)
  {
    Take(Serialized, Initial(map[]), Asked(Initial(map[]), FIRST_PLAN, Committed), Reboot, REBOOTED);
  }

  const LOADED := Marker(0, FIRST_PLAN, 0, AwaitingReboot)

  /** Two launches of the application check the same restore: both have loaded its marker, and
      `first` and `second` say which have advanced it and verified the world. */
  function Checked(first: bool, second: bool): State {
    var phase := if first || second then AwaitingPostBootVerification else AwaitingReboot;
    State(map["a" := PAYLOAD], Some(Marker(0, FIRST_PLAN, 0, phase)), 1, 3,
          map[1 := Checking(LOADED, first, first), 2 := Checking(LOADED, second, second)], map[], [])
  }

  lemma BothLoad(start: State)
    requires Reachable(Serialized, start, REBOOTED)
    ensures Reachable(Serialized, start, Checked(false, false))
  {
    var s := Loaded(REBOOTED);
    Take(Serialized, start, REBOOTED, CheckLoad, s);
    assert Loaded(s).processes == Checked(false, false).processes;
    Take(Serialized, start, s, CheckLoad, Checked(false, false));
  }

  lemma BothVerify(start: State)
    requires Reachable(Serialized, start, Checked(false, false))
    ensures Reachable(Serialized, start, Checked(true, true))
  {
    assert AdvancedAndVerified(Checked(false, false), 1).processes == Checked(true, false).processes;
    AdvanceAndVerify(Serialized, start, Checked(false, false), 1);
    assert AdvancedAndVerified(Checked(true, false), 2).processes == Checked(true, true).processes;
    AdvanceAndVerify(Serialized, start, Checked(true, false), 2);
  }

  /** The first check has retired the marker; the second is about to remove it. */
  const ONE_CHECK_LEFT :=
    State(map["a" := PAYLOAD], None, 1, 3, map[2 := Checking(LOADED, true, true)], map["a" := PAYLOAD], [FIRST_PLAN])

  lemma OneChecksOut(start: State)
    requires Reachable(Serialized, start, Checked(true, true))
    ensures Reachable(Serialized, start, ONE_CHECK_LEFT)
  {
    assert Retired(Checked(true, true), 1).processes == ONE_CHECK_LEFT.processes;
    Take(Serialized, start, Checked(true, true), CheckClear(1), ONE_CHECK_LEFT);
  }

  lemma OneCheckIsLeft()
    ensures Reachable(Serialized, Initial(map[]), ONE_CHECK_LEFT)
  {
    FirstRestore();
    BothLoad(Initial(map[]));
    BothVerify(Initial(map[]));
    OneChecksOut(Initial(map[]));
  }

  // ---------------------------------------------------------------- a mix for every plan of two items

  lemma FirstIsWritten(rule: Rule, start: State, s: State, plan: Plan) returns (open: bool)
    requires WellFormed(plan) && AllBefore(plan, s.world) && HasMutations(plan) && Admits(rule, plan)
    requires Reachable(rule, start, Applied(s, plan, 0, false))
    ensures Reachable(rule, start, Applied(s, plan, 1, open))
  {
    open := plan.plugins == [];
    if open { FilesOpen(rule, start, s, plan); }
    ApplyItems(rule, start, s, plan, 0, 1, open);
  }

  lemma OneOfTwoIsAMix(plan: Plan, world: World)
    requires WellFormed(plan) && AllBefore(plan, world) && |Items(plan)| >= 2
    ensures Restored(Items(plan)[..1], world) != world
    ensures Restored(Items(plan)[..1], world) != Restored(Items(plan), world)
  {
    var items := Items(plan);
    RestoredAt(items[..1], world, 0);
    assert Mutates(items[0]) && At(world, items[0].path) == items[0].before;
    DistinctPaths(plan, 0, 1);
    RestoredElsewhere(items[..1], world, items[1].path);
    RestoredAt(items, world, 1);
    assert Mutates(items[1]) && At(world, items[1].path) == items[1].before;
  }

  /** The run begun in s has saved its marker and the check has verified, whatever it wrote there: the
      run writes its first item, the check removes the marker, and the machine reboots. */
  lemma MixIsLeft(start: State, s: State, plan: Plan, check: nat, disk: Option<Marker>) returns (s': State)
    requires Reachable(Serialized, start, Begun(s, plan, Marked, disk)) && disk.Some?
    requires IsCheck(s, check) && s.processes[check].verified && check < s.nextId
    requires WellFormed(plan) && HasMutations(plan) && AllBefore(plan, s.world)
    ensures Reachable(Serialized, start, s') && s'.disk.None? && s'.processes == map[]
    ensures s'.world == Restored(Items(plan)[..1], s.world)
  {
    RunBeginsPlugins(Serialized, start, s, plan, disk);
    assert Applied(s, plan, 0, false) == Begun(s, plan, Applying(0, false, false), Mark(s, plan, PluginConvergence));
    var open := FirstIsWritten(Serialized, start, s, plan);
    var s1 := Applied(s, plan, 1, open);
    Take(Serialized, start, s1, CheckClear(check), Retired(s1, check));
    s' := After(Retired(s1, check), Reboot);
    Take(Serialized, start, Retired(s1, check), Reboot, s');
  }

  /** A serialized execution has left a check in flight without its marker. Whatever plan of two items
      or more is made for the world, a run of it that saves its marker now, and breaks the rule in
      nothing else, can end with no marker on a world that is neither as it was nor restored. */
  lemma StaleCheckLeavesAMix(initial: World, steps: seq<Step>, check: nat, plan: Plan) returns (s': State)
    requires Executes(Initial(initial), steps) && AllFollow(Serialized, Initial(initial), steps)
    requires var s := Reached(Initial(initial), steps);
             && s.disk.None? && IsCheck(s, check)
             && WellFormed(plan) && PlannedFor(plan, s.world) && |Items(plan)| >= 2
    ensures var s := Reached(Initial(initial), steps);
            var approved := Begun(s, plan, Approved, None);
            && Reachable(Serialized, s, approved) && Enabled(approved, SaveMarker(s.nextId))
            && Reachable(Serialized, After(approved, SaveMarker(s.nextId)), s')
            && s'.disk.None? && s'.processes == map[]
            && s'.world == Restored(Items(plan)[..1], s.world)
            && s'.world != s.world && s'.world != Restored(Items(plan), s.world)
  {
    var s := Reached(Initial(initial), steps);
    SerializedKeepsInv(Initial(initial), steps);
    SerializedStaysReady(Initial(initial), steps);
    assert CheckInv(s, check) && check < s.nextId;
    Start(Serialized, s);
    RunIsApproved(Serialized, s, s, plan);
    var saved := After(Begun(s, plan, Approved, None), SaveMarker(s.nextId));
    s' := SavedLeavesAMix(s, saved, check, plan);
    OneOfTwoIsAMix(plan, s.world);
  }

  lemma SavedLeavesAMix(s: State, saved: State, check: nat, plan: Plan) returns (s': State)
    requires saved == Become(Begun(s, plan, Approved, None), s.nextId, Marked).(disk := Mark(s, plan, Prepared))
    requires IsCheck(s, check) && check < s.nextId && IsAwaiting(s.processes[check].loaded.phase)
    requires LooksConverged(s.processes[check].loaded.plan, s.world)
    requires WellFormed(plan) && HasMutations(plan) && AllBefore(plan, s.world)
    ensures Reachable(Serialized, saved, s') && s'.disk.None? && s'.processes == map[]
    ensures s'.world == Restored(Items(plan)[..1], s.world)
  {
    Start(Serialized, saved);
    var s1 := CheckGetsToVerify(Serialized, saved, saved, check);
    var verified := s.(processes := s.processes[check := s1.processes[check]]);
    assert Begun(verified, plan, Marked, s1.disk).processes == s1.processes;
    s' := MixIsLeft(saved, verified, plan, check, s1.disk);
  }

  // ---------------------------------------------------------------- from an empty world

  lemma SerializedSteps(s: State) returns (steps: seq<Step>)
    requires Reachable(Serialized, Initial(map[]), s)
    ensures Executes(Initial(map[]), steps) && AllFollow(Serialized, Initial(map[]), steps)
    ensures Reached(Initial(map[]), steps) == s
  {
    steps :| Executes(Initial(map[]), steps) && AllFollow(Serialized, Initial(map[]), steps)
             && Reached(Initial(map[]), steps) == s;
  }

  /** A run has been approved while a check is in flight without its marker, and has saved its own. */
  const RUN_APPROVED := Begun(ONE_CHECK_LEFT, SECOND_PLAN, Approved, None)
  const RUN_MARKED := Begun(ONE_CHECK_LEFT, SECOND_PLAN, Marked, Mark(ONE_CHECK_LEFT, SECOND_PLAN, Prepared))

  lemma SavesItsMarker()
    ensures Enabled(RUN_APPROVED, SaveMarker(3)) && After(RUN_APPROVED, SaveMarker(3)) == RUN_MARKED
  {
    assert After(RUN_APPROVED, SaveMarker(3)).processes == RUN_MARKED.processes;
  }

  lemma RunIsApprovedThere()
    ensures Reachable(Serialized, Initial(map[]), RUN_APPROVED)
  {
    OneCheckIsLeft();
    RunIsApproved(Serialized, Initial(map[]), ONE_CHECK_LEFT, SECOND_PLAN);
  }

  lemma RunIsMarkedThere()
    ensures Reachable(Unruled, Initial(map[]), RUN_MARKED)
  {
    RunIsApprovedThere();
    SavesItsMarker();
    Start(Unruled, RUN_APPROVED);
    Take(Unruled, RUN_APPROVED, RUN_APPROVED, SaveMarker(3), RUN_MARKED);
    Chain(Serialized, Initial(map[]), RUN_APPROVED, Unruled, RUN_MARKED);
  }

  lemma OneFileIsWritten() returns (s: State)
    ensures Reachable(Serialized, RUN_MARKED, s) && s.disk.None? && s.processes == map[]
    ensures s.world == Restored(Items(SECOND_PLAN)[..1], ONE_CHECK_LEFT.world)
  {
    OneCheckIsLeft();
    var steps := SerializedSteps(ONE_CHECK_LEFT);
    SavesItsMarker();
    s := StaleCheckLeavesAMix(map[], steps, 2, SECOND_PLAN);
  }

  /** Two launches of the application check one restore, and the second is overtaken by a run: of two
      files one is restored and the other is not. */
  lemma OneFileOfTwo() returns (s: State)
    ensures Reachable(Unruled, Initial(map[]), s) && s.disk.None? && s.processes == map[]
    ensures At(s.world, "b") == Created("b").after && At(s.world, "c") == Created("c").before
  {
    s := OneFileIsWritten();
    RunIsMarkedThere();
    Chain(Unruled, Initial(map[]), RUN_MARKED, Serialized, s);
    assert Items(SECOND_PLAN)[..1] == [Created("b")] && [Created("b")][..0] == [];
    assert s.world == Put(ONE_CHECK_LEFT.world, "b", Some(PAYLOAD));
  }

  /** Or two runs are in their transactions at once. */
  lemma TwoRunsInSection() returns (s: State, first: nat, second: nat)
    ensures Reachable(Unruled, Initial(map[]), s) && first != second
    ensures first in s.processes && InSection(s.processes[first])
    ensures second in s.processes && InSection(s.processes[second])
  {
    RunIsApprovedThere();
    RunIsMarkedThere();
    SavesItsMarker();
    var steps := SerializedSteps(RUN_APPROVED);
    first, second := 3, 4;
    SerializedIsChecked(map[], steps, first, 2);
    s := SecondRunGetsIn(RUN_APPROVED, first, 2, THIRD_PLAN);
    Chain(Unruled, Initial(map[]), RUN_MARKED, Disciplined, s);
  }

  // ---------------------------------------------------------------- a record that was not synced

  const THEME := Identity(2, "theme", 0x180)
  const STYLE := Identity(3, "style", 0x180)

  /** The removal of an extra CSS theme of two files, in logical-path order. */
  const THEME_REMOVAL :=
    Plan([], [Item("X/theme.json", Some(THEME), None, "X/theme.json", {}, false),
              Item("X/z.css", Some(STYLE), None, "X/theme.json", {}, false)])

  const THEME_WORLD: World := map["X/theme.json" := THEME, "X/z.css" := STYLE]

  /** Removing an extra theme of two files is exposed: the marker can be retired over a world that
      is neither the original nor the restored one. */
  lemma AmbiguousRecordLeavesAMix() returns (s: State)
    ensures Reachable(Alone(THEME_REMOVAL), Initial(THEME_WORLD), s) && s.disk.None? && s.processes == map[]
    ensures s.world != THEME_WORLD && s.world != Restored(Items(THEME_REMOVAL), THEME_WORLD)
  {
    assert !EvidentItem(THEME_REMOVAL, Items(THEME_REMOVAL)[1], THEME_WORLD) by {
      assert Items(THEME_REMOVAL)[0].path == "X/theme.json";
    }
    s := ExposedPlans(THEME_REMOVAL, THEME_WORLD);
  }
}
