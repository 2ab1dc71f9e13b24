/** When exactly runs stay apart. */
module TransactionExclusion {
  import opened Identities
  import opened Transaction
  import opened TransactionSafety
  import opened TransactionTheorems
  import opened TransactionExecutions

  /** Two runs are in their transactions at once. */
  predicate TwoInSection(s: State) {
    exists i, j :: i in s.processes && j in s.processes && i != j
                   && InSection(s.processes[i]) && InSection(s.processes[j])
  }

  // ---------------------------------------------------------------- a check whose marker is gone

  /** While no marker is on disk, every check in flight would find its plan restored. */
  ghost predicate ReadyToVerify(s: State) {
    s.disk.None? ==> forall id :: IsCheck(s, id) ==> LooksConverged(s.processes[id].loaded.plan, s.world)
  }

  predicate MovesARun(step: Step) {
    RecordsItsPhase(step) || step.QuiesceDone? || step.QuiesceFails? || step.Touch? || step.ItemDone? || step.ItemFails?
    || step.Verify? || step.UndoTouch? || step.UndoDone? || step.Confirm? || step.Clear?
  }

  predicate Precedes(step: Step) { step.StartRun? || step.Look? || step.Approve? || step.Crash? || step.Reboot? }

  lemma RunIsInSection(s: State, step: Step)
    requires Enabled(s, step) && MovesARun(step)
    ensures step.id in s.processes && InSection(s.processes[step.id])
  {
  }

  lemma NoCheckAppears(s: State, step: Step, check: nat)
    requires Enabled(s, step) && (MovesARun(step) || step.SaveMarker? || Precedes(step))
    requires IsCheck(After(s, step), check)
    ensures IsCheck(s, check) && After(s, step).processes[check] == s.processes[check]
  {
    if RecordsItsPhase(step) { NoCheckRecords(s, step, check); }
  }

  lemma NoCheckRecords(s: State, step: Step, check: nat)
    requires Enabled(s, step) && RecordsItsPhase(step) && IsCheck(After(s, step), check)
    ensures IsCheck(s, check) && After(s, step).processes[check] == s.processes[check]
  {
  }

  /** A check that retires its marker has verified the world, and so has every other check of it. */
  lemma RetiringLeavesReady(s: State, id: nat)
    requires Inv(s) && ChecksCurrent(s) && ReadyToVerify(s) && Enabled(s, CheckClear(id))
    ensures ReadyToVerify(After(s, CheckClear(id)))
  {
    assert CheckInv(s, id) && ChecksItsOwnMarker(s, id);
    forall other | IsCheck(After(s, CheckClear(id)), other)
      ensures LooksConverged(s.processes[other].loaded.plan, s.world)
    {
      assert IsCheck(s, other) && CheckInv(s, other) && ChecksItsOwnMarker(s, other);
    }
  }

  lemma StepKeepsReady(s: State, step: Step)
    requires Inv(s) && ChecksCurrent(s) && ReadyToVerify(s) && Enabled(s, step) && OneAtATime(s, step)
    ensures ReadyToVerify(After(s, step))
  {
    if MovesARun(step) {
      RunIsInSection(s, step);
      NoChecksDuringARun(s, step.id);
      forall check | IsCheck(After(s, step), check) ensures false { NoCheckAppears(s, step, check); }
    } else if step.SaveMarker? || Precedes(step) {
      forall check | IsCheck(After(s, step), check) ensures IsCheck(s, check) { NoCheckAppears(s, step, check); }
    } else if step.CheckClear? {
      RetiringLeavesReady(s, step.id);
    }
  }

  lemma {:induction false} SerializedStaysReady(s: State, steps: seq<Step>)
    requires Inv(s) && ChecksCurrent(s) && ReadyToVerify(s)
    requires Executes(s, steps) && AllFollow(Serialized, s, steps)
    ensures ReadyToVerify(Reached(s, steps))
    decreases |steps|
  {
    if steps != [] {
      CurrentIsOwn(s, steps[0]);
      StepKeepsInv(s, steps[0]);
      ChecksStayCurrent(s, steps[0]);
      StepKeepsReady(s, steps[0]);
      SerializedStaysReady(After(s, steps[0]), steps[1..]);
    }
  }

  // ---------------------------------------------------------------- what such a check can do

  function Without(s: State, ids: set<nat>): State { s.(processes := s.processes - ids) }

  /** Any processes may crash. */
  lemma {:induction false} AllCrash(rule: Rule, start: State, s: State, ids: set<nat>)
    requires Reachable(rule, start, s) && ids <= s.processes.Keys
    ensures Reachable(rule, start, Without(s, ids))
    decreases ids
  {
    if ids == {} {
      assert Without(s, ids) == s;
    } else {
      var id :| id in ids;
      var s1 := End(s, id);
      Take(rule, start, s, Crash(id), s1);
      AllCrash(rule, start, s1, ids - {id});
      assert Without(s1, ids - {id}).processes == Without(s, ids).processes;
    }
  }

  /** The check has verified the world, having advanced whichever marker it found if it had to. */
  predicate HasVerified(s: State, s': State, check: nat)
    requires IsCheck(s, check)
  {
    && IsCheck(s', check) && s'.processes[check].verified && s'.processes[check].loaded == s.processes[check].loaded
    && s' == s.(disk := s'.disk, processes := s.processes[check := s'.processes[check]]) && s'.disk.Some?
  }

  lemma CheckGetsToVerify(rule: Rule, start: State, s: State, check: nat) returns (s': State)
    requires Reachable(rule, start, s) && IsCheck(s, check) && s.disk.Some?
    requires IsAwaiting(s.processes[check].loaded.phase) && LooksConverged(s.processes[check].loaded.plan, s.world)
    ensures Reachable(rule, start, s') && HasVerified(s, s', check)
  {
    if s.processes[check].verified {
      assert s.processes[check := s.processes[check]] == s.processes;
      return s;
    }
    s' := s;
    if CanAdvance(s, check, Committed) {
      s' := Advanced(s, check, Committed);
      Take(rule, start, s, CheckAdvance(check, Committed), s');
    }
    var s1 := s';
    s' := s1.(processes := s1.processes[check := s1.processes[check].(verified := true)]);
    Take(rule, start, s1, CheckVerify(check), s');
    assert s'.processes == s.processes[check := s'.processes[check]];
  }

  /** Any other check crashes, and the check in flight removes the marker by name. */
  lemma MarkerIsRemoved(saved: State, run: nat, check: nat) returns (s: State)
    requires saved.disk.Some? && IsRun(saved, run) && IsCheck(saved, check) && saved.world == saved.committed
    requires IsAwaiting(saved.processes[check].loaded.phase)
    requires LooksConverged(saved.processes[check].loaded.plan, saved.world)
    ensures Reachable(Disciplined, saved, s) && s.disk.None? && NoCheckInFlight(s)
    ensures s.processes == map[run := saved.processes[run]] && s.nextId == saved.nextId
    ensures s.world == saved.world == s.committed
  {
    var others := saved.processes.Keys - {run, check};
    Start(Disciplined, saved);
    AllCrash(Disciplined, saved, saved, others);
    var s1 := CheckGetsToVerify(Disciplined, saved, Without(saved, others), check);
    s := Retired(s1, check);
    Take(Disciplined, saved, s1, CheckClear(check), s);
  }

  /** A state serialized executions reach, in which a run could save its marker and a check is in flight. */
  ghost predicate CheckedWhileSaving(s: State, run: nat, check: nat) {
    && Inv(s) && ReadyToVerify(s) && Enabled(s, SaveMarker(run)) && IsCheck(s, check)
  }

  lemma SerializedIsChecked(initial: World, steps: seq<Step>, run: nat, check: nat)
    requires Executes(Initial(initial), steps) && AllFollow(Serialized, Initial(initial), steps)
    requires var s := Reached(Initial(initial), steps); Enabled(s, SaveMarker(run)) && IsCheck(s, check)
    ensures CheckedWhileSaving(Reached(Initial(initial), steps), run, check)
  {
    SerializedKeepsInv(Initial(initial), steps);
    SerializedStaysReady(Initial(initial), steps);
  }

  lemma SavedAndRemoved(s: State, run: nat, check: nat) returns (s': State)
    requires CheckedWhileSaving(s, run, check)
    ensures Reachable(Disciplined, After(s, SaveMarker(run)), s') && s'.disk.None? && NoCheckInFlight(s')
    ensures s'.processes == map[run := Running(s.processes[run].plan, Marked)] && s'.nextId == s.nextId > run
    ensures s'.world == s.world == s'.committed
  {
    assert CheckInv(s, check);
    s' := MarkerIsRemoved(After(s, SaveMarker(run)), run, check);
  }

  /** Once it has saved, a second run of any plan made for the world gets in beside it, and no other
      step need break a rule. */
  lemma SecondRunGetsIn(s: State, run: nat, check: nat, plan: Plan) returns (s': State)
    requires CheckedWhileSaving(s, run, check)
    requires WellFormed(plan) && HasMutations(plan) && PlannedFor(plan, s.world)
    ensures Reachable(Disciplined, After(s, SaveMarker(run)), s') && run != s.nextId
    ensures run in s'.processes && InSection(s'.processes[run])
    ensures s.nextId in s'.processes && InSection(s'.processes[s.nextId])
  {
    var saved := After(s, SaveMarker(run));
    var s1 := SavedAndRemoved(s, run, check);
    RunIsApproved(Disciplined, saved, s1, plan);
    RunIsMarked(Disciplined, saved, s1, plan);
    s' := Begun(s1, plan, Marked, Mark(s1, plan, Prepared));
  }

  /** And whenever a check is about to remove the marker of a run, whatever its stage. */
  lemma RemovalLetsAnotherIn(rule: Rule, start: State, s: State, run: nat, check: nat, plan: Plan) returns (s': State)
    requires Reachable(rule, start, s) && run in s.processes && InSection(s.processes[run]) && run < s.nextId
    requires Enabled(s, CheckClear(check)) && Admits(rule, plan) && MaySave(rule, Retired(s, check))
    requires WellFormed(plan) && HasMutations(plan) && PlannedFor(plan, s.world)
    ensures Reachable(rule, start, s') && run != s.nextId
    ensures run in s'.processes && InSection(s'.processes[run])
    ensures s.nextId in s'.processes && InSection(s'.processes[s.nextId])
  {
    var s1 := Retired(s, check);
    Take(rule, start, s, CheckClear(check), s1);
    RunIsApproved(rule, start, s1, plan);
    RunIsMarked(rule, start, s1, plan);
    s' := Begun(s1, plan, Marked, Mark(s1, plan, Prepared));
  }

  // ---------------------------------------------------------------- there always is a plan

  lemma Longer(paths: set<string>) returns (n: nat)
    ensures forall path :: path in paths ==> |path| < n
  {
    if paths == {} {
      n := 0;
    } else {
      var path :| path in paths;
      n := Longer(paths - {path});
      n := if |path| < n then n else |path| + 1;
    }
  }

  /** Some file can be created in any world. */
  lemma SomePlan(world: World) returns (plan: Plan)
    ensures WellFormed(plan) && HasMutations(plan) && PlannedFor(plan, world) && plan.plugins == []
    ensures Restored(Items(plan)[..1], world) != world
  {
    var n := Longer(world.Keys);
    var path := seq(n, i => 'a');
    plan := Plan([], [Item(path, None, Some(Identity(0, "", 0)), path, {}, false)]);
    assert Items(plan) == plan.files && Items(plan)[..1] == plan.files;
    RestoredAt(plan.files, world, 0);
  }

  // ---------------------------------------------------------------- what is lost

  /** The second run has written a file when the first gives up and removes the marker by name. */
  lemma FirstGivesUp(start: State, s: State, run: nat) returns (s': State)
    requires Reachable(Disciplined, start, s) && RunAt(s, run, Marked)
    ensures Reachable(Disciplined, start, s') && s'.disk.None?
    ensures s'.world == s.world && s'.committed == s.committed
  {
    var s1 := Become(s, run, Settled);
    Take(Disciplined, start, s, QuiesceFails(run, true), s1);
    s' := End(s1.(disk := None), run);
    Take(Disciplined, start, s1, Clear(run, true), s');
  }

  lemma BoundsAreLost(s: State, run: nat, check: nat) returns (s': State)
    requires CheckedWhileSaving(s, run, check)
    ensures Reachable(Disciplined, After(s, SaveMarker(run)), s')
    ensures s'.disk.None? && s'.world != s'.committed
  {
    var saved := After(s, SaveMarker(run));
    var s1 := SavedAndRemoved(s, run, check);
    var plan := SomePlan(s1.world);
    RunUpToFiles(Disciplined, saved, s1, plan);
    ApplyItems(Disciplined, saved, s1, plan, 0, 1, true);
    s' := FirstGivesUp(saved, Applied(s1, plan, 1, true), run);
  }

  // ---------------------------------------------------------------- exactly when

  lemma {:induction false} DisciplinedIsSerialized(s: State, steps: seq<Step>)
    requires Executes(s, steps) && AllFollow(Disciplined, s, steps)
    ensures AllFollow(Serialized, s, steps)
    decreases |steps|
  {
    if steps != [] { DisciplinedIsSerialized(After(s, steps[0]), steps[1..]); }
  }

  lemma ReachedSerialized(start: State, s: State)
    requires Reachable(Disciplined, start, s)
    ensures Reachable(Serialized, start, s)
  {
    var steps: seq<Step> :| Executes(start, steps) && AllFollow(Disciplined, start, steps)
        && Reached(start, steps) == s;
    DisciplinedIsSerialized(start, steps);
  }

  /** Whatever serialized executions do from here on, runs stay apart. */
  ghost predicate StaysApart(s: State) { forall s' :: Reachable(Serialized, s, s') ==> !TwoInSection(s') }

  /** And the phase on disk bounds the damage. */
  ghost predicate StaysWithinBounds(s: State) { forall s' :: Reachable(Serialized, s, s') ==> WithinBounds(s') }

  /** In any state serialized executions reach, a step leaves runs apart, and the damage bounded, from
      then on if and only if it follows the rule: no marker is saved while a check is in flight. */
  lemma SerializedExactly(initial: World, steps: seq<Step>, step: Step)
    requires Executes(Initial(initial), steps) && AllFollow(Serialized, Initial(initial), steps)
    requires Enabled(Reached(Initial(initial), steps), step)
    ensures var s := Reached(Initial(initial), steps);
            && (StaysApart(After(s, step)) <==> Follows(Serialized, s, step))
            && (StaysWithinBounds(After(s, step)) <==> Follows(Serialized, s, step))
  {
    var s := Reached(Initial(initial), steps);
    SerializedKeepsInv(Initial(initial), steps);
    SerializedStaysReady(Initial(initial), steps);
    if Follows(Serialized, s, step) {
      CurrentIsOwn(s, step);
      StepKeepsInv(s, step);
      ChecksStayCurrent(s, step);
      forall s' | Reachable(Serialized, After(s, step), s') ensures !TwoInSection(s') && WithinBounds(s') {
        KeepsApart(After(s, step), s');
      }
    } else {
      var check :| check in s.processes && s.processes[check].Checking?;
      SavingIsUnsafe(s, step.id, check);
    }
  }

  lemma SavingIsUnsafe(s: State, run: nat, check: nat)
    requires CheckedWhileSaving(s, run, check)
    ensures !StaysApart(After(s, SaveMarker(run))) && !StaysWithinBounds(After(s, SaveMarker(run)))
  {
    var plan := SomePlan(s.world);
    var two := SecondRunGetsIn(s, run, check, plan);
    ReachedSerialized(After(s, SaveMarker(run)), two);
    assert TwoInSection(two);
    var lost := BoundsAreLost(s, run, check);
    ReachedSerialized(After(s, SaveMarker(run)), lost);
    assert !WithinBounds(lost);
  }

  lemma KeepsApart(s: State, s': State)
    requires Inv(s) && ChecksCurrent(s) && Reachable(Serialized, s, s')
    ensures !TwoInSection(s') && WithinBounds(s')
  {
    var steps: seq<Step> :| Executes(s, steps) && AllFollow(Serialized, s, steps) && Reached(s, steps) == s';
    SerializedKeepsInv(s, steps);
    forall i, j | i in s'.processes && j in s'.processes && InSection(s'.processes[i]) && InSection(s'.processes[j])
      ensures i == j
    {
      OneInSection(s', i, j);
    }
  }
}
