/** Executions of the protocol put together step by step: what is reachable under a rule. A run is
    taken from its start through the approval, its marker, each item it writes and the verification
    to its reboot request, and a check from loading the marker to verifying the world. */
module TransactionExecutions {
  import opened Identities
  import opened Transaction
  import opened TransactionSafety
  import opened TransactionTheorems

  ghost predicate Reachable(rule: Rule, start: State, s: State) {
    exists steps: seq<Step> :: Executes(start, steps) && AllFollow(rule, start, steps) && Reached(start, steps) == s
  }

  lemma {:induction false} ExecuteOneMore(rule: Rule, s: State, steps: seq<Step>, step: Step)
    requires Executes(s, steps) && AllFollow(rule, s, steps)
    requires Enabled(Reached(s, steps), step) && Follows(rule, Reached(s, steps), step)
    ensures Executes(s, steps + [step]) && AllFollow(rule, s, steps + [step])
    ensures Reached(s, steps + [step]) == After(Reached(s, steps), step)
    decreases |steps|
  {
    var longer := steps + [step];
    if steps == [] {
      assert longer[1..] == [];
    } else {
      assert longer[0] == steps[0] && longer[1..] == steps[1..] + [step];
      ExecuteOneMore(rule, After(s, steps[0]), steps[1..], step);
    }
  }

  lemma Start(rule: Rule, s: State)
    ensures Reachable(rule, s, s)
  {
    assert Executes(s, []) && AllFollow(rule, s, []) && Reached(s, []) == s;
  }

  lemma Take(rule: Rule, start: State, s: State, step: Step, s': State)
    requires Reachable(rule, start, s) && Enabled(s, step) && Follows(rule, s, step) && After(s, step) == s'
    ensures Reachable(rule, start, s')
  {
    var steps: seq<Step> :| Executes(start, steps) && AllFollow(rule, start, steps) && Reached(start, steps) == s;
    ExecuteOneMore(rule, start, steps, step);
    assert Executes(start, steps + [step]);
  }

  lemma {:induction false} ExecuteBoth(s: State, first: seq<Step>, second: seq<Step>)
    requires Executes(s, first) && Executes(Reached(s, first), second)
    ensures Executes(s, first + second) && Reached(s, first + second) == Reached(Reached(s, first), second)
    decreases |first|
  {
    if first == [] {
      assert first + second == second;
    } else {
      assert (first + second)[0] == first[0] && (first + second)[1..] == first[1..] + second;
      ExecuteBoth(After(s, first[0]), first[1..], second);
    }
  }

  lemma {:induction false} NothingForbidden(s: State, steps: seq<Step>)
    requires Executes(s, steps)
    ensures AllFollow(Unruled, s, steps)
    decreases |steps|
  {
    if steps != [] { NothingForbidden(After(s, steps[0]), steps[1..]); }
  }

  /** Executions under different rules follow one another. */
  lemma Chain(rule: Rule, start: State, s: State, other: Rule, s': State)
    requires Reachable(rule, start, s) && Reachable(other, s, s')
    ensures Reachable(Unruled, start, s')
  {
    var first: seq<Step> :| Executes(start, first) && AllFollow(rule, start, first) && Reached(start, first) == s;
    var second: seq<Step> :| Executes(s, second) && AllFollow(other, s, second) && Reached(s, second) == s';
    ExecuteBoth(start, first, second);
    NothingForbidden(start, first + second);
  }

  // ---------------------------------------------------------------- the stages of a run

  /** A run begun in s, at a stage and with what it has put on disk. */
  function Begun(s: State, plan: Plan, stage: Stage, disk: Option<Marker>): State {
    s.(disk := disk, nextId := s.nextId + 1, processes := s.processes[s.nextId := Running(plan, stage)])
  }

  function Mark(s: State, plan: Plan, phase: Phase): Option<Marker> { Some(Marker(s.nextId, plan, s.boot, phase)) }

  /** The rule lets runs of the plan begin. */
  predicate Admits(rule: Rule, plan: Plan) { rule.Alone? ==> rule.plan == plan }

  /** And lets them save their marker in s. */
  predicate MaySave(rule: Rule, s: State) { rule.Unruled? || NoCheckInFlight(s) }

  /** And leave its reboot request in this state. */
  predicate MayRequest(rule: Rule, update: Update) { update.Committed? || (update.Ambiguous? && !rule.Disciplined?) }

  /** One step of a run that leaves the world alone. */
  lemma TakeBegun(rule: Rule, start: State, s: State, plan: Plan, stage: Stage, disk: Option<Marker>,
                  step: Step, stage': Stage, disk': Option<Marker>)
    requires Reachable(rule, start, Begun(s, plan, stage, disk)) && Enabled(Begun(s, plan, stage, disk), step)
    requires Admits(rule, plan) && !step.StartRun? && !step.RequestReboot? && (step.SaveMarker? ==> MaySave(rule, s))
    requires After(Begun(s, plan, stage, disk), step)
             == Become(Begun(s, plan, stage, disk), s.nextId, stage').(disk := disk')
    ensures Reachable(rule, start, Begun(s, plan, stage', disk'))
  {
    var s1 := Begun(s, plan, stage, disk);
    assert NoCheckInFlight(s) ==> NoCheckInFlight(s1);
    assert Become(s1, s.nextId, stage').processes == Begun(s, plan, stage', disk').processes;
    Take(rule, start, s1, step, Begun(s, plan, stage', disk'));
  }

  lemma RunIsApproved(rule: Rule, start: State, s: State, plan: Plan)
    requires Reachable(rule, start, s) && Admits(rule, plan)
    requires s.disk.None? && WellFormed(plan) && HasMutations(plan) && PlannedFor(plan, s.world)
    ensures Reachable(rule, start, Begun(s, plan, Approved, None))
  {
    var id := s.nextId;
    Take(rule, start, s, StartRun(plan), Begun(s, plan, Started, None));
    TakeBegun(rule, start, s, plan, Started, None, Look(id), SawNoMarker, None);
    TakeBegun(rule, start, s, plan, SawNoMarker, None, Approve(id), Approved, None);
  }

  lemma RunIsMarked(rule: Rule, start: State, s: State, plan: Plan)
    requires Reachable(rule, start, Begun(s, plan, Approved, None)) && Admits(rule, plan) && MaySave(rule, s)
    ensures Reachable(rule, start, Begun(s, plan, Marked, Mark(s, plan, Prepared)))
  {
    TakeBegun(rule, start, s, plan, Approved, None, SaveMarker(s.nextId), Marked, Mark(s, plan, Prepared));
  }

  /** Whichever marker is on disk: a run rewrites it by name. */
  lemma RunBeginsPlugins(rule: Rule, start: State, s: State, plan: Plan, disk: Option<Marker>)
    requires Reachable(rule, start, Begun(s, plan, Marked, disk)) && Admits(rule, plan) && disk.Some?
    ensures Reachable(rule, start, Begun(s, plan, Applying(0, false, false), Mark(s, plan, PluginConvergence)))
  {
    var id := s.nextId;
    TakeBegun(rule, start, s, plan, Marked, disk, QuiesceDone(id), Quiesced, disk);
    TakeBegun(rule, start, s, plan, Quiesced, disk, RecordQuiesced(id, Committed, true),
              Recorded, Mark(s, plan, PluginsQuiesced));
    TakeBegun(rule, start, s, plan, Recorded, Mark(s, plan, PluginsQuiesced), BeginPlugins(id, Committed, true),
              Applying(0, false, false), Mark(s, plan, PluginConvergence));
  }

  // ---------------------------------------------------------------- applying

  /** The run has applied the first n items; `open` once it may write files. */
  function Applied(s: State, plan: Plan, n: nat, open: bool): State
    requires n <= |Items(plan)|
  {
    Begun(s, plan, Applying(n, open, false), Mark(s, plan, if open then FilesystemConvergence else PluginConvergence))
    .(world := Restored(Items(plan)[..n], s.world))
  }

  /** The run has written item n and has yet to move on from it. */
  function Writing(s: State, plan: Plan, n: nat, open: bool): State
    requires n < |Items(plan)|
  {
    Begun(s, plan, Applying(n, open, true), Mark(s, plan, if open then FilesystemConvergence else PluginConvergence))
    .(world := Restored(Items(plan)[..n + 1], s.world))
  }

  lemma OneMoreRestored(plan: Plan, world: World, n: nat)
    requires WellFormed(plan) && n < |Items(plan)|
    ensures Restored(Items(plan)[..n + 1], world)
            == Put(Restored(Items(plan)[..n], world), Items(plan)[n].path, Items(plan)[n].after)
    ensures At(Restored(Items(plan)[..n], world), Items(plan)[n].path) == At(world, Items(plan)[n].path)
  {
    assert Items(plan)[..n + 1][..n] == Items(plan)[..n];
    RestoredElsewhere(Items(plan)[..n], world, Items(plan)[n].path);
  }

  lemma WriteIsTouch(s: State, plan: Plan, n: nat, open: bool)
    requires WellFormed(plan) && AllBefore(plan, s.world) && n < |Items(plan)| && (open || n < |plan.plugins|)
    ensures CanTouch(Applied(s, plan, n, open), s.nextId, Items(plan)[n].after)
    ensures Touched(Applied(s, plan, n, open), s.nextId, Items(plan)[n].after) == Writing(s, plan, n, open)
  {
    var s1, s2 := Applied(s, plan, n, open), Writing(s, plan, n, open);
    OneMoreRestored(plan, s.world, n);
    assert NextItem(s1, s.nextId) == Items(plan)[n];
    assert s1.processes[s.nextId := Running(plan, Applying(n, open, true))] == s2.processes;
  }

  lemma DoneIsFinished(s: State, plan: Plan, n: nat, open: bool)
    requires WellFormed(plan) && n < |Items(plan)|
    ensures CanFinishItem(Writing(s, plan, n, open), s.nextId)
    ensures ItemFinished(Writing(s, plan, n, open), s.nextId) == Applied(s, plan, n + 1, open)
  {
    OneMoreRestored(plan, s.world, n);
    PutAt(Restored(Items(plan)[..n], s.world), Items(plan)[n].path, Items(plan)[n].after);
    assert ItemFinished(Writing(s, plan, n, open), s.nextId).processes == Applied(s, plan, n + 1, open).processes;
  }

  lemma ApplyOne(rule: Rule, start: State, s: State, plan: Plan, n: nat, open: bool)
    requires WellFormed(plan) && AllBefore(plan, s.world) && Admits(rule, plan)
    requires n < |Items(plan)| && (open || n < |plan.plugins|)
    requires Reachable(rule, start, Applied(s, plan, n, open))
    ensures Reachable(rule, start, Applied(s, plan, n + 1, open))
  {
    WriteIsTouch(s, plan, n, open);
    TakeTouch(rule, start, Applied(s, plan, n, open), s.nextId, Items(plan)[n].after);
    DoneIsFinished(s, plan, n, open);
    TakeDone(rule, start, Writing(s, plan, n, open), s.nextId);
  }

  lemma TakeTouch(rule: Rule, start: State, s: State, id: nat, value: Option<Identity>)
    requires Reachable(rule, start, s) && CanTouch(s, id, value)
    ensures Reachable(rule, start, Touched(s, id, value))
  {
    Take(rule, start, s, Touch(id, value), Touched(s, id, value));
  }

  lemma TakeDone(rule: Rule, start: State, s: State, id: nat)
    requires Reachable(rule, start, s) && CanFinishItem(s, id)
    ensures Reachable(rule, start, ItemFinished(s, id))
  {
    Take(rule, start, s, ItemDone(id), ItemFinished(s, id));
  }

  lemma {:induction false} ApplyItems(rule: Rule, start: State, s: State, plan: Plan, first: nat, last: nat, open: bool)
    requires WellFormed(plan) && AllBefore(plan, s.world) && Admits(rule, plan)
    requires first <= last <= |Items(plan)| && (open || last <= |plan.plugins|)
    requires Reachable(rule, start, Applied(s, plan, first, open))
    ensures Reachable(rule, start, Applied(s, plan, last, open))
    decreases last
  {
    if first < last {
      var previous := last - 1;
      ApplyItems(rule, start, s, plan, first, previous, open);
      ApplyOne(rule, start, s, plan, previous, open);
    }
  }

  lemma FilesOpen(rule: Rule, start: State, s: State, plan: Plan)
    requires Reachable(rule, start, Applied(s, plan, |plan.plugins|, false)) && Admits(rule, plan)
    ensures Reachable(rule, start, Applied(s, plan, |plan.plugins|, true))
  {
    var s1, step := Applied(s, plan, |plan.plugins|, false), OpenFiles(s.nextId, FilesystemConvergence, Committed);
    assert After(s1, step).processes == Applied(s, plan, |plan.plugins|, true).processes;
    Take(rule, start, s1, step, Applied(s, plan, |plan.plugins|, true));
  }

  /** A run of a plan made for the world gets as far as writing files. */
  lemma RunUpToFiles(rule: Rule, start: State, s: State, plan: Plan)
    requires Reachable(rule, start, s) && Admits(rule, plan) && MaySave(rule, s)
    requires s.disk.None? && WellFormed(plan) && HasMutations(plan) && PlannedFor(plan, s.world)
    ensures Reachable(rule, start, Applied(s, plan, |plan.plugins|, true))
  {
    RunIsApproved(rule, start, s, plan);
    RunIsMarked(rule, start, s, plan);
    RunBeginsPlugins(rule, start, s, plan, Mark(s, plan, Prepared));
    assert Applied(s, plan, 0, false) == Begun(s, plan, Applying(0, false, false), Mark(s, plan, PluginConvergence));
    ApplyItems(rule, start, s, plan, 0, |plan.plugins|, false);
    FilesOpen(rule, start, s, plan);
  }

  // ---------------------------------------------------------------- asking for the reboot

  /** The run has applied everything and asked for its reboot, as the update came out. */
  function Asked(s: State, plan: Plan, update: Update): State
    requires update.Committed? || update.Ambiguous?
  {
    var restored := s.(world := Restored(Items(plan), s.world), disk := Mark(s, plan, AwaitingReboot),
        nextId := s.nextId + 1);
    if update.Committed? then restored
    else restored.(processes := s.processes[s.nextId := Running(plan, Undoing(|Items(plan)|, false))])
  }

  lemma RestoredLooksConverged(plan: Plan, world: World)
    requires WellFormed(plan)
    ensures LooksConverged(plan, Restored(Items(plan), world)) && AllAfter(plan, Restored(Items(plan), world))
  {
    forall k | 0 <= k < |Items(plan)|
      ensures At(Restored(Items(plan), world), Items(plan)[k].path) == Items(plan)[k].after
    {
      RestoredAt(Items(plan), world, k);
    }
  }

  lemma RunVerifies(rule: Rule, start: State, s: State, plan: Plan)
    requires LooksConverged(plan, s.world) && Admits(rule, plan)
    requires Reachable(rule, start,
        Begun(s, plan, Applying(|Items(plan)|, true, false), Mark(s, plan, FilesystemConvergence)))
    ensures Reachable(rule, start, Begun(s, plan, StaticRecorded, Mark(s, plan, StaticVerificationPassed)))
  {
    var id := s.nextId;
    TakeBegun(rule, start, s, plan, Applying(|Items(plan)|, true, false), Mark(s, plan, FilesystemConvergence),
              Verify(id, true), Verified, Mark(s, plan, FilesystemConvergence));
    TakeBegun(rule, start, s, plan, Verified, Mark(s, plan, FilesystemConvergence), RecordVerified(id, Committed),
              StaticRecorded, Mark(s, plan, StaticVerificationPassed));
  }

  lemma TakeRequest(rule: Rule, start: State, s: State, plan: Plan, update: Update)
    requires Admits(rule, plan) && MayRequest(rule, update)
    requires Reachable(rule, start, Begun(s, plan, StaticRecorded, Mark(s, plan, StaticVerificationPassed)))
    ensures Reachable(rule, start,
        RebootRequested(Begun(s, plan, StaticRecorded, Mark(s, plan, StaticVerificationPassed)), s.nextId, update))
  {
    var s1 := Begun(s, plan, StaticRecorded, Mark(s, plan, StaticVerificationPassed));
    Take(rule, start, s1, RequestReboot(s.nextId, update), RebootRequested(s1, s.nextId, update));
  }

  lemma RequestedIsAsked(s: State, plan: Plan, update: Update)
    requires s.nextId !in s.processes && (update.Committed? || update.Ambiguous?)
    ensures var s0 := s.(world := Restored(Items(plan), s.world));
            RebootRequested(Begun(s0, plan, StaticRecorded, Mark(s0, plan, StaticVerificationPassed)), s.nextId, update)
            == Asked(s, plan, update)
  {
    var s0 := s.(world := Restored(Items(plan), s.world));
    var recorded := Begun(s0, plan, StaticRecorded, Mark(s0, plan, StaticVerificationPassed));
    var s1 := RebootRequested(recorded, s.nextId, update);
    assert s1.processes == Asked(s, plan, update).processes;
  }

  lemma VerifyAndAsk(rule: Rule, start: State, s: State, plan: Plan, update: Update)
    requires WellFormed(plan) && Admits(rule, plan) && MayRequest(rule, update)
    requires s.nextId !in s.processes
    requires Reachable(rule, start, Applied(s, plan, |Items(plan)|, true))
    ensures Reachable(rule, start, Asked(s, plan, update))
  {
    var s0 := s.(world := Restored(Items(plan), s.world));
    RestoredLooksConverged(plan, s.world);
    assert Items(plan)[..|Items(plan)|] == Items(plan);
    RunVerifies(rule, start, s0, plan);
    TakeRequest(rule, start, s0, plan, update);
    RequestedIsAsked(s, plan, update);
  }

  /** A whole restore of a plan made for the world, as far as its reboot request. */
  lemma RunAsks(rule: Rule, start: State, s: State, plan: Plan, update: Update)
    requires Reachable(rule, start, s) && Admits(rule, plan) && MaySave(rule, s) && MayRequest(rule, update)
    requires s.disk.None? && WellFormed(plan) && HasMutations(plan) && PlannedFor(plan, s.world)
    requires s.nextId !in s.processes
    ensures Reachable(rule, start, Asked(s, plan, update))
  {
    RunUpToFiles(rule, start, s, plan);
    ApplyItems(rule, start, s, plan, |plan.plugins|, |Items(plan)|, true);
    VerifyAndAsk(rule, start, s, plan, update);
  }

  // ---------------------------------------------------------------- checking after the reboot

  /** What a check does between loading a marker and removing it. */
  function AdvancedAndVerified(s: State, id: nat): State
    requires IsCheck(s, id)
  {
    var check := s.processes[id].(advanced := true, verified := true);
    s.(disk := Some(check.loaded.(phase := AwaitingPostBootVerification)), processes := s.processes[id := check])
  }

  lemma AdvanceAndVerify(rule: Rule, start: State, s: State, id: nat)
    requires Reachable(rule, start, s) && CanAdvance(s, id, Committed)
    requires LooksConverged(s.processes[id].loaded.plan, s.world)
    ensures Reachable(rule, start, AdvancedAndVerified(s, id))
  {
    var s1 := Advanced(s, id, Committed);
    Take(rule, start, s, CheckAdvance(id, Committed), s1);
    var s2 := AdvancedAndVerified(s, id);
    assert s1.processes[id := s1.processes[id].(verified := true)] == s2.processes;
    Take(rule, start, s1, CheckVerify(id), s2);
  }
}
