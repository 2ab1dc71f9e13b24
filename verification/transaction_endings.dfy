/** How runs and checks can end. */
module TransactionEndings {
  import opened Identities
  import opened Transaction
  import opened TransactionSafety
  import opened TransactionTheorems
  import opened TransactionExecutions
  import opened TransactionExposure

  // ---------------------------------------------------------------- giving a run up

  /** What is not recorded for undoing is where it was approved, and what was recorded came from there. */
  predicate Revocable(s: State, id: nat)
    requires IsRun(s, id)
  {
    var plan := s.processes[id].plan;
    match s.processes[id].stage
    case Applying(_, _, _) => AllBefore(plan, s.committed)
    case Undoing(remaining, failed) => !failed && BeforeFrom(plan, remaining, s.world)
    case Failing => false
    case _ => true
  }

  predicate BeforeFrom(plan: Plan, first: nat, world: World) {
    forall k :: first <= k < |Items(plan)| ==> At(world, Items(plan)[k].path) == Items(plan)[k].before
  }

  /** The run is gone with its marker, and the world is the last committed one. */
  predicate GivenUp(s: State, id: nat, s': State) {
    s' == s.(disk := None, world := s.committed, processes := s.processes - {id})
  }

  /** Only the run moved on, and with it perhaps the world. */
  predicate MovedOn(s: State, id: nat, s': State) {
    IsRun(s', id) && s' == s.(world := s'.world, processes := s.processes[id := s'.processes[id]])
  }

  lemma GivenUpLater(s: State, id: nat, moved: State, s': State)
    requires MovedOn(s, id, moved) && GivenUp(moved, id, s')
    ensures GivenUp(s, id, s')
  {
    assert moved.processes - {id} == s.processes - {id};
  }

  /** A step no rule forbids. */
  predicate Unforbidden(step: Step) {
    || step.QuiesceFails? || step.RecordQuiesced? || step.BeginPlugins? || step.ItemFails? || step.OpenFiles?
    || step.Verify? || step.RecordVerified? || (step.RequestReboot? && step.update.Refused?)
    || step.UndoTouch? || step.UndoDone? || step.Confirm? || step.Clear?
  }

  lemma TakeUnforbidden(rule: Rule, start: State, s: State, step: Step)
    requires Reachable(rule, start, s) && Inv(s) && Enabled(s, step) && Unforbidden(step)
    ensures Reachable(rule, start, After(s, step)) && Inv(After(s, step))
  {
    StepKeepsInv(s, step);
    Take(rule, start, s, step, After(s, step));
  }

  lemma SettledClears(s: State, id: nat)
    requires Inv(s) && RunAt(s, id, Settled)
    ensures GivenUp(s, id, After(s, Clear(id, true)))
  {
    assert RunInv(s, id);
  }

  lemma ClearsItsMarker(rule: Rule, start: State, s: State, id: nat) returns (s': State)
    requires Reachable(rule, start, s) && Inv(s) && RunAt(s, id, Settled)
    ensures Reachable(rule, start, s') && GivenUp(s, id, s')
  {
    SettledClears(s, id);
    s' := After(s, Clear(id, true));
    TakeUnforbidden(rule, start, s, Clear(id, true));
  }

  // ---------------------------------------------------------------- a rollback that nothing hinders

  /** The last recorded item put back to its approved identity. */
  function PutBack(s: State, id: nat): State
    requires IsUndoing(s, id)
  {
    UndoTouched(s, id, LastItem(s, id).before)
  }

  lemma PutBackIsRevocable(s: State, id: nat)
    requires Inv(s) && IsUndoing(s, id) && Revocable(s, id)
    ensures IsUndoing(PutBack(s, id), id) && CanUndo(PutBack(s, id), id, true)
    ensures var s' := Undone(PutBack(s, id), id, true);
            && MovedOn(s, id, s') && Revocable(s', id)
            && s'.processes[id] == s.processes[id].(stage := Undoing(s.processes[id].stage.remaining - 1, false))
  {
    var plan, k := s.processes[id].plan, s.processes[id].stage.remaining - 1;
    assert WellFormed(plan) by { assert RunInv(s, id); }
    OtherPathsKept(plan, s.world, k, Items(plan)[k].before);
    var s' := Undone(PutBack(s, id), id, true);
    assert s'.processes == s.processes[id := s'.processes[id]];
  }

  lemma UndoOne(rule: Rule, start: State, s: State, id: nat) returns (s': State)
    requires Reachable(rule, start, s) && Inv(s) && IsUndoing(s, id) && Revocable(s, id)
    ensures Reachable(rule, start, s') && Inv(s') && MovedOn(s, id, s') && Revocable(s', id)
    ensures s'.processes[id] == s.processes[id].(stage := Undoing(s.processes[id].stage.remaining - 1, false))
  {
    PutBackIsRevocable(s, id);
    TakeUnforbidden(rule, start, s, UndoTouch(id, LastItem(s, id).before));
    TakeUnforbidden(rule, start, PutBack(s, id), UndoDone(id, true));
    s' := Undone(PutBack(s, id), id, true);
  }

  lemma ConfirmSettles(s: State, id: nat)
    requires IsRun(s, id) && s.processes[id].stage == Undoing(0, false) && Revocable(s, id)
    ensures Enabled(s, Confirm(id, true))
    ensures MovedOn(s, id, After(s, Confirm(id, true))) && RunAt(After(s, Confirm(id, true)), id, Settled)
  {
  }

  lemma {:induction false} RollsBack(rule: Rule, start: State, s: State, id: nat) returns (s': State)
    requires Reachable(rule, start, s) && Inv(s) && IsRun(s, id)
    requires s.processes[id].stage.Undoing? && Revocable(s, id)
    ensures Reachable(rule, start, s') && GivenUp(s, id, s')
    decreases s.processes[id].stage.remaining
  {
    var moved: State;
    if s.processes[id].stage.remaining == 0 {
      ConfirmSettles(s, id);
      moved := After(s, Confirm(id, true));
      TakeUnforbidden(rule, start, s, Confirm(id, true));
      s' := ClearsItsMarker(rule, start, moved, id);
    } else {
      assert IsUndoing(s, id) by { assert RunInv(s, id); }
      moved := UndoOne(rule, start, s, id);
      s' := RollsBack(rule, start, moved, id);
    }
    GivenUpLater(s, id, moved, s');
  }

  // ---------------------------------------------------------------- failing at any stage

  /** The step by which a run turns to undoing, or to releasing Decky's plugins if that is all. */
  function Failure(s: State, id: nat): Step
    requires IsRun(s, id)
  {
    match s.processes[id].stage
    case Marked => QuiesceFails(id, true)
    case Quiesced => RecordQuiesced(id, Refused, true)
    case Recorded => BeginPlugins(id, Refused, true)
    case Applying(next, open, touched) =>
      if next < |Items(s.processes[id].plan)| then ItemFails(id, touched)
      else if open then Verify(id, false)
      else OpenFiles(id, FilesystemConvergence, Refused)
    case Verified => RecordVerified(id, Refused)
    case _ => RequestReboot(id, Refused)
  }

  predicate BeforeUndoing(stage: Stage) {
    stage.Marked? || stage.Quiesced? || stage.Recorded? || stage.Applying? || stage.Verified? || stage.StaticRecorded?
  }

  lemma FailureUndoes(s: State, id: nat)
    requires Inv(s) && IsRun(s, id) && BeforeUndoing(s.processes[id].stage) && Revocable(s, id)
    ensures Enabled(s, Failure(s, id)) && MovedOn(s, id, After(s, Failure(s, id)))
    ensures var stage := After(s, Failure(s, id)).processes[id].stage; stage.Undoing? || stage.Settled?
    ensures Revocable(After(s, Failure(s, id)), id)
  {
    assert RunInv(s, id);
  }

  /** Whatever stage a run is at: if it is revocable it can still fail, undo everything it did, and give
      up its marker with the last committed world back. */
  lemma CanBeGivenUp(rule: Rule, start: State, s: State, id: nat) returns (s': State)
    requires Reachable(rule, start, s) && Inv(s) && IsRun(s, id) && InSection(s.processes[id]) && Revocable(s, id)
    ensures Reachable(rule, start, s') && GivenUp(s, id, s')
    decreases BeforeUndoing(s.processes[id].stage)
  {
    if BeforeUndoing(s.processes[id].stage) {
      FailureUndoes(s, id);
      var failed := After(s, Failure(s, id));
      TakeUnforbidden(rule, start, s, Failure(s, id));
      s' := CanBeGivenUp(rule, start, failed, id);
      GivenUpLater(s, id, failed, s');
    } else if s.processes[id].stage.Settled? {
      s' := ClearsItsMarker(rule, start, s, id);
    } else {
      s' := RollsBack(rule, start, s, id);
    }
  }

  // ---------------------------------------------------------------- and otherwise never

  /** A step a run or a check takes itself, or its crash. */
  predicate TakenBy(step: Step, id: nat) { !step.StartRun? && !step.Reboot? && !step.CheckLoad? && step.id == id }

  ghost predicate Irrevocable(s: State, id: nat) {
    IsRun(s, id) && InSection(s.processes[id]) && !Revocable(s, id) && s.disk.Some? && s.disk.value.owner == id
  }

  /** The marker stays, and its run, if it is still there, cannot settle. */
  ghost predicate Stuck(s: State, id: nat, history: seq<Plan>) {
    && history <= s.history
    && (s.history == history ==>
          && s.disk.Some? && s.disk.value.owner == id && (id in s.processes ==> Irrevocable(s, id)))
  }

  /** An item that was not approved where it is stays out of every rollback. */
  lemma NeverBefore(plan: Plan, stage: Stage, phase: Phase, world: World, committed: World)
    requires stage.Applying? && ApplyingInv(plan, stage, phase, world, committed) && !AllBefore(plan, committed)
    ensures stage.next < |Items(plan)| && !BeforeFrom(plan, stage.next + if stage.touched then 1 else 0, world)
    ensures !BeforeFrom(plan, stage.next, world)
  {
    var k :| 0 <= k < |Items(plan)| && At(committed, Items(plan)[k].path) != Items(plan)[k].before;
    assert At(world, Items(plan)[k].path) == At(committed, Items(plan)[k].path);
  }

  lemma ApplyingIsNeverBefore(s: State, id: nat)
    requires Inv(s) && Irrevocable(s, id) && s.processes[id].stage.Applying?
    ensures var plan, stage := s.processes[id].plan, s.processes[id].stage;
            && stage.next < |Items(plan)| && !BeforeFrom(plan, stage.next, s.world)
            && !BeforeFrom(plan, stage.next + if stage.touched then 1 else 0, s.world)
  {
    assert RunInv(s, id);
    NeverBefore(s.processes[id].plan, s.processes[id].stage, s.disk.value.phase, s.world, s.committed);
  }

  lemma WritingStaysIrrevocable(s: State, id: nat, step: Step)
    requires Irrevocable(s, id) && s.processes[id].stage.Applying?
    requires Enabled(s, step) && TakenBy(step, id) && (step.Touch? || step.ItemDone?)
    ensures Irrevocable(After(s, step), id) && After(s, step).history == s.history
  {
  }

  lemma FailingStaysIrrevocable(s: State, id: nat, step: Step)
    requires Inv(s) && Irrevocable(s, id) && s.processes[id].stage.Applying?
    requires Enabled(s, step) && TakenBy(step, id) && (step.ItemFails? || step.OpenFiles?)
    ensures Irrevocable(After(s, step), id) && After(s, step).history == s.history
  {
    ApplyingIsNeverBefore(s, id);
  }

  lemma ApplyingStaysIrrevocable(s: State, id: nat, step: Step)
    requires Inv(s) && Irrevocable(s, id) && s.processes[id].stage.Applying?
    requires Enabled(s, step) && TakenBy(step, id) && !step.Crash?
    ensures Irrevocable(After(s, step), id) && After(s, step).history == s.history
  {
    ApplyingIsNeverBefore(s, id);
    if step.Touch? || step.ItemDone? {
      WritingStaysIrrevocable(s, id, step);
    } else {
      FailingStaysIrrevocable(s, id, step);
    }
  }

  lemma UndoTouchStaysIrrevocable(s: State, id: nat, value: Option<Identity>)
    requires Inv(s) && Irrevocable(s, id) && CanUndoTouch(s, id, value)
    ensures Irrevocable(UndoTouched(s, id, value), id)
  {
    var plan := s.processes[id].plan;
    assert WellFormed(plan) by { assert RunInv(s, id); }
    OtherPathsKept(plan, s.world, s.processes[id].stage.remaining - 1, value);
  }

  lemma UndoingStaysIrrevocable(s: State, id: nat, step: Step)
    requires Inv(s) && Irrevocable(s, id) && s.processes[id].stage.Undoing?
    requires Enabled(s, step) && TakenBy(step, id) && !step.Crash?
    ensures Irrevocable(After(s, step), id) && After(s, step).history == s.history
  {
    if step.UndoTouch? {
      UndoTouchStaysIrrevocable(s, id, step.value);
    } else {
      assert step.UndoDone? || step.Confirm?;
    }
  }

  lemma OwnStepStaysStuck(s: State, id: nat, step: Step)
    requires Inv(s) && Irrevocable(s, id) && Enabled(s, step) && TakenBy(step, id)
    ensures Stuck(After(s, step), id, s.history)
  {
    if s.processes[id].stage.Applying? && !step.Crash? {
      ApplyingStaysIrrevocable(s, id, step);
    } else if s.processes[id].stage.Undoing? && !step.Crash? {
      UndoingStaysIrrevocable(s, id, step);
    }
  }

  lemma OthersAreOutside(s: State, id: nat, other: nat)
    requires Inv(s) && s.disk.Some? && s.disk.value.owner == id && IsRun(s, other) && other != id
    ensures !InSection(s.processes[other])
  {
    assert RunInv(s, other);
  }

  lemma CheckStaysStuck(s: State, id: nat, step: Step)
    requires ChecksCurrent(s) && Enabled(s, step) && Stuck(s, id, s.history)
    requires (step.CheckAdvance? || step.CheckVerify? || step.CheckClear?) && step.id != id
    ensures Stuck(After(s, step), id, s.history)
  {
    assert ChecksItsOwnMarker(s, step.id);
  }

  /** Nobody else takes the marker away but a check that retires it, and that adds to the history. */
  lemma OtherStepStaysStuck(s: State, id: nat, step: Step)
    requires Inv(s) && ChecksCurrent(s) && Enabled(s, step)
    requires Stuck(s, id, s.history) && (id in s.processes ==> !TakenBy(step, id))
    ensures Stuck(After(s, step), id, s.history)
  {
    if step.StartRun? || step.Reboot? || step.CheckLoad? {
      assert id < s.nextId by { assert MarkerInv(s, s.disk.value); }
    } else if IsRun(s, step.id) {
      OthersAreOutside(s, id, step.id);
      assert step.Approve? || step.Crash?;
    } else if !step.Crash? {
      assert step.id != id;
      CheckStaysStuck(s, id, step);
    }
  }

  lemma HistoryGrows(s: State, step: Step)
    requires Enabled(s, step)
    ensures s.history <= After(s, step).history
  {
    if !step.CheckClear? { OnlyChecksCommit(s, step); }
  }

  lemma {:induction false} StaysStuck(s: State, steps: seq<Step>, id: nat, history: seq<Plan>)
    requires Inv(s) && ChecksCurrent(s) && Executes(s, steps) && AllFollow(Serialized, s, steps)
    requires Stuck(s, id, history)
    ensures Stuck(Reached(s, steps), id, history)
    decreases |steps|
  {
    if steps != [] {
      var step := steps[0];
      CurrentIsOwn(s, step);
      StepKeepsInv(s, step);
      ChecksStayCurrent(s, step);
      HistoryGrows(s, step);
      if s.history == history {
        if id in s.processes && TakenBy(step, id) {
          OwnStepStaysStuck(s, id, step);
        } else {
          OtherStepStaysStuck(s, id, step);
        }
      }
      StaysStuck(After(s, step), steps[1..], id, history);
    }
  }

  /** From here on, a world without a marker can be reached and no restore has been completed since. */
  ghost predicate CanGiveUp(s: State) {
    exists s' :: Reachable(Serialized, s, s') && s'.disk.None? && s'.history == s.history
  }

  /** In any state serialized executions reach, with a run inside its transaction: the transaction can
      still be given up without a trace if and only if its run is revocable. */
  lemma GivenUpExactly(initial: World, steps: seq<Step>, id: nat)
    requires Executes(Initial(initial), steps) && AllFollow(Serialized, Initial(initial), steps)
    requires IsRun(Reached(Initial(initial), steps), id)
    requires InSection(Reached(Initial(initial), steps).processes[id])
    ensures var s := Reached(Initial(initial), steps);
            && (Revocable(s, id) <==> CanGiveUp(s))
            && (Revocable(s, id) ==> exists s' :: Reachable(Serialized, s, s') && GivenUp(s, id, s'))
  {
    var s := Reached(Initial(initial), steps);
    SerializedKeepsInv(Initial(initial), steps);
    if Revocable(s, id) {
      Start(Serialized, s);
      var s' := CanBeGivenUp(Serialized, s, s, id);
    } else {
      assert RunInv(s, id);
      StuckStays(s, id);
    }
  }

  lemma StuckStays(s: State, id: nat)
    requires Inv(s) && ChecksCurrent(s) && Stuck(s, id, s.history)
    ensures !CanGiveUp(s)
  {
    forall s' | Reachable(Serialized, s, s') ensures Stuck(s', id, s.history) {
      var more: seq<Step> :| Executes(s, more) && AllFollow(Serialized, s, more) && Reached(s, more) == s';
      StaysStuck(s, more, id, s.history);
    }
  }

  /** A step by which a run fails to undo, to release or to find what it should, or goes without
      removing its marker. */
  predicate LeavesItsMarker(s: State, step: Step) {
    match step
    case UndoDone(_, clean) => !clean
    case QuiesceFails(_, cleaned) => !cleaned
    case RecordQuiesced(_, update, cleaned) => !update.Committed? && !cleaned
    case BeginPlugins(_, update, cleaned) => !update.Committed? && !cleaned
    case Confirm(_, passed) => !passed
    case Clear(_, removed) => !removed
    case Escalate(_, _) => true
    case Crash(id) => id in s.processes && InSection(s.processes[id])
    case _ => false
  }

  lemma LeavingIsStuck(s: State, step: Step)
    requires Inv(s) && Enabled(s, step) && LeavesItsMarker(s, step)
    ensures Stuck(After(s, step), step.id, After(s, step).history)
  {
    assert RunInv(s, step.id);
  }

  /** After such a step the marker is never given up: it stays until a restore is completed, whatever
      else is found later. */
  lemma UncleanKeepsMarker(initial: World, steps: seq<Step>, step: Step)
    requires Executes(Initial(initial), steps) && AllFollow(Serialized, Initial(initial), steps)
    requires Enabled(Reached(Initial(initial), steps), step)
    requires LeavesItsMarker(Reached(Initial(initial), steps), step)
    ensures !CanGiveUp(After(Reached(Initial(initial), steps), step))
  {
    var s := Reached(Initial(initial), steps);
    SerializedKeepsInv(Initial(initial), steps);
    StepKeepsInv(s, step);
    ChecksStayCurrent(s, step);
    LeavingIsStuck(s, step);
    StuckStays(After(s, step), step.id);
  }

  // ---------------------------------------------------------------- what a check verifies under

  /** A check that may verify has the marker on disk, if it is the one it loaded, say so. */
  ghost predicate SaysSo(s: State, id: nat) {
    IsCheck(s, id) && SameTransaction(s, s.processes[id].loaded)
        && (s.processes[id].verified || s.processes[id].advanced
            || s.processes[id].loaded.phase.AwaitingPostBootVerification?)
    ==> s.disk.value.phase.AwaitingPostBootVerification?
  }

  ghost predicate AllSaySo(s: State) { forall id :: IsCheck(s, id) ==> SaysSo(s, id) }

  /** A run that rewrites its marker has one no check has loaded. */
  lemma RunsLeaveChecksAlone(s: State, step: Step)
    requires Inv(s) && AllSaySo(s) && Enabled(s, step) && RecordsItsPhase(step)
    ensures AllSaySo(After(s, step))
  {
    RunsKeepTheirOwner(s, step);
    var s' := After(s, step);
    forall id | IsCheck(s', id) ensures SaysSo(s', id) {
      assert IsCheck(s, id) && CheckInv(s, id);
    }
  }

  lemma StepKeepsSaying(s: State, step: Step)
    requires Inv(s) && AllSaySo(s) && Enabled(s, step) && ActsOnItsOwn(s, step)
    ensures AllSaySo(After(s, step))
  {
    if RecordsItsPhase(step) {
      RunsLeaveChecksAlone(s, step);
    } else {
      var s' := After(s, step);
      forall id | IsCheck(s', id) ensures SaysSo(s', id) {
        if IsCheck(s, id) { assert SaysSo(s, id) && CheckInv(s, id); }
      }
    }
  }

  lemma {:induction false} AlwaysSaySo(s: State, steps: seq<Step>)
    requires Inv(s) && ChecksCurrent(s) && AllSaySo(s) && Executes(s, steps) && AllFollow(Serialized, s, steps)
    ensures AllSaySo(Reached(s, steps))
    decreases |steps|
  {
    if steps != [] {
      CurrentIsOwn(s, steps[0]);
      StepKeepsInv(s, steps[0]);
      ChecksStayCurrent(s, steps[0]);
      StepKeepsSaying(s, steps[0]);
      AlwaysSaySo(After(s, steps[0]), steps[1..]);
    }
  }

  /** In serialized executions a check retires a marker only once the marker says that the boot after the
      restore is being verified, so an interrupted check is taken up by the next one. */
  lemma RetiredSaysSo(initial: World, steps: seq<Step>, id: nat)
    requires Executes(Initial(initial), steps) && AllFollow(Serialized, Initial(initial), steps)
    requires Enabled(Reached(Initial(initial), steps), CheckClear(id))
    ensures var s := Reached(Initial(initial), steps);
            s.disk.Some? ==> s.disk.value.phase.AwaitingPostBootVerification?
  {
    var s := Reached(Initial(initial), steps);
    SerializedKeepsInv(Initial(initial), steps);
    AlwaysSaySo(Initial(initial), steps);
    assert SaysSo(s, id) && ChecksItsOwnMarker(s, id);
  }

  // ---------------------------------------------------------------- completing a restore

  /** A plan made for the world can be restored whole, and is then in the history. */
  lemma RestoreCompletes(rule: Rule, start: State, s: State, plan: Plan) returns (s': State)
    requires Reachable(rule, start, s) && Admits(rule, plan) && MaySave(rule, s) && s.nextId !in s.processes
    requires s.disk.None? && WellFormed(plan) && HasMutations(plan) && PlannedFor(plan, s.world)
    ensures Reachable(rule, start, s') && s'.disk.None? && s'.processes == map[]
    ensures s'.world == s'.committed == Restored(Items(plan), s.world) && s'.history == s.history + [plan]
  {
    RunAsks(rule, start, s, plan, Committed);
    var asked := Asked(s, plan, Committed);
    Take(rule, start, asked, Reboot, After(asked, Reboot));
    RestoredLooksConverged(plan, s.world);
    s' := CheckRetires(rule, start, After(asked, Reboot));
  }

  /** Each plan is made for the world the ones before it leave. */
  predicate MadeInTurn(initial: World, plans: seq<Plan>)
    decreases |plans|
  {
    plans != [] ==>
      var last := plans[|plans| - 1];
      && MadeInTurn(initial, plans[..|plans| - 1]) && WellFormed(last) && HasMutations(last)
      && PlannedFor(last, Replay(initial, plans[..|plans| - 1]))
  }

  /** Any plans made in turn can all be restored, one after the other, within the rules. */
  lemma {:induction false} RestoresComplete(initial: World, plans: seq<Plan>) returns (s: State)
    requires MadeInTurn(initial, plans)
    ensures Reachable(Disciplined, Initial(initial), s) && s.disk.None? && s.processes == map[]
    ensures s.history == plans && s.world == s.committed == Replay(initial, plans)
    decreases |plans|
  {
    if plans == [] {
      s := Initial(initial);
      Start(Disciplined, s);
    } else {
      var earlier := RestoresComplete(initial, plans[..|plans| - 1]);
      s := RestoreCompletes(Disciplined, Initial(initial), earlier, plans[|plans| - 1]);
      assert plans[..|plans| - 1] + [plans[|plans| - 1]] == plans;
    }
  }
}
