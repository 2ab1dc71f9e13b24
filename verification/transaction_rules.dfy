/** Crash safety needs exactly its two rules. */
module TransactionRules {
  import opened Identities
  import opened Transaction
  import opened TransactionSafety
  import opened TransactionTheorems
  import opened TransactionExecutions
  import opened TransactionExclusion
  import opened TransactionExposure

  /** Whatever disciplined executions do from here on, only whole restores are committed, and without
      a marker nothing else is in the world. */
  ghost predicate StaysWhole(initial: World, s: State) {
    forall s' :: Reachable(Disciplined, s, s') ==> Whole(initial, s')
  }

  // ---------------------------------------------------------------- steps that follow the rules

  lemma FollowingStaysWhole(initial: World, s: State, step: Step)
    requires Inv(s) && AwaitingInv(s) && ChecksCurrent(s) && s.committed == Replay(initial, s.history)
    requires Enabled(s, step) && Follows(Disciplined, s, step)
    ensures StaysWhole(initial, After(s, step))
  {
    CurrentIsOwn(s, step);
    StepKeepsInv(s, step);
    StepKeepsAwaiting(s, step);
    ChecksStayCurrent(s, step);
    StepIsWhole(s, step, initial);
    forall s' | Reachable(Disciplined, After(s, step), s') ensures Whole(initial, s') {
      var steps: seq<Step> :| Executes(After(s, step), steps) && AllFollow(Disciplined, After(s, step), steps)
                              && Reached(After(s, step), steps) == s';
      WholeRestoresOnly(After(s, step), steps, initial);
    }
  }

  // ---------------------------------------------------------------- steps that break them

  lemma SavingIsNotWhole(initial: World, s: State, run: nat, check: nat)
    requires CheckedWhileSaving(s, run, check)
    ensures !StaysWhole(initial, After(s, SaveMarker(run)))
  {
    var lost := BoundsAreLost(s, run, check);
    assert !Whole(initial, lost);
  }

  /** Retiring the announcement with an item half undone commits a world that is not restored. */
  lemma UnsyncedIsNotWhole(initial: World, s: State, id: nat)
    requires Unsynced(s, id) && !SelfEvident(s.processes[id].plan, s.world)
    requires s.world == Restored(Items(s.processes[id].plan), Replay(initial, s.history))
    ensures !StaysWhole(initial, s)
  {
    var plan := s.processes[id].plan;
    var k :| 0 <= k < |Items(plan)| && !EvidentItem(plan, Items(plan)[k], s.world);
    Start(Disciplined, s);
    var s' := UnsyncedIsRetired(Disciplined, s, s, id, k);
    assert s'.history[..|s'.history| - 1] == s.history;
    assert Replay(initial, s'.history) == s.world;
    assert !Whole(initial, s');
  }

  /** A request left unsynced puts the run at the start of its rollback, under the announcement. */
  lemma RequestIsUnsynced(s: State, id: nat)
    requires Inv(s) && Enabled(s, RequestReboot(id, Ambiguous))
    ensures var s' := After(s, RequestReboot(id, Ambiguous));
            && Unsynced(s', id) && s'.processes[id].plan == s.processes[id].plan
            && s'.world == s.world && s'.history == s.history
    ensures s.world == Restored(Items(s.processes[id].plan), s.committed)
  {
    assert RunInv(s, id);
    AllAfterIsRestored(s.processes[id].plan, s.world, s.committed);
  }

  // ---------------------------------------------------------------- exactly when

  /** In any state disciplined executions reach, a step leaves the restore crash safe from then on if
      and only if it follows both rules: no marker is saved while a check is in flight, and no
      announcement is left unsynced for a plan that is not self-evident. */
  lemma DisciplinedExactly(initial: World, steps: seq<Step>, step: Step)
    requires Executes(Initial(initial), steps) && AllFollow(Disciplined, Initial(initial), steps)
    requires Enabled(Reached(Initial(initial), steps), step)
    ensures var s := Reached(Initial(initial), steps);
            StaysWhole(initial, After(s, step)) <==> Follows(Disciplined, s, step)
  {
    var s := Reached(Initial(initial), steps);
    WholeRestoresOnly(Initial(initial), steps, initial);
    if Follows(Disciplined, s, step) {
      FollowingStaysWhole(initial, s, step);
    } else if !OneAtATime(s, step) {
      var check :| check in s.processes && s.processes[check].Checking?;
      DisciplinedIsSerialized(Initial(initial), steps);
      SerializedIsChecked(initial, steps, step.id, check);
      SavingIsNotWhole(initial, s, step.id, check);
    } else {
      RequestIsUnsynced(s, step.id);
      UnsyncedIsNotWhole(initial, After(s, step), step.id);
    }
  }
}
