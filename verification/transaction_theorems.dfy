/** What the invariant gives over whole executions. */
module TransactionTheorems {
  import opened Identities
  import opened Transaction
  import opened TransactionSafety

  // ---------------------------------------------------------------- executions

  predicate Executes(s: State, steps: seq<Step>)
    decreases |steps|
  {
    steps == [] || (Enabled(s, steps[0]) && Executes(After(s, steps[0]), steps[1..]))
  }

  function Reached(s: State, steps: seq<Step>): State
    requires Executes(s, steps)
    decreases |steps|
  {
    if steps == [] then s else Reached(After(s, steps[0]), steps[1..])
  }

  /** What a caller may see to. `Serialized`: no run saves its marker while a post-boot check is in
      flight. `Disciplined`: besides, no awaiting_reboot record is left unsynced for a plan that is
      not self-evident. `Alone`: serialized, and every run is of the one plan. */
  datatype Rule = Unruled | Serialized | Disciplined | Alone(plan: Plan)

  predicate Follows(rule: Rule, s: State, step: Step)
    requires Enabled(s, step)
  {
    match rule
    case Unruled => true
    case Serialized => OneAtATime(s, step)
    case Disciplined => OneAtATime(s, step) && RecordsEvidently(s, step)
    case Alone(plan) => OneAtATime(s, step) && (step.StartRun? ==> step.plan == plan)
  }

  predicate OneAtATime(s: State, step: Step) { step.SaveMarker? ==> NoCheckInFlight(s) }

  predicate NoCheckInFlight(s: State) {
    forall id :: id in s.processes ==> !s.processes[id].Checking?
  }

  predicate AllFollow(rule: Rule, s: State, steps: seq<Step>)
    requires Executes(s, steps)
    decreases |steps|
  {
    steps != [] ==> Follows(rule, s, steps[0]) && AllFollow(rule, After(s, steps[0]), steps[1..])
  }

  ghost predicate ChecksCurrent(s: State) {
    forall id :: IsCheck(s, id) ==> ChecksItsOwnMarker(s, id)
  }

  lemma CurrentIsOwn(s: State, step: Step)
    requires ChecksCurrent(s) && Enabled(s, step)
    ensures ActsOnItsOwn(s, step)
  {
  }

  predicate RecordsItsPhase(step: Step) {
    step.RecordQuiesced? || step.BeginPlugins? || step.OpenFiles? || step.RecordVerified?
    || step.RequestReboot? || step.Escalate?
  }

  lemma RunsKeepTheirOwner(s: State, step: Step)
    requires Inv(s) && Enabled(s, step)
    requires RecordsItsPhase(step)
    ensures s.disk.Some? && s.disk.value.owner == step.id
  {
    assert RunInv(s, step.id);
  }

  lemma NoChecksDuringARun(s: State, run: nat)
    requires Inv(s) && ChecksCurrent(s) && run in s.processes && InSection(s.processes[run])
    ensures forall check :: !IsCheck(s, check)
  {
  }

  /** A run that records a phase owns the marker it rewrites, so no check that is current is in flight. */
  lemma RecordsKeepChecks(s: State, step: Step)
    requires Inv(s) && ChecksCurrent(s) && Enabled(s, step) && RecordsItsPhase(step)
    ensures ChecksCurrent(After(s, step))
  {
    RunsKeepTheirOwner(s, step);
    NoChecksDuringARun(s, step.id);
    var s' := After(s, step);
    forall id | IsCheck(s', id) ensures IsCheck(s, id) {
    }
  }

  /** A check loads the marker that is there, and rewrites or removes only that one. */
  lemma ChecksKeepChecks(s: State, step: Step)
    requires ChecksCurrent(s) && Enabled(s, step)
    requires step.CheckLoad? || step.CheckAdvance? || step.CheckVerify? || step.CheckClear?
    ensures ChecksCurrent(After(s, step))
  {
    var s' := After(s, step);
    if !step.CheckLoad? { assert ChecksItsOwnMarker(s, step.id); }
    forall id | IsCheck(s', id) ensures ChecksItsOwnMarker(s', id) {
      if IsCheck(s, id) { assert ChecksItsOwnMarker(s, id); }
    }
  }

  lemma ChecksStayCurrent(s: State, step: Step)
    requires Inv(s) && ChecksCurrent(s) && Enabled(s, step) && OneAtATime(s, step)
    ensures ChecksCurrent(After(s, step))
  {
    if RecordsItsPhase(step) {
      RecordsKeepChecks(s, step);
    } else if step.CheckLoad? || step.CheckAdvance? || step.CheckVerify? || step.CheckClear? {
      ChecksKeepChecks(s, step);
    } else {
      var s' := After(s, step);
      forall id | IsCheck(s', id) ensures ChecksItsOwnMarker(s', id) {
        assert IsCheck(s, id);
        assert ChecksItsOwnMarker(s, id);
      }
    }
  }

  // ---------------------------------------------------------------- one run at a time

  /** Serialized executions keep the invariant, whatever is left unsynced. */
  lemma {:induction false} SerializedKeepsInv(s: State, steps: seq<Step>)
    requires Inv(s) && ChecksCurrent(s) && Executes(s, steps) && AllFollow(Serialized, s, steps)
    ensures Inv(Reached(s, steps)) && ChecksCurrent(Reached(s, steps))
    decreases |steps|
  {
    if steps != [] {
      CurrentIsOwn(s, steps[0]);
      StepKeepsInv(s, steps[0]);
      ChecksStayCurrent(s, steps[0]);
      SerializedKeepsInv(After(s, steps[0]), steps[1..]);
    }
  }

  /** At most one run is between saving its marker and giving it up. */
  lemma MutualExclusion(initial: World, steps: seq<Step>, first: nat, second: nat)
    requires Executes(Initial(initial), steps) && AllFollow(Serialized, Initial(initial), steps)
    requires var s := Reached(Initial(initial), steps);
             && first in s.processes && InSection(s.processes[first])
             && second in s.processes && InSection(s.processes[second])
    ensures first == second
  {
    SerializedKeepsInv(Initial(initial), steps);
    OneInSection(Reached(Initial(initial), steps), first, second);
  }

  /** The phase on disk bounds what has been touched since the last marker was given up: `committed`
      is the world as it was then. */
  ghost predicate WithinBounds(s: State) {
    && (s.disk.None? ==> s.world == s.committed)
    && (s.disk.Some? ==>
          && (BeforeAnyTarget(s.disk.value.phase) ==> s.world == s.committed)
          && (BeforeAnyFile(s.disk.value.phase) ==> FilesUntouched(s.disk.value.plan, s.world, s.committed))
          && OthersUnchanged(s.disk.value.plan, s.world, s.committed))
  }

  /** Crash or no crash. */
  lemma PhaseBoundsTheDamage(initial: World, steps: seq<Step>)
    requires Executes(Initial(initial), steps) && AllFollow(Serialized, Initial(initial), steps)
    ensures WithinBounds(Reached(Initial(initial), steps))
    ensures var s := Reached(Initial(initial), steps);
            s.disk.Some? ==>
              var marker := s.disk.value;
              && (marker.phase.Prepared? || marker.phase.PluginsQuiesced? ==> s.world == s.committed)
              && (marker.phase.PluginConvergence? || marker.phase.SteamQuiesced? ==>
                    FilesUntouched(marker.plan, s.world, s.committed))
  {
    SerializedKeepsInv(Initial(initial), steps);
  }

  // ---------------------------------------------------------------- safety

  lemma StepIsWhole(s: State, step: Step, initial: World)
    requires Inv(s) && AwaitingInv(s) && Enabled(s, step) && ActsOnItsOwn(s, step)
    requires s.committed == Replay(initial, s.history)
    ensures After(s, step).committed == Replay(initial, After(s, step).history)
  {
    if step.CheckClear? {
      RetiringIsWhole(s, step.id, initial);
    } else {
      OnlyChecksCommit(s, step);
    }
  }

  lemma OnlyChecksCommit(s: State, step: Step)
    requires Enabled(s, step) && !step.CheckClear?
    ensures After(s, step).committed == s.committed && After(s, step).history == s.history
  {
    if RecordsItsPhase(step) { RecordingCommitsNothing(s, step); }
  }

  lemma RecordingCommitsNothing(s: State, step: Step)
    requires Enabled(s, step) && RecordsItsPhase(step)
    ensures After(s, step).committed == s.committed && After(s, step).history == s.history
  {
  }

  /** What a check commits is the last committed world with the marker's plan restored. */
  lemma RetiringIsWhole(s: State, id: nat, initial: World)
    requires Inv(s) && AwaitingInv(s) && Enabled(s, CheckClear(id)) && ChecksItsOwnMarker(s, id)
    requires s.committed == Replay(initial, s.history)
    ensures Retired(s, id).committed == Replay(initial, Retired(s, id).history)
  {
    if s.disk.Some? {
      CheckClearFindsRestored(s, id);
      var history := s.history + [s.disk.value.plan];
      assert history[..|history| - 1] == s.history;
    }
  }

  /** What is committed is the initial world with some sequence of whole restores applied, and without
      a marker that is the world. */
  predicate Whole(initial: World, s: State) {
    s.committed == Replay(initial, s.history) && (s.disk.None? ==> s.world == Replay(initial, s.history))
  }

  /** Over every disciplined execution, whenever no marker is on disk the world is the initial one
      with some sequence of whole restores applied: never part of one. */
  lemma {:induction false} WholeRestoresOnly(s: State, steps: seq<Step>, initial: World)
    requires Inv(s) && AwaitingInv(s) && ChecksCurrent(s) && s.committed == Replay(initial, s.history)
    requires Executes(s, steps) && AllFollow(Disciplined, s, steps)
    ensures Inv(Reached(s, steps)) && AwaitingInv(Reached(s, steps)) && ChecksCurrent(Reached(s, steps))
    ensures Whole(initial, Reached(s, steps))
    decreases |steps|
  {
    if steps != [] {
      var step := steps[0];
      CurrentIsOwn(s, step);
      StepKeepsInv(s, step);
      StepKeepsAwaiting(s, step);
      ChecksStayCurrent(s, step);
      StepIsWhole(s, step, initial);
      WholeRestoresOnly(After(s, step), steps[1..], initial);
    }
  }

  /** From any initial world. What is committed is whole restores only, also while a marker is on
      disk, so the bounds its phase gives are bounds on the damage done to those. */
  lemma CrashSafety(initial: World, steps: seq<Step>)
    requires Executes(Initial(initial), steps) && AllFollow(Disciplined, Initial(initial), steps)
    ensures Whole(initial, Reached(Initial(initial), steps))
  {
    WholeRestoresOnly(Initial(initial), steps, initial);
  }

  /** While a run is inside its transaction, no check in flight holds that run's marker: a check
      can only have loaded one of an earlier boot. */
  lemma CheckNeverHoldsAnActiveMarker(s: State, run: nat, check: nat)
    requires Inv(s) && run in s.processes && InSection(s.processes[run]) && IsCheck(s, check)
    ensures s.disk.Some? && s.disk.value.owner == run && s.processes[check].loaded.owner != run
    ensures !ChecksItsOwnMarker(s, check)
  {
    assert RunInv(s, run) && CheckInv(s, check);
  }

  /** The same check, reaching its removal while a run is active, always takes that run's marker away. */
  lemma StaleClearBreaksTheRun(s: State, run: nat, check: nat)
    requires Inv(s) && run in s.processes && InSection(s.processes[run]) && Enabled(s, CheckClear(check))
    ensures var s' := After(s, CheckClear(check));
            && run in s'.processes && InSection(s'.processes[run]) && s'.disk.None? && !Inv(s')
  {
    var s' := After(s, CheckClear(check));
    assert s'.processes[run] == s.processes[run];
    assert !OwnsMarker(s', run);
    assert !RunInv(s', run);
  }
}
