/** The transaction keeps its invariant in every step. */
module TransactionSafety {
  import opened Identities
  import opened Transaction

  // ---------------------------------------------------------------- the invariant

  /** A target the marker's plan has not touched is where it was; one it has touched was at its
      approved identity before. */
  ghost predicate Accountable(item: Item, world: World, committed: World) {
    At(world, item.path) == At(committed, item.path) || At(committed, item.path) == item.before
  }

  ghost predicate OthersUnchanged(plan: Plan, world: World, committed: World) {
    forall path :: !IsTarget(plan, path) ==> At(world, path) == At(committed, path)
  }

  ghost predicate FilesUntouched(plan: Plan, world: World, committed: World) {
    forall k :: |plan.plugins| <= k < |Items(plan)| ==>
      At(world, Items(plan)[k].path) == At(committed, Items(plan)[k].path)
  }

  ghost predicate MarkerInv(s: State, m: Marker) {
    && WellFormed(m.plan) && m.owner < s.nextId && m.boot <= s.boot
    && (m.boot < s.boot ==> m.owner !in s.processes)
    && OthersUnchanged(m.plan, s.world, s.committed)
    && (forall k :: 0 <= k < |Items(m.plan)| ==> Accountable(Items(m.plan)[k], s.world, s.committed))
    && (BeforeAnyTarget(m.phase) ==> s.world == s.committed)
    && (BeforeAnyFile(m.phase) ==> FilesUntouched(m.plan, s.world, s.committed))
  }

  ghost predicate AppliedUpTo(plan: Plan, next: nat, world: World, committed: World) {
    && next <= |Items(plan)|
    && (forall k :: 0 <= k < next ==> At(world, Items(plan)[k].path) == Items(plan)[k].after
                                      && At(committed, Items(plan)[k].path) == Items(plan)[k].before)
    && (forall k :: next < k < |Items(plan)| ==> At(world, Items(plan)[k].path) == At(committed, Items(plan)[k].path))
  }

  ghost predicate ApplyingInv(plan: Plan, stage: Stage, phase: Phase, world: World, committed: World)
    requires stage.Applying?
  {
    && AppliedUpTo(plan, stage.next, world, committed)
    && (stage.next < |Items(plan)| ==>
          var item := Items(plan)[stage.next];
          if stage.touched then At(committed, item.path) == item.before && MayHold(item, At(world, item.path))
          else At(world, item.path) == At(committed, item.path))
    && (stage.touched ==> stage.next < |Items(plan)|)
    && (if stage.filesOpen then phase.FilesystemConvergence? && |plan.plugins| <= stage.next
        else (phase.PluginConvergence? || phase.SteamQuiesced?) && stage.next <= |plan.plugins|
             && (stage.next == |plan.plugins| ==> !stage.touched))
  }

  ghost predicate UndoingInv(plan: Plan, stage: Stage, phase: Phase, committed: World)
    requires stage.Undoing?
  {
    && stage.remaining <= |Items(plan)|
    && (forall k :: 0 <= k < stage.remaining ==> At(committed, Items(plan)[k].path) == Items(plan)[k].before)
    && !BeforeAnyTarget(phase)
    && (BeforeAnyFile(phase) ==> stage.remaining <= |plan.plugins|)
  }

  ghost predicate StageInv(plan: Plan, stage: Stage, phase: Phase, world: World, committed: World) {
    match stage
    case Marked => phase.Prepared? && world == committed
    case Quiesced => phase.Prepared? && world == committed
    case Recorded => phase.PluginsQuiesced? && world == committed
    case Applying(_, _, _) => ApplyingInv(plan, stage, phase, world, committed)
    case Verified => phase.FilesystemConvergence? && AppliedUpTo(plan, |Items(plan)|, world, committed)
    case StaticRecorded => phase.StaticVerificationPassed? && AppliedUpTo(plan, |Items(plan)|, world, committed)
    case Undoing(_, _) => UndoingInv(plan, stage, phase, committed)
    case Settled => world == committed
    case _ => true
  }

  /** A run inside its transaction owns the marker on disk. */
  ghost predicate OwnsMarker(s: State, id: nat) {
    IsRun(s, id) && s.disk.Some? && s.disk.value.owner == id
    && s.disk.value.plan == s.processes[id].plan && s.disk.value.boot == s.boot
  }

  ghost predicate RunInv(s: State, id: nat) {
    IsRun(s, id) ==>
      && WellFormed(s.processes[id].plan)
      && (InSection(s.processes[id]) ==>
            && OwnsMarker(s, id)
            && StageInv(s.processes[id].plan, s.processes[id].stage, s.disk.value.phase, s.world, s.committed))
  }

  ghost predicate SameTransaction(s: State, loaded: Marker) {
    s.disk.Some? && s.disk.value.owner == loaded.owner
  }

  ghost predicate CheckInv(s: State, id: nat) {
    IsCheck(s, id) ==>
      var check := s.processes[id];
      && check.loaded.boot < s.boot && check.loaded.owner < s.nextId && check.loaded.owner !in s.processes
      && IsAwaiting(check.loaded.phase)
      && (SameTransaction(s, check.loaded) ==>
            && s.disk.value.plan == check.loaded.plan && s.disk.value.boot == check.loaded.boot
            && IsAwaiting(s.disk.value.phase)
            && (check.verified ==> LooksConverged(check.loaded.plan, s.world)))
  }

  ghost predicate Inv(s: State) {
    && (s.disk.None? ==> s.world == s.committed)
    && (s.disk.Some? ==> MarkerInv(s, s.disk.value))
    && (forall id :: id in s.processes ==> id < s.nextId && RunInv(s, id) && CheckInv(s, id))
  }

  /** What a marker announcing a reboot stands for: every target restored and nobody in the
      transaction any more, or a plan whose undoing planning can see. */
  ghost predicate AwaitingInv(s: State) {
    s.disk.Some? && IsAwaiting(s.disk.value.phase) ==>
      && Held(s.disk.value.plan, s.world)
      && (SelfEvident(s.disk.value.plan, s.world) || (AllAfter(s.disk.value.plan, s.world) && NobodyInSection(s)))
  }

  predicate NobodyInSection(s: State) { forall id :: id in s.processes ==> !InSection(s.processes[id]) }

  // ---------------------------------------------------------------- small facts

  lemma DistinctPaths(plan: Plan, i: nat, j: nat)
    requires WellFormed(plan) && i < |Items(plan)| && j < |Items(plan)| && i != j
    ensures Items(plan)[i].path != Items(plan)[j].path
  {
  }

  lemma PutAt(world: World, path: string, value: Option<Identity>)
    ensures At(Put(world, path, value), path) == value
    ensures forall other :: other != path ==> At(Put(world, path, value), other) == At(world, other)
  {
  }

  lemma SameWorld(first: World, second: World)
    requires forall path :: At(first, path) == At(second, path)
    ensures first == second
  {
    forall path ensures (path in first) == (path in second) && (path in first ==> first[path] == second[path]) {
      assert At(first, path) == At(second, path);
    }
    assert first.Keys == second.Keys;
  }

  /** Every target back where it was approved, and nothing else changed: the whole world is back. */
  lemma BackToCommitted(plan: Plan, world: World, committed: World)
    requires OthersUnchanged(plan, world, committed) && AllBefore(plan, world)
    requires forall k :: 0 <= k < |Items(plan)| ==> Accountable(Items(plan)[k], world, committed)
    ensures world == committed
  {
    forall path ensures At(world, path) == At(committed, path) {
      if IsTarget(plan, path) {
        var k :| 0 <= k < |Items(plan)| && Items(plan)[k].path == path;
        assert Accountable(Items(plan)[k], world, committed);
      }
    }
    SameWorld(world, committed);
  }

  lemma {:induction false} RestoredAt(items: seq<Item>, world: World, k: nat)
    requires forall i, j :: 0 <= i < j < |items| ==> items[i].path != items[j].path
    requires k < |items|
    ensures At(Restored(items, world), items[k].path) == items[k].after
  {
    var last := |items| - 1;
    if k < last {
      RestoredAt(items[..last], world, k);
      assert items[k].path != items[last].path;
    }
  }

  lemma {:induction false} RestoredElsewhere(items: seq<Item>, world: World, path: string)
    requires forall k :: 0 <= k < |items| ==> items[k].path != path
    ensures At(Restored(items, world), path) == At(world, path)
  {
    if items != [] { RestoredElsewhere(items[..|items| - 1], world, path); }
  }

  lemma AllAfterIsRestored(plan: Plan, world: World, committed: World)
    requires WellFormed(plan) && AllAfter(plan, world) && OthersUnchanged(plan, world, committed)
    ensures world == Restored(Items(plan), committed)
  {
    var restored := Restored(Items(plan), committed);
    forall path ensures At(world, path) == At(restored, path) {
      if IsTarget(plan, path) {
        var k :| 0 <= k < |Items(plan)| && Items(plan)[k].path == path;
        RestoredAt(Items(plan), committed, k);
      } else {
        RestoredElsewhere(Items(plan), committed, path);
      }
    }
    SameWorld(world, restored);
  }

  /** A plan whose every item is evident cannot look converged half done. */
  lemma SelfEvidentMeansDone(plan: Plan, world: World)
    requires WellFormed(plan) && SelfEvident(plan, world) && Held(plan, world) && LooksConverged(plan, world)
    ensures AllAfter(plan, world)
  {
    forall k | 0 <= k < |Items(plan)| ensures At(world, Items(plan)[k].path) == Items(plan)[k].after {
      var item := Items(plan)[k];
      assert !ShowsMutation(item, world) && Mutates(item) && EvidentItem(plan, item, world);
      assert MayHold(item, At(world, item.path));
      if item.after.None? && KeepsTelling(plan, item) {
        var j :| 0 <= j < |Items(plan)| && Items(plan)[j].path == item.evidence && Tells(item, Items(plan)[j].after);
        assert !ShowsMutation(Items(plan)[j], world) && Mutates(Items(plan)[j]);
        assert EvidentItem(plan, Items(plan)[j], world) && MayHold(Items(plan)[j], At(world, Items(plan)[j].path));
      }
    }
  }

  // ---------------------------------------------------------------- preservation

  /** The steps that only move one run to another stage. */
  lemma BecomeKeeps(s: State, id: nat, stage: Stage)
    requires Inv(s) && IsRun(s, id)
    requires InSection(Running(s.processes[id].plan, stage)) ==>
               OwnsMarker(s, id) && StageInv(s.processes[id].plan, stage, s.disk.value.phase, s.world, s.committed)
    ensures Inv(Become(s, id, stage))
  {
  }

  lemma EndKeeps(s: State, id: nat)
    requires Inv(s)
    ensures Inv(End(s, id))
  {
  }

  /** A marker rewritten by its own run, in any of the three outcomes. */
  lemma RecordKeeps(s: State, id: nat, phase: Phase, update: Update, stage: Stage)
    requires Inv(s) && IsRun(s, id) && InSection(s.processes[id]) && OwnsMarker(s, id)
    requires var plan := s.processes[id].plan;
             var written := if update.Refused? then s.disk.value.phase else phase;
             && MarkerInv(s, Marker(id, plan, s.boot, written))
             && (InSection(Running(plan, stage)) ==> StageInv(plan, stage, written, s.world, s.committed))
    ensures Inv(Become(Record(s, id, phase, update), id, stage))
  {
    var s' := Become(Record(s, id, phase, update), id, stage);
    forall other | other in s'.processes ensures other < s'.nextId && RunInv(s', other) && CheckInv(s', other) {
      assert other in s.processes && RunInv(s, other) && CheckInv(s, other);
      if other != id && IsRun(s, other) && InSection(s.processes[other]) { OneInSection(s, id, other); }
    }
  }

  /** Only a run in its transaction writes targets, and any other such run would own the same marker. */
  lemma OneInSection(s: State, first: nat, second: nat)
    requires Inv(s) && first in s.processes && second in s.processes
    requires InSection(s.processes[first]) && InSection(s.processes[second])
    ensures first == second
  {
    assert RunInv(s, first) && RunInv(s, second);
  }

  /** One item written by its run. */
  lemma WriteKeeps(s: State, id: nat, k: nat, value: Option<Identity>, stage: Stage)
    requires Inv(s) && IsRun(s, id) && InSection(s.processes[id]) && k < |Items(s.processes[id].plan)|
    requires InSection(Running(s.processes[id].plan, stage))
    requires At(s.committed, Items(s.processes[id].plan)[k].path) == Items(s.processes[id].plan)[k].before
    requires OwnsMarker(s, id)
    requires !BeforeAnyTarget(s.disk.value.phase)
    requires BeforeAnyFile(s.disk.value.phase) ==> k < |s.processes[id].plan.plugins|
    requires StageInv(s.processes[id].plan, stage, s.disk.value.phase,
                      Put(s.world, Items(s.processes[id].plan)[k].path, value), s.committed)
    ensures Inv(Become(s, id, stage).(world := Put(s.world, Items(s.processes[id].plan)[k].path, value)))
  {
    var plan := s.processes[id].plan;
    var path := Items(plan)[k].path;
    var s' := Become(s, id, stage).(world := Put(s.world, path, value));
    PutAt(s.world, path, value);
    assert RunInv(s, id);
    forall j | 0 <= j < |Items(plan)| && j != k
      ensures At(s'.world, Items(plan)[j].path) == At(s.world, Items(plan)[j].path)
    {
      DistinctPaths(plan, j, k);
    }
    assert IsTarget(plan, path);
    assert MarkerInv(s', s'.disk.value);
    forall other | other in s'.processes ensures other < s'.nextId && RunInv(s', other) && CheckInv(s', other) {
      assert other in s.processes && RunInv(s, other) && CheckInv(s, other);
      if other != id && IsRun(s, other) && InSection(s.processes[other]) { OneInSection(s, id, other); }
    }
  }

  lemma OtherPathsKept(plan: Plan, world: World, k: nat, value: Option<Identity>)
    requires WellFormed(plan) && k < |Items(plan)|
    ensures At(Put(world, Items(plan)[k].path, value), Items(plan)[k].path) == value
    ensures forall j :: 0 <= j < |Items(plan)| && j != k ==>
              At(Put(world, Items(plan)[k].path, value), Items(plan)[j].path) == At(world, Items(plan)[j].path)
  {
  }

  lemma TouchKeeps(s: State, id: nat, value: Option<Identity>)
    requires Inv(s) && CanTouch(s, id, value)
    ensures Inv(Touched(s, id, value))
  {
    var plan, stage := s.processes[id].plan, s.processes[id].stage;
    assert RunInv(s, id);
    OtherPathsKept(plan, s.world, stage.next, value);
    WriteKeeps(s, id, stage.next, value, stage.(touched := true));
  }

  lemma ApplyingAdvances(plan: Plan, stage: Stage, phase: Phase, world: World, committed: World)
    requires stage.Applying? && ApplyingInv(plan, stage, phase, world, committed) && stage.touched
    requires At(world, Items(plan)[stage.next].path) == Items(plan)[stage.next].after
    ensures ApplyingInv(plan, stage.(next := stage.next + 1, touched := false), phase, world, committed)
  {
  }

  lemma ApplyingFails(plan: Plan, stage: Stage, phase: Phase, world: World, committed: World, recorded: bool)
    requires stage.Applying? && ApplyingInv(plan, stage, phase, world, committed)
    requires stage.next < |Items(plan)| && (recorded ==> stage.touched)
    ensures UndoingInv(plan, Undoing(stage.next + if recorded then 1 else 0, false), phase, committed)
  {
  }

  lemma ItemDoneKeeps(s: State, id: nat)
    requires Inv(s) && CanFinishItem(s, id)
    ensures Inv(ItemFinished(s, id))
  {
    var plan, stage := s.processes[id].plan, s.processes[id].stage;
    var next := Applying(stage.next + 1, stage.filesOpen, false);
    assert OwnsMarker(s, id) && ApplyingInv(plan, stage, s.disk.value.phase, s.world, s.committed) by {
      assert RunInv(s, id);
    }
    ApplyingAdvances(plan, stage, s.disk.value.phase, s.world, s.committed);
    assert StageInv(plan, next, s.disk.value.phase, s.world, s.committed);
    BecomeKeeps(s, id, next);
  }

  lemma ItemFailsKeeps(s: State, id: nat, recorded: bool)
    requires Inv(s) && CanFailItem(s, id, recorded)
    ensures Inv(ItemFailed(s, id, recorded))
  {
    var stage := s.processes[id].stage;
    assert RunInv(s, id);
    ApplyingFails(s.processes[id].plan, stage, s.disk.value.phase, s.world, s.committed, recorded);
    BecomeKeeps(s, id, Undoing(stage.next + if recorded then 1 else 0, false));
  }

  lemma UndoTouchKeeps(s: State, id: nat, value: Option<Identity>)
    requires Inv(s) && CanUndoTouch(s, id, value)
    ensures Inv(UndoTouched(s, id, value))
  {
    var plan, stage := s.processes[id].plan, s.processes[id].stage;
    assert RunInv(s, id);
    OtherPathsKept(plan, s.world, stage.remaining - 1, value);
    WriteKeeps(s, id, stage.remaining - 1, value, stage);
  }

  lemma UndoDoneKeeps(s: State, id: nat, clean: bool)
    requires Inv(s) && CanUndo(s, id, clean)
    ensures Inv(Undone(s, id, clean))
  {
  }

  lemma ConfirmKeeps(s: State, id: nat, passed: bool)
    requires Inv(s) && CanConfirm(s, id, passed)
    ensures Inv(Become(s, id, if passed && !s.processes[id].stage.failed then Settled else Failing))
  {
    var plan, stage := s.processes[id].plan, s.processes[id].stage;
    assert RunInv(s, id);
    if passed { BackToCommitted(plan, s.world, s.committed); }
    BecomeKeeps(s, id, if passed && !stage.failed then Settled else Failing);
  }

  lemma RecordQuiescedKeeps(s: State, id: nat, update: Update, cleaned: bool)
    requires Inv(s) && RunAt(s, id, Quiesced) && CanUpdate(s, update)
    ensures Inv(Become(Record(s, id, PluginsQuiesced, update), id, if update.Committed? then Recorded
        else CleanedUp(cleaned)))
  {
  }

  lemma BeginPluginsKeeps(s: State, id: nat, update: Update, cleaned: bool)
    requires Inv(s) && RunAt(s, id, Recorded) && CanUpdate(s, update)
    ensures Inv(Become(Record(s, id, PluginConvergence, update), id,
                       if update.Committed? then Applying(0, false, false) else CleanedUp(cleaned)))
  {
    assert RunInv(s, id);
    RecordKeeps(s, id, PluginConvergence, update,
                if update.Committed? then Applying(0, false, false) else CleanedUp(cleaned));
  }

  lemma OpenFilesKeeps(s: State, id: nat, phase: Phase, update: Update)
    requires Inv(s) && CanOpenFiles(s, id, phase, update)
    ensures Inv(Opened(s, id, phase, update))
  {
    var plan, stage := s.processes[id].plan, s.processes[id].stage;
    assert RunInv(s, id);
    assert FilesUntouched(plan, s.world, s.committed);
    RecordKeeps(s, id, phase, update,
                if update.Committed? then stage.(filesOpen := phase.FilesystemConvergence?)
                    else Undoing(stage.next, false));
  }

  lemma RecordVerifiedKeeps(s: State, id: nat, update: Update)
    requires Inv(s) && RunAt(s, id, Verified) && CanUpdate(s, update)
    ensures Inv(Become(Record(s, id, StaticVerificationPassed, update), id,
        OrUndoAll(s, id, update.Committed?, StaticRecorded)))
  {
    assert RunInv(s, id);
    RecordKeeps(s, id, StaticVerificationPassed, update,
                if update.Committed? then StaticRecorded else Undoing(|Items(s.processes[id].plan)|, false));
  }

  lemma RequestRebootKeeps(s: State, id: nat, update: Update)
    requires Inv(s) && RunAt(s, id, StaticRecorded) && CanUpdate(s, update)
    ensures Inv(RebootRequested(s, id, update))
  {
    var plan := s.processes[id].plan;
    assert RunInv(s, id);
    RecordKeeps(s, id, AwaitingReboot, update, if update.Committed? then Started else Undoing(|Items(plan)|, false));
    if update.Committed? {
      var recorded := Become(Record(s, id, AwaitingReboot, update), id, Started);
      EndKeeps(recorded, id);
      assert recorded.processes - {id} == s.processes - {id};
    }
  }

  lemma EscalateKeeps(s: State, id: nat, update: Update)
    requires Inv(s) && RunAt(s, id, Failing) && CanUpdate(s, update)
    ensures Inv(End(Record(s, id, RecoveryRequired, update), id))
  {
  }

  lemma StartRunKeeps(s: State, plan: Plan)
    requires Inv(s) && Enabled(s, StartRun(plan))
    ensures Inv(After(s, StartRun(plan)))
  {
  }

  lemma SaveMarkerKeeps(s: State, id: nat)
    requires Inv(s) && Enabled(s, SaveMarker(id))
    ensures Inv(After(s, SaveMarker(id)))
  {
  }

  lemma ClearKeeps(s: State, id: nat, removed: bool)
    requires Inv(s) && Enabled(s, Clear(id, removed))
    ensures Inv(After(s, Clear(id, removed)))
  {
    var s' := After(s, Clear(id, removed));
    assert RunInv(s, id);
    forall other | other in s'.processes ensures other < s'.nextId && RunInv(s', other) && CheckInv(s', other) {
      assert RunInv(s, other) && CheckInv(s, other);
    }
  }

  lemma CheckLoadKeeps(s: State)
    requires Inv(s) && CanLoad(s)
    ensures Inv(Loaded(s))
  {
  }

  lemma CheckAdvanceKeeps(s: State, id: nat, update: Update)
    requires Inv(s) && CanAdvance(s, id, update) && ChecksItsOwnMarker(s, id)
    ensures Inv(Advanced(s, id, update))
  {
    var s' := Advanced(s, id, update);
    assert CheckInv(s, id);
    forall other | other in s'.processes ensures other < s'.nextId && RunInv(s', other) && CheckInv(s', other) {
      assert other in s.processes && RunInv(s, other) && CheckInv(s, other);
    }
  }

  lemma CheckVerifyKeeps(s: State, id: nat)
    requires Inv(s) && CanCheck(s, id)
    ensures Inv(s.(processes := s.processes[id := s.processes[id].(verified := true)]))
  {
  }

  /** A check that acts on the marker it loaded finds a wholly restored world behind it. */
  lemma CheckClearFindsRestored(s: State, id: nat)
    requires Inv(s) && AwaitingInv(s) && IsCheck(s, id) && s.processes[id].verified && ChecksItsOwnMarker(s, id)
        && s.disk.Some?
    ensures s.world == Restored(Items(s.disk.value.plan), s.committed)
  {
    var plan := s.disk.value.plan;
    assert CheckInv(s, id);
    if !AllAfter(plan, s.world) { SelfEvidentMeansDone(plan, s.world); }
    AllAfterIsRestored(plan, s.world, s.committed);
  }

  lemma CheckClearKeeps(s: State, id: nat)
    requires Inv(s) && IsCheck(s, id) && s.processes[id].verified && ChecksItsOwnMarker(s, id)
    ensures Inv(Retired(s, id))
  {
  }

  /** The steps of a run before its marker exists, and those that only branch. */
  lemma StagingKeeps(s: State, step: Step)
    requires Inv(s) && Enabled(s, step)
    requires step.Look? || step.Approve? || step.QuiesceDone? || step.QuiesceFails? || step.Verify?
    ensures Inv(After(s, step))
  {
    assert RunInv(s, step.id);
    match step
    case Look(id) => BecomeKeeps(s, id, SawNoMarker);
    case Approve(id) => BecomeKeeps(s, id, Approved);
    case QuiesceDone(id) => BecomeKeeps(s, id, Quiesced);
    case QuiesceFails(id, cleaned) => BecomeKeeps(s, id, CleanedUp(cleaned));
    case Verify(id, passed) =>
      BecomeKeeps(s, id, if passed then Verified else Undoing(|Items(s.processes[id].plan)|, false));
  }

  lemma RecordingKeeps(s: State, step: Step)
    requires Inv(s) && Enabled(s, step)
    requires step.RecordQuiesced? || step.BeginPlugins? || step.OpenFiles? || step.RecordVerified?
             || step.RequestReboot? || step.Escalate?
    ensures Inv(After(s, step))
  {
    match step
    case RecordQuiesced(id, update, cleaned) => RecordQuiescedKeeps(s, id, update, cleaned);
    case BeginPlugins(id, update, cleaned) => BeginPluginsKeeps(s, id, update, cleaned);
    case OpenFiles(id, phase, update) => OpenFilesKeeps(s, id, phase, update);
    case RecordVerified(id, update) => RecordVerifiedKeeps(s, id, update);
    case RequestReboot(id, update) => RequestRebootKeeps(s, id, update);
    case Escalate(id, update) => EscalateKeeps(s, id, update);
  }

  lemma WritingKeeps(s: State, step: Step)
    requires Inv(s) && Enabled(s, step)
    requires step.Touch? || step.ItemDone? || step.ItemFails? || step.UndoTouch? || step.UndoDone? || step.Confirm?
    ensures Inv(After(s, step))
  {
    match step
    case Touch(id, value) => TouchKeeps(s, id, value);
    case ItemDone(id) => ItemDoneKeeps(s, id);
    case ItemFails(id, recorded) => ItemFailsKeeps(s, id, recorded);
    case UndoTouch(id, value) => UndoTouchKeeps(s, id, value);
    case UndoDone(id, clean) => UndoDoneKeeps(s, id, clean);
    case Confirm(id, passed) => ConfirmKeeps(s, id, passed);
  }

  lemma RebootKeeps(s: State)
    requires Inv(s)
    ensures Inv(After(s, Reboot))
  {
  }

  lemma OtherStepsKeep(s: State, step: Step)
    requires Inv(s) && Enabled(s, step) && ActsOnItsOwn(s, step)
    requires step.StartRun? || step.SaveMarker? || step.Clear? || step.Crash? || step.Reboot?
             || step.CheckLoad? || step.CheckAdvance? || step.CheckVerify? || step.CheckClear?
    ensures Inv(After(s, step))
  {
    match step
    case StartRun(plan) => StartRunKeeps(s, plan);
    case SaveMarker(id) => SaveMarkerKeeps(s, id);
    case Clear(id, removed) => ClearKeeps(s, id, removed);
    case Crash(id) => EndKeeps(s, id);
    case Reboot => RebootKeeps(s);
    case CheckLoad => CheckLoadKeeps(s);
    case CheckAdvance(id, update) => CheckAdvanceKeeps(s, id, update);
    case CheckVerify(id) => CheckVerifyKeeps(s, id);
    case CheckClear(id) => CheckClearKeeps(s, id);
  }

  lemma StepKeepsInv(s: State, step: Step)
    requires Inv(s) && Enabled(s, step) && ActsOnItsOwn(s, step)
    ensures Inv(After(s, step))
  {
    if step.Look? || step.Approve? || step.QuiesceDone? || step.QuiesceFails? || step.Verify? {
      StagingKeeps(s, step);
    } else if step.RecordQuiesced? || step.BeginPlugins? || step.OpenFiles? || step.RecordVerified?
              || step.RequestReboot? || step.Escalate? {
      RecordingKeeps(s, step);
    } else if step.Touch? || step.ItemDone? || step.ItemFails? || step.UndoTouch? || step.UndoDone? || step.Confirm? {
      WritingKeeps(s, step);
    } else {
      OtherStepsKeep(s, step);
    }
  }

  // ---------------------------------------------------------------- what awaiting markers stand for

  /** Writing targets of a plan does not change how evident it is. */
  lemma EvidenceKept(plan: Plan, first: World, second: World)
    requires OthersUnchanged(plan, second, first) && SelfEvident(plan, first)
    ensures SelfEvident(plan, second)
  {
    forall k | 0 <= k < |Items(plan)| ensures EvidentItem(plan, Items(plan)[k], second) {
      assert EvidentItem(plan, Items(plan)[k], first);
    }
  }

  /** The marker announces a reboot over a restored world, and an announcement that was not synced
      leaves a run that undoes an evident plan. */
  lemma RebootIsAnnounced(s: State, id: nat, update: Update)
    requires Inv(s) && AwaitingInv(s) && Enabled(s, RequestReboot(id, update))
        && RecordsEvidently(s, RequestReboot(id, update))
    ensures AwaitingInv(After(s, RequestReboot(id, update)))
  {
    var s' := After(s, RequestReboot(id, update));
    assert RunInv(s, id) && AllAfter(s.processes[id].plan, s.world);
    if update.Committed? {
      forall other | other in s'.processes ensures !InSection(s'.processes[other]) {
        if InSection(s.processes[other]) { OneInSection(s, id, other); }
      }
    }
  }

  /** Undoing under such a marker happens only to evident plans. */
  lemma UndoingIsEvident(s: State, id: nat, value: Option<Identity>)
    requires Inv(s) && AwaitingInv(s) && CanUndoTouch(s, id, value)
    ensures AwaitingInv(UndoTouched(s, id, value))
  {
    var plan, k := s.processes[id].plan, s.processes[id].stage.remaining - 1;
    var s' := UndoTouched(s, id, value);
    assert RunInv(s, id);
    if IsAwaiting(s.disk.value.phase) {
      assert SelfEvident(plan, s.world);
      OtherPathsKept(plan, s.world, k, value);
      forall path | !IsTarget(plan, path) ensures At(s'.world, path) == At(s.world, path) {
        assert path != Items(plan)[k].path;
      }
      EvidenceKept(plan, s.world, s'.world);
    }
  }

  /** Steps that leave disk and world alone and let nobody new into the transaction. */
  lemma QuietKeepsAwaiting(s: State, s': State)
    requires AwaitingInv(s) && s'.world == s.world && s'.disk == s.disk
    requires forall id :: id in s'.processes && InSection(s'.processes[id]) ==>
      id in s.processes && InSection(s.processes[id])
    ensures AwaitingInv(s')
  {
  }

  /** The steps of a run that neither write a target nor announce a reboot. */
  lemma RunKeepsAwaiting(s: State, step: Step)
    requires Inv(s) && AwaitingInv(s) && Enabled(s, step)
    requires step.Look? || step.Approve? || step.QuiesceDone? || step.QuiesceFails? || step.Verify?
             || step.ItemDone? || step.ItemFails? || step.UndoDone? || step.Confirm?
    ensures AwaitingInv(After(s, step))
  {
    QuietKeepsAwaiting(s, After(s, step));
  }

  /** A phase other than the awaiting ones replaces the marker, or does not. */
  lemma RecordKeepsAwaiting(s: State, id: nat, phase: Phase, update: Update, s': State)
    requires AwaitingInv(s) && IsRun(s, id) && InSection(s.processes[id]) && !IsAwaiting(phase)
    requires s'.world == s.world && s'.disk == Record(s, id, phase, update).disk
    requires forall other :: other in s'.processes && other != id && InSection(s'.processes[other]) ==>
      other in s.processes && InSection(s.processes[other])
    ensures AwaitingInv(s')
  {
  }

  lemma EarlyPhasesKeepAwaiting(s: State, step: Step)
    requires Inv(s) && AwaitingInv(s) && Enabled(s, step) && (step.RecordQuiesced? || step.BeginPlugins?)
    ensures AwaitingInv(After(s, step))
  {
    match step
    case RecordQuiesced(id, update, _) => RecordKeepsAwaiting(s, id, PluginsQuiesced, update, After(s, step));
    case BeginPlugins(id, update, _) => RecordKeepsAwaiting(s, id, PluginConvergence, update, After(s, step));
  }

  lemma LatePhasesKeepAwaiting(s: State, step: Step)
    requires Inv(s) && AwaitingInv(s) && Enabled(s, step)
    requires step.OpenFiles? || step.RecordVerified? || step.Escalate?
    ensures AwaitingInv(After(s, step))
  {
    match step
    case OpenFiles(id, phase, update) => RecordKeepsAwaiting(s, id, phase, update, After(s, step));
    case RecordVerified(id, update) => RecordKeepsAwaiting(s, id, StaticVerificationPassed, update, After(s, step));
    case Escalate(id, update) => RecordKeepsAwaiting(s, id, RecoveryRequired, update, After(s, step));
  }

  lemma OthersKeepAwaiting(s: State, step: Step)
    requires Inv(s) && AwaitingInv(s) && Enabled(s, step) && ActsOnItsOwn(s, step)
    requires step.StartRun? || step.SaveMarker? || step.Clear? || step.Crash? || step.Reboot?
             || step.CheckLoad? || step.CheckVerify? || step.CheckClear?
    ensures AwaitingInv(After(s, step))
  {
    var s' := After(s, step);
    if s'.disk == s.disk && s'.disk.Some? { QuietKeepsAwaiting(s, s'); }
  }

  lemma AdvanceKeepsAwaiting(s: State, id: nat, update: Update)
    requires Inv(s) && AwaitingInv(s) && CanAdvance(s, id, update) && ChecksItsOwnMarker(s, id)
    ensures AwaitingInv(Advanced(s, id, update))
  {
    assert CheckInv(s, id);
  }

  lemma TouchKeepsAwaiting(s: State, id: nat, value: Option<Identity>)
    requires Inv(s) && AwaitingInv(s) && CanTouch(s, id, value)
    ensures AwaitingInv(Touched(s, id, value))
  {
    assert RunInv(s, id);
  }

  /** The steps that write targets or rewrite the marker of a check. */
  lemma WritesKeepAwaiting(s: State, step: Step)
    requires Inv(s) && AwaitingInv(s) && Enabled(s, step) && ActsOnItsOwn(s, step) && RecordsEvidently(s, step)
    requires step.RequestReboot? || step.UndoTouch? || step.Touch? || step.CheckAdvance?
    ensures AwaitingInv(After(s, step))
  {
    match step
    case RequestReboot(id, update) => RebootIsAnnounced(s, id, update);
    case UndoTouch(id, value) => UndoingIsEvident(s, id, value);
    case Touch(id, value) => TouchKeepsAwaiting(s, id, value);
    case CheckAdvance(id, update) => AdvanceKeepsAwaiting(s, id, update);
  }

  lemma StepKeepsAwaiting(s: State, step: Step)
    requires Inv(s) && AwaitingInv(s) && Enabled(s, step) && ActsOnItsOwn(s, step) && RecordsEvidently(s, step)
    ensures AwaitingInv(After(s, step))
  {
    if step.RequestReboot? || step.UndoTouch? || step.Touch? || step.CheckAdvance? {
      WritesKeepAwaiting(s, step);
    } else if step.RecordQuiesced? || step.BeginPlugins? {
      EarlyPhasesKeepAwaiting(s, step);
    } else if step.OpenFiles? || step.RecordVerified? || step.Escalate? {
      LatePhasesKeepAwaiting(s, step);
    } else if step.Look? || step.Approve? || step.QuiesceDone? || step.QuiesceFails? || step.Verify?
              || step.ItemDone? || step.ItemFails? || step.UndoDone? || step.Confirm? {
      RunKeepsAwaiting(s, step);
    } else {
      OthersKeepAwaiting(s, step);
    }
  }
}
