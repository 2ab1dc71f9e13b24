/** Exactly which plans can end in a mix without a marker. */
module TransactionExposure {
  import opened Identities
  import opened Transaction
  import opened TransactionSafety
  import opened TransactionTheorems
  import opened TransactionExecutions

  /** No marker is left, on a world that is neither the initial one nor the restored one. */
  predicate Mixed(plan: Plan, initial: World, s: State) {
    s.disk.None? && s.world != initial && s.world != Restored(Items(plan), initial)
  }

  /** Runs of this plan alone, serialized with the checks, can leave a mix. */
  ghost predicate Exposed(plan: Plan, initial: World) {
    exists s :: Reachable(Alone(plan), Initial(initial), s) && Mixed(plan, initial, s)
  }

  // ---------------------------------------------------------------- plans that are safe

  predicate IsOf(process: Process, plan: Plan) {
    if process.Running? then process.plan == plan else process.loaded.plan == plan
  }

  predicate MarkerOf(disk: Option<Marker>, plan: Plan) { disk.Some? ==> disk.value.plan == plan }

  /** Every run, marker and check is of the plan. */
  predicate OnlyOf(s: State, plan: Plan) {
    MarkerOf(s.disk, plan) && forall id :: id in s.processes ==> IsOf(s.processes[id], plan)
  }

  lemma RunsStayOf(s: State, step: Step, plan: Plan)
    requires OnlyOf(s, plan) && Enabled(s, step)
    requires step.Look? || step.Approve? || step.QuiesceDone? || step.QuiesceFails? || step.Verify?
             || step.Touch? || step.ItemDone? || step.ItemFails? || step.UndoTouch? || step.UndoDone? || step.Confirm?
    ensures OnlyOf(After(s, step), plan)
  {
  }

  lemma RecordsStayOf(s: State, step: Step, plan: Plan)
    requires OnlyOf(s, plan) && Enabled(s, step)
    requires step.SaveMarker? || step.RecordQuiesced? || step.BeginPlugins? || step.OpenFiles? || step.RecordVerified?
             || step.RequestReboot? || step.Escalate?
    ensures OnlyOf(After(s, step), plan)
  {
  }

  lemma OthersStayOf(s: State, step: Step, plan: Plan)
    requires OnlyOf(s, plan) && Enabled(s, step) && Follows(Alone(plan), s, step)
    requires step.StartRun? || step.Clear? || step.Crash? || step.Reboot?
             || step.CheckLoad? || step.CheckAdvance? || step.CheckVerify? || step.CheckClear?
    ensures OnlyOf(After(s, step), plan)
  {
  }

  lemma StepsStayOf(s: State, step: Step, plan: Plan)
    requires OnlyOf(s, plan) && Enabled(s, step) && Follows(Alone(plan), s, step)
    ensures OnlyOf(After(s, step), plan)
  {
    if step.StartRun? || step.Clear? || step.Crash? || step.Reboot?
       || step.CheckLoad? || step.CheckAdvance? || step.CheckVerify? || step.CheckClear? {
      OthersStayOf(s, step, plan);
    } else if step.SaveMarker? || step.RecordQuiesced? || step.BeginPlugins? || step.OpenFiles?
              || step.RecordVerified? || step.RequestReboot? || step.Escalate? {
      RecordsStayOf(s, step, plan);
    } else {
      RunsStayOf(s, step, plan);
    }
  }

  /** What was committed last is the initial world or the restored one, and nothing but targets of
      the plan has changed since. */
  ghost predicate Clean(s: State, plan: Plan, initial: World) {
    && Inv(s) && AwaitingInv(s) && ChecksCurrent(s) && OnlyOf(s, plan)
    && (s.committed == initial || s.committed == Restored(Items(plan), initial))
  }

  lemma WorldsAgree(s: State, plan: Plan, initial: World)
    requires Clean(s, plan, initial)
    ensures OthersUnchanged(plan, s.world, initial)
  {
    forall path | !IsTarget(plan, path) ensures At(s.world, path) == At(initial, path) {
      RestoredElsewhere(Items(plan), initial, path);
      assert At(s.world, path) == At(s.committed, path);
    }
  }

  lemma {:induction false} RestoredTwice(plan: Plan, initial: World)
    requires WellFormed(plan)
    ensures Restored(Items(plan), Restored(Items(plan), initial)) == Restored(Items(plan), initial)
  {
    var once, twice := Restored(Items(plan), initial), Restored(Items(plan), Restored(Items(plan), initial));
    forall path ensures At(once, path) == At(twice, path) {
      if IsTarget(plan, path) {
        var k :| 0 <= k < |Items(plan)| && Items(plan)[k].path == path;
        RestoredAt(Items(plan), initial, k);
        RestoredAt(Items(plan), once, k);
      } else {
        RestoredElsewhere(Items(plan), once, path);
      }
    }
    SameWorld(once, twice);
  }

  lemma RetiringIsClean(s: State, plan: Plan, initial: World, id: nat)
    requires WellFormed(plan) && Clean(s, plan, initial) && Enabled(s, CheckClear(id))
    ensures var committed := After(s, CheckClear(id)).committed;
            committed == initial || committed == Restored(Items(plan), initial)
  {
    if s.disk.Some? {
      assert ChecksItsOwnMarker(s, id);
      CheckClearFindsRestored(s, id);
      RestoredTwice(plan, initial);
    }
  }

  /** Only the plan is ever recorded, and what it is evident by has not changed. */
  lemma AloneIsEvident(s: State, step: Step, plan: Plan, initial: World)
    requires SelfEvident(plan, initial) && Clean(s, plan, initial) && Enabled(s, step)
    ensures RecordsEvidently(s, step)
  {
    if step.RequestReboot? {
      WorldsAgree(s, plan, initial);
      EvidenceKept(plan, initial, s.world);
    }
  }

  lemma StepKeepsClean(s: State, step: Step, plan: Plan, initial: World)
    requires WellFormed(plan) && SelfEvident(plan, initial) && Clean(s, plan, initial)
    requires Enabled(s, step) && Follows(Alone(plan), s, step)
    ensures Clean(After(s, step), plan, initial)
  {
    AloneIsEvident(s, step, plan, initial);
    CurrentIsOwn(s, step);
    StepKeepsInv(s, step);
    StepKeepsAwaiting(s, step);
    ChecksStayCurrent(s, step);
    StepsStayOf(s, step, plan);
    if step.CheckClear? { RetiringIsClean(s, plan, initial, step.id); } else { OnlyChecksCommit(s, step); }
  }

  lemma {:induction false} EvidentStaysClean(s: State, steps: seq<Step>, plan: Plan, initial: World)
    requires WellFormed(plan) && SelfEvident(plan, initial) && Clean(s, plan, initial)
    requires Executes(s, steps) && AllFollow(Alone(plan), s, steps)
    ensures Clean(Reached(s, steps), plan, initial)
    decreases |steps|
  {
    if steps != [] {
      StepKeepsClean(s, steps[0], plan, initial);
      EvidentStaysClean(After(s, steps[0]), steps[1..], plan, initial);
    }
  }

  /** Nothing has been approved, let alone recorded or written. */
  ghost predicate Untouched(s: State, plan: Plan, initial: World) {
    && s.world == initial && s.disk.None?
    && forall id :: id in s.processes ==>
         && s.processes[id].Running? && s.processes[id].plan == plan
         && (s.processes[id].stage.Started? || s.processes[id].stage.SawNoMarker?)
  }

  lemma LittleIsEnabled(s: State, step: Step, plan: Plan, initial: World)
    requires !PlannedFor(plan, initial) && Untouched(s, plan, initial) && Enabled(s, step)
    ensures step.StartRun? || step.Look? || step.Crash? || step.Reboot?
  {
  }

  lemma StepKeepsUntouched(s: State, step: Step, plan: Plan, initial: World)
    requires !PlannedFor(plan, initial) && Untouched(s, plan, initial)
    requires Enabled(s, step) && Follows(Alone(plan), s, step)
    ensures Untouched(After(s, step), plan, initial)
  {
    LittleIsEnabled(s, step, plan, initial);
  }

  lemma {:induction false} UnplannedDoesNothing(s: State, steps: seq<Step>, plan: Plan, initial: World)
    requires !PlannedFor(plan, initial) && Untouched(s, plan, initial)
    requires Executes(s, steps) && AllFollow(Alone(plan), s, steps)
    ensures Untouched(Reached(s, steps), plan, initial)
    decreases |steps|
  {
    if steps != [] {
      StepKeepsUntouched(s, steps[0], plan, initial);
      UnplannedDoesNothing(After(s, steps[0]), steps[1..], plan, initial);
    }
  }

  lemma SafePlans(plan: Plan, initial: World)
    requires WellFormed(plan) && (SelfEvident(plan, initial) || !PlannedFor(plan, initial))
    ensures !Exposed(plan, initial)
  {
    var start := Initial(initial);
    forall s | Reachable(Alone(plan), start, s) ensures !Mixed(plan, initial, s) {
      var steps: seq<Step> :| Executes(start, steps) && AllFollow(Alone(plan), start, steps)
                              && Reached(start, steps) == s;
      if SelfEvident(plan, initial) {
        EvidentStaysClean(start, steps, plan, initial);
      } else {
        UnplannedDoesNothing(start, steps, plan, initial);
      }
    }
  }

  // ---------------------------------------------------------------- plans that are not

  /** What an item that is not evident can be left at, half undone: a removed file put back, or
      what Decky makes of a tree that planning still takes for the installed one. */
  function Leftover(item: Item): Option<Identity> {
    match item.after
    case Some(after) => Some(after.(mode := after.mode + 1))
    case None => item.before
  }

  /** Everything restored but one item, left half undone. */
  function HalfUndone(plan: Plan, initial: World, k: nat): World
    requires k < |Items(plan)|
  {
    Put(Restored(Items(plan), initial), Items(plan)[k].path, Leftover(Items(plan)[k]))
  }

  lemma HalfUndoneAt(plan: Plan, initial: World, k: nat, j: nat)
    requires WellFormed(plan) && j < |Items(plan)| && k < |Items(plan)|
    ensures At(HalfUndone(plan, initial, k), Items(plan)[j].path)
            == if j == k then Leftover(Items(plan)[k]) else Items(plan)[j].after
  {
    RestoredAt(Items(plan), initial, j);
    PutAt(Restored(Items(plan), initial), Items(plan)[k].path, Leftover(Items(plan)[k]));
    if j != k { DistinctPaths(plan, j, k); }
  }

  /** The evidence of a removal that is not evident is itself removed, or silenced, by the plan. */
  lemma EvidenceGoes(plan: Plan, initial: World, k: nat) returns (j: nat)
    requires WellFormed(plan) && PlannedFor(plan, initial) && k < |Items(plan)|
    requires !EvidentItem(plan, Items(plan)[k], initial) && Items(plan)[k].after.None?
    ensures j < |Items(plan)| && j != k && Items(plan)[j].path == Items(plan)[k].evidence
    ensures !Tells(Items(plan)[k], Items(plan)[j].after)
  {
    var item := Items(plan)[k];
    assert ShowsMutation(item, initial);
    assert IsTarget(plan, item.evidence);
    j :| 0 <= j < |Items(plan)| && Items(plan)[j].path == item.evidence;
  }

  lemma EvidentAlike(plan: Plan, k: nat, first: World, second: World)
    requires k < |Items(plan)| && OthersUnchanged(plan, first, second)
    ensures EvidentItem(plan, Items(plan)[k], first) <==> EvidentItem(plan, Items(plan)[k], second)
  {
  }

  /** With everything else restored, planning does not see what is left of an item that is not evident. */
  lemma LeftoverIsHidden(plan: Plan, restored: World, k: nat)
    requires WellFormed(plan) && AllAfter(plan, restored) && k < |Items(plan)|
    requires !EvidentItem(plan, Items(plan)[k], restored)
    ensures MayHold(Items(plan)[k], Leftover(Items(plan)[k]))
    ensures LooksConverged(plan, Put(restored, Items(plan)[k].path, Leftover(Items(plan)[k])))
    ensures Put(restored, Items(plan)[k].path, Leftover(Items(plan)[k])) != restored
  {
    var item := Items(plan)[k];
    var world := Put(restored, item.path, Leftover(item));
    PutAt(restored, item.path, Leftover(item));
    assert Mutates(item) && At(restored, item.path) == item.after;
    forall j | 0 <= j < |Items(plan)| ensures !ShowsMutation(Items(plan)[j], world) {
      assert At(restored, Items(plan)[j].path) == Items(plan)[j].after;
      if j != k { DistinctPaths(plan, j, k); }
    }
  }

  /** Half undone, a plan that is not evident looks converged, and is neither restored nor undone. */
  lemma HalfUndoneIsMixed(plan: Plan, initial: World, k: nat)
    requires WellFormed(plan) && PlannedFor(plan, initial) && k < |Items(plan)|
    requires !EvidentItem(plan, Items(plan)[k], initial)
    ensures MayHold(Items(plan)[k], Leftover(Items(plan)[k])) && LooksConverged(plan, HalfUndone(plan, initial, k))
    ensures HalfUndone(plan, initial, k) != initial && HalfUndone(plan, initial, k) != Restored(Items(plan), initial)
  {
    RestoredIsRestored(plan, initial);
    EvidentAlike(plan, k, Restored(Items(plan), initial), initial);
    LeftoverIsHidden(plan, Restored(Items(plan), initial), k);
    HalfUndoneAt(plan, initial, k, k);
    assert Mutates(Items(plan)[k]) && At(initial, Items(plan)[k].path) == Items(plan)[k].before;
    if Items(plan)[k].after.None? {
      var j := EvidenceGoes(plan, initial, k);
      HalfUndoneAt(plan, initial, k, j);
      assert Mutates(Items(plan)[j]) && At(initial, Items(plan)[j].path) == Items(plan)[j].before;
    }
  }

  lemma RestoredIsRestored(plan: Plan, initial: World)
    requires WellFormed(plan)
    ensures AllAfter(plan, Restored(Items(plan), initial))
    ensures OthersUnchanged(plan, Restored(Items(plan), initial), initial)
  {
    forall k | 0 <= k < |Items(plan)|
      ensures At(Restored(Items(plan), initial), Items(plan)[k].path) == Items(plan)[k].after
    {
      RestoredAt(Items(plan), initial, k);
    }
    forall path | !IsTarget(plan, path) ensures At(Restored(Items(plan), initial), path) == At(initial, path) {
      RestoredElsewhere(Items(plan), initial, path);
    }
  }

  /** For every plan: each world that the half-done plan can pass through and that looks converged
      is restored, if and only if the plan is evident. */
  lemma ShowsExactlyWhenSelfEvident(plan: Plan, initial: World)
    requires WellFormed(plan) && PlannedFor(plan, initial)
    ensures (forall world :: OthersUnchanged(plan, world, initial) && Held(plan, world) && LooksConverged(plan, world)
                             ==> AllAfter(plan, world))
            <==> SelfEvident(plan, initial)
  {
    if SelfEvident(plan, initial) {
      forall world | OthersUnchanged(plan, world, initial) && Held(plan, world) && LooksConverged(plan, world)
        ensures AllAfter(plan, world)
      {
        EvidenceKept(plan, initial, world);
        SelfEvidentMeansDone(plan, world);
      }
    } else {
      var k :| 0 <= k < |Items(plan)| && !EvidentItem(plan, Items(plan)[k], initial);
      var world := HalfUndone(plan, initial, k);
      HalfUndoneIsMixed(plan, initial, k);
      HalfUndoneAt(plan, initial, k, k);
      forall j | 0 <= j < |Items(plan)| ensures MayHold(Items(plan)[j], At(world, Items(plan)[j].path)) {
        HalfUndoneAt(plan, initial, k, j);
      }
      HalfUndoneElsewhere(plan, initial, k);
      assert Mutates(Items(plan)[k]);
      assert !AllAfter(plan, world);
    }
  }

  lemma HalfUndoneElsewhere(plan: Plan, initial: World, k: nat)
    requires WellFormed(plan) && k < |Items(plan)|
    ensures OthersUnchanged(plan, HalfUndone(plan, initial, k), initial)
  {
    forall path | !IsTarget(plan, path) ensures At(HalfUndone(plan, initial, k), path) == At(initial, path) {
      RestoredElsewhere(Items(plan), initial, path);
      PutAt(Restored(Items(plan), initial), Items(plan)[k].path, Leftover(Items(plan)[k]));
      assert path != Items(plan)[k].path;
    }
  }

  // ---------------------------------------------------------------- the execution that leaves a mix

  /** The run has left an announcement of its reboot unsynced and starts to undo everything. */
  predicate Unsynced(s: State, id: nat) {
    && IsRun(s, id) && WellFormed(s.processes[id].plan) && AllAfter(s.processes[id].plan, s.world)
    && s.processes[id].stage == Undoing(|Items(s.processes[id].plan)|, false)
    && s.disk == Some(Marker(id, s.processes[id].plan, s.boot, AwaitingReboot))
  }

  /** It has failed on all but r items. */
  function DownTo(s: State, id: nat, r: nat): State
    requires Unsynced(s, id)
  {
    Become(s, id, Undoing(r, r < |Items(s.processes[id].plan)|))
  }

  lemma OneUndoFails(s: State, id: nat, r: nat)
    requires Unsynced(s, id) && r < |Items(s.processes[id].plan)|
    ensures CanUndo(DownTo(s, id, r + 1), id, false) && Undone(DownTo(s, id, r + 1), id, false) == DownTo(s, id, r)
  {
    assert Undone(DownTo(s, id, r + 1), id, false).processes == DownTo(s, id, r).processes;
  }

  lemma {:induction false} UndoFails(rule: Rule, start: State, s: State, id: nat, r: nat)
    requires Unsynced(s, id) && Reachable(rule, start, s) && r <= |Items(s.processes[id].plan)|
    ensures Reachable(rule, start, DownTo(s, id, r))
    decreases |Items(s.processes[id].plan)| - r
  {
    if r < |Items(s.processes[id].plan)| {
      UndoFails(rule, start, s, id, r + 1);
      OneUndoFails(s, id, r);
      Take(rule, start, DownTo(s, id, r + 1), UndoDone(id, false), DownTo(s, id, r));
    } else {
      assert DownTo(s, id, r).processes == s.processes;
    }
  }

  /** The machine has rebooted with item k half undone, under the marker that announces it. */
  function Rebooted(s: State, id: nat, k: nat): State
    requires Unsynced(s, id) && k < |Items(s.processes[id].plan)|
  {
    var item := Items(s.processes[id].plan)[k];
    s.(world := Put(s.world, item.path, Leftover(item)), boot := s.boot + 1, processes := map[])
  }

  lemma CrashInRollback(rule: Rule, start: State, s: State, id: nat, k: nat)
    requires Unsynced(s, id) && k < |Items(s.processes[id].plan)| && Reachable(rule, start, DownTo(s, id, k + 1))
    requires MayHold(Items(s.processes[id].plan)[k], Leftover(Items(s.processes[id].plan)[k]))
    ensures Reachable(rule, start, Rebooted(s, id, k))
  {
    var s1, value := DownTo(s, id, k + 1), Leftover(Items(s.processes[id].plan)[k]);
    assert LastItem(s1, id) == Items(s.processes[id].plan)[k];
    Take(rule, start, s1, UndoTouch(id, value), UndoTouched(s1, id, value));
    Take(rule, start, UndoTouched(s1, id, value), Reboot, Rebooted(s, id, k));
  }

  /** What a verified check leaves of the state it started in. */
  predicate VerifiedFrom(s: State, id: nat, s': State) {
    && IsCheck(s, id) && IsCheck(s', id) && s'.processes[id].verified && s'.disk.Some?
    && s'.processes[id].loaded == s.processes[id].loaded
    && s' == s.(disk := s'.disk, processes := s.processes[id := s'.processes[id]])
    && s'.disk.value.owner == s.processes[id].loaded.owner && s'.disk.value.plan == s.processes[id].loaded.plan
  }

  /** A check of a marker in either awaiting phase gets as far as verifying a world that looks converged. */
  lemma CheckVerifies(rule: Rule, start: State, s: State, id: nat) returns (s': State)
    requires Reachable(rule, start, s) && IsCheck(s, id) && s.disk == Some(s.processes[id].loaded)
    requires s.processes[id] == Checking(s.disk.value, false, false) && IsAwaiting(s.disk.value.phase)
    requires LooksConverged(s.disk.value.plan, s.world)
    ensures Reachable(rule, start, s') && VerifiedFrom(s, id, s')
  {
    if s.disk.value.phase.AwaitingReboot? {
      AdvanceAndVerify(rule, start, s, id);
      s' := AdvancedAndVerified(s, id);
    } else {
      s' := After(s, CheckVerify(id));
      Take(rule, start, s, CheckVerify(id), s');
    }
  }

  /** And retires the marker. */
  lemma CheckRetires(rule: Rule, start: State, s: State) returns (s': State)
    requires Reachable(rule, start, s) && s.processes == map[] && CanLoad(s)
    requires LooksConverged(s.disk.value.plan, s.world)
    ensures Reachable(rule, start, s') && s'.disk.None? && s'.processes == map[]
    ensures s'.world == s'.committed == s.world && s'.history == s.history + [s.disk.value.plan]
  {
    Take(rule, start, s, CheckLoad, Loaded(s));
    var s1 := CheckVerifies(rule, start, Loaded(s), s.nextId);
    s' := Retired(s1, s.nextId);
    Take(rule, start, s1, CheckClear(s.nextId), s');
  }

  /** Wherever an announcement of a plan that is not evident is left unsynced, it can be retired with
      one item half undone. */
  lemma UnsyncedIsRetired(rule: Rule, start: State, s: State, id: nat, k: nat) returns (s': State)
    requires Reachable(rule, start, s) && Unsynced(s, id) && k < |Items(s.processes[id].plan)|
    requires !EvidentItem(s.processes[id].plan, Items(s.processes[id].plan)[k], s.world)
    ensures var item := Items(s.processes[id].plan)[k];
            && Reachable(rule, start, s') && s'.disk.None? && s'.processes == map[]
            && s'.world == s'.committed == Put(s.world, item.path, Leftover(item)) != s.world
            && s'.history == s.history + [s.processes[id].plan]
  {
    LeftoverIsHidden(s.processes[id].plan, s.world, k);
    UndoFails(rule, start, s, id, k + 1);
    CrashInRollback(rule, start, s, id, k);
    s' := CheckRetires(rule, start, Rebooted(s, id, k));
  }

  lemma ExposedPlans(plan: Plan, initial: World) returns (s: State)
    requires WellFormed(plan) && PlannedFor(plan, initial) && !SelfEvident(plan, initial)
    ensures Reachable(Alone(plan), Initial(initial), s) && Mixed(plan, initial, s) && s.processes == map[]
  {
    var k :| 0 <= k < |Items(plan)| && !EvidentItem(plan, Items(plan)[k], initial);
    var start := Initial(initial);
    Start(Alone(plan), start);
    RunAsks(Alone(plan), start, start, plan, Ambiguous);
    RestoredIsRestored(plan, initial);
    EvidentAlike(plan, k, Restored(Items(plan), initial), initial);
    s := UnsyncedIsRetired(Alone(plan), start, Asked(start, plan, Ambiguous), 0, k);
    HalfUndoneIsMixed(plan, initial, k);
  }

  /** For every plan and world: serialized runs of the plan can leave a mix without a marker if and
      only if the plan is one made for that world and is not self-evident there. */
  lemma ExposedExactly(plan: Plan, initial: World)
    requires WellFormed(plan)
    ensures Exposed(plan, initial) <==> PlannedFor(plan, initial) && !SelfEvident(plan, initial)
  {
    if PlannedFor(plan, initial) && !SelfEvident(plan, initial) {
      var s := ExposedPlans(plan, initial);
    } else {
      SafePlans(plan, initial);
    }
  }

  /** Item k is removed, and what it is known by is item j, which goes or falls silent. */
  predicate LosesItsEvidence(plan: Plan, k: nat, j: nat)
    requires k < |Items(plan)| && j < |Items(plan)|
  {
    j != k && Items(plan)[k].after.None? && Items(plan)[j].path == Items(plan)[k].evidence
    && !Tells(Items(plan)[k], Items(plan)[j].after)
  }

  /** In other words: it installs a plugin through Decky, whose trees planning knows by name, author
      and version only, or it removes a file by evidence that it removes or silences as well. */
  lemma ExposedByWhat(plan: Plan, initial: World)
    requires WellFormed(plan) && PlannedFor(plan, initial)
    ensures Exposed(plan, initial) <==>
      || (exists k :: 0 <= k < |Items(plan)| && Items(plan)[k].throughDecky && Items(plan)[k].after.Some?)
      || (exists k, j :: 0 <= k < |Items(plan)| && 0 <= j < |Items(plan)| && LosesItsEvidence(plan, k, j))
  {
    ExposedExactly(plan, initial);
    if !SelfEvident(plan, initial) {
      var k :| 0 <= k < |Items(plan)| && !EvidentItem(plan, Items(plan)[k], initial);
      if Items(plan)[k].after.None? {
        var j := EvidenceGoes(plan, initial, k);
        assert LosesItsEvidence(plan, k, j);
      }
    } else {
      forall k, j | 0 <= k < |Items(plan)| && 0 <= j < |Items(plan)| ensures !LosesItsEvidence(plan, k, j) {
        assert EvidentItem(plan, Items(plan)[k], initial);
        if j != k { DistinctPaths(plan, j, k); }
        forall i | 0 <= i < |Items(plan)| && i != j ensures Items(plan)[i].path != Items(plan)[j].path {
          DistinctPaths(plan, i, j);
        }
      }
      forall k | 0 <= k < |Items(plan)| ensures !(Items(plan)[k].throughDecky && Items(plan)[k].after.Some?) {
        assert EvidentItem(plan, Items(plan)[k], initial);
      }
    }
  }
}
