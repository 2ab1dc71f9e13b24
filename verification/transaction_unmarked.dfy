/** Runs of plans without a runtime refresh save no marker. */
module UnmarkedRuns {
  import opened Identities
  import opened Transaction
  import opened TransactionSafety
  import opened TransactionTheorems
  import opened TransactionExecutions
  import opened TransactionExclusion

  // ---------------------------------------------------------------- a run without a marker

  /** Plugins need a refresh, and so do the files the program knows. What is left are settings kept
      aside, and files under other component names. */
  predicate Unmarked(plan: Plan) {
    plan.plugins == [] && forall k :: 0 <= k < |Items(plan)| ==> !Items(plan)[k].throughDecky
  }

  datatype Progress = Seen | Restores(next: nat) | Reverts(remaining: nat, failed: bool)

  datatype UnmarkedRun = UnmarkedRun(plan: Plan, progress: Progress)

  /** The protocol, and beside it the runs that save no marker. */
  datatype Wide = Wide(protocol: State, unmarked: map<nat, UnmarkedRun>, nextRun: nat)

  datatype WideStep =
    | Of(step: Step)
    | Begins(plan: Plan)
    | Approves(id: nat)
    | Writes(id: nat)
    | Fails(id: nat, missed: bool)
    | Undoes(id: nat, clean: bool)
    | Removes(id: nat)
    | Dies(id: nat)

  predicate IsAt(w: Wide, id: nat) { id in w.unmarked }

  function ItemAt(w: Wide, id: nat, k: int): Item
    requires IsAt(w, id) && 0 <= k < |Items(w.unmarked[id].plan)|
  {
    Items(w.unmarked[id].plan)[k]
  }

  /** A target is written only while it is as approved; a write that fails may have happened all the
      same and go unrecorded. */
  predicate CanWrite(w: Wide, id: nat) {
    && IsAt(w, id) && w.unmarked[id].progress.Restores? && w.unmarked[id].progress.next < |Items(w.unmarked[id].plan)|
    && At(w.protocol.world, ItemAt(w, id, w.unmarked[id].progress.next).path)
       == ItemAt(w, id, w.unmarked[id].progress.next).before
  }

  predicate CanRevert(w: Wide, id: nat, clean: bool) {
    && IsAt(w, id) && w.unmarked[id].progress.Reverts?
    && 0 < w.unmarked[id].progress.remaining <= |Items(w.unmarked[id].plan)|
    && (clean ==> At(w.protocol.world, ItemAt(w, id, w.unmarked[id].progress.remaining - 1).path)
                  == ItemAt(w, id, w.unmarked[id].progress.remaining - 1).after)
  }

  /** Having restored everything, or undone it, a run removes the marker by name. */
  predicate CanRemove(w: Wide, id: nat) {
    && IsAt(w, id)
    && var run := w.unmarked[id];
       || (run.progress == Restores(|Items(run.plan)|) && LooksConverged(run.plan, w.protocol.world))
       || (run.progress == Reverts(0, false) && AllBefore(run.plan, w.protocol.world))
  }

  predicate Possible(w: Wide, step: WideStep) {
    match step
    case Of(step) => Enabled(w.protocol, step)
    case Begins(plan) => WellFormed(plan) && HasMutations(plan) && Unmarked(plan) && w.protocol.disk.None?
    case Approves(id) =>
      IsAt(w, id) && w.unmarked[id].progress.Seen? && PlannedFor(w.unmarked[id].plan, w.protocol.world)
    case Writes(id) => CanWrite(w, id)
    case Fails(id, missed) =>
      IsAt(w, id) && w.unmarked[id].progress.Restores? && w.unmarked[id].progress.next <= |Items(w.unmarked[id].plan)|
      && (missed ==> CanWrite(w, id))
    case Undoes(id, clean) => CanRevert(w, id, clean)
    case Removes(id) => CanRemove(w, id)
    case Dies(id) => IsAt(w, id)
  }

  function Moved(w: Wide, id: nat, progress: Progress): Wide
    requires IsAt(w, id)
  {
    w.(unmarked := w.unmarked[id := w.unmarked[id].(progress := progress)])
  }

  function Write(w: Wide, path: string, value: Option<Identity>): Wide {
    w.(protocol := w.protocol.(world := Put(w.protocol.world, path, value)))
  }

  function Ended(w: Wide, id: nat): Wide { w.(unmarked := w.unmarked - {id}) }

  function Next(w: Wide, step: WideStep): Wide
    requires Possible(w, step)
  {
    match step
    case Of(step) =>
      w.(protocol := After(w.protocol, step), unmarked := if step.Reboot? then map[] else w.unmarked)
    case Begins(plan) =>
      w.(unmarked := w.unmarked[w.nextRun := UnmarkedRun(plan, Seen)], nextRun := w.nextRun + 1)
    case Approves(id) => Moved(w, id, Restores(0))
    case Writes(id) =>
      var k := w.unmarked[id].progress.next;
      Moved(Write(w, ItemAt(w, id, k).path, ItemAt(w, id, k).after), id, Restores(k + 1))
    case Fails(id, missed) =>
      var k := w.unmarked[id].progress.next;
      Moved(if missed then Write(w, ItemAt(w, id, k).path, ItemAt(w, id, k).after) else w, id, Reverts(k, false))
    case Undoes(id, clean) =>
      var k := w.unmarked[id].progress.remaining - 1;
      Moved(if clean then Write(w, ItemAt(w, id, k).path, ItemAt(w, id, k).before) else w, id,
            Reverts(k, w.unmarked[id].progress.failed || !clean))
    case Removes(id) => Ended(w.(protocol := w.protocol.(disk := None)), id)
    case Dies(id) => Ended(w, id)
  }

  // ---------------------------------------------------------------- executions

  /** Either the protocol keeps its two rules, or there is nothing but unmarked runs of one plan. */
  datatype WideRule = WithDiscipline | OnlyUnmarked(plan: Plan)

  predicate Allows(rule: WideRule, w: Wide, step: WideStep)
    requires Possible(w, step)
  {
    match rule
    case WithDiscipline => step.Of? ==> Follows(Disciplined, w.protocol, step.step)
    case OnlyUnmarked(plan) => (step.Of? ==> step.step.Reboot?) && (step.Begins? ==> step.plan == plan)
  }

  predicate Runs(rule: WideRule, w: Wide, steps: seq<WideStep>)
    decreases |steps|
  {
    steps == [] || (Possible(w, steps[0]) && Allows(rule, w, steps[0]) && Runs(rule, Next(w, steps[0]), steps[1..]))
  }

  function Arrives(rule: WideRule, w: Wide, steps: seq<WideStep>): Wide
    requires Runs(rule, w, steps)
    decreases |steps|
  {
    if steps == [] then w else Arrives(rule, Next(w, steps[0]), steps[1..])
  }

  ghost predicate CanReach(rule: WideRule, start: Wide, w: Wide) {
    exists steps: seq<WideStep> :: Runs(rule, start, steps) && Arrives(rule, start, steps) == w
  }

  lemma {:induction false} RunsOneMore(rule: WideRule, w: Wide, steps: seq<WideStep>, step: WideStep)
    requires Runs(rule, w, steps) && Possible(Arrives(rule, w, steps), step)
    requires Allows(rule, Arrives(rule, w, steps), step)
    ensures Runs(rule, w, steps + [step])
    ensures Arrives(rule, w, steps + [step]) == Next(Arrives(rule, w, steps), step)
    decreases |steps|
  {
    var longer := steps + [step];
    if steps == [] {
      assert longer[1..] == [];
    } else {
      assert longer[0] == steps[0] && longer[1..] == steps[1..] + [step];
      RunsOneMore(rule, Next(w, steps[0]), steps[1..], step);
    }
  }

  lemma Go(rule: WideRule, start: Wide, w: Wide, step: WideStep, w': Wide)
    requires CanReach(rule, start, w) && Possible(w, step) && Allows(rule, w, step) && Next(w, step) == w'
    ensures CanReach(rule, start, w')
  {
    var steps: seq<WideStep> :| Runs(rule, start, steps) && Arrives(rule, start, steps) == w;
    RunsOneMore(rule, start, steps, step);
    assert Runs(rule, start, steps + [step]);
  }

  function Before(initial: World): Wide { Wide(Initial(initial), map[], 0) }

  lemma Stay(rule: WideRule, w: Wide)
    ensures CanReach(rule, w, w)
  {
    assert Runs(rule, w, []) && Arrives(rule, w, []) == w;
  }

  /** An unmarked run of the plan has been approved. */
  function ApprovedAlone(initial: World, plan: Plan): Wide {
    Wide(Initial(initial), map[0 := UnmarkedRun(plan, Restores(0))], 1)
  }

  lemma UnmarkedIsApproved(rule: WideRule, initial: World, plan: Plan)
    requires WellFormed(plan) && HasMutations(plan) && Unmarked(plan) && PlannedFor(plan, initial)
    requires rule.OnlyUnmarked? ==> rule.plan == plan
    ensures CanReach(rule, Before(initial), ApprovedAlone(initial, plan))
  {
    var w := Wide(Initial(initial), map[0 := UnmarkedRun(plan, Seen)], 1);
    Stay(rule, Before(initial));
    Go(rule, Before(initial), Before(initial), Begins(plan), w);
    assert w.unmarked[0 := UnmarkedRun(plan, Restores(0))] == ApprovedAlone(initial, plan).unmarked;
    Go(rule, Before(initial), w, Approves(0), ApprovedAlone(initial, plan));
  }

  // ---------------------------------------------------------------- the third way exclusion fails

  lemma GoOf(start: Wide, w: Wide, step: Step, s: State)
    requires CanReach(WithDiscipline, start, w) && Enabled(w.protocol, step) && Follows(Disciplined, w.protocol, step)
    requires After(w.protocol, step) == s && !step.Reboot?
    ensures CanReach(WithDiscipline, start, w.(protocol := s))
  {
    Go(WithDiscipline, start, w, Of(step), w.(protocol := s));
  }

  /** A run of the protocol begins and saves its marker. */
  lemma MarkedRunBegins(start: Wide, w: Wide, plan: Plan)
    requires CanReach(WithDiscipline, start, w) && w.protocol.disk.None? && NoCheckInFlight(w.protocol)
    requires WellFormed(plan) && HasMutations(plan) && PlannedFor(plan, w.protocol.world)
    ensures CanReach(WithDiscipline, start,
        w.(protocol := Begun(w.protocol, plan, Marked, Mark(w.protocol, plan, Prepared))))
  {
    var s, id := w.protocol, w.protocol.nextId;
    GoOf(start, w, StartRun(plan), Begun(s, plan, Started, None));
    var s1 := Begun(s, plan, Started, None);
    assert Become(s1, id, SawNoMarker).processes == Begun(s, plan, SawNoMarker, None).processes;
    GoOf(start, w.(protocol := s1), Look(id), Begun(s, plan, SawNoMarker, None));
    MarkedRunSaves(start, w, plan);
  }

  lemma MarkedRunSaves(start: Wide, w: Wide, plan: Plan)
    requires w.protocol.disk.None? && NoCheckInFlight(w.protocol) && PlannedFor(plan, w.protocol.world)
    requires CanReach(WithDiscipline, start, w.(protocol := Begun(w.protocol, plan, SawNoMarker, None)))
    ensures CanReach(WithDiscipline, start,
        w.(protocol := Begun(w.protocol, plan, Marked, Mark(w.protocol, plan, Prepared))))
  {
    var s, id := w.protocol, w.protocol.nextId;
    var s1, s2 := Begun(s, plan, SawNoMarker, None), Begun(s, plan, Approved, None);
    assert Become(s1, id, Approved).processes == s2.processes;
    GoOf(start, w.(protocol := s1), Approve(id), s2);
    assert Become(s2, id, Marked).processes == Begun(s, plan, Marked, Mark(s, plan, Prepared)).processes;
    GoOf(start, w.(protocol := s2), SaveMarker(id), Begun(s, plan, Marked, Mark(s, plan, Prepared)));
  }

  /** An approved run that is cancelled before its first write reports success, and removes the marker
      of whichever run has saved one. */
  lemma CancelledRunRemoves(start: Wide, w: Wide, id: nat)
    requires CanReach(WithDiscipline, start, w) && IsAt(w, id) && w.unmarked[id].progress == Restores(0)
    requires AllBefore(w.unmarked[id].plan, w.protocol.world)
    ensures CanReach(WithDiscipline, start, Ended(w.(protocol := w.protocol.(disk := None)), id))
  {
    var w1 := Moved(w, id, Reverts(0, false));
    Go(WithDiscipline, start, w, Fails(id, false), w1);
    assert w1.unmarked - {id} == w.unmarked - {id};
    Go(WithDiscipline, start, w1, Removes(id), Ended(w.(protocol := w.protocol.(disk := None)), id));
  }

  /** Beside an unmarked run, of whatever plan, two runs of whatever plans get into their transactions,
      though every step of the protocol keeps both of its rules. */
  lemma UnmarkedLetsTwoIn(initial: World, plan: Plan, first: Plan, second: Plan) returns (w: Wide)
    requires WellFormed(plan) && HasMutations(plan) && Unmarked(plan) && PlannedFor(plan, initial)
    requires WellFormed(first) && HasMutations(first) && PlannedFor(first, initial)
    requires WellFormed(second) && HasMutations(second) && PlannedFor(second, initial)
    ensures CanReach(WithDiscipline, Before(initial), w) && TwoInSection(w.protocol)
  {
    UnmarkedIsApproved(WithDiscipline, initial, plan);
    var w0 := ApprovedAlone(initial, plan);
    MarkedRunBegins(Before(initial), w0, first);
    var w1 := w0.(protocol := Begun(w0.protocol, first, Marked, Mark(w0.protocol, first, Prepared)));
    CancelledRunRemoves(Before(initial), w1, 0);
    var w2 := Ended(w1.(protocol := w1.protocol.(disk := None)), 0);
    MarkedRunBegins(Before(initial), w2, second);
    w := w2.(protocol := Begun(w2.protocol, second, Marked, Mark(w2.protocol, second, Prepared)));
    assert InSection(w.protocol.processes[0]) && InSection(w.protocol.processes[1]);
  }

  // ---------------------------------------------------------------- and crash safety

  /** Nothing runs, and the world is neither the initial nor the restored one. */
  predicate LeftMixed(plan: Plan, initial: World, w: Wide) {
    && w.unmarked == map[] && w.protocol.disk.None?
    && w.protocol.world != initial && w.protocol.world != Restored(Items(plan), initial)
  }

  ghost predicate UnmarkedExposed(plan: Plan, initial: World) {
    exists w :: CanReach(OnlyUnmarked(plan), Before(initial), w) && LeftMixed(plan, initial, w)
  }

  lemma OneItemIsLeft(plan: Plan, initial: World)
    requires WellFormed(plan) && Unmarked(plan) && PlannedFor(plan, initial) && |Items(plan)| >= 2
    ensures UnmarkedExposed(plan, initial)
  {
    UnmarkedIsApproved(OnlyUnmarked(plan), initial, plan);
    var w, item := ApprovedAlone(initial, plan), Items(plan)[0];
    assert ItemAt(w, 0, 0) == item;
    var w1 := Moved(Write(w, item.path, item.after), 0, Restores(1));
    Go(OnlyUnmarked(plan), Before(initial), w, Writes(0), w1);
    Go(OnlyUnmarked(plan), Before(initial), w1, Dies(0), Ended(w1, 0));
    FirstOnlyIsMixed(plan, initial);
    assert LeftMixed(plan, initial, Ended(w1, 0));
  }

  lemma FirstOnlyIsMixed(plan: Plan, initial: World)
    requires WellFormed(plan) && PlannedFor(plan, initial) && |Items(plan)| >= 2
    ensures var world := Put(initial, Items(plan)[0].path, Items(plan)[0].after);
            world != initial && world != Restored(Items(plan), initial)
  {
    var first, second := Items(plan)[0], Items(plan)[1];
    PutAt(initial, first.path, first.after);
    DistinctPaths(plan, 0, 1);
    RestoredAt(Items(plan), initial, 1);
    assert Mutates(first) && At(initial, first.path) == first.before;
    assert Mutates(second) && At(initial, second.path) == second.before;
  }

  /** Runs of a plan of one item only: the item is as it was, or restored. */
  predicate OneItemDone(plan: Plan, initial: World, w: Wide) {
    && (w.protocol.world == initial || w.protocol.world == Restored(Items(plan), initial))
    && (forall id :: id in w.unmarked ==> w.unmarked[id].plan == plan)
  }

  lemma OneItemStep(plan: Plan, initial: World, w: Wide, step: WideStep)
    requires WellFormed(plan) && |Items(plan)| == 1 && At(initial, Items(plan)[0].path) == Items(plan)[0].before
    requires OneItemDone(plan, initial, w) && Possible(w, step) && Allows(OnlyUnmarked(plan), w, step)
    ensures OneItemDone(plan, initial, Next(w, step))
  {
    var item := Items(plan)[0];
    assert Items(plan)[..0] == [];
    assert Restored(Items(plan), initial) == Put(initial, item.path, item.after);
    assert Mutates(item);
    PutAt(initial, item.path, item.after);
    PutBack(initial, item);
  }

  lemma PutBack(initial: World, item: Item)
    requires At(initial, item.path) == item.before
    ensures Put(Put(initial, item.path, item.after), item.path, item.before) == initial
  {
    PutAt(initial, item.path, item.after);
    PutAt(Put(initial, item.path, item.after), item.path, item.before);
    SameWorld(Put(Put(initial, item.path, item.after), item.path, item.before), initial);
  }

  /** A plan that was not made for the world is never approved. */
  predicate NothingDone(plan: Plan, initial: World, w: Wide) {
    && w.protocol.world == initial
    && (forall id :: id in w.unmarked ==> w.unmarked[id].plan == plan && w.unmarked[id].progress.Seen?)
  }

  lemma {:induction false} NeverMixed(plan: Plan, initial: World, w: Wide, steps: seq<WideStep>)
    requires WellFormed(plan) && Runs(OnlyUnmarked(plan), w, steps)
    requires if PlannedFor(plan, initial) then |Items(plan)| == 1 && OneItemDone(plan, initial, w)
             else NothingDone(plan, initial, w)
    ensures !LeftMixed(plan, initial, Arrives(OnlyUnmarked(plan), w, steps))
    decreases |steps|
  {
    if steps != [] {
      if PlannedFor(plan, initial) {
        OneItemStep(plan, initial, w, steps[0]);
      }
      NeverMixed(plan, initial, Next(w, steps[0]), steps[1..]);
    }
  }

  /** Crashes leave a part of an unmarked plan, with nothing to tell of it, if and only if it is made
      for the world and has two items or more. */
  lemma UnmarkedExposedExactly(plan: Plan, initial: World)
    requires WellFormed(plan) && HasMutations(plan) && Unmarked(plan)
    ensures UnmarkedExposed(plan, initial) <==> PlannedFor(plan, initial) && |Items(plan)| >= 2
  {
    if PlannedFor(plan, initial) && |Items(plan)| >= 2 {
      OneItemIsLeft(plan, initial);
    } else {
      forall w | CanReach(OnlyUnmarked(plan), Before(initial), w) ensures !LeftMixed(plan, initial, w) {
        var steps: seq<WideStep> :| Runs(OnlyUnmarked(plan), Before(initial), steps)
                                    && Arrives(OnlyUnmarked(plan), Before(initial), steps) == w;
        NeverMixed(plan, initial, Before(initial), steps);
      }
    }
  }
}
