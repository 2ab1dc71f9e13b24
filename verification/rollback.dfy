/** Applying a plan's file actions and undoing them again when one fails. */
module Rollback {
  import opened Identities
  import opened FileNamespace
  import opened FileWrites

  /** Preserve is the create of an incompatible setting's file beside the plan's own targets. */
  datatype Operation = Create | Replace | Remove | Unchanged | Preserve

  datatype Action = Action(logicalPath: string, path: string, operation: Operation,
                           size: nat, sha256: string, desiredMode: nat,
                           existingSize: nat, existingSha256: string, existingMode: nat)

  predicate Creates(action: Action) { action.operation.Create? || action.operation.Preserve? }

  /** A failure of these is not recorded even when it may have changed the target. */
  predicate MayBeLeft(action: Action) { action.operation.Remove? || action.operation.Preserve? }

  /** What plan validation demands of the recorded existing state. */
  predicate Valid(action: Action) {
    && (Creates(action) ==> action.existingSize == 0 && action.existingSha256 == "" && action.existingMode == 0)
    && (action.operation.Remove? ==> action.existingSize == action.size && action.existingSha256 == action.sha256)
  }

  predicate ValidActions(actions: seq<Action>) {
    && (forall k :: 0 <= k < |actions| ==> Valid(actions[k]))
    && DistinctTargets(actions)
  }

  predicate DistinctTargets(actions: seq<Action>) {
    forall j, k :: 0 <= j < k < |actions| ==> actions[j].path != actions[k].path
  }

  function Existing(action: Action): Identity {
    Identity(action.existingSize, action.existingSha256, action.existingMode)
  }

  function Desired(action: Action): Identity { Identity(action.size, action.sha256, action.desiredMode) }

  /** The target's identity before the restore, and after it. */
  function Before(action: Action): Option<Identity> {
    if Creates(action) then None else Some(Existing(action))
  }

  function After(action: Action): Option<Identity> {
    match action.operation
    case Create | Replace | Preserve => Some(Desired(action))
    case Remove => None
    case Unchanged => Some(Existing(action))
  }

  /** Entries hold an identity, or nothing. */
  predicate Shows(entries: map<string, Entry>, path: string, identity: Option<Identity>) {
    match identity
    case None => At(entries, path) == None
    case Some(value) => Holds(At(entries, path), value)
  }

  predicate AllShow(entries: map<string, Entry>, actions: seq<Action>, after: bool) {
    forall k :: 0 <= k < |actions| ==>
      Shows(entries, actions[k].path, if after then After(actions[k]) else Before(actions[k]))
  }

  predicate Targets(actions: seq<Action>, path: string) {
    exists k :: 0 <= k < |actions| && actions[k].path == path
  }

  /** Nothing but the targets of these actions differs. */
  ghost predicate OnlyTargetsDiffer(first: map<string, Entry>, second: map<string, Entry>, actions: seq<Action>) {
    forall path :: !Targets(actions, path) ==> At(first, path) == At(second, path)
  }

  // ---------------------------------------------------------------- one action and its undoing

  function WriteOf(action: Action): Write {
    Write(action.path, Creates(action), Existing(action), Desired(action))
  }

  function RemovalOf(action: Action): Removal {
    Removal(action.path, action.size, action.sha256, action.existingMode, action.desiredMode)
  }

  /** The write that undoes a replacement swaps the two identities; the one that undoes a removal
      creates the original anew. */
  function UndoOf(action: Action): Write
    requires action.operation.Replace? || action.operation.Remove?
  {
    if action.operation.Replace? then Write(action.path, false, Desired(action), Existing(action))
    else Write(action.path, true, Identity(0, "", 0), Identity(action.size, action.sha256, action.existingMode))
  }

  /** Undoing aims at exactly what was there before, and starts from exactly what applying left. */
  lemma UndoReversesApply(action: Action)
    requires Valid(action)
    ensures action.operation.Replace? || action.operation.Remove? ==>
      && Some(UndoOf(action).desired) == Before(action)
      && (if UndoOf(action).create then After(action).None? else After(action) == Some(UndoOf(action).existing))
    ensures Creates(action) ==> After(action) == Some(Removable(RemovalOf(action)))
    ensures action.operation.Remove? && action.existingMode != 0 ==>
        Before(action) == Some(Removable(RemovalOf(action)))
  {
  }

  predicate OneOrOther(entries: map<string, Entry>, action: Action) {
    Shows(entries, action.path, Before(action)) || Shows(entries, action.path, After(action))
  }

  // ---------------------------------------------------------------- what is not the plan's

  /** One of the two files an action is about; a removal compares bytes only. */
  predicate Concerns(action: Action, entry: Entry) {
    && entry.File?
    && (|| Before(action) == Some(entry.identity) || After(action) == Some(entry.identity)
        || ((Creates(action) || action.operation.Remove?) && SameContent(entry.identity, Desired(action))))
  }

  predicate PlanConcerns(actions: seq<Action>, entry: Entry) {
    actions != [] && (Concerns(actions[0], entry) || PlanConcerns(actions[1..], entry))
  }

  lemma {:induction false} ConcernsSome(actions: seq<Action>, entry: Entry)
    ensures PlanConcerns(actions, entry) <==> exists k :: 0 <= k < |actions| && Concerns(actions[k], entry)
  {
    if actions != [] {
      ConcernsSome(actions[1..], entry);
      if k :| 1 <= k < |actions| && Concerns(actions[k], entry) { assert actions[k] == actions[1..][k - 1]; }
    }
  }

  /** What a private directory took is back at a public name, or kept there; it is not deleted. */
  predicate NotLost(left: Left, entry: Entry) {
    entry !in left.destroyed && (entry in left.returned || entry in left.kept)
  }

  ghost predicate KeepsAllBut(left: Left, action: Action) {
    forall e :: e in left.taken && !Concerns(action, e) ==> NotLost(left, e)
  }

  ghost predicate LosesNothing(left: Left, actions: seq<Action>) {
    forall e :: e in left.taken && !PlanConcerns(actions, e) ==> NotLost(left, e)
  }

  /** Since the ledger had n entries, nothing was lost, or deleted, that is not the plan's. */
  ghost predicate KeepsOthers(ledger: seq<Left>, n: nat, actions: seq<Action>) {
    forall i :: n <= i < |ledger| ==> LosesNothing(ledger[i], actions)
  }

  /** One action has been carried out or undone: it used one private directory, or none. */
  ghost predicate OneMore(ledger: seq<Left>, before: seq<Left>, action: Action) {
    ledger == before || (|ledger| == |before| + 1 && before <= ledger && KeepsAllBut(ledger[|before|], action))
  }

  lemma OneMoreKeepsOthers(ledger: seq<Left>, before: seq<Left>, n: nat, actions: seq<Action>, k: nat)
    requires k < |actions| && n <= |before| && KeepsOthers(before, n, actions) && OneMore(ledger, before, actions[k])
    ensures KeepsOthers(ledger, n, actions) && before <= ledger
  {
    forall e | Concerns(actions[k], e) ensures PlanConcerns(actions, e) { ConcernsSome(actions, e); }
  }

  // ---------------------------------------------------------------- applying and undoing one

  /** What applying one action comes to when nobody else writes. */
  twostate predicate AppliedQuietly(ns: Namespace, action: Action, ok: bool, recorded: bool)
    reads ns
  {
    && (forall path :: path != action.path ==> At(ns.entries, path) == At(old(ns.entries), path))
    && (ok ==> Shows(ns.entries, action.path, After(action)))
    && (!recorded && !MayBeLeft(action) ==> ns.entries == old(ns.entries))
    && OneOrOther(ns.entries, action)
  }

  /** Applies one action; `recorded` says that rollback will look at it. */
  method ApplyAction(ns: Namespace, action: Action, staged: map<string, Identity>)
    returns (ok: bool, recorded: bool)
    requires Valid(action)
    modifies ns`failures, ns`entries, ns`seen, ns`vanished, ns`ledger
    ensures ok ==> ns.failures == old(ns.failures)
    ensures OneMore(ns.ledger, old(ns.ledger), action)
    ensures recorded ==> !action.operation.Unchanged?
    ensures ok ==> (recorded <==> !action.operation.Unchanged?)
    ensures !ns.contested && Shows(old(ns.entries), action.path, Before(action)) ==>
      && AppliedQuietly(ns, action, ok, recorded)
      && (!ns.faulty && Supplies(action, staged) ==> ok)
  {
    if action.operation.Unchanged? { return true, false; }
    var cancelled := ns.Fails();
    if cancelled { return false, false; }
    if action.operation.Remove? {
      var removed, _ := RemoveAppliedCreate(ns, RemovalOf(action));
      if !removed.Done? { return false, false; }
      var unseen := ns.Fails();
      return !unseen && action.path !in ns.entries, true;
    }
    if action.logicalPath !in staged { return false, false; }
    var written, _ := AtomicWrite(ns, WriteOf(action), staged[action.logicalPath]);
    if !written.Done? { return false, written.Incomplete? && !action.operation.Preserve?; }
    if action.operation.Preserve? { return true, true; }
    var found := ns.Inspect(action.path, action.size);
    return found == Present(Desired(action)), true;
  }

  /** The payload an action needs is staged with the action's content. */
  predicate Supplies(action: Action, staged: map<string, Identity>) {
    match action.operation
    case Create | Replace | Preserve =>
      action.logicalPath in staged && SameContent(staged[action.logicalPath], Desired(action))
    case Remove => action.existingMode != 0
    case Unchanged => true
  }

  /** The payload its undoing needs is staged from the recovery snapshot. */
  predicate Recovers(action: Action, recovery: map<string, Identity>) {
    action.operation.Replace? || action.operation.Remove? ==>
      action.logicalPath in recovery && SameContent(recovery[action.logicalPath], Existing(action))
  }

  method UndoAction(ns: Namespace, action: Action, recovery: map<string, Identity>) returns (ok: bool)
    requires Valid(action) && !action.operation.Unchanged?
    modifies ns`failures, ns`entries, ns`seen, ns`vanished, ns`ledger
    ensures ok ==> ns.failures == old(ns.failures)
    ensures OneMore(ns.ledger, old(ns.ledger), action)
    ensures !ns.contested ==>
      && (forall path :: path != action.path ==> At(ns.entries, path) == At(old(ns.entries), path))
      && (ok ==> Shows(ns.entries, action.path, Before(action)))
      && (!ns.faulty && Recovers(action, recovery) && Shows(old(ns.entries), action.path, After(action)) ==> ok)
  {
    UndoReversesApply(action);
    if Creates(action) {
      var removed, _ := RemoveAppliedCreate(ns, RemovalOf(action));
      return removed.Done?;
    }
    if action.logicalPath !in recovery { return false; }
    var written, _ := AtomicWrite(ns, UndoOf(action), recovery[action.logicalPath]);
    return written.Done?;
  }

  // ---------------------------------------------------------------- the two loops

  /** The actions rollback looks at: those that changed something. */
  function Mutating(actions: seq<Action>): seq<Action> {
    if actions == [] then []
    else
      var rest := Mutating(actions[..|actions| - 1]);
      var last := actions[|actions| - 1];
      if last.operation.Unchanged? then rest else rest + [last]
  }

  lemma {:induction false} MutatingMembers(actions: seq<Action>)
    ensures forall a :: a in Mutating(actions) <==> a in actions && !a.operation.Unchanged?
  {
    if actions != [] {
      var front, last := actions[..|actions| - 1], actions[|actions| - 1];
      MutatingMembers(front);
      assert actions == front + [last];
    }
  }

  lemma {:induction false} MutatingIsValid(actions: seq<Action>)
    requires ValidActions(actions)
    ensures ValidActions(Mutating(actions))
  {
    if actions != [] {
      var front := actions[..|actions| - 1];
      MutatingIsValid(front);
      MutatingMembers(front);
      var rest := Mutating(front);
      forall j | 0 <= j < |rest| ensures Valid(rest[j]) && rest[j].path != actions[|actions| - 1].path {
        assert rest[j] in front;
      }
    }
  }

  lemma MutatingOneMore(actions: seq<Action>, n: nat)
    requires n < |actions|
    ensures Mutating(actions[..n + 1])
            == if actions[n].operation.Unchanged? then Mutating(actions[..n]) else Mutating(actions[..n]) + [actions[n]]
  {
    assert actions[..n + 1][..n] == actions[..n];
  }

  /** The first actions are applied, the others untouched. */
  predicate Progress(entries: map<string, Entry>, start: map<string, Entry>, actions: seq<Action>, n: nat) {
    && (forall k :: 0 <= k < n <= |actions| ==> Shows(entries, actions[k].path, After(actions[k])))
    && (forall k :: n <= k < |actions| ==> At(entries, actions[k].path) == At(start, actions[k].path))
  }

  lemma ProgressStep(entries: map<string, Entry>, previous: map<string, Entry>, start: map<string, Entry>,
                     actions: seq<Action>, n: nat)
    requires n < |actions| && DistinctTargets(actions) && Progress(previous, start, actions, n)
    requires OnlyTargetsDiffer(previous, start, actions)
    requires forall path :: path != actions[n].path ==> At(entries, path) == At(previous, path)
    ensures OnlyTargetsDiffer(entries, start, actions)
    ensures forall k :: 0 <= k < n ==> Shows(entries, actions[k].path, After(actions[k]))
    ensures forall k :: n < k < |actions| ==> At(entries, actions[k].path) == At(start, actions[k].path)
    ensures Shows(entries, actions[n].path, After(actions[n])) ==> Progress(entries, start, actions, n + 1)
  {
  }

  /** Without other writers: those before the one reached show their result, it is at one of its two
      identities, and nothing else has changed. */
  ghost predicate PrefixShown(entries: map<string, Entry>, start: map<string, Entry>, actions: seq<Action>,
                              reached: nat, recorded: nat)
  {
    && (reached < |actions| ==> OneOrOther(entries, actions[reached]))
    && OnlyTargetsDiffer(entries, start, actions)
    && (forall k :: 0 <= k < reached && k < |actions| ==> Shows(entries, actions[k].path, After(actions[k])))
    && (forall k :: reached < k < |actions| ==> At(entries, actions[k].path) == At(start, actions[k].path))
    && (recorded == reached < |actions| && !MayBeLeft(actions[reached]) ==>
          At(entries, actions[reached].path) == At(start, actions[reached].path))
  }

  /** The action reached took effect, and rollback will not look at it. */
  predicate WasMissed(stopped: map<string, Entry>, actions: seq<Action>, reached: nat, recorded: nat) {
    recorded == reached < |actions| && !Shows(stopped, actions[reached].path, Before(actions[reached]))
  }

  /** Applies the next action of a list whose first n have been applied. */
  method ApplyNext(ns: Namespace, actions: seq<Action>, n: nat, staged: map<string, Identity>,
                   ghost start: map<string, Entry>)
    returns (ok: bool, recorded: bool)
    requires ValidActions(actions) && n < |actions|
    modifies ns`failures, ns`entries, ns`seen, ns`vanished, ns`ledger
    ensures ok ==> ns.failures == old(ns.failures)
    ensures OneMore(ns.ledger, old(ns.ledger), actions[n])
    ensures recorded ==> !actions[n].operation.Unchanged?
    ensures ok ==> (recorded <==> !actions[n].operation.Unchanged?)
    ensures !ns.contested && Reached(old(ns.entries), start, actions, n) ==>
      && (ok ==> Reached(ns.entries, start, actions, n + 1))
      && (!ok ==> PrefixShown(ns.entries, start, actions, n, n + if recorded then 1 else 0))
      && (!ns.faulty && Supplies(actions[n], staged) ==> ok)
  {
    ghost var previous := ns.entries;
    ok, recorded := ApplyAction(ns, actions[n], staged);
    if !ns.contested && Reached(previous, start, actions, n) {
      assert Shows(previous, actions[n].path, Before(actions[n]));
      ProgressStep(ns.entries, previous, start, actions, n);
    }
  }

  /** The first actions of a plan made for `start` are applied, and nothing else has changed. */
  ghost predicate Reached(entries: map<string, Entry>, start: map<string, Entry>, actions: seq<Action>, n: nat) {
    AllShow(start, actions, false) && Progress(entries, start, actions, n) && OnlyTargetsDiffer(entries, start, actions)
  }

  lemma StoppedIsPrefix(entries: map<string, Entry>, start: map<string, Entry>, actions: seq<Action>, n: nat)
    requires Reached(entries, start, actions, n) && n < |actions|
    ensures PrefixShown(entries, start, actions, n, n)
  {
    assert Shows(start, actions[n].path, Before(actions[n]));
  }

  /** Applies actions in order until one fails, or the caller's hook stops before number `stop`. */
  method ApplyActions(ns: Namespace, actions: seq<Action>, staged: map<string, Identity>, stop: nat)
    returns (applied: seq<Action>, reached: nat, ghost recorded: nat)
    requires ValidActions(actions)
    modifies ns`failures, ns`entries, ns`seen, ns`vanished, ns`ledger
    ensures reached == |actions| ==> ns.failures == old(ns.failures)
    ensures old(ns.ledger) <= ns.ledger && KeepsOthers(ns.ledger, |old(ns.ledger)|, actions)
    ensures reached <= recorded <= reached + 1 && recorded <= |actions| && applied == Mutating(actions[..recorded])
    ensures recorded > reached ==> !actions[reached].operation.Unchanged?
    ensures !ns.contested && AllShow(old(ns.entries), actions, false) ==>
      && PrefixShown(ns.entries, old(ns.entries), actions, reached, recorded)
      && (!ns.faulty && AllSupplied(actions, staged) ==>
            reached == recorded == (if stop < |actions| then stop else |actions|)
            && Progress(ns.entries, old(ns.entries), actions, reached))
  {
    applied, reached, recorded := [], 0, 0;
    ghost var start, now, ledger := ns.entries, ns.entries, ns.ledger;
    ghost var quiet := !ns.contested && AllShow(start, actions, false);
    while reached < |actions|
      invariant ns.failures == old(ns.failures)
      invariant recorded == reached <= |actions| && reached <= stop && applied == Mutating(actions[..reached])
      invariant ledger == ns.ledger && old(ns.ledger) <= ledger && KeepsOthers(ledger, |old(ns.ledger)|, actions)
      invariant now == ns.entries && (quiet ==> Reached(now, start, actions, reached))
    {
      if quiet { StoppedIsPrefix(now, start, actions, reached); }
      if reached == stop { return; }
      var ok, last;
      ok, last := ApplyNext(ns, actions, reached, staged, start);
      OneMoreKeepsOthers(ns.ledger, ledger, |old(ns.ledger)|, actions, reached);
      now, ledger := ns.entries, ns.ledger;
      MutatingOneMore(actions, reached);
      if last {
        applied, recorded := applied + [actions[reached]], recorded + 1;
      } else if ok {
        recorded := recorded + 1;
      }
      if !ok { return; }
      reached := reached + 1;
    }
    assert actions[..reached] == actions;
    if quiet { AppliedWhole(now, start, actions); }
  }

  lemma AppliedWhole(entries: map<string, Entry>, start: map<string, Entry>, actions: seq<Action>)
    requires Reached(entries, start, actions, |actions|)
    ensures PrefixShown(entries, start, actions, |actions|, |actions|)
  {
  }

  predicate AllSupplied(actions: seq<Action>, staged: map<string, Identity>) {
    forall k :: 0 <= k < |actions| ==> Supplies(actions[k], staged)
  }

  predicate AllRecoverable(actions: seq<Action>, recovery: map<string, Identity>) {
    forall k :: 0 <= k < |actions| ==> Recovers(actions[k], recovery)
  }

  predicate Mutates(actions: seq<Action>) {
    forall k :: 0 <= k < |actions| ==> !actions[k].operation.Unchanged?
  }

  /** Undoes the recorded actions in reverse order, carrying on after a failure. */
  method RollbackApplied(ns: Namespace, applied: seq<Action>, recovery: map<string, Identity>) returns (ok: bool)
    requires ValidActions(applied) && Mutates(applied)
    modifies ns`failures, ns`entries, ns`seen, ns`vanished, ns`ledger
    ensures ok ==> ns.failures == old(ns.failures)
    ensures old(ns.ledger) <= ns.ledger && KeepsOthers(ns.ledger, |old(ns.ledger)|, applied)
    ensures !ns.contested ==>
      && OnlyTargetsDiffer(ns.entries, old(ns.entries), applied)
      && (ok ==> AllShow(ns.entries, applied, false))
      && (!ns.faulty && AllRecoverable(applied, recovery) && AllShow(old(ns.entries), applied, true) ==> ok)
  {
    ok := true;
    var index := |applied|;
    while index > 0
      invariant 0 <= index <= |applied| && (ok ==> ns.failures == old(ns.failures))
      invariant old(ns.ledger) <= ns.ledger && KeepsOthers(ns.ledger, |old(ns.ledger)|, applied)
      invariant !ns.contested ==>
        && OnlyTargetsDiffer(ns.entries, old(ns.entries), applied)
        && (forall k :: 0 <= k < index ==> At(ns.entries, applied[k].path) == At(old(ns.entries), applied[k].path))
        && (ok ==> forall k :: index <= k < |applied| ==> Shows(ns.entries, applied[k].path, Before(applied[k])))
        && (!ns.faulty && AllRecoverable(applied, recovery) && AllShow(old(ns.entries), applied, true) ==> ok)
    {
      index := index - 1;
      var action := applied[index];
      assert Targets(applied, action.path);
      ghost var ledger := ns.ledger;
      var undone := UndoAction(ns, action, recovery);
      OneMoreKeepsOthers(ns.ledger, ledger, |old(ns.ledger)|, applied, index);
      ok := ok && undone;
    }
  }

  lemma MutatingTargets(actions: seq<Action>, recorded: nat, path: string)
    requires recorded <= |actions|
    ensures Targets(Mutating(actions[..recorded]), path)
            ==> exists i :: 0 <= i < recorded && actions[i].path == path && !actions[i].operation.Unchanged?
  {
    MutatingMembers(actions[..recorded]);
  }

  /** Rolling back what was recorded brings every action but the one reached back to its original. */
  lemma RollbackCovers(entries: map<string, Entry>, mid: map<string, Entry>, start: map<string, Entry>,
                       actions: seq<Action>, recorded: nat, k: nat)
    requires ValidActions(actions) && recorded <= |actions| && k < |actions|
    requires AllShow(start, actions, false) && AllShow(entries, Mutating(actions[..recorded]), false)
    requires OnlyTargetsDiffer(entries, mid, Mutating(actions[..recorded]))
    requires k >= recorded ==> At(mid, actions[k].path) == At(start, actions[k].path)
    requires k < recorded && actions[k].operation.Unchanged? ==> Shows(mid, actions[k].path, After(actions[k]))
    ensures Shows(entries, actions[k].path, Before(actions[k]))
  {
    var applied := Mutating(actions[..recorded]);
    MutatingMembers(actions[..recorded]);
    if k < recorded && !actions[k].operation.Unchanged? {
      assert actions[k] in actions[..recorded];
      var j :| 0 <= j < |applied| && applied[j] == actions[k];
    } else {
      MutatingTargets(actions, recorded, actions[k].path);
      assert At(entries, actions[k].path) == At(mid, actions[k].path);
    }
  }

  /** What rollback reports as undone, without other writers. */
  lemma UndoneIsBefore(entries: map<string, Entry>, mid: map<string, Entry>, start: map<string, Entry>,
                       actions: seq<Action>, reached: nat, recorded: nat)
    requires ValidActions(actions) && AllShow(start, actions, false)
    requires reached <= recorded <= reached + 1 && recorded <= |actions|
    requires recorded > reached ==> !actions[reached].operation.Unchanged?
    requires reached < |actions| && PrefixShown(mid, start, actions, reached, recorded)
    requires AllShow(entries, Mutating(actions[..recorded]), false)
    requires OnlyTargetsDiffer(entries, mid, Mutating(actions[..recorded]))
    ensures forall k :: 0 <= k < |actions| && (k != reached || !MayBeLeft(actions[k]))
                        ==> Shows(entries, actions[k].path, Before(actions[k]))
    ensures !AllShow(entries, actions, false) <==> WasMissed(mid, actions, reached, recorded)
    ensures WasMissed(mid, actions, reached, recorded) ==>
      MayBeLeft(actions[reached]) && Shows(entries, actions[reached].path, After(actions[reached]))
  {
    forall k | 0 <= k < |actions| && (k != reached || !MayBeLeft(actions[k]))
      ensures Shows(entries, actions[k].path, Before(actions[k]))
    {
      RollbackCovers(entries, mid, start, actions, recorded, k);
    }
    if recorded > reached {
      RollbackCovers(entries, mid, start, actions, recorded, reached);
    } else {
      MissedStays(entries, mid, actions, reached);
    }
  }

  /** Rollback leaves the target of the action reached alone when that was not recorded. */
  lemma MissedStays(entries: map<string, Entry>, mid: map<string, Entry>, actions: seq<Action>, reached: nat)
    requires ValidActions(actions) && reached < |actions|
    requires OnlyTargetsDiffer(entries, mid, Mutating(actions[..reached]))
    ensures At(entries, actions[reached].path) == At(mid, actions[reached].path)
  {
    MutatingTargets(actions, reached, actions[reached].path);
  }

  /** A restore of files: applied whole, or undone. When rollback reports success something is left if
      and only if the action reached took effect unrecorded; it is a removal or a preserved setting,
      and alone. And whatever other processes do meanwhile, no file of theirs is lost. `stopped` is
      what there was when applying stopped. */
  method ApplyOrUndo(ns: Namespace, actions: seq<Action>, staged: map<string, Identity>,
                     recovery: map<string, Identity>, stop: nat)
    returns (restored: bool, undone: bool, reached: nat, ghost recorded: nat, ghost stopped: map<string, Entry>)
    requires ValidActions(actions)
    modifies ns`failures, ns`entries, ns`seen, ns`vanished, ns`ledger
    ensures restored ==> ns.failures == old(ns.failures)
    ensures old(ns.ledger) <= ns.ledger && KeepsOthers(ns.ledger, |old(ns.ledger)|, actions)
    ensures undone ==> !restored && reached < |actions|
    ensures !ns.contested && AllShow(old(ns.entries), actions, false) ==>
      && OnlyTargetsDiffer(ns.entries, old(ns.entries), actions)
      && (restored ==> AllShow(ns.entries, actions, true))
      && (undone ==> forall k :: 0 <= k < |actions| && (k != reached || !MayBeLeft(actions[k]))
                                 ==> Shows(ns.entries, actions[k].path, Before(actions[k])))
      && (undone ==> PrefixShown(stopped, old(ns.entries), actions, reached, recorded))
      && (undone ==> (!AllShow(ns.entries, actions, false) <==> WasMissed(stopped, actions, reached, recorded)))
      && (undone && WasMissed(stopped, actions, reached, recorded) ==>
            MayBeLeft(actions[reached]) && Shows(ns.entries, actions[reached].path, After(actions[reached])))
      && (!ns.faulty && AllSupplied(actions, staged) && AllRecoverable(actions, recovery) ==>
            if stop < |actions| then undone && AllShow(ns.entries, actions, false) else restored)
  {
    var applied: seq<Action>;
    ghost var start := ns.entries;
    applied, reached, recorded := ApplyActions(ns, actions, staged, stop);
    stopped := ns.entries;
    if reached == |actions| { return true, false, reached, recorded, stopped; }
    ghost var before := ns.ledger;
    MutatingIsValid(actions[..recorded]);
    PayloadsCover(actions, recorded, recovery, stopped, reached);
    restored := false;
    undone := RollbackApplied(ns, applied, recovery);
    MutatingConcerns(ns.ledger, |before|, actions, recorded);
    if !ns.contested && AllShow(start, actions, false) {
      if undone { UndoneIsBefore(ns.entries, stopped, start, actions, reached, recorded); }
      if recorded == reached { MutatingTargets(actions, recorded, actions[reached].path); }
      forall path | !Targets(actions, path) ensures !Targets(applied, path) {
        MutatingTargets(actions, recorded, path);
      }
    }
  }

  /** What is not the plan's is not the recorded actions' either. */
  lemma MutatingConcerns(ledger: seq<Left>, n: nat, actions: seq<Action>, recorded: nat)
    requires recorded <= |actions| && KeepsOthers(ledger, n, Mutating(actions[..recorded]))
    ensures KeepsOthers(ledger, n, actions)
  {
    var applied := Mutating(actions[..recorded]);
    MutatingMembers(actions[..recorded]);
    forall e | PlanConcerns(applied, e) ensures PlanConcerns(actions, e) {
      ConcernsSome(applied, e);
      ConcernsSome(actions, e);
      var k :| 0 <= k < |applied| && Concerns(applied[k], e);
      assert applied[k] in actions[..recorded];
      var j :| 0 <= j < recorded && actions[j] == applied[k];
    }
  }

  /** Everything recorded can be recovered, and shows what applying left, when the whole plan does. */
  lemma PayloadsCover(actions: seq<Action>, recorded: nat, recovery: map<string, Identity>, mid: map<string, Entry>,
                      reached: nat)
    requires ValidActions(actions) && recorded <= |actions| && reached <= recorded
    ensures var applied := Mutating(actions[..recorded]);
            && Mutates(applied)
            && (AllRecoverable(actions, recovery) ==> AllRecoverable(applied, recovery))
            && (recorded == reached && (forall k :: 0 <= k < reached ==> Shows(mid, actions[k].path, After(actions[k])))
                ==> AllShow(mid, applied, true))
  {
    MutatingMembers(actions[..recorded]);
  }
}
