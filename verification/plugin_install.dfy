/** Installing a plugin by moving whole trees, and rolling installed plugins back. */
module PluginInstall {
  import opened Identities
  import opened PluginTrees

  /** Where a plugin goes, where a replaced one is preserved, and what was approved as existing. */
  datatype PluginAction = PluginAction(replace: bool, target: string, preserve: string, existing: Fingerprint)

  datatype Item = Item(action: PluginAction, installed: Fingerprint)

  datatype Outcome = Installed | Failed | Incomplete

  /** The target and preservation path of an action as planning saw them. */
  predicate Original(trees: map<string, Tree>, action: PluginAction) {
    if action.replace then Matches(At(trees, action.target), action.existing) && action.preserve !in trees
    else action.target !in trees
  }

  /** The same two paths once the plugin is installed. */
  predicate InPlace(trees: map<string, Tree>, item: Item) {
    && Matches(At(trees, item.action.target), item.installed)
    && (item.action.replace ==> Matches(At(trees, item.action.preserve), item.action.existing))
  }

  /** Whether two worlds agree on the paths an action is about. */
  predicate SamePaths(first: map<string, Tree>, second: map<string, Tree>, action: PluginAction) {
    && At(first, action.target) == At(second, action.target)
    && (action.replace ==> At(first, action.preserve) == At(second, action.preserve))
  }

  ghost predicate SameElsewhere(first: map<string, Tree>, second: map<string, Tree>, paths: set<string>) {
    forall path :: path !in paths ==> At(first, path) == At(second, path)
  }

  /** Every tree deleted since was found, in quarantine, to be the installed one. */
  ghost predicate OnlyInstalledGo(space: PluginSpace, before: set<Tree>, installed: Fingerprint)
    reads space`deleted
  {
    forall tree :: tree in space.deleted - before ==> Matches(Some(tree), installed)
  }

  /** The paths an action may change. */
  function Paths(action: PluginAction): set<string> {
    if action.replace then {action.target, action.preserve} else {action.target}
  }

  predicate Apart(action: PluginAction, own: string) {
    action.target != action.preserve && action.target != own && action.preserve != own
  }

  // ---------------------------------------------------------------- installation

  /** Restore's own place is empty, or holds what was prepared, so it can be deleted. */
  ghost predicate OwnIsSpent(space: PluginSpace, prepared: Option<Tree>, installed: Fingerprint)
    reads space`trees
  {
    At(space.trees, space.own) == None || At(space.trees, space.own) == prepared
    || Matches(At(space.trees, space.own), installed)
  }

  /** Undoes the exchange of the prepared tree with the target after something unexpected. */
  method ReverseExchange(space: PluginSpace, item: Item) returns (result: Outcome, started: bool)
    requires item.action.target != space.own
    modifies space`trees, space`seen, space`failures
    ensures result.Failed? ==> space.failures == old(space.failures)
    ensures !result.Installed?
    ensures result.Failed? ==> !started && Matches(At(space.trees, space.own), item.installed)
    ensures !space.contested && item.action.target in old(space.trees) && space.own in old(space.trees) ==>
      var swapped := old(space.trees)[item.action.target := old(space.trees)[space.own]]
                       [space.own := old(space.trees)[item.action.target]];
      && (space.trees == swapped || (started && space.trees == old(space.trees)))
  {
    var reversal := space.Exchange(space.own, item.action.target);
    if !reversal.Durable? { return Incomplete, true; }
    var reversed := space.Inspect(space.own);
    if reversed != Some(item.installed) { return Incomplete, false; }
    return Failed, false;
  }

  /** Publishes the prepared tree over an existing plugin and preserves what it displaced. */
  method PublishReplacement(space: PluginSpace, item: Item) returns (result: Outcome, started: bool)
    requires item.action.replace && Apart(item.action, space.own)
    modifies space`trees, space`seen, space`failures
    ensures result.Installed? ==> space.failures == old(space.failures)
    ensures result.Installed? ==> Matches(At(space.trees, item.action.preserve), item.action.existing)
    ensures result.Installed? ==> started && space.own !in space.trees
    ensures result.Failed? ==> !started
    ensures !result.Incomplete? ==> OwnIsSpent(space, old(At(space.trees, space.own)), item.installed)
    ensures !space.contested && Matches(At(old(space.trees), space.own), item.installed) ==>
      && SameElsewhere(space.trees, old(space.trees), Paths(item.action) + {space.own})
      && (!started ==> SamePaths(space.trees, old(space.trees), item.action))
      && (result.Installed? ==>
            && Original(old(space.trees), item.action)
            && At(space.trees, item.action.target) == At(old(space.trees), space.own)
            && At(space.trees, item.action.preserve) == At(old(space.trees), item.action.target))
      && (!space.faulty ==>
            (result.Installed? <==> Original(old(space.trees), item.action))
            && (started ==> result.Installed?))
  {
    var current := space.Inspect(item.action.target);
    if current != Some(item.action.existing) { return Failed, false; }
    var occupied := space.Look(item.action.preserve);
    if occupied.Some? { return Failed, false; }
    var exchange := space.Exchange(space.own, item.action.target);
    if exchange.Uncertain? { return Incomplete, true; }
    if exchange.Refused? { return Failed, false; }
    var displaced := space.Inspect(space.own);
    if displaced != Some(item.action.existing) {
      result, started := ReverseExchange(space, item);
      return;
    }
    var preserve := space.MoveNoReplace(space.own, item.action.preserve);
    if preserve.Uncertain? { return Incomplete, true; }
    if preserve.Refused? {
      result, started := ReverseExchange(space, item);
      return;
    }
    return Installed, true;
  }

  /** Moves an installed plugin that failed its final verification into quarantine, putting the
      preserved one back; only a tree found there to be the installed one is deleted. */
  method Withdraw(space: PluginSpace, item: Item)
    returns (result: Outcome, started: bool, ghost taken: Option<Tree>)
    requires Apart(item.action, space.own)
    modifies space
    ensures !space.faulty && !item.action.replace && result.Incomplete? && taken.Some? ==>
        item.action.target in space.trees
    ensures result.Failed? ==> space.failures == old(space.failures)
    ensures !result.Installed? && (result.Failed? <==> !started)
    ensures OnlyInstalledGo(space, old(space.deleted), item.installed)
    ensures At(space.trees, space.own) == old(At(space.trees, space.own))
    ensures !space.contested && InPlace(old(space.trees), item) ==>
      && SameElsewhere(space.trees, old(space.trees), Paths(item.action))
      && (!started ==> item.action.target !in space.trees || item.action.replace)
      && (!started && item.action.replace ==>
            At(space.trees, item.action.target) == At(old(space.trees), item.action.preserve)
            && item.action.preserve !in space.trees)
  {
    taken := None;
    var unavailable := space.Fails();
    if unavailable { return Incomplete, true, None; }
    var quarantine := new Quarantine();
    if item.action.replace {
      var exchange := space.Exchange(item.action.target, item.action.preserve);
      if !exchange.Durable? { return Incomplete, true, None; }
      var restored := space.Inspect(item.action.target);
      var moved := space.Take(item.action.preserve, quarantine);
      var failed := space.InspectHeld(quarantine);
      if restored != Some(item.action.existing) || !moved.Durable? || failed != Some(item.installed) {
        space.Abandon(quarantine);
        return Incomplete, true, None;
      }
    } else {
      var moved := space.Take(item.action.target, quarantine);
      taken := quarantine.held;
      var failed := space.InspectHeld(quarantine);
      if !moved.Durable? || failed != Some(item.installed) {
        var _ := space.PutBack(quarantine, item.action.target);
        space.Abandon(quarantine);
        return Incomplete, true, taken;
      }
    }
    var closed := space.Close(quarantine);
    if !closed { return Incomplete, true, taken; }
    return Failed, false, taken;
  }

  /** Installs a prepared tree. `started` says that rollback will look at the item. */
  method InstallPrepared(space: PluginSpace, action: PluginAction) returns (result: Outcome, started: bool, item: Item)
    requires Apart(action, space.own)
    modifies space
    ensures result.Installed? ==> space.failures == old(space.failures)
    ensures item.action == action
    ensures result.Installed? ==> started && space.seen == Some(item.installed)
    ensures result.Failed? && started ==> !action.replace
    ensures OnlyInstalledGo(space, old(space.deleted), item.installed)
    ensures FingerprintOf(old(At(space.trees, space.own))) == Some(item.installed)
            || (result.Failed? && !started && space.deleted == old(space.deleted))
    ensures !result.Incomplete? ==> OwnIsSpent(space, old(At(space.trees, space.own)), item.installed)
    ensures !space.contested ==> SameElsewhere(space.trees, old(space.trees), Paths(action) + {space.own})
    ensures !space.contested && !started ==> SamePaths(space.trees, old(space.trees), action)
    ensures !space.contested && result.Installed? ==>
      && Original(old(space.trees), action) && InPlace(space.trees, item)
      && At(space.trees, action.target) == At(old(space.trees), space.own)
      && (action.replace ==> At(space.trees, action.preserve) == At(old(space.trees), action.target))
    ensures !space.contested && !space.faulty ==>
      && (result.Installed? <==>
          Original(old(space.trees), action) && FingerprintOf(At(old(space.trees), space.own)).Some?)
      && (started ==> result.Installed?)
  {
    var prepared := space.Inspect(space.own);
    item := Item(action, if prepared.Some? then prepared.value else Fingerprint("", 0, 0));
    if prepared.None? { return Failed, false, item; }
    if action.replace {
      result, started := PublishReplacement(space, item);
      if !result.Installed? { return; }
    } else {
      var occupied := space.Look(action.target);
      if occupied.Some? { return Failed, false, item; }
      var publish := space.MoveNoReplace(space.own, action.target);
      if publish.Uncertain? { return Failed, true, item; }
      if publish.Refused? { return Failed, false, item; }
      started := true;
    }
    var installed := space.Inspect(action.target);
    if installed == Some(item.installed) { return Installed, true, item; }
    ghost var taken: Option<Tree>;
    result, started, taken := Withdraw(space, item);
  }

  // ---------------------------------------------------------------- rollback

  /** What the system calls of a created plugin's quarantine answer, in order. */
  datatype Answers = Answers(move: Move, seen: Option<Fingerprint>, putBack: Move, kept: bool, closed: bool)

  datatype Place = AtTarget | InQuarantine | Deleted

  /** Where a created plugin's tree ends up. A move into quarantine that is not synced is reported
      as a failure, but the quarantine is closed all the same, with the tree inside. */
  function CreatedTree(installed: Fingerprint, answers: Answers): (Place, bool) {
    if answers.move.Refused? then (AtTarget, false)
    else if answers.move.Uncertain? then (if answers.kept then InQuarantine else Deleted, false)
    else if answers.seen != Some(installed) then
      (if answers.putBack.Refused? then InQuarantine else AtTarget, false)
    else (if answers.kept then InQuarantine else Deleted, answers.closed && !answers.kept)
  }

  /** Quarantines a created plugin and deletes it. A tree that is not the installed one, say somebody
      else's, goes exactly when its move into quarantine was not synced and nothing kept it there. */
  method RollbackCreated(space: PluginSpace, item: Item) returns (ok: bool, answers: Answers, tree: Option<Tree>)
    requires !item.action.replace && Apart(item.action, space.own)
    modifies space
    ensures !space.faulty && tree.Some? && !ok ==> item.action.target in space.trees
    ensures ok ==> space.failures == old(space.failures)
    ensures ok == CreatedTree(item.installed, answers).1
    ensures tree.Some? <==> !answers.move.Refused?
    ensures tree.Some? ==> answers.seen == FingerprintOf(tree) || answers.seen == None
    ensures space.deleted == old(space.deleted)
                             + if CreatedTree(item.installed, answers).0.Deleted?
                                 && tree.Some? then {tree.value} else {}
    ensures answers.move.Uncertain? ==> space.faulty
    ensures !OnlyInstalledGo(space, old(space.deleted), item.installed) <==>
      && answers.move.Uncertain? && !answers.kept
      && tree.Some? && tree.value !in old(space.deleted) && !Matches(tree, item.installed)
    ensures !space.contested ==>
      && SameElsewhere(space.trees, old(space.trees), Paths(item.action))
      && (ok ==> item.action.target !in space.trees)
      && (CreatedTree(item.installed, answers).0.AtTarget? ==> space.trees == old(space.trees))
      && (!space.faulty && item.action.target in old(space.trees) ==>
            (ok <==> Matches(At(old(space.trees), item.action.target), item.installed)))
  {
    answers, tree := Answers(Refused, None, Refused, false, false), None;
    var unavailable := space.Fails();
    if unavailable { return false, answers, None; }
    var quarantine := new Quarantine();
    var move := space.Take(item.action.target, quarantine);
    answers, tree := answers.(move := move), quarantine.held;
    if move.Durable? {
      var found := space.InspectHeld(quarantine);
      answers := answers.(seen := found);
      if found != Some(item.installed) {
        var putBack := space.PutBack(quarantine, item.action.target);
        space.Abandon(quarantine);
        return false, answers.(putBack := putBack), tree;
      }
    }
    var closed := space.Close(quarantine);
    answers := answers.(kept := quarantine.held.Some?, closed := closed);
    ok := move.Durable? && closed;
  }

  /** Exchanges a replaced plugin with the preserved one and quarantines it. */
  method RollbackReplaced(space: PluginSpace, item: Item) returns (ok: bool, ghost taken: Option<Tree>)
    requires item.action.replace && Apart(item.action, space.own)
    modifies space
    ensures !space.faulty && taken.Some? && !ok ==> item.action.preserve in space.trees
    ensures ok ==> space.failures == old(space.failures)
    ensures OnlyInstalledGo(space, old(space.deleted), item.installed)
    ensures !space.contested ==>
      && SameElsewhere(space.trees, old(space.trees), Paths(item.action))
      && (ok ==> Original(space.trees, item.action)
                 && At(space.trees, item.action.target) == At(old(space.trees), item.action.preserve))
      && (!space.faulty && item.action.target in old(space.trees) ==> (ok <==> InPlace(old(space.trees), item)))
      && (!space.faulty && !ok && Paths(item.action) <= old(space.trees).Keys ==>
            && At(space.trees, item.action.target) == At(old(space.trees), item.action.preserve)
            && At(space.trees, item.action.preserve) == At(old(space.trees), item.action.target))
  {
    taken := None;
    var unavailable := space.Fails();
    if unavailable { return false, None; }
    var quarantine := new Quarantine();
    var exchange := space.Exchange(item.action.target, item.action.preserve);
    if !exchange.Durable? { return false, None; }
    var restored := space.Inspect(item.action.target);
    var removed := space.Inspect(item.action.preserve);
    if restored != Some(item.action.existing) || removed != Some(item.installed) { return false, None; }
    var move := space.Take(item.action.preserve, quarantine);
    if !move.Durable? {
      space.Abandon(quarantine);
      return false, None;
    }
    taken := quarantine.held;
    var quarantined := space.InspectHeld(quarantine);
    if quarantined != Some(item.installed) {
      var _ := space.PutBack(quarantine, item.action.preserve);
      space.Abandon(quarantine);
      return false, taken;
    }
    ok := space.Close(quarantine);
  }

  predicate IsNoDirectory(tree: Option<Tree>) { tree.Some? && tree.value.NoDirectory? }

  /** Rolls one installed plugin back. */
  method RollbackItem(space: PluginSpace, item: Item) returns (ok: bool)
    requires Apart(item.action, space.own)
    modifies space
    ensures !space.contested ==>
      && (IsNoDirectory(At(old(space.trees), item.action.target)) ==> !ok && space.trees == old(space.trees))
      && (!space.faulty && item.action.replace && item.action.target !in old(space.trees) && !ok ==>
            item.action.target !in space.trees && item.action.preserve !in space.trees)
    ensures ok ==> space.failures == old(space.failures)
    ensures item.action.replace || !space.faulty ==> OnlyInstalledGo(space, old(space.deleted), item.installed)
    ensures !space.contested ==>
      && SameElsewhere(space.trees, old(space.trees), Paths(item.action))
      && (ok ==> Original(space.trees, item.action))
      && (ok && item.action.replace ==>
            At(space.trees, item.action.target) == At(old(space.trees), item.action.preserve))
      && (!space.faulty ==> (ok <==> Revocable(old(space.trees), item)))
  {
    var target := space.Look(item.action.target);
    if target.None? {
      if !item.action.replace { return true; }
      var move := space.MoveNoReplace(item.action.preserve, item.action.target);
      if !move.Durable? { return false; }
      var restored := space.Inspect(item.action.target);
      if restored == Some(item.action.existing) { return true; }
      var quarantine := new Quarantine();
      var unavailable := space.Fails();
      if !unavailable {
        var _ := space.Take(item.action.target, quarantine);
        space.Abandon(quarantine);
      }
      return false;
    }
    if target.value.NoDirectory? { return false; }
    if item.action.replace {
      ghost var taken: Option<Tree>;
      ok, taken := RollbackReplaced(space, item);
    } else {
      var undone, _, _ := RollbackCreated(space, item);
      ok := undone;
    }
  }

  /** The states rollback can undo when no system call fails. */
  predicate Revocable(trees: map<string, Tree>, item: Item) {
    || InPlace(trees, item)
    || (item.action.target !in trees
        && (item.action.replace ==> Matches(At(trees, item.action.preserve), item.action.existing)))
  }

  predicate SeparateItems(items: seq<Item>, own: string) {
    && (forall k :: 0 <= k < |items| ==> Apart(items[k].action, own))
    && (forall j, k :: 0 <= j < k < |items| ==> Paths(items[j].action) !! Paths(items[k].action))
  }

  predicate Concerns(items: seq<Item>, path: string) {
    exists k :: 0 <= k < |items| && path in Paths(items[k].action)
  }

  ghost predicate OnlyItemsDiffer(first: map<string, Tree>, second: map<string, Tree>, items: seq<Item>) {
    forall path :: !Concerns(items, path) ==> At(first, path) == At(second, path)
  }

  predicate AllOriginal(trees: map<string, Tree>, items: seq<Item>, from: nat) {
    forall k :: from <= k < |items| ==> Original(trees, items[k].action)
  }

  predicate AllRevocable(trees: map<string, Tree>, items: seq<Item>, from: nat) {
    forall k :: from <= k < |items| ==> Revocable(trees, items[k])
  }

  predicate NotYet(trees: map<string, Tree>, start: map<string, Tree>, items: seq<Item>, upto: nat) {
    forall k :: 0 <= k < upto <= |items| ==> SamePaths(trees, start, items[k].action)
  }

  /** Every tree deleted since was found to be one of the installed ones. */
  ghost predicate OnlyTheirsGo(space: PluginSpace, before: set<Tree>, items: seq<Item>)
    reads space`deleted
  {
    forall tree :: tree in space.deleted - before ==>
      exists k :: 0 <= k < |items| && Matches(Some(tree), items[k].installed)
  }

  /** Rolling one item back leaves the paths of the others alone. */
  lemma OthersKeep(after: map<string, Tree>, before: map<string, Tree>, start: map<string, Tree>,
                   items: seq<Item>, index: nat, own: string)
    requires SeparateItems(items, own) && index < |items|
    requires SameElsewhere(after, before, Paths(items[index].action))
    requires NotYet(before, start, items, index + 1) && OnlyItemsDiffer(before, start, items)
    ensures NotYet(after, start, items, index) && OnlyItemsDiffer(after, start, items)
    ensures AllOriginal(before, items, index + 1) ==> AllOriginal(after, items, index + 1)
    ensures Revocable(before, items[index]) == Revocable(start, items[index])
  {
  }

  /** Rolls installed plugins back in reverse order, carrying on after a failure. */
  method RollbackInstalled(space: PluginSpace, items: seq<Item>) returns (ok: bool)
    requires SeparateItems(items, space.own)
    modifies space
    ensures ok ==> space.failures == old(space.failures)
    ensures !space.contested ==>
      && (ok ==> AllOriginal(space.trees, items, 0))
      && (!space.faulty ==> (ok <==> AllRevocable(old(space.trees), items, 0)))
      && OnlyItemsDiffer(space.trees, old(space.trees), items)
    ensures !space.faulty || (forall k :: 0 <= k < |items| ==> items[k].action.replace) ==>
      OnlyTheirsGo(space, old(space.deleted), items)
  {
    ok := true;
    var index := |items|;
    while index > 0
      invariant 0 <= index <= |items| && (ok ==> space.failures == old(space.failures))
      invariant !space.contested ==>
        && (ok ==> AllOriginal(space.trees, items, index))
        && NotYet(space.trees, old(space.trees), items, index)
        && (!space.faulty ==> (ok <==> AllRevocable(old(space.trees), items, index)))
        && OnlyItemsDiffer(space.trees, old(space.trees), items)
      invariant !space.faulty || (forall k :: 0 <= k < |items| ==> items[k].action.replace) ==>
        OnlyTheirsGo(space, old(space.deleted), items)
    {
      index := index - 1;
      ghost var before, gone := space.trees, space.deleted;
      var undone := RollbackItem(space, items[index]);
      assert OnlyInstalledGo(space, gone, items[index].installed) ==>
        forall tree :: tree in space.deleted - gone ==> Matches(Some(tree), items[index].installed);
      if !space.contested { OthersKeep(space.trees, before, old(space.trees), items, index, space.own); }
      ok := ok && undone;
    }
  }

  /** Installing and rolling back: a rollback that reports no failure leaves what was approved, and
      after a completed installation the very trees that were there. Only the prepared tree is ever
      deleted, unless a created plugin is withdrawn while system calls fail. */
  method InstallThenRollback(space: PluginSpace, action: PluginAction) returns (result: Outcome, ok: bool)
    requires Apart(action, space.own) && Original(space.trees, action)
    modifies space
    ensures result.Installed? && ok ==> space.failures == old(space.failures)
    ensures !space.contested ==>
      && (ok ==> Original(space.trees, action))
      && (ok && result.Installed? ==> SamePaths(space.trees, old(space.trees), action))
      && (!space.faulty ==> ok)
      && SameElsewhere(space.trees, old(space.trees), Paths(action) + {space.own})
    ensures action.replace || !space.faulty ==>
      forall tree :: tree in space.deleted - old(space.deleted) ==>
        FingerprintOf(Some(tree)) == FingerprintOf(old(At(space.trees, space.own)))
  {
    var started: bool, item: Item;
    result, started, item := InstallPrepared(space, action);
    ok := true;
    if started { ok := RollbackItem(space, item); }
  }
}
