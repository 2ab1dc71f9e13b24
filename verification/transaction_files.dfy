/** The files of a transaction as planning sees them half done. */
module PlannedFiles {
  import opened Delimited
  import opened Identities
  import opened Planning
  import opened PlanningFixpoint
  import T = Transaction

  // ---------------------------------------------------------------- from a plan to a transaction

  /** The regular files of a live world. */
  function FilesOf(live: Live): World {
    map path | path in live.files && live.files[path].Plain? :: live.files[path].identity
  }

  /** What planning knows a removal by: the theme.json of the extra theme, or the artwork itself. */
  ghost function EvidenceOf(env: Environment, world: Live, snapshot: Snapshot, path: string): string {
    if !Artwork(env, world, path) && exists d :: ExtraTheme(env, world, snapshot, d) && ThemePrefix(d) <= path
    then var d :| ExtraTheme(env, world, snapshot, d) && ThemePrefix(d) <= path; ThemeFile(d)
    else path
  }

  /** The theme.json that the snapshot may put there and that cannot be read. */
  function SilentAt(env: Environment, snapshot: Snapshot, evidence: string): set<Identity> {
    set i | 0 <= i < |snapshot.files| && snapshot.files[i].logicalPath == evidence
            && !env.readableTheme(snapshot.files[i].size, snapshot.files[i].sha256)
         :: Identity(snapshot.files[i].size, snapshot.files[i].sha256, RESTORED_MODE)
  }

  ghost function ItemOf(env: Environment, world: Live, snapshot: Snapshot, action: Action): T.Item {
    var path := action.logicalPath;
    if action.operation.Remove? then
      var evidence := EvidenceOf(env, world, snapshot, path);
      T.Item(path, action.existing, None, evidence, SilentAt(env, snapshot, evidence), false)
    else
      T.Item(path, action.existing, Some(Identity(action.size, action.sha256, RESTORED_MODE)), path, {}, false)
  }

  // ---------------------------------------------------------------- themes and their evidence

  /** A path lies below one theme at most. */
  lemma OneTheme(first: string, second: string, path: string)
    requires ThemePrefix(first) <= path && ThemePrefix(second) <= path && '/' !in first && '/' !in second
    ensures first == second
  {
    var rest := path[|THEME_ROOT|..];
    assert ThemePrefix(first)[|THEME_ROOT|..] == first + "/" && ThemePrefix(second)[|THEME_ROOT|..] == second + "/";
    assert first + ['/'] <= rest && second + ['/'] <= rest;
    HeadsAgree(first, second, rest, '/');
  }

  lemma EvidenceIsTheme(env: Environment, world: Live, snapshot: Snapshot, path: string, directory: string)
    requires !Artwork(env, world, path) && ExtraTheme(env, world, snapshot, directory) && ThemePrefix(directory) <= path
    ensures EvidenceOf(env, world, snapshot, path) == ThemeFile(directory)
  {
    var d :| ExtraTheme(env, world, snapshot, d) && ThemePrefix(d) <= path
             && EvidenceOf(env, world, snapshot, path) == ThemeFile(d);
    assert ExtraTheme(env, world, snapshot, d);
    assert Listed(env, world, d);
    OneTheme(d, directory, path);
  }

  // ---------------------------------------------------------------- worlds half way

  /** Each file of the plan is as it was or as it will be. */
  ghost predicate HalfWay(env: Environment, world: Live, snapshot: Snapshot, resolutions: seq<Resolution>,
                          plan: Plan, later: Live) {
    && Unblocked(env, world, snapshot, resolutions, plan)
    && (forall action :: action in plan.actions ==>
          || At(later.files, action.logicalPath) == At(world.files, action.logicalPath)
          || At(later.files, action.logicalPath) == AfterAction(action, At(world.files, action.logicalPath)))
    && (forall path :: !HasAction(plan, path) ==> At(later.files, path) == At(world.files, path))
  }

  /** What can be found at a path half way: what was there, what the snapshot has, or nothing. */
  lemma HalfWayAt(env: Environment, world: Live, snapshot: Snapshot, resolutions: seq<Resolution>,
                  plan: Plan, later: Live, path: string)
    requires HalfWay(env, world, snapshot, resolutions, plan, later)
    ensures || At(later.files, path) == At(world.files, path)
            || (At(later.files, path) == None && ToRemove(env, world, snapshot, path))
            || exists i :: 0 <= i < |snapshot.files| && snapshot.files[i].logicalPath == path
                 && At(later.files, path)
                    == Some(Plain(Identity(snapshot.files[i].size, snapshot.files[i].sha256, RESTORED_MODE)))
  {
    if HasAction(plan, path) {
      var k :| 0 <= k < |plan.actions| && plan.actions[k].logicalPath == path;
      assert plan.actions[k] in plan.actions;
      assert Planned(env, world, snapshot, resolutions, plan.actions[k]);
    }
  }

  /** A theme that is extra half way was extra before, and its theme.json is still the old one. */
  lemma ExtraThemeWas(env: Environment, world: Live, snapshot: Snapshot, resolutions: seq<Resolution>,
                      plan: Plan, later: Live, directory: string)
    requires HalfWay(env, world, snapshot, resolutions, plan, later) && ListsItsThemes(env, snapshot)
    requires ExtraTheme(env, later, snapshot, directory)
    ensures ExtraTheme(env, world, snapshot, directory)
    ensures At(later.files, ThemeFile(directory)) == At(world.files, ThemeFile(directory))
  {
    var path := ThemeFile(directory);
    HalfWayAt(env, world, snapshot, resolutions, plan, later, path);
    forall i | 0 <= i < |snapshot.files| && snapshot.files[i].logicalPath == path
      ensures !env.readableTheme(snapshot.files[i].size, snapshot.files[i].sha256)
    {
      assert TellsItsTheme(env, snapshot, snapshot.files[i]);
      assert !Unlisted(env, snapshot, snapshot.files[i], directory);
    }
  }

  /** Half way, a removal's evidence tells exactly while the theme is listed, or the artwork there. */
  lemma TellsWhileListed(env: Environment, world: Live, snapshot: Snapshot, resolutions: seq<Resolution>,
                         plan: Plan, later: Live, path: string, directory: string)
    requires HalfWay(env, world, snapshot, resolutions, plan, later)
    requires ToRemove(env, world, snapshot, path) && !Artwork(env, world, path)
    requires ExtraTheme(env, world, snapshot, directory) && ThemePrefix(directory) <= path
    ensures T.Tells(ItemOf(env, world, snapshot, RemovalAction(world, path)), At(FilesOf(later), ThemeFile(directory)))
            <==> Listed(env, later, directory)
  {
    EvidenceIsTheme(env, world, snapshot, path, directory);
    HalfWayAt(env, world, snapshot, resolutions, plan, later, ThemeFile(directory));
  }

  lemma ArtworkTells(env: Environment, world: Live, snapshot: Snapshot, path: string)
    requires ToRemove(env, world, snapshot, path) && Artwork(env, world, path)
    ensures var item := ItemOf(env, world, snapshot, RemovalAction(world, path));
            item.evidence == path && item.silent == {}
  {
    assert !Desired(snapshot, path);
  }

  // ---------------------------------------------------------------- what shows

  /** A removal shows half way exactly when planning would still remove the path. */
  lemma RemovalShows(env: Environment, world: Live, snapshot: Snapshot, resolutions: seq<Resolution>,
                     plan: Plan, later: Live, path: string)
    requires HalfWay(env, world, snapshot, resolutions, plan, later) && ListsItsThemes(env, snapshot)
    requires ToRemove(env, world, snapshot, path)
    ensures T.ShowsMutation(ItemOf(env, world, snapshot, RemovalAction(world, path)), FilesOf(later))
            <==> ToRemove(env, later, snapshot, path)
  {
    HalfWayAt(env, world, snapshot, resolutions, plan, later, path);
    if Artwork(env, world, path) {
      ArtworkTells(env, world, snapshot, path);
    } else {
      var directory :| ExtraTheme(env, world, snapshot, directory) && ThemePrefix(directory) <= path;
      EvidenceIsTheme(env, world, snapshot, path, directory);
      TellsWhileListed(env, world, snapshot, resolutions, plan, later, path, directory);
      if ToRemove(env, later, snapshot, path) {
        var other :| ExtraTheme(env, later, snapshot, other) && ThemePrefix(other) <= path;
        OneTheme(directory, other, path);
      }
    }
  }

  /** A path that would be removed half way was to be removed from the start. */
  lemma RemovalWasPlanned(env: Environment, world: Live, snapshot: Snapshot, resolutions: seq<Resolution>,
                          plan: Plan, later: Live, path: string)
    requires HalfWay(env, world, snapshot, resolutions, plan, later) && ListsItsThemes(env, snapshot)
    requires ToRemove(env, later, snapshot, path)
    ensures ToRemove(env, world, snapshot, path)
  {
    HalfWayAt(env, world, snapshot, resolutions, plan, later, path);
    assert At(later.files, path) == At(world.files, path);
    if !Artwork(env, later, path) {
      var directory :| ExtraTheme(env, later, snapshot, directory) && ThemePrefix(directory) <= path;
      ExtraThemeWas(env, world, snapshot, resolutions, plan, later, directory);
    }
  }

  /** A wanted file shows half way exactly when planning would still write it. */
  lemma WantedShows(env: Environment, world: Live, snapshot: Snapshot, resolutions: seq<Resolution>,
                    plan: Plan, later: Live, i: nat)
    requires HalfWay(env, world, snapshot, resolutions, plan, later) && i < |snapshot.files|
    requires env.mapping(snapshot.files[i].logicalPath).Restored?
    requires !KeptAside(env, resolutions, snapshot.files[i].logicalPath)
    ensures var action := FileAction(env, world, snapshot.files[i]);
            action in plan.actions && !action.operation.Blocked? && !action.operation.Remove?
            && (Mutates(action.operation) ==>
                  (T.ShowsMutation(ItemOf(env, world, snapshot, action), FilesOf(later))
                   <==> !FileAction(env, later, snapshot.files[i]).operation.Unchanged?))
            && (action.operation.Unchanged? ==> FileAction(env, later, snapshot.files[i]).operation.Unchanged?)
  {
    var file := snapshot.files[i];
    var action := FileAction(env, world, file);
    assert WantsAction(env, world, resolutions, file, action);
    assert Planned(env, world, snapshot, resolutions, action);
    assert action in plan.actions && !action.operation.Blocked?;
  }

  // ---------------------------------------------------------------- looking converged

  ghost predicate NothingShows(env: Environment, world: Live, snapshot: Snapshot, plan: Plan, later: Live) {
    forall k :: 0 <= k < |plan.actions| && Mutates(plan.actions[k].operation) ==>
      !T.ShowsMutation(ItemOf(env, world, snapshot, plan.actions[k]), FilesOf(later))
  }

  /** Planning is possible, and finds every file unchanged. */
  ghost predicate FilesQuiet(env: Environment, later: Live, snapshot: Snapshot, resolutions: seq<Resolution>) {
    && Feasible(env, later, snapshot)
    && (forall action :: Planned(env, later, snapshot, resolutions, action) ==> action.operation.Unchanged?)
  }

  lemma QuietShowsNothing(env: Environment, world: Live, snapshot: Snapshot, resolutions: seq<Resolution>,
                                plan: Plan, later: Live)
    requires HalfWay(env, world, snapshot, resolutions, plan, later) && ListsItsThemes(env, snapshot)
    requires FilesQuiet(env, later, snapshot, resolutions)
    ensures NothingShows(env, world, snapshot, plan, later)
  {
    forall k | 0 <= k < |plan.actions| && Mutates(plan.actions[k].operation)
      ensures !T.ShowsMutation(ItemOf(env, world, snapshot, plan.actions[k]), FilesOf(later))
    {
      var action := plan.actions[k];
      assert action in plan.actions && Planned(env, world, snapshot, resolutions, action);
      if action.operation.Remove? {
        RemovalShows(env, world, snapshot, resolutions, plan, later, action.logicalPath);
        if ToRemove(env, later, snapshot, action.logicalPath) {
          assert Planned(env, later, snapshot, resolutions, RemovalAction(later, action.logicalPath));
        }
      } else {
        var i :| 0 <= i < |snapshot.files| && WantsAction(env, world, resolutions, snapshot.files[i], action);
        WantedShows(env, world, snapshot, resolutions, plan, later, i);
        var next := FileAction(env, later, snapshot.files[i]);
        assert WantsAction(env, later, resolutions, snapshot.files[i], next);
        assert Planned(env, later, snapshot, resolutions, next);
      }
    }
  }

  lemma NothingRemovedWhenNothingShows(env: Environment, world: Live, snapshot: Snapshot, resolutions: seq<Resolution>,
                                       plan: Plan, later: Live, path: string)
    requires HalfWay(env, world, snapshot, resolutions, plan, later) && ListsItsThemes(env, snapshot)
    requires NothingShows(env, world, snapshot, plan, later)
    ensures !ToRemove(env, later, snapshot, path)
  {
    if ToRemove(env, later, snapshot, path) {
      RemovalWasPlanned(env, world, snapshot, resolutions, plan, later, path);
      var action := RemovalAction(world, path);
      assert Planned(env, world, snapshot, resolutions, action) && action in plan.actions;
      var k :| 0 <= k < |plan.actions| && plan.actions[k] == action;
      RemovalShows(env, world, snapshot, resolutions, plan, later, path);
    }
  }

  /** When nothing shows no theme is extra: its theme.json would be removed, or replaced. */
  lemma NoExtraWhenNothingShows(env: Environment, world: Live, snapshot: Snapshot, resolutions: seq<Resolution>,
                                plan: Plan, later: Live, directory: string)
    requires HalfWay(env, world, snapshot, resolutions, plan, later) && ListsItsThemes(env, snapshot)
    requires NothingShows(env, world, snapshot, plan, later)
    ensures !ExtraTheme(env, later, snapshot, directory)
  {
    if ExtraTheme(env, later, snapshot, directory) {
      var path := ThemeFile(directory);
      ExtraThemeWas(env, world, snapshot, resolutions, plan, later, directory);
      if Desired(snapshot, path) {
        var i :| 0 <= i < |snapshot.files| && snapshot.files[i].logicalPath == path;
        ThemeFilesAreRestored(env, resolutions, directory, path);
        WantedUnchangedWhenNothingShows(env, world, snapshot, resolutions, plan, later, i);
        assert TellsItsTheme(env, snapshot, snapshot.files[i]);
        assert Unlisted(env, snapshot, snapshot.files[i], directory);
      } else {
        ExtraThemeFileGoes(env, world, snapshot, directory);
        assert ToRemove(env, later, snapshot, path);
        NothingRemovedWhenNothingShows(env, world, snapshot, resolutions, plan, later, path);
      }
    }
  }

  lemma WantedUnchangedWhenNothingShows(env: Environment, world: Live, snapshot: Snapshot, resolutions: seq<Resolution>,
                                        plan: Plan, later: Live, i: nat)
    requires HalfWay(env, world, snapshot, resolutions, plan, later) && NothingShows(env, world, snapshot, plan, later)
    requires i < |snapshot.files| && env.mapping(snapshot.files[i].logicalPath).Restored?
    requires !KeptAside(env, resolutions, snapshot.files[i].logicalPath)
    ensures FileAction(env, later, snapshot.files[i]).operation.Unchanged?
  {
    WantedShows(env, world, snapshot, resolutions, plan, later, i);
    var action := FileAction(env, world, snapshot.files[i]);
    var k :| 0 <= k < |plan.actions| && plan.actions[k] == action;
  }

  lemma NothingShowsIsQuiet(env: Environment, world: Live, snapshot: Snapshot, resolutions: seq<Resolution>,
                            plan: Plan, later: Live)
    requires HalfWay(env, world, snapshot, resolutions, plan, later) && ListsItsThemes(env, snapshot)
    requires NothingShows(env, world, snapshot, plan, later)
    ensures FilesQuiet(env, later, snapshot, resolutions)
  {
    forall path ensures !ToRemove(env, later, snapshot, path) {
      NothingRemovedWhenNothingShows(env, world, snapshot, resolutions, plan, later, path);
    }
    forall directory ensures !ExtraTheme(env, later, snapshot, directory) {
      NoExtraWhenNothingShows(env, world, snapshot, resolutions, plan, later, directory);
    }
    forall action | Planned(env, later, snapshot, resolutions, action) ensures action.operation.Unchanged? {
      var i :| 0 <= i < |snapshot.files| && WantsAction(env, later, resolutions, snapshot.files[i], action);
      WantedUnchangedWhenNothingShows(env, world, snapshot, resolutions, plan, later, i);
    }
  }

  /** Half way, no file shows a mutation exactly when planning finds nothing to do with files. */
  lemma FilesQuietExactly(env: Environment, world: Live, snapshot: Snapshot, resolutions: seq<Resolution>,
                          plan: Plan, later: Live)
    requires HalfWay(env, world, snapshot, resolutions, plan, later) && ListsItsThemes(env, snapshot)
    ensures NothingShows(env, world, snapshot, plan, later) <==> FilesQuiet(env, later, snapshot, resolutions)
  {
    if NothingShows(env, world, snapshot, plan, later) {
      NothingShowsIsQuiet(env, world, snapshot, resolutions, plan, later);
    }
    if FilesQuiet(env, later, snapshot, resolutions) {
      QuietShowsNothing(env, world, snapshot, resolutions, plan, later);
    }
  }

  /** Every mutating action is one of the transaction's, and shows in the world it was planned for. */
  lemma ActionIsPlanned(env: Environment, world: Live, snapshot: Snapshot, resolutions: seq<Resolution>, action: Action)
    requires Planned(env, world, snapshot, resolutions, action) && Mutates(action.operation)
    ensures var item := ItemOf(env, world, snapshot, action);
            T.Mutates(item) && At(FilesOf(world), item.path) == item.before && T.ShowsMutation(item, FilesOf(world))
  {
    if action.operation.Remove? {
      var path := action.logicalPath;
      if Artwork(env, world, path) {
        ArtworkTells(env, world, snapshot, path);
      } else {
        var directory :| ExtraTheme(env, world, snapshot, directory) && ThemePrefix(directory) <= path;
        EvidenceIsTheme(env, world, snapshot, path, directory);
      }
    }
  }
}
