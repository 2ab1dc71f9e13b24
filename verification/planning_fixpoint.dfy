/** Planning again after a restore finds nothing to do. */
module PlanningFixpoint {
  import opened Identities
  import opened Planning

  const RESTORED_MODE := 0x180

  // ---------------------------------------------------------------- carrying a plan out

  function AfterAction(action: Action, before: Option<FileState>): Option<FileState> {
    match action.operation
    case Create | Replace => Some(Plain(Identity(action.size, action.sha256, RESTORED_MODE)))
    case Remove => None
    case Unchanged | Blocked => before
  }

  function AfterSetting(setting: Setting, before: Option<FileState>): Option<FileState> {
    if setting.operation.Create? then Some(Plain(Identity(setting.size, setting.sha256, RESTORED_MODE))) else before
  }

  /** Installing what a plugin was resolved to. */
  predicate InstalledAs(plugin: Option<Plugin>, resolution: Resolution) {
    && plugin.Some? && plugin.value.Plugin? && plugin.value.name == resolution.name
    && plugin.value.author == resolution.author && plugin.value.version == resolution.version
  }

  predicate HasAction(plan: Plan, path: string) {
    exists i :: 0 <= i < |plan.actions| && plan.actions[i].logicalPath == path
  }

  predicate HasSetting(plan: Plan, path: string) {
    exists i :: 0 <= i < |plan.settings| && plan.settings[i].logicalPath == path
  }

  ghost predicate FilesApplied(world: Live, plan: Plan, later: Live) {
    && (forall action :: action in plan.actions ==>
          At(later.files, action.logicalPath) == AfterAction(action, At(world.files, action.logicalPath)))
    && (forall path :: !HasAction(plan, path) ==> At(later.files, path) == At(world.files, path))
  }

  ghost predicate SettingsApplied(world: Live, plan: Plan, later: Live) {
    && (forall setting :: setting in plan.settings ==>
          At(later.settings, setting.logicalPath) == AfterSetting(setting, At(world.settings, setting.logicalPath)))
    && (forall path :: !HasSetting(plan, path) ==> At(later.settings, path) == At(world.settings, path))
  }

  /** A plugin changes only by its action, and an installation installs what was resolved. */
  ghost predicate PluginsApplied(world: Live, resolutions: seq<Resolution>, plan: Plan, later: Live) {
    && (forall action :: action in plan.plugins ==>
          match action.operation
          case Create | Replace =>
            forall i :: 0 <= i < |resolutions| && resolutions[i].directory == action.directory
              ==> InstalledAs(At(later.plugins, action.directory), resolutions[i])
          case Remove => At(later.plugins, action.directory) == None
          case Unchanged | Blocked => At(later.plugins, action.directory) == At(world.plugins, action.directory))
    && (forall directory :: (forall action :: action in plan.plugins ==> action.directory != directory)
                            ==> At(later.plugins, directory) == At(world.plugins, directory))
  }

  /** A manifest as discovery makes it lists every theme whose theme.json it holds and can be read. */
  ghost predicate ListsItsThemes(env: Environment, snapshot: Snapshot) {
    forall i :: 0 <= i < |snapshot.files| ==> TellsItsTheme(env, snapshot, snapshot.files[i])
  }

  ghost predicate Unlisted(env: Environment, snapshot: Snapshot, file: File, directory: string) {
    && file.logicalPath == ThemeFile(directory) && '/' !in directory && env.readableTheme(file.size, file.sha256)
    && directory !in snapshot.themes
  }

  ghost predicate TellsItsTheme(env: Environment, snapshot: Snapshot, file: File) {
    forall directory :: !Unlisted(env, snapshot, file, directory)
  }

  // ---------------------------------------------------------------- files and settings settle

  /** A plan that is not blocked. */
  ghost predicate Unblocked(env: Environment, world: Live, snapshot: Snapshot, resolutions: seq<Resolution>,
                            plan: Plan) {
    && Consistent(env) && DistinctFiles(snapshot.files) && DistinctPlugins(resolutions)
    && IsPlan(env, world, snapshot, resolutions, plan) && !Blocking(plan, resolutions)
  }

  /** And a world in which its plugins and settings are carried out. */
  ghost predicate OthersCarriedOut(env: Environment, world: Live, snapshot: Snapshot, resolutions: seq<Resolution>,
                                   plan: Plan, later: Live) {
    && Unblocked(env, world, snapshot, resolutions, plan)
    && SettingsApplied(world, plan, later) && PluginsApplied(world, resolutions, plan, later)
  }

  /** Everything the theorem is about: the world the whole plan leaves. */
  ghost predicate CarriedOut(env: Environment, world: Live, snapshot: Snapshot, resolutions: seq<Resolution>,
                             plan: Plan, later: Live) {
    OthersCarriedOut(env, world, snapshot, resolutions, plan, later) && FilesApplied(world, plan, later)
  }

  lemma WantedFileSettles(env: Environment, world: Live, snapshot: Snapshot, resolutions: seq<Resolution>,
                          plan: Plan, later: Live, i: nat)
    requires CarriedOut(env, world, snapshot, resolutions, plan, later) && i < |snapshot.files|
    requires env.mapping(snapshot.files[i].logicalPath).Restored?
    requires !KeptAside(env, resolutions, snapshot.files[i].logicalPath)
    ensures FileAction(env, later, snapshot.files[i]).operation.Unchanged?
    ensures var state := At(later.files, snapshot.files[i].logicalPath);
            state.Some? && state.value.Plain? && state.value.identity.size == snapshot.files[i].size
            && state.value.identity.sha256 == snapshot.files[i].sha256
  {
    var file := snapshot.files[i];
    var action := FileAction(env, world, file);
    assert WantsAction(env, world, resolutions, file, action);
    assert Planned(env, world, snapshot, resolutions, action);
    assert action in plan.actions;
    assert !action.operation.Blocked?;
    assert At(later.files, file.logicalPath) == AfterAction(action, At(world.files, file.logicalPath));
  }

  lemma KeptSettingSettles(env: Environment, world: Live, snapshot: Snapshot, resolutions: seq<Resolution>,
                           plan: Plan, later: Live, i: nat)
    requires OthersCarriedOut(env, world, snapshot, resolutions, plan, later) && i < |snapshot.files|
    requires env.mapping(snapshot.files[i].logicalPath).Restored?
    requires KeptAside(env, resolutions, snapshot.files[i].logicalPath)
    ensures SettingAction(env, later, snapshot.files[i]).operation.Unchanged?
  {
    var file := snapshot.files[i];
    var setting := SettingAction(env, world, file);
    assert WantsSetting(env, world, resolutions, file, setting);
    assert setting in plan.settings && !setting.operation.Blocked?;
    assert At(later.settings, file.logicalPath) == AfterSetting(setting, At(world.settings, file.logicalPath));
  }

  // ---------------------------------------------------------------- nothing is left to remove

  lemma RemovedIsGone(env: Environment, world: Live, snapshot: Snapshot, resolutions: seq<Resolution>,
                      plan: Plan, later: Live, path: string)
    requires CarriedOut(env, world, snapshot, resolutions, plan, later) && ToRemove(env, world, snapshot, path)
    ensures At(later.files, path) == None
  {
    var action := RemovalAction(world, path);
    assert Planned(env, world, snapshot, resolutions, action);
    assert action in plan.actions;
  }

  lemma UnwantedIsRemoval(env: Environment, world: Live, snapshot: Snapshot, resolutions: seq<Resolution>,
                          action: Action)
    requires Planned(env, world, snapshot, resolutions, action) && !Desired(snapshot, action.logicalPath)
    ensures action.operation.Remove? && ToRemove(env, world, snapshot, action.logicalPath)
  {
  }

  /** The only action an unwanted path can have is its removal. */
  lemma UnwantedIsGone(env: Environment, world: Live, snapshot: Snapshot, resolutions: seq<Resolution>,
                       plan: Plan, later: Live, path: string)
    requires CarriedOut(env, world, snapshot, resolutions, plan, later) && !Desired(snapshot, path)
        && HasAction(plan, path)
    ensures At(later.files, path) == None
  {
    var k :| 0 <= k < |plan.actions| && plan.actions[k].logicalPath == path;
    var action := plan.actions[k];
    assert action in plan.actions;
    UnwantedIsRemoval(env, world, snapshot, resolutions, action);
    assert At(later.files, path) == AfterAction(action, At(world.files, path));
  }

  /** What is still there and not wanted was there before, and was not to be removed. */
  lemma UnwantedWasThere(env: Environment, world: Live, snapshot: Snapshot, resolutions: seq<Resolution>,
                         plan: Plan, later: Live, path: string)
    requires CarriedOut(env, world, snapshot, resolutions, plan, later) && !Desired(snapshot, path)
        && path in later.files
    ensures path in world.files && world.files[path] == later.files[path] && !ToRemove(env, world, snapshot, path)
  {
    if HasAction(plan, path) { UnwantedIsGone(env, world, snapshot, resolutions, plan, later, path); }
    if ToRemove(env, world, snapshot, path) { RemovedIsGone(env, world, snapshot, resolutions, plan, later, path); }
    assert At(later.files, path) == At(world.files, path);
  }

  /** An extra theme's own theme.json would be removed with it. */
  lemma ExtraThemeFileGoes(env: Environment, world: Live, snapshot: Snapshot, directory: string)
    requires Feasible(env, world, snapshot) && ExtraTheme(env, world, snapshot, directory)
    requires !Desired(snapshot, ThemeFile(directory))
    ensures ToRemove(env, world, snapshot, ThemeFile(directory))
  {
    assert Removable(env, world, directory);
    assert ThemePrefix(directory) <= ThemeFile(directory);
    assert !Excluded(env, world, ThemeFile(directory));
  }

  lemma NoExtraTheme(env: Environment, world: Live, snapshot: Snapshot, resolutions: seq<Resolution>,
                     plan: Plan, later: Live, directory: string)
    requires CarriedOut(env, world, snapshot, resolutions, plan, later) && ListsItsThemes(env, snapshot)
    ensures !ExtraTheme(env, later, snapshot, directory)
  {
    var path := ThemeFile(directory);
    assert THEME_ROOT <= path;
    if Desired(snapshot, path) {
      var i :| 0 <= i < |snapshot.files| && snapshot.files[i].logicalPath == path;
      assert TellsItsTheme(env, snapshot, snapshot.files[i]);
      assert !Unlisted(env, snapshot, snapshot.files[i], directory);
      WantedFileSettles(env, world, snapshot, resolutions, plan, later, i);
    } else if ExtraTheme(env, later, snapshot, directory) {
      UnwantedWasThere(env, world, snapshot, resolutions, plan, later, path);
      ExtraThemeFileGoes(env, world, snapshot, directory);
    }
  }

  lemma NothingToRemove(env: Environment, world: Live, snapshot: Snapshot, resolutions: seq<Resolution>,
                        plan: Plan, later: Live, path: string)
    requires CarriedOut(env, world, snapshot, resolutions, plan, later) && ListsItsThemes(env, snapshot)
    ensures !ToRemove(env, later, snapshot, path)
  {
    forall directory ensures !ExtraTheme(env, later, snapshot, directory) {
      NoExtraTheme(env, world, snapshot, resolutions, plan, later, directory);
    }
    if ToRemove(env, later, snapshot, path) {
      UnwantedWasThere(env, world, snapshot, resolutions, plan, later, path);
    }
  }

  lemma StillFeasible(env: Environment, world: Live, snapshot: Snapshot, resolutions: seq<Resolution>,
                      plan: Plan, later: Live)
    requires CarriedOut(env, world, snapshot, resolutions, plan, later) && ListsItsThemes(env, snapshot)
    ensures Feasible(env, later, snapshot)
  {
    forall directory ensures !ExtraTheme(env, later, snapshot, directory) {
      NoExtraTheme(env, world, snapshot, resolutions, plan, later, directory);
    }
    forall path ensures !ToRemove(env, later, snapshot, path) {
      NothingToRemove(env, world, snapshot, resolutions, plan, later, path);
    }
  }

  // ---------------------------------------------------------------- plugins settle

  lemma ResolvedSettles(env: Environment, world: Live, snapshot: Snapshot, resolutions: seq<Resolution>,
                        plan: Plan, later: Live, i: nat)
    requires OthersCarriedOut(env, world, snapshot, resolutions, plan, later) && i < |resolutions|
    ensures ResolvedAction(env, later, resolutions[i]).operation.Unchanged?
  {
    var action := ResolvedAction(env, world, resolutions[i]);
    assert PlannedPlugin(env, world, resolutions, action);
    BoundIsListed(env, world, snapshot, resolutions, plan, action);
  }

  /** In a plan that is not blocked, what is planned of a plugin is listed as it is. */
  lemma BoundIsListed(env: Environment, world: Live, snapshot: Snapshot, resolutions: seq<Resolution>,
                      plan: Plan, action: PluginAction)
    requires Unblocked(env, world, snapshot, resolutions, plan)
    requires PlannedPlugin(env, world, resolutions, action)
    ensures action in plan.plugins && !action.operation.Blocked?
  {
    var bound := Bound(env, action);
    assert BoundPlugin(env, world, resolutions, bound);
    assert bound in plan.plugins && !bound.operation.Blocked?;
  }

  lemma NoExtraPlugin(env: Environment, world: Live, snapshot: Snapshot, resolutions: seq<Resolution>,
                      plan: Plan, later: Live, directory: string)
    requires OthersCarriedOut(env, world, snapshot, resolutions, plan, later) && !Resolved(resolutions, directory)
    ensures directory !in later.plugins
  {
    if directory in world.plugins {
      var action := ExtraAction(env, world, directory);
      assert PlannedPlugin(env, world, resolutions, action);
      BoundIsListed(env, world, snapshot, resolutions, plan, action);
      assert At(later.plugins, directory) == None;
    } else {
      forall action | action in plan.plugins ensures action.directory != directory {
        var planned :| PlannedPlugin(env, world, resolutions, planned) && action == Bound(env, planned);
      }
      assert At(later.plugins, directory) == At(world.plugins, directory);
    }
  }

  // ---------------------------------------------------------------- the fixed point

  lemma PlansSettle(env: Environment, world: Live, snapshot: Snapshot, resolutions: seq<Resolution>,
                    plan: Plan, later: Live)
    requires OthersCarriedOut(env, world, snapshot, resolutions, plan, later)
    ensures forall setting :: PlannedSetting(env, later, snapshot, resolutions, setting) ==>
        setting.operation.Unchanged?
    ensures forall action :: PlannedPlugin(env, later, resolutions, action) ==> action.operation.Unchanged?
  {
    forall setting | PlannedSetting(env, later, snapshot, resolutions, setting) ensures setting.operation.Unchanged? {
      var i :| 0 <= i < |snapshot.files| && WantsSetting(env, later, resolutions, snapshot.files[i], setting);
      KeptSettingSettles(env, world, snapshot, resolutions, plan, later, i);
    }
    forall action | PlannedPlugin(env, later, resolutions, action) ensures action.operation.Unchanged? {
      if !Resolved(resolutions, action.directory) {
        NoExtraPlugin(env, world, snapshot, resolutions, plan, later, action.directory);
      }
      var i :| 0 <= i < |resolutions| && action == ResolvedAction(env, later, resolutions[i]);
      ResolvedSettles(env, world, snapshot, resolutions, plan, later, i);
    }
  }

  lemma FilesSettle(env: Environment, world: Live, snapshot: Snapshot, resolutions: seq<Resolution>,
                    plan: Plan, later: Live, action: Action)
    requires CarriedOut(env, world, snapshot, resolutions, plan, later)
    requires Planned(env, later, snapshot, resolutions, action) && !ToRemove(env, later, snapshot, action.logicalPath)
    ensures action.operation.Unchanged?
  {
    var i :| 0 <= i < |snapshot.files| && WantsAction(env, later, resolutions, snapshot.files[i], action);
    WantedFileSettles(env, world, snapshot, resolutions, plan, later, i);
  }

  /** Planning again after a plan that was not blocked has been carried out finds nothing to do. */
  lemma FixedPoint(env: Environment, world: Live, snapshot: Snapshot, resolutions: seq<Resolution>,
                   plan: Plan, later: Live)
    requires CarriedOut(env, world, snapshot, resolutions, plan, later) && ListsItsThemes(env, snapshot)
    ensures NothingToDo(env, later, snapshot, resolutions)
  {
    StillFeasible(env, world, snapshot, resolutions, plan, later);
    PlansSettle(env, world, snapshot, resolutions, plan, later);
    forall action | Planned(env, later, snapshot, resolutions, action) ensures action.operation.Unchanged? {
      NothingToRemove(env, world, snapshot, resolutions, plan, later, action.logicalPath);
      FilesSettle(env, world, snapshot, resolutions, plan, later, action);
    }
  }

  // ---------------------------------------------------------------- exactly when it is one

  /** Everything below a theme directory is wanted and can be captured. */
  ghost predicate OnlyWanted(env: Environment, world: Live, snapshot: Snapshot, directory: string) {
    forall path :: path in world.files && ThemePrefix(directory) <= path
      ==> Captured(env, world, path) && Desired(snapshot, path)
  }

  /** A theme that becomes readable without being listed leaves something to do, unless nothing but
      what was restored lies in its directory. */
  ghost predicate UnlistedAreBare(env: Environment, snapshot: Snapshot, world: Live) {
    forall i, directory :: 0 <= i < |snapshot.files| && Unlisted(env, snapshot, snapshot.files[i], directory)
      ==> OnlyWanted(env, world, snapshot, directory)
  }

  /** A listed extra theme can only be one whose theme.json was restored without being listed. */
  lemma ExtraIsUnlisted(env: Environment, world: Live, snapshot: Snapshot, resolutions: seq<Resolution>,
                        plan: Plan, later: Live, directory: string) returns (i: nat)
    requires CarriedOut(env, world, snapshot, resolutions, plan, later) && ExtraTheme(env, later, snapshot, directory)
    ensures i < |snapshot.files| && Unlisted(env, snapshot, snapshot.files[i], directory)
  {
    var path := ThemeFile(directory);
    assert THEME_ROOT <= path;
    if !Desired(snapshot, path) {
      UnwantedWasThere(env, world, snapshot, resolutions, plan, later, path);
      ExtraThemeFileGoes(env, world, snapshot, directory);
    }
    i :| 0 <= i < |snapshot.files| && snapshot.files[i].logicalPath == path;
    WantedFileSettles(env, world, snapshot, resolutions, plan, later, i);
  }

  lemma UnlistedIsExtra(env: Environment, world: Live, snapshot: Snapshot, resolutions: seq<Resolution>,
                        plan: Plan, later: Live, i: nat, directory: string)
    requires CarriedOut(env, world, snapshot, resolutions, plan, later)
    requires i < |snapshot.files| && Unlisted(env, snapshot, snapshot.files[i], directory)
    ensures ExtraTheme(env, later, snapshot, directory)
  {
    assert THEME_ROOT <= snapshot.files[i].logicalPath;
    WantedFileSettles(env, world, snapshot, resolutions, plan, later, i);
  }

  lemma NothingToDoMeansBare(env: Environment, world: Live, snapshot: Snapshot, resolutions: seq<Resolution>,
                             plan: Plan, later: Live)
    requires CarriedOut(env, world, snapshot, resolutions, plan, later)
        && NothingToDo(env, later, snapshot, resolutions)
    ensures UnlistedAreBare(env, snapshot, later)
  {
    forall i, directory | 0 <= i < |snapshot.files| && Unlisted(env, snapshot, snapshot.files[i], directory)
      ensures OnlyWanted(env, later, snapshot, directory)
    {
      UnlistedIsExtra(env, world, snapshot, resolutions, plan, later, i, directory);
      assert Removable(env, later, directory);
      forall path | path in later.files && ThemePrefix(directory) <= path
        ensures Captured(env, later, path) && Desired(snapshot, path)
      {
        assert !Excluded(env, later, path);
        if !Desired(snapshot, path) { LeftoverIsPlanned(env, later, snapshot, resolutions, directory, path); }
      }
    }
  }

  lemma LeftoverIsPlanned(env: Environment, world: Live, snapshot: Snapshot, resolutions: seq<Resolution>,
                          directory: string, path: string)
    requires ExtraTheme(env, world, snapshot, directory) && ThemePrefix(directory) <= path
    requires Captured(env, world, path) && !Desired(snapshot, path)
    ensures Planned(env, world, snapshot, resolutions, RemovalAction(world, path))
  {
  }

  lemma BareIsRemovable(env: Environment, world: Live, snapshot: Snapshot, directory: string)
    requires Listed(env, world, directory) && OnlyWanted(env, world, snapshot, directory)
    ensures Removable(env, world, directory)
  {
  }

  lemma BareMeansNothingToDo(env: Environment, world: Live, snapshot: Snapshot, resolutions: seq<Resolution>,
                             plan: Plan, later: Live)
    requires CarriedOut(env, world, snapshot, resolutions, plan, later) && UnlistedAreBare(env, snapshot, later)
    ensures NothingToDo(env, later, snapshot, resolutions)
  {
    forall directory | ExtraTheme(env, later, snapshot, directory)
      ensures Removable(env, later, directory) && OnlyWanted(env, later, snapshot, directory)
    {
      var i := ExtraIsUnlisted(env, world, snapshot, resolutions, plan, later, directory);
      BareIsRemovable(env, later, snapshot, directory);
    }
    forall path ensures !ToRemove(env, later, snapshot, path) {
      if ToRemove(env, later, snapshot, path) {
        UnwantedWasThere(env, world, snapshot, resolutions, plan, later, path);
      }
    }
    PlansSettle(env, world, snapshot, resolutions, plan, later);
    forall action | Planned(env, later, snapshot, resolutions, action) ensures action.operation.Unchanged? {
      FilesSettle(env, world, snapshot, resolutions, plan, later, action);
    }
  }

  lemma NothingToDoWhenBare(env: Environment, world: Live, snapshot: Snapshot, resolutions: seq<Resolution>,
                            plan: Plan, later: Live)
    requires CarriedOut(env, world, snapshot, resolutions, plan, later)
    ensures NothingToDo(env, later, snapshot, resolutions) <==> UnlistedAreBare(env, snapshot, later)
  {
    if NothingToDo(env, later, snapshot, resolutions) {
      NothingToDoMeansBare(env, world, snapshot, resolutions, plan, later);
    }
    if UnlistedAreBare(env, snapshot, later) {
      BareMeansNothingToDo(env, world, snapshot, resolutions, plan, later);
    }
  }

  // ---------------------------------------------------------------- the same, seen beforehand

  /** The identity a wanted file will have. */
  function WillBe(world: Live, file: File): Identity {
    var path := file.logicalPath;
    if path in world.files && world.files[path].Plain? && world.files[path].identity.size == file.size
       && world.files[path].identity.sha256 == file.sha256
    then world.files[path].identity
    else Identity(file.size, file.sha256, RESTORED_MODE)
  }

  /** What lies below the directory is wanted or goes, and what is wanted there can be captured. */
  ghost predicate WillBeBare(env: Environment, world: Live, snapshot: Snapshot, directory: string) {
    && (forall path :: path in world.files && ThemePrefix(directory) <= path ==>
          Desired(snapshot, path) || ToRemove(env, world, snapshot, path))
    && (forall i :: 0 <= i < |snapshot.files| && ThemePrefix(directory) <= snapshot.files[i].logicalPath ==>
          env.captures(snapshot.files[i].logicalPath, WillBe(world, snapshot.files[i])))
  }

  /** A theme.json that the snapshot holds without listing its theme leaves its directory bare. */
  ghost predicate UnlistedWillBeBare(env: Environment, world: Live, snapshot: Snapshot) {
    forall i, directory :: 0 <= i < |snapshot.files| && Unlisted(env, snapshot, snapshot.files[i], directory)
      ==> WillBeBare(env, world, snapshot, directory)
  }

  lemma ThemeFilesAreRestored(env: Environment, resolutions: seq<Resolution>, directory: string, path: string)
    requires Consistent(env) && ThemePrefix(directory) <= path
    ensures env.mapping(path).Restored? && !KeptAside(env, resolutions, path)
  {
    assert THEME_ROOT <= ThemePrefix(directory);
    assert THEME_ROOT <= path;
  }

  lemma WantedWillBe(env: Environment, world: Live, snapshot: Snapshot, resolutions: seq<Resolution>,
                     plan: Plan, later: Live, i: nat)
    requires CarriedOut(env, world, snapshot, resolutions, plan, later) && i < |snapshot.files|
    requires env.mapping(snapshot.files[i].logicalPath).Restored?
    requires !KeptAside(env, resolutions, snapshot.files[i].logicalPath)
    ensures At(later.files, snapshot.files[i].logicalPath) == Some(Plain(WillBe(world, snapshot.files[i])))
  {
    var file := snapshot.files[i];
    var action := FileAction(env, world, file);
    assert WantsAction(env, world, resolutions, file, action);
    assert Planned(env, world, snapshot, resolutions, action);
    assert action in plan.actions && !action.operation.Blocked?;
    assert At(later.files, file.logicalPath) == AfterAction(action, At(world.files, file.logicalPath));
  }

  /** What is not wanted and not removed stays. */
  lemma UnwantedStays(env: Environment, world: Live, snapshot: Snapshot, resolutions: seq<Resolution>,
                      plan: Plan, later: Live, path: string)
    requires CarriedOut(env, world, snapshot, resolutions, plan, later)
    requires path in world.files && !Desired(snapshot, path) && !ToRemove(env, world, snapshot, path)
    ensures path in later.files
  {
    forall k | 0 <= k < |plan.actions| && !Desired(snapshot, plan.actions[k].logicalPath)
      ensures ToRemove(env, world, snapshot, plan.actions[k].logicalPath)
    {
      assert plan.actions[k] in plan.actions;
      UnwantedIsRemoval(env, world, snapshot, resolutions, plan.actions[k]);
    }
    assert !HasAction(plan, path);
    assert At(later.files, path) == At(world.files, path);
  }

  lemma BareSeenBefore(env: Environment, world: Live, snapshot: Snapshot, resolutions: seq<Resolution>,
                       plan: Plan, later: Live, directory: string)
    requires CarriedOut(env, world, snapshot, resolutions, plan, later)
    ensures OnlyWanted(env, later, snapshot, directory) <==> WillBeBare(env, world, snapshot, directory)
  {
    if OnlyWanted(env, later, snapshot, directory) {
      forall path | path in world.files && ThemePrefix(directory) <= path && !Desired(snapshot, path)
        ensures ToRemove(env, world, snapshot, path)
      {
        if !ToRemove(env, world, snapshot, path) {
          UnwantedStays(env, world, snapshot, resolutions, plan, later, path);
        }
      }
      forall i | 0 <= i < |snapshot.files| && ThemePrefix(directory) <= snapshot.files[i].logicalPath
        ensures env.captures(snapshot.files[i].logicalPath, WillBe(world, snapshot.files[i]))
      {
        ThemeFilesAreRestored(env, resolutions, directory, snapshot.files[i].logicalPath);
        WantedWillBe(env, world, snapshot, resolutions, plan, later, i);
        assert snapshot.files[i].logicalPath in later.files;
      }
    }
    if WillBeBare(env, world, snapshot, directory) {
      forall path | path in later.files && ThemePrefix(directory) <= path
        ensures Captured(env, later, path) && Desired(snapshot, path)
      {
        if !Desired(snapshot, path) {
          UnwantedWasThere(env, world, snapshot, resolutions, plan, later, path);
        } else {
          var i :| 0 <= i < |snapshot.files| && snapshot.files[i].logicalPath == path;
          ThemeFilesAreRestored(env, resolutions, directory, path);
          WantedWillBe(env, world, snapshot, resolutions, plan, later, i);
        }
      }
    }
  }

  /** For any manifest, whatever it lists: a plan that is carried out leaves nothing to do exactly
      when, before it starts, whatever lies beside a theme.json that the snapshot holds without
      listing its theme is wanted or will be removed, and what is wanted there will be captured. */
  lemma FixedPointExactly(env: Environment, world: Live, snapshot: Snapshot, resolutions: seq<Resolution>,
                          plan: Plan, later: Live)
    requires CarriedOut(env, world, snapshot, resolutions, plan, later)
    ensures NothingToDo(env, later, snapshot, resolutions) <==> UnlistedWillBeBare(env, world, snapshot)
  {
    NothingToDoWhenBare(env, world, snapshot, resolutions, plan, later);
    forall directory
      ensures OnlyWanted(env, later, snapshot, directory) <==> WillBeBare(env, world, snapshot, directory)
    {
      BareSeenBefore(env, world, snapshot, resolutions, plan, later, directory);
    }
  }

  // ---------------------------------------------------------------- settings fit the plugins they are for

  /** A file of the snapshot that belongs to the settings of a plugin it was resolved for. */
  predicate SettingOf(env: Environment, snapshot: Snapshot, resolutions: seq<Resolution>, i: nat, r: nat) {
    && i < |snapshot.files| && r < |resolutions| && env.mapping(snapshot.files[i].logicalPath).Restored?
    && env.settingPlugin(snapshot.files[i].logicalPath) == Some(resolutions[r].directory)
  }

  predicate HoldsContent(state: Option<FileState>, file: File) {
    && state.Some? && state.value.Plain?
    && state.value.identity.size == file.size && state.value.identity.sha256 == file.sha256
  }

  lemma ListedOnce(env: Environment, world: Live, snapshot: Snapshot, resolutions: seq<Resolution>, plan: Plan, i: nat)
    requires Unblocked(env, world, snapshot, resolutions, plan) && i < |snapshot.files|
    requires env.mapping(snapshot.files[i].logicalPath).Restored?
    ensures HasSetting(plan, snapshot.files[i].logicalPath)
            <==> KeptAside(env, resolutions, snapshot.files[i].logicalPath)
    ensures HasAction(plan, snapshot.files[i].logicalPath)
            <==> !KeptAside(env, resolutions, snapshot.files[i].logicalPath)
  {
    var file := snapshot.files[i];
    if KeptAside(env, resolutions, file.logicalPath) {
      assert WantsSetting(env, world, resolutions, file, SettingAction(env, world, file));
      assert SettingAction(env, world, file) in plan.settings;
    } else {
      assert WantsAction(env, world, resolutions, file, FileAction(env, world, file));
      assert Planned(env, world, snapshot, resolutions, FileAction(env, world, file));
      assert FileAction(env, world, file) in plan.actions;
    }
    if k :| 0 <= k < |plan.actions| && plan.actions[k].logicalPath == file.logicalPath {
      assert plan.actions[k] in plan.actions && Desired(snapshot, file.logicalPath);
    }
    if k :| 0 <= k < |plan.settings| && plan.settings[k].logicalPath == file.logicalPath {
      assert plan.settings[k] in plan.settings;
    }
  }

  lemma InstalledVersion(env: Environment, world: Live, snapshot: Snapshot, resolutions: seq<Resolution>,
                         plan: Plan, later: Live, r: nat)
    requires OthersCarriedOut(env, world, snapshot, resolutions, plan, later) && r < |resolutions|
    ensures resolutions[r].resolved && InstalledAs(At(later.plugins, resolutions[r].directory), resolutions[r])
  {
    ResolvedSettles(env, world, snapshot, resolutions, plan, later, r);
  }

  /** After a restore a plugin's settings from the snapshot are in place if and only if the plugin that
      is then installed has the version they were made for, or the store gave it none; otherwise they
      are kept aside. */
  lemma SettingsFitExactly(env: Environment, world: Live, snapshot: Snapshot, resolutions: seq<Resolution>,
                           plan: Plan, later: Live, i: nat, r: nat)
    requires CarriedOut(env, world, snapshot, resolutions, plan, later) && SettingOf(env, snapshot, resolutions, i, r)
    ensures var path, installed := snapshot.files[i].logicalPath, At(later.plugins, resolutions[r].directory);
            && installed.Some? && installed.value.Plugin?
            && (HasAction(plan, path)
                <==> installed.value.version == resolutions[r].snapshotVersion || installed.value.version == "")
            && (HasSetting(plan, path) <==> !HasAction(plan, path))
  {
    InstalledVersion(env, world, snapshot, resolutions, plan, later, r);
    ListedOnce(env, world, snapshot, resolutions, plan, i);
    forall k | 0 <= k < |resolutions| && resolutions[k].directory == resolutions[r].directory ensures k == r {
    }
  }

  /** What is in place has the content the snapshot holds, and so has what is kept aside. */
  lemma SettingsArePlaced(env: Environment, world: Live, snapshot: Snapshot, resolutions: seq<Resolution>,
                          plan: Plan, later: Live, i: nat, r: nat)
    requires CarriedOut(env, world, snapshot, resolutions, plan, later) && SettingOf(env, snapshot, resolutions, i, r)
    ensures var file, installed := snapshot.files[i], At(later.plugins, resolutions[r].directory);
            && installed.Some? && installed.value.Plugin?
            && if installed.value.version == resolutions[r].snapshotVersion || installed.value.version == ""
               then HoldsContent(At(later.files, file.logicalPath), file)
               else HoldsContent(At(later.settings, file.logicalPath), file)
                    && At(later.files, file.logicalPath) == At(world.files, file.logicalPath)
  {
    SettingsFitExactly(env, world, snapshot, resolutions, plan, later, i, r);
    ListedOnce(env, world, snapshot, resolutions, plan, i);
    if KeptAside(env, resolutions, snapshot.files[i].logicalPath) {
      KeptSettingSettles(env, world, snapshot, resolutions, plan, later, i);
    } else {
      WantedFileSettles(env, world, snapshot, resolutions, plan, later, i);
    }
  }
}
