/** Building a plan: the separate passes over files, live extras, plugins and settings. */
module PlanBuilding {
  import opened Convergence
  import opened Identities
  import opened Planning
  import opened Sorting

  // ---------------------------------------------------------------- files

  predicate FromFile(env: Environment, world: Live, files: seq<File>, action: Action) {
    exists i :: 0 <= i < |files| && env.mapping(files[i].logicalPath).Restored?
        && action == FileAction(env, world, files[i])
  }

  lemma FromFileOneMore(env: Environment, world: Live, files: seq<File>, i: nat, action: Action)
    requires i < |files|
    ensures FromFile(env, world, files[..i + 1], action)
            <==> FromFile(env, world, files[..i], action)
                 || (env.mapping(files[i].logicalPath).Restored? && action == FileAction(env, world, files[i]))
  {
  }

  /** The actions for the snapshot's files; None when one has no place to be restored to. */
  method BuildFileActions(env: Environment, world: Live, files: seq<File>) returns (result: Option<seq<Action>>)
    requires DistinctFiles(files)
    ensures result.Some? <==> forall i :: 0 <= i < |files| ==> !env.mapping(files[i].logicalPath).Unsupported?
    ensures result.Some? ==> UniqueKeys(result.value, ActionPath)
    ensures result.Some? ==> forall action :: action in result.value <==> FromFile(env, world, files, action)
  {
    var actions, i := [], 0;
    while i < |files|
      invariant 0 <= i <= |files| && UniqueKeys(actions, ActionPath)
      invariant forall k :: 0 <= k < i ==> !env.mapping(files[k].logicalPath).Unsupported?
      invariant forall action :: action in actions <==> FromFile(env, world, files[..i], action)
    {
      var file := files[i];
      if env.mapping(file.logicalPath).Unsupported? { return None; }
      forall action ensures FromFile(env, world, files[..i + 1], action)
        <==> FromFile(env, world, files[..i], action)
             || (env.mapping(file.logicalPath).Restored? && action == FileAction(env, world, file))
      {
        FromFileOneMore(env, world, files, i, action);
      }
      if env.mapping(file.logicalPath).Restored? {
        NewFilePath(env, world, files, i, actions);
        actions := actions + [FileAction(env, world, file)];
      }
      i := i + 1;
    }
    assert files[..i] == files;
    result := Some(actions);
  }

  lemma NewFilePath(env: Environment, world: Live, files: seq<File>, i: nat, actions: seq<Action>)
    requires i < |files| && DistinctFiles(files)
    requires forall action :: action in actions <==> FromFile(env, world, files[..i], action)
    ensures forall k :: 0 <= k < |actions| ==> ActionPath(actions[k]) != files[i].logicalPath
  {
    forall k | 0 <= k < |actions| ensures ActionPath(actions[k]) != files[i].logicalPath {
      assert FromFile(env, world, files[..i], actions[k]);
    }
  }

  // ---------------------------------------------------------------- settings kept aside

  function SettingOf(env: Environment, world: Live, action: Action): Setting {
    SettingAction(env, world, File(action.logicalPath, action.size, action.sha256))
  }

  /** Takes the settings of changed plugins out of the actions. */
  method SplitIncompatible(env: Environment, world: Live, resolutions: seq<Resolution>, actions: seq<Action>)
    returns (remaining: seq<Action>, settings: seq<Setting>)
    requires UniqueKeys(actions, ActionPath)
    ensures UniqueKeys(remaining, ActionPath) && UniqueKeys(settings, SettingPath)
    ensures forall action :: action in remaining <==>
        action in actions && !KeptAside(env, resolutions, action.logicalPath)
    ensures forall setting :: setting in settings <==>
      exists i :: 0 <= i < |actions| && KeptAside(env, resolutions, actions[i].logicalPath)
                  && setting == SettingOf(env, world, actions[i])
  {
    remaining, settings := [], [];
    var i := 0;
    while i < |actions|
      invariant 0 <= i <= |actions| && UniqueKeys(remaining, ActionPath) && UniqueKeys(settings, SettingPath)
      invariant forall action :: action in remaining <==>
        action in actions[..i] && !KeptAside(env, resolutions, action.logicalPath)
      invariant forall setting :: setting in settings <==> KeptFrom(env, world, resolutions, actions, i, setting)
    {
      var action := actions[i];
      NewActionPath(actions, i);
      assert actions[..i + 1] == actions[..i] + [action];
      if KeptAside(env, resolutions, action.logicalPath) {
        forall setting | setting in settings ensures SettingPath(setting) != action.logicalPath {
          var k :| 0 <= k < i && KeptAside(env, resolutions, actions[k].logicalPath)
                   && setting == SettingOf(env, world, actions[k]);
          assert ActionPath(actions[k]) != ActionPath(action);
        }
        settings := settings + [SettingOf(env, world, action)];
      } else {
        remaining := remaining + [action];
      }
      i := i + 1;
    }
    assert actions[..i] == actions;
    forall setting ensures setting in settings <==>
      exists k :: 0 <= k < |actions| && KeptAside(env, resolutions, actions[k].logicalPath)
                  && setting == SettingOf(env, world, actions[k])
    {
      assert setting in settings <==> KeptFrom(env, world, resolutions, actions, i, setting);
    }
  }

  predicate KeptFrom(env: Environment, world: Live, resolutions: seq<Resolution>, actions: seq<Action>, n: nat,
                     setting: Setting)
    requires n <= |actions|
  {
    exists k :: 0 <= k < n && KeptAside(env, resolutions, actions[k].logicalPath)
        && setting == SettingOf(env, world, actions[k])
  }

  lemma NewActionPath(actions: seq<Action>, i: nat)
    requires i < |actions| && UniqueKeys(actions, ActionPath)
    ensures forall action :: action in actions[..i] ==> ActionPath(action) != ActionPath(actions[i])
  {
  }

  // ---------------------------------------------------------------- plugins

  function NamedBy(world: Live, directories: set<string>, name: string): set<string> {
    set directory | directory in directories && directory in world.plugins && name != ""
                    && DisplayName(world.plugins[directory]) == name
  }

  /** How often each display name is used by a live plugin directory. */
  method CountNames(world: Live) returns (counts: map<string, nat>)
    ensures forall name :: (if name in counts then counts[name] else 0) == |NamedBy(world, world.plugins.Keys, name)|
  {
    counts := map[];
    ghost var done := {};
    var left := world.plugins.Keys;
    while left != {}
      invariant done + left == world.plugins.Keys && done !! left
      invariant forall name :: (if name in counts then counts[name] else 0) == |NamedBy(world, done, name)|
      decreases left
    {
      var directory :| directory in left;
      var name := DisplayName(world.plugins[directory]);
      forall other { NamedOneMore(world, done, directory, other); }
      if name != "" { counts := counts[name := (if name in counts then counts[name] else 0) + 1]; }
      done, left := done + {directory}, left - {directory};
    }
    assert done == world.plugins.Keys;
  }

  lemma NamedOneMore(world: Live, done: set<string>, directory: string, name: string)
    requires directory in world.plugins && directory !in done
    ensures |NamedBy(world, done + {directory}, name)|
            == |NamedBy(world, done, name)|
               + if name != "" && DisplayName(world.plugins[directory]) == name then 1 else 0
  {
    if name != "" && DisplayName(world.plugins[directory]) == name {
      assert NamedBy(world, done + {directory}, name) == NamedBy(world, done, name) + {directory};
    } else {
      assert NamedBy(world, done + {directory}, name) == NamedBy(world, done, name);
    }
  }

  /** A name counted once belongs to one plugin. */
  lemma CountedOnce(world: Live, directory: string)
    requires directory in world.plugins && FullyNamed(world.plugins[directory])
    ensures OnlyOneNamed(world, directory) <==> |NamedBy(world, world.plugins.Keys, world.plugins[directory].name)| == 1
  {
    var named := NamedBy(world, world.plugins.Keys, world.plugins[directory].name);
    assert directory in named;
    if |named| == 1 {
      assert |named - {directory}| == 0;
      assert named == {directory};
      forall other | other in world.plugins && other != directory
        ensures DisplayName(world.plugins[other]) != DisplayName(world.plugins[directory])
      {
        assert other !in named;
      }
    }
    if OnlyOneNamed(world, directory) { assert named == {directory}; }
  }

  predicate FromResolution(env: Environment, world: Live, resolutions: seq<Resolution>, n: nat, action: PluginAction)
    requires n <= |resolutions|
  {
    exists i :: 0 <= i < n && action == ResolvedAction(env, world, resolutions[i])
  }

  method ResolvedActions(env: Environment, world: Live, resolutions: seq<Resolution>)
    returns (actions: seq<PluginAction>)
    requires DistinctPlugins(resolutions)
    ensures UniqueKeys(actions, PluginPath)
    ensures forall action :: action in actions <==> FromResolution(env, world, resolutions, |resolutions|, action)
  {
    actions := [];
    var i := 0;
    while i < |resolutions|
      invariant 0 <= i <= |resolutions| && UniqueKeys(actions, PluginPath)
      invariant forall action :: action in actions <==> FromResolution(env, world, resolutions, i, action)
    {
      forall action | action in actions ensures PluginPath(action) != resolutions[i].directory {
        assert FromResolution(env, world, resolutions, i, action);
      }
      actions := actions + [ResolvedAction(env, world, resolutions[i])];
      i := i + 1;
    }
  }

  predicate FromExtra(env: Environment, world: Live, resolutions: seq<Resolution>, directories: set<string>,
                      action: PluginAction) {
    && action.directory in directories && action.directory in world.plugins && !Resolved(resolutions, action.directory)
    && action == ExtraAction(env, world, action.directory)
  }

  /** The list so far: resolved plugins, and the extra ones among some directories. */
  ghost predicate ListsPlugins(env: Environment, world: Live, resolutions: seq<Resolution>, done: set<string>,
                               actions: seq<PluginAction>) {
    forall action :: action in actions <==>
      FromResolution(env, world, resolutions, |resolutions|, action) || FromExtra(env, world, resolutions, done, action)
  }

  /** The action for an extra plugin, with its name looked up among the counted ones. */
  method ExtraPlugin(env: Environment, world: Live, directory: string, counts: map<string, nat>)
    returns (action: PluginAction)
    requires directory in world.plugins
    requires forall name :: (if name in counts then counts[name] else 0) == |NamedBy(world, world.plugins.Keys, name)|
    ensures action == ExtraAction(env, world, directory)
  {
    var existing := world.plugins[directory];
    action := PluginAction(directory, Blocked, NoMethod, NOTHING_KNOWN);
    if FullyNamed(existing) {
      CountedOnce(world, directory);
      var once := existing.name in counts && counts[existing.name] == 1;
      if env.safeDirectory(directory) && once && env.deckyWorks {
        action := PluginAction(directory, Remove, DeckyLoader, existing);
      }
    }
  }

  lemma ListsOneMore(env: Environment, world: Live, resolutions: seq<Resolution>, done: set<string>,
                     actions: seq<PluginAction>, directory: string)
    requires ListsPlugins(env, world, resolutions, done, actions) && directory in world.plugins
    ensures Resolved(resolutions, directory) ==> ListsPlugins(env, world, resolutions, done + {directory}, actions)
    ensures !Resolved(resolutions, directory) ==>
      ListsPlugins(env, world, resolutions, done + {directory}, actions + [ExtraAction(env, world, directory)])
  {
  }

  lemma AppendUnique(actions: seq<PluginAction>, action: PluginAction)
    requires UniqueKeys(actions, PluginPath)
    requires forall other :: other in actions ==> PluginPath(other) != PluginPath(action)
    ensures UniqueKeys(actions + [action], PluginPath)
  {
  }

  /** The list with one more live plugin looked at. */
  method AddExtraAction(env: Environment, world: Live, resolutions: seq<Resolution>, ghost done: set<string>,
                        actions: seq<PluginAction>, directory: string, counts: map<string, nat>)
    returns (more: seq<PluginAction>)
    requires directory in world.plugins && directory !in done
    requires forall name :: (if name in counts then counts[name] else 0) == |NamedBy(world, world.plugins.Keys, name)|
    requires UniqueKeys(actions, PluginPath) && ListsPlugins(env, world, resolutions, done, actions)
    ensures UniqueKeys(more, PluginPath) && ListsPlugins(env, world, resolutions, done + {directory}, more)
  {
    more := actions;
    ListsOneMore(env, world, resolutions, done, actions, directory);
    if !Resolved(resolutions, directory) {
      var action := ExtraPlugin(env, world, directory, counts);
      NewDirectory(env, world, resolutions, done, directory, actions);
      AppendUnique(actions, action);
      more := actions + [action];
    }
  }

  /** Adds the actions for live plugins the snapshot does not have. */
  method AddExtraActions(env: Environment, world: Live, resolutions: seq<Resolution>, start: seq<PluginAction>)
    returns (actions: seq<PluginAction>)
    requires UniqueKeys(start, PluginPath) && ListsPlugins(env, world, resolutions, {}, start)
    ensures UniqueKeys(actions, PluginPath)
    ensures forall action :: action in actions <==> PlannedPlugin(env, world, resolutions, action)
  {
    var counts := CountNames(world);
    actions := start;
    ghost var done := {};
    var left := world.plugins.Keys;
    while left != {}
      invariant done + left == world.plugins.Keys && done !! left && UniqueKeys(actions, PluginPath)
      invariant ListsPlugins(env, world, resolutions, done, actions)
      decreases left
    {
      var directory :| directory in left;
      actions := AddExtraAction(env, world, resolutions, done, actions, directory, counts);
      done, left := done + {directory}, left - {directory};
    }
    assert done == world.plugins.Keys;
    ListedIsPlanned(env, world, resolutions, actions);
  }

  /** Blocks what Decky would mutate when its loader's settings cannot be guarded. */
  method BindGuard(env: Environment, actions: seq<PluginAction>) returns (bound: seq<PluginAction>)
    requires UniqueKeys(actions, PluginPath)
    ensures UniqueKeys(bound, PluginPath) && |bound| == |actions|
    ensures forall i :: 0 <= i < |actions| ==> bound[i] == Bound(env, actions[i])
  {
    bound := [];
    for i := 0 to |actions|
      invariant |bound| == i && forall k :: 0 <= k < i ==> bound[k] == Bound(env, actions[k])
    {
      bound := bound + [Bound(env, actions[i])];
    }
    forall i, j | 0 <= i < j < |bound| ensures PluginPath(bound[i]) != PluginPath(bound[j]) {
      assert PluginPath(actions[i]) != PluginPath(actions[j]);
    }
  }

  lemma BoundIsBound(env: Environment, world: Live, resolutions: seq<Resolution>, actions: seq<PluginAction>,
                     bound: seq<PluginAction>)
    requires forall action :: action in actions <==> PlannedPlugin(env, world, resolutions, action)
    requires |bound| == |actions| && forall i :: 0 <= i < |actions| ==> bound[i] == Bound(env, actions[i])
    ensures forall action :: action in bound <==> BoundPlugin(env, world, resolutions, action)
  {
    forall action | action in bound ensures BoundPlugin(env, world, resolutions, action) {
      var i :| 0 <= i < |bound| && bound[i] == action;
      assert PlannedPlugin(env, world, resolutions, actions[i]);
    }
    forall action | BoundPlugin(env, world, resolutions, action) ensures action in bound {
      var planned :| PlannedPlugin(env, world, resolutions, planned) && action == Bound(env, planned);
      var i :| 0 <= i < |actions| && actions[i] == planned;
      assert bound[i] == action;
    }
  }

  lemma ListedIsPlanned(env: Environment, world: Live, resolutions: seq<Resolution>, actions: seq<PluginAction>)
    requires ListsPlugins(env, world, resolutions, world.plugins.Keys, actions)
    ensures forall action :: action in actions <==> PlannedPlugin(env, world, resolutions, action)
  {
  }

  lemma NewDirectory(env: Environment, world: Live, resolutions: seq<Resolution>, done: set<string>, directory: string,
                     actions: seq<PluginAction>)
    requires directory !in done && !Resolved(resolutions, directory)
    requires ListsPlugins(env, world, resolutions, done, actions)
    ensures forall action :: action in actions ==> PluginPath(action) != directory
  {
  }

  // ---------------------------------------------------------------- the plan

  lemma DesiredFromFile(env: Environment, world: Live, snapshot: Snapshot, action: Action)
    ensures FromFile(env, world, snapshot.files, action) ==> Desired(snapshot, action.logicalPath)
  {
  }

  /** Theme and artwork removals are never settings. */
  lemma RemovalsStay(env: Environment, world: Live, snapshot: Snapshot, resolutions: seq<Resolution>, path: string)
    requires Consistent(env) && ToRemove(env, world, snapshot, path)
    ensures !KeptAside(env, resolutions, path)
  {
  }

  /** What is left of the two passes over files, once settings are taken out, is what is planned. */
  lemma RemainingIsPlanned(env: Environment, world: Live, snapshot: Snapshot, resolutions: seq<Resolution>,
                           action: Action)
    requires Consistent(env)
    ensures Planned(env, world, snapshot, resolutions, action) <==>
      && (FromFile(env, world, snapshot.files, action)
          || (ToRemove(env, world, snapshot, action.logicalPath) && action == RemovalAction(world, action.logicalPath)))
      && !KeptAside(env, resolutions, action.logicalPath)
  {
    if ToRemove(env, world, snapshot, action.logicalPath) {
      RemovalsStay(env, world, snapshot, resolutions, action.logicalPath);
    }
    if i :| 0 <= i < |snapshot.files| && env.mapping(snapshot.files[i].logicalPath).Restored?
            && action == FileAction(env, world, snapshot.files[i]) && !KeptAside(env, resolutions, action.logicalPath) {
      assert WantsAction(env, world, resolutions, snapshot.files[i], action);
    }
    if i :| 0 <= i < |snapshot.files| && WantsAction(env, world, resolutions, snapshot.files[i], action) {
      assert action == FileAction(env, world, snapshot.files[i]);
    }
  }

  lemma KeptIsPlanned(env: Environment, world: Live, snapshot: Snapshot, resolutions: seq<Resolution>,
                      actions: seq<Action>, setting: Setting)
    requires Consistent(env)
    requires forall action :: action in actions <==>
      FromFile(env, world, snapshot.files, action)
      || (ToRemove(env, world, snapshot, action.logicalPath) && action == RemovalAction(world, action.logicalPath))
    ensures PlannedSetting(env, world, snapshot, resolutions, setting)
            <==> KeptFrom(env, world, resolutions, actions, |actions|, setting)
  {
    if k :| 0 <= k < |actions| && KeptAside(env, resolutions, actions[k].logicalPath)
            && setting == SettingOf(env, world, actions[k]) {
      assert actions[k] in actions;
      if ToRemove(env, world, snapshot, actions[k].logicalPath) {
        RemovalsStay(env, world, snapshot, resolutions, actions[k].logicalPath);
      }
      var i :| 0 <= i < |snapshot.files| && env.mapping(snapshot.files[i].logicalPath).Restored?
               && actions[k] == FileAction(env, world, snapshot.files[i]);
      assert WantsSetting(env, world, resolutions, snapshot.files[i], setting);
    }
    if i :| 0 <= i < |snapshot.files| && WantsSetting(env, world, resolutions, snapshot.files[i], setting) {
      var action := FileAction(env, world, snapshot.files[i]);
      assert FromFile(env, world, snapshot.files, action);
      assert action in actions;
    }
  }

  lemma JoinedKeys(env: Environment, world: Live, snapshot: Snapshot, files: seq<Action>, removals: seq<Action>)
    requires UniqueKeys(files, ActionPath) && UniqueKeys(removals, ActionPath)
    requires forall action :: action in files <==> FromFile(env, world, snapshot.files, action)
    requires forall action :: action in removals ==> ToRemove(env, world, snapshot, action.logicalPath)
    ensures UniqueKeys(files + removals, ActionPath)
  {
    var all: seq<Action> := files + removals;
    forall i, j | 0 <= i < j < |all| ensures ActionPath(all[i]) != ActionPath(all[j]) {
      if i < |files| <= j {
        assert all[i] == files[i] && all[j] == removals[j - |files|];
        DesiredFromFile(env, world, snapshot, files[i]);
      }
    }
  }

  /** The actions for files, wanted and extra, before settings are taken out. */
  method FileAndRemovalActions(env: Environment, world: Live, current: Discovery, snapshot: Snapshot)
    returns (result: Option<seq<Action>>)
    requires DistinctFiles(snapshot.files) && Discovers(env, world, current)
    ensures result.Some? <==> Feasible(env, world, snapshot)
    ensures result.Some? ==> UniqueKeys(result.value, ActionPath)
    ensures result.Some? ==> forall action :: action in result.value <==>
      FromFile(env, world, snapshot.files, action)
      || (ToRemove(env, world, snapshot, action.logicalPath) && action == RemovalAction(world, action.logicalPath))
  {
    var files := BuildFileActions(env, world, snapshot.files);
    if files.None? { return None; }
    var removals := BuildConvergenceActions(env, world, current, snapshot);
    if removals.None? { return None; }
    JoinedKeys(env, world, snapshot, files.value, removals.value);
    result := Some(files.value + removals.value);
  }

  /** Builds the plan for a snapshot; None when planning is not possible. */
  method BuildPlan(env: Environment, world: Live, current: Discovery, snapshot: Snapshot, resolutions: seq<Resolution>)
    returns (result: Option<Plan>)
    requires Consistent(env) && DistinctFiles(snapshot.files) && DistinctPlugins(resolutions)
        && Discovers(env, world, current)
    ensures result.Some? <==> Feasible(env, world, snapshot)
    ensures result.Some? ==> IsPlan(env, world, snapshot, resolutions, result.value)
  {
    var actions := FileAndRemovalActions(env, world, current, snapshot);
    if actions.None? { return None; }
    var plugins := ResolvedActions(env, world, resolutions);
    plugins := AddExtraActions(env, world, resolutions, plugins);
    var bound := BindGuard(env, plugins);
    BoundIsBound(env, world, resolutions, plugins, bound);
    var remaining, settings := SplitIncompatible(env, world, resolutions, actions.value);
    forall action ensures action in remaining <==> Planned(env, world, snapshot, resolutions, action) {
      RemainingIsPlanned(env, world, snapshot, resolutions, action);
    }
    forall setting ensures setting in settings <==> PlannedSetting(env, world, snapshot, resolutions, setting) {
      KeptIsPlanned(env, world, snapshot, resolutions, actions.value, setting);
    }
    remaining := SortUnique(remaining, ActionPath);
    settings := SortUnique(settings, SettingPath);
    bound := SortUnique(bound, PluginPath);
    result := Some(Plan(remaining, bound, settings));
  }
}
