/** When a plan mutates something. */
module PlanSafety {
  import opened Identities
  import opened Planning
  import opened PlanningFixpoint

  // ---------------------------------------------------------------- files

  /** The identity a safe regular file has there. */
  predicate Holds(world: map<string, FileState>, path: string, size: nat, sha256: string) {
    && At(world, path).Some? && At(world, path).value.Plain?
    && At(world, path).value.identity.size == size && At(world, path).value.identity.sha256 == sha256
  }

  /** A theme the snapshot does not have, with a theme.json that can be read, holds the path. */
  ghost predicate BelowExtraTheme(env: Environment, world: Live, snapshot: Snapshot, path: string) {
    exists directory :: ListsExtraTheme(env, world, snapshot, directory) && ThemePrefix(directory) <= path
  }

  predicate ListsExtraTheme(env: Environment, world: Live, snapshot: Snapshot, directory: string) {
    var theme := At(world.files, ThemeFile(directory));
    && '/' !in directory && directory !in snapshot.themes && theme.Some? && theme.value.Plain?
    && env.readableTheme(theme.value.identity.size, theme.value.identity.sha256)
  }

  /** What a plan does to a file of the snapshot: it never overwrites what is sealed or unsafe, and
      leaves what already has the content. */
  lemma WantedFiles(env: Environment, world: Live, snapshot: Snapshot, resolutions: seq<Resolution>, plan: Plan,
                    action: Action)
    requires IsPlan(env, world, snapshot, resolutions, plan) && action in plan.actions
    requires Desired(snapshot, action.logicalPath)
    ensures File(action.logicalPath, action.size, action.sha256) in snapshot.files
        && env.mapping(action.logicalPath).Restored?
    ensures action.operation.Blocked?
            <==> env.sealed(action.logicalPath) || At(world.files, action.logicalPath) == Some(Unsafe)
    ensures action.operation.Create? <==> !env.sealed(action.logicalPath) && action.logicalPath !in world.files
    ensures action.operation.Unchanged? <==> !env.sealed(action.logicalPath)
                                             && Holds(world.files, action.logicalPath, action.size, action.sha256)
    ensures !action.operation.Remove?
  {
    var i :| 0 <= i < |snapshot.files| && WantsAction(env, world, resolutions, snapshot.files[i], action);
    assert snapshot.files[i] == File(action.logicalPath, action.size, action.sha256);
  }

  /** What else it touches it removes: artwork, or a file below an extra theme, that was captured and
      can be restored. */
  lemma UnwantedFiles(env: Environment, world: Live, snapshot: Snapshot, resolutions: seq<Resolution>, plan: Plan,
                      action: Action)
    requires IsPlan(env, world, snapshot, resolutions, plan) && action in plan.actions
    requires !Desired(snapshot, action.logicalPath)
    ensures action.operation.Remove? && action.existing.Some?
    ensures At(world.files, action.logicalPath) == Some(Plain(action.existing.value))
    ensures env.captures(action.logicalPath, action.existing.value)
        && env.mapping(action.logicalPath).Restored? && !env.sealed(action.logicalPath)
    ensures env.isArtwork(action.logicalPath) || BelowExtraTheme(env, world, snapshot, action.logicalPath)
  {
    assert ToRemove(env, world, snapshot, action.logicalPath);
    if directory :| ExtraTheme(env, world, snapshot, directory) && ThemePrefix(directory) <= action.logicalPath {
      assert ListsExtraTheme(env, world, snapshot, directory);
    }
  }

  /** A setting is kept aside only where nothing is, or where it already is. */
  lemma KeptSettings(env: Environment, world: Live, snapshot: Snapshot, resolutions: seq<Resolution>, plan: Plan,
                     setting: Setting)
    requires IsPlan(env, world, snapshot, resolutions, plan) && setting in plan.settings
    ensures File(setting.logicalPath, setting.size, setting.sha256) in snapshot.files
        && env.mapping(setting.logicalPath).Restored?
    ensures setting.operation.Create? <==> !env.settingSealed(setting.logicalPath)
                                           && setting.logicalPath !in world.settings
    ensures setting.operation.Unchanged? <==>
      !env.settingSealed(setting.logicalPath)
      && Holds(world.settings, setting.logicalPath, setting.size, setting.sha256)
    ensures setting.operation.Create? || setting.operation.Unchanged? || setting.operation.Blocked?
  {
    var i :| 0 <= i < |snapshot.files| && WantsSetting(env, world, resolutions, snapshot.files[i], setting);
    assert snapshot.files[i] == File(setting.logicalPath, setting.size, setting.sha256);
  }

  // ---------------------------------------------------------------- plugins

  /** Nothing keeps a plugin of the snapshot from being looked at. */
  predicate Admitted(env: Environment, resolution: Resolution) {
    && env.safeDirectory(resolution.directory) && !env.pluginSealed(resolution.directory)
    && resolution.resolved && !resolution.blocking
  }

  /** The official plugin is there, in some version. */
  predicate IsOfficial(world: Live, resolution: Resolution) {
    && resolution.directory in world.plugins && world.plugins[resolution.directory].Plugin?
    && world.plugins[resolution.directory].name == resolution.name
    && world.plugins[resolution.directory].author == resolution.author
  }

  predicate MovesTrees(env: Environment, world: Live, directory: string) {
    && env.pluginsWritable
    && (directory in world.plugins ==> world.plugins[directory].Plugin? && world.plugins[directory].owned)
  }

  predicate AsksDecky(env: Environment) { env.deckyWorks && env.guardable }

  /** Trees are moved where both can be written and the preservation path is free; where they cannot,
      Decky is asked if it works and its loader's settings can be guarded. */
  predicate CanCarryOut(env: Environment, world: Live, directory: string) {
    && env.preserveWritable(directory)
    && if MovesTrees(env, world, directory) then directory in world.plugins ==> directory !in world.kept
       else AsksDecky(env)
  }

  lemma ActionOf(env: Environment, world: Live, resolution: Resolution)
    ensures ResolvedAction(env, world, resolution).directory == resolution.directory
  {
  }

  lemma ResolvedIs(env: Environment, world: Live, resolutions: seq<Resolution>, action: PluginAction, r: nat)
    requires DistinctPlugins(resolutions) && BoundPlugin(env, world, resolutions, action)
    requires r < |resolutions| && resolutions[r].directory == action.directory
    ensures action == Bound(env, ResolvedAction(env, world, resolutions[r]))
  {
    var planned :| PlannedPlugin(env, world, resolutions, planned) && action == Bound(env, planned);
    assert planned.directory == action.directory && Resolved(resolutions, planned.directory);
    var i :| 0 <= i < |resolutions| && planned == ResolvedAction(env, world, resolutions[i]);
    ActionOf(env, world, resolutions[i]);
  }

  /** What a plan does about a plugin of the snapshot: only an official plugin is ever replaced, by
      another version, and everything else that is not absent blocks. */
  lemma ResolvedPlugins(env: Environment, world: Live, snapshot: Snapshot, resolutions: seq<Resolution>, plan: Plan,
                        action: PluginAction, r: nat)
    requires IsPlan(env, world, snapshot, resolutions, plan) && DistinctPlugins(resolutions)
    requires action in plan.plugins && r < |resolutions| && resolutions[r].directory == action.directory
    ensures action.operation.Create? <==>
      Admitted(env, resolutions[r]) && action.directory !in world.plugins && CanCarryOut(env, world, action.directory)
    ensures action.operation.Replace? <==>
      && Admitted(env, resolutions[r]) && IsOfficial(world, resolutions[r])
      && world.plugins[action.directory].version != resolutions[r].version
      && CanCarryOut(env, world, action.directory)
    ensures action.operation.Unchanged? <==>
      && Admitted(env, resolutions[r]) && IsOfficial(world, resolutions[r])
      && world.plugins[action.directory].version == resolutions[r].version
    ensures !action.operation.Remove?
    ensures Mutates(action.operation) ==>
      action.means == if MovesTrees(env, world, action.directory) then Filesystem else DeckyLoader
  {
    ResolvedIs(env, world, resolutions, action, r);
  }

  /** The display name that full metadata gives a directory, if it does. */
  predicate Bears(plugin: Plugin, name: string) {
    match plugin
    case Plugin(own, author, version, _, _, _, _) => own == name && author != "" && version != ""
    case Unidentified(claimed) => claimed == name
  }

  lemma ExtraIs(env: Environment, world: Live, resolutions: seq<Resolution>, action: PluginAction)
    requires BoundPlugin(env, world, resolutions, action)
    requires forall r :: 0 <= r < |resolutions| ==> resolutions[r].directory != action.directory
    ensures action.directory in world.plugins && action == Bound(env, ExtraAction(env, world, action.directory))
  {
    var planned :| PlannedPlugin(env, world, resolutions, planned) && action == Bound(env, planned);
  }

  /** What it does about any other plugin: it has Decky remove one that is fully identified and the only
      one of its name, and otherwise blocks. */
  lemma ExtraPlugins(env: Environment, world: Live, snapshot: Snapshot, resolutions: seq<Resolution>, plan: Plan,
                     action: PluginAction)
    requires IsPlan(env, world, snapshot, resolutions, plan) && action in plan.plugins
    requires forall r :: 0 <= r < |resolutions| ==> resolutions[r].directory != action.directory
    ensures action.directory in world.plugins
    ensures var plugin := world.plugins[action.directory];
            action.operation.Remove? <==>
            && env.safeDirectory(action.directory) && AsksDecky(env)
            && plugin.Plugin? && plugin.name != "" && plugin.author != "" && plugin.version != ""
            && forall other :: other in world.plugins && other != action.directory ==>
                 !Bears(world.plugins[other], plugin.name)
    ensures action.operation.Remove? || action.operation.Blocked?
    ensures action.operation.Remove? ==> action.means.DeckyLoader?
  {
    ExtraIs(env, world, resolutions, action);
    var plugin := world.plugins[action.directory];
    if plugin.Plugin? && FullyNamed(plugin) {
      forall other | other in world.plugins
        ensures DisplayName(world.plugins[other]) == plugin.name <==> Bears(world.plugins[other], plugin.name)
      {
      }
    }
  }

  // ---------------------------------------------------------------- and nothing is left out

  /** Every plugin of the snapshot and every other live one has an action. */
  lemma PluginsCovered(env: Environment, world: Live, snapshot: Snapshot, resolutions: seq<Resolution>, plan: Plan,
                       directory: string)
    requires IsPlan(env, world, snapshot, resolutions, plan)
    requires directory in world.plugins || Resolved(resolutions, directory)
    ensures exists i :: 0 <= i < |plan.plugins| && plan.plugins[i].directory == directory
  {
    var planned;
    if r :| 0 <= r < |resolutions| && resolutions[r].directory == directory {
      planned := ResolvedAction(env, world, resolutions[r]);
    } else {
      planned := ExtraAction(env, world, directory);
    }
    assert PlannedPlugin(env, world, resolutions, planned);
    assert BoundPlugin(env, world, resolutions, Bound(env, planned)) && Bound(env, planned) in plan.plugins;
  }

  /** A captured file that is not wanted goes if it is artwork or lies below an extra theme. */
  lemma RemovalsCovered(env: Environment, world: Live, snapshot: Snapshot, resolutions: seq<Resolution>, plan: Plan,
                        path: string)
    requires IsPlan(env, world, snapshot, resolutions, plan) && !Desired(snapshot, path)
    requires path in world.files && world.files[path].Plain? && env.captures(path, world.files[path].identity)
    requires env.isArtwork(path) || BelowExtraTheme(env, world, snapshot, path)
    ensures HasAction(plan, path)
  {
    if !env.isArtwork(path) {
      var directory :| ListsExtraTheme(env, world, snapshot, directory) && ThemePrefix(directory) <= path;
      assert ExtraTheme(env, world, snapshot, directory);
    }
    assert Planned(env, world, snapshot, resolutions, RemovalAction(world, path));
    assert RemovalAction(world, path) in plan.actions;
  }
}
