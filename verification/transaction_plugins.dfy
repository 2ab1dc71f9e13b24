/** The plugins and kept settings of a transaction, half done. */
module PlannedPlugins {
  import opened Delimited
  import opened Identities
  import opened Planning
  import opened PlanningFixpoint
  import T = Transaction

  // ---------------------------------------------------------------- what planning knows a plugin by

  /** Name, author and version in one text: the author's length in strokes, and all three. */
  function NamedBy(name: string, author: string, version: string): string {
    seq(|author|, i => '1') + ['0'] + (name + author + version)
  }

  /** The identity of a plugin directory. Planning compares name, author and version only, so these
      make up the content; the number of its files stands for the rest. */
  function KnownAs(plugin: Plugin): Identity {
    match plugin
    case Plugin(name, author, version, _, files, _, _) => Identity(|name|, NamedBy(name, author, version), files)
    case Unidentified(_) => Identity(0, "", 0)
  }

  lemma NamesAreKnown(name: string, author: string, version: string, name': string, author': string, version': string)
    requires |name| == |name'| && NamedBy(name, author, version) == NamedBy(name', author', version')
    ensures name == name' && author == author' && version == version'
  {
    var text := NamedBy(name, author, version);
    var strokes, strokes' := seq(|author|, i => '1'), seq(|author'|, i => '1');
    assert strokes + ['0'] <= text && strokes' + ['0'] <= text;
    HeadsAgree(strokes, strokes', text, '0');
    assert |author| == |strokes| == |strokes'| == |author'|;
    var rest := text[|author| + 1..];
    assert rest == name + author + version && rest == name' + author' + version';
    assert name == rest[..|name|] && name' == rest[..|name|];
    assert author == rest[|name|..|name| + |author|] && author' == rest[|name|..|name| + |author|];
    assert version == rest[|name| + |author|..] && version' == rest[|name| + |author|..];
  }

  /** Two plugins have one content exactly when planning does not tell them apart. */
  lemma KnownExactly(plugin: Plugin, name: string, author: string, version: string)
    ensures SameContent(KnownAs(plugin), Identity(|name|, NamedBy(name, author, version), 0))
            <==> plugin.Plugin? && plugin.name == name && plugin.author == author && plugin.version == version
  {
    assert NamedBy(name, author, version) != "";
    if plugin.Plugin? && SameContent(KnownAs(plugin), Identity(|name|, NamedBy(name, author, version), 0)) {
      NamesAreKnown(plugin.name, plugin.author, plugin.version, name, author, version);
    }
  }

  function PluginsOf(live: Live): World {
    map directory | directory in live.plugins :: KnownAs(live.plugins[directory])
  }

  // ---------------------------------------------------------------- plugins

  ghost function ResolutionOf(resolutions: seq<Resolution>, directory: string): Resolution
    requires Resolved(resolutions, directory)
  {
    var i :| 0 <= i < |resolutions| && resolutions[i].directory == directory;
    resolutions[i]
  }

  /** The tree an installation is to leave. */
  ghost function InstalledIdentity(resolutions: seq<Resolution>, directory: string): Identity {
    if Resolved(resolutions, directory) then ResolvedIdentity(ResolutionOf(resolutions, directory))
    else Identity(0, "", 0)
  }

  ghost function PluginItem(resolutions: seq<Resolution>, action: PluginAction): T.Item {
    var directory := action.directory;
    T.Item(directory,
           if action.operation.Create? then None else Some(KnownAs(action.existing)),
           if action.operation.Remove? then None else Some(InstalledIdentity(resolutions, directory)),
           directory, {}, action.means.DeckyLoader?)
  }

  /** Each plugin is as it was or as it will be; Decky leaves its own as it likes. */
  ghost predicate PluginsHalfWay(env: Environment, world: Live, snapshot: Snapshot, resolutions: seq<Resolution>,
                                 plan: Plan, later: Live) {
    && Unblocked(env, world, snapshot, resolutions, plan)
    && (forall action :: action in plan.plugins ==>
          || At(later.plugins, action.directory) == At(world.plugins, action.directory)
          || (Mutates(action.operation) && action.means.DeckyLoader?)
          || (action.operation.Remove? && action.directory !in later.plugins)
          || ((action.operation.Create? || action.operation.Replace?)
              && Resolved(resolutions, action.directory)
              && InstalledAs(At(later.plugins, action.directory), ResolutionOf(resolutions, action.directory))))
    && (forall directory :: (forall action :: action in plan.plugins ==> action.directory != directory)
                            ==> At(later.plugins, directory) == At(world.plugins, directory))
  }

  ghost predicate NoPluginShows(resolutions: seq<Resolution>, plan: Plan, later: Live) {
    forall k :: 0 <= k < |plan.plugins| && Mutates(plan.plugins[k].operation) ==>
      !T.ShowsMutation(PluginItem(resolutions, plan.plugins[k]), PluginsOf(later))
  }

  ghost predicate PluginsQuiet(env: Environment, later: Live, resolutions: seq<Resolution>) {
    forall action :: PlannedPlugin(env, later, resolutions, action) ==> action.operation.Unchanged?
  }

  lemma ResolutionIs(resolutions: seq<Resolution>, i: nat)
    requires DistinctPlugins(resolutions) && i < |resolutions|
    ensures ResolutionOf(resolutions, resolutions[i].directory) == resolutions[i]
  {
  }

  lemma ResolvedIsListed(env: Environment, world: Live, snapshot: Snapshot, resolutions: seq<Resolution>,
                         plan: Plan, i: nat)
    requires Unblocked(env, world, snapshot, resolutions, plan) && i < |resolutions|
    ensures ResolvedAction(env, world, resolutions[i]) in plan.plugins
    ensures !ResolvedAction(env, world, resolutions[i]).operation.Blocked?
  {
    var action := ResolvedAction(env, world, resolutions[i]);
    assert PlannedPlugin(env, world, resolutions, action);
    BoundIsListed(env, world, snapshot, resolutions, plan, action);
  }

  /** The identity of what a plugin was resolved to. */
  function ResolvedIdentity(resolution: Resolution): Identity {
    Identity(|resolution.name|, NamedBy(resolution.name, resolution.author, resolution.version), 0)
  }

  /** Whatever world it is planned in, a plugin that can be acted on is left alone exactly when it is
      what it was resolved to. */
  lemma UnchangedExactly(env: Environment, world: Live, later: Live, resolution: Resolution)
    requires !ResolvedAction(env, world, resolution).operation.Blocked?
    ensures ResolvedAction(env, later, resolution).operation.Unchanged? <==>
      && resolution.directory in later.plugins
      && SameContent(KnownAs(later.plugins[resolution.directory]), ResolvedIdentity(resolution))
  {
    if resolution.directory in later.plugins {
      KnownExactly(later.plugins[resolution.directory], resolution.name, resolution.author, resolution.version);
    }
  }

  /** A resolved plugin's mutation shows exactly when planning would still act on the plugin. */
  lemma ResolvedShows(env: Environment, world: Live, snapshot: Snapshot, resolutions: seq<Resolution>,
                      plan: Plan, later: Live, i: nat)
    requires PluginsHalfWay(env, world, snapshot, resolutions, plan, later) && i < |resolutions|
    ensures var action := ResolvedAction(env, world, resolutions[i]);
            && action in plan.plugins && !action.operation.Remove?
            && (ResolvedAction(env, later, resolutions[i]).operation.Unchanged? <==>
                action.operation.Unchanged? || !T.ShowsMutation(PluginItem(resolutions, action), PluginsOf(later)))
  {
    var action := ResolvedAction(env, world, resolutions[i]);
    ResolvedIsListed(env, world, snapshot, resolutions, plan, i);
    ResolutionIs(resolutions, i);
    UnchangedExactly(env, world, world, resolutions[i]);
    UnchangedExactly(env, world, later, resolutions[i]);
    if action.operation.Unchanged? {
      assert At(later.plugins, action.directory) == At(world.plugins, action.directory);
    }
  }

  /** Every extra plugin is one of the plan's removals, and there are no others. */
  lemma RemovalIsOfExtra(env: Environment, world: Live, snapshot: Snapshot, resolutions: seq<Resolution>,
                         plan: Plan, action: PluginAction)
    requires IsPlan(env, world, snapshot, resolutions, plan) && action in plan.plugins
    requires !action.operation.Blocked? && !Resolved(resolutions, action.directory)
    ensures action.operation.Remove? && action.directory in world.plugins
        && action == ExtraAction(env, world, action.directory)
  {
    var planned :| PlannedPlugin(env, world, resolutions, planned) && action == Bound(env, planned);
  }

  lemma ResolvedIsListedOnce(env: Environment, world: Live, snapshot: Snapshot, resolutions: seq<Resolution>,
                             plan: Plan, action: PluginAction) returns (i: nat)
    requires IsPlan(env, world, snapshot, resolutions, plan) && action in plan.plugins
    requires !action.operation.Blocked? && Resolved(resolutions, action.directory)
    ensures i < |resolutions| && action == ResolvedAction(env, world, resolutions[i])
  {
    var planned :| PlannedPlugin(env, world, resolutions, planned) && action == Bound(env, planned);
    i :| 0 <= i < |resolutions| && planned == ResolvedAction(env, world, resolutions[i]);
  }

  lemma ExtraIsListed(env: Environment, world: Live, snapshot: Snapshot, resolutions: seq<Resolution>,
                      plan: Plan, directory: string)
    requires Unblocked(env, world, snapshot, resolutions, plan)
    requires directory in world.plugins && !Resolved(resolutions, directory)
    ensures ExtraAction(env, world, directory) in plan.plugins && ExtraAction(env, world, directory).operation.Remove?
  {
    var action := ExtraAction(env, world, directory);
    assert PlannedPlugin(env, world, resolutions, action);
    BoundIsListed(env, world, snapshot, resolutions, plan, action);
  }

  lemma QuietShowsNoPlugin(env: Environment, world: Live, snapshot: Snapshot, resolutions: seq<Resolution>,
                           plan: Plan, later: Live)
    requires PluginsHalfWay(env, world, snapshot, resolutions, plan, later) && PluginsQuiet(env, later, resolutions)
    ensures NoPluginShows(resolutions, plan, later)
  {
    forall k | 0 <= k < |plan.plugins| && Mutates(plan.plugins[k].operation)
      ensures !T.ShowsMutation(PluginItem(resolutions, plan.plugins[k]), PluginsOf(later))
    {
      var action := plan.plugins[k];
      assert action in plan.plugins;
      if Resolved(resolutions, action.directory) {
        var i := ResolvedIsListedOnce(env, world, snapshot, resolutions, plan, action);
        ResolvedShows(env, world, snapshot, resolutions, plan, later, i);
        assert PlannedPlugin(env, later, resolutions, ResolvedAction(env, later, resolutions[i]));
      } else {
        RemovalIsOfExtra(env, world, snapshot, resolutions, plan, action);
        if action.directory in later.plugins {
          assert PlannedPlugin(env, later, resolutions, ExtraAction(env, later, action.directory));
        }
      }
    }
  }

  lemma NoExtraIsLeft(env: Environment, world: Live, snapshot: Snapshot, resolutions: seq<Resolution>,
                      plan: Plan, later: Live, directory: string)
    requires PluginsHalfWay(env, world, snapshot, resolutions, plan, later)
    requires NoPluginShows(resolutions, plan, later) && !Resolved(resolutions, directory)
    ensures directory !in later.plugins
  {
    if directory in world.plugins {
      ExtraIsListed(env, world, snapshot, resolutions, plan, directory);
      var action := ExtraAction(env, world, directory);
      var k :| 0 <= k < |plan.plugins| && plan.plugins[k] == action;
      assert !T.ShowsMutation(PluginItem(resolutions, action), PluginsOf(later));
    } else {
      forall action | action in plan.plugins ensures action.directory != directory {
        if action.directory == directory { RemovalIsOfExtra(env, world, snapshot, resolutions, plan, action); }
      }
      assert At(later.plugins, directory) == At(world.plugins, directory);
    }
  }

  /** Half way, no plugin shows a mutation exactly when planning finds nothing to do with plugins. */
  lemma PluginsQuietExactly(env: Environment, world: Live, snapshot: Snapshot, resolutions: seq<Resolution>,
                            plan: Plan, later: Live)
    requires PluginsHalfWay(env, world, snapshot, resolutions, plan, later)
    ensures NoPluginShows(resolutions, plan, later) <==> PluginsQuiet(env, later, resolutions)
  {
    if PluginsQuiet(env, later, resolutions) {
      QuietShowsNoPlugin(env, world, snapshot, resolutions, plan, later);
    }
    if NoPluginShows(resolutions, plan, later) {
      forall action | PlannedPlugin(env, later, resolutions, action) ensures action.operation.Unchanged? {
        if !Resolved(resolutions, action.directory) {
          NoExtraIsLeft(env, world, snapshot, resolutions, plan, later, action.directory);
        }
        var i :| 0 <= i < |resolutions| && action == ResolvedAction(env, later, resolutions[i]);
        ResolvedShows(env, world, snapshot, resolutions, plan, later, i);
        var first := ResolvedAction(env, world, resolutions[i]);
        var k :| 0 <= k < |plan.plugins| && plan.plugins[k] == first;
      }
    }
  }

  /** Every mutating action is one of the transaction's, and shows in the world it was planned for. */
  lemma PluginIsPlanned(env: Environment, world: Live, snapshot: Snapshot, resolutions: seq<Resolution>,
                        plan: Plan, action: PluginAction)
    requires IsPlan(env, world, snapshot, resolutions, plan) && DistinctPlugins(resolutions)
    requires action in plan.plugins && Mutates(action.operation)
    ensures var item := PluginItem(resolutions, action);
            && T.Mutates(item) && At(PluginsOf(world), item.path) == item.before
            && T.ShowsMutation(item, PluginsOf(world))
  {
    if Resolved(resolutions, action.directory) {
      var i := ResolvedIsListedOnce(env, world, snapshot, resolutions, plan, action);
      ResolutionIs(resolutions, i);
      var resolution := resolutions[i];
      if action.operation.Replace? {
        KnownExactly(action.existing, resolution.name, resolution.author, resolution.version);
      }
    } else {
      RemovalIsOfExtra(env, world, snapshot, resolutions, plan, action);
    }
  }

  // ---------------------------------------------------------------- kept settings

  /** The regular files beside plugins whose version changed. */
  function SettingsOf(live: Live): World {
    map path | path in live.settings && live.settings[path].Plain? :: live.settings[path].identity
  }

  function SettingItem(setting: Setting): T.Item {
    T.Item(setting.logicalPath, None, Some(Identity(setting.size, setting.sha256, RESTORED_MODE)),
           setting.logicalPath, {}, false)
  }

  /** Each kept setting is as it was or as it will be. */
  ghost predicate SettingsHalfWay(env: Environment, world: Live, snapshot: Snapshot, resolutions: seq<Resolution>,
                                  plan: Plan, later: Live) {
    && Unblocked(env, world, snapshot, resolutions, plan)
    && (forall setting :: setting in plan.settings ==>
          || At(later.settings, setting.logicalPath) == At(world.settings, setting.logicalPath)
          || At(later.settings, setting.logicalPath) == AfterSetting(setting, At(world.settings, setting.logicalPath)))
    && (forall path :: !HasSetting(plan, path) ==> At(later.settings, path) == At(world.settings, path))
  }

  ghost predicate NoSettingShows(plan: Plan, later: Live) {
    forall k :: 0 <= k < |plan.settings| && plan.settings[k].operation.Create? ==>
      !T.ShowsMutation(SettingItem(plan.settings[k]), SettingsOf(later))
  }

  ghost predicate SettingsQuiet(env: Environment, later: Live, snapshot: Snapshot, resolutions: seq<Resolution>) {
    forall setting :: PlannedSetting(env, later, snapshot, resolutions, setting) ==> setting.operation.Unchanged?
  }

  lemma SettingShows(env: Environment, world: Live, snapshot: Snapshot, resolutions: seq<Resolution>,
                     plan: Plan, later: Live, i: nat)
    requires SettingsHalfWay(env, world, snapshot, resolutions, plan, later) && i < |snapshot.files|
    requires env.mapping(snapshot.files[i].logicalPath).Restored?
    requires KeptAside(env, resolutions, snapshot.files[i].logicalPath)
    ensures var setting := SettingAction(env, world, snapshot.files[i]);
            && setting in plan.settings && !setting.operation.Blocked?
            && (SettingAction(env, later, snapshot.files[i]).operation.Unchanged? <==>
                setting.operation.Unchanged? || !T.ShowsMutation(SettingItem(setting), SettingsOf(later)))
  {
    var setting := SettingAction(env, world, snapshot.files[i]);
    assert WantsSetting(env, world, resolutions, snapshot.files[i], setting);
    assert PlannedSetting(env, world, snapshot, resolutions, setting);
    assert setting in plan.settings && !setting.operation.Blocked?;
  }

  /** Half way, no kept setting shows exactly when planning finds nothing to do with them. */
  lemma SettingsQuietExactly(env: Environment, world: Live, snapshot: Snapshot, resolutions: seq<Resolution>,
                             plan: Plan, later: Live)
    requires SettingsHalfWay(env, world, snapshot, resolutions, plan, later)
    ensures NoSettingShows(plan, later) <==> SettingsQuiet(env, later, snapshot, resolutions)
  {
    if NoSettingShows(plan, later) {
      forall setting | PlannedSetting(env, later, snapshot, resolutions, setting) ensures setting.operation.Unchanged? {
        var i :| 0 <= i < |snapshot.files| && WantsSetting(env, later, resolutions, snapshot.files[i], setting);
        SettingShows(env, world, snapshot, resolutions, plan, later, i);
        var first := SettingAction(env, world, snapshot.files[i]);
        var k :| 0 <= k < |plan.settings| && plan.settings[k] == first;
      }
    }
    if SettingsQuiet(env, later, snapshot, resolutions) {
      forall k | 0 <= k < |plan.settings| && plan.settings[k].operation.Create?
        ensures !T.ShowsMutation(SettingItem(plan.settings[k]), SettingsOf(later))
      {
        var setting := plan.settings[k];
        assert setting in plan.settings && PlannedSetting(env, world, snapshot, resolutions, setting);
        var i :| 0 <= i < |snapshot.files| && WantsSetting(env, world, resolutions, snapshot.files[i], setting);
        SettingShows(env, world, snapshot, resolutions, plan, later, i);
        var next := SettingAction(env, later, snapshot.files[i]);
        assert WantsSetting(env, later, resolutions, snapshot.files[i], next);
        assert PlannedSetting(env, later, snapshot, resolutions, next);
      }
    }
  }

  lemma SettingIsPlanned(env: Environment, world: Live, snapshot: Snapshot, resolutions: seq<Resolution>,
                         plan: Plan, setting: Setting)
    requires IsPlan(env, world, snapshot, resolutions, plan)
    requires setting in plan.settings && setting.operation.Create?
    ensures var item := SettingItem(setting);
            && T.Mutates(item) && At(SettingsOf(world), item.path) == item.before
            && T.ShowsMutation(item, SettingsOf(world))
  {
    assert PlannedSetting(env, world, snapshot, resolutions, setting);
  }
}
