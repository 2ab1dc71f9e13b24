/** What a restore plan is, and that it is unique. */
module Planning {
  import opened Identities
  import opened Sequences
  import opened Sorting

  // ---------------------------------------------------------------- the live world

  /** A regular file restore can read, or something else in its place. Files are known by their
      logical paths, which targets mirror one to one. */
  datatype FileState = Plain(identity: Identity) | Unsafe

  /** An identified plugin directory (`owned` when its whole tree is the user's), or anything else;
      `claimed` is the name that full metadata gives a directory whose tree is not in order. */
  datatype Plugin =
    | Plugin(name: string, author: string, version: string, fingerprint: string, files: nat, bytes: nat, owned: bool)
    | Unidentified(claimed: string)

  const NOTHING_KNOWN := Unidentified("")

  /** `settings` are the files kept beside plugins whose version changed, `kept` the plugin
      directories whose preservation path is taken. */
  datatype Live = Live(files: map<string, FileState>, settings: map<string, FileState>,
                         plugins: map<string, Plugin>, kept: set<string>)

  // ---------------------------------------------------------------- the snapshot

  datatype File = File(logicalPath: string, size: nat, sha256: string)

  datatype Snapshot = Snapshot(files: seq<File>, themes: seq<string>)

  /** The current stable plugin that stands for one of the snapshot. */
  datatype Resolution = Resolution(directory: string, snapshotVersion: string, resolved: bool, blocking: bool,
                                   name: string, author: string, version: string)

  // ---------------------------------------------------------------- what planning depends on besides

  datatype Mapping = Restored | NotRestored | Unsupported

  /** Everything that stays as it is between planning and planning again: how paths map, which
      targets cannot be written safely, what discovery makes of a file, what Decky allows, and whether
      its loader's settings can be guarded. */
  datatype Environment = Environment(
    mapping: string -> Mapping,
    sealed: string -> bool,
    settingSealed: string -> bool,
    settingPlugin: string -> Option<string>,
    captures: (string, Identity) -> bool,
    readableTheme: (nat, string) -> bool,
    isArtwork: string -> bool,
    safeDirectory: string -> bool,
    pluginSealed: string -> bool,
    pluginsWritable: bool,
    preserveWritable: string -> bool,
    deckyWorks: bool,
    guardable: bool)

  const THEME_ROOT := "css-loader/themes/"

  function ThemePrefix(directory: string): string { THEME_ROOT + directory + "/" }

  function ThemeFile(directory: string): string { ThemePrefix(directory) + "theme.json" }

  /** Theme and artwork paths are among those restored, and settings are neither. */
  ghost predicate Consistent(env: Environment) {
    && (forall path: string :: THEME_ROOT <= path || env.isArtwork(path) ==> env.mapping(path).Restored?)
    && (forall path: string :: THEME_ROOT <= path || env.isArtwork(path) ==> env.settingPlugin(path).None?)
  }

  // ---------------------------------------------------------------- discovery

  predicate Captured(env: Environment, world: Live, path: string) {
    path in world.files && world.files[path].Plain? && env.captures(path, world.files[path].identity)
  }

  predicate Excluded(env: Environment, world: Live, path: string) {
    path in world.files && !Captured(env, world, path)
  }

  /** A theme is a directory right below the root, listed when its theme.json can be read. */
  predicate Listed(env: Environment, world: Live, directory: string) {
    var path := ThemeFile(directory);
    '/' !in directory && path in world.files && world.files[path].Plain?
        && env.readableTheme(world.files[path].identity.size, world.files[path].identity.sha256)
  }

  predicate Artwork(env: Environment, world: Live, path: string) {
    Captured(env, world, path) && env.isArtwork(path)
  }

  // ---------------------------------------------------------------- files

  datatype Operation = Create | Replace | Remove | Unchanged | Blocked

  datatype Action = Action(logicalPath: string, operation: Operation, size: nat, sha256: string,
                           existing: Option<Identity>)

  predicate Mutates(operation: Operation) { operation.Create? || operation.Replace? || operation.Remove? }

  function ActionPath(action: Action): string { action.logicalPath }

  /** The action for one wanted file. Only content makes a file differ, not its mode. */
  function FileAction(env: Environment, world: Live, file: File): Action {
    var blank := Action(file.logicalPath, Blocked, file.size, file.sha256, None);
    if env.sealed(file.logicalPath) then blank
    else if file.logicalPath !in world.files then blank.(operation := Create)
    else match world.files[file.logicalPath]
      case Unsafe => blank
      case Plain(identity) =>
        blank.(operation := if identity.size == file.size && identity.sha256 == file.sha256 then Unchanged else Replace,
               existing := Some(identity))
  }

  predicate Desired(snapshot: Snapshot, path: string) {
    exists i :: 0 <= i < |snapshot.files| && snapshot.files[i].logicalPath == path
  }

  predicate ExtraTheme(env: Environment, world: Live, snapshot: Snapshot, directory: string) {
    Listed(env, world, directory) && directory !in snapshot.themes
  }

  /** Only files of whole extra themes and extra artwork are removed, and never a wanted one. */
  ghost predicate ToRemove(env: Environment, world: Live, snapshot: Snapshot, path: string) {
    && Captured(env, world, path) && !Desired(snapshot, path)
    && (Artwork(env, world, path)
        || exists directory :: ExtraTheme(env, world, snapshot, directory) && ThemePrefix(directory) <= path)
  }

  function RemovalAction(world: Live, path: string): Action
    requires path in world.files && world.files[path].Plain?
  {
    var identity := world.files[path].identity;
    Action(path, Remove, identity.size, identity.sha256, Some(identity))
  }

  /** An extra theme can be removed when nothing in it is excluded and something is captured. */
  ghost predicate Removable(env: Environment, world: Live, directory: string) {
    && (forall path :: Excluded(env, world, path) ==> !(ThemePrefix(directory) <= path))
    && (exists path :: Captured(env, world, path) && ThemePrefix(directory) <= path)
  }

  /** Convergence refuses to touch what it cannot remove whole and safely. */
  ghost predicate CanConverge(env: Environment, world: Live, snapshot: Snapshot) {
    && (forall directory :: ExtraTheme(env, world, snapshot, directory) ==> Removable(env, world, directory))
    && (forall path :: ToRemove(env, world, snapshot, path) ==> env.mapping(path).Restored? && !env.sealed(path))
  }

  predicate Supported(env: Environment, snapshot: Snapshot) {
    forall i :: 0 <= i < |snapshot.files| ==> !env.mapping(snapshot.files[i].logicalPath).Unsupported?
  }

  // ---------------------------------------------------------------- settings of changed plugins

  predicate VersionChanged(resolutions: seq<Resolution>, directory: string) {
    exists i :: 0 <= i < |resolutions| && resolutions[i].directory == directory && resolutions[i].resolved
                && resolutions[i].version != "" && resolutions[i].snapshotVersion != resolutions[i].version
  }

  /** Settings of a plugin whose version changed are kept aside instead of applied. */
  predicate KeptAside(env: Environment, resolutions: seq<Resolution>, path: string) {
    env.settingPlugin(path).Some? && VersionChanged(resolutions, env.settingPlugin(path).value)
  }

  datatype Setting = Setting(logicalPath: string, operation: Operation, size: nat, sha256: string)

  function SettingPath(setting: Setting): string { setting.logicalPath }

  function SettingAction(env: Environment, world: Live, file: File): Setting {
    var blank := Setting(file.logicalPath, Blocked, file.size, file.sha256);
    if env.settingSealed(file.logicalPath) then blank
    else if file.logicalPath !in world.settings then blank.(operation := Create)
    else match world.settings[file.logicalPath]
      case Unsafe => blank
      case Plain(identity) =>
        if identity.size == file.size && identity.sha256 == file.sha256 then blank.(operation := Unchanged) else blank
  }

  // ---------------------------------------------------------------- plugins

  /** How a plugin is mutated: not at all, by moving trees, or by asking Decky; blocked ones have none. */
  datatype Method = NoMethod | Unneeded | Filesystem | DeckyLoader

  datatype PluginAction = PluginAction(directory: string, operation: Operation, means: Method, existing: Plugin)

  function PluginPath(action: PluginAction): string { action.directory }

  /** How a mutation that needs the plugin directory is carried out, if at all. */
  function Carried(env: Environment, directory: string, operation: Operation, own: bool,
                   existing: Plugin): PluginAction {
    if own then PluginAction(directory, operation, Filesystem, existing)
    else if env.deckyWorks then PluginAction(directory, operation, DeckyLoader, existing)
    else PluginAction(directory, Blocked, NoMethod, existing)
  }

  /** The action for a plugin of the snapshot. */
  function ResolvedAction(env: Environment, world: Live, resolution: Resolution): PluginAction {
    var directory := resolution.directory;
    var blocked := PluginAction(directory, Blocked, NoMethod, NOTHING_KNOWN);
    if !env.safeDirectory(directory) || resolution.blocking || !resolution.resolved
        || env.pluginSealed(directory) then blocked
    else if directory !in world.plugins then
      if env.preserveWritable(directory) then Carried(env, directory, Create, env.pluginsWritable, NOTHING_KNOWN)
          else blocked
    else match world.plugins[directory]
      case Unidentified(_) => blocked
      case Plugin(name, author, version, _, _, _, owned) =>
        var existing := world.plugins[directory];
        if name != resolution.name || author != resolution.author then blocked.(existing := existing)
        else if version == resolution.version then PluginAction(directory, Unchanged, Unneeded, existing)
        else if !env.preserveWritable(directory) then blocked.(existing := existing)
        else if env.pluginsWritable && owned && directory in world.kept then blocked.(existing := existing)
        else Carried(env, directory, Replace, env.pluginsWritable && owned, existing)
  }

  predicate Resolved(resolutions: seq<Resolution>, directory: string) {
    exists i :: 0 <= i < |resolutions| && resolutions[i].directory == directory
  }

  /** The metadata of an extra plugin must name it, its author and its version. */
  predicate FullyNamed(plugin: Plugin) {
    plugin.Plugin? && plugin.name != "" && plugin.author != "" && plugin.version != ""
  }

  /** The display name a directory is counted under, whether or not its tree can be identified. */
  function DisplayName(plugin: Plugin): string {
    match plugin
    case Plugin(name, _, _, _, _, _, _) => if FullyNamed(plugin) then name else ""
    case Unidentified(claimed) => claimed
  }

  /** No other directory goes by the same display name. */
  predicate OnlyOneNamed(world: Live, directory: string)
    requires directory in world.plugins
  {
    forall other :: other in world.plugins && other != directory
      ==> DisplayName(world.plugins[other]) != DisplayName(world.plugins[directory])
  }

  /** The action for a live plugin the snapshot does not have. */
  function ExtraAction(env: Environment, world: Live, directory: string): PluginAction
    requires directory in world.plugins
  {
    var existing := world.plugins[directory];
    if env.safeDirectory(directory) && FullyNamed(existing) && OnlyOneNamed(world, directory) && env.deckyWorks
    then PluginAction(directory, Remove, DeckyLoader, existing)
    else PluginAction(directory, Blocked, NoMethod, NOTHING_KNOWN)
  }

  // ---------------------------------------------------------------- the plan

  datatype Plan = Plan(actions: seq<Action>, plugins: seq<PluginAction>, settings: seq<Setting>)

  ghost predicate Planned(env: Environment, world: Live, snapshot: Snapshot, resolutions: seq<Resolution>,
                          action: Action) {
    || (exists i :: 0 <= i < |snapshot.files| && WantsAction(env, world, resolutions, snapshot.files[i], action))
    || (ToRemove(env, world, snapshot, action.logicalPath) && action == RemovalAction(world, action.logicalPath))
  }

  predicate WantsAction(env: Environment, world: Live, resolutions: seq<Resolution>, file: File, action: Action) {
    && env.mapping(file.logicalPath).Restored? && !KeptAside(env, resolutions, file.logicalPath)
    && action == FileAction(env, world, file)
  }

  predicate WantsSetting(env: Environment, world: Live, resolutions: seq<Resolution>, file: File, setting: Setting) {
    && env.mapping(file.logicalPath).Restored? && KeptAside(env, resolutions, file.logicalPath)
    && setting == SettingAction(env, world, file)
  }

  ghost predicate PlannedSetting(env: Environment, world: Live, snapshot: Snapshot, resolutions: seq<Resolution>,
                                 setting: Setting) {
    exists i :: 0 <= i < |snapshot.files| && WantsSetting(env, world, resolutions, snapshot.files[i], setting)
  }

  ghost predicate PlannedPlugin(env: Environment, world: Live, resolutions: seq<Resolution>, action: PluginAction) {
    || (exists i :: 0 <= i < |resolutions| && action == ResolvedAction(env, world, resolutions[i]))
    || (action.directory in world.plugins && !Resolved(resolutions, action.directory)
        && action == ExtraAction(env, world, action.directory))
  }

  /** Decky may mutate a plugin only while its loader's settings can be recovered. */
  function Bound(env: Environment, action: PluginAction): PluginAction {
    if action.means.DeckyLoader? && Mutates(action.operation) && !env.guardable
    then action.(operation := Blocked, means := NoMethod)
    else action
  }

  ghost predicate BoundPlugin(env: Environment, world: Live, resolutions: seq<Resolution>, action: PluginAction) {
    exists planned :: PlannedPlugin(env, world, resolutions, planned) && action == Bound(env, planned)
  }

  /** Planning is possible at all. */
  ghost predicate Feasible(env: Environment, world: Live, snapshot: Snapshot) {
    Supported(env, snapshot) && CanConverge(env, world, snapshot)
  }

  /** A plan lists exactly what is called for, each list in the order of its keys. */
  ghost predicate IsPlan(env: Environment, world: Live, snapshot: Snapshot, resolutions: seq<Resolution>, plan: Plan) {
    && Feasible(env, world, snapshot)
    && SortedBy(plan.actions, ActionPath) && UniqueKeys(plan.actions, ActionPath)
    && (forall action :: action in plan.actions <==> Planned(env, world, snapshot, resolutions, action))
    && SortedBy(plan.settings, SettingPath) && UniqueKeys(plan.settings, SettingPath)
    && (forall setting :: setting in plan.settings <==> PlannedSetting(env, world, snapshot, resolutions, setting))
    && SortedBy(plan.plugins, PluginPath) && UniqueKeys(plan.plugins, PluginPath)
    && (forall action :: action in plan.plugins <==> BoundPlugin(env, world, resolutions, action))
  }

  predicate HasMutations(plan: Plan) {
    || (exists i :: 0 <= i < |plan.actions| && Mutates(plan.actions[i].operation))
    || (exists i :: 0 <= i < |plan.plugins| && Mutates(plan.plugins[i].operation))
    || (exists i :: 0 <= i < |plan.settings| && plan.settings[i].operation.Create?)
  }

  predicate Blocking(plan: Plan, resolutions: seq<Resolution>) {
    || (exists i :: 0 <= i < |plan.actions| && plan.actions[i].operation.Blocked?)
    || (exists i :: 0 <= i < |resolutions| && resolutions[i].blocking)
    || (exists i :: 0 <= i < |plan.plugins| && plan.plugins[i].operation.Blocked?)
    || (exists i :: 0 <= i < |plan.settings| && plan.settings[i].operation.Blocked?)
  }

  /** There is nothing for a plan to do. */
  predicate Settled(plan: Plan, resolutions: seq<Resolution>) { !HasMutations(plan) && !Blocking(plan, resolutions) }

  /** The same, said of the world: planning is possible, and all it would list is unchanged. */
  ghost predicate NothingToDo(env: Environment, world: Live, snapshot: Snapshot, resolutions: seq<Resolution>) {
    && Feasible(env, world, snapshot)
    && (forall action :: Planned(env, world, snapshot, resolutions, action) ==> action.operation.Unchanged?)
    && (forall setting :: PlannedSetting(env, world, snapshot, resolutions, setting) ==> setting.operation.Unchanged?)
    && (forall action :: PlannedPlugin(env, world, resolutions, action) ==> action.operation.Unchanged?)
    && (forall i :: 0 <= i < |resolutions| ==> !resolutions[i].blocking)
  }

  lemma SettledExactly(env: Environment, world: Live, snapshot: Snapshot, resolutions: seq<Resolution>, plan: Plan)
    requires IsPlan(env, world, snapshot, resolutions, plan)
    ensures Settled(plan, resolutions) <==> NothingToDo(env, world, snapshot, resolutions)
  {
    if Settled(plan, resolutions) {
      forall setting | PlannedSetting(env, world, snapshot, resolutions, setting) ensures setting.operation.Unchanged? {
        assert setting in plan.settings;
      }
      forall action | Planned(env, world, snapshot, resolutions, action) ensures action.operation.Unchanged? {
        assert action in plan.actions;
      }
      forall action | PlannedPlugin(env, world, resolutions, action) ensures action.operation.Unchanged? {
        assert BoundPlugin(env, world, resolutions, Bound(env, action));
        assert Bound(env, action) in plan.plugins;
      }
    }
    if NothingToDo(env, world, snapshot, resolutions) {
      assert forall i :: 0 <= i < |plan.actions| ==> Planned(env, world, snapshot, resolutions, plan.actions[i]);
      assert forall i :: 0 <= i < |plan.settings| ==>
          PlannedSetting(env, world, snapshot, resolutions, plan.settings[i]);
      assert forall i :: 0 <= i < |plan.plugins| ==> BoundPlugin(env, world, resolutions, plan.plugins[i]);
    }
  }

  predicate DistinctFiles(files: seq<File>) {
    forall i, j :: 0 <= i < j < |files| ==> files[i].logicalPath != files[j].logicalPath
  }

  predicate DistinctPlugins(resolutions: seq<Resolution>) {
    forall i, j :: 0 <= i < j < |resolutions| ==> resolutions[i].directory != resolutions[j].directory
  }

  // ---------------------------------------------------------------- plans are unique

  lemma SameElementsSameList<T>(some: seq<T>, others: seq<T>, key: T -> string)
    requires SortedBy(some, key) && SortedBy(others, key) && UniqueKeys(some, key) && UniqueKeys(others, key)
    requires forall x :: x in some <==> x in others
    ensures some == others
  {
    KeysMakeDistinct(some, key);
    KeysMakeDistinct(others, key);
    if |some| >= |others| { Pigeonhole(some, others); } else { Pigeonhole(others, some); }
    SortingUnique(some, others, key);
  }

  lemma KeysMakeDistinct<T>(items: seq<T>, key: T -> string)
    requires UniqueKeys(items, key)
    ensures Distinct(items)
  {
    forall i, j | 0 <= i < j < |items| ensures items[i] != items[j] {
      assert key(items[i]) != key(items[j]);
    }
  }

  /** One world has one plan, in whatever order its parts were found and however ties were sorted. */
  lemma PlanUnique(env: Environment, world: Live, snapshot: Snapshot, resolutions: seq<Resolution>,
                   first: Plan, second: Plan)
    requires IsPlan(env, world, snapshot, resolutions, first) && IsPlan(env, world, snapshot, resolutions, second)
    ensures first == second
  {
    SameElementsSameList(first.actions, second.actions, ActionPath);
    SameElementsSameList(first.settings, second.settings, SettingPath);
    SameElementsSameList(first.plugins, second.plugins, PluginPath);
  }
}
