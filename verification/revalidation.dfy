/** Checking that the world is still the approved one. */
module Revalidation {
  import opened Convergence
  import opened Fingerprints
  import opened Identities
  import opened PlanBuilding
  import opened Planning
  import opened Sequences

  /** Where everything a plan mentions is: the paths that go into the fingerprint beside the state. */
  datatype Targets = Targets(file: string -> string, plugin: string -> string, preserve: string -> string,
                             setting: string -> string, pluginOf: string -> string, loaderRoot: string, loader: string)

  function OperationName(operation: Operation): string {
    match operation
    case Create => "create"
    case Replace => "replace"
    case Remove => "remove"
    case Unchanged => "unchanged"
    case Blocked => "blocked"
  }

  function MethodName(means: Method): string {
    match means
    case NoMethod => ""
    case Unneeded => "none"
    case Filesystem => "filesystem"
    case DeckyLoader => "decky_loader_v3_2_6"
  }

  // ---------------------------------------------------------------- the loader guard

  /** What is recorded of the loader's settings file while Decky mutates plugins. */
  datatype Guard = Guard(existing: Option<Identity>)

  predicate DeckyMutates(plugins: seq<PluginAction>) {
    exists i :: 0 <= i < |plugins| && plugins[i].means.DeckyLoader? && Mutates(plugins[i].operation)
  }

  /** The guard needed; a settings file that cannot be guarded is not planned around here. */
  function GuardFor(plugins: seq<PluginAction>, loader: Option<Identity>): Option<Guard> {
    if DeckyMutates(plugins) then Some(Guard(loader)) else None
  }

  // ---------------------------------------------------------------- what is recorded

  function Existing(existing: Option<Identity>): Identity {
    if existing.Some? then existing.value else Identity(0, "", 0)
  }

  function FileRecordOf(targets: Targets, action: Action): Record {
    var existing := Existing(action.existing);
    FileRecord(action.logicalPath, targets.file(action.logicalPath), OperationName(action.operation),
               existing.size, existing.sha256, existing.mode)
  }

  function PluginRecordOf(targets: Targets, action: PluginAction): Record {
    var known := action.existing.Plugin?;
    PluginRecord([action.directory, targets.plugin(action.directory), targets.preserve(action.directory),
                  OperationName(action.operation), MethodName(action.means),
                  if known then action.existing.fingerprint else "",
                  if known && action.operation.Remove? then action.existing.name else "",
                  if known && action.operation.Remove? then action.existing.author else "",
                  if known then action.existing.version else ""],
                 if known then action.existing.files else 0, if known then action.existing.bytes else 0)
  }

  function SettingRecordOf(targets: Targets, setting: Setting): Record {
    SettingRecord(setting.logicalPath, targets.pluginOf(setting.logicalPath), targets.setting(setting.logicalPath),
                  OperationName(setting.operation), setting.size, setting.sha256)
  }

  function GuardRecordOf(targets: Targets, guard: Guard): Record {
    var existing := Existing(guard.existing);
    GuardRecord(targets.loaderRoot, targets.loader, if guard.existing.Some? then "restore" else "remove",
                existing.size, existing.sha256, existing.mode)
  }

  function FileRecords(targets: Targets, plan: Plan): seq<Record> {
    Map(plan.actions, action => FileRecordOf(targets, action))
  }

  function PluginRecords(targets: Targets, plan: Plan): seq<Record> {
    Map(plan.plugins, action => PluginRecordOf(targets, action))
  }

  function SettingRecords(targets: Targets, plan: Plan): seq<Record> {
    Map(plan.settings, setting => SettingRecordOf(targets, setting))
  }

  function RecordedOf(targets: Targets, plan: Plan, loader: Option<Identity>): Recorded {
    Recorded(FileRecords(targets, plan), PluginRecords(targets, plan), SettingRecords(targets, plan),
             match GuardFor(plan.plugins, loader)
             case Some(guard) => Some(GuardRecordOf(targets, guard))
             case None => None)
  }

  /** The fingerprint of a plan, as the text it is the hash of. */
  function FingerprintText(targets: Targets, plan: Plan, loader: Option<Identity>): string {
    TargetText(RecordedOf(targets, plan, loader))
  }

  /** Paths, operations and hashes hold no separator; a plugin's name, author and version may. */
  predicate Recordable(targets: Targets, plan: Plan, loader: Option<Identity>) {
    FrontsFree(Records(RecordedOf(targets, plan, loader)))
  }

  // ---------------------------------------------------------------- the check

  /** Rebuilds the plan for the world as it is now and compares fingerprints with the approved one. */
  method Revalidate(env: Environment, targets: Targets, world: Live, loader: Option<Identity>, current: Discovery,
                    snapshot: Snapshot, resolutions: seq<Resolution>, approved: string)
    returns (ok: bool)
    requires Consistent(env) && DistinctFiles(snapshot.files) && DistinctPlugins(resolutions)
        && Discovers(env, world, current)
    ensures ok ==> exists plan :: IsPlan(env, world, snapshot, resolutions, plan)
                                  && FingerprintText(targets, plan, loader) == approved
    ensures forall plan ::
      IsPlan(env, world, snapshot, resolutions, plan) && FingerprintText(targets, plan, loader) == approved ==> ok
  {
    var plan := BuildPlan(env, world, current, snapshot, resolutions);
    if plan.None? { return false; }
    forall other | IsPlan(env, world, snapshot, resolutions, other) ensures other == plan.value {
      PlanUnique(env, world, snapshot, resolutions, other, plan.value);
    }
    var text := FingerprintTargets(RecordedOf(targets, plan.value, loader));
    ok := text == approved;
  }

  // ---------------------------------------------------------------- soundness

  lemma RecordedIsSorted(targets: Targets, plan: Plan, loader: Option<Identity>)
    ensures Sorted(RecordedOf(targets, plan, loader))
  {
  }

  /** What is there at a path is what an action recorded. */
  predicate StillThere(world: Live, action: Action) {
    match action.operation
    case Create => action.logicalPath !in world.files
    case Replace | Unchanged | Remove =>
      && action.existing.Some? && action.logicalPath in world.files
      && world.files[action.logicalPath] == Plain(action.existing.value)
    case Blocked => true
  }

  /** The same tree: what `owned` adds is whose it is. */
  predicate SameTree(first: Plugin, second: Plugin) {
    && first.Plugin? && second.Plugin? && first.fingerprint == second.fingerprint
    && first.name == second.name && first.author == second.author && first.version == second.version
    && first.files == second.files && first.bytes == second.bytes
  }

  predicate PluginStillThere(world: Live, action: PluginAction) {
    match action.operation
    case Create => action.directory !in world.plugins
    case Replace | Unchanged | Remove =>
      action.directory in world.plugins && SameTree(world.plugins[action.directory], action.existing)
    case Blocked => true
  }

  predicate SettingStillThere(world: Live, setting: Setting) {
    match setting.operation
    case Create => setting.logicalPath !in world.settings
    case Unchanged =>
      && setting.logicalPath in world.settings && world.settings[setting.logicalPath].Plain?
      && world.settings[setting.logicalPath].identity.size == setting.size
      && world.settings[setting.logicalPath].identity.sha256 == setting.sha256
    case _ => true
  }

  /** Planned actions record what is there. */
  lemma PlannedIsThere(env: Environment, world: Live, snapshot: Snapshot, resolutions: seq<Resolution>, action: Action)
    requires Planned(env, world, snapshot, resolutions, action)
    ensures StillThere(world, action)
    ensures action.existing.Some? <==>
        action.operation.Replace? || action.operation.Unchanged? || action.operation.Remove?
  {
  }

  /** A plugin's action records what is there. */
  predicate RecordsPlugin(world: Live, action: PluginAction) {
    && PluginStillThere(world, action)
    && (action.existing == NOTHING_KNOWN
        || (action.existing.Plugin? && action.directory in world.plugins
            && world.plugins[action.directory] == action.existing))
  }

  lemma ResolvedIsThere(env: Environment, world: Live, resolution: Resolution)
    ensures RecordsPlugin(world, ResolvedAction(env, world, resolution))
  {
  }

  lemma ExtraIsThere(env: Environment, world: Live, directory: string)
    requires directory in world.plugins
    ensures RecordsPlugin(world, ExtraAction(env, world, directory))
  {
  }

  lemma PlannedPluginIsThere(env: Environment, world: Live, resolutions: seq<Resolution>, action: PluginAction)
    requires BoundPlugin(env, world, resolutions, action)
    ensures RecordsPlugin(world, action)
  {
    var planned :| PlannedPlugin(env, world, resolutions, planned) && action == Bound(env, planned);
    if i :| 0 <= i < |resolutions| && planned == ResolvedAction(env, world, resolutions[i]) {
      ResolvedIsThere(env, world, resolutions[i]);
    } else {
      ExtraIsThere(env, world, planned.directory);
    }
  }

  // ---------------------------------------------------------------- records give the plan's state back

  lemma SameFileRecord(targets: Targets, action: Action, present: Targets, other: Action)
    requires FileRecordOf(targets, action) == FileRecordOf(present, other)
    requires action.existing.Some? <==>
        action.operation.Replace? || action.operation.Unchanged? || action.operation.Remove?
    requires other.existing.Some? <==> other.operation.Replace? || other.operation.Unchanged? || other.operation.Remove?
    ensures SameFinding(action, other) && targets.file(action.logicalPath) == present.file(action.logicalPath)
  {
  }

  lemma SameSettingRecord(targets: Targets, setting: Setting, present: Targets, other: Setting)
    requires SettingRecordOf(targets, setting) == SettingRecordOf(present, other)
    ensures setting == other && SameSettingPlaces(targets, present, setting.logicalPath)
  {
  }

  // ---------------------------------------------------------------- trees give a plugin's record back

  /** The hash of a plugin's tree is never empty, and equal hashes come from equal trees, whose
      plugin.json and package.json give the name, the author and the version. */
  ghost predicate TreesTell(first: Live, second: Live) {
    && Fingerprinted(first) && Fingerprinted(second)
    && forall d, e :: d in first.plugins && e in second.plugins ==> TreeTells(first.plugins[d], second.plugins[e])
  }

  predicate Fingerprinted(live: Live) {
    forall d :: d in live.plugins && live.plugins[d].Plugin? ==> live.plugins[d].fingerprint != ""
  }

  predicate TreeTells(first: Plugin, second: Plugin) {
    first.Plugin? && second.Plugin? && first.fingerprint == second.fingerprint ==> SameTree(first, second)
  }

  /** Two actions that differ at most in whose the tree is that they found. */
  predicate SamePluginAction(first: PluginAction, second: PluginAction) {
    && first.directory == second.directory && first.operation == second.operation && first.means == second.means
    && (first.existing == second.existing || SameTree(first.existing, second.existing))
  }

  predicate SamePluginPlaces(targets: Targets, present: Targets, directory: string) {
    targets.plugin(directory) == present.plugin(directory) && targets.preserve(directory) == present.preserve(directory)
  }

  predicate SameSettingPlaces(targets: Targets, present: Targets, path: string) {
    targets.setting(path) == present.setting(path) && targets.pluginOf(path) == present.pluginOf(path)
  }

  lemma NamesTell(first: PluginAction, second: PluginAction)
    requires OperationName(first.operation) == OperationName(second.operation)
    requires MethodName(first.means) == MethodName(second.means)
    ensures first.operation == second.operation && first.means == second.means
  {
  }

  /** The front of the rows of two actions, in two worlds, makes them the same. */
  lemma FrontTellsAction(targets: Targets, planned: Live, action: PluginAction,
                         present: Targets, world: Live, other: PluginAction)
    requires RecordsPlugin(planned, action) && RecordsPlugin(world, other) && TreesTell(planned, world)
    requires PluginRecordOf(targets, action).texts[..FRONT_TEXTS] == PluginRecordOf(present, other).texts[..FRONT_TEXTS]
    ensures SamePluginAction(action, other) && SamePluginPlaces(targets, present, action.directory)
  {
    var one, two := PluginRecordOf(targets, action).texts, PluginRecordOf(present, other).texts;
    assert forall i :: 0 <= i < FRONT_TEXTS ==> one[..FRONT_TEXTS][i] == one[i] && two[..FRONT_TEXTS][i] == two[i];
    assert one[0] == two[0] && one[1] == two[1] && one[2] == two[2] && one[3] == two[3] && one[4] == two[4]
           && one[5] == two[5];
    NamesTell(action, other);
    if action.existing.Plugin? && other.existing.Plugin? { assert TreeTells(action.existing, other.existing); }
  }

  lemma SameActionSameRecord(targets: Targets, action: PluginAction, present: Targets, other: PluginAction)
    requires SamePluginAction(action, other) && SamePluginPlaces(targets, present, action.directory)
    ensures PluginRecordOf(targets, action) == PluginRecordOf(present, other)
  {
  }

  /** Besides, a row by itself gives back what it records of the plugin that is there. */
  lemma PluginRecordTells(targets: Targets, action: PluginAction, present: Targets, other: PluginAction)
    requires PluginRecordOf(targets, action) == PluginRecordOf(present, other)
    requires action.existing.Plugin? && other.existing.Plugin?
    ensures action.directory == other.directory && action.operation == other.operation && action.means == other.means
    ensures var one, two := action.existing, other.existing;
            && one.fingerprint == two.fingerprint && one.version == two.version
            && one.files == two.files && one.bytes == two.bytes
            && (action.operation.Remove? ==> one.name == two.name && one.author == two.author)
  {
    var one, two := PluginRecordOf(targets, action).texts, PluginRecordOf(present, other).texts;
    assert one[0] == two[0] && one[3] == two[3] && one[4] == two[4] && one[5] == two[5] && one[6] == two[6]
           && one[7] == two[7] && one[8] == two[8];
    NamesTell(action, other);
  }

  // ---------------------------------------------------------------- one planning and another

  /** One planning: the places, the world and the loader's settings it found, and the plan it made. */
  datatype Making = Making(targets: Targets, world: Live, loader: Option<Identity>, plan: Plan)

  ghost predicate Makes(env: Environment, snapshot: Snapshot, resolutions: seq<Resolution>, made: Making) {
    IsPlan(env, made.world, snapshot, resolutions, made.plan) && Recordable(made.targets, made.plan, made.loader)
  }

  function RecordedIn(made: Making): Recorded { RecordedOf(made.targets, made.plan, made.loader) }

  function TextOf(made: Making): string { FingerprintText(made.targets, made.plan, made.loader) }

  /** Two plannings of one snapshot, in worlds whose plugin trees are told apart by their hashes. */
  ghost predicate Comparable(env: Environment, snapshot: Snapshot, resolutions: seq<Resolution>,
                             made: Making, later: Making) {
    && Makes(env, snapshot, resolutions, made) && Makes(env, snapshot, resolutions, later)
    && TreesTell(made.world, later.world)
  }

  lemma ListedPluginIsThere(env: Environment, snapshot: Snapshot, resolutions: seq<Resolution>, made: Making, i: nat)
    requires Makes(env, snapshot, resolutions, made) && i < |made.plan.plugins|
    ensures RecordsPlugin(made.world, made.plan.plugins[i])
  {
    assert made.plan.plugins[i] in made.plan.plugins;
    PlannedPluginIsThere(env, made.world, resolutions, made.plan.plugins[i]);
  }

  lemma PluginsToldByFront(env: Environment, snapshot: Snapshot, resolutions: seq<Resolution>,
                           made: Making, later: Making)
    requires Comparable(env, snapshot, resolutions, made, later)
    ensures AllToldByFront(PluginRecords(made.targets, made.plan), PluginRecords(later.targets, later.plan))
  {
    var some, others := PluginRecords(made.targets, made.plan), PluginRecords(later.targets, later.plan);
    forall i, j | 0 <= i < |some| && 0 <= j < |others| ensures ToldByFront(some[i], others[j]) {
      var action, other := made.plan.plugins[i], later.plan.plugins[j];
      ListedPluginIsThere(env, snapshot, resolutions, made, i);
      ListedPluginIsThere(env, snapshot, resolutions, later, j);
      if some[i].texts[..FRONT_TEXTS] == others[j].texts[..FRONT_TEXTS] {
        FrontTellsAction(made.targets, made.world, action, later.targets, later.world, other);
        SameActionSameRecord(made.targets, action, later.targets, other);
      }
    }
  }

  /** Equal fingerprints come from equal records. */
  lemma SameTextSameRecords(env: Environment, snapshot: Snapshot, resolutions: seq<Resolution>,
                            made: Making, later: Making)
    requires Comparable(env, snapshot, resolutions, made, later) && TextOf(made) == TextOf(later)
    ensures RecordedIn(made) == RecordedIn(later)
  {
    RecordedIsSorted(made.targets, made.plan, made.loader);
    RecordedIsSorted(later.targets, later.plan, later.loader);
    PluginsToldByFront(env, snapshot, resolutions, made, later);
    TargetTextTold(RecordedIn(made), RecordedIn(later));
  }

  // ---------------------------------------------------------------- equal records come from equal findings

  predicate SameFinding(action: Action, other: Action) {
    action.logicalPath == other.logicalPath && action.operation == other.operation && action.existing == other.existing
  }

  /** Two plans that found the same and do the same about it. */
  predicate SameFindings(plan: Plan, current: Plan) {
    && |plan.actions| == |current.actions| && |plan.plugins| == |current.plugins| && plan.settings == current.settings
    && (forall i :: 0 <= i < |plan.actions| ==> SameFinding(plan.actions[i], current.actions[i]))
    && (forall i :: 0 <= i < |plan.plugins| ==> SamePluginAction(plan.plugins[i], current.plugins[i]))
  }

  /** Everything the plan is about is in the same places. */
  predicate SamePlaces(made: Making, later: Making) {
    && (forall i :: 0 <= i < |made.plan.actions| ==>
          var path := made.plan.actions[i].logicalPath; made.targets.file(path) == later.targets.file(path))
    && (forall i :: 0 <= i < |made.plan.plugins| ==>
          SamePluginPlaces(made.targets, later.targets, made.plan.plugins[i].directory))
    && (forall i :: 0 <= i < |made.plan.settings| ==>
          SameSettingPlaces(made.targets, later.targets, made.plan.settings[i].logicalPath))
  }

  /** The loader's settings file is the same, in the same place. */
  predicate SameLoader(made: Making, later: Making) {
    && made.loader == later.loader
    && made.targets.loaderRoot == later.targets.loaderRoot && made.targets.loader == later.targets.loader
  }

  lemma SameActions(env: Environment, snapshot: Snapshot, resolutions: seq<Resolution>, made: Making, later: Making)
    requires Makes(env, snapshot, resolutions, made) && Makes(env, snapshot, resolutions, later)
    requires FileRecords(made.targets, made.plan) == FileRecords(later.targets, later.plan)
    ensures |made.plan.actions| == |later.plan.actions|
    ensures forall i :: 0 <= i < |made.plan.actions| ==>
              SameFinding(made.plan.actions[i], later.plan.actions[i])
              && made.targets.file(made.plan.actions[i].logicalPath)
                 == later.targets.file(made.plan.actions[i].logicalPath)
  {
    var records, others := FileRecords(made.targets, made.plan), FileRecords(later.targets, later.plan);
    assert |made.plan.actions| == |records| == |others| == |later.plan.actions|;
    forall i | 0 <= i < |made.plan.actions|
      ensures SameFinding(made.plan.actions[i], later.plan.actions[i])
      ensures made.targets.file(made.plan.actions[i].logicalPath)
              == later.targets.file(made.plan.actions[i].logicalPath)
    {
      var action, other := made.plan.actions[i], later.plan.actions[i];
      assert records[i] == others[i];
      assert action in made.plan.actions && other in later.plan.actions;
      PlannedIsThere(env, made.world, snapshot, resolutions, action);
      PlannedIsThere(env, later.world, snapshot, resolutions, other);
      SameFileRecord(made.targets, action, later.targets, other);
    }
  }

  lemma SameSettings(made: Making, later: Making)
    requires SettingRecords(made.targets, made.plan) == SettingRecords(later.targets, later.plan)
    ensures made.plan.settings == later.plan.settings
    ensures forall i :: 0 <= i < |made.plan.settings| ==>
              SameSettingPlaces(made.targets, later.targets, made.plan.settings[i].logicalPath)
  {
    var records, others := SettingRecords(made.targets, made.plan), SettingRecords(later.targets, later.plan);
    assert |made.plan.settings| == |records| == |others| == |later.plan.settings|;
    forall i | 0 <= i < |made.plan.settings|
      ensures made.plan.settings[i] == later.plan.settings[i]
      ensures SameSettingPlaces(made.targets, later.targets, made.plan.settings[i].logicalPath)
    {
      assert records[i] == others[i];
      SameSettingRecord(made.targets, made.plan.settings[i], later.targets, later.plan.settings[i]);
    }
  }

  lemma SamePlugins(env: Environment, snapshot: Snapshot, resolutions: seq<Resolution>, made: Making, later: Making)
    requires Comparable(env, snapshot, resolutions, made, later)
    requires PluginRecords(made.targets, made.plan) == PluginRecords(later.targets, later.plan)
    ensures |made.plan.plugins| == |later.plan.plugins|
    ensures forall i :: 0 <= i < |made.plan.plugins| ==>
              SamePluginAction(made.plan.plugins[i], later.plan.plugins[i])
              && SamePluginPlaces(made.targets, later.targets, made.plan.plugins[i].directory)
  {
    var records, others := PluginRecords(made.targets, made.plan), PluginRecords(later.targets, later.plan);
    assert |made.plan.plugins| == |records| == |others| == |later.plan.plugins|;
    forall i | 0 <= i < |made.plan.plugins|
      ensures SamePluginAction(made.plan.plugins[i], later.plan.plugins[i])
      ensures SamePluginPlaces(made.targets, later.targets, made.plan.plugins[i].directory)
    {
      assert records[i] == others[i];
      ListedPluginIsThere(env, snapshot, resolutions, made, i);
      ListedPluginIsThere(env, snapshot, resolutions, later, i);
      FrontTellsAction(made.targets, made.world, made.plan.plugins[i],
                       later.targets, later.world, later.plan.plugins[i]);
    }
  }

  /** The loader's settings are recorded exactly if Decky mutates a plugin. */
  lemma GuardsAgree(made: Making, later: Making)
    requires DeckyMutates(made.plan.plugins) <==> DeckyMutates(later.plan.plugins)
    ensures RecordedIn(made).guard == RecordedIn(later).guard
            <==> (DeckyMutates(made.plan.plugins) ==> SameLoader(made, later))
  {
  }

  lemma SameMutations(plan: Plan, current: Plan)
    requires SameFindings(plan, current)
    ensures DeckyMutates(plan.plugins) <==> DeckyMutates(current.plugins)
  {
    forall i | 0 <= i < |plan.plugins| ensures SamePluginAction(plan.plugins[i], current.plugins[i]) {}
  }

  // ---------------------------------------------------------------- exactly what is accepted

  lemma SameFindingsSameText(made: Making, later: Making)
    requires SameFindings(made.plan, later.plan) && SamePlaces(made, later)
    requires DeckyMutates(made.plan.plugins) ==> SameLoader(made, later)
    ensures TextOf(made) == TextOf(later)
  {
    forall i | 0 <= i < |made.plan.plugins|
      ensures PluginRecords(made.targets, made.plan)[i] == PluginRecords(later.targets, later.plan)[i]
    {
      SameActionSameRecord(made.targets, made.plan.plugins[i], later.targets, later.plan.plugins[i]);
    }
    assert FileRecords(made.targets, made.plan) == FileRecords(later.targets, later.plan);
    assert PluginRecords(made.targets, made.plan) == PluginRecords(later.targets, later.plan);
    assert SettingRecords(made.targets, made.plan) == SettingRecords(later.targets, later.plan);
    SameMutations(made.plan, later.plan);
    GuardsAgree(made, later);
  }

  lemma SameTextSameFindings(env: Environment, snapshot: Snapshot, resolutions: seq<Resolution>,
                             made: Making, later: Making)
    requires Comparable(env, snapshot, resolutions, made, later) && TextOf(made) == TextOf(later)
    ensures SameFindings(made.plan, later.plan) && SamePlaces(made, later)
    ensures DeckyMutates(made.plan.plugins) ==> SameLoader(made, later)
  {
    SameTextSameRecords(env, snapshot, resolutions, made, later);
    SameActions(env, snapshot, resolutions, made, later);
    SameSettings(made, later);
    SamePlugins(env, snapshot, resolutions, made, later);
    SameMutations(made.plan, later.plan);
    GuardsAgree(made, later);
  }

  /** The check accepts a world if and only if planning finds there what it found when the plan was
      made, in the same places, does the same about it, and, if Decky is to mutate a plugin, finds the
      loader's settings unchanged; whatever a plugin's own metadata holds. Only whose a plugin's tree is
      does not matter, nor without such a mutation the loader. */
  lemma AcceptedExactly(env: Environment, snapshot: Snapshot, resolutions: seq<Resolution>,
                        made: Making, later: Making)
    requires Comparable(env, snapshot, resolutions, made, later)
    ensures TextOf(made) == TextOf(later) <==>
      && SameFindings(made.plan, later.plan) && SamePlaces(made, later)
      && (forall action :: action in made.plan.plugins && action.means.DeckyLoader? && Mutates(action.operation)
                           ==> SameLoader(made, later))
  {
    if TextOf(made) == TextOf(later) { SameTextSameFindings(env, snapshot, resolutions, made, later); }
    if SameFindings(made.plan, later.plan) && SamePlaces(made, later)
       && forall action :: action in made.plan.plugins && action.means.DeckyLoader? && Mutates(action.operation)
                           ==> SameLoader(made, later) {
      SameFindingsSameText(made, later);
    }
  }

  lemma AimIsWanted(env: Environment, world: Live, snapshot: Snapshot, resolutions: seq<Resolution>, action: Action)
    returns (i: nat)
    requires Planned(env, world, snapshot, resolutions, action) && !action.operation.Remove?
    ensures i < |snapshot.files| && snapshot.files[i].logicalPath == action.logicalPath
        && snapshot.files[i].size == action.size && snapshot.files[i].sha256 == action.sha256
  {
    i :| 0 <= i < |snapshot.files| && WantsAction(env, world, resolutions, snapshot.files[i], action);
  }

  lemma AimIsFound(env: Environment, world: Live, snapshot: Snapshot, resolutions: seq<Resolution>, action: Action)
    requires Planned(env, world, snapshot, resolutions, action) && action.operation.Remove?
    ensures action.existing.Some?
        && action.size == action.existing.value.size && action.sha256 == action.existing.value.sha256
  {
  }

  /** Plans made of one snapshot that names each file once have the same file actions if their findings
      are the same: no aim needs to be in the fingerprint. */
  lemma SameAims(env: Environment, snapshot: Snapshot, resolutions: seq<Resolution>, made: Making, later: Making)
    requires Makes(env, snapshot, resolutions, made) && Makes(env, snapshot, resolutions, later)
    requires DistinctFiles(snapshot.files) && SameFindings(made.plan, later.plan)
    ensures made.plan.actions == later.plan.actions
  {
    forall i | 0 <= i < |made.plan.actions| ensures made.plan.actions[i] == later.plan.actions[i] {
      var action, other := made.plan.actions[i], later.plan.actions[i];
      assert action in made.plan.actions && other in later.plan.actions && SameFinding(action, other);
      if action.operation.Remove? {
        AimIsFound(env, made.world, snapshot, resolutions, action);
        AimIsFound(env, later.world, snapshot, resolutions, other);
      } else {
        var j := AimIsWanted(env, made.world, snapshot, resolutions, action);
        var k := AimIsWanted(env, later.world, snapshot, resolutions, other);
        assert j == k;
      }
    }
  }

  /** A world in which planning finds what it found before is as the plan recorded it. */
  lemma FindingsAreThere(env: Environment, snapshot: Snapshot, resolutions: seq<Resolution>, plan: Plan,
                         world: Live, current: Plan)
    requires IsPlan(env, world, snapshot, resolutions, current) && SameFindings(plan, current)
    ensures forall action :: action in plan.actions ==> StillThere(world, action)
    ensures forall action :: action in plan.plugins ==> PluginStillThere(world, action)
    ensures forall setting :: setting in plan.settings ==> SettingStillThere(world, setting)
  {
    forall action | action in plan.actions ensures StillThere(world, action) {
      var i :| 0 <= i < |plan.actions| && plan.actions[i] == action;
      assert current.actions[i] in current.actions && SameFinding(action, current.actions[i]);
      PlannedIsThere(env, world, snapshot, resolutions, current.actions[i]);
    }
    forall action | action in plan.plugins ensures PluginStillThere(world, action) {
      var i :| 0 <= i < |plan.plugins| && plan.plugins[i] == action;
      assert current.plugins[i] in current.plugins && SamePluginAction(action, current.plugins[i]);
      PlannedPluginIsThere(env, world, resolutions, current.plugins[i]);
    }
    forall setting | setting in plan.settings ensures SettingStillThere(world, setting) {
      assert PlannedSetting(env, world, snapshot, resolutions, setting);
    }
  }

  /** So if it accepts in any world, everything the plan recorded as existing is there now: every file,
      every plugin, every kept setting, and, if Decky is to mutate a plugin, the loader's settings. */
  lemma AcceptedIsUnchanged(env: Environment, snapshot: Snapshot, resolutions: seq<Resolution>,
                            made: Making, later: Making)
    requires Comparable(env, snapshot, resolutions, made, later) && TextOf(made) == TextOf(later)
    ensures forall action :: action in made.plan.actions ==> StillThere(later.world, action)
    ensures forall action :: action in made.plan.plugins ==> PluginStillThere(later.world, action)
    ensures forall setting :: setting in made.plan.settings ==> SettingStillThere(later.world, setting)
    ensures forall action :: action in made.plan.plugins && action.means.DeckyLoader? && Mutates(action.operation)
                             ==> later.loader == made.loader
  {
    AcceptedExactly(env, snapshot, resolutions, made, later);
    FindingsAreThere(env, snapshot, resolutions, made.plan, later.world, later.plan);
  }
}
