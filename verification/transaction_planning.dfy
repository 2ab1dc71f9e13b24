/** The transaction of a plan, and what planning sees of it half done. */
module PlannedTransaction {
  import opened Identities
  import opened Planning
  import opened PlanningFixpoint
  import opened Sorting
  import opened PlannedFiles
  import opened PlannedPlugins
  import T = Transaction
  import TransactionExposure

  // ---------------------------------------------------------------- one world of three parts

  /** The targets of a restore: files, plugin directories and kept settings, each under a letter. */
  datatype Part = Files | Plugins | Settings

  function Letter(part: Part): char { if part.Files? then 'f' else if part.Plugins? then 'p' else 's' }

  function Target(part: Part, path: string): string { [Letter(part)] + path }

  function PartOf(part: Part, live: Live): World {
    match part
    case Files => FilesOf(live)
    case Plugins => PluginsOf(live)
    case Settings => SettingsOf(live)
  }

  function Targets(part: Part, world: World): World {
    map target | target in (set path | path in world :: Target(part, path)) :: world[target[1..]]
  }

  function WorldOf(live: Live): World {
    Targets(Files, FilesOf(live)) + Targets(Plugins, PluginsOf(live)) + Targets(Settings, SettingsOf(live))
  }

  lemma TargetAt(part: Part, world: World, target: string)
    ensures At(Targets(part, world), target)
            == if target != "" && target[0] == Letter(part) then At(world, target[1..]) else None
  {
    if target != "" && target[0] == Letter(part) { assert target == Target(part, target[1..]); }
  }

  lemma WorldAt(live: Live, part: Part, path: string)
    ensures At(WorldOf(live), Target(part, path)) == At(PartOf(part, live), path)
  {
    var target := Target(part, path);
    assert target[0] == Letter(part) && target[1..] == path;
    TargetAt(Files, FilesOf(live), target);
    TargetAt(Plugins, PluginsOf(live), target);
    TargetAt(Settings, SettingsOf(live), target);
  }

  function Tagged(part: Part, item: T.Item): T.Item {
    item.(path := Target(part, item.path), evidence := Target(part, item.evidence))
  }

  lemma TaggedShows(live: Live, part: Part, item: T.Item)
    ensures T.ShowsMutation(Tagged(part, item), WorldOf(live)) <==> T.ShowsMutation(item, PartOf(part, live))
    ensures At(WorldOf(live), Tagged(part, item).path) == At(PartOf(part, live), item.path)
  {
    WorldAt(live, part, item.path);
    WorldAt(live, part, item.evidence);
  }

  // ---------------------------------------------------------------- from a plan to a transaction

  /** The items of those actions that are picked, in order. */
  ghost function Picked<A(!new)>(part: Part, actions: seq<A>, picks: A -> bool,
                          itemOf: A -> T.Item): (items: seq<T.Item>)
    ensures forall item :: item in items <==>
      exists k :: 0 <= k < |actions| && picks(actions[k]) && item == Tagged(part, itemOf(actions[k]))
  {
    if actions == [] then []
    else
      var front, last := Picked(part, actions[..|actions| - 1], picks, itemOf), actions[|actions| - 1];
      if picks(last) then front + [Tagged(part, itemOf(last))] else front
  }

  predicate OwnPaths(items: seq<T.Item>) { forall i, j :: 0 <= i < j < |items| ==> items[i].path != items[j].path }

  lemma {:induction false} PickedDistinct<A(!new)>(part: Part, actions: seq<A>, picks: A -> bool, itemOf: A -> T.Item,
                                                   key: A -> string)
    requires UniqueKeys(actions, key) && forall a :: itemOf(a).path == key(a)
    ensures OwnPaths(Picked(part, actions, picks, itemOf))
  {
    if actions != [] {
      var front, last := actions[..|actions| - 1], actions[|actions| - 1];
      var items := Picked(part, front, picks, itemOf);
      PickedDistinct(part, front, picks, itemOf, key);
      forall i | 0 <= i < |items| ensures items[i].path != Target(part, key(last)) {
        assert items[i] in items;
        var k :| 0 <= k < |front| && picks(front[k]) && items[i] == Tagged(part, itemOf(front[k]));
        assert key(actions[k]) != key(actions[|actions| - 1]);
        assert items[i].path[1..] == key(front[k]) && Target(part, key(last))[1..] == key(last);
      }
      assert OwnPaths(items + [Tagged(part, itemOf(last))]);
    }
  }

  ghost function FileItems(env: Environment, world: Live, snapshot: Snapshot, plan: Plan): seq<T.Item> {
    Picked(Files, plan.actions, (a: Action) => Mutates(a.operation), a => ItemOf(env, world, snapshot, a))
  }

  ghost function PluginItems(resolutions: seq<Resolution>, plan: Plan): seq<T.Item> {
    Picked(Plugins, plan.plugins, (a: PluginAction) => Mutates(a.operation), a => PluginItem(resolutions, a))
  }

  ghost function SettingItems(plan: Plan): seq<T.Item> {
    Picked(Settings, plan.settings, (a: Setting) => a.operation.Create?, a => SettingItem(a))
  }

  /** Everything a plan mutates: plugins first, then files and kept settings. */
  ghost function TransactionOf(env: Environment, world: Live, snapshot: Snapshot, resolutions: seq<Resolution>,
                               plan: Plan): T.Plan {
    T.Plan(PluginItems(resolutions, plan), FileItems(env, world, snapshot, plan) + SettingItems(plan))
  }

  /** Each target of the plan is as it was or as it will be, or as Decky likes. */
  ghost predicate HalfDone(env: Environment, world: Live, snapshot: Snapshot, resolutions: seq<Resolution>,
                           plan: Plan, later: Live) {
    && HalfWay(env, world, snapshot, resolutions, plan, later)
    && PluginsHalfWay(env, world, snapshot, resolutions, plan, later)
    && SettingsHalfWay(env, world, snapshot, resolutions, plan, later)
  }

  // ---------------------------------------------------------------- looking converged

  ghost predicate NoneShows(items: seq<T.Item>, later: Live) {
    forall item :: item in items ==> !T.ShowsMutation(item, WorldOf(later))
  }

  lemma PickedShow<A(!new)>(part: Part, actions: seq<A>, picks: A -> bool, itemOf: A -> T.Item, later: Live)
    ensures NoneShows(Picked(part, actions, picks, itemOf), later) <==>
      forall k :: 0 <= k < |actions| && picks(actions[k]) ==> !T.ShowsMutation(itemOf(actions[k]), PartOf(part, later))
  {
    forall k | 0 <= k < |actions| && picks(actions[k])
      ensures Tagged(part, itemOf(actions[k])) in Picked(part, actions, picks, itemOf)
      ensures T.ShowsMutation(Tagged(part, itemOf(actions[k])), WorldOf(later))
              <==> T.ShowsMutation(itemOf(actions[k]), PartOf(part, later))
    {
      TaggedShows(later, part, itemOf(actions[k]));
    }
  }

  lemma ConvergedByParts(env: Environment, world: Live, snapshot: Snapshot, resolutions: seq<Resolution>, plan: Plan,
                         later: Live)
    ensures T.LooksConverged(TransactionOf(env, world, snapshot, resolutions, plan), WorldOf(later)) <==>
      && NoneShows(FileItems(env, world, snapshot, plan), later)
      && NoneShows(PluginItems(resolutions, plan), later) && NoneShows(SettingItems(plan), later)
  {
    var transaction := TransactionOf(env, world, snapshot, resolutions, plan);
    var items := T.Items(transaction);
    assert items == PluginItems(resolutions, plan) + (FileItems(env, world, snapshot, plan) + SettingItems(plan));
    assert NoneShows(items, later) ==> forall k :: 0 <= k < |items| ==> items[k] in items;
    if T.LooksConverged(transaction, WorldOf(later)) {
      forall item | item in items ensures !T.ShowsMutation(item, WorldOf(later)) {
        var k :| 0 <= k < |items| && items[k] == item;
      }
    }
  }

  lemma FilesShow(env: Environment, world: Live, snapshot: Snapshot, plan: Plan, later: Live)
    ensures NoneShows(FileItems(env, world, snapshot, plan), later) <==> NothingShows(env, world, snapshot, plan, later)
  {
    PickedShow(Files, plan.actions, (a: Action) => Mutates(a.operation), a => ItemOf(env, world, snapshot, a), later);
  }

  lemma PluginsShow(resolutions: seq<Resolution>, plan: Plan, later: Live)
    ensures NoneShows(PluginItems(resolutions, plan), later) <==> NoPluginShows(resolutions, plan, later)
  {
    PickedShow(Plugins, plan.plugins, (a: PluginAction) => Mutates(a.operation), a => PluginItem(resolutions, a),
        later);
  }

  lemma SettingsShow(plan: Plan, later: Live)
    ensures NoneShows(SettingItems(plan), later) <==> NoSettingShows(plan, later)
  {
    PickedShow(Settings, plan.settings, (a: Setting) => a.operation.Create?, a => SettingItem(a), later);
  }

  /** Half done, in whatever of its parts, a restore looks converged exactly when planning, and so the
      check after a reboot, finds nothing to do. */
  lemma LooksConvergedExactly(env: Environment, world: Live, snapshot: Snapshot, resolutions: seq<Resolution>,
                              plan: Plan, later: Live)
    requires HalfDone(env, world, snapshot, resolutions, plan, later) && ListsItsThemes(env, snapshot)
    ensures T.LooksConverged(TransactionOf(env, world, snapshot, resolutions, plan), WorldOf(later))
            <==> NothingToDo(env, later, snapshot, resolutions)
  {
    ConvergedByParts(env, world, snapshot, resolutions, plan, later);
    FilesShow(env, world, snapshot, plan, later);
    PluginsShow(resolutions, plan, later);
    SettingsShow(plan, later);
    FilesQuietExactly(env, world, snapshot, resolutions, plan, later);
    PluginsQuietExactly(env, world, snapshot, resolutions, plan, later);
    SettingsQuietExactly(env, world, snapshot, resolutions, plan, later);
  }

  // ---------------------------------------------------------------- a planned transaction

  /** What makes an item one of a plan made for this world. */
  ghost predicate PlannedItem(item: T.Item, world: World) {
    && T.Mutates(item) && (item.throughDecky ==> item.silent == {})
    && At(world, item.path) == item.before && T.ShowsMutation(item, world)
  }

  lemma PickedArePlanned<A(!new)>(part: Part, actions: seq<A>, picks: A -> bool, itemOf: A -> T.Item, live: Live)
    requires forall k :: 0 <= k < |actions| && picks(actions[k]) ==> PlannedItem(itemOf(actions[k]), PartOf(part, live))
    ensures forall item :: item in Picked(part, actions, picks, itemOf) ==> PlannedItem(item, WorldOf(live))
  {
    forall item | item in Picked(part, actions, picks, itemOf) ensures PlannedItem(item, WorldOf(live)) {
      var k :| 0 <= k < |actions| && picks(actions[k]) && item == Tagged(part, itemOf(actions[k]));
      TaggedShows(live, part, itemOf(actions[k]));
    }
  }

  lemma FilesArePlanned(env: Environment, world: Live, snapshot: Snapshot, resolutions: seq<Resolution>, plan: Plan)
    requires IsPlan(env, world, snapshot, resolutions, plan) && DistinctPlugins(resolutions)
    ensures forall item :: item in FileItems(env, world, snapshot, plan) ==> PlannedItem(item, WorldOf(world))
    ensures OwnPaths(FileItems(env, world, snapshot, plan))
  {
    forall k | 0 <= k < |plan.actions| && Mutates(plan.actions[k].operation)
      ensures PlannedItem(ItemOf(env, world, snapshot, plan.actions[k]), FilesOf(world))
    {
      assert plan.actions[k] in plan.actions;
      ActionIsPlanned(env, world, snapshot, resolutions, plan.actions[k]);
    }
    PickedArePlanned(Files, plan.actions, (a: Action) => Mutates(a.operation), a => ItemOf(env, world, snapshot, a),
                     world);
    PickedDistinct(Files, plan.actions, (a: Action) => Mutates(a.operation), a => ItemOf(env, world, snapshot, a),
                   ActionPath);
  }

  lemma PluginsArePlanned(env: Environment, world: Live, snapshot: Snapshot, resolutions: seq<Resolution>, plan: Plan)
    requires IsPlan(env, world, snapshot, resolutions, plan) && DistinctPlugins(resolutions)
    ensures forall item :: item in PluginItems(resolutions, plan) ==> PlannedItem(item, WorldOf(world))
    ensures OwnPaths(PluginItems(resolutions, plan))
  {
    forall k | 0 <= k < |plan.plugins| && Mutates(plan.plugins[k].operation)
      ensures PlannedItem(PluginItem(resolutions, plan.plugins[k]), PluginsOf(world))
    {
      assert plan.plugins[k] in plan.plugins;
      PluginIsPlanned(env, world, snapshot, resolutions, plan, plan.plugins[k]);
    }
    PickedArePlanned(Plugins, plan.plugins, (a: PluginAction) => Mutates(a.operation), a => PluginItem(resolutions, a),
                     world);
    PickedDistinct(Plugins, plan.plugins, (a: PluginAction) => Mutates(a.operation), a => PluginItem(resolutions, a),
                   PluginPath);
  }

  lemma SettingsArePlanned(env: Environment, world: Live, snapshot: Snapshot, resolutions: seq<Resolution>, plan: Plan)
    requires IsPlan(env, world, snapshot, resolutions, plan) && DistinctPlugins(resolutions)
    ensures forall item :: item in SettingItems(plan) ==> PlannedItem(item, WorldOf(world))
    ensures OwnPaths(SettingItems(plan))
  {
    forall k | 0 <= k < |plan.settings| && plan.settings[k].operation.Create?
      ensures PlannedItem(SettingItem(plan.settings[k]), SettingsOf(world))
    {
      assert plan.settings[k] in plan.settings;
      SettingIsPlanned(env, world, snapshot, resolutions, plan, plan.settings[k]);
    }
    PickedArePlanned(Settings, plan.settings, (a: Setting) => a.operation.Create?, a => SettingItem(a), world);
    PickedDistinct(Settings, plan.settings, (a: Setting) => a.operation.Create?, a => SettingItem(a), SettingPath);
  }

  lemma PartLetter<A(!new)>(part: Part, actions: seq<A>, picks: A -> bool, itemOf: A -> T.Item, item: T.Item)
    requires item in Picked(part, actions, picks, itemOf)
    ensures item.path != "" && item.path[0] == Letter(part)
  {
  }

  predicate OfPart(items: seq<T.Item>, part: Part) {
    forall i :: 0 <= i < |items| ==> items[i].path != "" && items[i].path[0] == Letter(part)
  }

  lemma PartsAreApart(env: Environment, world: Live, snapshot: Snapshot, resolutions: seq<Resolution>, plan: Plan)
    ensures OfPart(PluginItems(resolutions, plan), Plugins)
    ensures OfPart(FileItems(env, world, snapshot, plan), Files) && OfPart(SettingItems(plan), Settings)
  {
    var plugins, files, settings :=
      PluginItems(resolutions, plan), FileItems(env, world, snapshot, plan), SettingItems(plan);
    forall i | 0 <= i < |plugins| ensures plugins[i].path != "" && plugins[i].path[0] == 'p' {
      assert plugins[i] in plugins;
    }
    forall i | 0 <= i < |files| ensures files[i].path != "" && files[i].path[0] == 'f' { assert files[i] in files; }
    forall i | 0 <= i < |settings| ensures settings[i].path != "" && settings[i].path[0] == 's' {
      assert settings[i] in settings;
    }
  }

  lemma OwnPathsOfThree(plugins: seq<T.Item>, files: seq<T.Item>, settings: seq<T.Item>)
    requires OwnPaths(plugins) && OwnPaths(files) && OwnPaths(settings)
    requires OfPart(plugins, Plugins) && OfPart(files, Files) && OfPart(settings, Settings)
    ensures OwnPaths(plugins + (files + settings))
  {
    assert OwnPaths(files + settings);
  }

  lemma TransactionIsPlanned(env: Environment, world: Live, snapshot: Snapshot, resolutions: seq<Resolution>,
                             plan: Plan)
    requires IsPlan(env, world, snapshot, resolutions, plan) && DistinctPlugins(resolutions)
    ensures T.WellFormed(TransactionOf(env, world, snapshot, resolutions, plan))
    ensures T.PlannedFor(TransactionOf(env, world, snapshot, resolutions, plan), WorldOf(world))
  {
    var items := T.Items(TransactionOf(env, world, snapshot, resolutions, plan));
    FilesArePlanned(env, world, snapshot, resolutions, plan);
    PluginsArePlanned(env, world, snapshot, resolutions, plan);
    SettingsArePlanned(env, world, snapshot, resolutions, plan);
    PartsAreApart(env, world, snapshot, resolutions, plan);
    forall i | 0 <= i < |items| ensures PlannedItem(items[i], WorldOf(world)) { assert items[i] in items; }
    OwnPathsOfThree(PluginItems(resolutions, plan), FileItems(env, world, snapshot, plan), SettingItems(plan));
  }

  // ---------------------------------------------------------------- which plans are exposed

  lemma ItemIndex(env: Environment, world: Live, snapshot: Snapshot, resolutions: seq<Resolution>, plan: Plan,
                  item: T.Item) returns (i: nat)
    requires item in PluginItems(resolutions, plan) || item in FileItems(env, world, snapshot, plan)
             || item in SettingItems(plan)
    ensures i < |T.Items(TransactionOf(env, world, snapshot, resolutions, plan))|
    ensures T.Items(TransactionOf(env, world, snapshot, resolutions, plan))[i] == item
  {
    var items := T.Items(TransactionOf(env, world, snapshot, resolutions, plan));
    assert items == PluginItems(resolutions, plan) + (FileItems(env, world, snapshot, plan) + SettingItems(plan));
    assert item in items;
    i :| 0 <= i < |items| && items[i] == item;
  }

  lemma FileIndex(env: Environment, world: Live, snapshot: Snapshot, resolutions: seq<Resolution>, plan: Plan,
                  action: Action) returns (i: nat)
    requires action in plan.actions && Mutates(action.operation)
    ensures i < |T.Items(TransactionOf(env, world, snapshot, resolutions, plan))|
    ensures T.Items(TransactionOf(env, world, snapshot, resolutions, plan))[i]
            == Tagged(Files, ItemOf(env, world, snapshot, action))
  {
    var k :| 0 <= k < |plan.actions| && plan.actions[k] == action;
    i := ItemIndex(env, world, snapshot, resolutions, plan, Tagged(Files, ItemOf(env, world, snapshot, action)));
  }

  lemma OtherTarget(path: string, other: string)
    requires path != other
    ensures Target(Files, path) != Target(Files, other)
  {
    assert Target(Files, path)[1..] == path && Target(Files, other)[1..] == other;
  }

  /** A plan that installs a plugin through Decky is exposed. */
  lemma DeckyInstallIsExposed(env: Environment, world: Live, snapshot: Snapshot, resolutions: seq<Resolution>,
                              plan: Plan, action: PluginAction)
    requires IsPlan(env, world, snapshot, resolutions, plan) && DistinctPlugins(resolutions)
    requires action in plan.plugins && InstallsThroughDecky(action)
    ensures TransactionExposure.Exposed(TransactionOf(env, world, snapshot, resolutions, plan), WorldOf(world))
  {
    TransactionIsPlanned(env, world, snapshot, resolutions, plan);
    var k :| 0 <= k < |plan.plugins| && plan.plugins[k] == action;
    var i := ItemIndex(env, world, snapshot, resolutions, plan, Tagged(Plugins, PluginItem(resolutions, action)));
    TransactionExposure.ExposedByWhat(TransactionOf(env, world, snapshot, resolutions, plan), WorldOf(world));
  }

  predicate InstallsThroughDecky(action: PluginAction) {
    (action.operation.Create? || action.operation.Replace?) && action.means.DeckyLoader?
  }

  /** A file of an extra theme goes, and so does the theme's theme.json, or it becomes unreadable. */
  ghost predicate DropsATheme(env: Environment, world: Live, snapshot: Snapshot, directory: string, path: string) {
    && ExtraTheme(env, world, snapshot, directory) && ThemePrefix(directory) <= path
    && ToRemove(env, world, snapshot, path) && !Artwork(env, world, path) && path != ThemeFile(directory)
    && forall i :: 0 <= i < |snapshot.files| && snapshot.files[i].logicalPath == ThemeFile(directory)
         ==> !env.readableTheme(snapshot.files[i].size, snapshot.files[i].sha256)
  }

  /** The action that takes the theme.json away, or replaces it by one that cannot be read. */
  lemma ThemeFileIsDropped(env: Environment, world: Live, snapshot: Snapshot, resolutions: seq<Resolution>, plan: Plan,
                           directory: string, path: string) returns (action: Action)
    requires Unblocked(env, world, snapshot, resolutions, plan)
    requires DropsATheme(env, world, snapshot, directory, path)
    ensures action in plan.actions && Mutates(action.operation) && action.logicalPath == ThemeFile(directory)
    ensures !T.Tells(ItemOf(env, world, snapshot, RemovalAction(world, path)),
        ItemOf(env, world, snapshot, action).after)
  {
    var theme := ThemeFile(directory);
    EvidenceIsTheme(env, world, snapshot, path, directory);
    if Desired(snapshot, theme) {
      var i :| 0 <= i < |snapshot.files| && snapshot.files[i].logicalPath == theme;
      ThemeFilesAreRestored(env, resolutions, directory, theme);
      action := FileAction(env, world, snapshot.files[i]);
      assert WantsAction(env, world, resolutions, snapshot.files[i], action);
      assert Planned(env, world, snapshot, resolutions, action) && action in plan.actions;
      assert !action.operation.Blocked?;
    } else {
      ExtraThemeFileGoes(env, world, snapshot, directory);
      action := RemovalAction(world, theme);
      assert Planned(env, world, snapshot, resolutions, action);
    }
  }

  /** A removal whose theme.json goes, or is replaced by one that cannot be read, exposes the plan. */
  lemma RemovalLosesTheme(env: Environment, world: Live, snapshot: Snapshot, resolutions: seq<Resolution>, plan: Plan,
                          directory: string, path: string, theme: Action)
    requires IsPlan(env, world, snapshot, resolutions, plan) && DistinctPlugins(resolutions)
    requires ExtraTheme(env, world, snapshot, directory) && ToRemove(env, world, snapshot, path)
    requires ThemePrefix(directory) <= path && path != ThemeFile(directory) && !Artwork(env, world, path)
    requires theme in plan.actions && Mutates(theme.operation) && theme.logicalPath == ThemeFile(directory)
    requires !T.Tells(ItemOf(env, world, snapshot, RemovalAction(world, path)),
        ItemOf(env, world, snapshot, theme).after)
    ensures TransactionExposure.Exposed(TransactionOf(env, world, snapshot, resolutions, plan), WorldOf(world))
  {
    var transaction := TransactionOf(env, world, snapshot, resolutions, plan);
    TransactionIsPlanned(env, world, snapshot, resolutions, plan);
    var removal := RemovalAction(world, path);
    assert Planned(env, world, snapshot, resolutions, removal) && removal in plan.actions;
    EvidenceIsTheme(env, world, snapshot, path, directory);
    var k := FileIndex(env, world, snapshot, resolutions, plan, removal);
    var j := FileIndex(env, world, snapshot, resolutions, plan, theme);
    OtherTarget(path, ThemeFile(directory));
    assert TransactionExposure.LosesItsEvidence(transaction, k, j);
    TransactionExposure.ExposedByWhat(transaction, WorldOf(world));
  }

  lemma DroppedThemeIsExposed(env: Environment, world: Live, snapshot: Snapshot, resolutions: seq<Resolution>,
                              plan: Plan, directory: string, path: string)
    requires Unblocked(env, world, snapshot, resolutions, plan)
    requires DropsATheme(env, world, snapshot, directory, path)
    ensures TransactionExposure.Exposed(TransactionOf(env, world, snapshot, resolutions, plan), WorldOf(world))
  {
    var theme := ThemeFileIsDropped(env, world, snapshot, resolutions, plan, directory, path);
    RemovalLosesTheme(env, world, snapshot, resolutions, plan, directory, path, theme);
  }

  /** Which part an item is of. */
  lemma ItemIsOf(env: Environment, world: Live, snapshot: Snapshot, resolutions: seq<Resolution>, plan: Plan, i: nat)
    requires i < |T.Items(TransactionOf(env, world, snapshot, resolutions, plan))|
    ensures var item := T.Items(TransactionOf(env, world, snapshot, resolutions, plan))[i];
            || (exists k :: 0 <= k < |plan.plugins| && Mutates(plan.plugins[k].operation)
                  && item == Tagged(Plugins, PluginItem(resolutions, plan.plugins[k])))
            || (exists k :: 0 <= k < |plan.actions| && Mutates(plan.actions[k].operation)
                  && item == Tagged(Files, ItemOf(env, world, snapshot, plan.actions[k])))
            || (exists k :: 0 <= k < |plan.settings| && plan.settings[k].operation.Create?
                  && item == Tagged(Settings, SettingItem(plan.settings[k])))
  {
    var items := T.Items(TransactionOf(env, world, snapshot, resolutions, plan));
    assert items == PluginItems(resolutions, plan) + (FileItems(env, world, snapshot, plan) + SettingItems(plan));
    assert items[i] in PluginItems(resolutions, plan) || items[i] in FileItems(env, world, snapshot, plan)
           || items[i] in SettingItems(plan);
  }

  /** An action known by another path than its own is the removal of a file below a theme. */
  lemma KnownByATheme(env: Environment, world: Live, snapshot: Snapshot, resolutions: seq<Resolution>, removal: Action)
    returns (directory: string)
    requires Planned(env, world, snapshot, resolutions, removal) && Mutates(removal.operation)
    requires ItemOf(env, world, snapshot, removal).evidence != removal.logicalPath
    ensures removal.operation.Remove? && ToRemove(env, world, snapshot, removal.logicalPath)
    ensures ExtraTheme(env, world, snapshot, directory) && ThemePrefix(directory) <= removal.logicalPath
    ensures EvidenceOf(env, world, snapshot, removal.logicalPath) == ThemeFile(directory)
    ensures !Artwork(env, world, removal.logicalPath)
  {
    directory :| ExtraTheme(env, world, snapshot, directory) && ThemePrefix(directory) <= removal.logicalPath
                 && EvidenceOf(env, world, snapshot, removal.logicalPath) == ThemeFile(directory);
  }

  lemma ItemIsRemoval(env: Environment, world: Live, snapshot: Snapshot, resolutions: seq<Resolution>, plan: Plan,
                      k: nat) returns (removal: Action)
    requires k < |T.Items(TransactionOf(env, world, snapshot, resolutions, plan))|
    requires var item := T.Items(TransactionOf(env, world, snapshot, resolutions, plan))[k]; item.evidence != item.path
    ensures removal in plan.actions && Mutates(removal.operation)
    ensures ItemOf(env, world, snapshot, removal).evidence != removal.logicalPath
    ensures T.Items(TransactionOf(env, world, snapshot, resolutions, plan))[k]
            == Tagged(Files, ItemOf(env, world, snapshot, removal))
  {
    ItemIsOf(env, world, snapshot, resolutions, plan, k);
    var i :| 0 <= i < |plan.actions| && Mutates(plan.actions[i].operation)
             && T.Items(TransactionOf(env, world, snapshot, resolutions, plan))[k]
                == Tagged(Files, ItemOf(env, world, snapshot, plan.actions[i]));
    removal := plan.actions[i];
  }

  /** An item that loses its evidence is a file of a theme that is dropped. */
  lemma LosesATheme(env: Environment, world: Live, snapshot: Snapshot, resolutions: seq<Resolution>, plan: Plan,
                    k: nat, j: nat) returns (directory: string, path: string)
    requires Unblocked(env, world, snapshot, resolutions, plan)
    requires k < |T.Items(TransactionOf(env, world, snapshot, resolutions, plan))|
    requires j < |T.Items(TransactionOf(env, world, snapshot, resolutions, plan))|
    requires TransactionExposure.LosesItsEvidence(TransactionOf(env, world, snapshot, resolutions, plan), k, j)
    ensures DropsATheme(env, world, snapshot, directory, path)
  {
    var items := T.Items(TransactionOf(env, world, snapshot, resolutions, plan));
    TransactionIsPlanned(env, world, snapshot, resolutions, plan);
    assert items[k].evidence != items[k].path by {
      if k < j { assert items[k].path != items[j].path; } else { assert items[j].path != items[k].path; }
    }
    var removal := ItemIsRemoval(env, world, snapshot, resolutions, plan, k);
    path := removal.logicalPath;
    directory := KnownByATheme(env, world, snapshot, resolutions, removal);
    var theme := ItemAtTheme(env, world, snapshot, resolutions, plan, j, directory);
    ThemeBecomesSilent(env, world, snapshot, resolutions, plan, removal, theme, directory);
  }

  lemma ItemAtTheme(env: Environment, world: Live, snapshot: Snapshot, resolutions: seq<Resolution>, plan: Plan,
                    j: nat, directory: string) returns (action: Action)
    requires j < |T.Items(TransactionOf(env, world, snapshot, resolutions, plan))|
    requires T.Items(TransactionOf(env, world, snapshot, resolutions, plan))[j].path == Target(Files,
        ThemeFile(directory))
    ensures action in plan.actions && Mutates(action.operation) && action.logicalPath == ThemeFile(directory)
    ensures T.Items(TransactionOf(env, world, snapshot, resolutions, plan))[j]
            == Tagged(Files, ItemOf(env, world, snapshot, action))
  {
    var item := T.Items(TransactionOf(env, world, snapshot, resolutions, plan))[j];
    ItemIsOf(env, world, snapshot, resolutions, plan, j);
    assert item.path[0] == 'f';
    action :| action in plan.actions && Mutates(action.operation)
              && item == Tagged(Files, ItemOf(env, world, snapshot, action));
    assert item.path[1..] == action.logicalPath && Target(Files, ThemeFile(directory))[1..] == ThemeFile(directory);
  }

  lemma ThemeBecomesSilent(env: Environment, world: Live, snapshot: Snapshot, resolutions: seq<Resolution>, plan: Plan,
                           removal: Action, theme: Action, directory: string)
    requires Unblocked(env, world, snapshot, resolutions, plan)
    requires removal in plan.actions && removal.operation.Remove? && theme in plan.actions && Mutates(theme.operation)
    requires EvidenceOf(env, world, snapshot, removal.logicalPath) == theme.logicalPath == ThemeFile(directory)
    requires !T.Tells(ItemOf(env, world, snapshot, removal), ItemOf(env, world, snapshot, theme).after)
    ensures forall i :: 0 <= i < |snapshot.files| && snapshot.files[i].logicalPath == ThemeFile(directory)
              ==> !env.readableTheme(snapshot.files[i].size, snapshot.files[i].sha256)
  {
    assert Planned(env, world, snapshot, resolutions, theme);
    if theme.operation.Remove? {
      assert !Desired(snapshot, ThemeFile(directory));
    }
  }

  /** An item that Decky installs is a plugin of the plan. */
  lemma DeckyInstalls(env: Environment, world: Live, snapshot: Snapshot, resolutions: seq<Resolution>, plan: Plan,
                      k: nat)
    requires k < |T.Items(TransactionOf(env, world, snapshot, resolutions, plan))|
    requires var item := T.Items(TransactionOf(env, world, snapshot, resolutions, plan))[k];
             item.throughDecky && item.after.Some?
    ensures exists action :: action in plan.plugins && InstallsThroughDecky(action)
  {
    ItemIsOf(env, world, snapshot, resolutions, plan, k);
    var i :| 0 <= i < |plan.plugins| && Mutates(plan.plugins[i].operation)
             && T.Items(TransactionOf(env, world, snapshot, resolutions, plan))[k]
                == Tagged(Plugins, PluginItem(resolutions, plan.plugins[i]));
    assert plan.plugins[i] in plan.plugins && InstallsThroughDecky(plan.plugins[i]);
  }

  lemma ExposedBecause(env: Environment, world: Live, snapshot: Snapshot, resolutions: seq<Resolution>, plan: Plan)
    requires Unblocked(env, world, snapshot, resolutions, plan)
    requires TransactionExposure.Exposed(TransactionOf(env, world, snapshot, resolutions, plan), WorldOf(world))
    ensures || (exists action :: action in plan.plugins && InstallsThroughDecky(action))
            || (exists directory, path :: DropsATheme(env, world, snapshot, directory, path))
  {
    var transaction := TransactionOf(env, world, snapshot, resolutions, plan);
    TransactionIsPlanned(env, world, snapshot, resolutions, plan);
    TransactionExposure.ExposedByWhat(transaction, WorldOf(world));
    if k :| 0 <= k < |T.Items(transaction)| && T.Items(transaction)[k].throughDecky
            && T.Items(transaction)[k].after.Some? {
      DeckyInstalls(env, world, snapshot, resolutions, plan, k);
    } else {
      var k, j :| 0 <= k < |T.Items(transaction)| && 0 <= j < |T.Items(transaction)|
                  && TransactionExposure.LosesItsEvidence(transaction, k, j);
      var directory, path := LosesATheme(env, world, snapshot, resolutions, plan, k, j);
    }
  }

  /** Of all the plans that planning makes and that are not blocked, those are exposed that install a
      plugin through Decky, or drop an extra theme of more than its theme.json. */
  lemma PlansExposedExactly(env: Environment, world: Live, snapshot: Snapshot, resolutions: seq<Resolution>, plan: Plan)
    requires Unblocked(env, world, snapshot, resolutions, plan)
    ensures TransactionExposure.Exposed(TransactionOf(env, world, snapshot, resolutions, plan), WorldOf(world)) <==>
      || (exists action :: action in plan.plugins && InstallsThroughDecky(action))
      || (exists directory, path :: DropsATheme(env, world, snapshot, directory, path))
  {
    if action :| action in plan.plugins && InstallsThroughDecky(action) {
      DeckyInstallIsExposed(env, world, snapshot, resolutions, plan, action);
    } else if directory, path :| DropsATheme(env, world, snapshot, directory, path) {
      DroppedThemeIsExposed(env, world, snapshot, resolutions, plan, directory, path);
    } else if TransactionExposure.Exposed(TransactionOf(env, world, snapshot, resolutions, plan), WorldOf(world)) {
      ExposedBecause(env, world, snapshot, resolutions, plan);
    }
  }

  /** Blocked or not, such is every plan that removes an extra theme of more than its theme.json. */
  lemma ExtraThemeIsExposed(env: Environment, world: Live, snapshot: Snapshot, resolutions: seq<Resolution>, plan: Plan,
                            directory: string, path: string)
    requires IsPlan(env, world, snapshot, resolutions, plan) && DistinctPlugins(resolutions)
    requires ExtraTheme(env, world, snapshot, directory) && !Desired(snapshot, ThemeFile(directory))
    requires ToRemove(env, world, snapshot, path) && ThemePrefix(directory) <= path && !Artwork(env, world, path)
    requires path != ThemeFile(directory)
    ensures TransactionExposure.Exposed(TransactionOf(env, world, snapshot, resolutions, plan), WorldOf(world))
  {
    var theme := RemovalAction(world, ThemeFile(directory));
    ExtraThemeFileGoes(env, world, snapshot, directory);
    EvidenceIsTheme(env, world, snapshot, path, directory);
    assert Planned(env, world, snapshot, resolutions, theme);
    RemovalLosesTheme(env, world, snapshot, resolutions, plan, directory, path, theme);
  }
}
