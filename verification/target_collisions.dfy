/** Which collisions the collision test of plan validation can ever find. */
module TargetCollisions {
  import opened Delimited
  import opened SlashPaths
  import opened LogicalPaths
  import opened TargetPaths
  import opened TargetPlan

  function Itself(place: Place): Place { place }

  datatype Zone = Files | Plugins | PreservedPlugins | Settings | Elsewhere

  /** The part of the tree a place lies in. */
  function ZoneOf(roots: Roots, place: Place): Zone {
    if roots.decky < place then (if place[|roots.decky|] == "plugins" then Plugins else Files)
    else if roots.steam < place then Files
    else if roots.state < place then
      (if place[|roots.state|] == "preserved" then PreservedPlugins
       else if place[|roots.state|] == "incompatible" then Settings else Elsewhere)
    else Elsewhere
  }

  lemma ZoneUnder(roots: Roots, base: Place, rest: seq<string>)
    requires ValidRoots(roots) && base in {roots.decky, roots.steam, roots.state} && rest != []
    ensures base == roots.decky ==> ZoneOf(roots, base + rest) == if rest[0] == "plugins" then Plugins else Files
    ensures base == roots.steam ==> ZoneOf(roots, base + rest) == Files
    ensures base == roots.state && rest[0] == "preserved" ==> ZoneOf(roots, base + rest) == PreservedPlugins
    ensures base == roots.state && rest[0] == "incompatible" ==> ZoneOf(roots, base + rest) == Settings
  {
  }

  lemma FileZone(rules: Rules, file: FileTarget)
    requires ValidRoots(rules.roots) && ValidFile(rules, file)
    ensures ZoneOf(rules.roots, file.target).Files? && AllPlain(Split(file.logical, '/'))
  {
    var roots, logical := rules.roots, file.logical;
    AcceptedIsPlain(logical, rules.maxLength, rules.normal);
    NamesArePlain();
    if Below(SETTINGS, logical) {
      FileZoneInto(roots, roots.decky, ["settings"], SETTINGS, logical);
    } else if Below(DATA, logical) {
      FileZoneInto(roots, roots.decky, ["data"], DATA, logical);
    } else if Below(THEMES, logical) {
      FileZoneInto(roots, roots.decky, ["themes"], THEMES, logical);
    } else if Below(LIBRARY, logical) {
      FileZoneInto(roots, roots.steam, ["appcache", "librarycache"], LIBRARY, logical);
    } else {
      UserdataZone(roots, logical);
    }
  }

  lemma UserdataZone(roots: Roots, logical: string)
    requires ValidRoots(roots) && AllPlain(Split(logical, '/')) && Below(USERDATA, logical)
    requires MapUserdata(roots.steam, Split(Remainder(USERDATA, logical), '/')).Mapped?
    ensures ZoneOf(roots, MapUserdata(roots.steam, Split(Remainder(USERDATA, logical), '/')).target).Files?
  {
    var parts := Split(Remainder(USERDATA, logical), '/');
    RemainderPlain(USERDATA, logical);
    MapUserdataBeneath(roots.steam, parts);
    var rest := ["userdata", parts[0], "config", "grid"] + parts[2..];
    assert MapUserdata(roots.steam, parts).target == roots.steam + rest;
    ZoneUnder(roots, roots.steam, rest);
  }

  lemma FileZoneInto(roots: Roots, base: Place, under: seq<string>, directory: string, logical: string)
    requires ValidRoots(roots) && AllPlain(Split(logical, '/')) && Below(directory, logical) && IsPlace(under)
    requires base in {roots.decky, roots.steam} && under != [] && under[0] != "plugins"
    ensures ZoneOf(roots, MapInto(Resolve(base, under), directory, logical).target).Files?
  {
    var parts := Split(Remainder(directory, logical), '/');
    MapIntoParts(base, under, directory, logical, parts);
    ZoneUnder(roots, base, under + parts);
  }

  lemma {:induction false} CollapseLast(segments: seq<string>, last: string, kept: seq<string>)
    requires Plain(last)
    ensures Collapse(segments + [last], true, kept) == Collapse(segments, true, kept) + [last]
    decreases |segments|
  {
    if segments == [] {
      assert segments + [last] == [last];
    } else {
      var rest := segments[1..];
      assert (segments + [last])[1..] == rest + [last];
      if segments[0] == "" || segments[0] == "." {
        CollapseLast(rest, last, kept);
      } else if segments[0] != ".." {
        CollapseLast(rest, last, kept + [segments[0]]);
      } else if kept != [] && kept[|kept| - 1] != ".." {
        CollapseLast(rest, last, kept[..|kept| - 1]);
      } else {
        CollapseLast(rest, last, kept);
      }
    }
  }

  lemma LastSegmentIsPlain(directory: string)
    requires Free(directory, '/') && AllPlain(Split("plugin/" + directory, '/'))
    ensures Plain(directory) && Split(directory, '/') == [directory]
  {
    assert "plugin/" + directory == "plugin" + ['/'] + directory;
    SplitAt("plugin", directory, '/');
    SplitSegment(directory, '/');
    assert Split("plugin/" + directory, '/')[|Split("plugin", '/')|] == directory;
  }

  lemma DirectoryIsPlain(rules: Rules, plugin: PluginTarget)
    requires ValidPlugin(rules, plugin)
    ensures Plain(plugin.directory) && Split(plugin.directory, '/') == [plugin.directory]
  {
    AcceptedIsPlain("plugin/" + plugin.directory, rules.maxLength, rules.normal);
    LastSegmentIsPlain(plugin.directory);
  }

  /** A plugin goes directly below the plugins directory, and is preserved under its own name. */
  predicate UnderItsName(roots: Roots, plugin: PluginTarget) {
    && plugin.target == roots.decky + ["plugins", plugin.directory]
    && ZoneOf(roots, plugin.target).Plugins? && ZoneOf(roots, plugin.preserve).PreservedPlugins?
    && plugin.preserve != [] && plugin.preserve[|plugin.preserve| - 1] == plugin.directory
  }

  lemma PluginZones(rules: Rules, plugin: PluginTarget)
    requires ValidRoots(rules.roots) && ValidPlugin(rules, plugin)
    ensures UnderItsName(rules.roots, plugin)
  {
    var roots, directory := rules.roots, plugin.directory;
    DirectoryIsPlain(rules, plugin);
    ResolvePlain(roots.decky, ["plugins"]);
    ResolvePlain(roots.decky + ["plugins"], [directory]);
    assert roots.decky + ["plugins"] + [directory] == roots.decky + ["plugins", directory];
    ZoneUnder(roots, roots.decky, ["plugins", directory]);
    PreserveZone(rules, plugin);
  }

  lemma PreserveZone(rules: Rules, plugin: PluginTarget)
    requires ValidRoots(rules.roots) && ValidPlugin(rules, plugin)
    requires Plain(plugin.directory) && Split(plugin.directory, '/') == [plugin.directory]
    ensures ZoneOf(rules.roots, plugin.preserve).PreservedPlugins?
    ensures plugin.preserve != [] && plugin.preserve[|plugin.preserve| - 1] == plugin.directory
  {
    var state, place := rules.roots.state, plugin.preserve;
    ResolvePlain(state, ["preserved"]);
    var front := state + ["preserved"] + Split(rules.snapshotId, '/');
    assert state + ["preserved"] + (Split(rules.snapshotId, '/') + [plugin.directory]) == front + [plugin.directory];
    CollapseLast(front, plugin.directory, []);
    BeneathZone(rules.roots, "preserved", place);
  }

  lemma BeneathZone(roots: Roots, name: string, place: Place)
    requires ValidRoots(roots) && name in {"preserved", "incompatible"} && roots.state + [name] < place
    ensures ZoneOf(roots, place) == if name == "preserved" then PreservedPlugins else Settings
  {
  }

  lemma SettingZone(rules: Rules, setting: FileTarget)
    requires ValidRoots(rules.roots) && ValidSetting(rules, setting)
    ensures ZoneOf(rules.roots, setting.target).Settings?
  {
    ResolvePlain(rules.roots.state, ["incompatible"]);
    BeneathZone(rules.roots, "incompatible", setting.target);
  }

  // ---------------------------------------------------------------- nothing collides across lists

  predicate InZones(roots: Roots, claims: seq<Claim>, zones: set<Zone>) {
    Each(claims, (c: Claim) => ZoneOf(roots, c.target) in zones)
  }

  lemma ZonesApart(roots: Roots, some: seq<Claim>, others: seq<Claim>, first: set<Zone>, second: set<Zone>)
    requires InZones(roots, some, first) && InZones(roots, others, second) && first !! second
    ensures Apart(some, others, Target)
  {
  }

  lemma FilesApart(rules: Rules, files: seq<FileTarget>)
    requires ValidRoots(rules.roots) && AllValid(files, f => ValidFile(rules, f)) && DistinctKeys(files, Logical)
    ensures Unique(Flatten(files, FileClaims), Target) && InZones(rules.roots, Flatten(files, FileClaims), {Files})
  {
    forall i | 0 <= i < |files| ensures InZones(rules.roots, FileClaims(files[i]), {Files}) {
      FileZone(rules, files[i]);
    }
    forall i, j | 0 <= i < j < |files| ensures Apart(FileClaims(files[j]), FileClaims(files[i]), Target) {
      FileZone(rules, files[i]);
      FileZone(rules, files[j]);
      assert Logical(files[i]) != Logical(files[j]);
      if files[i].target == files[j].target {
        MapTargetInjective(rules.roots, files[i].logical, files[j].logical);
      }
    }
    FlattenEach(files, FileClaims, (c: Claim) => ZoneOf(rules.roots, c.target) in {Files});
    FlattenUnique([], files, FileClaims, Target);
    assert [] + Flatten(files, FileClaims) == Flatten(files, FileClaims);
  }

  lemma TwoPluginsApart(roots: Roots, first: PluginTarget, second: PluginTarget)
    requires UnderItsName(roots, first) && UnderItsName(roots, second) && first.directory != second.directory
    ensures Apart(PluginClaims(first), PluginClaims(second), Target)
  {
    assert first.target[|roots.decky| + 1] != second.target[|roots.decky| + 1];
    assert first.preserve != second.preserve;
  }

  lemma OnePluginApart(rules: Rules, before: seq<Claim>, plugin: PluginTarget)
    requires ValidRoots(rules.roots) && ValidPlugin(rules, plugin) && InZones(rules.roots, before, {Files})
    ensures Unique(PluginClaims(plugin), Target)
    ensures InZones(rules.roots, PluginClaims(plugin), {Plugins, PreservedPlugins})
    ensures Apart(before, PluginClaims(plugin), Target)
  {
    PluginZones(rules, plugin);
    ZonesApart(rules.roots, before, PluginClaims(plugin), {Files}, {Plugins, PreservedPlugins});
  }

  lemma PluginsApart(rules: Rules, before: seq<Claim>, plugins: seq<PluginTarget>)
    requires ValidRoots(rules.roots) && AllValid(plugins, p => ValidPlugin(rules, p))
        && DistinctKeys(plugins, Directory)
    requires Unique(before, Target) && InZones(rules.roots, before, {Files})
    ensures Unique(before + Flatten(plugins, PluginClaims), Target)
    ensures InZones(rules.roots, Flatten(plugins, PluginClaims), {Plugins, PreservedPlugins})
  {
    var zones := {Plugins, PreservedPlugins};
    forall i | 0 <= i < |plugins|
      ensures Unique(PluginClaims(plugins[i]), Target) && InZones(rules.roots, PluginClaims(plugins[i]), zones)
      ensures Apart(before, PluginClaims(plugins[i]), Target)
    {
      OnePluginApart(rules, before, plugins[i]);
    }
    forall i, j | 0 <= i < j < |plugins| ensures Apart(PluginClaims(plugins[j]), PluginClaims(plugins[i]), Target) {
      assert Directory(plugins[i]) != Directory(plugins[j]);
      PluginZones(rules, plugins[i]);
      PluginZones(rules, plugins[j]);
      TwoPluginsApart(rules.roots, plugins[j], plugins[i]);
    }
    FlattenEach(plugins, PluginClaims, (c: Claim) => ZoneOf(rules.roots, c.target) in zones);
    FlattenUnique(before, plugins, PluginClaims, Target);
  }

  lemma SettingsInZone(rules: Rules, settings: seq<FileTarget>)
    requires ValidRoots(rules.roots) && AllValid(settings, s => ValidSetting(rules, s))
    ensures InZones(rules.roots, Flatten(settings, SettingClaims), {Settings})
  {
    forall i | 0 <= i < |settings| ensures InZones(rules.roots, SettingClaims(settings[i]), {Settings}) {
      SettingZone(rules, settings[i]);
    }
    FlattenEach(settings, SettingClaims, (c: Claim) => ZoneOf(rules.roots, c.target) in {Settings});
  }

  lemma UniqueIsNoCollision(claims: seq<Claim>)
    ensures Unique(claims, Target) <==> !Collide(Itself, claims)
  {
  }

  lemma UniqueParts(some: seq<Claim>, others: seq<Claim>)
    requires Unique(some, Target) && Apart(some, others, Target)
    ensures Unique(some + others, Target) <==> Unique(others, Target)
  {
    var all: seq<Claim> := some + others;
    if Unique(all, Target) {
      forall i, j | 0 <= i < j < |others| ensures Target(others[i]) != Target(others[j]) {
        assert all[|some| + i] == others[i] && all[|some| + j] == others[j];
      }
    }
  }

  /** Where names are compared as they are, files, plugins and preserved plugins of a well-formed
      plan never collide with anything: the test can only find two preserved settings in one place. */
  lemma OnlySettingsCollide(rules: Rules, plan: Plan)
    requires ValidRoots(rules.roots) && WellFormed(rules, plan)
    ensures Collide(Itself, Claims(plan)) <==> Collide(Itself, Flatten(plan.settings, SettingClaims))
  {
    var files, plugins := Flatten(plan.files, FileClaims), Flatten(plan.plugins, PluginClaims);
    var settings := Flatten(plan.settings, SettingClaims);
    FilesApart(rules, plan.files);
    PluginsApart(rules, files, plan.plugins);
    SettingsInZone(rules, plan.settings);
    assert InZones(rules.roots, files + plugins, {Files, Plugins, PreservedPlugins});
    ZonesApart(rules.roots, files + plugins, settings, {Files, Plugins, PreservedPlugins}, {Settings});
    UniqueParts(files + plugins, settings);
    UniqueIsNoCollision(Claims(plan));
    UniqueIsNoCollision(settings);
  }

  /** And not even those when their logical paths are the ones path validation accepts. */
  lemma NothingCollides(rules: Rules, plan: Plan)
    requires ValidRoots(rules.roots) && WellFormed(rules, plan)
    requires forall i :: 0 <= i < |plan.settings| ==> AllPlain(Split(plan.settings[i].logical, '/'))
    ensures !Collide(Itself, Claims(plan))
  {
    var settings := plan.settings;
    forall i, j | 0 <= i < j < |settings|
      ensures Apart(SettingClaims(settings[j]), SettingClaims(settings[i]), Target)
    {
      assert Logical(settings[i]) != Logical(settings[j]);
      if settings[i].target == settings[j].target {
        SettingInjective(rules, settings[i].logical, settings[j].logical);
      }
    }
    FlattenUnique([], settings, SettingClaims, Target);
    assert [] + Flatten(settings, SettingClaims) == Flatten(settings, SettingClaims);
    UniqueIsNoCollision(Flatten(settings, SettingClaims));
    OnlySettingsCollide(rules, plan);
  }

  lemma {:induction false} CollapsePlainTail(front: seq<string>, tail: seq<string>, kept: seq<string>)
    requires AllPlain(tail)
    ensures Collapse(front + tail, true, kept) == Collapse(front, true, kept) + tail
    decreases |tail|
  {
    if tail == [] {
      assert front + tail == front;
    } else {
      var most, last := tail[..|tail| - 1], tail[|tail| - 1];
      CollapsePlainTail(front, most, kept);
      CollapseLast(front + most, last, kept);
      assert front + tail == front + most + [last];
    }
  }

  lemma SettingInjective(rules: Rules, first: string, second: string)
    requires AllPlain(Split(first, '/')) && AllPlain(Split(second, '/'))
    requires IncompatiblePlace(rules.roots, rules.snapshotId, first)
             == IncompatiblePlace(rules.roots, rules.snapshotId, second)
    ensures first == second
  {
    var front := IncompatibleRoot(rules.roots) + Split(rules.snapshotId, '/');
    var base := Collapse(front, true, []);
    SettingTail(rules, first, front);
    SettingTail(rules, second, front);
    assert (base + Split(first, '/'))[|base|..] == Split(first, '/')
        && (base + Split(second, '/'))[|base|..] == Split(second, '/');
    SplitInjective(first, second, '/');
  }

  lemma SettingTail(rules: Rules, logical: string, front: seq<string>)
    requires AllPlain(Split(logical, '/')) && front == IncompatibleRoot(rules.roots) + Split(rules.snapshotId, '/')
    ensures IncompatiblePlace(rules.roots, rules.snapshotId, logical) == Collapse(front, true, []) + Split(logical, '/')
  {
    var root := IncompatibleRoot(rules.roots);
    assert root + (Split(rules.snapshotId, '/') + Split(logical, '/')) == front + Split(logical, '/');
    CollapsePlainTail(front, Split(logical, '/'), []);
  }
}
