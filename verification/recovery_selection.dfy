/** What is staged for a rollback, and that it suffices. */
module RecoverySelection {
  import opened Delimited
  import opened Identities
  import opened Rollback
  import opened Sequences
  import opened StagedRecovery

  /** Actions have paths of their own outside the recovery directory, plugins directories of their own. */
  predicate Separate(needs: Needs) {
    && (forall i, j :: 0 <= i < j < |needs.actions| ==> needs.actions[i].logicalPath != needs.actions[j].logicalPath)
    && (forall i :: 0 <= i < |needs.actions| ==> !("recovery/" <= needs.actions[i].logicalPath))
    && (forall i, j :: 0 <= i < j < |needs.plugins| ==> needs.plugins[i].directory != needs.plugins[j].directory)
    && (forall i :: 0 <= i < |needs.plugins| ==> '/' !in needs.plugins[i].directory)
  }

  lemma AppendDistinct(selected: seq<string>, path: string)
    requires Distinct(selected) && path !in Elements(selected)
    ensures Distinct(selected + [path]) && Elements(selected + [path]) == Elements(selected) + {path}
  {
    ElementsAppend(selected, path);
    forall i | 0 <= i < |selected| ensures selected[i] != path { assert selected[i] in Elements(selected); }
  }

  method SelectActions(actions: seq<Action>) returns (selected: seq<string>)
    requires forall i, j :: 0 <= i < j < |actions| ==> actions[i].logicalPath != actions[j].logicalPath
    ensures Distinct(selected) && Elements(selected) == NeededByActions(actions)
  {
    selected := [];
    var i := 0;
    while i < |actions|
      invariant 0 <= i <= |actions| && Distinct(selected) && Elements(selected) == NeededByActions(actions[..i])
    {
      assert actions[..i + 1] == actions[..i] + [actions[i]];
      if Undoable(actions[i]) {
        AppendDistinct(selected, actions[i].logicalPath);
        selected := selected + [actions[i].logicalPath];
      }
      i := i + 1;
    }
    assert actions[..i] == actions;
  }

  /** Adds every file of the recovery snapshot that lies beneath a plugin's prefix. */
  method SelectPlugin(plugin: DeckyPlugin, files: seq<Recovered>, start: seq<string>) returns (selected: seq<string>)
    requires Distinct(start) && Distinct(Map(files, PathOf))
    requires forall path :: path in Elements(start) ==> !(Prefix(plugin) <= path)
    ensures Distinct(selected) && Elements(selected) == Elements(start) + NeededByPlugin(plugin, files)
  {
    selected := start;
    var i := 0;
    while i < |files|
      invariant 0 <= i <= |files| && Distinct(selected)
      invariant Elements(selected) == Elements(start) + NeededByPlugin(plugin, files[..i])
    {
      BeneathOneMore(plugin, files, i);
      PathIsNew(plugin, files, i);
      if Beneath(plugin, files[i]) {
        AppendDistinct(selected, files[i].logicalPath);
        selected := selected + [files[i].logicalPath];
      }
      i := i + 1;
    }
    assert files[..i] == files;
  }

  /** A path lies beneath one plugin's prefix at most. */
  lemma OnePlugin(first: DeckyPlugin, second: DeckyPlugin, path: string)
    requires '/' !in first.directory && '/' !in second.directory
    requires Prefix(first) <= path && Prefix(second) <= path
    ensures first.directory == second.directory
  {
    var root := "recovery/plugins/";
    var rest := path[|root|..];
    assert Prefix(first)[|root|..] == first.directory + "/" && Prefix(second)[|root|..] == second.directory + "/";
    assert first.directory + ['/'] <= rest && second.directory + ['/'] <= rest;
    HeadsAgree(first.directory, second.directory, rest, '/');
  }

  /** What has been selected before a plugin is not beneath it. */
  lemma NotYetSelected(needs: Needs, files: seq<Recovered>, i: nat, path: string)
    requires Separate(needs) && i < |needs.plugins|
    requires path in NeededByActions(needs.actions) + NeededByGuard(needs.guard)
                     + NeededByPlugins(needs.plugins[..i], files)
    ensures !(Prefix(needs.plugins[i]) <= path)
  {
    assert "recovery/" <= Prefix(needs.plugins[i]);
    if path in NeededByPlugins(needs.plugins[..i], files) {
      var p, f :| p in needs.plugins[..i] && f in files && Beneath(p, f) && f.logicalPath == path;
      var k :| 0 <= k < i && needs.plugins[k] == p;
      if Prefix(needs.plugins[i]) <= path { OnePlugin(p, needs.plugins[i], path); }
    }
    assert LOADER_PATH[9] == 'd' && Prefix(needs.plugins[i])[9] == 'p';
  }

  /** The selection: each path once, and exactly what a rollback may ask for. */
  method SelectRecovery(needs: Needs, files: seq<Recovered>) returns (selected: seq<string>)
    requires Separate(needs) && Distinct(Map(files, PathOf))
    ensures Distinct(selected) && Elements(selected) == Needed(needs, files)
  {
    selected := SelectActions(needs.actions);
    if needs.guard.Some? {
      assert "recovery/" <= LOADER_PATH;
      AppendDistinct(selected, LOADER_PATH);
      selected := selected + [LOADER_PATH];
    }
    ghost var others := NeededByActions(needs.actions) + NeededByGuard(needs.guard);
    var i := 0;
    while i < |needs.plugins|
      invariant 0 <= i <= |needs.plugins| && Distinct(selected)
      invariant Elements(selected) == others + NeededByPlugins(needs.plugins[..i], files)
    {
      forall path | path in Elements(selected) ensures !(Prefix(needs.plugins[i]) <= path) {
        NotYetSelected(needs, files, i, path);
      }
      selected := SelectPlugin(needs.plugins[i], files, selected);
      PluginsOneMore(needs.plugins, files, i);
      i := i + 1;
    }
    assert needs.plugins[..i] == needs.plugins;
  }

  // ---------------------------------------------------------------- what was selected is accepted

  /** What creating the recovery snapshot verifies: the content of every file, and of the guard and
      the plugins also what their fingerprints cover. The mode of a file is recorded as it is found. */
  predicate Built(needs: Needs, files: seq<Recovered>)
    requires Distinct(Map(files, PathOf))
  {
    && (forall k :: 0 <= k < |needs.actions| && Undoable(needs.actions[k]) ==>
          var action := needs.actions[k];
          && action.logicalPath in Declared(files)
          && Declared(files)[action.logicalPath].size as int == action.existingSize
          && Declared(files)[action.logicalPath].sha256 == action.existingSha256)
    && (needs.guard.Some? ==> DeclaresGuard(Declared(files), needs.guard.value))
    && DeclaresPlugins(files, needs.plugins)
  }

  predicate ModesKept(needs: Needs, files: seq<Recovered>)
    requires Distinct(Map(files, PathOf))
  {
    forall k :: 0 <= k < |needs.actions| && Undoable(needs.actions[k]) ==>
      && needs.actions[k].logicalPath in Declared(files)
      && Declared(files)[needs.actions[k].logicalPath].mode == needs.actions[k].existingMode
  }

  /** Everything selected is staged, as the recovery snapshot declares it. */
  predicate StagedWhole(needs: Needs, files: seq<Recovered>, staged: map<string, Payload>)
    requires Distinct(Map(files, PathOf))
  {
    && staged.Keys == Needed(needs, files)
    && forall path :: path in staged && path in Declared(files) ==> Stages(staged, Declared(files)[path])
  }

  lemma NeededIsDeclared(needs: Needs, files: seq<Recovered>, path: string)
    requires Distinct(Map(files, PathOf)) && Built(needs, files) && path in Needed(needs, files)
    ensures path in Declared(files)
  {
    OnePerPath(files);
    if path in NeededByActions(needs.actions) {
      var a :| a in needs.actions && Undoable(a) && a.logicalPath == path;
      var k :| 0 <= k < |needs.actions| && needs.actions[k] == a;
    } else if path in NeededByPlugins(needs.plugins, files) {
      var p, f :| p in needs.plugins && f in files && Beneath(p, f) && f.logicalPath == path;
      assert f.logicalPath in Declared(files);
    }
  }

  /** A recovery snapshot built for the plan, with the selection staged whole, is accepted exactly
      when no file's mode changed between planning and its making: nothing else can be refused. */
  lemma SelectedIsAccepted(needs: Needs, files: seq<Recovered>, staged: map<string, Payload>)
    requires Distinct(Map(files, PathOf)) && Built(needs, files) && StagedWhole(needs, files, staged)
    ensures DeclaresNeeds(needs, files, Declared(files)) && StagesNeeded(Needed(needs, files), files, staged)
            <==> ModesKept(needs, files)
  {
    forall path | path in Needed(needs, files)
      ensures path in Declared(files) && Stages(staged, Declared(files)[path])
    {
      NeededIsDeclared(needs, files, path);
    }
  }
}
