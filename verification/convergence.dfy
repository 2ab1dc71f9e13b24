/** Which live files a restore removes: those of whole extra themes, and extra artwork, each of which
    must be removable without loss. */
module Convergence {
  import opened Identities
  import opened Planning
  import opened Sorting

  datatype Candidate = Candidate(path: string, identity: Identity)

  /** What discovering the live world finds. */
  datatype Discovery = Discovery(candidates: seq<Candidate>, themes: seq<string>, artwork: seq<string>,
                                 exclusions: seq<string>)

  predicate Offers(current: Discovery, path: string) {
    exists i :: 0 <= i < |current.candidates| && current.candidates[i].path == path
  }

  /** Discovery reports exactly what the world holds. */
  ghost predicate Discovers(env: Environment, world: Live, current: Discovery) {
    && (forall i :: 0 <= i < |current.candidates| ==>
          var candidate := current.candidates[i];
          Captured(env, world, candidate.path) && world.files[candidate.path] == Plain(candidate.identity))
    && (forall path :: Captured(env, world, path) ==> Offers(current, path))
    && (forall directory :: directory in current.themes <==> Listed(env, world, directory))
    && (forall path :: path in current.artwork <==> Artwork(env, world, path))
    && (forall path :: path in current.exclusions <==> Excluded(env, world, path))
  }

  /** Removals collected so far, each the action for what is there. */
  predicate AreRemovals(env: Environment, world: Live, removals: map<string, Action>) {
    forall path :: path in removals ==>
      && path in world.files && world.files[path].Plain? && removals[path] == RemovalAction(world, path)
      && env.mapping(path).Restored? && !env.sealed(path)
  }

  /** Adds one removal: a wanted file is passed over, and one that cannot be removed safely refused. */
  method Add(env: Environment, world: Live, desired: set<string>, removals: map<string, Action>, candidate: Candidate)
    returns (ok: bool, more: map<string, Action>)
    requires AreRemovals(env, world, removals)
    requires candidate.path in world.files && world.files[candidate.path] == Plain(candidate.identity)
    ensures ok <==> candidate.path in desired || (env.mapping(candidate.path).Restored? && !env.sealed(candidate.path))
    ensures ok ==> AreRemovals(env, world, more)
    ensures ok ==> more.Keys == removals.Keys + if candidate.path in desired then {} else {candidate.path}
  {
    if candidate.path in desired { return true, removals; }
    if !env.mapping(candidate.path).Restored? { return false, removals; }
    var file := File(candidate.path, candidate.identity.size, candidate.identity.sha256);
    var action := FileAction(env, world, file);
    if !action.operation.Unchanged? { return false, removals; }
    return true, removals[candidate.path := action.(operation := Remove)];
  }

  // ---------------------------------------------------------------- one extra theme

  function UnderTheme(candidates: seq<Candidate>, directory: string, desired: set<string>): set<string> {
    set i | 0 <= i < |candidates| && ThemePrefix(directory) <= candidates[i].path && candidates[i].path !in desired
      :: candidates[i].path
  }

  lemma UnderThemeOneMore(candidates: seq<Candidate>, directory: string, desired: set<string>, i: nat)
    requires i < |candidates|
    ensures UnderTheme(candidates[..i + 1], directory, desired)
            == UnderTheme(candidates[..i], directory, desired)
               + if ThemePrefix(directory) <= candidates[i].path && candidates[i].path !in desired
                 then {candidates[i].path} else {}
  {
  }

  predicate MayGo(env: Environment, path: string) { env.mapping(path).Restored? && !env.sealed(path) }

  predicate AllMayGo(env: Environment, paths: set<string>) { forall path :: path in paths ==> MayGo(env, path) }

  predicate AreLive(world: Live, candidates: seq<Candidate>) {
    forall i :: 0 <= i < |candidates| ==>
      candidates[i].path in world.files && world.files[candidates[i].path] == Plain(candidates[i].identity)
  }

  predicate SomeUnder(candidates: seq<Candidate>, prefix: string, n: nat)
    requires n <= |candidates|
  {
    exists k :: 0 <= k < n && prefix <= candidates[k].path
  }

  method ExclusionUnder(exclusions: seq<string>, prefix: string) returns (found: bool)
    ensures found <==> exists i :: 0 <= i < |exclusions| && prefix <= exclusions[i]
  {
    var i := 0;
    while i < |exclusions|
      invariant 0 <= i <= |exclusions| && forall k :: 0 <= k < i ==> !(prefix <= exclusions[k])
    {
      if prefix <= exclusions[i] { return true; }
      i := i + 1;
    }
    found := false;
  }

  /** The files collected from the first candidates. */
  predicate Collected(env: Environment, world: Live, candidates: seq<Candidate>, directory: string,
                      desired: set<string>, removals: map<string, Action>, n: nat, more: map<string, Action>)
    requires n <= |candidates|
  {
    && AreRemovals(env, world, more) && more.Keys == removals.Keys + UnderTheme(candidates[..n], directory, desired)
    && AllMayGo(env, UnderTheme(candidates[..n], directory, desired))
  }

  method CollectOne(env: Environment, world: Live, candidates: seq<Candidate>, directory: string, desired: set<string>,
                    ghost removals: map<string, Action>, i: nat, collected: map<string, Action>)
    returns (ok: bool, more: map<string, Action>)
    requires AreLive(world, candidates) && i < |candidates|
    requires Collected(env, world, candidates, directory, desired, removals, i, collected)
    ensures if ok then Collected(env, world, candidates, directory, desired, removals, i + 1, more)
            else !AllMayGo(env, UnderTheme(candidates, directory, desired))
  {
    UnderThemeOneMore(candidates, directory, desired, i);
    if !(ThemePrefix(directory) <= candidates[i].path) { return true, collected; }
    ok, more := Add(env, world, desired, collected, candidates[i]);
    if !ok { assert candidates[i].path in UnderTheme(candidates, directory, desired); }
  }

  /** Goes through the candidates and collects those below a theme's directory. */
  method CollectTheme(env: Environment, world: Live, candidates: seq<Candidate>, directory: string,
                      desired: set<string>, removals: map<string, Action>)
    returns (ok: bool, more: map<string, Action>, found: bool)
    requires AreLive(world, candidates) && AreRemovals(env, world, removals)
    ensures ok <==> AllMayGo(env, UnderTheme(candidates, directory, desired))
    ensures ok ==> Collected(env, world, candidates, directory, desired, removals, |candidates|, more)
    ensures ok ==> (found <==> SomeUnder(candidates, ThemePrefix(directory), |candidates|))
  {
    var i := 0;
    more, found := removals, false;
    while i < |candidates|
      invariant 0 <= i <= |candidates| && Collected(env, world, candidates, directory, desired, removals, i, more)
      invariant found <==> SomeUnder(candidates, ThemePrefix(directory), i)
    {
      found := found || ThemePrefix(directory) <= candidates[i].path;
      ok, more := CollectOne(env, world, candidates, directory, desired, removals, i, more);
      if !ok { return; }
      i := i + 1;
    }
    assert candidates[..i] == candidates;
    ok := true;
  }

  /** Collects the files of one extra theme, unless something in it keeps it from being removed whole. */
  method RemoveTheme(env: Environment, world: Live, current: Discovery, directory: string, desired: set<string>,
                     removals: map<string, Action>)
    returns (ok: bool, more: map<string, Action>)
    requires Discovers(env, world, current) && AreRemovals(env, world, removals)
    ensures ok <==> Removable(env, world, directory)
                    && AllMayGo(env, UnderTheme(current.candidates, directory, desired))
    ensures ok ==> AreRemovals(env, world, more)
                   && more.Keys == removals.Keys + UnderTheme(current.candidates, directory, desired)
  {
    var excluded := ExclusionUnder(current.exclusions, ThemePrefix(directory));
    ExclusionsDecide(env, world, current, directory);
    if excluded { return false, removals; }
    FoundDecides(env, world, current, directory);
    var found: bool;
    ok, more, found := CollectTheme(env, world, current.candidates, directory, desired, removals);
    assert current.candidates[..|current.candidates|] == current.candidates;
    ok := ok && found;
  }

  lemma ExclusionsDecide(env: Environment, world: Live, current: Discovery, directory: string)
    requires Discovers(env, world, current)
    ensures (exists i :: 0 <= i < |current.exclusions| && ThemePrefix(directory) <= current.exclusions[i])
            <==> exists path :: Excluded(env, world, path) && ThemePrefix(directory) <= path
  {
    if path :| Excluded(env, world, path) && ThemePrefix(directory) <= path {
      assert path in current.exclusions;
    }
    if i :| 0 <= i < |current.exclusions| && ThemePrefix(directory) <= current.exclusions[i] {
      assert current.exclusions[i] in current.exclusions;
    }
  }

  lemma FoundDecides(env: Environment, world: Live, current: Discovery, directory: string)
    requires Discovers(env, world, current)
    ensures SomeUnder(current.candidates, ThemePrefix(directory), |current.candidates|)
            <==> exists path :: Captured(env, world, path) && ThemePrefix(directory) <= path
  {
  }

  // ---------------------------------------------------------------- all of convergence

  function DesiredPaths(files: seq<File>): set<string> { set i | 0 <= i < |files| :: files[i].logicalPath }

  /** The removals the first themes call for. */
  function ThemeRemovals(current: Discovery, snapshot: Snapshot, n: nat): set<string>
    requires n <= |current.themes|
  {
    if n == 0 then {}
    else if current.themes[n - 1] in snapshot.themes then ThemeRemovals(current, snapshot, n - 1)
    else ThemeRemovals(current, snapshot, n - 1)
         + UnderTheme(current.candidates, current.themes[n - 1], DesiredPaths(snapshot.files))
  }

  lemma {:induction false} ThemeRemovalsMember(current: Discovery, snapshot: Snapshot, n: nat, path: string)
    requires n <= |current.themes|
    ensures path in ThemeRemovals(current, snapshot, n) <==>
      exists k :: 0 <= k < n && current.themes[k] !in snapshot.themes
                  && path in UnderTheme(current.candidates, current.themes[k], DesiredPaths(snapshot.files))
  {
    if n > 0 { ThemeRemovalsMember(current, snapshot, n - 1, path); }
  }

  ghost predicate ThemesRemovable(env: Environment, world: Live, current: Discovery, snapshot: Snapshot, n: nat)
    requires n <= |current.themes|
  {
    && (forall k :: 0 <= k < n && current.themes[k] !in snapshot.themes ==> Removable(env, world, current.themes[k]))
    && AllMayGo(env, ThemeRemovals(current, snapshot, n))
  }

  lemma ThemesRefused(env: Environment, world: Live, current: Discovery, snapshot: Snapshot, n: nat)
    requires n < |current.themes| && current.themes[n] !in snapshot.themes
    requires !Removable(env, world, current.themes[n])
             || !AllMayGo(env, UnderTheme(current.candidates, current.themes[n], DesiredPaths(snapshot.files)))
    ensures !ThemesRemovable(env, world, current, snapshot, |current.themes|)
  {
    if Removable(env, world, current.themes[n]) {
      var path :| path in UnderTheme(current.candidates, current.themes[n], DesiredPaths(snapshot.files))
          && !MayGo(env, path);
      ThemeRemovalsMember(current, snapshot, |current.themes|, path);
    }
  }

  /** Collects the removals every extra theme calls for. */
  method RemoveThemes(env: Environment, world: Live, current: Discovery, snapshot: Snapshot)
    returns (ok: bool, removals: map<string, Action>)
    requires Discovers(env, world, current)
    ensures ok <==> ThemesRemovable(env, world, current, snapshot, |current.themes|)
    ensures ok ==> AreRemovals(env, world, removals)
                   && removals.Keys == ThemeRemovals(current, snapshot, |current.themes|)
  {
    var desired := DesiredPaths(snapshot.files);
    removals := map[];
    var i := 0;
    while i < |current.themes|
      invariant 0 <= i <= |current.themes| && ThemesRemovable(env, world, current, snapshot, i)
      invariant AreRemovals(env, world, removals) && removals.Keys == ThemeRemovals(current, snapshot, i)
    {
      if current.themes[i] !in snapshot.themes {
        ok, removals := RemoveTheme(env, world, current, current.themes[i], desired, removals);
        if !ok {
          ThemesRefused(env, world, current, snapshot, i);
          return;
        }
      }
      i := i + 1;
    }
    ok := true;
  }

  function ExtraArtwork(current: Discovery, snapshot: Snapshot, n: nat): set<string>
    requires n <= |current.artwork|
  {
    set k | 0 <= k < n && current.artwork[k] !in DesiredPaths(snapshot.files) :: current.artwork[k]
  }

  lemma ExtraArtworkOneMore(current: Discovery, snapshot: Snapshot, i: nat)
    requires i < |current.artwork|
    ensures ExtraArtwork(current, snapshot, i + 1)
            == ExtraArtwork(current, snapshot, i)
               + if current.artwork[i] in DesiredPaths(snapshot.files) then {} else {current.artwork[i]}
  {
  }

  /** The removals once the first artwork has been looked at. */
  ghost predicate ArtworkCollected(env: Environment, world: Live, current: Discovery, snapshot: Snapshot,
                                   start: map<string, Action>, n: nat, removals: map<string, Action>)
    requires n <= |current.artwork|
  {
    && AllMayGo(env, ExtraArtwork(current, snapshot, n)) && AreRemovals(env, world, removals)
    && removals.Keys == start.Keys + ExtraArtwork(current, snapshot, n)
  }

  method AddArtwork(env: Environment, world: Live, current: Discovery, snapshot: Snapshot,
                    ghost start: map<string, Action>, i: nat, removals: map<string, Action>)
    returns (ok: bool, more: map<string, Action>)
    requires Discovers(env, world, current) && i < |current.artwork|
    requires ArtworkCollected(env, world, current, snapshot, start, i, removals)
    ensures if ok then ArtworkCollected(env, world, current, snapshot, start, i + 1, more)
            else !AllMayGo(env, ExtraArtwork(current, snapshot, |current.artwork|))
  {
    var path, desired := current.artwork[i], DesiredPaths(snapshot.files);
    assert path in current.artwork && Artwork(env, world, path);
    ExtraArtworkOneMore(current, snapshot, i);
    if path in desired { return true, removals; }
    ok, more := Add(env, world, desired, removals, Candidate(path, world.files[path].identity));
    if !ok { assert path in ExtraArtwork(current, snapshot, |current.artwork|); }
  }

  /** Adds the removals extra artwork calls for. */
  method RemoveArtwork(env: Environment, world: Live, current: Discovery, snapshot: Snapshot,
                       start: map<string, Action>)
    returns (ok: bool, removals: map<string, Action>)
    requires Discovers(env, world, current) && AreRemovals(env, world, start)
    ensures ok <==> AllMayGo(env, ExtraArtwork(current, snapshot, |current.artwork|))
    ensures ok ==> AreRemovals(env, world, removals)
                   && removals.Keys == start.Keys + ExtraArtwork(current, snapshot, |current.artwork|)
  {
    removals := start;
    var i := 0;
    while i < |current.artwork|
      invariant 0 <= i <= |current.artwork| && ArtworkCollected(env, world, current, snapshot, start, i, removals)
    {
      ok, removals := AddArtwork(env, world, current, snapshot, start, i, removals);
      if !ok { return; }
      i := i + 1;
    }
    ok := true;
  }

  lemma DesiredByPath(snapshot: Snapshot, path: string)
    ensures path in DesiredPaths(snapshot.files) <==> Desired(snapshot, path)
  {
  }

  lemma UnderThemeMember(env: Environment, world: Live, current: Discovery, snapshot: Snapshot, directory: string,
                         path: string)
    requires Discovers(env, world, current)
    ensures path in UnderTheme(current.candidates, directory, DesiredPaths(snapshot.files))
            <==> Captured(env, world, path) && ThemePrefix(directory) <= path && !Desired(snapshot, path)
  {
  }

  /** The collected paths are exactly those to be removed. */
  lemma CollectedExactly(env: Environment, world: Live, current: Discovery, snapshot: Snapshot, path: string)
    requires Discovers(env, world, current)
    ensures path in ThemeRemovals(current, snapshot, |current.themes|)
                    + ExtraArtwork(current, snapshot, |current.artwork|)
            <==> ToRemove(env, world, snapshot, path)
  {
    ThemeRemovalsMember(current, snapshot, |current.themes|, path);
    DesiredByPath(snapshot, path);
    forall directory
      ensures path in UnderTheme(current.candidates, directory, DesiredPaths(snapshot.files))
              <==> Captured(env, world, path) && ThemePrefix(directory) <= path && !Desired(snapshot, path)
    {
      UnderThemeMember(env, world, current, snapshot, directory, path);
    }
    if ToRemove(env, world, snapshot, path) && !Artwork(env, world, path) {
      var directory :| ExtraTheme(env, world, snapshot, directory) && ThemePrefix(directory) <= path;
      assert directory in current.themes;
      var k :| 0 <= k < |current.themes| && current.themes[k] == directory;
    }
    if path in ExtraArtwork(current, snapshot, |current.artwork|) { assert path in current.artwork; }
    if k :| 0 <= k < |current.themes| && current.themes[k] !in snapshot.themes
            && path in UnderTheme(current.candidates, current.themes[k], DesiredPaths(snapshot.files)) {
      assert current.themes[k] in current.themes;
      assert ExtraTheme(env, world, snapshot, current.themes[k]);
    }
  }

  lemma ConvergesExactly(env: Environment, world: Live, current: Discovery, snapshot: Snapshot)
    requires Discovers(env, world, current)
    ensures CanConverge(env, world, snapshot)
            <==> ThemesRemovable(env, world, current, snapshot, |current.themes|)
                 && AllMayGo(env, ExtraArtwork(current, snapshot, |current.artwork|))
  {
    forall path
      ensures path in ThemeRemovals(current, snapshot, |current.themes|)
                      + ExtraArtwork(current, snapshot, |current.artwork|)
              <==> ToRemove(env, world, snapshot, path)
    {
      CollectedExactly(env, world, current, snapshot, path);
    }
    forall directory ensures ExtraTheme(env, world, snapshot, directory)
                             <==> directory in current.themes && directory !in snapshot.themes {
    }
    assert forall k :: 0 <= k < |current.themes| ==> current.themes[k] in current.themes;
  }

  /** The removals as a list in path order; None when convergence must be refused. */
  method BuildConvergenceActions(env: Environment, world: Live, current: Discovery, snapshot: Snapshot)
    returns (result: Option<seq<Action>>)
    requires Discovers(env, world, current)
    ensures result.Some? <==> CanConverge(env, world, snapshot)
    ensures result.Some? ==> SortedBy(result.value, ActionPath) && UniqueKeys(result.value, ActionPath)
    ensures result.Some? ==> forall action :: action in result.value <==>
      ToRemove(env, world, snapshot, action.logicalPath) && action == RemovalAction(world, action.logicalPath)
  {
    ConvergesExactly(env, world, current, snapshot);
    var ok, removals := RemoveThemes(env, world, current, snapshot);
    if !ok { return None; }
    ok, removals := RemoveArtwork(env, world, current, snapshot, removals);
    if !ok { return None; }
    var actions := ActionsOf(removals);
    var sorted := SortUnique(actions, ActionPath);
    forall action ensures action in sorted <==>
      ToRemove(env, world, snapshot, action.logicalPath) && action == RemovalAction(world, action.logicalPath)
    {
      CollectedExactly(env, world, current, snapshot, action.logicalPath);
    }
    result := Some(sorted);
  }

  /** The values of the collected removals, in no particular order. */
  method ActionsOf(removals: map<string, Action>) returns (actions: seq<Action>)
    requires forall path :: path in removals ==> removals[path].logicalPath == path
    ensures UniqueKeys(actions, ActionPath)
    ensures forall action :: action in actions <==>
        action.logicalPath in removals && removals[action.logicalPath] == action
  {
    actions := [];
    var left := removals.Keys;
    while left != {}
      invariant left <= removals.Keys && UniqueKeys(actions, ActionPath)
      invariant forall action :: action in actions <==>
        action.logicalPath in removals.Keys - left && removals[action.logicalPath] == action
      decreases left
    {
      var path :| path in left;
      left, actions := left - {path}, actions + [removals[path]];
    }
  }
}
