/** The part of plan validation that keeps targets apart. */
module TargetPlan {
  import opened Delimited
  import opened LogicalPaths
  import opened TargetPaths

  datatype FileTarget = FileTarget(logical: string, target: Place)

  datatype PluginTarget = PluginTarget(directory: string, replace: bool, target: Place, preserve: Place)

  /** `settings` are the files kept beside a plugin whose version changed. */
  datatype Plan = Plan(files: seq<FileTarget>, plugins: seq<PluginTarget>, settings: seq<FileTarget>,
                       snapshotId: string)

  /** One thing a plan writes: where, and for whom. */
  datatype Claim = Claim(owner: string, target: Place)

  /** What a platform takes for the same place: lower-casing on Windows, nothing elsewhere. */
  type Folding = Place -> Place

  /** The places claimed so far, each with its owner. */
  class Registry {
    var seen: map<Place, string>
    const fold: Folding

    constructor (fold: Folding)
      ensures seen == map[] && this.fold == fold
    {
      this.fold := fold;
      seen := map[];
    }

    /** Claiming a place again for the same owner is allowed. */
    method Add(claim: Claim) returns (ok: bool)
      modifies this
      ensures ok <==> fold(claim.target) in old(seen) ==> old(seen)[fold(claim.target)] == claim.owner
      ensures seen == if ok then old(seen)[fold(claim.target) := claim.owner] else old(seen)
    {
      var key := fold(claim.target);
      if key in seen && seen[key] != claim.owner { return false; }
      seen := seen[key := claim.owner];
      return true;
    }
  }

  // ---------------------------------------------------------------- one claim after another

  /** Two claims for one place. */
  predicate Collide(fold: Folding, claims: seq<Claim>) {
    exists i, j :: 0 <= i < j < |claims| && fold(claims[i].target) == fold(claims[j].target)
  }

  function Owner(claim: Claim): string { claim.owner }

  function Target(claim: Claim): Place { claim.target }

  predicate Unique<V(==)>(claims: seq<Claim>, of: Claim -> V) {
    forall i, j :: 0 <= i < j < |claims| ==> of(claims[i]) != of(claims[j])
  }

  predicate DistinctOwners(claims: seq<Claim>) { Unique(claims, Owner) }

  /** The registry holds exactly these claims, no two for one place. */
  ghost predicate Tracks(registry: Registry, claims: seq<Claim>)
    reads registry
  {
    && !Collide(registry.fold, claims)
    && (forall i :: 0 <= i < |claims| ==>
          var key := registry.fold(claims[i].target); key in registry.seen && registry.seen[key] == claims[i].owner)
    && (forall key :: key in registry.seen ==> exists i :: 0 <= i < |claims| && registry.fold(claims[i].target) == key)
  }

  method AddClaim(registry: Registry, ghost claims: seq<Claim>, claim: Claim) returns (ok: bool)
    requires Tracks(registry, claims) && DistinctOwners(claims + [claim])
    modifies registry
    ensures ok <==> !Collide(registry.fold, claims + [claim])
    ensures ok ==> Tracks(registry, claims + [claim])
  {
    var key := registry.fold(claim.target);
    ghost var more := claims + [claim];
    if key in registry.seen {
      ghost var i :| 0 <= i < |claims| && registry.fold(claims[i].target) == key;
      assert registry.fold(more[i].target) == registry.fold(more[|claims|].target);
      assert Owner(more[i]) != Owner(more[|claims|]);
    }
    ok := registry.Add(claim);
    if ok {
      assert forall k :: 0 <= k < |claims| ==> more[k] == claims[k] && registry.fold(claims[k].target) != key;
      assert more[|claims|] == claim;
    }
  }

  lemma PrefixCollides(fold: Folding, some: seq<Claim>, all: seq<Claim>)
    requires some <= all && Collide(fold, some)
    ensures Collide(fold, all)
  {
  }

  lemma ClaimsOneMore(before: seq<Claim>, claims: seq<Claim>, i: nat)
    requires i < |claims| && DistinctOwners(before + claims)
    ensures before + claims[..i + 1] == (before + claims[..i]) + [claims[i]]
    ensures before + claims[..i + 1] <= before + claims && DistinctOwners(before + claims[..i + 1])
  {
    var some, all := before + claims[..i + 1], before + claims;
    assert some == all[..|some|];
    forall j, k | 0 <= j < k < |some| ensures Owner(some[j]) != Owner(some[k]) {
      assert some[j] == all[j] && some[k] == all[k];
    }
  }

  /** Adds several claims, stopping at the first refused. */
  method AddClaims(registry: Registry, ghost before: seq<Claim>, claims: seq<Claim>) returns (ok: bool)
    requires Tracks(registry, before) && DistinctOwners(before + claims)
    modifies registry
    ensures ok <==> !Collide(registry.fold, before + claims)
    ensures ok ==> Tracks(registry, before + claims)
  {
    var i := 0;
    ghost var done := before;
    while i < |claims|
      invariant 0 <= i <= |claims| && done == before + claims[..i] && Tracks(registry, done)
    {
      ClaimsOneMore(before, claims, i);
      ok := AddClaim(registry, done, claims[i]);
      done := done + [claims[i]];
      if !ok {
        PrefixCollides(registry.fold, done, before + claims);
        return;
      }
      i := i + 1;
    }
    assert claims[..i] == claims;
    ok := true;
  }

  // ---------------------------------------------------------------- one list of the plan

  function Flatten<T>(items: seq<T>, claims: T -> seq<Claim>): seq<Claim> {
    if items == [] then [] else Flatten(items[..|items| - 1], claims) + claims(items[|items| - 1])
  }

  lemma {:induction false} FlattenPrefix<T>(items: seq<T>, claims: T -> seq<Claim>, n: nat)
    requires n <= |items|
    ensures Flatten(items[..n], claims) <= Flatten(items, claims)
  {
    if n == |items| {
      assert items[..n] == items;
    } else {
      var front := items[..|items| - 1];
      FlattenPrefix(front, claims, n);
      assert front[..n] == items[..n];
    }
  }

  lemma FlattenOneMore<T>(items: seq<T>, claims: T -> seq<Claim>, n: nat)
    requires n < |items|
    ensures Flatten(items[..n + 1], claims) == Flatten(items[..n], claims) + claims(items[n])
  {
    assert items[..n + 1][..n] == items[..n];
  }

  predicate AllValid<T>(items: seq<T>, valid: T -> bool) { forall i :: 0 <= i < |items| ==> valid(items[i]) }

  predicate DistinctKeys<T>(items: seq<T>, key: T -> string) {
    forall i, j :: 0 <= i < j < |items| ==> key(items[i]) != key(items[j])
  }

  /** Valid items with distinct keys bring claims of distinct owners. */
  predicate OwnersStayDistinct<T>(before: seq<Claim>, items: seq<T>, key: T -> string, valid: T -> bool,
                                  claims: T -> seq<Claim>) {
    forall n :: 0 <= n <= |items| && Checked(items, n, key, valid) ==>
        DistinctOwners(before + Flatten(items[..n], claims))
  }

  predicate Checked<T>(items: seq<T>, n: nat, key: T -> string, valid: T -> bool)
    requires n <= |items|
  {
    AllValid(items[..n], valid) && DistinctKeys(items[..n], key)
  }

  lemma CheckedOneMore<T>(items: seq<T>, n: nat, key: T -> string, valid: T -> bool)
    requires n < |items| && Checked(items, n, key, valid) && valid(items[n])
    requires forall k :: 0 <= k < n ==> key(items[k]) != key(items[n])
    ensures Checked(items, n + 1, key, valid)
  {
  }

  /** Checks one list of the plan item by item: valid, not seen before, and not colliding. Each of
      the three lists is checked this way. */
  method AddList<T>(registry: Registry, ghost before: seq<Claim>, items: seq<T>,
                    key: T -> string, valid: T -> bool, claims: T -> seq<Claim>) returns (ok: bool)
    requires Tracks(registry, before)
    requires OwnersStayDistinct(before, items, key, valid, claims)
    modifies registry
    ensures ok <==> AllValid(items, valid) && DistinctKeys(items, key)
                    && !Collide(registry.fold, before + Flatten(items, claims))
    ensures ok ==> Tracks(registry, before + Flatten(items, claims))
  {
    var seen: set<string> := {};
    var i := 0;
    assert before + Flatten(items[..0], claims) == before;
    while i < |items|
      invariant 0 <= i <= |items| && Checked(items, i, key, valid)
      invariant seen == set k | 0 <= k < i :: key(items[k])
      invariant Tracks(registry, before + Flatten(items[..i], claims))
    {
      if !valid(items[i]) { return false; }
      if key(items[i]) in seen {
        assert !DistinctKeys(items, key);
        return false;
      }
      seen := seen + {key(items[i])};
      CheckedOneMore(items, i, key, valid);
      ok := AddItem(registry, before, items, i, claims);
      if !ok { return; }
      i := i + 1;
    }
    assert items[..i] == items;
    ok := true;
  }

  method AddItem<T>(registry: Registry, ghost before: seq<Claim>, items: seq<T>, i: nat, claims: T -> seq<Claim>)
    returns (ok: bool)
    requires i < |items| && Tracks(registry, before + Flatten(items[..i], claims))
    requires DistinctOwners(before + Flatten(items[..i + 1], claims))
    modifies registry
    ensures ok ==> Tracks(registry, before + Flatten(items[..i + 1], claims))
    ensures !ok ==> Collide(registry.fold, before + Flatten(items, claims))
  {
    ghost var list := before + Flatten(items[..i], claims);
    FlattenOneMore(items, claims, i);
    assert before + Flatten(items[..i + 1], claims) == list + claims(items[i]);
    ok := AddClaims(registry, list, claims(items[i]));
    if !ok {
      FlattenPrefix(items, claims, i + 1);
      PrefixCollides(registry.fold, list + claims(items[i]), before + Flatten(items, claims));
    }
  }

  // ---------------------------------------------------------------- the plan's three lists

  function PreserveRoot(roots: Roots): Place { Resolve(roots.state, ["preserved"]) }

  function IncompatibleRoot(roots: Roots): Place { Resolve(roots.state, ["incompatible"]) }

  function PluginPlace(roots: Roots, directory: string): Place {
    Resolve(Resolve(roots.decky, ["plugins"]), Split(directory, '/'))
  }

  function PreservePlace(roots: Roots, id: string, directory: string): Place {
    Resolve(PreserveRoot(roots), Split(id, '/') + Split(directory, '/'))
  }

  function IncompatiblePlace(roots: Roots, id: string, logical: string): Place {
    Resolve(IncompatibleRoot(roots), Split(id, '/') + Split(logical, '/'))
  }

  /** What the path rules of the deployment are. */
  datatype Rules = Rules(roots: Roots, snapshotId: string, maxLength: nat, normal: string -> bool)

  predicate ValidFile(rules: Rules, file: FileTarget) {
    && ValidateLogicalPath(file.logical, rules.maxLength, rules.normal).Accepted?
    && MapTarget(rules.roots, file.logical).Mapped? && MapTarget(rules.roots, file.logical).target == file.target
  }

  predicate ValidPlugin(rules: Rules, plugin: PluginTarget) {
    && ValidateLogicalPath("plugin/" + plugin.directory, rules.maxLength, rules.normal).Accepted?
    && '/' !in plugin.directory && '\\' !in plugin.directory
    && plugin.target == PluginPlace(rules.roots, plugin.directory)
    && plugin.preserve == PreservePlace(rules.roots, rules.snapshotId, plugin.directory)
    && StrictlyBeneath(PreserveRoot(rules.roots), plugin.preserve)
  }

  /** The logical path of a preserved setting is not itself validated here. */
  predicate ValidSetting(rules: Rules, setting: FileTarget) {
    && setting.target == IncompatiblePlace(rules.roots, rules.snapshotId, setting.logical)
    && StrictlyBeneath(IncompatibleRoot(rules.roots), setting.target)
  }

  function FileClaims(file: FileTarget): seq<Claim> { [Claim(file.logical, file.target)] }

  function PluginClaims(plugin: PluginTarget): seq<Claim> {
    [Claim("plugin/" + plugin.directory, plugin.target)]
    + if plugin.replace then [Claim("preserved plugin/" + plugin.directory, plugin.preserve)] else []
  }

  function SettingClaims(setting: FileTarget): seq<Claim> { [Claim("incompatible/" + setting.logical, setting.target)] }

  function Logical(file: FileTarget): string { file.logical }

  function Directory(plugin: PluginTarget): string { plugin.directory }

  predicate WellFormed(rules: Rules, plan: Plan) {
    && AllValid(plan.files, f => ValidFile(rules, f)) && DistinctKeys(plan.files, Logical)
    && AllValid(plan.plugins, p => ValidPlugin(rules, p)) && DistinctKeys(plan.plugins, Directory)
    && AllValid(plan.settings, s => ValidSetting(rules, s)) && DistinctKeys(plan.settings, Logical)
  }

  function Claims(plan: Plan): seq<Claim> {
    Flatten(plan.files, FileClaims) + Flatten(plan.plugins, PluginClaims) + Flatten(plan.settings, SettingClaims)
  }

  // ---------------------------------------------------------------- owners never coincide

  predicate Apart<V(==)>(some: seq<Claim>, others: seq<Claim>, of: Claim -> V) {
    forall i, j :: 0 <= i < |some| && 0 <= j < |others| ==> of(some[i]) != of(others[j])
  }

  predicate Separate(some: seq<Claim>, others: seq<Claim>) { Apart(some, others, Owner) }

  lemma {:induction false} FlattenApart<T, V>(some: seq<Claim>, items: seq<T>, claims: T -> seq<Claim>, of: Claim -> V)
    requires forall i :: 0 <= i < |items| ==> Apart(some, claims(items[i]), of)
    ensures Apart(some, Flatten(items, claims), of)
  {
    if items != [] {
      FlattenApart(some, items[..|items| - 1], claims, of);
    }
  }

  /** What differs between and within the claims of single items differs throughout the list. */
  lemma {:induction false} FlattenUnique<T, V>(before: seq<Claim>, items: seq<T>, claims: T -> seq<Claim>,
                                               of: Claim -> V)
    requires Unique(before, of)
    requires forall i :: 0 <= i < |items| ==> Unique(claims(items[i]), of) && Apart(before, claims(items[i]), of)
    requires forall i, j :: 0 <= i < j < |items| ==> Apart(claims(items[j]), claims(items[i]), of)
    ensures Unique(before + Flatten(items, claims), of)
  {
    if items == [] {
      assert before + Flatten(items, claims) == before;
    } else {
      var front, last := items[..|items| - 1], claims(items[|items| - 1]);
      assert forall i :: 0 <= i < |front| ==> front[i] == items[i] && Apart(last, claims(items[i]), of);
      assert Unique(last, of) && Apart(before, last, of);
      FlattenUnique(before, front, claims, of);
      FlattenApart(last, front, claims, of);
      assert before + Flatten(items, claims) == (before + Flatten(front, claims)) + last;
      UniqueJoin(before, Flatten(front, claims), last, of);
    }
  }

  lemma UniqueJoin<V>(first: seq<Claim>, second: seq<Claim>, third: seq<Claim>, of: Claim -> V)
    requires Unique(first + second, of) && Unique(third, of) && Apart(first, third, of) && Apart(third, second, of)
    ensures Unique(first + second + third, of)
  {
    var some, all := first + second, first + second + third;
    forall i, j | 0 <= i < j < |all| ensures of(all[i]) != of(all[j]) {
      if j < |some| {
        assert all[i] == some[i] && all[j] == some[j];
      } else if i < |some| {
        assert all[j] == third[j - |some|] && all[i] == if i < |first| then first[i] else second[i - |first|];
      } else {
        assert all[i] == third[i - |some|] && all[j] == third[j - |some|];
      }
    }
  }

  lemma MappedStart(rules: Rules, logical: string)
    requires MapTarget(rules.roots, logical).Mapped?
    ensures logical != "" && logical[0] in {'d', 'c', 's'}
  {
  }

  lemma PluginOwnersApart(first: string, second: string)
    requires first != second
    ensures "plugin/" + first != "plugin/" + second && "preserved plugin/" + first != "preserved plugin/" + second
  {
    assert ("plugin/" + first)[7..] == first && ("plugin/" + second)[7..] == second;
    assert ("preserved plugin/" + first)[17..] == first && ("preserved plugin/" + second)[17..] == second;
  }

  lemma PluginIsNotPreserved(first: string, second: string)
    ensures "plugin/" + first != "preserved plugin/" + second
  {
    assert ("plugin/" + first)[1] == 'l' && ("preserved plugin/" + second)[1] == 'r';
  }

  lemma PluginsSeparate(first: PluginTarget, second: PluginTarget)
    requires first.directory != second.directory
    ensures Separate(PluginClaims(first), PluginClaims(second))
  {
    PluginOwnersApart(first.directory, second.directory);
    PluginIsNotPreserved(first.directory, second.directory);
    PluginIsNotPreserved(second.directory, first.directory);
  }

  predicate Each(claims: seq<Claim>, good: Claim -> bool) { forall i :: 0 <= i < |claims| ==> good(claims[i]) }

  lemma {:induction false} FlattenEach<T>(items: seq<T>, claims: T -> seq<Claim>, good: Claim -> bool)
    requires forall i :: 0 <= i < |items| ==> Each(claims(items[i]), good)
    ensures Each(Flatten(items, claims), good)
  {
    if items != [] {
      FlattenEach(items[..|items| - 1], claims, good);
    }
  }

  predicate Initials(claims: seq<Claim>, initials: set<char>) {
    Each(claims, (c: Claim) => c.owner != "" && c.owner[0] in initials)
  }

  lemma FileInitials(rules: Rules, files: seq<FileTarget>)
    requires AllValid(files, f => ValidFile(rules, f))
    ensures Initials(Flatten(files, FileClaims), {'d', 'c', 's'})
  {
    forall i | 0 <= i < |files| ensures Initials(FileClaims(files[i]), {'d', 'c', 's'}) {
      MappedStart(rules, files[i].logical);
    }
    FlattenEach(files, FileClaims, (c: Claim) => c.owner != "" && c.owner[0] in {'d', 'c', 's'});
  }

  lemma FileOwners(rules: Rules, files: seq<FileTarget>)
    ensures OwnersStayDistinct([], files, Logical, f => ValidFile(rules, f), FileClaims)
  {
    forall n | 0 <= n <= |files| && DistinctKeys(files[..n], Logical)
      ensures DistinctOwners([] + Flatten(files[..n], FileClaims))
    {
      FlattenUnique([], files[..n], FileClaims, Owner);
    }
  }

  lemma PluginOwners(rules: Rules, files: seq<FileTarget>, plugins: seq<PluginTarget>)
    requires AllValid(files, f => ValidFile(rules, f)) && DistinctKeys(files, Logical)
    ensures OwnersStayDistinct(Flatten(files, FileClaims), plugins, Directory, p => ValidPlugin(rules, p), PluginClaims)
  {
    var before := Flatten(files, FileClaims);
    FlattenUnique([], files, FileClaims, Owner);
    assert [] + before == before;
    FileInitials(rules, files);
    forall n | 0 <= n <= |plugins| && DistinctKeys(plugins[..n], Directory)
      ensures DistinctOwners(before + Flatten(plugins[..n], PluginClaims))
    {
      PluginListDistinct(before, plugins[..n]);
    }
  }

  lemma PluginListDistinct(before: seq<Claim>, plugins: seq<PluginTarget>)
    requires DistinctOwners(before) && Initials(before, {'d', 'c', 's'}) && DistinctKeys(plugins, Directory)
    ensures DistinctOwners(before + Flatten(plugins, PluginClaims))
  {
    forall i | 0 <= i < |plugins|
      ensures DistinctOwners(PluginClaims(plugins[i])) && Separate(before, PluginClaims(plugins[i]))
    {
      PluginIsNotPreserved(plugins[i].directory, plugins[i].directory);
      assert Initials(PluginClaims(plugins[i]), {'p'});
    }
    forall i, j | 0 <= i < j < |plugins| ensures Separate(PluginClaims(plugins[j]), PluginClaims(plugins[i])) {
      assert Directory(plugins[i]) != Directory(plugins[j]);
      PluginsSeparate(plugins[j], plugins[i]);
    }
    FlattenUnique(before, plugins, PluginClaims, Owner);
  }

  lemma SettingOwners(rules: Rules, files: seq<FileTarget>, plugins: seq<PluginTarget>, settings: seq<FileTarget>)
    requires AllValid(files, f => ValidFile(rules, f)) && DistinctKeys(files, Logical)
    requires DistinctKeys(plugins, Directory)
    ensures OwnersStayDistinct(Flatten(files, FileClaims) + Flatten(plugins, PluginClaims),
                               settings, Logical, s => ValidSetting(rules, s), SettingClaims)
  {
    var some, more := Flatten(files, FileClaims), Flatten(plugins, PluginClaims);
    FlattenUnique([], files, FileClaims, Owner);
    assert [] + some == some;
    FileInitials(rules, files);
    PluginListDistinct(some, plugins);
    FlattenEach(plugins, PluginClaims, (c: Claim) => c.owner != "" && c.owner[0] in {'p'});
    forall n | 0 <= n <= |settings| && DistinctKeys(settings[..n], Logical)
      ensures DistinctOwners(some + more + Flatten(settings[..n], SettingClaims))
    {
      SettingListDistinct(some + more, settings[..n]);
    }
  }

  lemma SettingListDistinct(before: seq<Claim>, settings: seq<FileTarget>)
    requires DistinctOwners(before) && Initials(before, {'d', 'c', 's', 'p'}) && DistinctKeys(settings, Logical)
    ensures DistinctOwners(before + Flatten(settings, SettingClaims))
  {
    forall i | 0 <= i < |settings| ensures Separate(before, SettingClaims(settings[i])) {
      assert SettingClaims(settings[i])[0].owner[0] == 'i';
    }
    forall i, j | 0 <= i < j < |settings| ensures Separate(SettingClaims(settings[j]), SettingClaims(settings[i])) {
      assert Logical(settings[i]) != Logical(settings[j]);
      SettingOwnersApart(settings[i].logical, settings[j].logical);
    }
    FlattenUnique(before, settings, SettingClaims, Owner);
  }

  lemma SettingOwnersApart(first: string, second: string)
    requires first != second
    ensures "incompatible/" + first != "incompatible/" + second
  {
    assert ("incompatible/" + first)[13..] == first && ("incompatible/" + second)[13..] == second;
  }

  /** Accepts exactly the plans whose entries are well formed and claim pairwise different places. */
  method ValidateTargets(rules: Rules, plan: Plan, fold: Folding) returns (ok: bool)
    ensures ok <==> WellFormed(rules, plan) && !Collide(fold, Claims(plan))
  {
    var registry := new Registry(fold);
    var files, plugins := Flatten(plan.files, FileClaims), Flatten(plan.plugins, PluginClaims);
    FileOwners(rules, plan.files);
    ok := AddList(registry, [], plan.files, Logical, f => ValidFile(rules, f), FileClaims);
    assert [] + files == files;
    if !ok {
      if Collide(fold, files) { PrefixCollides(fold, files, Claims(plan)); }
      return;
    }
    PluginOwners(rules, plan.files, plan.plugins);
    ok := AddList(registry, files, plan.plugins, Directory, p => ValidPlugin(rules, p), PluginClaims);
    if !ok {
      if Collide(fold, files + plugins) { PrefixCollides(fold, files + plugins, Claims(plan)); }
      return;
    }
    SettingOwners(rules, plan.files, plan.plugins, plan.settings);
    ok := AddList(registry, files + plugins, plan.settings, Logical, s => ValidSetting(rules, s), SettingClaims);
  }
}
