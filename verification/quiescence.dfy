/** Holding every Decky plugin stopped while a restore runs, and putting their state back. */
module Quiescence {
  import opened DeckyPlugins
  import opened Identities
  import opened PluginNames
  import opened Sequences

  /** Every running plugin is stopped, listed as disabled, and exactly these are the plugins. */
  predicate HeldQuiet(plugins: seq<Status>, disabled: seq<string>, names: seq<string>) {
    && (forall i :: 0 <= i < |plugins| ==> plugins[i].disabled && plugins[i].name in disabled)
    && Elements(NamesOf(plugins)) == Elements(names)
  }

  /** The state planning saw: these plugins, this list, and every plugin stopped exactly if listed. */
  predicate AsOriginally(plugins: seq<Status>, disabled: seq<string>, originals: seq<string>,
                         originalDisabled: seq<string>) {
    && Elements(NamesOf(plugins)) == Elements(originals) && Elements(disabled) == Elements(originalDisabled)
    && forall i :: 0 <= i < |plugins| ==> (plugins[i].disabled <==> plugins[i].name in originalDisabled)
  }

  /** The names of the running plugins, unless one is still active. */
  method StoppedNames(inventory: seq<Status>) returns (names: Option<seq<string>>)
    ensures names.Some? <==> forall k :: 0 <= k < |inventory| ==> inventory[k].disabled
    ensures names.Some? ==> names.value == NamesOf(inventory)
  {
    var actual, i := [], 0;
    while i < |inventory|
      invariant 0 <= i <= |inventory| && actual == NamesOf(inventory[..i])
      invariant forall k :: 0 <= k < i ==> inventory[k].disabled
    {
      if !inventory[i].disabled { return None; }
      actual, i := actual + [inventory[i].name], i + 1;
    }
    assert inventory[..i] == inventory;
    names := Some(actual);
  }

  method ContainsAll(values: seq<string>, wanted: seq<string>) returns (ok: bool)
    ensures ok <==> forall k :: 0 <= k < |wanted| ==> wanted[k] in values
  {
    var i := 0;
    while i < |wanted|
      invariant 0 <= i <= |wanted| && forall k :: 0 <= k < i ==> wanted[k] in values
    {
      if wanted[i] !in values { return false; }
      i := i + 1;
    }
    ok := true;
  }

  /** Reading the live state back decides whether it is quiet. */
  lemma QuietByNames(plugins: seq<Status>, disabled: seq<string>, names: seq<string>, canonical: seq<string>)
    requires Canonical(names).Some? && Accepted(NamesOf(plugins)) && Canonical(disabled) == Some(canonical)
    ensures HeldQuiet(plugins, disabled, names) <==>
      && (forall k :: 0 <= k < |plugins| ==> plugins[k].disabled && NamesOf(plugins)[k] in canonical)
      && EqualNames(NamesOf(plugins), Canonical(names).value)
    ensures Accepted(canonical) && Elements(canonical) == Elements(disabled) && |canonical| <= |disabled|
  {
    CanonicalAgain(names);
    CanonicalAgain(disabled);
    EqualNamesExactly(NamesOf(plugins), Canonical(names).value);
    forall k | 0 <= k < |plugins| ensures plugins[k].name in disabled <==> NamesOf(plugins)[k] in canonical {
      assert plugins[k].name in Elements(canonical) <==> plugins[k].name in Elements(disabled);
    }
  }

  /** The live state can be read and is quiet. */
  predicate SeenQuiet(plugins: seq<Status>, disabled: seq<string>, names: seq<string>) {
    && Accepted(NamesOf(plugins)) && Accepted(disabled) && Canonical(names).Some?
    && HeldQuiet(plugins, disabled, names)
  }

  /** Reads the live state back and demands that it is quiet. */
  method VerifiedDisabledState(decky: Decky, expectedNames: seq<string>) returns (result: Option<seq<string>>)
    modifies decky`failures
    ensures result.Some? ==> decky.failures == old(decky.failures)
    ensures result.Some? ==>
      && SeenQuiet(decky.plugins, decky.disabled, expectedNames)
      && Elements(result.value) == Elements(decky.disabled)
      && Accepted(result.value) && |result.value| <= |decky.disabled|
    ensures !decky.faulty && SeenQuiet(decky.plugins, decky.disabled, expectedNames) ==> result.Some?
  {
    var expected := CanonicalPluginNames(expectedNames);
    if expected.None? { return None; }
    var inventory := decky.Inventory();
    if inventory.None? { return None; }
    var actual := StoppedNames(inventory.value);
    if Accepted(decky.disabled) {
      QuietByNames(decky.plugins, decky.disabled, expectedNames, Canonical(decky.disabled).value);
    }
    if actual.None? || !EqualNames(actual.value, expected.value) { return None; }
    var disabled := decky.DisabledPlugins();
    if disabled.None? { return None; }
    result := CanonicalPluginNames(disabled.value);
    var listed := ContainsAll(result.value, actual.value);
    if !listed { return None; }
  }

  // ---------------------------------------------------------------- what restore keeps

  /** Restore's record of the loader. The current inventory is a list in an array of its own, filtered
      and extended in place; the original one must never change. */
  class Record {
    const originalDisabled: seq<string>
    const originals: array<Status>
    var temporaryDisabled: seq<string>
    var statuses: array<Status>
    var length: nat

    constructor (originalDisabled: seq<string>, temporaryDisabled: seq<string>, inventory: seq<Status>)
      ensures Valid() && fresh(originals) && fresh(statuses)
      ensures Inventory() == inventory && originals[..] == inventory
      ensures this.originalDisabled == originalDisabled && this.temporaryDisabled == temporaryDisabled
    {
      this.originalDisabled, this.temporaryDisabled := originalDisabled, temporaryDisabled;
      var copy := new Status[|inventory|](i requires 0 <= i < |inventory| => inventory[i]);
      var list := new Status[|inventory|](i requires 0 <= i < |inventory| => inventory[i]);
      originals, statuses, length := copy, list, |inventory|;
      new;
      assert originals[..] == inventory && statuses[..length] == inventory;
    }

    ghost predicate Valid()
      reads this
    {
      length <= statuses.Length && statuses != originals
    }

    ghost function Inventory(): seq<Status>
      reads this, statuses
      requires Valid()
    {
      statuses[..length]
    }

    /** The record agrees with a quiet loader: the same plugins, all on the list it keeps. */
    ghost predicate Agrees(decky: Decky)
      reads this, statuses, decky`plugins, decky`disabled
      requires Valid()
    {
      && HeldQuiet(decky.plugins, decky.disabled, NamesOf(Inventory()))
      && Elements(temporaryDisabled) == Elements(decky.disabled)
    }

    /** Filters the list in place. */
    method RemoveStatus(unwanted: string)
      requires Valid()
      modifies this`length, statuses
      ensures Valid() && Inventory() == WithoutPlugin(old(Inventory()), unwanted)
      ensures originals[..] == old(originals[..])
    {
      var kept, i := 0, 0;
      ghost var before := statuses[..length];
      while i < length
        invariant 0 <= kept <= i <= length == |before|
        invariant statuses[..kept] == WithoutPlugin(before[..i], unwanted)
        invariant forall k :: i <= k < length ==> statuses[k] == before[k]
        invariant originals[..] == old(originals[..])
      {
        WithoutOneMore(before, unwanted, i);
        if statuses[i].name != unwanted {
          statuses[kept] := statuses[i];
          kept := kept + 1;
        }
        i := i + 1;
      }
      assert before[..i] == before;
      length := kept;
    }

    /** Appends in place while there is room, and to a larger copy otherwise. */
    method Append(status: Status)
      requires Valid()
      modifies this`length, this`statuses, statuses
      ensures Valid() && Inventory() == old(Inventory()) + [status]
      ensures statuses == old(statuses) || fresh(statuses)
      ensures originals[..] == old(originals[..])
    {
      if length == statuses.Length {
        var larger := new Status[2 * length + 1](_ => status);
        var i := 0;
        while i < length
          invariant 0 <= i <= length && larger[..i] == statuses[..i]
          modifies larger
        {
          larger[i] := statuses[i];
          i := i + 1;
        }
        statuses := larger;
      }
      statuses[length] := status;
      length := length + 1;
    }

    method ReplaceStatus(unwanted: string, status: Status)
      requires Valid()
      modifies this`length, this`statuses, statuses
      ensures Valid() && Inventory() == WithoutPlugin(old(Inventory()), unwanted) + [status]
      ensures statuses == old(statuses) || fresh(statuses)
      ensures originals[..] == old(originals[..])
    {
      RemoveStatus(unwanted);
      Append(status);
    }

    /** The names of the current inventory, as a list of their own. */
    method Names() returns (names: seq<string>)
      requires Valid()
      ensures names == NamesOf(Inventory())
    {
      names := NamesOf(statuses[..length]);
    }
  }

  // ---------------------------------------------------------------- the coordinator

  /** Whether every plugin is stopped exactly if it is listed. */
  method FlagsMatch(inventory: seq<Status>, disabled: seq<string>) returns (ok: bool)
    ensures ok <==> forall k :: 0 <= k < |inventory| ==> (inventory[k].disabled <==> inventory[k].name in disabled)
  {
    var i := 0;
    while i < |inventory|
      invariant 0 <= i <= |inventory|
      invariant forall k :: 0 <= k < i ==> (inventory[k].disabled <==> inventory[k].name in disabled)
    {
      if inventory[i].disabled != (inventory[i].name in disabled) { return false; }
      i := i + 1;
    }
    ok := true;
  }

  /** Reading the live state back decides whether it is the original one. */
  lemma OriginalByNames(plugins: seq<Status>, disabled: seq<string>, names: seq<string>, listed: seq<string>,
                        canonical: seq<string>)
    requires Canonical(names).Some? && Canonical(listed) == Some(canonical)
    requires Accepted(NamesOf(plugins)) && Accepted(disabled)
    ensures AsOriginally(plugins, disabled, names, listed) <==>
      && EqualNames(NamesOf(plugins), Canonical(names).value) && EqualNames(disabled, canonical)
      && (forall k :: 0 <= k < |plugins| ==> (plugins[k].disabled <==> plugins[k].name in canonical))
  {
    CanonicalAgain(names);
    CanonicalAgain(listed);
    EqualNamesExactly(NamesOf(plugins), Canonical(names).value);
    EqualNamesExactly(disabled, canonical);
    forall k | 0 <= k < |plugins| ensures plugins[k].name in canonical <==> plugins[k].name in listed {
      assert plugins[k].name in Elements(canonical) <==> plugins[k].name in Elements(listed);
    }
  }

  /** The live state can be read and is the original one. */
  predicate SeenOriginal(plugins: seq<Status>, disabled: seq<string>, names: seq<string>, listed: seq<string>) {
    && Accepted(NamesOf(plugins)) && Accepted(disabled) && Canonical(names).Some? && Canonical(listed).Some?
    && AsOriginally(plugins, disabled, names, listed)
  }

  /** Reads the live state back and demands that it is the original one. */
  method VerifyOriginalState(decky: Decky, names: seq<string>, listed: seq<string>) returns (ok: bool)
    modifies decky`failures
    ensures ok ==> decky.failures == old(decky.failures)
    ensures ok ==> SeenOriginal(decky.plugins, decky.disabled, names, listed)
    ensures !decky.faulty && SeenOriginal(decky.plugins, decky.disabled, names, listed) ==> ok
  {
    var expected := CanonicalPluginNames(names);
    if expected.None? { return false; }
    var canonical := CanonicalPluginNames(listed);
    if canonical.None? { return false; }
    if Accepted(NamesOf(decky.plugins)) && Accepted(decky.disabled) {
      OriginalByNames(decky.plugins, decky.disabled, names, listed, canonical.value);
    }
    var inventory := decky.Inventory();
    if inventory.None? || !EqualNames(NamesOf(inventory.value), expected.value) { return false; }
    var disabled := decky.DisabledPlugins();
    if disabled.None? || !EqualNames(disabled.value, canonical.value) { return false; }
    ok := FlagsMatch(inventory.value, canonical.value);
  }

  /** The loader's state is orderly, and there is room for a list of everything that is in it. */
  predicate Plannable(plugins: seq<Status>, disabled: seq<string>) {
    && Accepted(NamesOf(plugins)) && Accepted(disabled) && |plugins| + |disabled| <= MAX_NAMES
    && forall i :: 0 <= i < |plugins| ==> (plugins[i].disabled <==> plugins[i].name in disabled)
  }

  /** Records the state to come back to, and the list that disables everything as well. */
  method PlanQuiescence(decky: Decky) returns (record: Record?)
    modifies decky`failures
    ensures record != null ==> decky.failures == old(decky.failures)
    ensures record != null ==>
      && fresh(record) && fresh(record.originals) && fresh(record.statuses) && record.Valid()
      && record.Inventory() == record.originals[..] == decky.plugins
      && AsOriginally(decky.plugins, decky.disabled, NamesOf(record.originals[..]), record.originalDisabled)
      && Elements(record.temporaryDisabled) == Elements(decky.disabled) + Elements(NamesOf(decky.plugins))
    ensures record != null ==>
      && Accepted(NamesOf(decky.plugins)) && Accepted(record.originalDisabled) && Accepted(record.temporaryDisabled)
      && |record.temporaryDisabled| <= |decky.disabled| + |decky.plugins|
    ensures !decky.faulty ==> (record != null <==> Plannable(decky.plugins, decky.disabled))
  {
    var inventory := decky.Inventory();
    if inventory.None? { return null; }
    var listed := decky.DisabledPlugins();
    if listed.None? { return null; }
    var disabled := CanonicalPluginNames(listed.value);
    var names := NamesOf(inventory.value);
    var temporary := CanonicalPluginNames(disabled.value + names);
    CanonicalAgain(listed.value);
    SameLength(listed.value);
    if temporary.None? { return null; }
    CanonicalAgain(disabled.value + names);
    ElementsConcat(disabled.value, names);
    record := new Record(disabled.value, temporary.value, inventory.value);
    SeenPlannable(decky.plugins, decky.disabled, disabled.value);
    var original := VerifyOriginalState(decky, names, disabled.value);
    if !original { return null; }
  }

  lemma SameLength(names: seq<string>)
    requires Accepted(names)
    ensures |Canonical(names).value| == |names|
  {
    CanonicalAgain(names);
    DistinctElements(names);
    DistinctElements(Canonical(names).value);
  }

  lemma SeenPlannable(plugins: seq<Status>, disabled: seq<string>, canonical: seq<string>)
    requires Accepted(NamesOf(plugins)) && Accepted(disabled) && Canonical(disabled) == Some(canonical)
    ensures SeenOriginal(plugins, disabled, NamesOf(plugins), canonical) <==>
      forall i :: 0 <= i < |plugins| ==> (plugins[i].disabled <==> plugins[i].name in disabled)
  {
    CanonicalAgain(disabled);
    forall k | 0 <= k < |plugins| ensures plugins[k].name in canonical <==> plugins[k].name in disabled {
      assert plugins[k].name in Elements(canonical) <==> plugins[k].name in Elements(disabled);
    }
  }

  lemma ElementsConcat<T>(some: seq<T>, others: seq<T>)
    ensures Elements(some + others) == Elements(some) + Elements(others)
  {
    var all := some + others;
    forall x | x in Elements(some) + Elements(others) ensures x in Elements(all) {
      if i :| 0 <= i < |some| && some[i] == x {
        assert all[i] == x;
      } else {
        var j :| 0 <= j < |others| && others[j] == x;
        assert all[|some| + j] == x;
      }
    }
  }

  /** Stops every plugin by restarting the loader with all of them listed. */
  method Quiesce(decky: Decky, record: Record) returns (ok: bool)
    requires record.Valid()
    modifies decky
    ensures ok ==> decky.failures == old(decky.failures)
    ensures ok ==> SeenQuiet(decky.plugins, decky.disabled, NamesOf(record.Inventory()))
    ensures !decky.faulty ==>
      && NamesOf(decky.plugins) == NamesOf(old(decky.plugins))
      && (ok ==> decky.disabled == record.temporaryDisabled)
      && (ok <==>
            && Accepted(record.temporaryDisabled) && Accepted(NamesOf(old(decky.plugins)))
            && Canonical(NamesOf(record.Inventory())).Some?
            && Elements(NamesOf(old(decky.plugins))) == Elements(NamesOf(record.Inventory()))
            && Elements(NamesOf(old(decky.plugins))) <= Elements(record.temporaryDisabled))
  {
    ok := decky.SetDisabledPlugins(record.temporaryDisabled);
    if !ok { return; }
    ghost var running := decky.plugins;
    ok := decky.Restart();
    if !decky.faulty { RestartedQuiet(running, decky.disabled, NamesOf(record.Inventory())); }
    if !ok { return; }
    var names := record.Names();
    var state := VerifiedDisabledState(decky, names);
    ok := state.Some?;
  }

  lemma RestartedQuiet(plugins: seq<Status>, disabled: seq<string>, names: seq<string>)
    ensures HeldQuiet(Restarted(plugins, disabled), disabled, names) <==>
      Elements(NamesOf(plugins)) == Elements(names) && Elements(NamesOf(plugins)) <= Elements(disabled)
  {
    var restarted := Restarted(plugins, disabled);
    forall i | 0 <= i < |plugins|
      ensures restarted[i].disabled && restarted[i].name in disabled <==> NamesOf(plugins)[i] in Elements(disabled)
    {
      assert restarted[i].name == NamesOf(restarted)[i] == plugins[i].name;
    }
    if Elements(NamesOf(plugins)) <= Elements(disabled) {
      forall i | 0 <= i < |plugins| ensures NamesOf(plugins)[i] in Elements(disabled) {
        assert NamesOf(plugins)[i] in Elements(NamesOf(plugins));
      }
    }
  }

  /** Lists a plugin that is about to be installed. */
  method KeepDisabled(decky: Decky, record: Record, name: string) returns (ok: bool)
    requires record.Valid()
    modifies decky`disabled, decky`failures, record`temporaryDisabled
    ensures ok ==> decky.failures == old(decky.failures)
    ensures ok ==> decky.disabled == record.temporaryDisabled && Accepted(decky.disabled)
                   && Elements(record.temporaryDisabled) == Elements(old(record.temporaryDisabled)) + {name}
                   && |record.temporaryDisabled| <= |old(record.temporaryDisabled)| + 1
    ensures !ok ==> record.temporaryDisabled == old(record.temporaryDisabled)
    ensures !decky.faulty ==> (ok <==> Canonical(old(record.temporaryDisabled) + [name]).Some?)
  {
    var canonical := CanonicalPluginNames(record.temporaryDisabled + [name]);
    if canonical.None? { return false; }
    CanonicalAgain(record.temporaryDisabled + [name]);
    ElementsAppend(record.temporaryDisabled, name);
    ok := decky.SetDisabledPlugins(canonical.value);
    if ok { record.temporaryDisabled := canonical.value; }
  }

  method SynchronizeQuiescence(decky: Decky, record: Record, expected: seq<string>) returns (ok: bool)
    requires record.Valid()
    modifies decky`failures, record`temporaryDisabled
    ensures ok ==> decky.failures == old(decky.failures)
    ensures ok ==>
      && SeenQuiet(decky.plugins, decky.disabled, expected)
      && Elements(record.temporaryDisabled) == Elements(decky.disabled)
      && Accepted(record.temporaryDisabled) && |record.temporaryDisabled| <= |decky.disabled|
    ensures !decky.faulty ==> (ok <==> SeenQuiet(decky.plugins, decky.disabled, expected))
  {
    var disabled := VerifiedDisabledState(decky, expected);
    if disabled.None? { return false; }
    record.temporaryDisabled := disabled.value;
    ok := true;
  }

  /** Puts the original list back, restarts, and demands the original state. Without faults that
      succeeds exactly if the plugins are the original ones again. */
  method RestoreOriginal(decky: Decky, record: Record) returns (ok: bool)
    requires record.Valid()
    modifies decky
    ensures ok ==> decky.failures == old(decky.failures)
    ensures ok ==> AsOriginally(decky.plugins, decky.disabled, NamesOf(record.originals[..]), record.originalDisabled)
    ensures !decky.faulty ==>
      && NamesOf(decky.plugins) == NamesOf(old(decky.plugins))
      && (ok <==>
            && Accepted(record.originalDisabled) && Accepted(NamesOf(old(decky.plugins)))
            && Canonical(NamesOf(record.originals[..])).Some?
            && Elements(NamesOf(old(decky.plugins))) == Elements(NamesOf(record.originals[..])))
  {
    var stored := decky.SetDisabledPlugins(record.originalDisabled);
    ghost var running := decky.plugins;
    var restarted := decky.Restart();
    if !decky.faulty { RestartedOriginal(running, decky.disabled, NamesOf(record.originals[..])); }
    ok := VerifyOriginalState(decky, NamesOf(record.originals[..]), record.originalDisabled);
    ok := ok && stored && restarted;
  }

  lemma RestartedOriginal(plugins: seq<Status>, disabled: seq<string>, names: seq<string>)
    ensures AsOriginally(Restarted(plugins, disabled), disabled, names, disabled)
            <==> Elements(NamesOf(plugins)) == Elements(names)
  {
    var restarted := Restarted(plugins, disabled);
    forall i | 0 <= i < |plugins| ensures restarted[i].disabled <==> restarted[i].name in disabled {
      assert restarted[i].name == plugins[i].name;
    }
  }

  // ---------------------------------------------------------------- through a whole restore

  /** A plugin mutation Decky carries out. A replacement records no existing name, so what it
      replaces stays in the list beside its new entry. */
  datatype Mutation =
    | Removal(existingName: string)
    | Creation(storeName: string, version: string)
    | Replacement(storeName: string, version: string)

  const NO_NAME := ""

  /** The plugins there are after a mutation, and after several. */
  function NamesAfter(names: set<string>, mutation: Mutation): set<string> {
    if mutation.Removal? then names - {mutation.existingName} else names + {mutation.storeName}
  }

  function NamesAfterAll(names: set<string>, mutations: seq<Mutation>): set<string>
    decreases |mutations|
  {
    if mutations == [] then names else NamesAfterAll(NamesAfter(names, mutations[0]), mutations[1..])
  }

  predicate SafelyNamed(mutation: Mutation) { !mutation.Removal? ==> Safe(mutation.storeName) }

  predicate AllSafelyNamed(mutations: seq<Mutation>) {
    forall i :: 0 <= i < |mutations| ==> SafelyNamed(mutations[i])
  }

  /** Every list restore handles can take this many more names. */
  ghost predicate HasRoom(decky: Decky, record: Record, room: nat)
    reads decky`plugins, decky`disabled, record, record.statuses
    requires record.Valid()
  {
    && Accepted(NamesOf(decky.plugins)) && |decky.plugins| + room <= MAX_NAMES
    && Accepted(decky.disabled) && |decky.disabled| + room <= MAX_NAMES
    && Canonical(record.temporaryDisabled).Some? && |record.temporaryDisabled| + room <= MAX_NAMES
    && Canonical(NamesOf(record.Inventory())).Some? && record.length + room <= MAX_NAMES
  }

  /** The names the loader should run after a mutation, as restore computes them. */
  function ExpectedAfter(names: seq<string>, mutation: Mutation): seq<string> {
    match mutation
    case Removal(existingName) => WithoutName(names, existingName)
    case Creation(storeName, _) => names + [storeName]
    case Replacement(storeName, _) => WithoutName(names, NO_NAME) + [storeName]
  }

  /** The record's inventory after a mutation. */
  function InventoryAfter(inventory: seq<Status>, mutation: Mutation): seq<Status> {
    match mutation
    case Removal(existingName) => WithoutPlugin(inventory, existingName)
    case Creation(storeName, version) => WithoutPlugin(inventory, NO_NAME) + [Status(storeName, version, true)]
    case Replacement(storeName, version) => WithoutPlugin(inventory, NO_NAME) + [Status(storeName, version, true)]
  }

  /** What a loader that does as it is asked makes of a mutation. */
  function PluginsAfter(plugins: seq<Status>, disabled: seq<string>, mutation: Mutation): seq<Status> {
    match mutation
    case Removal(name) => WithoutPlugin(plugins, name)
    case Creation(name, version) => WithoutPlugin(plugins, name) + [Status(name, version, name in disabled)]
    case Replacement(name, version) => WithoutPlugin(plugins, name) + [Status(name, version, name in disabled)]
  }

  predicate ListAfter(before: seq<string>, disabled: seq<string>, mutation: Mutation) {
    disabled == before || (mutation.Removal? && disabled == WithoutName(before, mutation.existingName))
  }

  method Ask(decky: Decky, mutation: Mutation) returns (ok: bool)
    modifies decky
    ensures ok ==> decky.failures == old(decky.failures)
    ensures !decky.faulty ==>
      && ok && decky.plugins == PluginsAfter(old(decky.plugins), old(decky.disabled), mutation)
      && ListAfter(old(decky.disabled), decky.disabled, mutation)
  {
    match mutation {
      case Removal(existingName) => ok := decky.Uninstall(existingName);
      case Creation(storeName, version) => ok := decky.Install(storeName, version);
      case Replacement(storeName, version) => ok := decky.Install(storeName, version);
    }
  }

  lemma {:induction false} MembersWithout(statuses: seq<Status>, unwanted: string)
    ensures forall status :: status in WithoutPlugin(statuses, unwanted) ==> status in statuses
    ensures |WithoutPlugin(statuses, unwanted)| <= |statuses|
  {
    if statuses != [] {
      MembersWithout(statuses[..|statuses| - 1], unwanted);
      assert statuses == statuses[..|statuses| - 1] + [statuses[|statuses| - 1]];
    }
  }

  /** The names after a mutation, of the loader's plugins. */
  lemma NamesOfAfter(plugins: seq<Status>, disabled: seq<string>, mutation: Mutation)
    requires Accepted(NamesOf(plugins)) && SafelyNamed(mutation) && |plugins| < MAX_NAMES
    ensures var after := PluginsAfter(plugins, disabled, mutation);
            && Accepted(NamesOf(after)) && |after| <= |plugins| + 1
            && Elements(NamesOf(after)) == NamesAfter(Elements(NamesOf(plugins)), mutation)
  {
    var name := if mutation.Removal? then mutation.existingName else mutation.storeName;
    var after := PluginsAfter(plugins, disabled, mutation);
    NamesWithout(plugins, name);
    MembersWithout(plugins, name);
    if mutation.Removal? {
      AcceptedWithout(NamesOf(plugins), name);
      ElementsWithout(NamesOf(plugins), name);
    } else {
      AcceptedWithLast(NamesOf(plugins), name);
      assert NamesOf(after) == WithoutName(NamesOf(plugins), name) + [name];
    }
  }

  /** And of the list restore expects. */
  lemma ExpectedNames(inventory: seq<Status>, mutation: Mutation)
    requires Canonical(NamesOf(inventory)).Some? && SafelyNamed(mutation) && |inventory| < MAX_NAMES
    ensures var expected := ExpectedAfter(NamesOf(inventory), mutation);
            && Canonical(expected).Some?
            && Elements(expected) == NamesAfter(Elements(NamesOf(inventory)), mutation)
  {
    var names := NamesOf(inventory);
    var unwanted := if mutation.Removal? then mutation.existingName else NO_NAME;
    var expected := ExpectedAfter(names, mutation);
    ElementsWithout(names, unwanted);
    NoNameIsSafe(names);
    if !mutation.Removal? {
      ElementsAppend(names, mutation.storeName);
      ElementsAppend(WithoutName(names, NO_NAME), mutation.storeName);
    }
    forall i | 0 <= i < |expected| ensures Safe(expected[i]) {
      assert expected[i] in Elements(expected);
    }
  }

  lemma NoNameIsSafe(names: seq<string>)
    requires AllSafe(names)
    ensures NO_NAME !in Elements(names) && forall name :: name in Elements(names) ==> Safe(name)
  {
  }

  lemma CreationHasNoBlank(names: seq<string>, name: string)
    requires Canonical(names + [name]).Some?
    ensures NO_NAME !in Elements(names) && Elements(names + [name]) == Elements(names) + {name}
  {
    ElementsAppend(names, name);
    forall i | 0 <= i < |names| ensures names[i] != NO_NAME {
      assert (names + [name])[i] == names[i] && Safe((names + [name])[i]);
    }
  }

  lemma NewNames(names: seq<string>, mutation: Mutation)
    requires !mutation.Removal? && Canonical(ExpectedAfter(names, mutation)).Some?
    ensures Elements(WithoutName(names, NO_NAME) + [mutation.storeName]) == Elements(ExpectedAfter(names, mutation))
  {
    if mutation.Creation? {
      CreationHasNoBlank(names, mutation.storeName);
      ElementsWithout(names, NO_NAME);
      ElementsAppend(WithoutName(names, NO_NAME), mutation.storeName);
    }
  }

  lemma NamesOfInventory(inventory: seq<Status>, mutation: Mutation)
    ensures NamesOf(InventoryAfter(inventory, mutation))
            == if mutation.Removal? then WithoutName(NamesOf(inventory), mutation.existingName)
               else WithoutName(NamesOf(inventory), NO_NAME) + [mutation.storeName]
    ensures |InventoryAfter(inventory, mutation)| <= |inventory| + 1
  {
    var unwanted := if mutation.Removal? then mutation.existingName else NO_NAME;
    NamesWithout(inventory, unwanted);
    MembersWithout(inventory, unwanted);
  }

  /** What restore keeps in its inventory has the names it expects: no acceptable plugin has no name. */
  lemma InventoryNames(inventory: seq<Status>, mutation: Mutation)
    requires Canonical(ExpectedAfter(NamesOf(inventory), mutation)).Some?
    ensures var names := NamesOf(InventoryAfter(inventory, mutation));
            && Elements(names) == Elements(ExpectedAfter(NamesOf(inventory), mutation))
            && |names| <= |inventory| + 1 && (|inventory| < MAX_NAMES ==> Canonical(names).Some?)
  {
    NamesOfInventory(inventory, mutation);
    if !mutation.Removal? { NewNames(NamesOf(inventory), mutation); }
    SafeAmong(NamesOf(InventoryAfter(inventory, mutation)), ExpectedAfter(NamesOf(inventory), mutation));
  }

  predicate AllStopped(plugins: seq<Status>, disabled: set<string>) {
    forall i :: 0 <= i < |plugins| ==> plugins[i].disabled && plugins[i].name in disabled
  }

  lemma RemainingAreStopped(plugins: seq<Status>, before: set<string>, name: string, disabled: set<string>)
    requires AllStopped(plugins, before) && before - {name} <= disabled
    ensures AllStopped(WithoutPlugin(plugins, name), disabled)
  {
    var kept := WithoutPlugin(plugins, name);
    MembersWithout(plugins, name);
    NamesWithout(plugins, name);
    ElementsWithout(NamesOf(plugins), name);
    forall i | 0 <= i < |kept| ensures kept[i].disabled && kept[i].name in disabled {
      assert kept[i] in plugins && kept[i].name in before;
      assert NamesOf(kept)[i] in Elements(NamesOf(kept));
    }
  }

  /** The list the loader has after a mutation, before which a new plugin was put on it. */
  predicate ListedFor(before: seq<string>, listed: seq<string>, mutation: Mutation) {
    Elements(listed) == if mutation.Removal? then Elements(before) else Elements(before) + {mutation.storeName}
  }

  lemma MutatedAreStopped(plugins: seq<Status>, before: seq<string>, listed: seq<string>, disabled: seq<string>,
                          mutation: Mutation)
    requires AllStopped(plugins, Elements(before))
    requires ListedFor(before, listed, mutation) && ListAfter(listed, disabled, mutation)
    ensures AllStopped(PluginsAfter(plugins, listed, mutation), Elements(disabled))
  {
    if mutation.Removal? {
      ElementsWithout(listed, mutation.existingName);
      RemainingAreStopped(plugins, Elements(before), mutation.existingName, Elements(disabled));
    } else {
      assert mutation.storeName in Elements(listed);
      RemainingAreStopped(plugins, Elements(before), mutation.storeName, Elements(disabled));
    }
  }

  /** A quiet loader that does as it is asked is found quiet afterwards, with the plugins expected. */
  lemma MutatedIsQuiet(plugins: seq<Status>, before: seq<string>, listed: seq<string>, disabled: seq<string>,
                       inventory: seq<Status>, mutation: Mutation)
    requires HeldQuiet(plugins, before, NamesOf(inventory)) && Accepted(NamesOf(plugins)) && Accepted(disabled)
    requires Canonical(NamesOf(inventory)).Some? && SafelyNamed(mutation)
    requires |plugins| < MAX_NAMES && |inventory| < MAX_NAMES
    requires ListedFor(before, listed, mutation) && ListAfter(listed, disabled, mutation)
    ensures SeenQuiet(PluginsAfter(plugins, listed, mutation), disabled, ExpectedAfter(NamesOf(inventory), mutation))
  {
    NamesOfAfter(plugins, listed, mutation);
    ExpectedNames(inventory, mutation);
    MutatedAreStopped(plugins, before, listed, disabled, mutation);
  }

  lemma SafeAppend(names: seq<string>, name: string)
    requires Canonical(names).Some? && |names| < MAX_NAMES && Safe(name)
    ensures Canonical(names + [name]).Some?
  {
  }

  /** What a loader that does as it is asked leaves after one mutation. */
  lemma CarriedOutQuietly(plugins: seq<Status>, before: seq<string>, listed: seq<string>, disabled: seq<string>,
                          inventory: seq<Status>, mutation: Mutation)
    requires HeldQuiet(plugins, before, NamesOf(inventory)) && Accepted(NamesOf(plugins)) && Accepted(listed)
    requires Canonical(NamesOf(inventory)).Some? && SafelyNamed(mutation)
    requires |plugins| < MAX_NAMES && |inventory| < MAX_NAMES
    requires ListedFor(before, listed, mutation) && ListAfter(listed, disabled, mutation)
    ensures var after := PluginsAfter(plugins, listed, mutation);
            && SeenQuiet(after, disabled, ExpectedAfter(NamesOf(inventory), mutation))
            && Elements(NamesOf(after)) == NamesAfter(Elements(NamesOf(plugins)), mutation)
            && |after| <= |plugins| + 1 && |disabled| <= |listed|
  {
    if mutation.Removal? {
      AcceptedWithout(listed, mutation.existingName);
      ElementsWithout(listed, mutation.existingName);
    }
    MutatedIsQuiet(plugins, before, listed, disabled, inventory, mutation);
    NamesOfAfter(plugins, listed, mutation);
  }

  /** Has Decky carry out one mutation, a new plugin being put on its list first. */
  method CarryOut(decky: Decky, record: Record, mutation: Mutation) returns (ok: bool)
    requires record.Valid()
    modifies decky, record`temporaryDisabled
    ensures ok ==> decky.failures == old(decky.failures)
    ensures !decky.faulty && SafelyNamed(mutation) && old(record.Agrees(decky)) && old(HasRoom(decky, record, 1)) ==>
      && ok && SeenQuiet(decky.plugins, decky.disabled, ExpectedAfter(NamesOf(record.Inventory()), mutation))
      && Elements(NamesOf(decky.plugins)) == NamesAfter(Elements(NamesOf(old(decky.plugins))), mutation)
      && |decky.plugins| <= |old(decky.plugins)| + 1
      && |decky.disabled| <= if mutation.Removal? then |old(decky.disabled)| else |old(record.temporaryDisabled)| + 1
  {
    ghost var plugins, before, inventory := decky.plugins, decky.disabled, record.Inventory();
    ghost var ready := record.Agrees(decky) && HasRoom(decky, record, 1);
    if !mutation.Removal? {
      if ready && SafelyNamed(mutation) { SafeAppend(record.temporaryDisabled, mutation.storeName); }
      ok := KeepDisabled(decky, record, mutation.storeName);
      if !ok { return; }
    }
    ghost var listed := decky.disabled;
    ok := Ask(decky, mutation);
    if ready && !decky.faulty && SafelyNamed(mutation) {
      CarriedOutQuietly(plugins, before, listed, decky.disabled, inventory, mutation);
    }
  }

  /** Brings the record up to date, which succeeds exactly if the loader is found as expected. */
  method BringUpToDate(decky: Decky, record: Record, mutation: Mutation) returns (ok: bool)
    requires record.Valid()
    modifies decky`failures, record`temporaryDisabled, record`length, record`statuses, record.statuses
    ensures ok ==> decky.failures == old(decky.failures)
    ensures record.Valid() && (record.statuses == old(record.statuses) || fresh(record.statuses))
    ensures record.originals[..] == old(record.originals[..])
    ensures ok ==>
      && record.Agrees(decky) && record.Inventory() == InventoryAfter(old(record.Inventory()), mutation)
      && Accepted(decky.disabled) && Accepted(record.temporaryDisabled)
      && |record.temporaryDisabled| <= |decky.disabled|
    ensures !decky.faulty ==>
      (ok <==> SeenQuiet(decky.plugins, decky.disabled, ExpectedAfter(NamesOf(old(record.Inventory())), mutation)))
  {
    var expected := record.Names();
    match mutation {
      case Removal(existingName) =>
        expected := WithoutName(expected, existingName);
      case Creation(storeName, _) =>
        expected := expected + [storeName];
      case Replacement(storeName, _) =>
        expected := WithoutName(expected, NO_NAME) + [storeName];
    }
    ok := SynchronizeQuiescence(decky, record, expected);
    if !ok { return; }
    InventoryNames(record.Inventory(), mutation);
    if mutation.Removal? {
      record.RemoveStatus(mutation.existingName);
    } else {
      record.ReplaceStatus(NO_NAME, Status(mutation.storeName, mutation.version, true));
    }
  }

  /** Lets Decky carry out one mutation and brings the record up to date. Without faults that succeeds
      from a state in agreement, as long as there is room in the lists for one more name. */
  method Mutate(decky: Decky, record: Record, mutation: Mutation, ghost room: nat) returns (ok: bool)
    requires record.Valid() && 0 < room
    modifies decky, record`temporaryDisabled, record`length, record`statuses, record.statuses
    ensures ok ==> decky.failures == old(decky.failures)
    ensures record.Valid() && (record.statuses == old(record.statuses) || fresh(record.statuses))
    ensures record.originals[..] == old(record.originals[..])
    ensures ok ==> record.Agrees(decky)
    ensures !decky.faulty && SafelyNamed(mutation) && old(record.Agrees(decky)) && old(HasRoom(decky, record, room)) ==>
      && ok && HasRoom(decky, record, room - 1)
      && Elements(NamesOf(decky.plugins)) == NamesAfter(Elements(NamesOf(old(decky.plugins))), mutation)
  {
    ghost var inventory := record.Inventory();
    ok := CarryOut(decky, record, mutation);
    if !ok { return; }
    ok := BringUpToDate(decky, record, mutation);
    if Canonical(ExpectedAfter(NamesOf(inventory), mutation)).Some? { InventoryNames(inventory, mutation); }
  }

  lemma NamesAfterNext(names: set<string>, mutations: seq<Mutation>, i: nat)
    requires i < |mutations|
    ensures NamesAfterAll(names, mutations[i..])
            == NamesAfterAll(NamesAfter(names, mutations[i]), mutations[i + 1..])
  {
    assert mutations[i..][1..] == mutations[i + 1..];
  }

  /** Carries out mutations one by one; after each, the record agrees with the loader. */
  method Converge(decky: Decky, record: Record, mutations: seq<Mutation>, ghost room: nat) returns (ok: bool)
    requires record.Valid() && record.Agrees(decky) && |mutations| <= room
    modifies decky, record`temporaryDisabled, record`length, record`statuses, record.statuses
    ensures ok ==> decky.failures == old(decky.failures)
    ensures record.Valid() && record.originals[..] == old(record.originals[..])
    ensures ok ==> record.Agrees(decky)
    ensures !decky.faulty && AllSafelyNamed(mutations) && old(HasRoom(decky, record, room)) ==>
      && ok && Accepted(NamesOf(decky.plugins))
      && Elements(NamesOf(decky.plugins)) == NamesAfterAll(Elements(NamesOf(old(decky.plugins))), mutations)
  {
    ghost var working := !decky.faulty && HasRoom(decky, record, room) && AllSafelyNamed(mutations);
    ghost var names := Elements(NamesOf(decky.plugins));
    ghost var final := NamesAfterAll(names, mutations);
    var i := 0;
    while i < |mutations|
      invariant 0 <= i <= |mutations| && record.Valid() && record.Agrees(decky)
      invariant decky.failures == old(decky.failures)
      invariant record.statuses == old(record.statuses) || fresh(record.statuses)
      invariant record.originals[..] == old(record.originals[..])
      invariant working ==> HasRoom(decky, record, room - i) && Elements(NamesOf(decky.plugins)) == names
      invariant NamesAfterAll(names, mutations[i..]) == final
    {
      NamesAfterNext(names, mutations, i);
      ok := Mutate(decky, record, mutations[i], room - i);
      if !ok { return; }
      names := NamesAfter(names, mutations[i]);
      i := i + 1;
    }
    ok := true;
  }

  /** Two readings that both match the original state agree on the plugins, on the list, and on
      whether each plugin is stopped. */
  lemma SameFlags(plugins: seq<Status>, disabled: seq<string>, later: seq<Status>, laterDisabled: seq<string>,
                  originals: seq<string>, originalDisabled: seq<string>, i: nat, j: nat)
    requires AsOriginally(plugins, disabled, originals, originalDisabled)
    requires AsOriginally(later, laterDisabled, originals, originalDisabled)
    requires i < |plugins| && j < |later| && plugins[i].name == later[j].name
    ensures plugins[i].disabled == later[j].disabled
    ensures Elements(NamesOf(plugins)) == Elements(NamesOf(later)) && Elements(disabled) == Elements(laterDisabled)
  {
  }

  /** The first synchronization brings the list the record keeps in line with the loader's. */
  method ConvergeQuietly(decky: Decky, record: Record, mutations: seq<Mutation>, ghost room: nat) returns (ok: bool)
    requires record.Valid() && HeldQuiet(decky.plugins, decky.disabled, NamesOf(record.Inventory()))
    requires |mutations| <= room
    modifies decky, record`temporaryDisabled, record`length, record`statuses, record.statuses
    ensures ok ==> decky.failures == old(decky.failures)
    ensures record.Valid() && record.originals[..] == old(record.originals[..])
    ensures ok && mutations != [] ==> record.Agrees(decky)
    ensures !decky.faulty && AllSafelyNamed(mutations) && old(record.Agrees(decky))
            && old(HasRoom(decky, record, room)) ==>
      && ok && Accepted(NamesOf(decky.plugins))
      && Elements(NamesOf(decky.plugins)) == NamesAfterAll(Elements(NamesOf(old(decky.plugins))), mutations)
  {
    if mutations == [] { return true; }
    ok := Mutate(decky, record, mutations[0], room);
    if ok { ok := Converge(decky, record, mutations[1..], room - 1); }
  }

  /** Holds the loader quiet, lets it mutate its plugins, and puts its state back. When the last part
      reports success, the list and the flag of every plugin are those planning saw. Without faults,
      and with room in the lists, everything succeeds; only plugins that are not the original ones in
      the end keep the state from being accepted as put back. */
  method HoldAndRelease(decky: Decky, mutations: seq<Mutation>) returns (converged: bool, restored: bool)
    modifies decky
    ensures converged && restored ==> decky.failures == old(decky.failures)
    ensures restored ==>
      && Elements(decky.disabled) == Elements(old(decky.disabled))
      && Elements(NamesOf(decky.plugins)) == Elements(NamesOf(old(decky.plugins)))
      && forall i, j :: 0 <= i < |old(decky.plugins)| && 0 <= j < |decky.plugins|
                        && old(decky.plugins)[i].name == decky.plugins[j].name
                        ==> old(decky.plugins)[i].disabled == decky.plugins[j].disabled
    ensures !decky.faulty && old(Plannable(decky.plugins, decky.disabled)) && AllSafelyNamed(mutations)
            && |old(decky.plugins)| + |old(decky.disabled)| + |mutations| <= MAX_NAMES ==>
      var names := Elements(NamesOf(old(decky.plugins)));
      && converged && Elements(NamesOf(decky.plugins)) == NamesAfterAll(names, mutations)
      && (restored <==> NamesAfterAll(names, mutations) == names)
    ensures !decky.faulty && !old(Plannable(decky.plugins, decky.disabled)) ==>
      !converged && !restored && decky.plugins == old(decky.plugins) && decky.disabled == old(decky.disabled)
  {
    converged, restored := false, false;
    var record := PlanQuiescence(decky);
    if record == null { return; }
    ghost var plugins, disabled := decky.plugins, decky.disabled;
    CanonicalAgain(record.originalDisabled);
    var quiet := Quiesce(decky, record);
    ghost var room := if |plugins| + |disabled| + |mutations| <= MAX_NAMES then MAX_NAMES - |plugins| - |disabled|
                      else |mutations|;
    if quiet {
      converged := ConvergeQuietly(decky, record, mutations, room);
    }
    restored := RestoreOriginal(decky, record);
    if restored {
      forall i, j | 0 <= i < |plugins| && 0 <= j < |decky.plugins| && plugins[i].name == decky.plugins[j].name
        ensures plugins[i].disabled == decky.plugins[j].disabled
      {
        SameFlags(plugins, disabled, decky.plugins, decky.disabled,
                  NamesOf(record.originals[..]), record.originalDisabled, i, j);
      }
    }
  }
}
