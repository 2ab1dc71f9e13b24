/** Decky's loader, as restore talks to it. */
module DeckyPlugins {
  import opened Identities
  import opened PluginNames
  import opened Sequences
  import opened Sorting

  datatype Status = Status(name: string, version: string, disabled: bool)

  function NameOf(status: Status): string { status.name }

  function NamesOf(statuses: seq<Status>): seq<string> { Map(statuses, NameOf) }

  function WithoutName(names: seq<string>, unwanted: string): seq<string> {
    if names == [] then []
    else
      var rest, last := WithoutName(names[..|names| - 1], unwanted), names[|names| - 1];
      if last == unwanted then rest else rest + [last]
  }

  function WithoutPlugin(statuses: seq<Status>, unwanted: string): seq<Status> {
    if statuses == [] then []
    else
      var rest, last := WithoutPlugin(statuses[..|statuses| - 1], unwanted), statuses[|statuses| - 1];
      if last.name == unwanted then rest else rest + [last]
  }

  lemma {:induction false} NamesWithout(statuses: seq<Status>, unwanted: string)
    ensures NamesOf(WithoutPlugin(statuses, unwanted)) == WithoutName(NamesOf(statuses), unwanted)
  {
    if statuses != [] {
      var front, names := statuses[..|statuses| - 1], NamesOf(statuses);
      NamesWithout(front, unwanted);
      assert names[..|names| - 1] == NamesOf(front);
    }
  }

  lemma {:induction false} ElementsWithout(names: seq<string>, unwanted: string)
    ensures Elements(WithoutName(names, unwanted)) == Elements(names) - {unwanted}
    ensures |WithoutName(names, unwanted)| <= |names|
  {
    if names != [] {
      var front, last := names[..|names| - 1], names[|names| - 1];
      ElementsWithout(front, unwanted);
      ElementsAppend(front, last);
      assert names == front + [last];
      ElementsAppend(WithoutName(front, unwanted), last);
    }
  }

  lemma WithoutOneMore(statuses: seq<Status>, unwanted: string, i: nat)
    requires i < |statuses|
    ensures WithoutPlugin(statuses[..i + 1], unwanted)
            == WithoutPlugin(statuses[..i], unwanted) + if statuses[i].name == unwanted then [] else [statuses[i]]
  {
    assert statuses[..i + 1][..i] == statuses[..i];
  }

  // ---------------------------------------------------------------- lists the client accepts

  /** The client exchanges lists of safe names, each once, within the limit. */
  predicate Accepted(names: seq<string>) { |names| <= MAX_NAMES && AllSafe(names) && Distinct(names) }

  /** A canonical list is itself acceptable and names the same plugins. */
  lemma CanonicalAgain(names: seq<string>)
    requires Canonical(names).Some?
    ensures Accepted(Canonical(names).value) && Elements(Canonical(names).value) == Elements(names)
    ensures |Canonical(names).value| <= |names|
  {
    var canonical, once := Canonical(names).value, Once(names);
    CanonicalSet(names);
    DistinctElements(once);
    assert |multiset(canonical)| == |canonical| && |multiset(once)| == |once|;
    ElementsBounded(names);
    DistinctAnyOrder(once, canonical);
    SafeAmong(canonical, names);
  }

  lemma {:induction false} ElementsBounded<T>(items: seq<T>)
    ensures |Elements(items)| <= |items|
  {
    if items != [] {
      ElementsBounded(items[..|items| - 1]);
      ElementsAppend(items[..|items| - 1], items[|items| - 1]);
      assert items == items[..|items| - 1] + [items[|items| - 1]];
    }
  }

  lemma {:induction false} DistinctWithout(names: seq<string>, unwanted: string)
    requires Distinct(names)
    ensures Distinct(WithoutName(names, unwanted))
  {
    if names != [] {
      var front, last := names[..|names| - 1], names[|names| - 1];
      var fewer := WithoutName(front, unwanted);
      DistinctWithout(front, unwanted);
      ElementsWithout(front, unwanted);
      forall i | 0 <= i < |fewer| ensures fewer[i] != last {
        assert fewer[i] in Elements(fewer) && fewer[i] in Elements(front);
      }
    }
  }

  lemma AcceptedWithout(names: seq<string>, unwanted: string)
    requires Accepted(names)
    ensures Accepted(WithoutName(names, unwanted))
  {
    DistinctWithout(names, unwanted);
    ElementsWithout(names, unwanted);
    SafeAmong(WithoutName(names, unwanted), names);
  }

  lemma SafeAmong(some: seq<string>, names: seq<string>)
    requires AllSafe(names) && Elements(some) <= Elements(names)
    ensures AllSafe(some)
  {
    forall i | 0 <= i < |some| ensures Safe(some[i]) {
      assert some[i] in Elements(names);
    }
  }

  /** A list with a name put last, wherever it was before. */
  lemma AcceptedWithLast(names: seq<string>, name: string)
    requires Accepted(names) && Safe(name) && |names| < MAX_NAMES
    ensures Accepted(WithoutName(names, name) + [name])
    ensures Elements(WithoutName(names, name) + [name]) == Elements(names) + {name}
    ensures |WithoutName(names, name)| <= |names|
  {
    var fewer := WithoutName(names, name);
    AcceptedWithout(names, name);
    ElementsWithout(names, name);
    ElementsAppend(fewer, name);
    forall i | 0 <= i < |fewer| ensures fewer[i] != name {
      assert fewer[i] in Elements(fewer);
    }
  }

  // ---------------------------------------------------------------- the loader

  /** What a restart makes of the plugins: the listed ones stay stopped and the others run. */
  function Restarted(plugins: seq<Status>, disabled: seq<string>): (restarted: seq<Status>)
    ensures NamesOf(restarted) == NamesOf(plugins)
  {
    var restarted := Map(plugins, (status: Status) => status.(disabled := status.name in disabled));
    assert NamesOf(restarted) == NamesOf(plugins);
    restarted
  }

  /** The plugins the loader runs and the list of those it keeps disabled. A `faulty` loader may fail
      any request and do anything when asked for an operation; another does what it is asked. */
  class Decky {
    const faulty: bool
    var plugins: seq<Status>
    var disabled: seq<string>
    ghost var failures: nat // the requests so far that reported a failure

    constructor (plugins: seq<Status>, disabled: seq<string>, faulty: bool)
      ensures this.plugins == plugins && this.disabled == disabled && this.faulty == faulty && failures == 0
    {
      this.plugins, this.disabled, this.faulty, failures := plugins, disabled, faulty, 0;
    }

    /** A request adds to the failures exactly if it reports one. */
    ghost predicate Reports(before: nat, ok: bool)
      reads this`failures
    {
      failures == if ok then before else before + 1
    }

    ghost method Count(ok: bool)
      modifies this`failures
      ensures Reports(old(failures), ok)
    {
      if !ok { failures := failures + 1; }
    }

    method Inventory() returns (result: Option<seq<Status>>)
      modifies this`failures
      ensures Reports(old(failures), result.Some?)
      ensures result.Some? ==> result.value == plugins && Accepted(NamesOf(plugins))
      ensures !faulty && Accepted(NamesOf(plugins)) ==> result.Some?
    {
      var answered: bool := *;
      result := if (answered || !faulty) && Accepted(NamesOf(plugins)) then Some(plugins) else None;
      Count(result.Some?);
    }

    method DisabledPlugins() returns (result: Option<seq<string>>)
      modifies this`failures
      ensures Reports(old(failures), result.Some?)
      ensures result.Some? ==> result.value == disabled && Accepted(disabled)
      ensures !faulty && Accepted(disabled) ==> result.Some?
    {
      var answered: bool := *;
      result := if (answered || !faulty) && Accepted(disabled) then Some(disabled) else None;
      Count(result.Some?);
    }

    method SetDisabledPlugins(names: seq<string>) returns (ok: bool)
      modifies this`disabled, this`failures
      ensures Reports(old(failures), ok)
      ensures ok ==> disabled == names && Accepted(names)
      ensures !faulty && Accepted(names) ==> ok
      ensures !Accepted(names) ==> disabled == old(disabled)
    {
      if Accepted(names) {
        var stored: bool, answered: bool := *, *;
        ok := !faulty || (stored && answered);
        if ok || stored { disabled := names; }
      } else {
        ok := false;
      }
      Count(ok);
    }

    /** What a faulty loader makes of an operation. */
    method Misbehave() returns (ok: bool)
      requires faulty
      modifies this`plugins, this`disabled
    {
      var newPlugins: seq<Status>, newDisabled: seq<string>, answered: bool := *, *, *;
      plugins, disabled, ok := newPlugins, newDisabled, answered;
    }

    method Restart() returns (ok: bool)
      modifies this
      ensures Reports(old(failures), ok)
      ensures !faulty ==> ok && plugins == Restarted(old(plugins), disabled) && disabled == old(disabled)
    {
      if faulty {
        ok := Misbehave();
      } else {
        plugins, ok := Restarted(plugins, disabled), true;
      }
      Count(ok);
    }

    /** Puts a plugin in place of any of its name; it runs unless it is listed. */
    method Install(name: string, version: string) returns (ok: bool)
      modifies this
      ensures Reports(old(failures), ok)
      ensures !faulty ==>
        && ok && disabled == old(disabled)
        && plugins == WithoutPlugin(old(plugins), name) + [Status(name, version, name in disabled)]
    {
      if faulty {
        ok := Misbehave();
      } else {
        plugins, ok := WithoutPlugin(plugins, name) + [Status(name, version, name in disabled)], true;
      }
      Count(ok);
    }

    /** Removes a plugin by its name, and perhaps from the list as well. */
    method Uninstall(name: string) returns (ok: bool)
      modifies this
      ensures Reports(old(failures), ok)
      ensures !faulty ==>
        && ok && plugins == WithoutPlugin(old(plugins), name)
        && (disabled == old(disabled) || disabled == WithoutName(old(disabled), name))
    {
      if faulty {
        ok := Misbehave();
      } else {
        var unlisted: bool := *;
        plugins, ok := WithoutPlugin(plugins, name), true;
        if unlisted { disabled := WithoutName(disabled, name); }
      }
      Count(ok);
    }
  }
}
