/** Lists of Decky plugin names and how restore compares them. */
module PluginNames {
  import opened Identities
  import opened LogicalPaths
  import opened Sequences
  import opened Sorting

  const MAX_NAMES := 512

  predicate IsSpace(character: char) {
    || character == ' ' || 0x09 as char <= character <= 0x0d as char
    || character in {0x85 as char, 0xa0 as char, 0x1680 as char, 0x2028 as char, 0x2029 as char, 0x202f as char,
                     0x205f as char, 0x3000 as char}
    || 0x2000 as char <= character <= 0x200a as char
  }

  predicate Safe(name: string) {
    && name != "" && Utf8Length(name) <= 128 && !IsSpace(name[0]) && !IsSpace(name[|name| - 1])
    && forall c :: c in name ==> c >= ' ' && c != 0x7f as char
  }

  predicate AllSafe(names: seq<string>) { forall i :: 0 <= i < |names| ==> Safe(names[i]) }

  /** The first occurrences, in order. */
  function Once(names: seq<string>): (once: seq<string>)
    ensures Distinct(once) && Elements(once) == Elements(names)
  {
    if names == [] then []
    else
      var front, last := names[..|names| - 1], names[|names| - 1];
      OnceSets(names, Once(front));
      if last in Once(front) then Once(front) else Once(front) + [last]
  }

  lemma OnceSets(names: seq<string>, once: seq<string>)
    requires names != [] && Elements(once) == Elements(names[..|names| - 1])
    ensures var last := names[|names| - 1];
            Elements(names) == Elements(if last in once then once else once + [last])
  {
    var front, last := names[..|names| - 1], names[|names| - 1];
    ElementsAppend(front, last);
    assert names == front + [last];
    ElementsAppend(once, last);
    if last in once {
      var i :| 0 <= i < |once| && once[i] == last;
    }
  }

  function Itself(name: string): string { name }

  /** Sorted without repetitions; None when there are too many names or an unsafe one. Repetitions
      count towards the limit. */
  function Canonical(names: seq<string>): Option<seq<string>> {
    if |names| > MAX_NAMES || !AllSafe(names) then None else Some(Sort(Once(names), Itself))
  }

  method CanonicalPluginNames(names: seq<string>) returns (result: Option<seq<string>>)
    ensures result == Canonical(names)
  {
    if |names| > MAX_NAMES { return None; }
    var seen, once, i := {}, [], 0;
    while i < |names|
      invariant 0 <= i <= |names| && AllSafe(names[..i])
      invariant once == Once(names[..i]) && seen == Elements(once)
    {
      if !Safe(names[i]) { return None; }
      assert names[..i + 1][..i] == names[..i] && names[..i + 1][i] == names[i];
      if names[i] !in seen {
        ElementsAppend(once, names[i]);
        seen, once := seen + {names[i]}, once + [names[i]];
      }
      i := i + 1;
    }
    assert names[..i] == names;
    var sorted := SortSlice(once, Itself);
    OnlySorting(sorted, once);
    result := Some(sorted);
  }

  lemma OnlySorting(sorted: seq<string>, once: seq<string>)
    requires IsSorting(sorted, once, Itself) && Distinct(once)
    ensures sorted == Sort(once, Itself)
  {
    SortSorts(once, Itself);
    assert UniqueKeys(once, Itself);
    UniqueKeysAnyOrder(once, sorted, Itself);
    SortingUnique(sorted, Sort(once, Itself), Itself);
  }

  predicate EqualNames(first: seq<string>, second: seq<string>) {
    Canonical(first).Some? && Canonical(second).Some? && Canonical(first) == Canonical(second)
  }

  /** Two lists are equal to restore exactly when both are acceptable and name the same plugins. */
  lemma EqualNamesExactly(first: seq<string>, second: seq<string>)
    ensures EqualNames(first, second) <==>
      Canonical(first).Some? && Canonical(second).Some? && Elements(first) == Elements(second)
  {
    if Canonical(first).Some? && Canonical(second).Some? {
      CanonicalSet(first);
      CanonicalSet(second);
      if Elements(first) == Elements(second) { SameSetSameSort(Once(first), Once(second)); }
    }
  }

  lemma CanonicalSet(names: seq<string>)
    requires Canonical(names).Some?
    ensures Elements(Canonical(names).value) == Elements(names)
  {
    var once := Once(names);
    ElementsAnyOrder(Sort(once, Itself), once);
  }

  lemma SameSetSameSort(some: seq<string>, others: seq<string>)
    requires Distinct(some) && Distinct(others) && Elements(some) == Elements(others)
    ensures Sort(some, Itself) == Sort(others, Itself)
  {
    DistinctElements(some);
    DistinctElements(others);
    forall x | x in some ensures x in others {
      assert x in Elements(others);
    }
    Pigeonhole(some, others);
    SortSorts(some, Itself);
    SortSorts(others, Itself);
    assert UniqueKeys(some, Itself);
    UniqueKeysAnyOrder(some, Sort(some, Itself), Itself);
    SortingUnique(Sort(some, Itself), Sort(others, Itself), Itself);
  }

  /** A repeated name counts twice towards the limit, though it names nothing new. */
  lemma RepetitionCounts(names: seq<string>, name: string)
    requires |names| == MAX_NAMES && AllSafe(names) && name in names
    ensures Elements(names + [name]) == Elements(names)
    ensures Canonical(names).Some? && Canonical(names + [name]).None? && !EqualNames(names + [name], names)
  {
    ElementsAppend(names, name);
    assert name in Elements(names);
  }
}
