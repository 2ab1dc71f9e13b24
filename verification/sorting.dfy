/** Sorting by a string key. The order of equal keys is left open, as an unstable sort leaves it; where
    keys are unique, as those of a plan's lists are, the sorted sequence is unique, in whatever order
    its elements were found. */
module Sorting {
  import opened Sequences

  /** Strings compare character by character, a prefix before what it starts. */
  predicate Less(first: string, second: string) {
    second != "" && (first == "" || first[0] < second[0] || (first[0] == second[0] && Less(first[1..], second[1..])))
  }

  lemma {:induction false} LessTotal(first: string, second: string)
    ensures Less(first, second) || first == second || Less(second, first)
    ensures !(Less(first, second) && Less(second, first)) && !Less(first, first)
  {
    if first != "" && second != "" {
      LessTotal(first[1..], second[1..]);
      if first[0] == second[0] && first[1..] == second[1..] {
        assert first == [first[0]] + first[1..] && second == [second[0]] + second[1..];
      }
    }
    if first != "" { LessTotal(first[1..], first[1..]); }
  }

  /** No key is less than an earlier one. */
  predicate SortedBy<T>(items: seq<T>, key: T -> string) {
    forall i, j :: 0 <= i < j < |items| ==> !Less(key(items[j]), key(items[i]))
  }

  predicate UniqueKeys<T>(items: seq<T>, key: T -> string) {
    forall i, j :: 0 <= i < j < |items| ==> key(items[i]) != key(items[j])
  }

  /** Any arrangement of the items in key order. */
  predicate IsSorting<T(==)>(sorted: seq<T>, items: seq<T>, key: T -> string) {
    SortedBy(sorted, key) && multiset(sorted) == multiset(items)
  }

  /** Inserts an item before the first that is not less. */
  function Insert<T>(item: T, sorted: seq<T>, key: T -> string): (more: seq<T>)
    ensures multiset(more) == multiset(sorted) + multiset{item}
  {
    if sorted == [] || !Less(key(sorted[0]), key(item)) then
      assert multiset([item] + sorted) == multiset(sorted) + multiset{item};
      [item] + sorted
    else
      assert sorted == [sorted[0]] + sorted[1..];
      [sorted[0]] + Insert(item, sorted[1..], key)
  }

  lemma {:induction false} InsertSorted<T>(item: T, sorted: seq<T>, key: T -> string)
    requires SortedBy(sorted, key)
    ensures SortedBy(Insert(item, sorted, key), key)
  {
    if sorted == [] {
    } else if !Less(key(sorted[0]), key(item)) {
      var more := [item] + sorted;
      forall j | 0 < j < |more| ensures !Less(key(more[j]), key(item)) {
        NotLessTransitive(key(sorted[j - 1]), key(sorted[0]), key(item));
      }
    } else {
      var rest := Insert(item, sorted[1..], key);
      InsertSorted(item, sorted[1..], key);
      LessTotal(key(item), key(sorted[0]));
      forall j | 0 <= j < |rest| ensures !Less(key(rest[j]), key(sorted[0])) {
        assert rest[j] in multiset(sorted[1..]) + multiset{item};
        if rest[j] != item {
          var i :| 1 <= i < |sorted| && sorted[i] == rest[j];
        }
      }
    }
  }

  lemma NotLessTransitive(third: string, second: string, first: string)
    requires (third == second || !Less(third, second)) && !Less(second, first)
    ensures !Less(third, first)
  {
  }

  function Sort<T>(items: seq<T>, key: T -> string): (sorted: seq<T>)
    ensures multiset(sorted) == multiset(items)
  {
    if items == [] then []
    else
      assert items == items[..|items| - 1] + [items[|items| - 1]];
      Insert(items[|items| - 1], Sort(items[..|items| - 1], key), key)
  }

  lemma {:induction false} SortSorts<T>(items: seq<T>, key: T -> string)
    ensures IsSorting(Sort(items, key), items, key)
  {
    if items != [] {
      SortSorts(items[..|items| - 1], key);
      InsertSorted(items[|items| - 1], Sort(items[..|items| - 1], key), key);
    }
  }

  /** What a sort returns: some arrangement in key order. */
  method SortSlice<T(==)>(items: seq<T>, key: T -> string) returns (sorted: seq<T>)
    ensures IsSorting(sorted, items, key)
  {
    SortSorts(items, key);
    sorted := Sort(items, key);
  }

  lemma UniqueKeysAnyOrder<T>(some: seq<T>, others: seq<T>, key: T -> string)
    requires multiset(some) == multiset(others) && UniqueKeys(some, key)
    ensures UniqueKeys(others, key)
  {
    DistinctAnyOrder(some, others);
    forall i, j | 0 <= i < j < |others| ensures key(others[i]) != key(others[j]) {
      assert others[i] in multiset(some) && others[j] in multiset(some);
    }
  }

  /** With unique keys the sorted order is the only one, whatever the sort does with ties. */
  lemma {:induction false} SortingUnique<T>(first: seq<T>, second: seq<T>, key: T -> string)
    requires SortedBy(first, key) && SortedBy(second, key) && UniqueKeys(first, key)
    requires multiset(first) == multiset(second)
    ensures first == second
    decreases |first|
  {
    if first == [] {
      assert |multiset(second)| == |second| == 0;
    } else {
      UniqueKeysAnyOrder(first, second, key);
      SameLeast(first, second, key);
      WithoutOne(first, 0);
      WithoutOne(second, 0);
      assert Without(first, 0) == first[1..] && Without(second, 0) == second[1..];
      SortingUnique(first[1..], second[1..], key);
    }
  }

  lemma SameLeast<T>(first: seq<T>, second: seq<T>, key: T -> string)
    requires SortedBy(first, key) && SortedBy(second, key) && UniqueKeys(first, key) && UniqueKeys(second, key)
    requires multiset(first) == multiset(second) && first != []
    ensures second != [] && first[0] == second[0]
  {
    assert first[0] in multiset(second);
    var j :| 0 <= j < |second| && second[j] == first[0];
    assert second[0] in multiset(first);
    var i :| 0 <= i < |first| && first[i] == second[0];
    LessTotal(key(first[0]), key(second[0]));
  }

  lemma SameMembers<T>(some: seq<T>, others: seq<T>)
    requires multiset(some) == multiset(others)
    ensures forall x :: x in some <==> x in others
  {
    forall x ensures x in some <==> x in others {
      assert x in some <==> x in multiset(some);
      assert x in others <==> x in multiset(others);
    }
  }

  /** Sorting items whose keys are all different. */
  method SortUnique<T(==)>(items: seq<T>, key: T -> string) returns (sorted: seq<T>)
    requires UniqueKeys(items, key)
    ensures SortedBy(sorted, key) && UniqueKeys(sorted, key)
    ensures forall x :: x in sorted <==> x in items
  {
    sorted := SortSlice(items, key);
    UniqueKeysAnyOrder(items, sorted, key);
    SameMembers(sorted, items);
  }
}
