/** Small facts about sequences as collections of their elements: what taking one out, mapping and
    reordering keep, when no element is repeated, and that as many distinct elements of a sequence as
    it is long are that sequence in another order. */
module Sequences {
  function Without<T>(items: seq<T>, j: nat): seq<T>
    requires j < |items|
  {
    items[..j] + items[j + 1..]
  }

  lemma WithoutOne<T>(items: seq<T>, j: nat)
    requires j < |items|
    ensures multiset(Without(items, j)) == multiset(items) - multiset{items[j]}
    ensures multiset(items) == multiset(Without(items, j)) + multiset{items[j]}
  {
    assert items == items[..j] + [items[j]] + items[j + 1..];
  }

  function Map<T, U>(items: seq<T>, f: T -> U): (mapped: seq<U>)
    ensures |mapped| == |items| && forall i :: 0 <= i < |items| ==> mapped[i] == f(items[i])
  {
    seq(|items|, i requires 0 <= i < |items| => f(items[i]))
  }

  /** Mapping commutes with rearranging. */
  lemma {:induction false} MapAnyOrder<T, U>(some: seq<T>, others: seq<T>, f: T -> U)
    requires multiset(some) == multiset(others)
    ensures multiset(Map(some, f)) == multiset(Map(others, f))
    decreases |some|
  {
    assert |multiset(some)| == |some| && |multiset(others)| == |others|;
    if some != [] {
      assert some[0] in multiset(others);
      var j :| 0 <= j < |others| && others[j] == some[0];
      WithoutOne(some, 0);
      WithoutOne(others, j);
      MapAnyOrder(Without(some, 0), Without(others, j), f);
      MapWithout(some, 0, f);
      MapWithout(others, j, f);
    }
  }

  lemma MapWithout<T, U>(items: seq<T>, j: nat, f: T -> U)
    requires j < |items|
    ensures multiset(Map(items, f)) == multiset(Map(Without(items, j), f)) + multiset{f(items[j])}
  {
    assert Map(Without(items, j), f) == Without(Map(items, f), j);
    WithoutOne(Map(items, f), j);
  }

  predicate Distinct<T(==)>(items: seq<T>) {
    forall i, j :: 0 <= i < j < |items| ==> items[i] != items[j]
  }

  /** Distinct elements that are all among others leave a rest of those others. */
  lemma {:induction false} Complement<T>(some: seq<T>, others: seq<T>) returns (rest: seq<T>)
    requires Distinct(some) && forall x :: x in some ==> x in others
    ensures multiset(some) + multiset(rest) == multiset(others)
    decreases |some|
  {
    if some == [] {
      rest := others;
    } else {
      var last, front := some[|some| - 1], some[..|some| - 1];
      assert last in some;
      var j :| 0 <= j < |others| && others[j] == last;
      WithoutOne(others, j);
      forall x | x in front ensures x in Without(others, j) {
        StaysWithout(others, j, x);
      }
      rest := Complement(front, Without(others, j));
      assert some == front + [last];
    }
  }

  /** As many distinct elements as there are others, all among them, are those others in some order. */
  lemma Pigeonhole<T>(some: seq<T>, others: seq<T>)
    requires Distinct(some) && |some| >= |others| && forall x :: x in some ==> x in others
    ensures multiset(some) == multiset(others)
  {
    var rest := Complement(some, others);
    assert |multiset(some) + multiset(rest)| == |some| + |rest| && |multiset(others)| == |others|;
  }

  lemma StaysWithout<T>(items: seq<T>, j: nat, x: T)
    requires j < |items| && x in items && x != items[j]
    ensures x in Without(items, j)
  {
  }

  /** Rearranging distinct elements leaves them distinct. */
  lemma DistinctAnyOrder<T>(some: seq<T>, others: seq<T>)
    requires multiset(some) == multiset(others) && Distinct(some)
    ensures Distinct(others)
  {
    forall i, j | 0 <= i < j < |others| ensures others[i] != others[j] {
      assert others[j] in multiset(some);
      var k :| 0 <= k < |some| && some[k] == others[j];
      OnlyOnce(some, k);
      if others[i] == others[j] { Twice(others, i, j); }
    }
  }

  lemma Twice<T>(items: seq<T>, i: nat, j: nat)
    requires i < j < |items| && items[i] == items[j]
    ensures multiset(items)[items[i]] >= 2
  {
    assert items == items[..j] + items[j..];
    assert multiset(items) == multiset(items[..j]) + multiset(items[j..]);
    assert items[i] in items[..j] && items[i] in items[j..];
  }

  lemma OnlyOnce<T>(items: seq<T>, k: nat)
    requires k < |items| && Distinct(items)
    ensures multiset(items)[items[k]] == 1
  {
    assert items == items[..k] + [items[k]] + items[k + 1..];
    assert items[k] !in items[..k] && items[k] !in items[k + 1..];
  }

  function Elements<T>(items: seq<T>): set<T> { set i | 0 <= i < |items| :: items[i] }

  lemma ElementsAppend<T>(items: seq<T>, item: T)
    ensures Elements(items + [item]) == Elements(items) + {item}
  {
    var more := items + [item];
    assert more[|items|] == item;
    forall x | x in Elements(items) ensures x in Elements(more) {
      var i :| 0 <= i < |items| && items[i] == x;
      assert more[i] == x;
    }
  }

  lemma ElementsAnyOrder<T>(some: seq<T>, others: seq<T>)
    requires multiset(some) == multiset(others)
    ensures Elements(some) == Elements(others)
  {
    forall x | x in Elements(some) ensures x in Elements(others) {
      assert x in multiset(others);
    }
    forall x | x in Elements(others) ensures x in Elements(some) {
      assert x in multiset(some);
    }
  }

  lemma {:induction false} DistinctElements<T>(items: seq<T>)
    requires Distinct(items)
    ensures |Elements(items)| == |items|
  {
    if items != [] {
      var front, last := items[..|items| - 1], items[|items| - 1];
      DistinctElements(front);
      ElementsAppend(front, last);
      assert items == front + [last];
    }
  }
}
