/** Resource bounds, in the 64-bit integers the program computes with: a counter that refuses what
    would break a bound, and the compression ratio decided by a division. */
module ResourceLimits {
  import opened Sequences

  const MAX_INT64: int := 0x7FFF_FFFF_FFFF_FFFF

  newtype int64 = x: int | -MAX_INT64 - 1 <= x <= MAX_INT64

  datatype Limits = Limits(maxFiles: int64, maxFileSize: int64, maxTotalSize: int64, maxManifestSize: int64,
                           maxPathLength: int64, maxCompressionRatio: int64)

  /** The validation, whose own arithmetic must not overflow. */
  predicate Valid(limits: Limits) {
    && limits.maxFiles >= 1
    && limits.maxFileSize >= 1 && limits.maxTotalSize >= limits.maxFileSize
    && limits.maxManifestSize >= 1 && limits.maxManifestSize <= limits.maxFileSize
    && limits.maxTotalSize as int <= MAX_INT64 - limits.maxManifestSize as int
    && limits.maxPathLength >= 64
    && limits.maxCompressionRatio >= 1
  }

  function Sum(sizes: seq<int>): int {
    if sizes == [] then 0 else Sum(sizes[..|sizes| - 1]) + sizes[|sizes| - 1]
  }

  /** What the bounds say about a list of sizes, in unbounded arithmetic. */
  predicate Fits(limits: Limits, sizes: seq<int>) {
    && |sizes| <= limits.maxFiles as int
    && Sum(sizes) <= limits.maxTotalSize as int
    && forall i :: 0 <= i < |sizes| ==> 0 <= sizes[i] <= limits.maxFileSize as int
  }

  /** Applies the bounds one size at a time. */
  class Counter {
    const limits: Limits
    var files: int64
    var bytes: int64

    constructor (limits: Limits)
      requires Valid(limits)
      ensures this.limits == limits && Counts([])
    {
      this.limits := limits;
      files, bytes := 0, 0;
    }

    ghost predicate Counts(sizes: seq<int>)
      reads this
    {
      Valid(limits) && Fits(limits, sizes) && files as int == |sizes| && bytes as int == Sum(sizes)
    }

    /** Refuses exactly the size that would make the list too large, and never overflows. */
    method Add(size: int64, ghost sizes: seq<int>) returns (ok: bool)
      requires Counts(sizes)
      modifies this
      ensures ok <==> Fits(limits, sizes + [size as int])
      ensures ok ==> Counts(sizes + [size as int])
      ensures !ok ==> files == old(files) && bytes == old(bytes)
    {
      ghost var more := sizes + [size as int];
      assert more[..|more| - 1] == sizes && more[|sizes|] == size as int;
      SumNonNegative(sizes);
      if size < 0 || size > limits.maxFileSize || files >= limits.maxFiles || size > limits.maxTotalSize - bytes {
        return false;
      }
      files, bytes := files + 1, bytes + size;
      return true;
    }
  }

  lemma {:induction false} SumNonNegative(sizes: seq<int>)
    requires forall i :: 0 <= i < |sizes| ==> sizes[i] >= 0
    ensures Sum(sizes) >= 0
  {
    if sizes != [] { SumNonNegative(sizes[..|sizes| - 1]); }
  }

  lemma {:induction false} SumConcat(some: seq<int>, others: seq<int>)
    ensures Sum(some + others) == Sum(some) + Sum(others)
  {
    if others == [] {
      assert some + others == some;
    } else {
      assert (some + others)[..|some + others| - 1] == some + others[..|others| - 1];
      SumConcat(some, others[..|others| - 1]);
    }
  }

  /** The bounds do not depend on the order in which sizes are met. */
  lemma {:induction false} FitsAnyOrder(limits: Limits, some: seq<int>, others: seq<int>)
    requires multiset(some) == multiset(others)
    ensures Fits(limits, some) <==> Fits(limits, others)
  {
    SumAnyOrder(some, others);
    assert |multiset(some)| == |some| && |multiset(others)| == |others|;
    assert forall i :: 0 <= i < |some| ==> some[i] in multiset(others);
    assert forall i :: 0 <= i < |others| ==> others[i] in multiset(some);
  }

  lemma {:induction false} SumWithout(sizes: seq<int>, j: nat)
    requires j < |sizes|
    ensures Sum(Without(sizes, j)) == Sum(sizes) - sizes[j]
  {
    var front := sizes[..|sizes| - 1];
    if j == |sizes| - 1 {
      assert Without(sizes, j) == front;
    } else {
      SumWithout(front, j);
      var rest := Without(sizes, j);
      assert rest[..|rest| - 1] == Without(front, j);
    }
  }

  lemma {:induction false} SumAnyOrder(some: seq<int>, others: seq<int>)
    requires multiset(some) == multiset(others)
    ensures Sum(some) == Sum(others)
    decreases |some|
  {
    if some == [] {
      assert |multiset(others)| == |others| == 0;
    } else {
      var i := |some| - 1;
      assert some[i] in multiset(others);
      var j :| 0 <= j < |others| && others[j] == some[i];
      SumWithout(some, i);
      SumWithout(others, j);
      WithoutOne(some, i);
      WithoutOne(others, j);
      SumAnyOrder(Without(some, i), Without(others, j));
    }
  }

  // ---------------------------------------------------------------- the compression ratio

  /** Dividing first never overflows, and decides exactly the comparison that multiplying would. */
  lemma RatioTestExact(total: nat, compressed: nat, ratio: nat)
    requires total > 0 && compressed > 0
    ensures (total - 1) / compressed + 1 > ratio <==> total > ratio * compressed
  {
    var quotient := (total - 1) / compressed;
    assert quotient * compressed <= total - 1 < (quotient + 1) * compressed;
    if quotient >= ratio {
      ProductMonotone(ratio, quotient, compressed);
    } else {
      ProductMonotone(quotient + 1, ratio, compressed);
    }
  }

  lemma ProductMonotone(first: nat, second: nat, factor: nat)
    requires first <= second
    ensures first * factor <= second * factor
  {
  }
}
