/**
 * The allocation example examples/soroban/alloc: `sum(count)` fills a vector
 * with `0..count` and adds its elements with `checked_add`, answering
 * `Overflow` at the first addition that leaves `u32`.
 */
module AllocSum {
  import opened Soroban

  datatype Error = Overflow

  /** 0 + 1 + … + (n - 1). */
  function Triangle(n: nat): nat {
    if n == 0 then 0 else Triangle(n - 1) + (n - 1)
  }

  lemma {:induction false} TriangleClosedForm(n: nat)
    ensures 2 * Triangle(n) == n * (n - 1)
  {
    if n > 0 {
      TriangleClosedForm(n - 1);
    }
  }

  lemma {:induction false} TriangleMonotone(m: nat, n: nat)
    requires m <= n
    ensures Triangle(m) <= Triangle(n)
    decreases n - m
  {
    if m < n {
      TriangleMonotone(m, n - 1);
    }
  }

  /** The largest `count` whose sum fits in `u32`. */
  const LargestCount: nat := 92682

  /** `sum` succeeds exactly for counts up to `LargestCount`. */
  lemma SumFitsIff(n: nat)
    ensures Triangle(n) <= U32_MAX <==> n <= LargestCount
  {
    TriangleClosedForm(LargestCount);
    TriangleClosedForm(LargestCount + 1);
    if n <= LargestCount {
      TriangleMonotone(n, LargestCount);
    } else {
      TriangleMonotone(LargestCount + 1, n);
    }
  }

  /** `sum(count)`: the sum of `0..count` when it fits in `u32`, `Overflow` otherwise. */
  method Sum(count: int) returns (r: Result<int, Error>)
    requires IsU32(count)
    ensures Triangle(count) <= U32_MAX ==> r == Ok(Triangle(count))
    ensures Triangle(count) > U32_MAX ==> r == Err(Overflow)
  {
    var v1: seq<int> := [];
    var i := 0;
    while i < count
      invariant 0 <= i <= count
      invariant v1 == seq(i, j => j)
    {
      v1 := v1 + [i];
      i := i + 1;
    }
    var sum := 0;
    var k := 0;
    while k < |v1|
      invariant 0 <= k <= |v1|
      invariant sum == Triangle(k) <= U32_MAX
    {
      if sum + v1[k] > U32_MAX {
        TriangleMonotone(k + 1, count);
        return Err(Overflow);
      }
      sum := sum + v1[k];
      k := k + 1;
    }
    r := Ok(sum);
  }

  /** The alloc test: `sum(1) = 0`, `sum(2) = 1`, `sum(5) = 10`; and `sum(0) = 0`. */
  method SmallSums() returns (s0: Result<int, Error>, s1: Result<int, Error>, s2: Result<int, Error>, s5: Result<int, Error>)
    ensures s0 == Ok(0) && s1 == Ok(0) && s2 == Ok(1) && s5 == Ok(10)
  {
    s0 := Sum(0);
    s1 := Sum(1);
    s2 := Sum(2);
    s5 := Sum(5);
  }
}
