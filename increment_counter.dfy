/**
 * The counter of examples/soroban/increment: `increment` adds one to the
 * stored count, stores it and returns it.
 */
module IncrementCounter {
  import opened Soroban

  /**
   * What `k` successive `increment` calls return when `count` is stored (0
   * standing for an unset item); an overflowing call traps and stores nothing.
   */
  function Returns(count: int, k: nat): (r: seq<Result<int, Panic>>)
    ensures |r| == k
    decreases k
  {
    if k == 0 then []
    else if count + 1 > U32_MAX then [Err(ArithmeticOverflow)] + Returns(count, k - 1)
    else [Ok(count + 1)] + Returns(count + 1, k - 1)
  }

  /** Below the `u32` bound, the calls return `count + 1`, `count + 2`, … in order. */
  lemma {:induction false} ReturnsCountOn(count: int, k: nat)
    requires 0 <= count && count + k <= U32_MAX
    ensures forall i :: 0 <= i < k ==> Returns(count, k)[i] == Ok(count + i + 1)
    decreases k
  {
    if k > 0 {
      ReturnsCountOn(count + 1, k - 1);
      assert forall i :: 1 <= i < k ==> Returns(count, k)[i] == Returns(count + 1, k - 1)[i - 1];
    }
  }

  /** At the `u32` bound every further call traps. */
  lemma {:induction false} ReturnsAtBound(k: nat)
    ensures forall i :: 0 <= i < k ==> Returns(U32_MAX, k)[i] == Err(ArithmeticOverflow)
    decreases k
  {
    if k > 0 {
      ReturnsAtBound(k - 1);
      assert forall i :: 1 <= i < k ==> Returns(U32_MAX, k)[i] == Returns(U32_MAX, k - 1)[i - 1];
    }
  }

  class Counter {
    /** The persistent item `count`. */
    var count: Option<int>

    constructor ()
      ensures count == None
    {
      count := None;
    }

    /** The stored count, 0 when unset. */
    function Count(): int
      reads this
    {
      count.GetOr(0)
    }

    /** `increment`: the returned value is the one now stored. */
    method Increment() returns (r: Result<int, Panic>)
      modifies this
      ensures r == Returns(old(Count()), 1)[0]
      ensures r.Ok? ==> count == Some(r.value)
      ensures r.Err? ==> count == old(count)
    {
      var n := count.GetOr(0);
      if n + 1 > U32_MAX {
        return Err(ArithmeticOverflow);
      }
      n := n + 1;
      count := Some(n);
      r := Ok(n);
    }
  }

  /** The increment test: three calls on a fresh contract return 1, 2 and 3. */
  method ThreeIncrements() returns (a: Result<int, Panic>, b: Result<int, Panic>, c: Result<int, Panic>)
    ensures [a, b, c] == [Ok(1), Ok(2), Ok(3)]
  {
    var counter := new Counter();
    a := counter.Increment();
    b := counter.Increment();
    c := counter.Increment();
  }
}
