/**
 * The counter of examples/soroban/increment-init: `init` stores a starting
 * value and `increment` unwraps the stored value, so it traps on a contract
 * that was never initialised.
 */
module IncrementInit {
  import opened Soroban

  class Counter {
    /** The persistent item `count`. */
    var count: Option<int>

    constructor ()
      ensures count == None
    {
      count := None;
    }

    /** `init`: stores `num`, whatever was stored before. */
    method Init(num: int)
      requires IsU32(num)
      modifies this
      ensures count == Some(num)
    {
      count := Some(num);
    }

    /** `increment`: unset traps on the `unwrap`, `u32::MAX` traps on the `+= 1`, anything else counts on by one. */
    method Increment() returns (r: Result<int, Panic>)
      modifies this
      ensures old(count).None? ==> r == Err(UnwrapNone)
      ensures old(count).Some? && old(count).value + 1 > U32_MAX ==> r == Err(ArithmeticOverflow)
      ensures old(count).Some? && old(count).value + 1 <= U32_MAX ==> r == Ok(old(count).value + 1)
      ensures r.Ok? ==> count == Some(r.value)
      ensures r.Err? ==> count == old(count)
    {
      if count.None? {
        return Err(UnwrapNone);
      }
      var n := count.value;
      if n + 1 > U32_MAX {
        return Err(ArithmeticOverflow);
      }
      n := n + 1;
      count := Some(n);
      r := Ok(n);
    }
  }

  /**
   * After `init(n)` the calls return `n + 1`, `n + 2`, …; without `init` the
   * first call traps, which is what the code does although the crate's test
   * expects it to return 1.
   */
  method InitThenIncrement(n: int) returns (first: Result<int, Panic>, second: Result<int, Panic>, uninitialised: Result<int, Panic>)
    requires 0 <= n && n + 2 <= U32_MAX
    ensures first == Ok(n + 1) && second == Ok(n + 2)
    ensures uninitialised == Err(UnwrapNone)
  {
    var c := new Counter();
    c.Init(n);
    first := c.Increment();
    second := c.Increment();
    var blank := new Counter();
    uninitialised := blank.Increment();
  }

  /** A second `init` overwrites the count the first one started. */
  method InitOverwrites() returns (r: Result<int, Panic>)
    ensures r == Ok(8)
  {
    var c := new Counter();
    c.Init(3);
    var _ := c.Increment();
    c.Init(7);
    r := c.Increment();
  }
}
