/**
 * The contract that examples/soroban/deployer deploys: `init` stores a
 * number and `value` reads it back.
 */
module DeployerContract {
  import opened Soroban

  class Contract {
    /** The persistent item `value`. */
    var value: Option<int>

    constructor ()
      ensures value == None
    {
      value := None;
    }

    /** `value`: the number of the last `init`, or 0 before any. */
    function Value(): (r: int)
      reads this
      ensures value.None? ==> r == 0
      ensures value.Some? ==> r == value.value
    {
      value.GetOr(0)
    }

    /** `init`: stores `v`, replacing any earlier value. */
    method Init(v: int)
      requires IsU32(v)
      modifies this
      ensures value == Some(v) && Value() == v
    {
      value := Some(v);
    }
  }

  /** Reading is 0 on a new deployment and then follows the latest `init`. */
  method InitTwice() returns (before: int, afterFirst: int, afterSecond: int)
    ensures before == 0 && afterFirst == 7 && afterSecond == 3
  {
    var c := new Contract();
    before := c.Value();
    c.Init(7);
    afterFirst := c.Value();
    c.Init(3);
    afterSecond := c.Value();
  }
}
