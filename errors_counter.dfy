/**
 * The capped counter of examples/soroban/errors: `increment` counts up to
 * `MAX` and then answers with the contract error `LimitReached`, storing
 * nothing.
 */
module ErrorsCounter {
  import opened Soroban

  datatype Error = LimitReached

  const MAX: int := 5

  /**
   * The answers of `k` successive `increment` calls when `num` is stored
   * (0 standing for an unset item): each call that fails leaves `num` as it is.
   */
  function Answers(num: int, k: nat): (r: seq<Result<int, Error>>)
    ensures |r| == k
    decreases k
  {
    if k == 0 then []
    else if num + 1 <= MAX then [Ok(num + 1)] + Answers(num + 1, k - 1)
    else [Err(LimitReached)] + Answers(num, k - 1)
  }

  /** From a stored `num` within the cap, the calls count on from `num` and hit the limit after `MAX - num` of them. */
  lemma {:induction false} AnswersFrom(num: int, k: nat)
    requires 0 <= num <= MAX
    ensures forall i :: 0 <= i < k ==>
      Answers(num, k)[i] == if num + i < MAX then Ok(num + i + 1) else Err(LimitReached)
    decreases k
  {
    if k > 0 {
      if num + 1 <= MAX {
        AnswersFrom(num + 1, k - 1);
        assert forall i :: 1 <= i < k ==> Answers(num, k)[i] == Answers(num + 1, k - 1)[i - 1];
      } else {
        AnswersFrom(num, k - 1);
        assert forall i :: 1 <= i < k ==> Answers(num, k)[i] == Answers(num, k - 1)[i - 1];
      }
    }
  }

  /** On a fresh contract the calls return 1 to 5 and `LimitReached` from then on. */
  lemma FreshCounterCaps(k: nat)
    ensures forall i :: 0 <= i < k ==>
      Answers(0, k)[i] == if i < MAX then Ok(i + 1) else Err(LimitReached)
  {
    AnswersFrom(0, k);
  }

  class Counter {
    /** The persistent item `num`. */
    var num: Option<int>

    /** Only `increment` writes the item, and it never stores more than `MAX`. */
    predicate Valid()
      reads this
    {
      num.None? || 0 <= num.value <= MAX
    }

    constructor ()
      ensures num == None && Valid()
    {
      num := None;
    }

    /** The stored count, 0 when unset. */
    function Count(): int
      reads this
    {
      num.GetOr(0)
    }

    /** `increment`: stores and returns the next count while it stays within `MAX`. */
    method Increment() returns (r: Result<int, Error>)
      requires Valid()
      modifies this
      ensures Valid()
      ensures r == Answers(old(Count()), 1)[0]
      ensures r.Ok? ==> num == Some(r.value)
      ensures r.Err? ==> num == old(num)
    {
      var n := num.GetOr(0);
      n := n + 1;
      if n <= MAX {
        num := Some(n);
        r := Ok(n);
      } else {
        r := Err(LimitReached);
      }
    }
  }

  /** The errors test: five successful increments, then `LimitReached` with the count kept at 5. */
  method FiveThenLimit() returns (answers: seq<Result<int, Error>>, stored: int)
    ensures answers == [Ok(1), Ok(2), Ok(3), Ok(4), Ok(5), Err(LimitReached)]
    ensures stored == 5
  {
    var c := new Counter();
    answers := [];
    var r := c.Increment();
    answers := answers + [r];
    r := c.Increment();
    answers := answers + [r];
    r := c.Increment();
    answers := answers + [r];
    r := c.Increment();
    answers := answers + [r];
    r := c.Increment();
    answers := answers + [r];
    r := c.Increment();
    answers := answers + [r];
    stored := c.Count();
  }
}
