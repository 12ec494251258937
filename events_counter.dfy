/**
 * The counter of examples/soroban/events: every `increment` publishes one
 * contract event whose topics are the symbols `COUNTER` and `increment` and
 * whose data is the new count. The host's event log is a field here.
 */
module EventsCounter {
  import opened Soroban

  datatype Event = Event(topics: (string, string), data: int)

  const Topics: (string, string) := ("COUNTER", "increment")

  /**
   * The events published by `k` successive `increment` calls when `count` is
   * stored: a call whose `+= 1` overflows traps and publishes nothing.
   */
  function Published(count: int, k: nat): (r: seq<Event>)
    ensures |r| <= k
    decreases k
  {
    if k == 0 then []
    else if count + 1 > U32_MAX then Published(count, k - 1)
    else [Event(Topics, count + 1)] + Published(count + 1, k - 1)
  }

  /** Below the `u32` bound, the `k` calls publish one event each, carrying `count + 1` to `count + k` in order. */
  lemma {:induction false} PublishedInOrder(count: int, k: nat)
    requires 0 <= count && count + k <= U32_MAX
    ensures |Published(count, k)| == k
    ensures forall i :: 0 <= i < k ==> Published(count, k)[i] == Event(Topics, count + i + 1)
    decreases k
  {
    if k > 0 {
      PublishedInOrder(count + 1, k - 1);
      assert forall i :: 1 <= i < k ==> Published(count, k)[i] == Published(count + 1, k - 1)[i - 1];
    }
  }

  class Counter {
    /** The persistent item `count`. */
    var count: Option<int>
    /** The events published so far, oldest first. */
    var events: seq<Event>

    constructor ()
      ensures count == None && events == []
    {
      count := None;
      events := [];
    }

    /** The stored count, 0 when unset. */
    function Count(): int
      reads this
    {
      count.GetOr(0)
    }

    /** `increment`: stores the next count, publishes it, and returns it; an overflow traps and rolls back. */
    method Increment() returns (r: Result<int, Panic>)
      modifies this
      ensures old(Count()) + 1 > U32_MAX ==> r == Err(ArithmeticOverflow)
      ensures old(Count()) + 1 <= U32_MAX ==> r == Ok(old(Count()) + 1)
      ensures r.Ok? ==> count == Some(r.value)
      ensures r.Err? ==> count == old(count)
      ensures events == old(events) + Published(old(Count()), 1)
    {
      var n := count.GetOr(0);
      if n + 1 > U32_MAX {
        return Err(ArithmeticOverflow);
      }
      n := n + 1;
      count := Some(n);
      events := events + [Event(Topics, n)];
      r := Ok(n);
    }
  }

  /** The events test: three calls return 1, 2 and 3 and leave three events carrying 1, 2 and 3. */
  method ThreeIncrements() returns (a: Result<int, Panic>, b: Result<int, Panic>, c: Result<int, Panic>, log: seq<Event>)
    ensures a == Ok(1) && b == Ok(2) && c == Ok(3)
    ensures log == [Event(Topics, 1), Event(Topics, 2), Event(Topics, 3)]
  {
    var counter := new Counter();
    a := counter.Increment();
    b := counter.Increment();
    c := counter.Increment();
    log := counter.events;
  }
}
