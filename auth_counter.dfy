/**
 * The per-user counters of examples/soroban/auth: `increment(user, value)`
 * adds `value` to `user`'s counter. The `require_auth` of `user` is a host
 * call and is taken to succeed.
 */
module AuthCounter {
  import opened Soroban

  datatype Call = Call(user: Address, value: int)

  /** The total that `user`'s own calls add. */
  function Total(user: Address, calls: seq<Call>): int {
    if |calls| == 0 then 0
    else (if calls[0].user == user then calls[0].value else 0) + Total(user, calls[1..])
  }

  /** A single `increment`: the user's counter grows by `value`, or the call traps on overflow and changes nothing. */
  function Step(counters: map<Address, int>, call: Call): (r: map<Address, int>)
    ensures forall u :: u != call.user ==> (u in r <==> u in counters) && (u in r ==> r[u] == counters[u])
  {
    var count := Lookup(counters, call.user, 0);
    if count + call.value > U32_MAX then counters else counters[call.user := count + call.value]
  }

  /** The counters after the calls, in order. */
  function Replay(counters: map<Address, int>, calls: seq<Call>): (r: map<Address, int>)
    decreases |calls|
  {
    if |calls| == 0 then counters else Replay(Step(counters, calls[0]), calls[1..])
  }

  /**
   * While a user's total stays within `u32`, their counter is what it was
   * plus the sum of the values they sent, whoever else called in between.
   */
  lemma {:induction false} ReplayAccumulates(counters: map<Address, int>, calls: seq<Call>, user: Address)
    requires forall i :: 0 <= i < |calls| ==> IsU32(calls[i].value)
    requires Lookup(counters, user, 0) >= 0
    requires Lookup(counters, user, 0) + Total(user, calls) <= U32_MAX
    ensures Lookup(Replay(counters, calls), user, 0) == Lookup(counters, user, 0) + Total(user, calls)
    decreases |calls|
  {
    if |calls| > 0 {
      TotalNonNegative(user, calls[1..]);
      ReplayAccumulates(Step(counters, calls[0]), calls[1..], user);
    }
  }

  lemma {:induction false} TotalNonNegative(user: Address, calls: seq<Call>)
    requires forall i :: 0 <= i < |calls| ==> IsU32(calls[i].value)
    ensures Total(user, calls) >= 0
    decreases |calls|
  {
    if |calls| > 0 {
      TotalNonNegative(user, calls[1..]);
    }
  }

  /** A user who makes none of the calls keeps their counter, set or unset. */
  lemma {:induction false} ReplayLeavesBystanders(counters: map<Address, int>, calls: seq<Call>, user: Address)
    requires forall i :: 0 <= i < |calls| ==> calls[i].user != user
    ensures user in Replay(counters, calls) <==> user in counters
    ensures user in counters ==> Replay(counters, calls)[user] == counters[user]
    decreases |calls|
  {
    if |calls| > 0 {
      ReplayLeavesBystanders(Step(counters, calls[0]), calls[1..], user);
    }
  }

  class IncrementContract {
    /** The persistent map `counters`. */
    var counters: map<Address, int>

    constructor ()
      ensures counters == map[]
    {
      counters := map[];
    }

    /** `increment(user, value)`: returns the user's new count; only that user's entry is written. */
    method Increment(user: Address, value: int) returns (r: Result<int, Panic>)
      requires IsU32(value)
      modifies this
      ensures counters == Step(old(counters), Call(user, value))
      ensures Lookup(old(counters), user, 0) + value > U32_MAX ==> r == Err(ArithmeticOverflow)
      ensures Lookup(old(counters), user, 0) + value <= U32_MAX ==> r == Ok(Lookup(counters, user, 0))
    {
      var count := Lookup(counters, user, 0);
      if count + value > U32_MAX {
        return Err(ArithmeticOverflow);
      }
      var newCount := count + value;
      counters := counters[user := newCount];
      r := Ok(newCount);
    }
  }

  /** Two users' counters run separately: 1 calls with 2 and 3, 2 calls with 5 in between. */
  method TwoUsers() returns (first: Result<int, Panic>, other: Result<int, Panic>, second: Result<int, Panic>)
    ensures first == Ok(2) && other == Ok(5) && second == Ok(5)
  {
    var c := new IncrementContract();
    first := c.Increment(1, 2);
    other := c.Increment(2, 5);
    second := c.Increment(1, 3);
  }
}
