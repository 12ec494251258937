/**
 * The counter of examples/soroban/custom_types, whose persistent item is a
 * record: `increment(incr)` adds `incr` to `count` and remembers it as
 * `last_incr`.
 */
module CustomTypes {
  import opened Soroban

  datatype State = State(count: int, lastIncr: int)

  /** `State::default()`. */
  const Default := State(0, 0)

  /** The sum of the increments, first to last. */
  function Sum(incrs: seq<int>): int {
    if |incrs| == 0 then 0 else incrs[0] + Sum(incrs[1..])
  }

  /**
   * The state left by `increment` calls with `incrs`, in order, from `st`: a
   * call whose addition overflows traps and leaves the state as it was.
   */
  function Replay(st: State, incrs: seq<int>): (r: State)
    ensures |incrs| == 0 ==> r == st
    decreases |incrs|
  {
    if |incrs| == 0 then st
    else if st.count + incrs[0] > U32_MAX then Replay(st, incrs[1..])
    else Replay(State(st.count + incrs[0], incrs[0]), incrs[1..])
  }

  /**
   * While the total stays within `u32`, the calls add up: `count` grows by
   * the sum of the increments and `last_incr` is the last of them.
   */
  lemma {:induction false} ReplayAddsUp(st: State, incrs: seq<int>)
    requires |incrs| > 0
    requires st.count >= 0 && forall i :: 0 <= i < |incrs| ==> IsU32(incrs[i])
    requires st.count + Sum(incrs) <= U32_MAX
    ensures Replay(st, incrs) == State(st.count + Sum(incrs), incrs[|incrs| - 1])
    decreases |incrs|
  {
    SumNonNegative(incrs[1..]);
    if |incrs| > 1 {
      ReplayAddsUp(State(st.count + incrs[0], incrs[0]), incrs[1..]);
    }
  }

  lemma {:induction false} SumNonNegative(incrs: seq<int>)
    requires forall i :: 0 <= i < |incrs| ==> IsU32(incrs[i])
    ensures Sum(incrs) >= 0
    decreases |incrs|
  {
    if |incrs| > 0 {
      SumNonNegative(incrs[1..]);
    }
  }

  class Inc {
    /** The persistent item `s`. */
    var s: Option<State>

    constructor ()
      ensures s == None
    {
      s := None;
    }

    /** `get_state`: the stored record, or the default one when unset. */
    function GetState(): (r: State)
      reads this
      ensures s.None? ==> r == Default
      ensures s.Some? ==> r == s.value
    {
      s.GetOr(Default)
    }

    /** `increment(incr)`: the record after the call is `Replay` of the one before, and `count` is returned. */
    method Increment(incr: int) returns (r: Result<int, Panic>)
      requires IsU32(incr)
      modifies this
      ensures old(GetState()).count + incr > U32_MAX ==> r == Err(ArithmeticOverflow) && s == old(s)
      ensures old(GetState()).count + incr <= U32_MAX ==>
        && s == Some(Replay(old(GetState()), [incr]))
        && r == Ok(GetState().count)
    {
      var state := s.GetOr(Default);
      if state.count + incr > U32_MAX {
        return Err(ArithmeticOverflow);
      }
      state := state.(count := state.count + incr);
      state := state.(lastIncr := incr);
      s := Some(state);
      r := Ok(state.count);
    }
  }

  /** The custom_types test: increments by 1 and by 10 return 1 and 11 and leave `{count: 11, last_incr: 10}`. */
  method OneThenTen() returns (a: Result<int, Panic>, b: Result<int, Panic>, st: State)
    ensures a == Ok(1) && b == Ok(11)
    ensures st == State(11, 10)
  {
    var inc := new Inc();
    a := inc.Increment(1);
    b := inc.Increment(10);
    st := inc.GetState();
  }
}
