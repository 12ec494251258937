/**
 * The caller of examples/soroban/cross_contract: contract C calls contract
 * A's `add(x, y)` twice through the generated client and halves the sum of
 * the two answers twice over (`checked_shr(2)`). The generated client is
 * not the `try_` one, so an `Overflow` answer from contract A traps the
 * caller.
 */
module ContractC {
  import opened Soroban
  import ContractA

  datatype Error = Overflow | Trapped(panic: Panic)

  function Pow2(n: nat): (r: nat)
    ensures r >= 1
  {
    if n == 0 then 1 else 2 * Pow2(n - 1)
  }

  /** `u32::checked_shr`: `None` only for a shift of 32 bits or more. */
  function CheckedShr(v: int, s: nat): (r: Option<int>)
    ensures r.Some? <==> s < 32
  {
    if s >= 32 then None else Some(v / Pow2(s))
  }

  /** A contract call through the non-`try_` client: a contract error traps the caller. */
  function Call(r: Result<int, ContractA.Error>): Result<int, Error> {
    if r.Err? then Err(Trapped(UnwrapErr)) else Ok(r.value)
  }

  /**
   * `add_with(contract_id, x, y)`, `contract_id` naming a contract A: a sum
   * of `x` and `y` beyond `u32` traps in the first call; otherwise twice the
   * sum beyond `u32` is `Overflow`, and the answer is the floor of the
   * average of `x` and `y`, since the shift itself cannot fail.
   */
  function AddWith(x: int, y: int): (r: Result<int, Error>)
    requires IsU32(x) && IsU32(y)
    ensures x + y > U32_MAX ==> r == Err(Trapped(UnwrapErr))
    ensures x + y <= U32_MAX ==> (r.Ok? <==> 2 * (x + y) <= U32_MAX)
    ensures x + y <= U32_MAX && r.Err? ==> r == Err(Overflow)
    ensures r.Ok? ==> r.value == (x + y) / 2
  {
    var result1 := Call(ContractA.Add(x, y));
    var result2 := Call(ContractA.Add(x, y));
    if result1.Err? then result1
    else if result2.Err? then result2
    else
      var sum := AddU32(result1.value, result2.value);
      if sum.None? then Err(Overflow) else CheckedShr(sum.value, 2).OkOr(Overflow)
  }

  /** Contract C's answers for a few arguments. */
  lemma AddWithExamples()
    ensures AddWith(3, 4) == Ok(3)
    ensures AddWith(0x7FFF_FFFF, 1) == Err(Overflow)
    ensures AddWith(U32_MAX, 1) == Err(Trapped(UnwrapErr))
  {
  }
}
