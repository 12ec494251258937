/**
 * The callee of examples/soroban/cross_contract: contract A adds two `u32`
 * values with `checked_add` and touches no storage.
 */
module ContractA {
  import opened Soroban

  datatype Error = Overflow

  /** `add(x, y)`: the sum when it fits in `u32`, `Overflow` otherwise. */
  function Add(x: int, y: int): (r: Result<int, Error>)
    requires IsU32(x) && IsU32(y)
    ensures r.Ok? <==> x + y <= U32_MAX
    ensures r.Ok? ==> IsU32(r.value) && r.value - x == y
  {
    AddU32(x, y).OkOr(Overflow)
  }

  /** The order of the arguments does not matter. */
  lemma AddSymmetric(x: int, y: int)
    requires IsU32(x) && IsU32(y)
    ensures Add(x, y) == Add(y, x)
  {
    assert x + y == y + x;
  }
}
