/**
 * Host-level vocabulary shared by every contract model: addresses, the Rust
 * integer widths the contracts use, Rust's checked arithmetic (a failed check is
 * a trap, which rolls the whole invocation back), optional values and results,
 * and an abstract ledger standing for the token contracts that the examples call
 * through `token::Client`.
 */
module Soroban {

  /** Addresses are opaque but totally ordered (the liquidity pool compares them). */
  type Address = nat

  const U32_MAX: int := 0xFFFF_FFFF
  const U64_MAX: int := 0xFFFF_FFFF_FFFF_FFFF
  const I128_MIN: int := -0x8000_0000_0000_0000_0000_0000_0000_0000
  const I128_MAX: int := 0x7FFF_FFFF_FFFF_FFFF_FFFF_FFFF_FFFF_FFFF

  predicate IsU32(x: int) { 0 <= x <= U32_MAX }
  predicate IsU64(x: int) { 0 <= x <= U64_MAX }
  predicate IsI128(x: int) { I128_MIN <= x <= I128_MAX }

  /** Soroban's `Bytes`. */
  type Bytes = seq<bv8>

  /** Why a contract invocation trapped. Every trap aborts the invocation and
      rolls back every state change it made. */
  datatype Panic =
    | ArithmeticOverflow
    | DivisionByZero
    | UnwrapNone
    | UnwrapErr
    | NegativeSquareRoot
    | SignatureRejected
    | Unauthorized
    | Message(text: string)

  datatype Option<+T> = None | Some(value: T) {
    function GetOr(default: T): T {
      if Some? then value else default
    }
    /** Rust's `ok_or`. */
    function OkOr<E>(e: E): Result<T, E> {
      if Some? then Ok(value) else Err(e)
    }
  }

  datatype Result<+T, +E> = Ok(value: T) | Err(error: E) {
    predicate IsFailure() { Err? }
    function PropagateFailure<U>(): Result<U, E>
      requires Err?
    {
      Err(error)
    }
    function Extract(): T
      requires Ok?
    {
      value
    }
  }

  /** A map lookup with a default, as `get(k).unwrap_or(d)` in the contracts. */
  function Lookup<K, V>(m: map<K, V>, k: K, default: V): V {
    if k in m then m[k] else default
  }

  function Get<K, V>(m: map<K, V>, k: K): Option<V> {
    if k in m then Some(m[k]) else None
  }

  /** Rust's integer division, which truncates toward zero (Dafny's `/` is Euclidean). */
  function Quot(a: int, b: int): (q: int)
    requires b != 0
    ensures Abs(q) == Abs(a) / Abs(b)
    ensures q > 0 ==> (a > 0) == (b > 0)
    ensures q < 0 ==> (a > 0) != (b > 0)
    ensures a >= 0 && b > 0 ==> q == a / b
    ensures q * b <= a < q * b + b || a < 0 || b < 0
  {
    var m := Abs(a) / Abs(b);
    DivBracket(Abs(a), Abs(b));
    if (a >= 0) == (b > 0) then m else -m
  }

  /** Division of naturals brackets the dividend between multiples of the divisor. */
  lemma DivBracket(n: nat, d: nat)
    requires d > 0
    ensures 0 <= n / d && n / d * d <= n < n / d * d + d
  {
    assert n == n / d * d + n % d;
  }

  /**
   * Rust's defining property of `/` and `%`: `a == q * b + r` where the
   * remainder `r` is smaller than the divisor in magnitude and is zero or has
   * the sign of the dividend.
   */
  lemma QuotRemainder(a: int, b: int)
    requires b != 0
    ensures var r := a - Quot(a, b) * b;
      Abs(r) < Abs(b) && (r == 0 || (r > 0) == (a > 0))
  {
    var q0, B := Abs(a) / Abs(b), Abs(b);
    var p := q0 * B;
    DivBracket(Abs(a), B);
    MulSigns(q0, B);
    assert Quot(a, b) * b == (if a >= 0 then p else -p) by {
      if b < 0 {
        MulNeg(q0, B);
      } else {
        MulNeg(q0, b);
      }
    }
    RemainderSign(a, b, Quot(a, b) * b, p);
  }

  lemma MulNeg(x: int, y: int)
    ensures (-x) * y == -(x * y) && x * (-y) == -(x * y) && (-x) * (-y) == x * y
  {
  }

  /** The remainder rule once the product `q * b` is known as `p` up to sign. */
  lemma RemainderSign(a: int, b: int, qb: int, p: int)
    requires b != 0 && 0 <= Abs(a) - p < Abs(b) && p >= 0
    requires qb == (if a >= 0 then p else -p)
    ensures Abs(a - qb) < Abs(b) && (a - qb == 0 || (a - qb > 0) == (a > 0))
  {
  }

  /** Truncating division of non-negative numbers brackets the dividend. */
  lemma QuotBounds(a: int, b: int)
    requires a >= 0 && b > 0
    ensures Quot(a, b) >= 0
    ensures Quot(a, b) * b <= a < (Quot(a, b) + 1) * b
  {
    var q := a / b;
    assert Quot(a, b) == q;
    assert q * b + a % b == a;
    assert (q + 1) * b == q * b + b;
    MulSigns(-(q + 1), b);
    assert -(q + 1) * b == -((q + 1) * b);
  }

  function Abs(x: int): nat { if x < 0 then -x else x }

  /** `i128::checked_add`, `checked_sub`, `checked_mul`, `checked_div`. */
  function AddI128(a: int, b: int): (r: Option<int>)
    ensures r.Some? <==> IsI128(a + b)
    ensures r.Some? ==> r.value == a + b
  {
    if IsI128(a + b) then Some(a + b) else None
  }

  function SubI128(a: int, b: int): (r: Option<int>)
    ensures r.Some? <==> IsI128(a - b)
    ensures r.Some? ==> r.value == a - b
  {
    if IsI128(a - b) then Some(a - b) else None
  }

  function MulI128(a: int, b: int): (r: Option<int>)
    ensures r.Some? <==> IsI128(a * b)
    ensures r.Some? ==> r.value == a * b
  {
    if IsI128(a * b) then Some(a * b) else None
  }

  function DivI128(a: int, b: int): (r: Option<int>)
    ensures r.Some? <==> b != 0 && IsI128(Quot(a, b))
    ensures r.Some? ==> r.value == Quot(a, b)
  {
    if b == 0 then None else if IsI128(Quot(a, b)) then Some(Quot(a, b)) else None
  }

  /** `i128::saturating_sub`: clamps at the i128 bounds, not at zero. */
  function SatSubI128(a: int, b: int): (r: int)
    requires IsI128(a) && IsI128(b)
    ensures IsI128(r)
    ensures IsI128(a - b) ==> r == a - b
    ensures a - b < I128_MIN ==> r == I128_MIN
    ensures a - b > I128_MAX ==> r == I128_MAX
  {
    if a - b < I128_MIN then I128_MIN else if a - b > I128_MAX then I128_MAX else a - b
  }

  /** `u32::checked_add`. */
  function AddU32(a: int, b: int): (r: Option<int>)
    ensures r.Some? <==> IsU32(a + b)
    ensures r.Some? ==> r.value == a + b
  {
    if IsU32(a + b) then Some(a + b) else None
  }

  /** Arithmetic under overflow checks: an overflowing `+`, `-`, `*` or `/` traps. */
  function Checked(o: Option<int>, p: Panic): Result<int, Panic> {
    o.OkOr(p)
  }

  /** `x.sqrt()` of `num_integer::Roots` on a non-negative integer: the floor of the square root. */
  function Isqrt(n: nat): (r: nat)
    ensures r * r <= n < (r + 1) * (r + 1)
  {
    IsqrtFrom(n, 0, n + 1)
  }

  /** Binary search for the floor square root in `[lo, hi)`. */
  function IsqrtFrom(n: nat, lo: nat, hi: nat): (r: nat)
    requires lo < hi
    requires lo * lo <= n < hi * hi
    ensures r * r <= n < (r + 1) * (r + 1)
    decreases hi - lo
  {
    if lo + 1 == hi then lo
    else
      var mid := (lo + hi) / 2;
      if mid * mid <= n then IsqrtFrom(n, mid, hi) else IsqrtFrom(n, lo, mid)
  }

  /** The floor square root is the only number whose square brackets `n` that way. */
  lemma IsqrtUnique(n: nat, r: nat, s: nat)
    requires r * r <= n < (r + 1) * (r + 1)
    requires s * s <= n < (s + 1) * (s + 1)
    ensures r == s
  {
    if r < s {
      assert r + 1 <= s;
      MulMono(r + 1, s);
    } else if s < r {
      assert s + 1 <= r;
      MulMono(s + 1, r);
    }
  }

  /** The floor square root of a perfect square is its root. */
  lemma IsqrtOfSquare(n: nat)
    ensures Isqrt(n * n) == n
  {
    assert n * n < (n + 1) * (n + 1);
    IsqrtUnique(n * n, Isqrt(n * n), n);
  }

  /** Sign rules for products, stated without preconditions so that they can be
      applied inside a proof by contradiction. */
  lemma MulSigns(x: int, t: int)
    ensures x > 0 && t > 0 ==> x * t > 0
    ensures x >= 0 && t >= 0 ==> x * t >= 0
  {
  }

  lemma MulMono(a: nat, b: nat)
    requires a <= b
    ensures a * a <= b * b
  {
    assert a * a <= a * b <= b * b;
  }

  /** The pair a token contract keys its balances by, as seen from outside:
      which token, and whose balance. */
  type Holding = (Address, Address)

  /** The net effect of a successful `token::Client::transfer`: `amount` moves
      from one holder to the other; a transfer to oneself changes nothing. */
  function Move(ledger: map<Holding, int>, token: Address, from: Address, to: Address, amount: int): (r: map<Holding, int>)
    ensures from != to ==> Lookup(r, (token, from), 0) == Lookup(ledger, (token, from), 0) - amount
    ensures from != to ==> Lookup(r, (token, to), 0) == Lookup(ledger, (token, to), 0) + amount
    ensures forall h :: h != (token, from) && h != (token, to) ==> Lookup(r, h, 0) == Lookup(ledger, h, 0)
    ensures from == to ==> r == ledger
  {
    if from == to then ledger
    else
      var f := Lookup(ledger, (token, from), 0);
      var t := Lookup(ledger, (token, to), 0);
      ledger[(token, from) := f - amount][(token, to) := t + amount]
  }

  /** The net effect of a successful `mint`: the holder's balance grows by `amount`. */
  function Credit(ledger: map<Holding, int>, token: Address, to: Address, amount: int): (r: map<Holding, int>)
    ensures Lookup(r, (token, to), 0) == Lookup(ledger, (token, to), 0) + amount
    ensures forall h :: h != (token, to) ==> Lookup(r, h, 0) == Lookup(ledger, h, 0)
  {
    ledger[(token, to) := Lookup(ledger, (token, to), 0) + amount]
  }

  /** The net effect of a successful `burn`: the holder's balance shrinks by `amount`. */
  function Debit(ledger: map<Holding, int>, token: Address, from: Address, amount: int): (r: map<Holding, int>)
    ensures Lookup(r, (token, from), 0) == Lookup(ledger, (token, from), 0) - amount
    ensures forall h :: h != (token, from) ==> Lookup(r, h, 0) == Lookup(ledger, h, 0)
  {
    ledger[(token, from) := Lookup(ledger, (token, from), 0) - amount]
  }

  /** The balances held by every token contract the examples talk to. */
  class TokenLedger {
    var balances: map<Holding, int>

    constructor (initial: map<Holding, int>)
      ensures balances == initial
    {
      balances := initial;
    }

    function Balance(token: Address, holder: Address): int
      reads this
    {
      Lookup(balances, (token, holder), 0)
    }
  }
}
