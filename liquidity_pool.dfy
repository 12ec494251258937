/**
 * The constant-product liquidity pool of examples/soroban/liquidity_pool: two
 * reserves and the number of pool shares outstanding, updated in place by
 * `initialize`, `deposit`, `swap` and `withdraw`. The pool's token balances live
 * in the token contracts it calls; here they are the abstract `TokenLedger`.
 * A failed invocation (an `Err` or a trap) leaves the pool and the ledger as
 * they were, as the host rolls it back.
 */
module LiquidityPool {
  import opened Soroban

  datatype Error =
    | InvalidTokenOrder
    | ExceededMaxInput
    | InvariantViolation
    | MinimumNotSatisfied
    | InsufficientBAmount
    | InvalidAAmount
    | DepositAmountsMustBePositive
    | NewReservesMustBePositive
    | Trapped(panic: Panic)

  /** An i128 operation under overflow checks. */
  function Arith(o: Option<int>): Result<int, Error> {
    o.OkOr(Trapped(ArithmeticOverflow))
  }

  /** i128 `/`: traps on a zero divisor and on `i128::MIN / -1`. */
  function Div(a: int, b: int): (r: Result<int, Error>)
    ensures b == 0 ==> r == Err(Trapped(DivisionByZero))
    ensures r.Ok? <==> b != 0 && IsI128(Quot(a, b))
    ensures b != 0 && !IsI128(Quot(a, b)) ==> r == Err(Trapped(ArithmeticOverflow))
    ensures r.Ok? ==> r.value == Quot(a, b)
  {
    if b == 0 then Err(Trapped(DivisionByZero)) else Arith(DivI128(a, b))
  }

  function Mul(a: int, b: int): (r: Result<int, Error>)
    ensures r.Ok? <==> IsI128(a * b)
    ensures r.Ok? ==> r.value == a * b
  {
    Arith(MulI128(a, b))
  }

  function Sub(a: int, b: int): (r: Result<int, Error>)
    ensures r.Ok? <==> IsI128(a - b)
    ensures r.Ok? ==> r.value == a - b
  {
    Arith(SubI128(a, b))
  }

  function Add(a: int, b: int): (r: Result<int, Error>)
    ensures r.Ok? <==> IsI128(a + b)
    ensures r.Ok? ==> r.value == a + b
  {
    Arith(AddI128(a, b))
  }

  function Min(a: int, b: int): int { if a <= b then a else b }

  /**
   * `get_deposit_amounts`: how much of each token a deposit actually takes.
   * An empty pool takes what is offered; otherwise one side is taken in full
   * and the other at the pool's current price, rounded down, and never more than
   * offered. The B side is checked against `min_b`; on the A side it is the
   * OFFERED amount, not the computed one, that is checked against `min_a`.
   */
  function DepositAmounts(desiredA: int, minA: int, desiredB: int, minB: int, reserveA: int, reserveB: int)
    : (r: Result<(int, int), Error>)
    ensures reserveA == 0 && reserveB == 0 ==> r == Ok((desiredA, desiredB))
    ensures reserveA == 0 && reserveB != 0 && IsI128(desiredA * reserveB) ==> r == Err(Trapped(DivisionByZero))
    ensures r.Ok? && (reserveA != 0 || reserveB != 0) ==>
      && r.value.0 <= desiredA && r.value.1 <= desiredB
      && ((r.value.0 == desiredA && r.value.1 >= minB) || (r.value.1 == desiredB && desiredA >= minA))
    ensures r == Err(MinimumNotSatisfied) ==> reserveA != 0
    ensures r == Err(InvalidAAmount) ==> reserveA != 0 && reserveB != 0
  {
    if reserveA == 0 && reserveB == 0 then Ok((desiredA, desiredB))
    else
      var productB :- Mul(desiredA, reserveB);
      var amountB :- Div(productB, reserveA);
      if amountB <= desiredB then
        if amountB < minB then Err(MinimumNotSatisfied) else Ok((desiredA, amountB))
      else
        var productA :- Mul(desiredB, reserveA);
        var amountA :- Div(productA, reserveB);
        if amountA > desiredA || desiredA < minA then Err(InvalidAAmount) else Ok((amountA, desiredB))
  }

  /**
   * The share total after a deposit whose pool balances are `balanceA`,
   * `balanceB`: the floor square root of their product for a pool with an empty
   * reserve, otherwise the smaller of the two pro-rata share totals.
   */
  function NewTotalShares(balanceA: int, balanceB: int, totalShares: int, reserveA: int, reserveB: int)
    : (r: Result<int, Error>)
    ensures r.Ok? && !(reserveA > 0 && reserveB > 0) ==>
      r.value >= 0 && r.value * r.value <= balanceA * balanceB < (r.value + 1) * (r.value + 1)
    ensures r.Ok? && reserveA > 0 && reserveB > 0 && balanceA * totalShares >= 0 && balanceB * totalShares >= 0 ==>
      r.value * reserveA <= balanceA * totalShares && r.value * reserveB <= balanceB * totalShares
    ensures !(reserveA > 0 && reserveB > 0) && IsI128(balanceA * balanceB) ==>
      (r.Ok? <==> balanceA * balanceB >= 0) && (r.Err? ==> r == Err(Trapped(NegativeSquareRoot)))
  {
    if reserveA > 0 && reserveB > 0 then
      var productA :- Mul(balanceA, totalShares);
      var sharesA :- Div(productA, reserveA);
      var productB :- Mul(balanceB, totalShares);
      var sharesB :- Div(productB, reserveB);
      Ok(Min(sharesA, sharesB))
    else
      var product :- Mul(balanceA, balanceB);
      if product < 0 then Err(Trapped(NegativeSquareRoot)) else Ok(Isqrt(product))
  }

  /**
   * The amount of the sold token a swap charges for `out` of the bought token:
   * `reserve_sell * out * 1000 / ((reserve_buy - out) * 997) + 1`. It is the
   * least amount whose fee-adjusted value (997/1000 of it) more than pays for
   * `out` at the constant-product price.
   */
  function SellAmount(reserveSell: int, reserveBuy: int, out: int): (r: Result<int, Error>)
    ensures r.Ok? && reserveSell >= 0 && out >= 0 && reserveBuy > out ==>
      && r.value * ((reserveBuy - out) * 997) > reserveSell * out * 1000
      && (r.value - 1) * ((reserveBuy - out) * 997) <= reserveSell * out * 1000
    ensures reserveBuy == out && IsI128(reserveSell * out) && IsI128(reserveSell * out * 1000) ==>
      r == Err(Trapped(DivisionByZero))
  {
    var n0 :- Mul(reserveSell, out);
    var n :- Mul(n0, 1000);
    var d0 :- Sub(reserveBuy, out);
    var d :- Mul(d0, 997);
    var q :- Div(n, d);
    Add(q, 1)
  }

  /**
   * The closure `new_invariant_factor`: a reserve's new balance, scaled by 1000,
   * where an inflow only counts for 997/1000 of itself (the 0.3% fee).
   */
  function InvariantFactor(balance: int, reserve: int, out: int): (r: Result<int, Error>)
    ensures r.Ok? ==> r.value <= 1000 * (balance - out)
    ensures r.Ok? && balance - reserve - out <= 0 ==> r.value == 1000 * (balance - out)
    ensures r.Ok? && balance - reserve - out > 0 ==> r.value == 1000 * reserve + 997 * (balance - reserve - out)
    ensures 0 <= balance && 0 <= reserve && 0 <= out && 1000 * (balance + reserve + out) <= I128_MAX ==> r.Ok?
    ensures r.Ok? && reserve >= 0 && balance - out > 0 ==> r.value > 0
  {
    var delta0 :- Sub(balance, reserve);
    var delta :- Sub(delta0, out);
    var adjDelta :- if delta > 0 then Mul(997, delta) else Mul(1000, delta);
    var base :- Mul(1000, reserve);
    Add(base, adjDelta)
  }

  /**
   * The checks a swap makes once the sold amount has arrived: the fee-adjusted
   * product of the new balances may not fall below the old product, and both
   * new reserves (balances minus what is paid out) must stay positive.
   */
  function SwapReserves(reserveA: int, reserveB: int, balanceA: int, balanceB: int, outA: int, outB: int)
    : (r: Result<(int, int), Error>)
    ensures r.Ok? ==> r.value == (balanceA - outA, balanceB - outB)
    ensures r.Ok? ==> r.value.0 > 0 && r.value.1 > 0
    ensures r.Ok? ==>
      && InvariantFactor(balanceA, reserveA, outA).Ok? && InvariantFactor(balanceB, reserveB, outB).Ok?
      && InvariantFactor(balanceA, reserveA, outA).value * InvariantFactor(balanceB, reserveB, outB).value
           >= (1000 * reserveA) * (1000 * reserveB)
  {
    var newInvA :- InvariantFactor(balanceA, reserveA, outA);
    var newInvB :- InvariantFactor(balanceB, reserveB, outB);
    var oldInvA :- Mul(1000, reserveA);
    var oldInvB :- Mul(1000, reserveB);
    var newProduct :- Mul(newInvA, newInvB);
    var oldProduct :- Mul(oldInvA, oldInvB);
    if newProduct < oldProduct then Err(InvariantViolation)
    else
      var newReserveA :- Sub(balanceA, outA);
      var newReserveB :- Sub(balanceB, outB);
      if newReserveA <= 0 || newReserveB <= 0 then Err(NewReservesMustBePositive)
      else Ok((newReserveA, newReserveB))
  }

  /** No step of the swap checks overflows: both invariant factors, both products and both new reserves fit an i128. */
  predicate SwapInRange(reserveA: int, reserveB: int, balanceA: int, balanceB: int, outA: int, outB: int) {
    var invA := InvariantFactor(balanceA, reserveA, outA);
    var invB := InvariantFactor(balanceB, reserveB, outB);
    && invA.Ok? && invB.Ok? && IsI128(1000 * reserveA) && IsI128(1000 * reserveB)
    && IsI128(invA.value * invB.value) && IsI128((1000 * reserveA) * (1000 * reserveB))
    && IsI128(balanceA - outA) && IsI128(balanceB - outB)
  }

  /**
   * Where no step overflows, a swap is refused for the invariant exactly when
   * the fee-adjusted product falls below the old one, refused for the reserves
   * exactly when it does not but a new reserve is not positive, and accepted
   * otherwise.
   */
  lemma SwapOutcome(reserveA: int, reserveB: int, balanceA: int, balanceB: int, outA: int, outB: int)
    requires SwapInRange(reserveA, reserveB, balanceA, balanceB, outA, outB)
    ensures var r := SwapReserves(reserveA, reserveB, balanceA, balanceB, outA, outB);
      var newProduct := InvariantFactor(balanceA, reserveA, outA).value * InvariantFactor(balanceB, reserveB, outB).value;
      var oldProduct := (1000 * reserveA) * (1000 * reserveB);
      && (r == Err(InvariantViolation) <==> newProduct < oldProduct)
      && (r == Err(NewReservesMustBePositive) <==>
            newProduct >= oldProduct && (balanceA - outA <= 0 || balanceB - outB <= 0))
      && (r.Ok? <==> newProduct >= oldProduct && balanceA - outA > 0 && balanceB - outB > 0)
  {
  }

  /**
   * The whole effect of `swap`, from the reserves, the tokens and the balances
   * before it: the price of `out` of the bought token, the check against
   * `inMax`, the payment into the pool, the reserve checks, and the payout.
   * Once two distinct tokens trade with someone other than the pool, the new
   * reserves are the pool's new balances, the buyer's balance of the bought
   * token grows by `out` and that of the sold token shrinks by the price.
   */
  function SwapEffect(reserveA: int, reserveB: int, tokenA: Address, tokenB: Address, self: Address,
                      balances: map<Holding, int>, to: Address, buyA: bool, out: int, inMax: int)
    : (r: Result<((int, int), map<Holding, int>), Error>)
    ensures var sell := SellAmount(if buyA then reserveB else reserveA, if buyA then reserveA else reserveB, out);
      && (sell.Err? ==> r == sell.PropagateFailure())
      && (sell.Ok? && sell.value > inMax ==> r == Err(ExceededMaxInput))
      && (r.Ok? ==> sell.Ok? && sell.value <= inMax)
    ensures r.Ok? ==> r.value.0.0 > 0 && r.value.0.1 > 0
    ensures r.Ok? && tokenA != tokenB && to != self ==>
      var (buyToken, sellToken) := if buyA then (tokenA, tokenB) else (tokenB, tokenA);
      && r.value.0 == (Lookup(r.value.1, (tokenA, self), 0), Lookup(r.value.1, (tokenB, self), 0))
      && Lookup(r.value.1, (buyToken, to), 0) == Lookup(balances, (buyToken, to), 0) + out
      && Lookup(r.value.1, (sellToken, to), 0) ==
           Lookup(balances, (sellToken, to), 0) - SellAmount(if buyA then reserveB else reserveA, if buyA then reserveA else reserveB, out).value
  {
    var (buyToken, sellToken) := if buyA then (tokenA, tokenB) else (tokenB, tokenA);
    var sellAmount :- SellAmount(if buyA then reserveB else reserveA, if buyA then reserveA else reserveB, out);
    if sellAmount > inMax then Err(ExceededMaxInput)
    else
      var paid := Move(balances, sellToken, to, self, sellAmount);
      var reserves :- SwapReserves(reserveA, reserveB, Lookup(paid, (tokenA, self), 0), Lookup(paid, (tokenB, self), 0),
                                   if buyA then out else 0, if buyA then 0 else out);
      Ok((reserves, Move(paid, buyToken, self, to, out)))
  }

  /**
   * What `withdraw` pays out for `balanceShares` redeemed shares: each token's
   * pool balance pro rata, rounded down, refused when below the caller's minimum.
   */
  function WithdrawAmounts(balanceA: int, balanceB: int, balanceShares: int, totalShares: int, minA: int, minB: int)
    : (r: Result<(int, int), Error>)
    ensures totalShares == 0 && IsI128(balanceA * balanceShares) ==> r == Err(Trapped(DivisionByZero))
    ensures r.Ok? ==> r.value.0 >= minA && r.value.1 >= minB
    ensures r.Ok? && totalShares > 0 && balanceA >= 0 && balanceB >= 0 && 0 <= balanceShares ==>
      && r.value.0 * totalShares <= balanceA * balanceShares < (r.value.0 + 1) * totalShares
      && r.value.1 * totalShares <= balanceB * balanceShares < (r.value.1 + 1) * totalShares
  {
    var productA :- Mul(balanceA, balanceShares);
    var outA :- Div(productA, totalShares);
    var productB :- Mul(balanceB, balanceShares);
    var outB :- Div(productB, totalShares);
    if outA < minA || outB < minB then Err(MinimumNotSatisfied) else Ok((outA, outB))
  }

  /** What a successful `withdraw` pays out and leaves behind. */
  datatype Withdrawal = Withdrawal(amounts: (int, int), totalShares: int, reserves: (int, int), balances: map<Holding, int>)

  /**
   * The whole effect of `withdraw`, from the share count, the tokens and the
   * balances before it: the shares handed in join those the pool already
   * holds, all of them are burnt and their part of each token is paid out.
   * With three distinct tokens and a caller other than the pool, the pool
   * ends holding no shares, its reserves are its new balances and the caller
   * receives exactly the amounts returned.
   */
  function WithdrawEffect(totalShares: int, tokenA: Address, tokenB: Address, tokenShare: Address, self: Address,
                          balances: map<Holding, int>, to: Address, shareAmount: int, minA: int, minB: int)
    : (r: Result<Withdrawal, Error>)
    ensures var handed := Move(balances, tokenShare, to, self, shareAmount);
      var balanceA := Lookup(handed, (tokenA, self), 0);
      var balanceB := Lookup(handed, (tokenB, self), 0);
      var balanceShares := Lookup(handed, (tokenShare, self), 0);
      var amounts := WithdrawAmounts(balanceA, balanceB, balanceShares, totalShares, minA, minB);
      && (amounts.Err? ==> r == Err(amounts.error))
      && (amounts.Ok? ==>
        (r.Ok? <==> IsI128(totalShares - balanceShares) && IsI128(balanceA - amounts.value.0) && IsI128(balanceB - amounts.value.1)))
      && (r.Ok? ==> r.value.amounts == amounts.value && r.value.totalShares == totalShares - balanceShares)
    ensures r.Ok? && tokenA != tokenB && tokenA != tokenShare && tokenB != tokenShare && to != self ==>
      && Lookup(r.value.balances, (tokenShare, self), 0) == 0
      && r.value.reserves == (Lookup(r.value.balances, (tokenA, self), 0), Lookup(r.value.balances, (tokenB, self), 0))
      && Lookup(r.value.balances, (tokenA, to), 0) == Lookup(balances, (tokenA, to), 0) + r.value.amounts.0
      && Lookup(r.value.balances, (tokenB, to), 0) == Lookup(balances, (tokenB, to), 0) + r.value.amounts.1
  {
    var handed := Move(balances, tokenShare, to, self, shareAmount);
    var balanceA := Lookup(handed, (tokenA, self), 0);
    var balanceB := Lookup(handed, (tokenB, self), 0);
    var balanceShares := Lookup(handed, (tokenShare, self), 0);
    var (outA, outB) :- WithdrawAmounts(balanceA, balanceB, balanceShares, totalShares, minA, minB);
    var newTotalShares :- Sub(totalShares, balanceShares);
    var newReserveA :- Sub(balanceA, outA);
    var newReserveB :- Sub(balanceB, outB);
    var paid := Move(Move(Debit(handed, tokenShare, self, balanceShares), tokenA, self, to, outA), tokenB, self, to, outB);
    PayoutBalances(handed, tokenA, tokenB, tokenShare, self, to, balanceShares, outA, outB);
    Ok(Withdrawal((outA, outB), newTotalShares, (newReserveA, newReserveB), paid))
  }

  /** The holdings a withdrawal's burn and two payouts touch, one by one. */
  lemma PayoutBalances(handed: map<Holding, int>, tokenA: Address, tokenB: Address, tokenShare: Address, self: Address,
                       to: Address, burnt: int, outA: int, outB: int)
    ensures tokenA != tokenB && tokenA != tokenShare && tokenB != tokenShare && to != self ==>
      var paid := Move(Move(Debit(handed, tokenShare, self, burnt), tokenA, self, to, outA), tokenB, self, to, outB);
      && Lookup(paid, (tokenShare, self), 0) == Lookup(handed, (tokenShare, self), 0) - burnt
      && Lookup(paid, (tokenA, self), 0) == Lookup(handed, (tokenA, self), 0) - outA
      && Lookup(paid, (tokenB, self), 0) == Lookup(handed, (tokenB, self), 0) - outB
      && Lookup(paid, (tokenA, to), 0) == Lookup(handed, (tokenA, to), 0) + outA
      && Lookup(paid, (tokenB, to), 0) == Lookup(handed, (tokenB, to), 0) + outB
  {
    var burntMap := Debit(handed, tokenShare, self, burnt);
    var paidA := Move(burntMap, tokenA, self, to, outA);
    var paid := Move(paidA, tokenB, self, to, outB);
    if tokenA != tokenB && tokenA != tokenShare && tokenB != tokenShare && to != self {
      assert Lookup(paid, (tokenShare, self), 0) == Lookup(paidA, (tokenShare, self), 0) == Lookup(burntMap, (tokenShare, self), 0);
      assert Lookup(paid, (tokenA, self), 0) == Lookup(paidA, (tokenA, self), 0) && Lookup(burntMap, (tokenA, self), 0) == Lookup(handed, (tokenA, self), 0);
      assert Lookup(paid, (tokenA, to), 0) == Lookup(paidA, (tokenA, to), 0) && Lookup(burntMap, (tokenA, to), 0) == Lookup(handed, (tokenA, to), 0);
      assert Lookup(paidA, (tokenB, self), 0) == Lookup(burntMap, (tokenB, self), 0) == Lookup(handed, (tokenB, self), 0);
      assert Lookup(paidA, (tokenB, to), 0) == Lookup(burntMap, (tokenB, to), 0) == Lookup(handed, (tokenB, to), 0);
    }
  }

  /**
   * With both reserves positive, a deposit takes one side in full and the other
   * at the pool's price `reserve_a : reserve_b`, rounded down.
   */
  lemma DepositAtPoolPrice(desiredA: int, minA: int, desiredB: int, minB: int, reserveA: int, reserveB: int)
    requires reserveA > 0 && reserveB > 0 && desiredA >= 0 && desiredB >= 0
    requires DepositAmounts(desiredA, minA, desiredB, minB, reserveA, reserveB).Ok?
    ensures var (a, b) := DepositAmounts(desiredA, minA, desiredB, minB, reserveA, reserveB).value;
      || (a == desiredA && b * reserveA <= desiredA * reserveB < (b + 1) * reserveA)
      || (b == desiredB && a * reserveB <= desiredB * reserveA < (a + 1) * reserveB)
  {
    MulSigns(desiredA, reserveB);
    MulSigns(desiredB, reserveA);
    var amountB := Quot(desiredA * reserveB, reserveA);
    if amountB <= desiredB {
      QuotBounds(desiredA * reserveB, reserveA);
    } else {
      QuotBounds(desiredB * reserveA, reserveB);
    }
  }

  /**
   * The amount of token A a deposit takes is not checked against `min_a`: with
   * reserves 1 and 2, offering 10 of A (minimum 5) and 4 of B takes only 2 of A.
   */
  lemma DepositMayTakeLessThanMinA()
    ensures DepositAmounts(10, 5, 4, 0, 1, 2) == Ok((2, 4))
  {
  }

  /**
   * For a pool holding both tokens and amounts whose products fit an i128, the
   * outcome of `get_deposit_amounts` without division: the deposit is priced on
   * the B side when `desired_a` buys at most `desired_b` at the pool's price,
   * and fails there exactly when it buys less than `min_b`; otherwise it is
   * priced on the A side and fails exactly when `desired_a < min_a` (the
   * `amount_a > desired_a` test can never fire).
   */
  lemma DepositOutcome(desiredA: int, minA: int, desiredB: int, minB: int, reserveA: int, reserveB: int)
    requires reserveA > 0 && reserveB > 0 && desiredA >= 0 && desiredB >= 0
    requires IsI128(desiredA * reserveB) && IsI128(desiredB * reserveA)
    ensures var r := DepositAmounts(desiredA, minA, desiredB, minB, reserveA, reserveB);
      var onB := desiredA * reserveB < (desiredB + 1) * reserveA;
      && (r == Err(MinimumNotSatisfied) <==> onB && desiredA * reserveB < minB * reserveA)
      && (r == Err(InvalidAAmount) <==> !onB && desiredA < minA)
      && (r.Ok? <==> (onB && desiredA * reserveB >= minB * reserveA) || (!onB && desiredA >= minA))
  {
    if desiredA * reserveB < (desiredB + 1) * reserveA {
      DepositOnB(desiredA, minA, desiredB, minB, reserveA, reserveB);
    } else {
      DepositOnA(desiredA, minA, desiredB, minB, reserveA, reserveB);
    }
  }

  /** The B-side branch of `DepositOutcome`. */
  lemma DepositOnB(desiredA: int, minA: int, desiredB: int, minB: int, reserveA: int, reserveB: int)
    requires reserveA > 0 && reserveB > 0 && desiredA >= 0
    requires IsI128(desiredA * reserveB)
    requires desiredA * reserveB < (desiredB + 1) * reserveA
    ensures DepositAmounts(desiredA, minA, desiredB, minB, reserveA, reserveB)
      == if desiredA * reserveB < minB * reserveA then Err(MinimumNotSatisfied)
         else Ok((desiredA, Quot(desiredA * reserveB, reserveA)))
  {
    var pB := desiredA * reserveB;
    MulSigns(desiredA, reserveB);
    QuotFits(pB, reserveA);
    FloorLt(pB, reserveA, desiredB + 1);
    FloorLt(pB, reserveA, minB);
  }

  /** The A-side branch of `DepositOutcome`: the amount of A taken never exceeds `desired_a`. */
  lemma DepositOnA(desiredA: int, minA: int, desiredB: int, minB: int, reserveA: int, reserveB: int)
    requires reserveA > 0 && reserveB > 0 && desiredA >= 0 && desiredB >= 0
    requires IsI128(desiredA * reserveB) && IsI128(desiredB * reserveA)
    requires desiredA * reserveB >= (desiredB + 1) * reserveA
    ensures DepositAmounts(desiredA, minA, desiredB, minB, reserveA, reserveB)
      == if desiredA < minA then Err(InvalidAAmount)
         else Ok((Quot(desiredB * reserveA, reserveB), desiredB))
  {
    var pB, pA := desiredA * reserveB, desiredB * reserveA;
    MulSigns(desiredA, reserveB);
    MulSigns(desiredB, reserveA);
    QuotFits(pB, reserveA);
    QuotFits(pA, reserveB);
    FloorLt(pB, reserveA, desiredB + 1);
    assert pA < pB by {
      assert (desiredB + 1) * reserveA == pA + reserveA;
    }
    FloorLt(pA, reserveB, desiredA + 1);
  }

  /**
   * Where nothing overflows, the share total after a deposit is the smaller of
   * the two pro-rata totals for a pool holding both tokens, and for any other
   * pool it is defined exactly when the product of the balances is not negative.
   */
  lemma NewTotalSharesOutcome(balanceA: int, balanceB: int, totalShares: int, reserveA: int, reserveB: int)
    ensures reserveA > 0 && reserveB > 0 && IsI128(balanceA * totalShares) && IsI128(balanceB * totalShares) ==>
      NewTotalShares(balanceA, balanceB, totalShares, reserveA, reserveB)
        == Ok(Min(Quot(balanceA * totalShares, reserveA), Quot(balanceB * totalShares, reserveB)))
  {
    if reserveA > 0 && reserveB > 0 && IsI128(balanceA * totalShares) && IsI128(balanceB * totalShares) {
      QuotFits(balanceA * totalShares, reserveA);
      QuotFits(balanceB * totalShares, reserveB);
    }
  }

  /**
   * A swap out of a pool that holds more than `out` of the bought token is
   * always priced when the numerator and the denominator fit an i128.
   */
  lemma SellAmountDefined(reserveSell: int, reserveBuy: int, out: int)
    requires reserveSell >= 0 && out >= 0 && reserveBuy > out
    requires IsI128(reserveSell * out * 1000) && IsI128((reserveBuy - out) * 997)
    ensures SellAmount(reserveSell, reserveBuy, out).Ok?
  {
    var n, d := reserveSell * out * 1000, (reserveBuy - out) * 997;
    MulSigns(reserveSell, out);
    QuotBounds(n, d);
    var q := Quot(n, d);
    MulLe(q, 997, q, d);
    assert q * 997 <= n;
  }

  /**
   * Where the products fit an i128, a withdrawal pays out exactly when each
   * pro-rata amount reaches its minimum, and otherwise fails with
   * `MinimumNotSatisfied`.
   */
  lemma WithdrawOutcome(balanceA: int, balanceB: int, balanceShares: int, totalShares: int, minA: int, minB: int)
    requires totalShares > 0 && balanceA >= 0 && balanceB >= 0 && balanceShares >= 0
    requires IsI128(balanceA * balanceShares) && IsI128(balanceB * balanceShares)
    ensures var r := WithdrawAmounts(balanceA, balanceB, balanceShares, totalShares, minA, minB);
      && (r.Ok? <==> minA * totalShares <= balanceA * balanceShares && minB * totalShares <= balanceB * balanceShares)
      && (r.Err? ==> r == Err(MinimumNotSatisfied))
  {
    MulSigns(balanceA, balanceShares);
    MulSigns(balanceB, balanceShares);
    QuotFits(balanceA * balanceShares, totalShares);
    QuotFits(balanceB * balanceShares, totalShares);
    FloorLt(balanceA * balanceShares, totalShares, minA);
    FloorLt(balanceB * balanceShares, totalShares, minB);
  }

  /** Dividing by a positive number never leaves the i128 range. */
  lemma QuotFits(a: int, b: int)
    requires IsI128(a) && b > 0
    ensures IsI128(Quot(a, b))
  {
    DivBracket(Abs(a), b);
    MulLe(Abs(a) / b, 1, Abs(a) / b, b);
  }

  /** A rounded-down quotient is below `m` exactly when the dividend is below `m` divisors. */
  lemma FloorLt(p: int, d: int, m: int)
    requires p >= 0 && d > 0
    ensures Quot(p, d) < m <==> p < m * d
  {
    QuotBounds(p, d);
    var q := Quot(p, d);
    if q < m {
      MulSigns(m - q - 1, d);
      assert (m - q - 1) * d == m * d - (q + 1) * d;
    } else {
      MulSigns(q - m, d);
      assert (q - m) * d == q * d - m * d;
    }
  }

  /**
   * A pool never pays out more of a token than it holds while the redeemed
   * shares are at most the shares outstanding.
   */
  lemma WithdrawWithinBalance(balanceA: int, balanceB: int, balanceShares: int, totalShares: int, minA: int, minB: int)
    requires totalShares > 0 && balanceA >= 0 && balanceB >= 0 && 0 <= balanceShares <= totalShares
    requires WithdrawAmounts(balanceA, balanceB, balanceShares, totalShares, minA, minB).Ok?
    ensures var (outA, outB) := WithdrawAmounts(balanceA, balanceB, balanceShares, totalShares, minA, minB).value;
      0 <= outA <= balanceA && 0 <= outB <= balanceB
  {
    var (outA, outB) := WithdrawAmounts(balanceA, balanceB, balanceShares, totalShares, minA, minB).value;
    ProRataBound(balanceA, balanceShares, totalShares, outA);
    ProRataBound(balanceB, balanceShares, totalShares, outB);
  }

  lemma ProRataBound(balance: int, shares: int, total: int, out: int)
    requires total > 0 && balance >= 0 && 0 <= shares <= total
    requires out * total <= balance * shares < (out + 1) * total
    ensures 0 <= out <= balance
  {
    MulLe(balance, shares, balance, total);
    assert (out - balance) * total <= 0;
    MulSigns(out - balance, total);
    MulSigns(balance, shares);
    MulSigns(-(out + 1), total);
  }

  lemma MulLe(a: int, b: int, c: int, d: int)
    requires 0 <= a <= c && 0 <= b <= d
    ensures a * b <= c * d
  {
    assert a * b <= c * b <= c * d;
  }

  /**
   * A swap that succeeds never lowers the constant product of the reserves: the
   * fee-adjusted product check implies `new_a * new_b >= reserve_a * reserve_b`.
   */
  lemma SwapKeepsConstantProduct(reserveA: int, reserveB: int, balanceA: int, balanceB: int, outA: int, outB: int)
    requires reserveA >= 0 && reserveB >= 0
    requires SwapReserves(reserveA, reserveB, balanceA, balanceB, outA, outB).Ok?
    ensures var (newA, newB) := SwapReserves(reserveA, reserveB, balanceA, balanceB, outA, outB).value;
      newA * newB >= reserveA * reserveB
  {
    var (newA, newB) := SwapReserves(reserveA, reserveB, balanceA, balanceB, outA, outB).value;
    var invA := InvariantFactor(balanceA, reserveA, outA).value;
    var invB := InvariantFactor(balanceB, reserveB, outB).value;
    MulLe(invA, invB, 1000 * newA, 1000 * newB);
    ScaledProduct(newA, newB);
    ScaledProduct(reserveA, reserveB);
  }

  lemma ScaledProduct(a: int, b: int)
    ensures (1000 * a) * (1000 * b) == 1000000 * (a * b)
  {
  }

  /** The pool's state: the tokens it trades, its share token, and its books. */
  class Pool {
    /** The pool contract's own address (`env().current_contract_address()`). */
    const self: Address
    var tokenA: Address
    var tokenB: Address
    var tokenShare: Address
    var totalShares: int
    var reserveA: int
    var reserveB: int

    /** `Default`: every address is the pool's own, every amount zero. */
    constructor (self: Address)
      ensures this.self == self
      ensures tokenA == self && tokenB == self && tokenShare == self
      ensures totalShares == 0 && reserveA == 0 && reserveB == 0
    {
      this.self := self;
      tokenA, tokenB, tokenShare := self, self, self;
      totalShares, reserveA, reserveB := 0, 0, 0;
    }

    /**
     * `initialize`: the token pair must be in strictly increasing order. The
     * share token is deployed and initialised by the host; `shareContract` is the
     * address that deployment returns. There is no "already initialised" guard:
     * a second call resets the books.
     */
    method Initialize(shareContract: Address, tokenA: Address, tokenB: Address) returns (r: Result<(), Error>)
      modifies this
      ensures tokenA >= tokenB ==> r == Err(InvalidTokenOrder) && unchanged(this)
      ensures tokenA < tokenB ==> r == Ok(())
      ensures tokenA < tokenB ==>
        && this.tokenA == tokenA && this.tokenB == tokenB && tokenShare == shareContract
        && totalShares == 0 && reserveA == 0 && reserveB == 0
    {
      if tokenA >= tokenB {
        return Err(InvalidTokenOrder);
      }
      this.tokenA := tokenA;
      this.tokenB := tokenB;
      tokenShare := shareContract;
      totalShares := 0;
      reserveA := 0;
      reserveB := 0;
      r := Ok(());
    }

    function ShareId(): Address
      reads this
    {
      tokenShare
    }

    /** `get_rsrvs`. */
    function GetRsrvs(): (r: (int, int))
      reads this
      ensures r == (reserveA, reserveB)
    {
      (reserveA, reserveB)
    }

    /**
     * `deposit`: take the deposit amounts from `to`, mint the difference in the
     * share total to `to`, and book the pool's new balances as its reserves.
     */
    method Deposit(ledger: TokenLedger, to: Address, desiredA: int, minA: int, desiredB: int, minB: int)
      returns (r: Result<(), Error>)
      modifies this, ledger
      ensures r.Err? ==> unchanged(this) && unchanged(ledger)
      ensures tokenA == old(tokenA) && tokenB == old(tokenB) && tokenShare == old(tokenShare)
      ensures var amounts := DepositAmounts(desiredA, minA, desiredB, minB, old(reserveA), old(reserveB));
        && (amounts.Err? ==> r == amounts.PropagateFailure())
        && (amounts.Ok? && (amounts.value.0 <= 0 || amounts.value.1 <= 0) ==> r == Err(DepositAmountsMustBePositive))
        && (amounts.Ok? && amounts.value.0 > 0 && amounts.value.1 > 0 ==>
          var paid := Move(Move(old(ledger.balances), tokenA, to, self, amounts.value.0), tokenB, to, self, amounts.value.1);
          var shares := NewTotalShares(Lookup(paid, (tokenA, self), 0), Lookup(paid, (tokenB, self), 0),
                                       old(totalShares), old(reserveA), old(reserveB));
          && (shares.Err? ==> r == shares.PropagateFailure())
          && (shares.Ok? ==> r == if IsI128(shares.value - old(totalShares)) then Ok(()) else Err(Trapped(ArithmeticOverflow)))
          && (r.Ok? ==>
            && reserveA == Lookup(paid, (tokenA, self), 0)
            && reserveB == Lookup(paid, (tokenB, self), 0)
            && shares == Ok(totalShares)
            && ledger.balances == Credit(paid, tokenShare, to, totalShares - old(totalShares))))
      ensures r.Ok? && tokenShare != tokenA ==> reserveA == ledger.Balance(tokenA, self)
    {
      var amounts :- DepositAmounts(desiredA, minA, desiredB, minB, reserveA, reserveB);
      if amounts.0 <= 0 || amounts.1 <= 0 {
        return Err(DepositAmountsMustBePositive);
      }
      var balances := Move(ledger.balances, tokenA, to, self, amounts.0);
      balances := Move(balances, tokenB, to, self, amounts.1);
      var balanceA := Lookup(balances, (tokenA, self), 0);
      var balanceB := Lookup(balances, (tokenB, self), 0);
      var newTotalShares :- NewTotalShares(balanceA, balanceB, totalShares, reserveA, reserveB);
      var sharesToMint :- Sub(newTotalShares, totalShares);
      ledger.balances := Credit(balances, tokenShare, to, sharesToMint);
      totalShares := newTotalShares;
      reserveA := balanceA;
      reserveB := balanceB;
      r := Ok(());
    }

    /**
     * `swap`: `to` buys `out` of one token (token A when `buyA`) and pays the
     * `SellAmount` of the other, at most `inMax`.
     */
    method Swap(ledger: TokenLedger, to: Address, buyA: bool, out: int, inMax: int) returns (r: Result<(), Error>)
      modifies this, ledger
      ensures var e := SwapEffect(old(reserveA), old(reserveB), tokenA, tokenB, self, old(ledger.balances), to, buyA, out, inMax);
        && (e.Err? ==> r == Err(e.error) && unchanged(this) && unchanged(ledger))
        && (e.Ok? ==> r == Ok(()) && (reserveA, reserveB) == e.value.0 && ledger.balances == e.value.1)
      ensures totalShares == old(totalShares)
      ensures tokenA == old(tokenA) && tokenB == old(tokenB) && tokenShare == old(tokenShare)
    {
      var (reserveSell, reserveBuy) := if buyA then (reserveB, reserveA) else (reserveA, reserveB);
      var sellAmount :- SellAmount(reserveSell, reserveBuy, out);
      if sellAmount > inMax {
        return Err(ExceededMaxInput);
      }
      var sellToken := if buyA then tokenB else tokenA;
      var balances := Move(ledger.balances, sellToken, to, self, sellAmount);
      var balanceA := Lookup(balances, (tokenA, self), 0);
      var balanceB := Lookup(balances, (tokenB, self), 0);
      var (outA, outB) := if buyA then (out, 0) else (0, out);
      var newReserves :- SwapReserves(reserveA, reserveB, balanceA, balanceB, outA, outB);
      if buyA {
        balances := Move(balances, tokenA, self, to, outA);
      } else {
        balances := Move(balances, tokenB, self, to, outB);
      }
      ledger.balances := balances;
      reserveA := newReserves.0;
      reserveB := newReserves.1;
      r := Ok(());
    }

    /**
     * `withdraw`: `to` hands `shareAmount` shares to the pool; the pool burns
     * every share it holds and pays out their pro-rata part of each token.
     */
    method Withdraw(ledger: TokenLedger, to: Address, shareAmount: int, minA: int, minB: int)
      returns (r: Result<(int, int), Error>)
      modifies this, ledger
      ensures var e := WithdrawEffect(old(totalShares), tokenA, tokenB, tokenShare, self, old(ledger.balances), to, shareAmount, minA, minB);
        && (e.Err? ==> r == Err(e.error) && unchanged(this) && unchanged(ledger))
        && (e.Ok? ==>
          && r == Ok(e.value.amounts) && totalShares == e.value.totalShares
          && (reserveA, reserveB) == e.value.reserves && ledger.balances == e.value.balances)
      ensures tokenA == old(tokenA) && tokenB == old(tokenB) && tokenShare == old(tokenShare)
    {
      var balances := Move(ledger.balances, tokenShare, to, self, shareAmount);
      var balanceA := Lookup(balances, (tokenA, self), 0);
      var balanceB := Lookup(balances, (tokenB, self), 0);
      var balanceShares := Lookup(balances, (tokenShare, self), 0);
      var amounts :- WithdrawAmounts(balanceA, balanceB, balanceShares, totalShares, minA, minB);
      var (outA, outB) := amounts;
      balances := Debit(balances, tokenShare, self, balanceShares);
      var newTotalShares :- Sub(totalShares, balanceShares);
      balances := Move(balances, tokenA, self, to, outA);
      balances := Move(balances, tokenB, self, to, outB);
      var newReserveA :- Sub(balanceA, outA);
      var newReserveB :- Sub(balanceB, outB);
      ledger.balances := balances;
      totalShares := newTotalShares;
      reserveA := newReserveA;
      reserveB := newReserveB;
      r := Ok((outA, outB));
    }
  }

  /**
   * The pool's test, first step: token A is 1, token B 2, the share token 3,
   * the pool 10 and the user 20, who starts with 1000 of each token. Depositing
   * 100 and 100 into the fresh pool mints 100 shares.
   */
  method FirstDeposit() returns (r: Result<(), Error>, user: (int, int, int), pool: (int, int, int), shares: int)
    ensures r == Ok(())
    ensures user == (900, 900, 100) && pool == (100, 100, 0) && shares == 100
  {
    var ledger := new TokenLedger(map[(1, 20) := 1000, (2, 20) := 1000]);
    var p := new Pool(10);
    var init := p.Initialize(3, 1, 2);
    assert p.tokenA == 1 && p.tokenB == 2 && p.tokenShare == 3 && p.self == 10;
    var before := ledger.balances;
    FirstDepositPayouts(before);
    FirstDepositShares();
    assert DepositAmounts(100, 100, 100, 100, 0, 0) == Ok((100, 100));
    r := p.Deposit(ledger, 20, 100, 100, 100, 100);
    user := (ledger.Balance(1, 20), ledger.Balance(2, 20), ledger.Balance(3, 20));
    pool := (ledger.Balance(1, 10), ledger.Balance(2, 10), ledger.Balance(3, 10));
    shares := p.totalShares;
  }

  /**
   * Second step, from the state `FirstDeposit` ends in: buying 49 of token B
   * costs 97 of token A and leaves reserves 197 and 51.
   */
  method SwapAfterDeposit() returns (r: Result<(), Error>, user: (int, int, int), pool: (int, int, int), reserves: (int, int))
    ensures r == Ok(())
    ensures user == (803, 949, 100) && pool == (197, 51, 0) && reserves == (197, 51)
  {
    var ledger := new TokenLedger(map[(1, 20) := 900, (2, 20) := 900, (3, 20) := 100, (1, 10) := 100, (2, 10) := 100]);
    var p := new Pool(10);
    var init := p.Initialize(3, 1, 2);
    p.totalShares, p.reserveA, p.reserveB := 100, 100, 100;
    assert p.tokenA == 1 && p.tokenB == 2 && p.self == 10;
    var before := ledger.balances;
    SwapPayouts(before);
    r := p.Swap(ledger, 20, false, 49, 100);
    user := (ledger.Balance(1, 20), ledger.Balance(2, 20), ledger.Balance(3, 20));
    pool := (ledger.Balance(1, 10), ledger.Balance(2, 10), ledger.Balance(3, 10));
    reserves := p.GetRsrvs();
  }

  /**
   * Last step, from the state `SwapAfterDeposit` ends in: redeeming all 100
   * shares pays out the whole pool, 197 of A and 51 of B, and empties it.
   */
  method WithdrawAll() returns (r: Result<(int, int), Error>, user: (int, int, int), pool: (int, int, int), shares: int)
    ensures r == Ok((197, 51))
    ensures user == (1000, 1000, 0) && pool == (0, 0, 0) && shares == 0
  {
    var ledger := new TokenLedger(map[(1, 20) := 803, (2, 20) := 949, (3, 20) := 100, (1, 10) := 197, (2, 10) := 51]);
    var p := new Pool(10);
    var init := p.Initialize(3, 1, 2);
    p.totalShares, p.reserveA, p.reserveB := 100, 197, 51;
    assert p.tokenA == 1 && p.tokenB == 2 && p.tokenShare == 3 && p.self == 10;
    var before := ledger.balances;
    r := p.Withdraw(ledger, 20, 100, 197, 51);
    WithdrawAllPayouts(before);
    user := (ledger.Balance(1, 20), ledger.Balance(2, 20), ledger.Balance(3, 20));
    pool := (ledger.Balance(1, 10), ledger.Balance(2, 10), ledger.Balance(3, 10));
    shares := p.totalShares;
  }

  /** The ledger movements of `FirstDeposit`: 100 of each token in, 100 shares out. */
  lemma FirstDepositPayouts(before: map<Holding, int>)
    requires before == map[(1, 20) := 1000, (2, 20) := 1000]
    ensures var paid := Move(Move(before, 1, 20, 10, 100), 2, 20, 10, 100);
      var after := Credit(paid, 3, 20, 100);
      && Lookup(paid, (1, 10), 0) == 100 && Lookup(paid, (2, 10), 0) == 100
      && Lookup(after, (1, 20), 0) == 900 && Lookup(after, (2, 20), 0) == 900 && Lookup(after, (3, 20), 0) == 100
      && Lookup(after, (1, 10), 0) == 100 && Lookup(after, (2, 10), 0) == 100 && Lookup(after, (3, 10), 0) == 0
  {
    var paidA := Move(before, 1, 20, 10, 100);
    assert Lookup(paidA, (1, 20), 0) == 900 && Lookup(paidA, (1, 10), 0) == 100;
  }

  /** The effect of the swap in `SwapAfterDeposit`: 97 of A in, 49 of B out, reserves 197 and 51. */
  lemma SwapPayouts(before: map<Holding, int>)
    requires before == map[(1, 20) := 900, (2, 20) := 900, (3, 20) := 100, (1, 10) := 100, (2, 10) := 100]
    ensures var e := SwapEffect(100, 100, 1, 2, 10, before, 20, false, 49, 100);
      && e.Ok? && e.value.0 == (197, 51)
      && Lookup(e.value.1, (1, 20), 0) == 803 && Lookup(e.value.1, (2, 20), 0) == 949 && Lookup(e.value.1, (3, 20), 0) == 100
      && Lookup(e.value.1, (1, 10), 0) == 197 && Lookup(e.value.1, (2, 10), 0) == 51 && Lookup(e.value.1, (3, 10), 0) == 0
  {
    var paid := Move(before, 1, 20, 10, 97);
    assert Lookup(paid, (1, 10), 0) == 197 && Lookup(paid, (2, 10), 0) == 100;
    SwapPriceExample();
    SwapReservesExample();
  }

  /** The effect of the withdrawal in `WithdrawAll`: the user ends with everything and the pool with nothing. */
  lemma WithdrawAllPayouts(before: map<Holding, int>)
    requires before == map[(1, 20) := 803, (2, 20) := 949, (3, 20) := 100, (1, 10) := 197, (2, 10) := 51]
    ensures var e := WithdrawEffect(100, 1, 2, 3, 10, before, 20, 100, 197, 51);
      && e.Ok? && e.value.amounts == (197, 51) && e.value.totalShares == 0
      && Lookup(e.value.balances, (1, 20), 0) == 1000 && Lookup(e.value.balances, (2, 20), 0) == 1000
      && Lookup(e.value.balances, (3, 20), 0) == 0 && Lookup(e.value.balances, (1, 10), 0) == 0
      && Lookup(e.value.balances, (2, 10), 0) == 0 && Lookup(e.value.balances, (3, 10), 0) == 0
  {
    var handed := Move(before, 3, 20, 10, 100);
    assert Lookup(handed, (1, 10), 0) == 197 && Lookup(handed, (2, 10), 0) == 51 && Lookup(handed, (3, 10), 0) == 100;
    WithdrawExample();
    var burnt := Debit(handed, 3, 10, 100);
    var paidA := Move(burnt, 1, 10, 20, 197);
    assert Lookup(burnt, (3, 10), 0) == 0 && Lookup(burnt, (3, 20), 0) == 0;
    assert Lookup(paidA, (1, 20), 0) == 1000 && Lookup(paidA, (1, 10), 0) == 0;
  }

  /** The first deposit of 100 and 100 mints the square root of 10000 shares. */
  lemma FirstDepositShares()
    ensures NewTotalShares(100, 100, 0, 0, 0) == Ok(100)
  {
    IsqrtOfSquare(100);
  }

  /** After 97 of token A came in for 49 of token B, the 100/100 pool holds 197 and 51. */
  lemma SwapReservesExample()
    ensures SwapReserves(100, 100, 197, 100, 0, 49) == Ok((197, 51))
  {
  }

  /** Redeeming all 100 shares of a 197/51 pool pays out all of it. */
  lemma WithdrawExample()
    ensures WithdrawAmounts(197, 51, 100, 100, 197, 51) == Ok((197, 51))
  {
  }

  /** Buying 49 of one token from a 100/100 pool costs 97 of the other. */
  lemma SwapPriceExample()
    ensures SellAmount(100, 100, 49) == Ok(97)
  {
  }

  /** `share_id` reports the share token `initialize` recorded; before that it is the pool's own address. */
  method ShareIdAfterInitialize() returns (before: Address, after: Address)
    ensures before == 10 && after == 3
  {
    var p := new Pool(10);
    before := p.ShareId();
    var init := p.Initialize(3, 1, 2);
    after := p.ShareId();
  }

  /** A deposit that would take nothing of token B is refused. */
  method DepositOfZeroFails() returns (r: Result<(), Error>)
    ensures r == Err(DepositAmountsMustBePositive)
  {
    var ledger := new TokenLedger(map[(1, 20) := 1000, (2, 20) := 1000]);
    var p := new Pool(10);
    var init := p.Initialize(3, 1, 2);
    r := p.Deposit(ledger, 20, 1, 0, 0, 0);
  }

  /**
   * A swap against an empty pool into which one unit of B was sent directly
   * would leave reserve B at zero, and is refused.
   */
  method SwapIntoOneSidedPoolFails() returns (r: Result<(), Error>)
    ensures r == Err(NewReservesMustBePositive)
  {
    var ledger := new TokenLedger(map[(1, 20) := 1000, (2, 20) := 999, (2, 10) := 1]);
    var p := new Pool(10);
    var init := p.Initialize(3, 1, 2);
    assert p.tokenA == 1 && p.tokenB == 2 && p.self == 10;
    OneSidedSwapRefused(ledger.balances);
    r := p.Swap(ledger, 20, false, 1, 1);
  }

  /** The effect of the swap in `SwapIntoOneSidedPoolFails`: the price is 1, and paying it leaves reserve B at zero. */
  lemma OneSidedSwapRefused(before: map<Holding, int>)
    requires before == map[(1, 20) := 1000, (2, 20) := 999, (2, 10) := 1]
    ensures SwapEffect(0, 0, 1, 2, 10, before, 20, false, 1, 1) == Err(NewReservesMustBePositive)
  {
    var paid := Move(before, 1, 20, 10, 1);
    assert SellAmount(0, 0, 1) == Ok(1);
    assert Lookup(paid, (1, 10), 0) == 1 && Lookup(paid, (2, 10), 0) == 1;
    assert SwapReserves(0, 0, 1, 1, 0, 1) == Err(NewReservesMustBePositive);
  }
}
