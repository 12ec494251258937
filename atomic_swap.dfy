/**
 * examples/soroban/atomic_swap: two parties exchange amounts of two tokens
 * through the swap contract in one invocation. Party `a` offers `amountA` of
 * token A and wants at least `minBForA` of token B; party `b` offers
 * `amountB` of token B and wants at least `minAForB` of token A. The swap
 * moves exactly the minimums: `a` pays `minAForB`, `b` pays `minBForA`.
 *
 * Each leg goes through the contract's own balance: the payer sends its whole
 * offer to the contract, the contract pays the counter-party, then refunds
 * the rest. Authorisation by `require_auth_for_args` is the oracle `signed`:
 * whether an address has signed these swap terms. The token contracts'
 * transfers are assumed to succeed.
 */
module AtomicSwap {
  import opened Soroban

  datatype Error = NotEnoughTokenB | NotEnoughTokenA | Trapped(panic: Panic)

  /** The arguments one party authorises: the token it sells, the token it
      buys, how much it offers, and the least it accepts in return. */
  datatype Terms = Terms(sell: Address, buy: Address, amount: int, minRecv: int)

  /**
   * Whether `swap` completes, and why not: the two minimum checks in their
   * order, then either party's missing authorisation, then an overflowing
   * refund (a trap in the first or the second leg).
   */
  function SwapOutcome(a: Address, b: Address, tokenA: Address, tokenB: Address,
                       amountA: int, minBForA: int, amountB: int, minAForB: int,
                       signed: (Address, Terms) -> bool): (r: Result<(), Error>)
    ensures amountB < minBForA ==> r == Err(NotEnoughTokenB)
    ensures amountB >= minBForA && amountA < minAForB ==> r == Err(NotEnoughTokenA)
    ensures r.Ok? <==>
      && minBForA <= amountB && minAForB <= amountA
      && signed(a, Terms(tokenA, tokenB, amountA, minBForA))
      && signed(b, Terms(tokenB, tokenA, amountB, minAForB))
      && amountA - minAForB <= I128_MAX && amountB - minBForA <= I128_MAX
    ensures r.Err? && r.error.Trapped? ==> minBForA <= amountB && minAForB <= amountA
  {
    if amountB < minBForA then Err(NotEnoughTokenB)
    else if amountA < minAForB then Err(NotEnoughTokenA)
    else if !signed(a, Terms(tokenA, tokenB, amountA, minBForA)) then Err(Trapped(Unauthorized))
    else if !signed(b, Terms(tokenB, tokenA, amountB, minAForB)) then Err(Trapped(Unauthorized))
    else if SubI128(amountA, minAForB).None? then Err(Trapped(ArithmeticOverflow))
    else if SubI128(amountB, minBForA).None? then Err(Trapped(ArithmeticOverflow))
    else Ok(())
  }

  /** `move_token`'s three transfers: the whole offer in, the payment out, the rest back. */
  function Escrowed(ledger: map<Holding, int>, contract: Address, token: Address, from: Address, to: Address,
                    maxSpend: int, transfer: int): map<Holding, int>
  {
    var deposited := Move(ledger, token, from, contract, maxSpend);
    var paid := Move(deposited, token, contract, to, transfer);
    Move(paid, token, contract, from, maxSpend - transfer)
  }

  /**
   * Whatever the parties and the contract are, going through the contract's
   * balance comes to a direct transfer of `transfer` from payer to payee: the
   * contract ends where it began.
   */
  lemma EscrowIsDirectTransfer(ledger: map<Holding, int>, contract: Address, token: Address, from: Address, to: Address,
                               maxSpend: int, transfer: int)
    ensures forall h :: Lookup(Escrowed(ledger, contract, token, from, to, maxSpend, transfer), h, 0)
                     == Lookup(Move(ledger, token, from, to, transfer), h, 0)
  {
    var deposited := Move(ledger, token, from, contract, maxSpend);
    var paid := Move(deposited, token, contract, to, transfer);
    var refunded := Move(paid, token, contract, from, maxSpend - transfer);
    var direct := Move(ledger, token, from, to, transfer);
    forall h ensures Lookup(refunded, h, 0) == Lookup(direct, h, 0) {
      if h != (token, from) && h != (token, to) && h != (token, contract) {
      } else if h == (token, contract) {
        if contract == from {
        } else if contract == to {
        } else {
        }
      } else if h == (token, from) {
        if from == to {
        } else if contract == to {
        } else {
        }
      } else {
        if contract == from {
        } else if from == to {
        } else {
        }
      }
    }
  }

  /** The net effect of a completed swap on the ledger: both legs, `a`'s first. */
  function Swapped(ledger: map<Holding, int>, contract: Address, a: Address, b: Address, tokenA: Address, tokenB: Address,
                   amountA: int, minBForA: int, amountB: int, minAForB: int): map<Holding, int>
  {
    var first := Escrowed(ledger, contract, tokenA, a, b, amountA, minAForB);
    Escrowed(first, contract, tokenB, b, a, amountB, minBForA)
  }

  /**
   * A completed swap between distinct parties in distinct tokens: `a` pays
   * exactly `minAForB` of token A to `b`, `b` pays exactly `minBForA` of token
   * B to `a`, and no other balance changes, the contract's included.
   */
  lemma SwapNetEffect(ledger: map<Holding, int>, contract: Address, a: Address, b: Address, tokenA: Address, tokenB: Address,
                      amountA: int, minBForA: int, amountB: int, minAForB: int)
    requires a != b && tokenA != tokenB
    ensures var after := Swapped(ledger, contract, a, b, tokenA, tokenB, amountA, minBForA, amountB, minAForB);
      && Lookup(after, (tokenA, a), 0) == Lookup(ledger, (tokenA, a), 0) - minAForB
      && Lookup(after, (tokenA, b), 0) == Lookup(ledger, (tokenA, b), 0) + minAForB
      && Lookup(after, (tokenB, b), 0) == Lookup(ledger, (tokenB, b), 0) - minBForA
      && Lookup(after, (tokenB, a), 0) == Lookup(ledger, (tokenB, a), 0) + minBForA
      && forall h :: h !in {(tokenA, a), (tokenA, b), (tokenB, a), (tokenB, b)} ==> Lookup(after, h, 0) == Lookup(ledger, h, 0)
  {
    var first := Escrowed(ledger, contract, tokenA, a, b, amountA, minAForB);
    EscrowIsDirectTransfer(ledger, contract, tokenA, a, b, amountA, minAForB);
    EscrowIsDirectTransfer(first, contract, tokenB, b, a, amountB, minBForA);
  }

  /**
   * `move_token`: the three transfers in order. The refund amount is computed
   * with overflow checks after the first two transfers; a trap there rolls
   * them back.
   */
  method MoveToken(ledger: TokenLedger, contract: Address, token: Address, from: Address, to: Address,
                   maxSpend: int, transfer: int) returns (r: Result<(), Error>)
    modifies ledger
    ensures r == if IsI128(maxSpend - transfer) then Ok(()) else Err(Trapped(ArithmeticOverflow))
    ensures r.Ok? ==> ledger.balances == Escrowed(old(ledger.balances), contract, token, from, to, maxSpend, transfer)
    ensures r.Err? ==> ledger.balances == old(ledger.balances)
  {
    var before := ledger.balances;
    ledger.balances := Move(ledger.balances, token, from, contract, maxSpend);
    ledger.balances := Move(ledger.balances, token, contract, to, transfer);
    var refund := SubI128(maxSpend, transfer);
    if refund.None? {
      ledger.balances := before;
      return Err(Trapped(ArithmeticOverflow));
    }
    ledger.balances := Move(ledger.balances, token, contract, from, refund.value);
    r := Ok(());
  }

  /** `swap`: the checks, the two authorisations, then `a`'s leg and `b`'s leg. */
  method Swap(ledger: TokenLedger, contract: Address, a: Address, b: Address, tokenA: Address, tokenB: Address,
              amountA: int, minBForA: int, amountB: int, minAForB: int,
              signed: (Address, Terms) -> bool) returns (r: Result<(), Error>)
    modifies ledger
    ensures r == SwapOutcome(a, b, tokenA, tokenB, amountA, minBForA, amountB, minAForB, signed)
    ensures r.Ok? ==> ledger.balances == Swapped(old(ledger.balances), contract, a, b, tokenA, tokenB,
                                                 amountA, minBForA, amountB, minAForB)
    ensures r.Err? ==> ledger.balances == old(ledger.balances)
  {
    if amountB < minBForA {
      return Err(NotEnoughTokenB);
    }
    if amountA < minAForB {
      return Err(NotEnoughTokenA);
    }
    if !signed(a, Terms(tokenA, tokenB, amountA, minBForA)) || !signed(b, Terms(tokenB, tokenA, amountB, minAForB)) {
      return Err(Trapped(Unauthorized));
    }
    var before := ledger.balances;
    r := MoveToken(ledger, contract, tokenA, a, b, amountA, minAForB);
    if r.Err? {
      return;
    }
    r := MoveToken(ledger, contract, tokenB, b, a, amountB, minBForA);
    if r.Err? {
      ledger.balances := before;
    }
  }

  /**
   * Party 1 offers 100 of token 5 for at least 40 of token 6; party 2 offers
   * 50 of token 6 for at least 90 of token 5. Party 1 pays 90 and receives 40;
   * the contract at address 9 ends with nothing. Asking more than the other
   * side offers fails with the matching error and moves nothing.
   */
  method SwapExample() returns (done: Result<(), Error>, greedy: Result<(), Error>,
                                a5: int, a6: int, b5: int, b6: int, escrow5: int, escrow6: int)
    ensures done.Ok? && greedy == Err(NotEnoughTokenB)
    ensures a5 == 910 && a6 == 40 && b5 == 90 && b6 == 960
    ensures escrow5 == 0 && escrow6 == 0
  {
    var ledger := new TokenLedger(map[(5, 1) := 1000, (6, 2) := 1000]);
    var always := (p: Address, t: Terms) => true;
    greedy := Swap(ledger, 9, 1, 2, 5, 6, 100, 60, 50, 90, always);
    done := Swap(ledger, 9, 1, 2, 5, 6, 100, 40, 50, 90, always);
    SwapNetEffect(map[(5, 1) := 1000, (6, 2) := 1000], 9, 1, 2, 5, 6, 100, 40, 50, 90);
    EscrowIsDirectTransfer(map[(5, 1) := 1000, (6, 2) := 1000], 9, 5, 1, 2, 100, 90);
    EscrowIsDirectTransfer(Escrowed(map[(5, 1) := 1000, (6, 2) := 1000], 9, 5, 1, 2, 100, 90), 9, 6, 2, 1, 50, 40);
    a5, a6 := ledger.Balance(5, 1), ledger.Balance(6, 1);
    b5, b6 := ledger.Balance(5, 2), ledger.Balance(6, 2);
    escrow5, escrow6 := ledger.Balance(5, 9), ledger.Balance(6, 9);
  }
}
