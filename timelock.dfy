/**
 * The claimable balance of examples/soroban/timelock: one stored record, put in
 * place once by `deposit` and emptied by `claim`. The ledger timestamp is a
 * parameter; the token transfers act on the abstract `TokenLedger`.
 */
module Timelock {
  import opened Soroban

  datatype Error =
    | TooManyClaimants
    | AlreadyInitialized
    | TimePredicateNotFulfilled
    | ClaimantNotAllowed
    | BalanceAlreadyClaimed
    | Trapped(panic: Panic)

  datatype TimeBoundKind = Before | After

  datatype TimeBound = TimeBound(kind: TimeBoundKind, timestamp: int)

  datatype ClaimableBalance = ClaimableBalance(token: Address, amount: int, claimants: seq<Address>, timeBound: TimeBound)

  /** `check_time_bound`: a `Before` bound admits the bound itself and earlier, an `After` bound the bound itself and later. */
  function CheckTimeBound(now: int, timeBound: TimeBound): (r: bool)
    ensures timeBound.kind == Before ==> (r <==> now <= timeBound.timestamp)
    ensures timeBound.kind == After ==> (r <==> now >= timeBound.timestamp)
  {
    match timeBound.kind
    case Before => now <= timeBound.timestamp
    case After => now >= timeBound.timestamp
  }

  class Contract {
    /** The timelock contract's own address, which holds the deposit. */
    const self: Address
    var balance: Option<ClaimableBalance>

    constructor (self: Address)
      ensures this.self == self && balance == None
    {
      this.self := self;
      balance := None;
    }

    /**
     * `deposit`: at most 10 claimants, checked first; a record that already
     * exists, even one whose amount has been claimed, refuses a new deposit.
     */
    method Deposit(ledger: TokenLedger, from: Address, token: Address, amount: int, claimants: seq<Address>, timeBound: TimeBound)
      returns (r: Result<(), Error>)
      modifies this, ledger
      ensures |claimants| > 10 ==> r == Err(TooManyClaimants)
      ensures |claimants| <= 10 && old(balance).Some? ==> r == Err(AlreadyInitialized)
      ensures |claimants| <= 10 && old(balance).None? ==> r == Ok(())
      ensures r.Err? ==> unchanged(this) && unchanged(ledger)
      ensures r.Ok? ==>
        && balance == Some(ClaimableBalance(token, amount, claimants, timeBound))
        && ledger.balances == Move(old(ledger.balances), token, from, self, amount)
    {
      if |claimants| > 10 {
        return Err(TooManyClaimants);
      }
      if balance.Some? {
        return Err(AlreadyInitialized);
      }
      ledger.balances := Move(ledger.balances, token, from, self, amount);
      balance := Some(ClaimableBalance(token, amount, claimants, timeBound));
      r := Ok(());
    }

    /**
     * `claim`: checked in order, an already claimed balance, an unfulfilled
     * time bound, and a claimant not on the list; a successful claim pays the
     * whole amount and zeroes it, keeping the rest of the record.
     */
    method Claim(ledger: TokenLedger, claimant: Address, now: int) returns (r: Result<(), Error>)
      modifies this, ledger
      ensures old(balance).None? ==> r == Err(Trapped(UnwrapNone))
      ensures old(balance).Some? ==>
        var b := old(balance).value;
        r == if b.amount == 0 then Err(BalanceAlreadyClaimed)
             else if !CheckTimeBound(now, b.timeBound) then Err(TimePredicateNotFulfilled)
             else if claimant !in b.claimants then Err(ClaimantNotAllowed)
             else Ok(())
      ensures r.Err? ==> unchanged(this) && unchanged(ledger)
      ensures r.Ok? ==>
        var b := old(balance).value;
        && balance == Some(b.(amount := 0))
        && ledger.balances == Move(old(ledger.balances), b.token, self, claimant, b.amount)
    {
      if balance.None? {
        return Err(Trapped(UnwrapNone));
      }
      var b := balance.value;
      if b.amount == 0 {
        return Err(BalanceAlreadyClaimed);
      }
      if !CheckTimeBound(now, b.timeBound) {
        return Err(TimePredicateNotFulfilled);
      }
      if claimant !in b.claimants {
        return Err(ClaimantNotAllowed);
      }
      ledger.balances := Move(ledger.balances, b.token, self, claimant, b.amount);
      balance := Some(b.(amount := 0));
      r := Ok(());
    }
  }

  /**
   * The timelock test's main path, at ledger time 12345: 800 of token 1 are
   * deposited by 2 for claimants 3 and 4 before 12346; 4 claims them all; a
   * second claim and a second deposit both fail.
   */
  method DepositClaimThenNoMore() returns (claim: Result<(), Error>, claimed: int, again: Result<(), Error>, redeposit: Result<(), Error>)
    ensures claim.Ok? && claimed == 800
    ensures again == Err(BalanceAlreadyClaimed)
    ensures redeposit == Err(AlreadyInitialized)
  {
    var ledger := new TokenLedger(map[(1, 2) := 1000]);
    var c := new Contract(10);
    var deposit := c.Deposit(ledger, 2, 1, 800, [3, 4], TimeBound(Before, 12346));
    claim := c.Claim(ledger, 4, 12345);
    claimed := ledger.Balance(1, 4);
    again := c.Claim(ledger, 4, 12345);
    redeposit := c.Deposit(ledger, 2, 1, 200, [3], TimeBound(After, 12344));
  }

  /** A claimant not on the list, and a claim before an `After` bound, are refused. */
  method ClaimRefusals() returns (stranger: Result<(), Error>, early: Result<(), Error>)
    ensures stranger == Err(ClaimantNotAllowed)
    ensures early == Err(TimePredicateNotFulfilled)
  {
    var ledger := new TokenLedger(map[(1, 2) := 1000]);
    var c := new Contract(10);
    var deposit := c.Deposit(ledger, 2, 1, 800, [3, 4], TimeBound(Before, 12346));
    stranger := c.Claim(ledger, 5, 12345);
    var d := new Contract(11);
    deposit := d.Deposit(ledger, 2, 1, 800, [3], TimeBound(After, 12346));
    early := d.Claim(ledger, 3, 12345);
  }

  /** Eleven claimants are too many, whatever else holds. */
  method TooManyClaimantsRefused() returns (r: Result<(), Error>)
    ensures r == Err(TooManyClaimants)
  {
    var ledger := new TokenLedger(map[]);
    var c := new Contract(10);
    r := c.Deposit(ledger, 2, 1, 800, [1, 2, 3, 4, 5, 6, 7, 8, 9, 10, 11], TimeBound(Before, 0));
  }
}
