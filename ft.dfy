/**
 * The SEP-41 fungible token of examples/soroban/ft. Its storage items are the
 * fields of one object, updated in place: balances, allowances that expire at a
 * ledger sequence number, per-holder authorisation flags, and the admin and
 * display metadata, each of which may be unset. The current ledger sequence
 * number is a parameter. Unlike examples/soroban/token there is no balance
 * check, so balances may go negative, and an allowance that is too small makes
 * `transfer_from` and `burn_from` do nothing rather than fail.
 */
module FungibleToken {
  import opened Soroban

  /** An allowance and the last ledger it is live in. */
  datatype AllowanceEntry = AllowanceEntry(amount: int, liveUntilLedger: int)

  class Token {
    var balances: map<Address, int>
    var allowances: map<(Address, Address), AllowanceEntry>
    var authorized: map<Address, bool>
    var admin: Option<Address>
    var name: Option<string>
    var symbol: Option<string>
    var decimals: Option<int>

    /** A token whose storage is empty. */
    constructor ()
      ensures balances == map[] && allowances == map[] && authorized == map[]
      ensures admin == None && name == None && symbol == None && decimals == None
    {
      balances, allowances, authorized := map[], map[], map[];
      admin, name, symbol, decimals := None, None, None, None;
    }

    /**
     * `ft_init`: the core contract's admin (`coreAdmin`, kept by a subcontract
     * that is not part of this model) must exist and authorise; then the token's
     * admin and metadata are set.
     */
    method Init(coreAdmin: Option<Address>, admin: Address, name: string, symbol: string, decimals: int)
      returns (r: Result<(), Panic>)
      modifies this
      ensures coreAdmin.None? ==> r == Err(UnwrapNone) && unchanged(this)
      ensures coreAdmin.Some? ==> r == Ok(())
      ensures coreAdmin.Some? ==>
        this.admin == Some(admin) && this.name == Some(name) && this.symbol == Some(symbol) && this.decimals == Some(decimals)
      ensures coreAdmin.Some? ==> Decimals() == Ok(decimals) && Name() == Ok(name) && Symbol() == Ok(symbol)
      ensures balances == old(balances) && allowances == old(allowances) && authorized == old(authorized)
    {
      if coreAdmin.None? {
        return Err(UnwrapNone);
      }
      this.admin := Some(admin);
      this.name := Some(name);
      this.symbol := Some(symbol);
      this.decimals := Some(decimals);
      r := Ok(());
    }

    /** `allowance`: the stored amount while the ledger has not passed its expiry, else 0. */
    function Allowance(from: Address, spender: Address, ledger: int): (r: int)
      reads this
      ensures (from, spender) !in allowances ==> r == 0
      ensures (from, spender) in allowances && ledger <= allowances[(from, spender)].liveUntilLedger ==>
        r == allowances[(from, spender)].amount
      ensures (from, spender) in allowances && ledger > allowances[(from, spender)].liveUntilLedger ==> r == 0
    {
      match Get(allowances, (from, spender))
      case Some(a) => if ledger <= a.liveUntilLedger then a.amount else 0
      case None => 0
    }

    /**
     * `approve`: an allowance that has already expired may only be zero;
     * otherwise the entry is overwritten.
     */
    method Approve(from: Address, spender: Address, amount: int, liveUntilLedger: int, ledger: int) returns (r: Result<(), Panic>)
      modifies this
      ensures name == old(name) && symbol == old(symbol) && decimals == old(decimals)
      ensures liveUntilLedger < ledger && amount != 0 <==> r.Err?
      ensures r.Err? ==>
        r == Err(Message("live_until_ledger must be greater than or equal to the current ledger number")) && unchanged(this)
      ensures r.Ok? ==> allowances == old(allowances)[(from, spender) := AllowanceEntry(amount, liveUntilLedger)]
      ensures r.Ok? ==> Allowance(from, spender, ledger) == amount
      ensures balances == old(balances) && authorized == old(authorized) && admin == old(admin)
    {
      if liveUntilLedger < ledger && amount != 0 {
        return Err(Message("live_until_ledger must be greater than or equal to the current ledger number"));
      }
      allowances := allowances[(from, spender) := AllowanceEntry(amount, liveUntilLedger)];
      r := Ok(());
    }

    /** `balance` and `spendable_balance`: 0 for an address never written. */
    function Balance(id: Address): (r: int)
      reads this
      ensures id in balances ==> r == balances[id]
      ensures id !in balances ==> r == 0
    {
      Lookup(balances, id, 0)
    }

    /**
     * `transfer`: no balance check. Both new balances are computed before
     * either is written, so a transfer to oneself ends at the old balance plus
     * `amount`.
     */
    method Transfer(from: Address, to: Address, amount: int) returns (r: Result<(), Panic>)
      modifies this
      ensures r.Ok? <==> IsI128(old(Balance(from)) - amount) && IsI128(old(Balance(to)) + amount)
      ensures r.Err? ==> r == Err(ArithmeticOverflow) && unchanged(this)
      ensures r.Ok? ==> balances == old(balances)[from := old(Balance(from)) - amount][to := old(Balance(to)) + amount]
      ensures r.Ok? && from == to ==> Balance(from) == old(Balance(from)) + amount
      ensures allowances == old(allowances) && authorized == old(authorized) && admin == old(admin)
      ensures name == old(name) && symbol == old(symbol) && decimals == old(decimals)
    {
      var fromBalance := SubI128(Balance(from), amount);
      var toBalance := AddI128(Balance(to), amount);
      if fromBalance.None? || toBalance.None? {
        return Err(ArithmeticOverflow);
      }
      balances := balances[from := fromBalance.value];
      balances := balances[to := toBalance.value];
      r := Ok(());
    }

    /**
     * `decrease_allowance`: the live allowance minus `amount` (0 only when that
     * overflows, so the result may be negative), live for 1000 more ledgers.
     */
    method DecreaseAllowance(from: Address, spender: Address, amount: int, ledger: int) returns (r: Result<(), Panic>)
      requires IsU32(ledger)
      modifies this
      ensures r.Ok? <==> IsU32(ledger + 1000)
      ensures r.Err? ==> r == Err(ArithmeticOverflow) && unchanged(this)
      ensures r.Ok? ==>
        var current := old(Allowance(from, spender, ledger));
        allowances == old(allowances)[(from, spender) :=
          AllowanceEntry(if IsI128(current - amount) then current - amount else 0, ledger + 1000)]
      ensures balances == old(balances) && authorized == old(authorized) && admin == old(admin)
      ensures name == old(name) && symbol == old(symbol) && decimals == old(decimals)
    {
      var current := Allowance(from, spender, ledger);
      var newAmount := SubI128(current, amount).GetOr(0);
      var liveUntil := AddU32(ledger, 1000);
      if liveUntil.None? {
        return Err(ArithmeticOverflow);
      }
      allowances := allowances[(from, spender) := AllowanceEntry(newAmount, liveUntil.value)];
      r := Ok(());
    }

    /** `increase_allowance`: the live allowance plus `amount`, live for 1000 more ledgers. */
    method IncreaseAllowance(from: Address, spender: Address, amount: int, ledger: int) returns (r: Result<(), Panic>)
      requires IsU32(ledger)
      modifies this
      ensures name == old(name) && symbol == old(symbol) && decimals == old(decimals)
      ensures r.Ok? <==> IsI128(old(Allowance(from, spender, ledger)) + amount) && IsU32(ledger + 1000)
      ensures r.Err? ==> r == Err(ArithmeticOverflow) && unchanged(this)
      ensures r.Ok? ==>
        allowances == old(allowances)[(from, spender) := AllowanceEntry(old(Allowance(from, spender, ledger)) + amount, ledger + 1000)]
      ensures balances == old(balances) && authorized == old(authorized) && admin == old(admin)
    {
      var newAmount := AddI128(Allowance(from, spender, ledger), amount);
      var liveUntil := AddU32(ledger, 1000);
      if newAmount.None? || liveUntil.None? {
        return Err(ArithmeticOverflow);
      }
      allowances := allowances[(from, spender) := AllowanceEntry(newAmount.value, liveUntil.value)];
      r := Ok(());
    }

    /**
     * `transfer_from`: with a live allowance of at least `amount`, a transfer
     * followed by a decrease of the allowance; otherwise nothing happens.
     */
    method TransferFrom(spender: Address, from: Address, to: Address, amount: int, ledger: int) returns (r: Result<(), Panic>)
      requires IsU32(ledger)
      modifies this
      ensures old(Allowance(from, spender, ledger)) < amount ==> r == Ok(()) && unchanged(this)
      ensures r.Err? ==> balances == old(balances) && allowances == old(allowances)
      ensures old(Allowance(from, spender, ledger)) >= amount ==>
        (r.Ok? <==> IsI128(old(Balance(from)) - amount) && IsI128(old(Balance(to)) + amount) && IsU32(ledger + 1000))
      ensures r.Ok? && old(Allowance(from, spender, ledger)) >= amount ==>
        var current := old(Allowance(from, spender, ledger));
        && balances == old(balances)[from := old(Balance(from)) - amount][to := old(Balance(to)) + amount]
        && allowances == old(allowances)[(from, spender) :=
             AllowanceEntry(if IsI128(current - amount) then current - amount else 0, ledger + 1000)]
      ensures authorized == old(authorized) && admin == old(admin)
      ensures name == old(name) && symbol == old(symbol) && decimals == old(decimals)
    {
      var allowance := Allowance(from, spender, ledger);
      if allowance >= amount {
        var savedBalances, savedAllowances := balances, allowances;
        r := Transfer(from, to, amount);
        if r.Err? {
          return;
        }
        r := DecreaseAllowance(from, spender, amount, ledger);
        if r.Err? {
          balances, allowances := savedBalances, savedAllowances;
          return;
        }
      } else {
        r := Ok(());
      }
    }

    /** `burn`: no balance check. */
    method Burn(from: Address, amount: int) returns (r: Result<(), Panic>)
      modifies this
      ensures r.Ok? <==> IsI128(old(Balance(from)) - amount)
      ensures r.Err? ==> r == Err(ArithmeticOverflow) && unchanged(this)
      ensures r.Ok? ==> balances == old(balances)[from := old(Balance(from)) - amount]
      ensures allowances == old(allowances) && authorized == old(authorized) && admin == old(admin)
      ensures name == old(name) && symbol == old(symbol) && decimals == old(decimals)
    {
      var balance := SubI128(Balance(from), amount);
      if balance.None? {
        return Err(ArithmeticOverflow);
      }
      balances := balances[from := balance.value];
      r := Ok(());
    }

    /** `burn_from`: `burn` under a live allowance, otherwise nothing happens. */
    method BurnFrom(spender: Address, from: Address, amount: int, ledger: int) returns (r: Result<(), Panic>)
      requires IsU32(ledger)
      modifies this
      ensures old(Allowance(from, spender, ledger)) < amount ==> r == Ok(()) && unchanged(this)
      ensures r.Err? ==> balances == old(balances) && allowances == old(allowances)
      ensures old(Allowance(from, spender, ledger)) >= amount ==>
        (r.Ok? <==> IsI128(old(Balance(from)) - amount) && IsU32(ledger + 1000))
      ensures r.Ok? && old(Allowance(from, spender, ledger)) >= amount ==>
        && balances == old(balances)[from := old(Balance(from)) - amount]
        && var current := old(Allowance(from, spender, ledger));
           allowances == old(allowances)[(from, spender) :=
             AllowanceEntry(if IsI128(current - amount) then current - amount else 0, ledger + 1000)]
      ensures authorized == old(authorized) && admin == old(admin)
      ensures name == old(name) && symbol == old(symbol) && decimals == old(decimals)
    {
      var allowance := Allowance(from, spender, ledger);
      if allowance >= amount {
        var saved := balances;
        r := Burn(from, amount);
        if r.Err? {
          return;
        }
        r := DecreaseAllowance(from, spender, amount, ledger);
        if r.Err? {
          balances := saved;
          return;
        }
      } else {
        r := Ok(());
      }
    }

    /** `decimals`, `name`, `symbol`: the stored metadata; unset metadata traps. */
    function Decimals(): (r: Result<int, Panic>)
      reads this
      ensures decimals.Some? ==> r == Ok(decimals.value)
      ensures decimals.None? ==> r == Err(UnwrapNone)
    {
      decimals.OkOr(UnwrapNone)
    }

    function Name(): (r: Result<string, Panic>)
      reads this
      ensures name.Some? ==> r == Ok(name.value)
      ensures name.None? ==> r == Err(UnwrapNone)
    {
      name.OkOr(UnwrapNone)
    }

    function Symbol(): (r: Result<string, Panic>)
      reads this
      ensures symbol.Some? ==> r == Ok(symbol.value)
      ensures symbol.None? ==> r == Err(UnwrapNone)
    {
      symbol.OkOr(UnwrapNone)
    }

    /** `authorized`: false for an address never written. */
    function Authorized(id: Address): (r: bool)
      reads this
      ensures r <==> id in authorized && authorized[id]
    {
      Lookup(authorized, id, false)
    }

    /** `set_authorized`: the admin must be set. */
    method SetAuthorized(id: Address, authorize: bool) returns (r: Result<(), Panic>)
      modifies this
      ensures name == old(name) && symbol == old(symbol) && decimals == old(decimals)
      ensures admin.None? ==> r == Err(UnwrapNone) && unchanged(this)
      ensures admin.Some? ==> r == Ok(()) && authorized == old(authorized)[id := authorize]
      ensures admin.Some? ==> Authorized(id) == authorize
      ensures balances == old(balances) && allowances == old(allowances) && admin == old(admin)
    {
      if admin.None? {
        return Err(UnwrapNone);
      }
      authorized := authorized[id := authorize];
      r := Ok(());
    }

    /** `mint`: the admin must be set. */
    method Mint(to: Address, amount: int) returns (r: Result<(), Panic>)
      modifies this
      ensures name == old(name) && symbol == old(symbol) && decimals == old(decimals)
      ensures admin.None? ==> r == Err(UnwrapNone)
      ensures admin.Some? ==> (r.Ok? <==> IsI128(old(Balance(to)) + amount))
      ensures r.Err? ==> unchanged(this)
      ensures r.Ok? ==> balances == old(balances)[to := old(Balance(to)) + amount]
      ensures allowances == old(allowances) && authorized == old(authorized) && admin == old(admin)
    {
      if admin.None? {
        return Err(UnwrapNone);
      }
      var balance := AddI128(Balance(to), amount);
      if balance.None? {
        return Err(ArithmeticOverflow);
      }
      balances := balances[to := balance.value];
      r := Ok(());
    }

    /** `clawback`: the admin must be set; no balance check. */
    method Clawback(from: Address, amount: int) returns (r: Result<(), Panic>)
      modifies this
      ensures name == old(name) && symbol == old(symbol) && decimals == old(decimals)
      ensures admin.None? ==> r == Err(UnwrapNone)
      ensures admin.Some? ==> (r.Ok? <==> IsI128(old(Balance(from)) - amount))
      ensures r.Err? ==> unchanged(this)
      ensures r.Ok? ==> balances == old(balances)[from := old(Balance(from)) - amount]
      ensures allowances == old(allowances) && authorized == old(authorized) && admin == old(admin)
    {
      if admin.None? {
        return Err(UnwrapNone);
      }
      var balance := SubI128(Balance(from), amount);
      if balance.None? {
        return Err(ArithmeticOverflow);
      }
      balances := balances[from := balance.value];
      r := Ok(());
    }

    /** `set_admin`: the current admin must be set. */
    method SetAdmin(newAdmin: Address) returns (r: Result<(), Panic>)
      modifies this
      ensures name == old(name) && symbol == old(symbol) && decimals == old(decimals)
      ensures old(admin).None? ==> r == Err(UnwrapNone) && unchanged(this)
      ensures old(admin).Some? ==> r == Ok(()) && admin == Some(newAdmin)
      ensures balances == old(balances) && allowances == old(allowances) && authorized == old(authorized)
    {
      if admin.None? {
        return Err(UnwrapNone);
      }
      admin := Some(newAdmin);
      r := Ok(());
    }
  }

  /**
   * Metadata is unset on a fresh token and reading it traps; `ft_init` without
   * a core admin sets nothing, and with one it sets what the getters return.
   */
  method MetadataAfterInit()
    returns (unset: Result<int, Panic>, refused: Result<(), Panic>, stillUnset: Result<string, Panic>,
             decimals: Result<int, Panic>, name: Result<string, Panic>, symbol: Result<string, Panic>)
    ensures unset == Err(UnwrapNone)
    ensures refused == Err(UnwrapNone) && stillUnset == Err(UnwrapNone)
    ensures decimals == Ok(7) && name == Ok("Loam") && symbol == Ok("LM")
  {
    var t := new Token();
    unset := t.Decimals();
    refused := t.Init(None, 1, "Loam", "LM", 7);
    stillUnset := t.Name();
    var ok := t.Init(Some(5), 1, "Loam", "LM", 7);
    decimals, name, symbol := t.Decimals(), t.Name(), t.Symbol();
  }

  /**
   * An allowance approved until ledger 20 is live at ledger 20 and gone at 21,
   * and `transfer_from` against it after expiry moves nothing.
   */
  method AllowanceExpires() returns (atExpiry: int, after: int, late: Result<(), Panic>, balance: int)
    ensures atExpiry == 50 && after == 0
    ensures late.Ok? && balance == 100
  {
    var t := new Token();
    var _ := t.Init(Some(1), 2, "Token", "TOK", 7);
    var minted := t.Mint(3, 100);
    var approved := t.Approve(3, 4, 50, 20, 10);
    atExpiry := t.Allowance(3, 4, 20);
    after := t.Allowance(3, 4, 21);
    late := t.TransferFrom(4, 3, 5, 10, 21);
    balance := t.Balance(3);
  }

  /** Decreasing an allowance of 5 by 8 leaves -3: only i128 overflow falls back to 0. */
  method DecreaseBelowZero() returns (r: Result<(), Panic>, left: int)
    ensures r.Ok? && left == -3
  {
    var t := new Token();
    var approved := t.Approve(3, 4, 5, 100, 10);
    r := t.DecreaseAllowance(3, 4, 8, 10);
    left := t.Allowance(3, 4, 10);
  }
}
