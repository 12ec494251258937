/**
 * The token of examples/soroban/token: an admin, display metadata, and two maps
 * updated in place, the balances and the allowances. Every check that fails
 * panics, which aborts the invocation with no state changed; here that is an
 * `Err` carrying the panic, with the object left as it was. Amounts are i128
 * under overflow checks, so an overflowing `+` or `-` is a panic too.
 */
module TokenContract {
  import opened Soroban

  class Token {
    /** The token contract's own address, the "not yet initialised" admin. */
    const self: Address
    var admin: Address
    var decimal: int
    var name: Bytes
    var symbol: Bytes
    var balances: map<Address, int>
    var allowances: map<(Address, Address), int>

    /** `Default`: the contract is its own admin, everything else empty. */
    constructor (self: Address)
      ensures this.self == self && admin == self
      ensures decimal == 0 && name == [] && symbol == []
      ensures balances == map[] && allowances == map[]
    {
      this.self := self;
      admin := self;
      decimal := 0;
      name, symbol := [], [];
      balances, allowances := map[], map[];
    }

    /** `initialize`: only while the admin is still the contract itself. */
    method Initialize(admin: Address, decimal: int, name: Bytes, symbol: Bytes) returns (r: Result<(), Panic>)
      modifies this
      ensures r == if old(this.admin) != self then Err(Message("already initialized")) else Ok(())
      ensures r.Err? ==> unchanged(this)
      ensures r.Ok? ==>
        && this.admin == admin && this.decimal == decimal && this.name == name && this.symbol == symbol
        && balances == old(balances) && allowances == old(allowances)
    {
      if this.admin != self {
        return Err(Message("already initialized"));
      }
      this.admin := admin;
      this.decimal := decimal;
      this.name := name;
      this.symbol := symbol;
      r := Ok(());
    }

    /** `allowance`: what `spender` may still move out of `from`'s balance. */
    function Allowance(from: Address, spender: Address): (r: int)
      reads this
      ensures (from, spender) in allowances ==> r == allowances[(from, spender)]
      ensures (from, spender) !in allowances ==> r == 0
    {
      Lookup(allowances, (from, spender), 0)
    }

    /** `balance`: an address never credited holds 0. */
    function Balance(id: Address): (r: int)
      reads this
      ensures id in balances ==> r == balances[id]
      ensures id !in balances ==> r == 0
    {
      Lookup(balances, id, 0)
    }

    /** `increase_allowance`: a checked add, panicking with "allowance overflow". */
    method IncreaseAllowance(from: Address, spender: Address, amount: int) returns (r: Result<(), Panic>)
      modifies this
      ensures decimal == old(decimal) && name == old(name) && symbol == old(symbol)
      ensures r.Err? <==> !IsI128(old(Allowance(from, spender)) + amount)
      ensures r.Err? ==> r == Err(Message("allowance overflow")) && unchanged(this)
      ensures r.Ok? ==> allowances == old(allowances)[(from, spender) := old(Allowance(from, spender)) + amount]
      ensures balances == old(balances) && admin == old(admin)
    {
      var current := Allowance(from, spender);
      var newAmount := AddI128(current, amount);
      if newAmount.None? {
        return Err(Message("allowance overflow"));
      }
      allowances := allowances[(from, spender) := newAmount.value];
      r := Ok(());
    }

    /**
     * `decrease_allowance`: a saturating subtraction, clamped to the i128
     * range at both ends: it can leave a negative allowance, and a negative
     * amount can push the allowance up to the largest i128.
     */
    method DecreaseAllowance(from: Address, spender: Address, amount: int)
      requires IsI128(amount) && IsI128(Allowance(from, spender))
      modifies this
      ensures decimal == old(decimal) && name == old(name) && symbol == old(symbol)
      ensures allowances == old(allowances)[(from, spender) := SatSubI128(old(Allowance(from, spender)), amount)]
      ensures IsI128(old(Allowance(from, spender)) - amount) ==> Allowance(from, spender) == old(Allowance(from, spender)) - amount
      ensures balances == old(balances) && admin == old(admin)
    {
      var current := Allowance(from, spender);
      allowances := allowances[(from, spender) := SatSubI128(current, amount)];
    }

    /**
     * `transfer`: both balances are read before either is written, so a
     * transfer to oneself ends with the sender's old balance plus `amount`.
     */
    method Transfer(from: Address, to: Address, amount: int) returns (r: Result<(), Panic>)
      modifies this
      ensures decimal == old(decimal) && name == old(name) && symbol == old(symbol)
      ensures old(Balance(from)) < amount ==> r == Err(Message("insufficient balance"))
      ensures old(Balance(from)) >= amount ==>
        (r.Ok? <==> IsI128(old(Balance(from)) - amount) && IsI128(old(Balance(to)) + amount))
      ensures r.Err? ==> unchanged(this)
      ensures r.Ok? ==> balances == old(balances)[from := old(Balance(from)) - amount][to := old(Balance(to)) + amount]
      ensures r.Ok? && from != to ==> Balance(from) == old(Balance(from)) - amount && Balance(to) == old(Balance(to)) + amount
      ensures r.Ok? && from == to ==> Balance(from) == old(Balance(from)) + amount
      ensures allowances == old(allowances) && admin == old(admin)
    {
      var fromBalance := Balance(from);
      var toBalance := Balance(to);
      if fromBalance < amount {
        return Err(Message("insufficient balance"));
      }
      var newFrom := SubI128(fromBalance, amount);
      var newTo := AddI128(toBalance, amount);
      if newFrom.None? || newTo.None? {
        return Err(ArithmeticOverflow);
      }
      balances := balances[from := newFrom.value];
      balances := balances[to := newTo.value];
      r := Ok(());
    }

    /**
     * `transfer_from`: `spender` moves `amount` of `from`'s balance, at most its
     * allowance, and the allowance is then lowered by `amount`.
     */
    method TransferFrom(spender: Address, from: Address, to: Address, amount: int) returns (r: Result<(), Panic>)
      requires IsI128(amount) && IsI128(Allowance(from, spender))
      modifies this
      ensures decimal == old(decimal) && name == old(name) && symbol == old(symbol)
      ensures old(Allowance(from, spender)) < amount ==> r == Err(Message("insufficient allowance"))
      ensures r.Err? ==> unchanged(this)
      ensures old(Allowance(from, spender)) >= amount && old(Balance(from)) < amount ==> r == Err(Message("insufficient balance"))
      ensures old(Allowance(from, spender)) >= amount && old(Balance(from)) >= amount ==>
        (r.Ok? <==> IsI128(old(Balance(from)) - amount) && IsI128(old(Balance(to)) + amount))
      ensures r.Ok? ==>
        && old(Allowance(from, spender)) >= amount
        && balances == old(balances)[from := old(Balance(from)) - amount][to := old(Balance(to)) + amount]
        && allowances == old(allowances)[(from, spender) := SatSubI128(old(Allowance(from, spender)), amount)]
      ensures admin == old(admin)
    {
      var allowance := Allowance(from, spender);
      if allowance < amount {
        return Err(Message("insufficient allowance"));
      }
      r := Transfer(from, to, amount);
      if r.Err? {
        return;
      }
      DecreaseAllowance(from, spender, amount);
    }

    /** `burn`: `from` loses `amount`, which it must hold. */
    method Burn(from: Address, amount: int) returns (r: Result<(), Panic>)
      modifies this
      ensures decimal == old(decimal) && name == old(name) && symbol == old(symbol)
      ensures old(Balance(from)) < amount ==> r == Err(Message("insufficient balance"))
      ensures old(Balance(from)) >= amount ==> (r.Ok? <==> IsI128(old(Balance(from)) - amount))
      ensures r.Err? ==> unchanged(this)
      ensures r.Ok? ==> balances == old(balances)[from := old(Balance(from)) - amount]
      ensures allowances == old(allowances) && admin == old(admin)
    {
      var balance := Balance(from);
      if balance < amount {
        return Err(Message("insufficient balance"));
      }
      var newBalance := SubI128(balance, amount);
      if newBalance.None? {
        return Err(ArithmeticOverflow);
      }
      balances := balances[from := newBalance.value];
      r := Ok(());
    }

    /** `mint`: `to` gains `amount`; the admin authorises it. */
    method Mint(to: Address, amount: int) returns (r: Result<(), Panic>)
      modifies this
      ensures decimal == old(decimal) && name == old(name) && symbol == old(symbol)
      ensures r.Ok? <==> IsI128(old(Balance(to)) + amount)
      ensures r.Err? ==> r == Err(ArithmeticOverflow) && unchanged(this)
      ensures r.Ok? ==> balances == old(balances)[to := old(Balance(to)) + amount]
      ensures allowances == old(allowances) && admin == old(admin)
    {
      var balance := Balance(to);
      var newBalance := AddI128(balance, amount);
      if newBalance.None? {
        return Err(ArithmeticOverflow);
      }
      balances := balances[to := newBalance.value];
      r := Ok(());
    }

    /** `set_admin`. */
    method SetAdmin(newAdmin: Address)
      modifies this
      ensures admin == newAdmin
      ensures balances == old(balances) && allowances == old(allowances)
      ensures decimal == old(decimal) && name == old(name) && symbol == old(symbol)
    {
      admin := newAdmin;
    }

    /** `decimals`, `name`, `symbol`: the stored metadata. */
    function Decimals(): int
      reads this
    {
      decimal
    }

    function Name(): Bytes
      reads this
    {
      name
    }

    function Symbol(): Bytes
      reads this
    {
      symbol
    }
  }

  /**
   * The metadata getters read back what `initialize` stored: the defaults
   * before it, the first call's values after it, and still those after a
   * refused second call.
   */
  method MetadataReadBack() returns (before: (int, Bytes, Bytes), after: (int, Bytes, Bytes), again: (int, Bytes, Bytes))
    ensures before == (0, [], [])
    ensures after == (7, [0x4C, 0x4D], [0x4C])
    ensures again == after
  {
    var t := new Token(1);
    before := (t.Decimals(), t.Name(), t.Symbol());
    var _ := t.Initialize(9, 7, [0x4C, 0x4D], [0x4C]);
    after := (t.Decimals(), t.Name(), t.Symbol());
    var _ := t.Initialize(8, 18, [0x58], [0x59]);
    again := (t.Decimals(), t.Name(), t.Symbol());
  }

  /**
   * A token initialises once: the first `initialize` makes `admin` the admin and
   * every later one panics, unless the new admin is the contract itself.
   */
  method InitializeTwice() returns (first: Result<(), Panic>, second: Result<(), Panic>, admin: Address)
    ensures first == Ok(())
    ensures second == Err(Message("already initialized"))
    ensures admin == 7
  {
    var t := new Token(1);
    first := t.Initialize(7, 7, [0x41], [0x42]);
    second := t.Initialize(8, 7, [0x43], [0x44]);
    admin := t.admin;
  }

  /**
   * Minting 100 to holder 2, then moving 30 to holder 3 through an allowance of
   * 50 granted to spender 4, leaves 70 and 30 and an allowance of 20.
   */
  method MintApproveTransferFrom() returns (from: int, to: int, left: int, over: Result<(), Panic>)
    ensures from == 70 && to == 30 && left == 20
    ensures over == Err(Message("insufficient allowance"))
  {
    var t := new Token(1);
    var _ := t.Initialize(9, 7, [], []);
    var minted := t.Mint(2, 100);
    var approved := t.IncreaseAllowance(2, 4, 50);
    var moved := t.TransferFrom(4, 2, 3, 30);
    over := t.TransferFrom(4, 2, 3, 21);
    from, to, left := t.Balance(2), t.Balance(3), t.Allowance(2, 4);
  }

  /** A transfer to oneself credits the amount instead of leaving the balance alone. */
  method SelfTransferCredits() returns (r: Result<(), Panic>, balance: int)
    ensures r.Ok? && balance == 150
  {
    var t := new Token(1);
    var minted := t.Mint(2, 100);
    r := t.Transfer(2, 2, 50);
    balance := t.Balance(2);
  }
}
