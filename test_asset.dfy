/**
 * The token of the test contract test/asset, kept in separate storage items:
 * `init` writes the name, symbol and decimals items and leaves the maps
 * alone. The `require_auth` in `set_balance` is a host call and is taken to
 * succeed.
 */
module TestAsset {
  import opened Soroban

  /** `Txn(from, spender)`, the key of an allowance. */
  datatype Txn = Txn(from: Address, spender: Address)

  datatype Allowance = Allowance(amount: int, liveUntilLedger: int)

  class Token {
    var name: Option<string>
    var balances: map<Address, int>
    var allowances: map<Txn, Allowance>
    var authorized: map<Address, bool>
    var symbol: Option<string>
    var decimals: Option<int>

    /** `Token::default()`: every item unset and every map empty. */
    constructor ()
      ensures name == None && symbol == None && decimals == None
      ensures balances == map[] && allowances == map[] && authorized == map[]
    {
      name := None;
      balances := map[];
      allowances := map[];
      authorized := map[];
      symbol := None;
      decimals := None;
    }

    /**
     * The associated `Token::init`: it writes through a fresh default
     * `Token`, but the items are keyed by field name, so the contract's own
     * name, symbol and decimals are the ones set.
     */
    method InitItems(name: string, symbol: string, decimals: int)
      requires IsU32(decimals)
      modifies this
      ensures this.name == Some(name) && this.symbol == Some(symbol) && this.decimals == Some(decimals)
      ensures balances == old(balances) && allowances == old(allowances) && authorized == old(authorized)
    {
      this.name := Some(name);
      this.symbol := Some(symbol);
      this.decimals := Some(decimals);
    }

    /** The contract's `init`, which hands its arguments on to the associated `init`. */
    method Init(name: string, symbol: string, decimals: int)
      requires IsU32(decimals)
      modifies this
      ensures this.name == Some(name) && this.symbol == Some(symbol) && this.decimals == Some(decimals)
      ensures balances == old(balances) && allowances == old(allowances) && authorized == old(authorized)
    {
      InitItems(name, symbol, decimals);
    }

    /** `name`: the stored name, `None` before `init`. */
    function Name(): (r: Option<string>)
      reads this
      ensures r.Some? <==> name.Some?
      ensures r == name
    {
      name
    }

    /** `set_balance`: only `address`'s balance changes. */
    method SetBalance(address: Address, amount: int)
      requires IsI128(amount)
      modifies this
      ensures balances == old(balances)[address := amount]
      ensures forall a :: a != address ==> Lookup(balances, a, 0) == Lookup(old(balances), a, 0)
      ensures name == old(name) && symbol == old(symbol) && decimals == old(decimals)
      ensures allowances == old(allowances) && authorized == old(authorized)
    {
      balances := balances[address := amount];
    }
  }

  /** `name` is `None` until `init`; a balance set before `init` survives it. */
  method InitKeepsBalances() returns (before: Option<string>, after: Option<string>, balance: int)
    ensures before == None && after == Some("Asset")
    ensures balance == 100
  {
    var t := new Token();
    before := t.Name();
    t.SetBalance(1, 100);
    t.Init("Asset", "AST", 7);
    after := t.Name();
    balance := Lookup(t.balances, 1, 0);
  }
}
