/**
 * The token of the test contract test/asset-two, kept as one stored record:
 * `init` replaces the whole record, so it empties every map. The
 * `require_auth` in `set_balance` is a host call and is taken to succeed.
 */
module TestAssetTwo {
  import opened Soroban
  import TestAsset

  class Token {
    var name: string
    var balances: map<Address, int>
    var allowances: map<TestAsset.Txn, TestAsset.Allowance>
    var authorized: map<Address, bool>
    var symbol: string
    var decimals: int

    /** `Token::default()`: empty name and symbol, empty maps, no decimals. */
    constructor ()
      ensures name == "" && symbol == "" && decimals == 0
      ensures balances == map[] && allowances == map[] && authorized == map[]
    {
      name := "";
      balances := map[];
      allowances := map[];
      authorized := map[];
      symbol := "";
      decimals := 0;
    }

    /** `init`: a new record with the given name, symbol and decimals and empty maps. */
    method Init(name: string, symbol: string, decimals: int)
      requires IsU32(decimals)
      modifies this
      ensures this.name == name && this.symbol == symbol && this.decimals == decimals
      ensures balances == map[] && allowances == map[] && authorized == map[]
    {
      this.name := name;
      this.balances := map[];
      this.allowances := map[];
      this.authorized := map[];
      this.symbol := symbol;
      this.decimals := decimals;
    }

    /** `name`: always present, the empty string before `init`. */
    function Name(): (r: Option<string>)
      reads this
      ensures r.Some? && r.value == name
    {
      Some(name)
    }

    /** `set_balance`: only `address`'s balance changes. */
    method SetBalance(address: Address, amount: int)
      requires IsI128(amount)
      modifies this
      ensures balances == old(balances)[address := amount]
      ensures forall a :: a != address ==> Lookup(balances, a, 0) == Lookup(old(balances), a, 0)
      ensures name == old(name) && symbol == old(symbol) && decimals == old(decimals)
      ensures allowances == old(allowances) && authorized == old(authorized)
    {
      balances := balances[address := amount];
    }
  }

  /**
   * Unlike test/asset, `name` is `Some("")` before `init`, and a balance set
   * before `init` is wiped by it.
   */
  method InitClearsBalances() returns (before: Option<string>, after: Option<string>, balance: int)
    ensures before == Some("") && after == Some("Asset")
    ensures balance == 0
  {
    var t := new Token();
    before := t.Name();
    t.SetBalance(1, 100);
    t.Init("Asset", "AST", 7);
    after := t.Name();
    balance := Lookup(t.balances, 1, 0);
  }
}
