/**
 * The single offer of examples/soroban/single_offer: one stored offer to sell
 * one token for another at a fixed price ratio `sell_price : buy_price`,
 * created once, repriced by its seller and traded against by anyone. Token
 * transfers act on the abstract `TokenLedger`.
 */
module SingleOffer {
  import opened Soroban

  datatype Error =
    | OfferAlreadyCreated
    | ZeroPriceNotAllowed
    | PriceTooLow
    | Trapped(panic: Panic)

  datatype Offer = Offer(seller: Address, sellToken: Address, buyToken: Address, sellPrice: int, buyPrice: int)

  /**
   * What a trade of `buyAmount` pays out: `buyAmount * sell_price / buy_price`,
   * rounded toward zero, with an overflowing product trapping at its `unwrap`.
   * For a non-negative amount it is the largest payout not above the price.
   */
  function SellTokenAmount(buyAmount: int, sellPrice: int, buyPrice: int): (r: Result<int, Error>)
    ensures !IsI128(buyAmount * sellPrice) ==> r == Err(Trapped(UnwrapNone))
    ensures IsI128(buyAmount * sellPrice) && buyPrice == 0 ==> r == Err(Trapped(DivisionByZero))
    ensures r.Ok? ==> buyPrice != 0 && r.value == Quot(buyAmount * sellPrice, buyPrice)
    ensures IsI128(buyAmount * sellPrice) && buyPrice != 0 ==>
      (r.Ok? <==> IsI128(Quot(buyAmount * sellPrice, buyPrice)))
    ensures IsI128(buyAmount * sellPrice) && buyPrice != 0 && !IsI128(Quot(buyAmount * sellPrice, buyPrice)) ==>
      r == Err(Trapped(ArithmeticOverflow))
  {
    var product :- MulI128(buyAmount, sellPrice).OkOr(Trapped(UnwrapNone));
    if buyPrice == 0 then Err(Trapped(DivisionByZero))
    else DivI128(product, buyPrice).OkOr(Trapped(ArithmeticOverflow))
  }

  /**
   * A trade of a non-negative amount at positive prices pays out the largest
   * whole amount whose value at the offer's price does not exceed what is paid.
   */
  lemma TradePaysAtMostThePrice(buyAmount: int, sellPrice: int, buyPrice: int)
    requires buyAmount >= 0 && sellPrice >= 0 && buyPrice > 0
    requires SellTokenAmount(buyAmount, sellPrice, buyPrice).Ok?
    ensures var sell := SellTokenAmount(buyAmount, sellPrice, buyPrice).value;
      sell >= 0 && sell * buyPrice <= buyAmount * sellPrice < (sell + 1) * buyPrice
  {
    var product := buyAmount * sellPrice;
    MulSigns(buyAmount, sellPrice);
    assert SellTokenAmount(buyAmount, sellPrice, buyPrice).value == Quot(product, buyPrice);
    QuotBounds(product, buyPrice);
  }

  class Storage {
    /** The offer contract's own address, through which trades pass. */
    const self: Address
    var offer: Option<Offer>

    constructor (self: Address)
      ensures this.self == self && offer == None
    {
      this.self := self;
      offer := None;
    }

    /** `create`: once only, checked before the prices; neither price may be zero. */
    method Create(seller: Address, sellToken: Address, buyToken: Address, sellPrice: int, buyPrice: int)
      returns (r: Result<(), Error>)
      modifies this
      ensures r == if old(offer).Some? then Err(OfferAlreadyCreated)
                   else if buyPrice == 0 || sellPrice == 0 then Err(ZeroPriceNotAllowed)
                   else Ok(())
      ensures r.Err? ==> unchanged(this)
      ensures r.Ok? ==> offer == Some(Offer(seller, sellToken, buyToken, sellPrice, buyPrice))
    {
      if offer.Some? {
        return Err(OfferAlreadyCreated);
      }
      if buyPrice == 0 || sellPrice == 0 {
        return Err(ZeroPriceNotAllowed);
      }
      offer := Some(Offer(seller, sellToken, buyToken, sellPrice, buyPrice));
      r := Ok(());
    }

    /**
     * `trade`: the buyer pays `buyAmount` of the buy token, which goes on to the
     * seller, and receives the `SellTokenAmount` of the sell token, unless that
     * is below `minSellAmount`. The offer itself is never modified.
     */
    method Trade(ledger: TokenLedger, buyer: Address, buyAmount: int, minSellAmount: int) returns (r: Result<(), Error>)
      modifies ledger
      ensures old(offer).None? ==> r == Err(Trapped(UnwrapNone))
      ensures old(offer).Some? ==>
        var o := old(offer).value;
        var sell := SellTokenAmount(buyAmount, o.sellPrice, o.buyPrice);
        && (sell.Err? ==> r == sell.PropagateFailure())
        && (sell.Ok? ==> r == if sell.value < minSellAmount then Err(PriceTooLow) else Ok(()))
        && (r.Ok? ==>
              ledger.balances ==
                Move(Move(Move(old(ledger.balances), o.buyToken, buyer, self, buyAmount), o.sellToken, self, buyer, sell.value),
                     o.buyToken, self, o.seller, buyAmount))
      ensures r.Err? ==> unchanged(ledger)
    {
      if offer.None? {
        return Err(Trapped(UnwrapNone));
      }
      var o := offer.value;
      var sellAmount :- SellTokenAmount(buyAmount, o.sellPrice, o.buyPrice);
      if sellAmount < minSellAmount {
        return Err(PriceTooLow);
      }
      var balances := Move(ledger.balances, o.buyToken, buyer, self, buyAmount);
      balances := Move(balances, o.sellToken, self, buyer, sellAmount);
      balances := Move(balances, o.buyToken, self, o.seller, buyAmount);
      ledger.balances := balances;
      r := Ok(());
    }

    /** `withdraw`: the seller takes `amount` of any token the contract holds. */
    method Withdraw(ledger: TokenLedger, token: Address, amount: int) returns (r: Result<(), Error>)
      modifies ledger
      ensures old(offer).None? ==> r == Err(Trapped(UnwrapNone)) && unchanged(ledger)
      ensures old(offer).Some? ==>
        r == Ok(()) && ledger.balances == Move(old(ledger.balances), token, self, old(offer).value.seller, amount)
    {
      if offer.None? {
        return Err(Trapped(UnwrapNone));
      }
      ledger.balances := Move(ledger.balances, token, self, offer.value.seller, amount);
      r := Ok(());
    }

    /** `update_price`: the offer must exist; only its two prices change. */
    method UpdatePrice(sellPrice: int, buyPrice: int) returns (r: Result<(), Error>)
      modifies this
      ensures r == if old(offer).None? then Err(Trapped(UnwrapNone))
                   else if buyPrice == 0 || sellPrice == 0 then Err(ZeroPriceNotAllowed)
                   else Ok(())
      ensures r.Err? ==> unchanged(this)
      ensures r.Ok? ==> offer == Some(old(offer).value.(sellPrice := sellPrice, buyPrice := buyPrice))
    {
      if offer.None? {
        return Err(Trapped(UnwrapNone));
      }
      var o := offer.value;
      if buyPrice == 0 || sellPrice == 0 {
        return Err(ZeroPriceNotAllowed);
      }
      offer := Some(o.(sellPrice := sellPrice, buyPrice := buyPrice));
      r := Ok(());
    }

    /** `get_offer`: the stored offer; reading an offer never created traps. */
    function GetOffer(): (r: Result<Offer, Error>)
      reads this
      ensures offer.Some? ==> r == Ok(offer.value)
      ensures offer.None? ==> r == Err(Trapped(UnwrapNone))
    {
      offer.OkOr(Trapped(UnwrapNone))
    }
  }

  /**
   * Seller 2 offers token 1 for token 3 at one for two: buyer 4 paying 10 of
   * token 3 gets 5 of token 1, and the seller gets the 10. A buyer asking for 6
   * is refused, and so is a second `create`.
   */
  method OfferLifecycle() returns (again: Result<(), Error>, trade: Result<(), Error>, tooLow: Result<(), Error>, buyerGot: int, sellerGot: int)
    ensures again == Err(OfferAlreadyCreated)
    ensures trade.Ok? && buyerGot == 5 && sellerGot == 10
    ensures tooLow == Err(PriceTooLow)
  {
    var ledger := new TokenLedger(map[(1, 20) := 100, (3, 4) := 100]);
    var s := new Storage(20);
    var created := s.Create(2, 1, 3, 1, 2);
    again := s.Create(2, 1, 3, 7, 7);
    var before := ledger.balances;
    TradeExample(before);
    trade := s.Trade(ledger, 4, 10, 5);
    tooLow := s.Trade(ledger, 4, 10, 6);
    buyerGot, sellerGot := ledger.Balance(1, 4), ledger.Balance(3, 2);
  }

  /** The trade of `OfferLifecycle`: 10 of token 3 buys 5 of token 1, and the 10 go on to the seller. */
  lemma TradeExample(before: map<Holding, int>)
    requires before == map[(1, 20) := 100, (3, 4) := 100]
    ensures SellTokenAmount(10, 1, 2) == Ok(5)
    ensures var after := Move(Move(Move(before, 3, 4, 20, 10), 1, 20, 4, 5), 3, 20, 2, 10);
      Lookup(after, (1, 4), 0) == 5 && Lookup(after, (3, 2), 0) == 10
  {
    assert Quot(10, 2) == 5;
  }

  /**
   * Reading the offer back: before `create` it traps, after `create` it is the
   * offer as created, and after `update_price` it carries the new prices.
   */
  method OfferReadBack() returns (before: Result<Offer, Error>, created: Result<Offer, Error>, repriced: Result<Offer, Error>)
    ensures before == Err(Trapped(UnwrapNone))
    ensures created == Ok(Offer(2, 1, 3, 1, 2))
    ensures repriced == Ok(Offer(2, 1, 3, 3, 4))
  {
    var s := new Storage(20);
    before := s.GetOffer();
    var c := s.Create(2, 1, 3, 1, 2);
    created := s.GetOffer();
    var u := s.UpdatePrice(3, 4);
    repriced := s.GetOffer();
  }
}
