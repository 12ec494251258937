/**
 * examples/soroban/atomic_multiswap: batch matching of swap offers. Every
 * offer of side A, in order, scans the still unmatched offers of side B from
 * the start and tries the atomic swap with the first compatible one; a swap
 * that completes removes that B offer and ends the scan, one that fails
 * (its sub-invocation is rolled back) lets the scan go on.
 *
 * The model returns, for every A offer, the B offer it was matched with (or
 * none), and the B offers left over; the contract itself keeps them in a
 * local vector and returns nothing.
 */
module AtomicMultiswap {
  import opened Soroban
  import opened AtomicSwap

  datatype SwapSpec = SwapSpec(address: Address, amount: int, minRecv: int)

  /** The swap contract, the two tokens, and who has authorised what. */
  datatype Market = Market(swapContract: Address, tokenA: Address, tokenB: Address, signed: (Address, Terms) -> bool)

  /** The guard of the inner loop: each side offers at least what the other asks. */
  predicate Compatible(a: SwapSpec, b: SwapSpec) {
    a.amount >= b.minRecv && a.minRecv <= b.amount
  }

  /** The outcome of `try_swap` for an A offer and a B offer, in the argument order of the call. */
  function Attempt(m: Market, a: SwapSpec, b: SwapSpec): (r: Result<(), Error>)
    ensures r.Ok? <==>
      && Compatible(a, b)
      && m.signed(a.address, Terms(m.tokenA, m.tokenB, a.amount, a.minRecv))
      && m.signed(b.address, Terms(m.tokenB, m.tokenA, b.amount, b.minRecv))
      && a.amount - b.minRecv <= I128_MAX && b.amount - a.minRecv <= I128_MAX
  {
    SwapOutcome(a.address, b.address, m.tokenA, m.tokenB, a.amount, a.minRecv, b.amount, b.minRecv, m.signed)
  }

  /** The guard makes the swap's own minimum checks pass: only a missing
      authorisation or an overflowing refund can make a guarded attempt fail. */
  lemma GuardPassesMinimumChecks(m: Market, a: SwapSpec, b: SwapSpec)
    requires Compatible(a, b)
    ensures Attempt(m, a, b) != Err(NotEnoughTokenA) && Attempt(m, a, b) != Err(NotEnoughTokenB)
  {
  }

  /** A pair the loop settles: compatible, and the swap completes. */
  predicate Settles(m: Market, a: SwapSpec, b: SwapSpec) {
    Compatible(a, b) && Attempt(m, a, b).Ok?
  }

  /** The first index from `i` on at which `a` settles with an offer of `bs`. */
  function FirstMatch(m: Market, a: SwapSpec, bs: seq<SwapSpec>, i: nat): (r: Option<nat>)
    requires i <= |bs|
    ensures r.Some? ==> i <= r.value < |bs| && Settles(m, a, bs[r.value])
    ensures r.Some? ==> forall j :: i <= j < r.value ==> !Settles(m, a, bs[j])
    ensures r.None? ==> forall j :: i <= j < |bs| ==> !Settles(m, a, bs[j])
    decreases |bs| - i
  {
    if i == |bs| then None
    else if Settles(m, a, bs[i]) then Some(i)
    else FirstMatch(m, a, bs, i + 1)
  }

  /**
   * One scan for an A offer: the first B offer it settles with, taken out of
   * the list, or no partner and the list as it was.
   */
  function Take(m: Market, a: SwapSpec, bs: seq<SwapSpec>): (r: (Option<SwapSpec>, seq<SwapSpec>))
    ensures r.0.Some? ==> Settles(m, a, r.0.value)
    ensures r.0.Some? ==> multiset(r.1) + multiset{r.0.value} == multiset(bs)
    ensures r.0.None? ==> r.1 == bs && forall b :: b in bs ==> !Settles(m, a, b)
  {
    match FirstMatch(m, a, bs, 0)
    case None => (None, bs)
    case Some(j) =>
      assert bs == bs[..j] + [bs[j]] + bs[j + 1..];
      (Some(bs[j]), bs[..j] + bs[j + 1..])
  }

  /** The partner taken is the first B offer the A offer settles with, and only it leaves the list. */
  lemma TakeIsFirstSettling(m: Market, a: SwapSpec, bs: seq<SwapSpec>)
    requires Take(m, a, bs).0.Some?
    ensures exists j :: 0 <= j < |bs| && Take(m, a, bs).0.value == bs[j] && Take(m, a, bs).1 == bs[..j] + bs[j + 1..] &&
                        forall i :: 0 <= i < j ==> !Settles(m, a, bs[i])
  {
    var j := FirstMatch(m, a, bs, 0).value;
    assert Take(m, a, bs).0.value == bs[j];
  }

  /** For every A offer its B partner, if any, and the B offers never matched. */
  datatype Matching = Matching(partners: seq<Option<SwapSpec>>, remaining: seq<SwapSpec>)

  /** The greedy matching `multi_swap` performs. */
  function Greedy(m: Market, swapsA: seq<SwapSpec>, swapsB: seq<SwapSpec>): (r: Matching)
    ensures |r.partners| == |swapsA|
    decreases |swapsA|
  {
    if |swapsA| == 0 then Matching([], swapsB)
    else
      var (partner, left) := Take(m, swapsA[0], swapsB);
      var rest := Greedy(m, swapsA[1..], left);
      Matching([partner] + rest.partners, rest.remaining)
  }

  /** The B offers that were matched, in the order of their A partners. */
  function Chosen(partners: seq<Option<SwapSpec>>): seq<SwapSpec> {
    if |partners| == 0 then []
    else (if partners[0].Some? then [partners[0].value] else []) + Chosen(partners[1..])
  }

  /** Every B offer is used at most once: the matched ones and the left-over ones are exactly the B offers. */
  lemma {:induction false} GreedyConsumesEachOfferOnce(m: Market, swapsA: seq<SwapSpec>, swapsB: seq<SwapSpec>)
    ensures var r := Greedy(m, swapsA, swapsB);
      multiset(Chosen(r.partners)) + multiset(r.remaining) == multiset(swapsB)
    decreases |swapsA|
  {
    if |swapsA| > 0 {
      var r := Greedy(m, swapsA, swapsB);
      var (partner, left) := Take(m, swapsA[0], swapsB);
      GreedyConsumesEachOfferOnce(m, swapsA[1..], left);
      assert r.partners[1..] == Greedy(m, swapsA[1..], left).partners;
      assert Chosen(r.partners) == (if partner.Some? then [partner.value] else []) + Chosen(Greedy(m, swapsA[1..], left).partners);
    }
  }

  /** Every match is a pair whose swap completes. */
  lemma {:induction false} GreedyPairsSettle(m: Market, swapsA: seq<SwapSpec>, swapsB: seq<SwapSpec>)
    ensures var r := Greedy(m, swapsA, swapsB);
      forall k :: 0 <= k < |swapsA| && r.partners[k].Some? ==> Settles(m, swapsA[k], r.partners[k].value)
    decreases |swapsA|
  {
    if |swapsA| > 0 {
      var r := Greedy(m, swapsA, swapsB);
      var (partner, left) := Take(m, swapsA[0], swapsB);
      GreedyPairsSettle(m, swapsA[1..], left);
      assert r.partners[1..] == Greedy(m, swapsA[1..], left).partners;
      forall k | 0 < k < |swapsA| && r.partners[k].Some?
        ensures Settles(m, swapsA[k], r.partners[k].value)
      {
        assert r.partners[k] == r.partners[1..][k - 1] && swapsA[k] == swapsA[1..][k - 1];
      }
    }
  }

  /**
   * The matching is greedy: an A offer left without a partner settles with
   * none of the B offers left over.
   */
  lemma {:induction false} UnmatchedOffersHaveNoPartnerLeft(m: Market, swapsA: seq<SwapSpec>, swapsB: seq<SwapSpec>)
    ensures var r := Greedy(m, swapsA, swapsB);
      forall k, b :: 0 <= k < |swapsA| && r.partners[k].None? && b in r.remaining ==> !Settles(m, swapsA[k], b)
    decreases |swapsA|
  {
    if |swapsA| > 0 {
      var r := Greedy(m, swapsA, swapsB);
      var (partner, left) := Take(m, swapsA[0], swapsB);
      UnmatchedOffersHaveNoPartnerLeft(m, swapsA[1..], left);
      GreedyConsumesEachOfferOnce(m, swapsA[1..], left);
      assert r.partners[1..] == Greedy(m, swapsA[1..], left).partners;
      assert r.remaining == Greedy(m, swapsA[1..], left).remaining;
      forall k, b | 0 <= k < |swapsA| && r.partners[k].None? && b in r.remaining
        ensures !Settles(m, swapsA[k], b)
      {
        if k == 0 {
          assert multiset(r.remaining)[b] > 0;
          assert b in multiset(left);
        } else {
          assert r.partners[k] == r.partners[1..][k - 1] && swapsA[k] == swapsA[1..][k - 1];
        }
      }
    }
  }

  /** The ledger after the swap of one matched pair, if there is one. */
  function SettleOne(m: Market, ledger: map<Holding, int>, a: SwapSpec, partner: Option<SwapSpec>): map<Holding, int> {
    match partner
    case None => ledger
    case Some(b) =>
      Swapped(ledger, m.swapContract, a.address, b.address, m.tokenA, m.tokenB, a.amount, a.minRecv, b.amount, b.minRecv)
  }

  /** The ledger after the swaps of the matched pairs, in the order of the A offers. */
  function Settled(m: Market, ledger: map<Holding, int>, swapsA: seq<SwapSpec>, partners: seq<Option<SwapSpec>>): map<Holding, int>
    requires |partners| == |swapsA|
    decreases |swapsA|
  {
    if |swapsA| == 0 then ledger
    else
      var n := |swapsA| - 1;
      SettleOne(m, Settled(m, ledger, swapsA[..n], partners[..n]), swapsA[n], partners[n])
  }

  /** The inner loop of `multi_swap` for one A offer: try the compatible B offers in order until a swap completes. */
  method Scan(ledger: TokenLedger, m: Market, a: SwapSpec, bs: seq<SwapSpec>) returns (partner: Option<SwapSpec>, left: seq<SwapSpec>)
    modifies ledger
    ensures (partner, left) == Take(m, a, bs)
    ensures ledger.balances == SettleOne(m, old(ledger.balances), a, partner)
  {
    var i := 0;
    while i < |bs|
      invariant 0 <= i <= |bs|
      invariant FirstMatch(m, a, bs, 0) == FirstMatch(m, a, bs, i)
      invariant ledger.balances == old(ledger.balances)
    {
      var b := bs[i];
      if a.amount >= b.minRecv && a.minRecv <= b.amount {
        var r := Swap(ledger, m.swapContract, a.address, b.address, m.tokenA, m.tokenB,
                      a.amount, a.minRecv, b.amount, b.minRecv, m.signed);
        if r.Ok? {
          return Some(b), bs[..i] + bs[i + 1..];
        }
      }
      i := i + 1;
    }
    return None, bs;
  }

  /** One step of the greedy matching: the first A offer takes its partner, the rest match against what is left. */
  lemma GreedyStep(m: Market, swapsA: seq<SwapSpec>, k: nat, bs: seq<SwapSpec>)
    requires k < |swapsA|
    ensures var (partner, left) := Take(m, swapsA[k], bs);
      && Greedy(m, swapsA[k..], bs).partners == [partner] + Greedy(m, swapsA[k + 1..], left).partners
      && Greedy(m, swapsA[k..], bs).remaining == Greedy(m, swapsA[k + 1..], left).remaining
  {
    assert swapsA[k..][0] == swapsA[k] && swapsA[k..][1..] == swapsA[k + 1..];
  }

  /** The loop invariant of `MultiSwap` survives the scan of one more A offer. */
  lemma GreedyAdvance(m: Market, swapsA: seq<SwapSpec>, swapsB: seq<SwapSpec>, k: nat, partners: seq<Option<SwapSpec>>,
                      bs: seq<SwapSpec>, partner: Option<SwapSpec>, left: seq<SwapSpec>)
    requires k < |swapsA| && (partner, left) == Take(m, swapsA[k], bs)
    requires Greedy(m, swapsA, swapsB).partners == partners + Greedy(m, swapsA[k..], bs).partners
    requires Greedy(m, swapsA, swapsB).remaining == Greedy(m, swapsA[k..], bs).remaining
    ensures Greedy(m, swapsA, swapsB).partners == (partners + [partner]) + Greedy(m, swapsA[k + 1..], left).partners
    ensures Greedy(m, swapsA, swapsB).remaining == Greedy(m, swapsA[k + 1..], left).remaining
  {
    GreedyStep(m, swapsA, k, bs);
  }

  /** Settling one more A offer settles it after the ones before it. */
  lemma SettledStep(m: Market, ledger: map<Holding, int>, swapsA: seq<SwapSpec>, k: nat,
                    partners: seq<Option<SwapSpec>>, partner: Option<SwapSpec>)
    requires k < |swapsA| && |partners| == k
    ensures Settled(m, ledger, swapsA[..k + 1], partners + [partner]) ==
      SettleOne(m, Settled(m, ledger, swapsA[..k], partners), swapsA[k], partner)
  {
    assert swapsA[..k + 1][..k] == swapsA[..k] && swapsA[..k + 1][k] == swapsA[k];
    assert (partners + [partner])[..k] == partners;
  }

  /** `multi_swap`. */
  method MultiSwap(ledger: TokenLedger, m: Market, swapsA: seq<SwapSpec>, swapsB: seq<SwapSpec>)
    returns (partners: seq<Option<SwapSpec>>, remaining: seq<SwapSpec>)
    modifies ledger
    ensures Matching(partners, remaining) == Greedy(m, swapsA, swapsB)
    ensures ledger.balances == Settled(m, old(ledger.balances), swapsA, partners)
  {
    remaining := swapsB;
    partners := [];
    var k := 0;
    while k < |swapsA|
      invariant 0 <= k <= |swapsA| && |partners| == k
      invariant Greedy(m, swapsA, swapsB).partners == partners + Greedy(m, swapsA[k..], remaining).partners
      invariant Greedy(m, swapsA, swapsB).remaining == Greedy(m, swapsA[k..], remaining).remaining
      invariant ledger.balances == Settled(m, old(ledger.balances), swapsA[..k], partners)
    {
      ghost var before := remaining;
      var partner;
      partner, remaining := Scan(ledger, m, swapsA[k], remaining);
      GreedyAdvance(m, swapsA, swapsB, k, partners, before, partner, remaining);
      SettledStep(m, old(ledger.balances), swapsA, k, partners, partner);
      partners := partners + [partner];
      k := k + 1;
    }
    assert swapsA[..k] == swapsA;
  }

  /**
   * Offer A1 (amount 10, wants 5) and A2 (amount 10, wants 8) against B1
   * (amount 4, wants 10) and B2 (amount 9, wants 10), everyone having
   * signed: A1 cannot use B1 (4 < 5) and takes B2; A2 finds only B1, which
   * offers too little, and stays unmatched.
   */
  method MultiSwapExample() returns (partners: seq<Option<SwapSpec>>, remaining: seq<SwapSpec>)
    ensures partners == [Some(SwapSpec(21, 9, 10)), None]
    ensures remaining == [SwapSpec(20, 4, 10)]
  {
    var ledger := new TokenLedger(map[]);
    var m := Market(9, 5, 6, (p: Address, t: Terms) => true);
    var a1, a2 := SwapSpec(1, 10, 5), SwapSpec(2, 10, 8);
    var b1, b2 := SwapSpec(20, 4, 10), SwapSpec(21, 9, 10);
    assert FirstMatch(m, a1, [b1, b2], 0) == Some(1);
    assert [b1, b2][..1] + [b1, b2][2..] == [b1];
    assert FirstMatch(m, a2, [b1], 0) == None;
    assert Greedy(m, [a1, a2][1..], [b1]) == Matching([None], [b1]);
    partners, remaining := MultiSwap(ledger, m, [a1, a2], [b1, b2]);
  }
}
