/**
 * The multi-signature account of examples/soroban/account: a set of signer
 * keys, how many signers `init` was given, and per-token spend limits. Its
 * `__check_auth` authenticates the signatures, then runs every authorisation
 * context through the spend policy, tracking what is left to spend per token
 * across the contexts of one call.
 *
 * Public keys are 32-byte strings compared lexicographically, which is the
 * order of the big-endian numbers they spell; here a key is that number. The
 * host's `ed25519_verify`, which traps on a bad signature, is the oracle
 * `verified`.
 */
module Account {
  import opened Soroban

  datatype AccError =
    | NotEnoughSigners
    | NegativeAmount
    | BadSignatureOrder
    | UnknownSigner
    | InvalidContext
    | Trapped(panic: Panic)

  type PublicKey = nat

  datatype Signature = Signature(publicKey: PublicKey, signature: Bytes)

  /** A host value among a call's arguments: an i128, or something else. */
  datatype Val = I128(i: int) | OtherVal

  /** What an authorisation is asked for: a contract call, or a contract creation. */
  datatype Context =
    | Contract(contract: Address, fnName: string, args: seq<Val>)
    | CreateContractHostFn

  /** The index loop of `authenticate`, as a specification: the check of signature `i`. */
  function SignatureCheck(signers: set<PublicKey>, signatures: seq<Signature>, verified: Signature -> bool, i: nat)
    : (r: Result<(), AccError>)
    requires i < |signatures|
    ensures r.Ok? <==>
      (i > 0 ==> signatures[i - 1].publicKey < signatures[i].publicKey)
      && signatures[i].publicKey in signers && verified(signatures[i])
  {
    if i > 0 && signatures[i - 1].publicKey >= signatures[i].publicKey then Err(BadSignatureOrder)
    else if signatures[i].publicKey !in signers then Err(UnknownSigner)
    else if !verified(signatures[i]) then Err(Trapped(SignatureRejected))
    else Ok(())
  }

  /** The outcome of checking the first `n` signatures in order, stopping at the first failure. */
  function AuthenticatePrefix(signers: set<PublicKey>, signatures: seq<Signature>, verified: Signature -> bool, n: nat)
    : (r: Result<(), AccError>)
    requires n <= |signatures|
  {
    if n == 0 then Ok(())
    else
      var _ :- AuthenticatePrefix(signers, signatures, verified, n - 1);
      SignatureCheck(signers, signatures, verified, n - 1)
  }

  predicate StrictlyIncreasing(signatures: seq<Signature>) {
    forall i :: 0 < i < |signatures| ==> signatures[i - 1].publicKey < signatures[i].publicKey
  }

  /**
   * Authentication succeeds exactly when the keys are strictly increasing, every
   * key is a signer's, and every signature verifies.
   */
  lemma {:induction false} AuthenticateOkIff(signers: set<PublicKey>, signatures: seq<Signature>, verified: Signature -> bool, n: nat)
    requires n <= |signatures|
    ensures AuthenticatePrefix(signers, signatures, verified, n).Ok? <==>
      && StrictlyIncreasing(signatures[..n])
      && (forall i :: 0 <= i < n ==> signatures[i].publicKey in signers && verified(signatures[i]))
  {
    if n > 0 {
      AuthenticateOkIff(signers, signatures, verified, n - 1);
      assert signatures[..n - 1] == signatures[..n][..n - 1];
      if AuthenticatePrefix(signers, signatures, verified, n).Ok? {
        assert StrictlyIncreasing(signatures[..n]) by {
          forall i | 0 < i < n
            ensures signatures[..n][i - 1].publicKey < signatures[..n][i].publicKey
          {
            if i < n - 1 {
              assert signatures[..n - 1][i - 1] == signatures[..n][i - 1];
              assert signatures[..n - 1][i] == signatures[..n][i];
            }
          }
        }
      }
      if StrictlyIncreasing(signatures[..n]) && n > 1 {
        assert signatures[..n][n - 2] == signatures[n - 2];
        assert signatures[..n][n - 1] == signatures[n - 1];
      }
    }
  }

  /** A failure at some signature is the outcome of the whole check. */
  lemma {:induction false} AuthenticateFailureSticks(signers: set<PublicKey>, signatures: seq<Signature>, verified: Signature -> bool, m: nat, n: nat)
    requires m <= n <= |signatures|
    requires AuthenticatePrefix(signers, signatures, verified, m).Err?
    ensures AuthenticatePrefix(signers, signatures, verified, n) == AuthenticatePrefix(signers, signatures, verified, m)
    decreases n - m
  {
    if m < n {
      AuthenticateFailureSticks(signers, signatures, verified, m, n - 1);
    }
  }

  /** The left-to-right i128 spend amount of a `transfer` or `approve` call: its third argument. */
  function SpentAmount(args: seq<Val>): (r: Result<int, AccError>)
    ensures |args| <= 2 ==> r == Err(Trapped(UnwrapNone))
    ensures |args| > 2 && args[2].I128? ==> r == Ok(args[2].i)
    ensures |args| > 2 && args[2].OtherVal? ==> r == Err(Trapped(UnwrapErr))
  {
    if |args| <= 2 then Err(Trapped(UnwrapNone))
    else match args[2]
      case I128(v) => Ok(v)
      case OtherVal => Err(Trapped(UnwrapErr))
  }

  predicate IsSpendingCall(fnName: string) {
    fnName == "transfer" || fnName == "approve"
  }

  /** What is left to spend of `token`: the amount tracked in this call, else the stored limit, else no limit. */
  function SpendLeft(spend: map<Address, int>, limits: map<Address, int>, token: Address): (r: Option<int>)
    ensures token in spend ==> r == Some(spend[token])
    ensures token !in spend ==> r == Get(limits, token)
  {
    if token in spend then Some(spend[token]) else Get(limits, token)
  }

  /**
   * `verify_authorization_policy` for one context, returning the new spend
   * tracking map: a call on the account itself needs every signer; a contract
   * creation is refused; a spending call on a limited token needs a
   * non-negative amount, and, unless every signer signed, no more than is left.
   */
  function Policy(limits: map<Address, int>, context: Context, account: Address, allSigned: bool, spend: map<Address, int>)
    : (r: Result<map<Address, int>, AccError>)
    ensures context.CreateContractHostFn? ==> r == Err(InvalidContext)
    ensures context.Contract? && context.contract == account && !allSigned ==> r == Err(NotEnoughSigners)
    ensures context.Contract? && (context.contract != account || allSigned) && !IsSpendingCall(context.fnName) ==> r == Ok(spend)
    ensures r.Ok? ==> context.Contract?
    ensures r.Ok? ==> forall t :: t in spend ==> t in r.value
    ensures r.Ok? ==> forall t :: t != context.contract ==> (t in r.value <==> t in spend)
    ensures r.Ok? ==> forall t :: t != context.contract && t in spend ==> r.value[t] == spend[t]
    ensures r.Ok? && IsSpendingCall(context.fnName) && SpendLeft(spend, limits, context.contract).Some? ==>
      && SpentAmount(context.args).Ok?
      && 0 <= SpentAmount(context.args).value
      && (!allSigned ==> SpentAmount(context.args).value <= SpendLeft(spend, limits, context.contract).value)
      && SpendLeft(r.value, limits, context.contract)
         == Some(SpendLeft(spend, limits, context.contract).value - SpentAmount(context.args).value)
    ensures r.Ok? && (!IsSpendingCall(context.fnName) || SpendLeft(spend, limits, context.contract).None?) ==>
      r.value == spend
  {
    match context
    case CreateContractHostFn => Err(InvalidContext)
    case Contract(c, fnName, args) =>
      if c == account && !allSigned then Err(NotEnoughSigners)
      else if !IsSpendingCall(fnName) then Ok(spend)
      else match SpendLeft(spend, limits, c)
        case None => Ok(spend)
        case Some(left) =>
          var spent :- SpentAmount(args);
          if spent < 0 then Err(NegativeAmount)
          else if !allSigned && spent > left then Err(NotEnoughSigners)
          else
            var newLeft :- SubI128(left, spent).OkOr(Trapped(ArithmeticOverflow));
            Ok(spend[c := newLeft])
  }

  /**
   * The policy on a spending call to a limited token, past the self-call
   * check: an unreadable amount traps, a negative one is `NegativeAmount`,
   * one above what is left is `NotEnoughSigners` unless all signed, and any
   * other is accepted and lowers the allowance by it, unless that overflows.
   */
  lemma PolicySpendingOutcome(limits: map<Address, int>, c: Address, fnName: string, args: seq<Val>, account: Address,
                              allSigned: bool, spend: map<Address, int>, left: int)
    requires c != account || allSigned
    requires IsSpendingCall(fnName) && SpendLeft(spend, limits, c) == Some(left)
    ensures var r := Policy(limits, Contract(c, fnName, args), account, allSigned, spend);
      var spent := SpentAmount(args);
      && (spent.Err? ==> r == Err(spent.error))
      && (spent.Ok? && spent.value < 0 ==> r == Err(NegativeAmount))
      && (spent.Ok? && spent.value >= 0 && !allSigned && spent.value > left ==> r == Err(NotEnoughSigners))
      && (spent.Ok? && spent.value >= 0 && (allSigned || spent.value <= left) ==>
            r == if IsI128(left - spent.value) then Ok(spend[c := left - spent.value])
                 else Err(Trapped(ArithmeticOverflow)))
  {
  }

  /** The policy applied to the contexts in order, stopping at the first failure. */
  function Policies(limits: map<Address, int>, contexts: seq<Context>, account: Address, allSigned: bool, spend: map<Address, int>)
    : (r: Result<map<Address, int>, AccError>)
    ensures |contexts| == 0 ==> r == Ok(spend)
    ensures r.Ok? ==> forall i :: 0 <= i < |contexts| ==> contexts[i].Contract? && (contexts[i].contract != account || allSigned)
    ensures r.Ok? ==> forall t :: t in spend ==> t in r.value
  {
    if |contexts| == 0 then Ok(spend)
    else
      var next :- Policy(limits, contexts[0], account, allSigned, spend);
      Policies(limits, contexts[1..], account, allSigned, next)
  }

  /** What the spending calls among `contexts` spend of `token`. */
  function SpentOn(contexts: seq<Context>, token: Address): int {
    if |contexts| == 0 then 0
    else
      SpentHere(contexts[0], token) + SpentOn(contexts[1..], token)
  }

  /** What one context spends of `token`: its amount when it is a spending call on that token. */
  function SpentHere(c: Context, token: Address): int {
    if c.Contract? && c.contract == token && IsSpendingCall(c.fnName) && SpentAmount(c.args).Ok?
    then SpentAmount(c.args).value else 0
  }

  /** One context accepted without every signer spends of `token` at most what is left, and lowers it by that. */
  lemma PolicyStepOnToken(limits: map<Address, int>, c: Context, account: Address,
                          spend: map<Address, int>, token: Address, left: int)
    requires SpendLeft(spend, limits, token) == Some(left)
    requires Policy(limits, c, account, false, spend).Ok?
    ensures 0 <= SpentHere(c, token) && (SpentHere(c, token) == 0 || SpentHere(c, token) <= left)
    ensures SpendLeft(Policy(limits, c, account, false, spend).value, limits, token) == Some(left - SpentHere(c, token))
  {
    var next := Policy(limits, c, account, false, spend).value;
    if c.contract == token && IsSpendingCall(c.fnName) {
      assert SpendLeft(next, limits, token) == Some(left - SpentAmount(c.args).value);
    } else {
      assert SpentHere(c, token) == 0;
      if token in spend {
        assert next[token] == spend[token];
      } else {
        assert token !in next;
      }
    }
  }

  /**
   * Spend limits are cumulative over the contexts of one call: without every
   * signer, the calls on a limited token spend in total no more than its
   * limit (nothing at all when the limit is negative), and what is left
   * afterwards is the limit minus that total.
   */
  lemma {:induction false} SpendLimitIsCumulative(limits: map<Address, int>, contexts: seq<Context>, account: Address,
                                                  spend: map<Address, int>, token: Address, left: int)
    requires SpendLeft(spend, limits, token) == Some(left)
    requires Policies(limits, contexts, account, false, spend).Ok?
    ensures 0 <= SpentOn(contexts, token)
    ensures SpentOn(contexts, token) == 0 || SpentOn(contexts, token) <= left
    ensures SpendLeft(Policies(limits, contexts, account, false, spend).value, limits, token) == Some(left - SpentOn(contexts, token))
  {
    if |contexts| > 0 {
      var next := Policy(limits, contexts[0], account, false, spend).value;
      var here := SpentHere(contexts[0], token);
      PolicyStepOnToken(limits, contexts[0], account, spend, token, left);
      assert Policies(limits, contexts, account, false, spend) == Policies(limits, contexts[1..], account, false, next);
      SpendLimitIsCumulative(limits, contexts[1..], account, next, token, left - here);
      assert SpentOn(contexts, token) == here + SpentOn(contexts[1..], token);
    }
  }

  /** Every context is a `transfer` or `approve` on `token` with a non-negative amount. */
  predicate SpendsOnly(contexts: seq<Context>, token: Address) {
    forall i :: 0 <= i < |contexts| ==>
      && contexts[i].Contract? && contexts[i].contract == token && IsSpendingCall(contexts[i].fnName)
      && SpentAmount(contexts[i].args).Ok? && SpentAmount(contexts[i].args).value >= 0
  }

  /** Non-negative amounts spend a non-negative total. */
  lemma {:induction false} SpentOnNonNegative(contexts: seq<Context>, token: Address)
    requires SpendsOnly(contexts, token)
    ensures SpentOn(contexts, token) >= 0
  {
    if |contexts| > 0 {
      assert SpendsOnly(contexts[1..], token) by {
        forall i | 0 <= i < |contexts[1..]| ensures contexts[1..][i] == contexts[i + 1] { }
      }
      SpentOnNonNegative(contexts[1..], token);
    }
  }

  /**
   * The converse of `SpendLimitIsCumulative`: without every signer, spending
   * calls on a limited token other than the account itself, with
   * non-negative amounts totalling no more than what is left, all pass, and
   * what is left afterwards is reduced by that total.
   */
  lemma {:induction false} WithinLimitPasses(limits: map<Address, int>, contexts: seq<Context>, account: Address,
                                             spend: map<Address, int>, token: Address, left: int)
    requires token != account && SpendsOnly(contexts, token)
    requires SpendLeft(spend, limits, token) == Some(left) && IsI128(left)
    requires SpentOn(contexts, token) <= left
    ensures Policies(limits, contexts, account, false, spend).Ok?
    ensures SpendLeft(Policies(limits, contexts, account, false, spend).value, limits, token) == Some(left - SpentOn(contexts, token))
  {
    if |contexts| > 0 {
      var c := contexts[0];
      var v := SpentAmount(c.args).value;
      assert SpendsOnly(contexts[1..], token) by {
        forall i | 0 <= i < |contexts[1..]| ensures contexts[1..][i] == contexts[i + 1] { }
      }
      SpentOnNonNegative(contexts[1..], token);
      assert SpentOn(contexts, token) == v + SpentOn(contexts[1..], token);
      assert 0 <= v <= left;
      var next := spend[token := left - v];
      assert Policy(limits, c, account, false, spend) == Ok(next);
      assert SpendLeft(next, limits, token) == Some(left - v);
      WithinLimitPasses(limits, contexts[1..], account, next, token, left - v);
    }
  }

  class AccountManager {
    /** The account contract's own address. */
    const self: Address
    var limits: map<Address, int>
    var signers: set<PublicKey>
    var count: int

    /** `Default`: no limits, no signers. */
    constructor (self: Address)
      ensures this.self == self && limits == map[] && signers == {} && count == 0
    {
      this.self := self;
      limits, signers, count := map[], {}, 0;
    }

    /**
     * `init`: every key becomes a signer (without removing earlier ones), and
     * the count is the number of keys given, duplicates included.
     */
    method Init(newSigners: seq<PublicKey>)
      requires IsU32(|newSigners|)
      modifies this
      ensures signers == old(signers) + set s | s in newSigners
      ensures count == |newSigners|
      ensures limits == old(limits)
    {
      var i := 0;
      while i < |newSigners|
        invariant 0 <= i <= |newSigners|
        invariant signers == old(signers) + set s | s in newSigners[..i]
        invariant limits == old(limits)
      {
        assert newSigners[..i + 1] == newSigners[..i] + [newSigners[i]];
        signers := signers + {newSigners[i]};
        i := i + 1;
      }
      assert newSigners[..i] == newSigners;
      count := |newSigners|;
    }

    /** `add_limit`: sets the limit of one token. */
    method AddLimit(token: Address, limit: int)
      modifies this
      ensures limits == old(limits)[token := limit]
      ensures signers == old(signers) && count == old(count)
    {
      limits := limits[token := limit];
    }

    /** `authenticate`: the signatures are checked in order; the first failure is the outcome. */
    method Authenticate(signatures: seq<Signature>, verified: Signature -> bool) returns (r: Result<(), AccError>)
      ensures r == AuthenticatePrefix(signers, signatures, verified, |signatures|)
    {
      var i := 0;
      while i < |signatures|
        invariant 0 <= i <= |signatures|
        invariant AuthenticatePrefix(signers, signatures, verified, i) == Ok(())
      {
        var signature := signatures[i];
        if i > 0 {
          var prev := signatures[i - 1];
          if prev.publicKey >= signature.publicKey {
            AuthenticateFailureSticks(signers, signatures, verified, i + 1, |signatures|);
            return Err(BadSignatureOrder);
          }
        }
        if signature.publicKey !in signers {
          AuthenticateFailureSticks(signers, signatures, verified, i + 1, |signatures|);
          return Err(UnknownSigner);
        }
        if !verified(signature) {
          AuthenticateFailureSticks(signers, signatures, verified, i + 1, |signatures|);
          return Err(Trapped(SignatureRejected));
        }
        i := i + 1;
      }
      r := Ok(());
    }

    /**
     * `__check_auth`: authentication first; then every context in order under
     * the spend policy, with "all signed" meaning as many signatures as `init`
     * was given keys.
     */
    method CheckAuth(signatures: seq<Signature>, authContext: seq<Context>, verified: Signature -> bool)
      returns (r: Result<(), AccError>)
      ensures var auth := AuthenticatePrefix(signers, signatures, verified, |signatures|);
        && (auth.Err? ==> r == auth)
        && (auth.Ok? ==>
              var outcome := Policies(limits, authContext, self, count == |signatures|, map[]);
              r == if outcome.Ok? then Ok(()) else Err(outcome.error))
      ensures r.Ok? <==>
        && StrictlyIncreasing(signatures)
        && (forall i :: 0 <= i < |signatures| ==> signatures[i].publicKey in signers && verified(signatures[i]))
        && Policies(limits, authContext, self, count == |signatures|, map[]).Ok?
    {
      AuthenticateOkIff(signers, signatures, verified, |signatures|);
      assert signatures[..|signatures|] == signatures;
      r := Authenticate(signatures, verified);
      if r.Err? {
        return;
      }
      var allSigned := count == |signatures|;
      var spend: map<Address, int> := map[];
      var i := 0;
      while i < |authContext|
        invariant 0 <= i <= |authContext|
        invariant Policies(limits, authContext, self, allSigned, map[]) == Policies(limits, authContext[i..], self, allSigned, spend)
      {
        assert authContext[i..][1..] == authContext[i + 1..];
        var next := Policy(limits, authContext[i], self, allSigned, spend);
        if next.Err? {
          return Err(next.error);
        }
        spend := next.value;
        i := i + 1;
      }
      r := Ok(());
    }
  }

  /**
   * Two signers with keys 1 and 2 and a limit of 100 on token 5: with one
   * signature, transfers of 60 and 50 in one call exceed the limit together
   * though not apart; with both signatures they pass.
   */
  method LimitAcrossContexts() returns (one: Result<(), AccError>, both: Result<(), AccError>)
    ensures one == Err(NotEnoughSigners)
    ensures both.Ok?
  {
    var a := new AccountManager(9);
    a.Init([1, 2]);
    a.AddLimit(5, 100);
    var contexts := [Contract(5, "transfer", [OtherVal, OtherVal, I128(60)]), Contract(5, "transfer", [OtherVal, OtherVal, I128(50)])];
    var always := (s: Signature) => true;
    assert a.signers == {1, 2} && a.count == 2 && a.limits == map[5 := 100];
    TwoTransfersExceedLimit();
    one := a.CheckAuth([Signature(1, [])], contexts, always);
    both := a.CheckAuth([Signature(1, []), Signature(2, [])], contexts, always);
  }

  /**
   * The same account refuses signatures out of key order, and a key that is
   * not a signer's.
   */
  method SignaturesRefused() returns (disordered: Result<(), AccError>, stranger: Result<(), AccError>)
    ensures disordered == Err(BadSignatureOrder)
    ensures stranger == Err(UnknownSigner)
  {
    var a := new AccountManager(9);
    a.Init([1, 2]);
    a.AddLimit(5, 100);
    var contexts := [Contract(5, "transfer", [OtherVal, OtherVal, I128(60)]), Contract(5, "transfer", [OtherVal, OtherVal, I128(50)])];
    var always := (s: Signature) => true;
    assert a.signers == {1, 2};
    SignatureOrderExamples();
    disordered := a.CheckAuth([Signature(2, []), Signature(1, [])], contexts, always);
    stranger := a.CheckAuth([Signature(1, []), Signature(3, [])], contexts, always);
  }

  /**
   * With a limit of 100, transfers of 60 and then 50 leave -10 of it when
   * every signer signed, and are refused when not.
   */
  lemma TwoTransfersExceedLimit()
    ensures Policies(map[5 := 100], [Contract(5, "transfer", [OtherVal, OtherVal, I128(60)]), Contract(5, "transfer", [OtherVal, OtherVal, I128(50)])],
                     9, true, map[]) == Ok(map[5 := -10])
    ensures Policies(map[5 := 100], [Contract(5, "transfer", [OtherVal, OtherVal, I128(60)]), Contract(5, "transfer", [OtherVal, OtherVal, I128(50)])],
                     9, false, map[]) == Err(NotEnoughSigners)
  {
    var limits := map[5 := 100];
    var contexts := [Contract(5, "transfer", [OtherVal, OtherVal, I128(60)]), Contract(5, "transfer", [OtherVal, OtherVal, I128(50)])];
    assert Policy(limits, contexts[0], 9, true, map[]) == Ok(map[5 := 40]);
    assert SpendLeft(map[5 := 40], limits, 5) == Some(40);
    assert SpentAmount(contexts[1].args) == Ok(50);
    assert SubI128(40, 50) == Some(-10);
    assert Policy(limits, contexts[1], 9, true, map[5 := 40]) == Ok(map[5 := 40][5 := -10]);
    assert map[5 := 40][5 := -10] == map[5 := -10];
    assert contexts[1..][1..] == [] && contexts[1..][0] == contexts[1];
    assert Policies(limits, contexts[1..], 9, true, map[5 := 40]) == Ok(map[5 := -10]);
  }

  /** Signers 1 and 2: the pair (2, 1) is out of order, and key 3 is no signer's. */
  lemma SignatureOrderExamples()
    ensures AuthenticatePrefix({1, 2}, [Signature(2, []), Signature(1, [])], (s: Signature) => true, 1) == Ok(())
    ensures AuthenticatePrefix({1, 2}, [Signature(1, []), Signature(3, [])], (s: Signature) => true, 1) == Ok(())
    ensures AuthenticatePrefix({1, 2}, [Signature(1, []), Signature(3, [])], (s: Signature) => true, 2) == Err(UnknownSigner)
  {
  }
}
