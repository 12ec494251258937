/**
 * The single-key account of examples/soroban/simple_account: `init` records
 * the owner's ed25519 public key once, and `__check_auth` accepts exactly one
 * signature, which the host's `ed25519_verify` checks against that key. The
 * verification is the oracle `verified`; a rejected signature traps.
 */
module SimpleAccount {
  import opened Soroban

  datatype Error =
    | IncorrectSignatureCount
    | OwnerAlreadySet
    | Trapped(panic: Panic)

  /** A 32-byte `BytesN<32>`: a public key or a signature payload. */
  type Bytes32 = Bytes

  /** A 64-byte `BytesN<64>` signature. */
  type Bytes64 = Bytes

  /**
   * `__check_auth`: the signature count is checked first, then the owner is
   * unwrapped, then the one signature is verified against the owner's key.
   * The authorisation contexts are not looked at.
   */
  function CheckAuth(owner: Option<Bytes32>, payload: Bytes32, signatures: seq<Bytes64>,
                     verified: (Bytes32, Bytes32, Bytes64) -> bool): (r: Result<(), Error>)
    ensures |signatures| != 1 ==> r == Err(IncorrectSignatureCount)
    ensures r.Ok? <==> |signatures| == 1 && owner.Some? && verified(owner.value, payload, signatures[0])
    ensures |signatures| == 1 && owner.None? ==> r == Err(Trapped(UnwrapNone))
  {
    if |signatures| != 1 then Err(IncorrectSignatureCount)
    else if owner.None? then Err(Trapped(UnwrapNone))
    else if !verified(owner.value, payload, signatures[0]) then Err(Trapped(SignatureRejected))
    else Ok(())
  }

  class SimpleAccountManager {
    /** The instance item `owner`. */
    var owner: Option<Bytes32>

    constructor ()
      ensures owner == None
    {
      owner := None;
    }

    /** `init`: the first key is kept for good; a second `init` is refused. */
    method Init(publicKey: Bytes32) returns (r: Result<(), Error>)
      modifies this
      ensures old(owner).Some? ==> r == Err(OwnerAlreadySet) && owner == old(owner)
      ensures old(owner).None? ==> r == Ok(()) && owner == Some(publicKey)
    {
      if owner.Some? {
        return Err(OwnerAlreadySet);
      }
      owner := Some(publicKey);
      r := Ok(());
    }
  }

  /**
   * A second key cannot take the account over: after `init(k1)` and a
   * refused `init(k2)`, only a signature that verifies under `k1` is accepted,
   * and two signatures are refused before any verification.
   */
  method OwnerIsFixed(k1: Bytes32, k2: Bytes32, payload: Bytes32, sig: Bytes64,
                      verified: (Bytes32, Bytes32, Bytes64) -> bool)
    returns (second: Result<(), Error>, single: Result<(), Error>, double: Result<(), Error>)
    ensures second == Err(OwnerAlreadySet)
    ensures single.Ok? <==> verified(k1, payload, sig)
    ensures double == Err(IncorrectSignatureCount)
  {
    var account := new SimpleAccountManager();
    var first := account.Init(k1);
    second := account.Init(k2);
    single := CheckAuth(account.owner, payload, [sig], verified);
    double := CheckAuth(account.owner, payload, [sig, sig], verified);
  }
}
