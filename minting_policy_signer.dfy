/** MintingPolicy.py: a mint/burn policy controlled by one fixed signatory.
    Under its own policy id exactly one token name may be forged per
    transaction: minted once (action 1) or burnt (action 2). */
module MintingPolicy {
  import opened Wrappers
  import opened Primitives
  import opened Dicts
  import opened Ledger

  /** 1 = mint, 2 = burn. */
  datatype ActionRedeemer = ActionRedeemer(actionType: int)

  type Context = ScriptContext<ActionRedeemer>

  /** The bytes of the hard-coded hexadecimal signatory. */
  const RequiredSigner: Bytes := [
    0x00, 0xc0, 0x0e, 0xb4, 0xbc, 0x74, 0x41, 0xe0, 0xc4, 0xb7, 0xb3, 0xb8, 0xe4, 0x92, 0x4a, 0x88,
    0x89, 0x37, 0x88, 0xfd, 0x91, 0xbb, 0xa1, 0xfd, 0x12, 0x3f, 0x89, 0x78, 0xf1, 0x09, 0x4f, 0xf8,
    0x3c, 0xb9, 0x7e, 0xd8, 0x3b, 0x48, 0xe7, 0x33, 0xf0, 0xe7, 0xa8, 0x11, 0x04, 0x83, 0xb8, 0xbe,
    0xd3, 0xfd, 0xe5, 0x6b, 0x8e, 0xea, 0x09, 0x55, 0x57]

  /** The length of a public key hash on the ledger. */
  const KeyHashLength: nat := 28

  /** The rejection when `mint[policy_id]` raises because the policy forges nothing. */
  const PolicyNotInMint: string := "KeyError: policy id not in mint"

  /** The per-token loop, each entry judged by the redeemer's action. */
  function CheckForged(forged: TokenMap, actionType: int): (r: Outcome)
    ensures r.Reject? ==> r.reason == "Must mint exactly one token" || r.reason == "Must burn tokens" ||
                          r.reason == "Invalid redeemer action"
  {
    if |forged| == 0 then Accept
    else if actionType == 1 && forged[0].1 != 1 then Reject("Must mint exactly one token")
    else if actionType == 2 && !(forged[0].1 < 0) then Reject("Must burn tokens")
    else if actionType != 1 && actionType != 2 then Reject("Invalid redeemer action")
    else CheckForged(forged[1..], actionType)
  }

  /** Every message the validator can reject with: its assertion messages,
      and the model's reasons where the source raises without one. */
  const Messages: set<string> := {
    "Script purpose must be Minting",
    "Required signatory missing",
    PolicyNotInMint,
    "Exactly one token type must be forged",
    "Must mint exactly one token",
    "Must burn tokens",
    "Invalid redeemer action"}

  /** The policy's decision with `signer` as the one required signatory. */
  function VerdictFor(signer: Id, ctx: Context): (r: Outcome)
    ensures r.Reject? ==> r.reason in Messages
  {
    if !ctx.purpose.Minting? then Reject("Script purpose must be Minting")
    else if signer !in ctx.transaction.signatories then Reject("Required signatory missing")
    else
      match Get(ctx.transaction.mint, ctx.purpose.policyId)
      case None => Reject(PolicyNotInMint)
      case Some(forged) =>
        if |forged| != 1 then Reject("Exactly one token type must be forged")
        else CheckForged(forged, ctx.redeemer.actionType)
  }

  /** The policy as written, with the hard-coded signatory. */
  function Verdict(ctx: Context): (r: Outcome)
    ensures r.Reject? ==> r.reason in Messages
  {
    VerdictFor(RequiredSigner, ctx)
  }

  /** Accepted exactly when the purpose is Minting, the signatory signed,
      and the own policy forges exactly one token name whose amount is 1 for
      a mint or negative for a burn. */
  lemma AcceptsFor(signer: Id, ctx: Context)
    ensures VerdictFor(signer, ctx) == Accept <==>
              && ctx.purpose.Minting?
              && signer in ctx.transaction.signatories
              && Get(ctx.transaction.mint, ctx.purpose.policyId).Some?
              && var forged := Get(ctx.transaction.mint, ctx.purpose.policyId).value;
                 && |forged| == 1
                 && ((ctx.redeemer.actionType == 1 && forged[0].1 == 1) ||
                     (ctx.redeemer.actionType == 2 && forged[0].1 < 0))
  {
    if ctx.purpose.Minting? && Get(ctx.transaction.mint, ctx.purpose.policyId).Some? {
      var forged := Get(ctx.transaction.mint, ctx.purpose.policyId).value;
      if |forged| == 1 {
        assert CheckForged(forged[1..], ctx.redeemer.actionType) == Accept;
      }
    }
  }

  /** Any action other than 1 and 2 is refused. */
  lemma RejectsOtherActions(signer: Id, ctx: Context)
    requires ctx.redeemer.actionType != 1 && ctx.redeemer.actionType != 2
    ensures VerdictFor(signer, ctx).Reject?
  {
    AcceptsFor(signer, ctx);
  }

  /** The hard-coded value is 57 bytes long, not a 28-byte key hash. */
  lemma RequiredSignerLength()
    ensures |RequiredSigner| == 57
  {
  }

  /** As written, no transaction whose signatories are all key hashes can
      pass: the required signatory is never among them. */
  lemma NeverAcceptsKeyHashSigners(ctx: Context)
    requires forall i :: 0 <= i < |ctx.transaction.signatories| ==> |ctx.transaction.signatories[i]| == KeyHashLength
    ensures Verdict(ctx).Reject?
  {
    assert RequiredSigner !in ctx.transaction.signatories by {
      RequiredSignerLength();
    }
  }

  // ---- the evidently intended policy -------------------------------------------

  /** The hexadecimal value has the layout of a base address (a header byte,
      then the 28-byte payment key hash and the 28-byte stake key hash); the
      signatory it evidently means is the payment key hash. */
  function PaymentKeyHash(): (h: Bytes)
    ensures |h| == KeyHashLength && RequiredSigner == [RequiredSigner[0]] + h + RequiredSigner[KeyHashLength + 1..]
  {
    RequiredSigner[1..KeyHashLength + 1]
  }

  /** The policy with the payment key hash as its signatory. */
  function IntendedVerdict(ctx: Context): Outcome {
    VerdictFor(PaymentKeyHash(), ctx)
  }

  /** The corrected policy accepts a mint of one token signed by the
      payment key hash, which the written one refuses. */
  lemma IntendedAcceptsSignedMint(policy: PolicyId, token: TokenName)
    ensures var ctx := ScriptContext(Tx([], [], [PaymentKeyHash()], [(policy, [(token, 1)])]),
                                     ActionRedeemer(1), Minting(policy), [], policy, []);
            IntendedVerdict(ctx) == Accept && Verdict(ctx).Reject?
  {
    var ctx := ScriptContext(Tx([], [], [PaymentKeyHash()], [(policy, [(token, 1)])]),
                             ActionRedeemer(1), Minting(policy), [], policy, []);
    AcceptsFor(PaymentKeyHash(), ctx);
    NeverAcceptsKeyHashSigners(ctx);
  }
}
