/** build_minting_policy.py: the ticket minting policy with a supply cap. The
    event's terms arrive as a parameter; the policy checks the organizer's
    signature and every token minted under its own policy id, counts them
    against the ticket total, and refuses any other currency in the mint. */
module BuildMintingPolicy {
  import opened Wrappers
  import opened Primitives
  import opened Dicts
  import opened Datums
  import opened Redeemers
  import opened Ledger

  /** The redeemer records this file declares, by constructor index
      (MintRedeemer 0, BuyRedeemer 1, ResellRedeemer 2), or other data. */
  datatype RedeemerData =
    | Mint(mint: MintRedeemer<Bytes>)
    | Buy(buy: BuyRedeemer<Bytes>)
    | Resell(resell: ResellRedeemer<Bytes>)
    | OtherData

  type Context = ScriptContext<RedeemerData>

  /** The message when a token is not minted exactly once. */
  const NotUnique: string := "Each ticket must be a unique NFT"

  /** The sum of the amounts of a token map. */
  function TotalMinted(tokens: TokenMap): int {
    if |tokens| == 0 then 0 else TotalMinted(tokens[..|tokens| - 1]) + tokens[|tokens| - 1].1
  }

  /** The tokens minted under `policy`; none when it is absent. */
  function TokensUnder(mint: Value, policy: PolicyId): TokenMap {
    GetOr(mint, policy, [])
  }

  /** Every message the validator can reject with: its assertion messages,
      and the model's reasons where the source raises without one. */
  const Messages: set<string> := {
    "Invalid redeemer type",
    "Invalid redeemer action",
    "Not a minting purpose",
    "Purpose is not Minting",
    "Invalid event ID",
    "Organizer signature missing",
    "Invalid token name",
    NotUnique,
    "Exceeds total tickets allowed",
    "Other currencies not allowed"}

  /** The policy's decision. */
  function Verdict(eventDatum: EventDatum, ctx: Context): (r: Outcome)
    ensures r.Reject? ==> r.reason in Messages
  {
    var tx := ctx.transaction;
    if !ctx.redeemer.Mint? then Reject("Invalid redeemer type")
    else if ctx.redeemer.mint.action != MintBytes then Reject("Invalid redeemer action")
    else if PurposeConstrId(ctx.purpose) != 0 then Reject("Not a minting purpose")
    else if !ctx.purpose.Minting? then Reject("Purpose is not Minting")
    else if ctx.redeemer.mint.eventId != eventDatum.eventId then Reject("Invalid event ID")
    else if eventDatum.organizer !in tx.signatories then Reject("Organizer signature missing")
    else
      var tokens := TokensUnder(tx.mint, ctx.purpose.policyId);
      if CheckTokens(tokens, ctx.redeemer.mint.eventId, NotUnique).Reject? then CheckTokens(tokens, ctx.redeemer.mint.eventId, NotUnique)
      else if TotalMinted(tokens) > eventDatum.totalTickets then Reject("Exceeds total tickets allowed")
      else if |tx.mint| != 1 then Reject("Other currencies not allowed")
      else Accept
  }

  /** The policy as the source runs it: straight-line checks, then the loop
      that checks each token and accumulates `total_minted`. */
  method Validator(eventDatum: EventDatum, ctx: Context) returns (r: Outcome)
    ensures r == Verdict(eventDatum, ctx)
  {
    var txInfo := ctx.transaction;
    if !ctx.redeemer.Mint? {
      return Reject("Invalid redeemer type");
    }
    var redeemer := ctx.redeemer.mint;
    if redeemer.action != MintBytes {
      return Reject("Invalid redeemer action");
    }
    var purpose := ctx.purpose;
    if PurposeConstrId(purpose) != 0 {
      return Reject("Not a minting purpose");
    }
    if !purpose.Minting? {
      return Reject("Purpose is not Minting");
    }
    var policyId := purpose.policyId;
    if redeemer.eventId != eventDatum.eventId {
      return Reject("Invalid event ID");
    }
    if eventDatum.organizer !in txInfo.signatories {
      return Reject("Organizer signature missing");
    }
    var minted := txInfo.mint;
    var tokenAmounts := if Get(minted, policyId).None? then [] else Get(minted, policyId).value;
    assert tokenAmounts == TokensUnder(minted, policyId);
    var totalMinted := 0;
    var i := 0;
    while i < |tokenAmounts|
      invariant 0 <= i <= |tokenAmounts|
      invariant CheckTokens(tokenAmounts, redeemer.eventId, NotUnique) == CheckTokens(tokenAmounts[i..], redeemer.eventId, NotUnique)
      invariant totalMinted == TotalMinted(tokenAmounts[..i])
    {
      assert tokenAmounts[i..][1..] == tokenAmounts[i + 1..];
      var (tokenName, amount) := tokenAmounts[i];
      if !StartsWith(tokenName, redeemer.eventId) {
        return Reject("Invalid token name");
      }
      if amount != 1 {
        return Reject(NotUnique);
      }
      assert tokenAmounts[..i + 1][..i] == tokenAmounts[..i];
      totalMinted := totalMinted + amount;
      i := i + 1;
    }
    assert tokenAmounts[..i] == tokenAmounts;
    if totalMinted > eventDatum.totalTickets {
      return Reject("Exceeds total tickets allowed");
    }
    if |minted| != 1 {
      return Reject("Other currencies not allowed");
    }
    r := Accept;
  }

  // ---- properties ----------------------------------------------------------------

  /** When every amount is 1, the total minted is the number of token names. */
  lemma {:induction false} TotalMintedCounts(tokens: TokenMap)
    requires forall i :: 0 <= i < |tokens| ==> tokens[i].1 == 1
    ensures TotalMinted(tokens) == |tokens|
  {
    if |tokens| > 0 {
      TotalMintedCounts(tokens[..|tokens| - 1]);
    }
  }

  /** An accepted b"mint" is signed by the
      organizer for the datum's event and mints, under the policy id of the
      Minting purpose, only tokens named after the event, each exactly once,
      at most `total_tickets` of them, with no other policy in the mint. The
      converse holds too. */
  lemma Accepts(eventDatum: EventDatum, ctx: Context)
    ensures Verdict(eventDatum, ctx) == Accept <==>
              && ctx.redeemer.Mint?
              && ctx.redeemer.mint.action == MintBytes
              && ctx.purpose.Minting?
              && ctx.redeemer.mint.eventId == eventDatum.eventId
              && eventDatum.organizer in ctx.transaction.signatories
              && (var tokens := TokensUnder(ctx.transaction.mint, ctx.purpose.policyId);
                  && (forall i :: 0 <= i < |tokens| ==> StartsWith(tokens[i].0, eventDatum.eventId) && tokens[i].1 == 1)
                  && |tokens| <= eventDatum.totalTickets)
              && |ctx.transaction.mint| == 1
  {
    if ctx.redeemer.Mint? && ctx.purpose.Minting? {
      var tokens := TokensUnder(ctx.transaction.mint, ctx.purpose.policyId);
      CheckTokensAccepts(tokens, ctx.redeemer.mint.eventId, NotUnique);
      if CheckTokens(tokens, ctx.redeemer.mint.eventId, NotUnique) == Accept {
        TotalMintedCounts(tokens);
      }
    }
  }

  /** With the mint field's keys distinct, an accepted mint that mints
      anything mints under this policy alone. */
  lemma AcceptedMintIsOwnPolicy(eventDatum: EventDatum, ctx: Context)
    requires DistinctKeys(ctx.transaction.mint)
    requires Verdict(eventDatum, ctx) == Accept
    requires TokensUnder(ctx.transaction.mint, ctx.purpose.policyId) != []
    ensures ctx.transaction.mint == [(ctx.purpose.policyId, TokensUnder(ctx.transaction.mint, ctx.purpose.policyId))]
  {
    var mint := ctx.transaction.mint;
    GetFinds(mint, ctx.purpose.policyId);
    var r := Get(mint, ctx.purpose.policyId);
    assert r.Some?;
    var i :| 0 <= i < |mint| && mint[i] == (ctx.purpose.policyId, r.value);
    assert mint == [mint[0]];
  }

  /** A policy absent from the mint contributes no tokens, so the count is 0
      and the decision rests on the other checks alone. */
  lemma AbsentPolicyMintsNothing(eventDatum: EventDatum, ctx: Context)
    requires ctx.purpose.Minting?
    requires forall i :: 0 <= i < |ctx.transaction.mint| ==> ctx.transaction.mint[i].0 != ctx.purpose.policyId
    ensures TokensUnder(ctx.transaction.mint, ctx.purpose.policyId) == []
    ensures TotalMinted(TokensUnder(ctx.transaction.mint, ctx.purpose.policyId)) == 0
    ensures Verdict(eventDatum, ctx) == Accept <==>
              && ctx.redeemer.Mint?
              && ctx.redeemer.mint.action == MintBytes
              && ctx.redeemer.mint.eventId == eventDatum.eventId
              && eventDatum.organizer in ctx.transaction.signatories
              && 0 <= eventDatum.totalTickets
              && |ctx.transaction.mint| == 1
  {
    GetFinds(ctx.transaction.mint, ctx.purpose.policyId);
  }

  /** The supply cap on a concrete event of two tickets: minting two tickets
      is accepted and minting three is refused. */
  lemma CapOfTwo(organizer: Id, policy: PolicyId)
    ensures var event := EventDatum(organizer, [7], [], 2, 10, 500);
            var ctx := ScriptContext(Tx([], [], [organizer], [(policy, [([7, 1], 1), ([7, 2], 1)])]),
                                     Mint(MintRedeemer(MintBytes, [7])), Minting(policy), [], policy, []);
            Verdict(event, ctx) == Accept
    ensures var event := EventDatum(organizer, [7], [], 2, 10, 500);
            var ctx := ScriptContext(Tx([], [], [organizer], [(policy, [([7, 1], 1), ([7, 2], 1), ([7, 3], 1)])]),
                                     Mint(MintRedeemer(MintBytes, [7])), Minting(policy), [], policy, []);
            Verdict(event, ctx) == Reject("Exceeds total tickets allowed")
  {
    var two: TokenMap := [([7, 1], 1), ([7, 2], 1)];
    var three: TokenMap := [([7, 1], 1), ([7, 2], 1), ([7, 3], 1)];
    assert StartsWith([7, 1], [7]) && StartsWith([7, 2], [7]) && StartsWith([7, 3], [7]);
    assert CheckTokens(two, [7], NotUnique) == Accept by {
      assert two[1..][1..] == [];
    }
    assert CheckTokens(three, [7], NotUnique) == Accept by {
      assert three[1..][1..][1..] == [];
    }
    TotalMintedCounts(two);
    TotalMintedCounts(three);
  }

  /** The second purpose check is redundant: constructor index 0 is the
      Minting purpose, so its rejection is never the one returned. */
  lemma PurposeIsNotMintingUnreached(eventDatum: EventDatum, ctx: Context)
    ensures ctx.redeemer.Mint? && ctx.redeemer.mint.action == MintBytes && !ctx.purpose.Minting? ==>
              Verdict(eventDatum, ctx) == Reject("Not a minting purpose")
  {
  }
}
