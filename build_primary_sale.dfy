/** build_primary_sale.py: the first sale of a ticket, with byte-string tags.
    The buyer takes ownership in the continuing datum and pays the current
    owner (the organizer) at least the recorded price. */
module BuildPrimarySale {
  import opened Wrappers
  import opened Primitives
  import opened Datums
  import opened Redeemers
  import opened Ledger
  import PrimarySaleStr

  type Context = ScriptContext<BuyRedeemer<Bytes>>

  /** The assertions comparing output datum `o` with input datum `d`. */
  function DatumChecks(buyer: Id, d: TicketDatum, o: TicketDatum): Outcome {
    if o.owner != buyer then Reject("Output datum does not update owner to buyer")
    else if o.eventId != d.eventId then Reject("Event ID mismatch")
    else if o.ticketId != d.ticketId then Reject("Ticket ID mismatch")
    else if o.price != d.price then Reject("Price mismatch")
    else if o.isForResale != d.isForResale then Reject("Resale status mismatch")
    else if o.royaltyAddress != d.royaltyAddress then Reject("Royalty address mismatch")
    else if o.royaltyAmount != d.royaltyAmount then Reject("Royalty amount mismatch")
    else Accept
  }

  /** Every message the validator can reject with: its assertion messages,
      and the model's reasons where the source raises without one. */
  const Messages: set<string> := {
    NoOwnDatum,
    "Invalid redeemer action",
    "Ticket is for resale, not primary sale",
    "Buyer signature missing",
    "No valid output found",
    "Output datum does not update owner to buyer",
    "Event ID mismatch",
    "Ticket ID mismatch",
    "Price mismatch",
    "Resale status mismatch",
    "Royalty address mismatch",
    "Royalty amount mismatch",
    "Payment to organizer not found or insufficient"}

  /** The validator's decision. */
  function Verdict(ctx: Context, ownDatum: Option<TicketDatum>): (r: Outcome)
    ensures r.Reject? ==> r.reason in Messages
  {
    if ownDatum.None? then Reject(NoOwnDatum)
    else
      var d := ownDatum.value;
      var tx := ctx.transaction;
      if ctx.redeemer.action != BuyBytes then Reject("Invalid redeemer action")
      else if d.isForResale != 0 then Reject("Ticket is for resale, not primary sale")
      else if ctx.redeemer.buyer !in tx.signatories then Reject("Buyer signature missing")
      else match ContinuingDatum(tx.outputs, ctx.ownAddress, ctx.ownPolicyId, ctx.ownTokenName)
        case None => Reject("No valid output found")
        case Some(o) =>
          var checks := DatumChecks(ctx.redeemer.buyer, d, o);
          if checks.Reject? then checks
          else if !Paid(tx.outputs, d.owner, d.price) then
            Reject("Payment to organizer not found or insufficient")
          else Accept
  }

  /** The validator as the source runs it. */
  method Validator(ctx: Context, ownDatum: Option<TicketDatum>) returns (r: Outcome)
    ensures r == Verdict(ctx, ownDatum)
  {
    if ownDatum.None? {
      return Reject(NoOwnDatum);
    }
    var redeemer, txInfo, inputDatum := ctx.redeemer, ctx.transaction, ownDatum.value;
    if redeemer.action != BuyBytes {
      return Reject("Invalid redeemer action");
    }
    if inputDatum.isForResale != 0 {
      return Reject("Ticket is for resale, not primary sale");
    }
    if redeemer.buyer !in txInfo.signatories {
      return Reject("Buyer signature missing");
    }
    var outputDatum := ScanContinuing(txInfo.outputs, ctx.ownAddress, ctx.ownPolicyId, ctx.ownTokenName);
    if outputDatum.None? {
      return Reject("No valid output found");
    }
    r := DatumChecks(redeemer.buyer, inputDatum, outputDatum.value);
    if r.Reject? {
      return;
    }
    var paymentFound := ScanPayment(txInfo.outputs, inputDatum.owner, inputDatum.price);
    if !paymentFound {
      return Reject("Payment to organizer not found or insufficient");
    }
  }

  /** The three gates before the output search: the action must be b"buy",
      the ticket must not be for resale, and the buyer must sign. */
  lemma RejectsUnlessUnlistedBuySignedByBuyer(ctx: Context, od: Option<TicketDatum>)
    ensures ctx.redeemer.action != BuyBytes ==> Verdict(ctx, od).Reject?
    ensures od.Some? && od.value.isForResale != 0 ==> Verdict(ctx, od).Reject?
    ensures ctx.redeemer.buyer !in ctx.transaction.signatories ==> Verdict(ctx, od).Reject?
  {
  }

  /** Without an output that continues the script with the NFT there is no
      sale; once the gates pass, the reason is "No valid output found". */
  lemma RejectsWithoutContinuing(ctx: Context, od: Option<TicketDatum>)
    requires forall j :: 0 <= j < |ctx.transaction.outputs| ==>
               !Continues(ctx.transaction.outputs[j], ctx.ownAddress, ctx.ownPolicyId, ctx.ownTokenName)
    ensures Verdict(ctx, od).Reject?
    ensures od.Some? && ctx.redeemer.action == BuyBytes && od.value.isForResale == 0 &&
            ctx.redeemer.buyer in ctx.transaction.signatories ==>
              Verdict(ctx, od) == Reject("No valid output found")
  {
  }

  /** With `k` the first continuing output, a sale is accepted exactly when it
      is a signed b"buy" of an unlisted ticket, the new datum is the old one with
      the owner replaced by the buyer (so it stays unlisted), and one output
      pays the old owner at least the price. */
  lemma Accepts(ctx: Context, d: TicketDatum, k: int)
    requires FirstContinuingAt(ctx.transaction.outputs, k, ctx.ownAddress, ctx.ownPolicyId, ctx.ownTokenName)
    ensures Verdict(ctx, Some(d)) == Accept <==>
              && ctx.redeemer.action == BuyBytes
              && d.isForResale == 0
              && ctx.redeemer.buyer in ctx.transaction.signatories
              && ctx.transaction.outputs[k].datum == Some(d.(owner := ctx.redeemer.buyer))
              && Paid(ctx.transaction.outputs, d.owner, d.price)
  {
    FindContinuingAt(ctx.transaction.outputs, k, ctx.ownAddress, ctx.ownPolicyId, ctx.ownTokenName);
    var outs := ctx.transaction.outputs;
    assert ContinuingDatum(outs, ctx.ownAddress, ctx.ownPolicyId, ctx.ownTokenName) == outs[k].datum;
    if outs[k].datum.Some? {
      var o := outs[k].datum.value;
      assert DatumChecks(ctx.redeemer.buyer, d, o) == Accept <==> o == d.(owner := ctx.redeemer.buyer);
    }
  }

  /** The text-tag variant decides every transaction as this one does once its
      action tag is written as bytes. */
  lemma AgreesWithTextTags(ctx: PrimarySaleStr.Context, od: Option<TicketDatum>)
    requires IsLatin1(ctx.redeemer.action)
    ensures PrimarySaleStr.Verdict(ctx, od) ==
            Verdict(WithRedeemer(ctx, BuyRedeemer(Latin1(ctx.redeemer.action), ctx.redeemer.buyer)), od)
  {
    Latin1Injective(ctx.redeemer.action, BuyText);
  }
}
