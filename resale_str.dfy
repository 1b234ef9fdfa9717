/** resale.py: the resale state machine ("list" puts a ticket up for resale,
    "buy" completes a resale), with text action tags and Python truthiness
    tests on the resale flag. */
module ResaleStr {
  import opened Wrappers
  import opened Primitives
  import opened Datums
  import opened Redeemers
  import opened Ledger

  type Context = ScriptContext<ResellRedeemer<string>>

  /** The assertions of the "list" branch on input datum `d` and output datum `o`. */
  function ListChecks(ctx: Context, d: TicketDatum, o: TicketDatum): Outcome {
    if d.owner !in ctx.transaction.signatories then Reject("Owner signature missing")
    else if !IntTruthy(o.isForResale) then Reject("Output datum must mark ticket for resale")
    else if o.price != ctx.redeemer.newPrice then Reject("Output datum price mismatch")
    else if o.owner != d.owner then Reject("Owner must not change during listing")
    else if o.eventId != d.eventId then Reject("Event ID mismatch")
    else if o.ticketId != d.ticketId then Reject("Ticket ID mismatch")
    else if o.royaltyAddress != d.royaltyAddress then Reject("Royalty address mismatch")
    else if o.royaltyAmount != d.royaltyAmount then Reject("Royalty amount mismatch")
    else Accept
  }

  /** The assertions of the "buy" branch that precede the payment scans. */
  function BuyChecks(ctx: Context, d: TicketDatum, o: TicketDatum): Outcome {
    if !IntTruthy(d.isForResale) then Reject("Ticket not marked for resale")
    else if !AnyTruthy(ctx.transaction.signatories) then Reject("Buyer signature missing")
    else if IntTruthy(o.isForResale) then Reject("Output datum must clear resale status")
    else if o.owner == d.owner then Reject("Owner must change during purchase")
    else if o.eventId != d.eventId then Reject("Event ID mismatch")
    else if o.ticketId != d.ticketId then Reject("Ticket ID mismatch")
    else if o.price != d.price then Reject("Price mismatch")
    else if o.royaltyAddress != d.royaltyAddress then Reject("Royalty address mismatch")
    else if o.royaltyAmount != d.royaltyAmount then Reject("Royalty amount mismatch")
    else Accept
  }

  /** Every message the validator can reject with: its assertion messages,
      and the model's reasons where the source raises without one. */
  const Messages: set<string> := {
    NoOwnDatum,
    "No valid output found",
    "Owner signature missing",
    "Output datum must mark ticket for resale",
    "Output datum price mismatch",
    "Owner must not change during listing",
    "Event ID mismatch",
    "Ticket ID mismatch",
    "Royalty address mismatch",
    "Royalty amount mismatch",
    "Ticket not marked for resale",
    "Buyer signature missing",
    "Output datum must clear resale status",
    "Owner must change during purchase",
    "Price mismatch",
    "Payment to seller not found or insufficient",
    "Royalty payment to organizer not found or insufficient",
    "Invalid redeemer action"}

  /** The validator's decision. */
  function Verdict(ctx: Context, ownDatum: Option<TicketDatum>): (r: Outcome)
    ensures r.Reject? ==> r.reason in Messages
  {
    if ownDatum.None? then Reject(NoOwnDatum)
    else
      var d := ownDatum.value;
      var outs := ctx.transaction.outputs;
      match ContinuingDatum(outs, ctx.ownAddress, ctx.ownPolicyId, ctx.ownTokenName)
      case None => Reject("No valid output found")
      case Some(o) =>
        if ctx.redeemer.action == ListText then ListChecks(ctx, d, o)
        else if ctx.redeemer.action == BuyText then
          var checks := BuyChecks(ctx, d, o);
          if checks.Reject? then checks
          else if !Paid(outs, d.owner, d.price) then
            Reject("Payment to seller not found or insufficient")
          else if !Paid(outs, d.royaltyAddress, d.royaltyAmount) then
            Reject("Royalty payment to organizer not found or insufficient")
          else Accept
        else Reject("Invalid redeemer action")
  }

  /** The validator as the source runs it: the continuing-output search, then
      the branch on the action with its two payment scans. */
  method Validator(ctx: Context, ownDatum: Option<TicketDatum>) returns (r: Outcome)
    ensures r == Verdict(ctx, ownDatum)
  {
    if ownDatum.None? {
      return Reject(NoOwnDatum);
    }
    var inputDatum := ownDatum.value;
    var txInfo := ctx.transaction;
    var outputDatum := ScanContinuing(txInfo.outputs, ctx.ownAddress, ctx.ownPolicyId, ctx.ownTokenName);
    if outputDatum.None? {
      return Reject("No valid output found");
    }
    if ctx.redeemer.action == ListText {
      r := ListChecks(ctx, inputDatum, outputDatum.value);
    } else if ctx.redeemer.action == BuyText {
      r := BuyChecks(ctx, inputDatum, outputDatum.value);
      if r.Reject? {
        return;
      }
      var sellerPaymentFound := ScanPayment(txInfo.outputs, inputDatum.owner, inputDatum.price);
      if !sellerPaymentFound {
        return Reject("Payment to seller not found or insufficient");
      }
      var royaltyPaymentFound := ScanPayment(txInfo.outputs, inputDatum.royaltyAddress, inputDatum.royaltyAmount);
      if !royaltyPaymentFound {
        return Reject("Royalty payment to organizer not found or insufficient");
      }
      r := Accept;
    } else {
      r := Reject("Invalid redeemer action");
    }
  }

  /** Without an output that continues the script with the NFT, every action is rejected. */
  lemma RejectsWithoutContinuing(ctx: Context, d: TicketDatum)
    requires forall j :: 0 <= j < |ctx.transaction.outputs| ==>
               !Continues(ctx.transaction.outputs[j], ctx.ownAddress, ctx.ownPolicyId, ctx.ownTokenName)
    ensures Verdict(ctx, Some(d)) == Reject("No valid output found")
  {
  }

  /** With `k` the first continuing output, a listing is accepted exactly when
      the owner signed and the new datum is the old one with the resale flag
      set and the price replaced by the redeemer's `newPrice`. */
  lemma ListAccepts(ctx: Context, d: TicketDatum, k: int)
    requires ctx.redeemer.action == ListText
    requires FirstContinuingAt(ctx.transaction.outputs, k, ctx.ownAddress, ctx.ownPolicyId, ctx.ownTokenName)
    ensures Verdict(ctx, Some(d)) == Accept <==>
              && ctx.transaction.outputs[k].datum.Some?
              && var o := ctx.transaction.outputs[k].datum.value;
              && d.owner in ctx.transaction.signatories
              && Listed(o)
              && o == d.(price := ctx.redeemer.newPrice, isForResale := o.isForResale)
  {
    FindContinuingAt(ctx.transaction.outputs, k, ctx.ownAddress, ctx.ownPolicyId, ctx.ownTokenName);
  }

  /** With `k` the first continuing output, a purchase is accepted exactly when
      the ticket was listed, somebody signed, the new datum is the old one with
      a different owner and the flag cleared, and two single outputs pay the
      seller the price and the royalty address the royalty. */
  lemma BuyAccepts(ctx: Context, d: TicketDatum, k: int)
    requires ctx.redeemer.action == BuyText
    requires FirstContinuingAt(ctx.transaction.outputs, k, ctx.ownAddress, ctx.ownPolicyId, ctx.ownTokenName)
    ensures Verdict(ctx, Some(d)) == Accept <==>
              && ctx.transaction.outputs[k].datum.Some?
              && var o := ctx.transaction.outputs[k].datum.value;
              && Listed(d)
              && AnyTruthy(ctx.transaction.signatories)
              && o.owner != d.owner
              && o == d.(owner := o.owner, isForResale := 0)
              && Paid(ctx.transaction.outputs, d.owner, d.price)
              && Paid(ctx.transaction.outputs, d.royaltyAddress, d.royaltyAmount)
  {
    FindContinuingAt(ctx.transaction.outputs, k, ctx.ownAddress, ctx.ownPolicyId, ctx.ownTokenName);
  }

  /** A purchase binds no buyer: replacing who signed, as long as some
      non-empty key hash still signs, does not change the decision. */
  lemma BuyIgnoresWhoSigned(ctx: Context, od: Option<TicketDatum>, signers: seq<Id>)
    requires ctx.redeemer.action == BuyText
    requires AnyTruthy(signers) && AnyTruthy(ctx.transaction.signatories)
    ensures Verdict(ctx.(transaction := ctx.transaction.(signatories := signers)), od) == Verdict(ctx, od)
  {
  }

  /** Every action other than "list" and "buy" is rejected, "cancel"
      included; once the own datum and a continuing output are present, the
      reason is "Invalid redeemer action". */
  lemma OnlyListAndBuy(ctx: Context, od: Option<TicketDatum>)
    requires ctx.redeemer.action != ListText && ctx.redeemer.action != BuyText
    ensures Verdict(ctx, od).Reject?
    ensures od.Some? && ContinuingDatum(ctx.transaction.outputs, ctx.ownAddress, ctx.ownPolicyId, ctx.ownTokenName).Some? ==>
              Verdict(ctx, od) == Reject("Invalid redeemer action")
  {
  }
}
