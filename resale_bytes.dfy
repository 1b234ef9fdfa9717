/** Resale.py: the resale state machine with byte-string action tags and
    explicit `!= 0` / `== 0` tests on the resale flag. */
module Resale {
  import opened Wrappers
  import opened Primitives
  import opened Datums
  import opened Redeemers
  import opened Ledger
  import ResaleStr

  type Context = ScriptContext<ResellRedeemer<Bytes>>

  /** The assertions of the b"list" branch on input datum `d` and output datum `o`. */
  function ListChecks(ctx: Context, d: TicketDatum, o: TicketDatum): Outcome {
    if d.owner !in ctx.transaction.signatories then Reject("Owner signature missing")
    else if o.isForResale == 0 then Reject("Output datum must mark ticket for resale")
    else if o.price != ctx.redeemer.newPrice then Reject("Output datum price mismatch")
    else if o.owner != d.owner then Reject("Owner must not change during listing")
    else if o.eventId != d.eventId then Reject("Event ID mismatch")
    else if o.ticketId != d.ticketId then Reject("Ticket ID mismatch")
    else if o.royaltyAddress != d.royaltyAddress then Reject("Royalty address mismatch")
    else if o.royaltyAmount != d.royaltyAmount then Reject("Royalty amount mismatch")
    else Accept
  }

  /** The assertions of the b"buy" branch that precede the payment scans. */
  function BuyChecks(ctx: Context, d: TicketDatum, o: TicketDatum): Outcome {
    if d.isForResale == 0 then Reject("Ticket not marked for resale")
    else if !AnyTruthy(ctx.transaction.signatories) then Reject("Buyer signature missing")
    else if o.isForResale != 0 then Reject("Output datum must clear resale status")
    else if o.owner == d.owner then Reject("Owner must change during purchase")
    else if o.eventId != d.eventId then Reject("Event ID mismatch")
    else if o.ticketId != d.ticketId then Reject("Ticket ID mismatch")
    else if o.price != d.price then Reject("Price mismatch")
    else if o.royaltyAddress != d.royaltyAddress then Reject("Royalty address mismatch")
    else if o.royaltyAmount != d.royaltyAmount then Reject("Royalty amount mismatch")
    else Accept
  }

  /** Every message the validator can reject with: its assertion messages,
      and the model's reasons where the source raises without one. */
  const Messages: set<string> := {
    NoOwnDatum,
    "No valid output found",
    "Owner signature missing",
    "Output datum must mark ticket for resale",
    "Output datum price mismatch",
    "Owner must not change during listing",
    "Event ID mismatch",
    "Ticket ID mismatch",
    "Royalty address mismatch",
    "Royalty amount mismatch",
    "Ticket not marked for resale",
    "Buyer signature missing",
    "Output datum must clear resale status",
    "Owner must change during purchase",
    "Price mismatch",
    "Payment to seller not found or insufficient",
    "Royalty payment to organizer not found or insufficient",
    "Invalid redeemer action"}

  /** The validator's decision. */
  function Verdict(ctx: Context, ownDatum: Option<TicketDatum>): (r: Outcome)
    ensures r.Reject? ==> r.reason in Messages
  {
    if ownDatum.None? then Reject(NoOwnDatum)
    else
      var d := ownDatum.value;
      var outs := ctx.transaction.outputs;
      match ContinuingDatum(outs, ctx.ownAddress, ctx.ownPolicyId, ctx.ownTokenName)
      case None => Reject("No valid output found")
      case Some(o) =>
        if ctx.redeemer.action == ListBytes then ListChecks(ctx, d, o)
        else if ctx.redeemer.action == BuyBytes then
          var checks := BuyChecks(ctx, d, o);
          if checks.Reject? then checks
          else if !Paid(outs, d.owner, d.price) then
            Reject("Payment to seller not found or insufficient")
          else if !Paid(outs, d.royaltyAddress, d.royaltyAmount) then
            Reject("Royalty payment to organizer not found or insufficient")
          else Accept
        else Reject("Invalid redeemer action")
  }

  /** The validator as the source runs it. */
  method Validator(ctx: Context, ownDatum: Option<TicketDatum>) returns (r: Outcome)
    ensures r == Verdict(ctx, ownDatum)
  {
    if ownDatum.None? {
      return Reject(NoOwnDatum);
    }
    var inputDatum := ownDatum.value;
    var txInfo := ctx.transaction;
    var outputDatum := ScanContinuing(txInfo.outputs, ctx.ownAddress, ctx.ownPolicyId, ctx.ownTokenName);
    if outputDatum.None? {
      return Reject("No valid output found");
    }
    if ctx.redeemer.action == ListBytes {
      r := ListChecks(ctx, inputDatum, outputDatum.value);
    } else if ctx.redeemer.action == BuyBytes {
      r := BuyChecks(ctx, inputDatum, outputDatum.value);
      if r.Reject? {
        return;
      }
      var sellerPaymentFound := ScanPayment(txInfo.outputs, inputDatum.owner, inputDatum.price);
      if !sellerPaymentFound {
        return Reject("Payment to seller not found or insufficient");
      }
      var royaltyPaymentFound := ScanPayment(txInfo.outputs, inputDatum.royaltyAddress, inputDatum.royaltyAmount);
      if !royaltyPaymentFound {
        return Reject("Royalty payment to organizer not found or insufficient");
      }
      r := Accept;
    } else {
      r := Reject("Invalid redeemer action");
    }
  }

  /** With `k` the first continuing output, a listing is accepted exactly when
      the owner signed and only the price (set to `newPrice`) and the resale
      flag (set non-zero) change. */
  lemma ListAccepts(ctx: Context, d: TicketDatum, k: int)
    requires ctx.redeemer.action == ListBytes
    requires FirstContinuingAt(ctx.transaction.outputs, k, ctx.ownAddress, ctx.ownPolicyId, ctx.ownTokenName)
    ensures Verdict(ctx, Some(d)) == Accept <==>
              && ctx.transaction.outputs[k].datum.Some?
              && var o := ctx.transaction.outputs[k].datum.value;
              && d.owner in ctx.transaction.signatories
              && o.isForResale != 0
              && o == d.(price := ctx.redeemer.newPrice, isForResale := o.isForResale)
  {
    FindContinuingAt(ctx.transaction.outputs, k, ctx.ownAddress, ctx.ownPolicyId, ctx.ownTokenName);
  }

  /** With `k` the first continuing output, a purchase is accepted exactly when
      the ticket was listed, somebody signed, only the owner (to someone else)
      and the flag (to 0) change, and single outputs pay the seller the price
      and the royalty address the royalty. */
  lemma BuyAccepts(ctx: Context, d: TicketDatum, k: int)
    requires ctx.redeemer.action == BuyBytes
    requires FirstContinuingAt(ctx.transaction.outputs, k, ctx.ownAddress, ctx.ownPolicyId, ctx.ownTokenName)
    ensures Verdict(ctx, Some(d)) == Accept <==>
              && ctx.transaction.outputs[k].datum.Some?
              && var o := ctx.transaction.outputs[k].datum.value;
              && d.isForResale != 0
              && AnyTruthy(ctx.transaction.signatories)
              && o.owner != d.owner
              && o == d.(owner := o.owner, isForResale := 0)
              && Paid(ctx.transaction.outputs, d.owner, d.price)
              && Paid(ctx.transaction.outputs, d.royaltyAddress, d.royaltyAmount)
  {
    FindContinuingAt(ctx.transaction.outputs, k, ctx.ownAddress, ctx.ownPolicyId, ctx.ownTokenName);
  }

  /** Only b"list" and b"buy" can be accepted. */
  lemma OnlyListAndBuy(ctx: Context, od: Option<TicketDatum>)
    requires ctx.redeemer.action != ListBytes && ctx.redeemer.action != BuyBytes
    ensures Verdict(ctx, od).Reject?
    ensures od.Some? && ContinuingDatum(ctx.transaction.outputs, ctx.ownAddress, ctx.ownPolicyId, ctx.ownTokenName).Some? ==>
              Verdict(ctx, od) == Reject("Invalid redeemer action")
  {
  }

  /** Without a continuing output every action is rejected, with "No valid
      output found" once the own datum is present. */
  lemma RejectsWithoutContinuing(ctx: Context, od: Option<TicketDatum>)
    requires forall j :: 0 <= j < |ctx.transaction.outputs| ==>
               !Continues(ctx.transaction.outputs[j], ctx.ownAddress, ctx.ownPolicyId, ctx.ownTokenName)
    ensures Verdict(ctx, od).Reject?
    ensures od.Some? ==> Verdict(ctx, od) == Reject("No valid output found")
  {
  }

  /** An accepted listing followed by an accepted purchase of the listed
      datum leaves a ticket that is not for resale, has a new owner, costs
      the listed price, and keeps its event, ticket and royalty terms. */
  lemma ListThenBuy(list: Context, d0: TicketDatum, d1: TicketDatum, buy: Context, d2: TicketDatum)
    requires list.redeemer.action == ListBytes && Verdict(list, Some(d0)) == Accept
    requires ContinuingDatum(list.transaction.outputs, list.ownAddress, list.ownPolicyId, list.ownTokenName) == Some(d1)
    requires buy.redeemer.action == BuyBytes && Verdict(buy, Some(d1)) == Accept
    requires ContinuingDatum(buy.transaction.outputs, buy.ownAddress, buy.ownPolicyId, buy.ownTokenName) == Some(d2)
    ensures d2.isForResale == 0 && d2.owner != d0.owner && d2.price == list.redeemer.newPrice
    ensures d2 == d0.(owner := d2.owner, price := list.redeemer.newPrice, isForResale := 0)
  {
  }

  /** The text-tag variant decides every transaction as this one does once its
      action tag is written as bytes: Python's truthiness of the int flag is
      the explicit `!= 0` test. */
  lemma AgreesWithTextTags(ctx: ResaleStr.Context, od: Option<TicketDatum>)
    requires IsLatin1(ctx.redeemer.action)
    ensures ResaleStr.Verdict(ctx, od) ==
            Verdict(WithRedeemer(ctx, ResellRedeemer(Latin1(ctx.redeemer.action), ctx.redeemer.newPrice)), od)
  {
    Latin1Injective(ctx.redeemer.action, ListText);
    Latin1Injective(ctx.redeemer.action, BuyText);
    var ctx' := WithRedeemer(ctx, ResellRedeemer(Latin1(ctx.redeemer.action), ctx.redeemer.newPrice));
    if od.Some? {
      match ContinuingDatum(ctx.transaction.outputs, ctx.ownAddress, ctx.ownPolicyId, ctx.ownTokenName)
      case None =>
      case Some(o) =>
        assert ResaleStr.ListChecks(ctx, od.value, o) == ListChecks(ctx', od.value, o);
        assert ResaleStr.BuyChecks(ctx, od.value, o) == BuyChecks(ctx', od.value, o);
    }
  }
}
