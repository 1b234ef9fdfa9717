/** primary_sale.py: the first sale of a ticket, with the text tag "buy" and
    a Python truthiness test on the resale flag. */
module PrimarySaleStr {
  import opened Wrappers
  import opened Primitives
  import opened Datums
  import opened Redeemers
  import opened Ledger

  type Context = ScriptContext<BuyRedeemer<string>>

  /** The assertions comparing output datum `o` with input datum `d`. */
  function DatumChecks(buyer: Id, d: TicketDatum, o: TicketDatum): Outcome {
    if o.owner != buyer then Reject("Output datum does not update owner to buyer")
    else if o.eventId != d.eventId then Reject("Event ID mismatch")
    else if o.ticketId != d.ticketId then Reject("Ticket ID mismatch")
    else if o.price != d.price then Reject("Price mismatch")
    else if o.isForResale != d.isForResale then Reject("Resale status mismatch")
    else if o.royaltyAddress != d.royaltyAddress then Reject("Royalty address mismatch")
    else if o.royaltyAmount != d.royaltyAmount then Reject("Royalty amount mismatch")
    else Accept
  }

  /** Every message the validator can reject with: its assertion messages,
      and the model's reasons where the source raises without one. */
  const Messages: set<string> := {
    NoOwnDatum,
    "Invalid redeemer action",
    "Ticket is for resale, not primary sale",
    "Buyer signature missing",
    "No valid output found",
    "Output datum does not update owner to buyer",
    "Event ID mismatch",
    "Ticket ID mismatch",
    "Price mismatch",
    "Resale status mismatch",
    "Royalty address mismatch",
    "Royalty amount mismatch",
    "Payment to organizer not found or insufficient"}

  /** The validator's decision. */
  function Verdict(ctx: Context, ownDatum: Option<TicketDatum>): (r: Outcome)
    ensures r.Reject? ==> r.reason in Messages
  {
    if ownDatum.None? then Reject(NoOwnDatum)
    else
      var d := ownDatum.value;
      var tx := ctx.transaction;
      if ctx.redeemer.action != BuyText then Reject("Invalid redeemer action")
      else if IntTruthy(d.isForResale) then Reject("Ticket is for resale, not primary sale")
      else if ctx.redeemer.buyer !in tx.signatories then Reject("Buyer signature missing")
      else match ContinuingDatum(tx.outputs, ctx.ownAddress, ctx.ownPolicyId, ctx.ownTokenName)
        case None => Reject("No valid output found")
        case Some(o) =>
          var checks := DatumChecks(ctx.redeemer.buyer, d, o);
          if checks.Reject? then checks
          else if !Paid(tx.outputs, d.owner, d.price) then
            Reject("Payment to organizer not found or insufficient")
          else Accept
  }

  /** The validator as the source runs it. */
  method Validator(ctx: Context, ownDatum: Option<TicketDatum>) returns (r: Outcome)
    ensures r == Verdict(ctx, ownDatum)
  {
    if ownDatum.None? {
      return Reject(NoOwnDatum);
    }
    var redeemer, txInfo, inputDatum := ctx.redeemer, ctx.transaction, ownDatum.value;
    if redeemer.action != BuyText {
      return Reject("Invalid redeemer action");
    }
    if IntTruthy(inputDatum.isForResale) {
      return Reject("Ticket is for resale, not primary sale");
    }
    if redeemer.buyer !in txInfo.signatories {
      return Reject("Buyer signature missing");
    }
    var outputDatum := ScanContinuing(txInfo.outputs, ctx.ownAddress, ctx.ownPolicyId, ctx.ownTokenName);
    if outputDatum.None? {
      return Reject("No valid output found");
    }
    r := DatumChecks(redeemer.buyer, inputDatum, outputDatum.value);
    if r.Reject? {
      return;
    }
    var paymentFound := ScanPayment(txInfo.outputs, inputDatum.owner, inputDatum.price);
    if !paymentFound {
      return Reject("Payment to organizer not found or insufficient");
    }
  }

  /** The three gates before the output search: the action must be "buy",
      the ticket must not be for resale, and the buyer must sign. */
  lemma RejectsUnlessUnlistedBuySignedByBuyer(ctx: Context, od: Option<TicketDatum>)
    ensures ctx.redeemer.action != BuyText ==> Verdict(ctx, od).Reject?
    ensures od.Some? && Listed(od.value) ==> Verdict(ctx, od).Reject?
    ensures ctx.redeemer.buyer !in ctx.transaction.signatories ==> Verdict(ctx, od).Reject?
  {
  }

  /** Without an output that continues the script with the NFT there is no
      sale; once the gates pass, the reason is "No valid output found". */
  lemma RejectsWithoutContinuing(ctx: Context, od: Option<TicketDatum>)
    requires forall j :: 0 <= j < |ctx.transaction.outputs| ==>
               !Continues(ctx.transaction.outputs[j], ctx.ownAddress, ctx.ownPolicyId, ctx.ownTokenName)
    ensures Verdict(ctx, od).Reject?
    ensures od.Some? && ctx.redeemer.action == BuyText && !IntTruthy(od.value.isForResale) &&
            ctx.redeemer.buyer in ctx.transaction.signatories ==>
              Verdict(ctx, od) == Reject("No valid output found")
  {
  }

  /** The datum checks pass exactly when the new datum is the old one with
      the owner replaced by the buyer. */
  lemma DatumChecksAccept(buyer: Id, d: TicketDatum, o: TicketDatum)
    ensures DatumChecks(buyer, d, o) == Accept <==> o == d.(owner := buyer)
  {
  }

  /** With `k` the first continuing output, a sale is accepted exactly when it
      is a signed "buy" of an unlisted ticket, the new datum is the old one with
      only the owner replaced by the buyer, and one output pays the old owner
      at least the price. */
  lemma Accepts(ctx: Context, d: TicketDatum, k: int)
    requires FirstContinuingAt(ctx.transaction.outputs, k, ctx.ownAddress, ctx.ownPolicyId, ctx.ownTokenName)
    ensures Verdict(ctx, Some(d)) == Accept <==>
              && ctx.redeemer.action == BuyText
              && !Listed(d)
              && ctx.redeemer.buyer in ctx.transaction.signatories
              && ctx.transaction.outputs[k].datum == Some(d.(owner := ctx.redeemer.buyer))
              && Paid(ctx.transaction.outputs, d.owner, d.price)
  {
    FindContinuingAt(ctx.transaction.outputs, k, ctx.ownAddress, ctx.ownPolicyId, ctx.ownTokenName);
    var outs := ctx.transaction.outputs;
    assert ContinuingDatum(outs, ctx.ownAddress, ctx.ownPolicyId, ctx.ownTokenName) == outs[k].datum;
    if outs[k].datum.Some? {
      DatumChecksAccept(ctx.redeemer.buyer, d, outs[k].datum.value);
    }
  }

  /** Inserting an output that neither continues the script with the NFT nor
      pays the ticket's owner changes no decision. */
  lemma IgnoresUnrelatedOutputs(ctx: Context, d: TicketDatum, a: seq<TxOut>, o: TxOut, b: seq<TxOut>)
    requires !Continues(o, ctx.ownAddress, ctx.ownPolicyId, ctx.ownTokenName)
    requires o.address != d.owner
    ensures Verdict(ctx.(transaction := ctx.transaction.(outputs := a + [o] + b)), Some(d)) ==
            Verdict(ctx.(transaction := ctx.transaction.(outputs := a + b)), Some(d))
  {
    var with, without := a + [o] + b, a + b;
    var ctxWith := ctx.(transaction := ctx.transaction.(outputs := with));
    var ctxWithout := ctx.(transaction := ctx.transaction.(outputs := without));
    FindContinuingSkips(a, o, b, ctx.ownAddress, ctx.ownPolicyId, ctx.ownTokenName);
    var found := ContinuingDatum(without, ctx.ownAddress, ctx.ownPolicyId, ctx.ownTokenName);
    assert ContinuingDatum(with, ctx.ownAddress, ctx.ownPolicyId, ctx.ownTokenName) == found;
    PaidSkips(a, o, b, d.owner, d.price);
    assert Paid(with, d.owner, d.price) == Paid(without, d.owner, d.price);
    assert ctxWith.redeemer == ctxWithout.redeemer && ctxWith.transaction.signatories == ctxWithout.transaction.signatories;
  }

  /** A sale whose only payment to the owner is `amount` lovelace: the
      continuing output carries the NFT and the datum with the buyer as owner. */
  function Sale(ctx: Context, d: TicketDatum, amount: int): Context
    requires ctx.ownPolicyId != Ada
  {
    var continuing := TxOut(ctx.ownAddress, Nft(ctx.ownPolicyId, ctx.ownTokenName), Some(d.(owner := ctx.redeemer.buyer)));
    var payment := TxOut(d.owner, Coins(amount), None);
    ctx.(transaction := ctx.transaction.(outputs := [continuing, payment]))
  }

  /** The payment threshold is inclusive: exactly the price is enough, one
      lovelace less is not. */
  lemma PaymentBoundary(ctx: Context, d: TicketDatum)
    requires ctx.ownPolicyId != Ada && ctx.ownAddress != d.owner
    requires ctx.redeemer.action == BuyText && !Listed(d)
    requires ctx.redeemer.buyer in ctx.transaction.signatories
    ensures Verdict(Sale(ctx, d, d.price), Some(d)) == Accept
    ensures Verdict(Sale(ctx, d, d.price - 1), Some(d)) == Reject("Payment to organizer not found or insufficient")
  {
    var pass, fail := Sale(ctx, d, d.price), Sale(ctx, d, d.price - 1);
    assert FirstContinuingAt(pass.transaction.outputs, 0, ctx.ownAddress, ctx.ownPolicyId, ctx.ownTokenName);
    assert FirstContinuingAt(fail.transaction.outputs, 0, ctx.ownAddress, ctx.ownPolicyId, ctx.ownTokenName);
    FindContinuingAt(pass.transaction.outputs, 0, ctx.ownAddress, ctx.ownPolicyId, ctx.ownTokenName);
    FindContinuingAt(fail.transaction.outputs, 0, ctx.ownAddress, ctx.ownPolicyId, ctx.ownTokenName);
    assert PaysAtLeast(pass.transaction.outputs[1], d.owner, d.price);
    assert !PaysAtLeast(fail.transaction.outputs[0], d.owner, d.price);
    assert !PaysAtLeast(fail.transaction.outputs[1], d.owner, d.price);
  }
}
