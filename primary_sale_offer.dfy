/** PrimarySale.py: a sale validator with its own helpers. It locates the
    NFT through the first input at the script address, requires the buyer to
    become the owner of a non-resale datum, and checks payment either against
    the recorded price (a ticket not for resale) or, for a listed ticket,
    against a price the buyer declares in the redeemer. */
module PrimarySale {
  import opened Wrappers
  import opened Primitives
  import opened Dicts
  import opened Datums
  import opened Redeemers
  import opened Ledger

  /** This file's own BuyRedeemer, which adds a buyer-declared payment. */
  datatype BuyRedeemer = BuyRedeemer(action: Bytes, buyer: Id, offeredPrice: int)

  /** What the context's redeemer decodes to: a BuyRedeemer or other data. */
  datatype RedeemerData = Buy(redeemer: BuyRedeemer) | OtherData

  type Context = ScriptContext<RedeemerData>

  // ---- dynamic shapes --------------------------------------------------------

  /** The shapes the `Any`-typed helpers tell apart: an int, a mapping (its
      entries in iteration order), or anything else. */
  datatype Shape = IntVal(n: int) | MapVal(entries: seq<(Bytes, Shape)>) | OtherVal

  function TokensShape(tm: TokenMap): seq<(Bytes, Shape)>
  {
    seq(|tm|, j requires 0 <= j < |tm| => (tm[j].0, IntVal(tm[j].1)))
  }

  /** A ledger value seen as a mapping of mappings of ints. */
  function ValueShape(v: Value): Shape
  {
    MapVal(seq(|v|, i requires 0 <= i < |v| => (v[i].0, MapVal(TokensShape(v[i].1)))))
  }

  /** `out.value.get(b"", 0)`: the lovelace token map, or the int 0. */
  function AdaEntry(v: Value): Shape {
    match Get(v, Ada)
    case None => IntVal(0)
    case Some(tm) => MapVal(TokensShape(tm))
  }

  /** `extract_lovelace`: an int is returned as it is; a mapping yields the
      int under b"" (a mapping there cannot be converted and gives 0); a
      missing key and every other shape give 0. */
  function ExtractLovelace(value: Shape): int {
    match value
    case IntVal(n) => n
    case MapVal(entries) =>
      var e: Option<Shape> := Get(entries, Ada);
      if e.Some? && e.value.IntVal? then e.value.n else 0
    case OtherVal => 0
  }

  /** Looking a key up in the shape of a token map finds the shape of what
      looking it up in the token map finds. */
  lemma GetTokensShape(tm: TokenMap, k: Bytes)
    ensures Get(TokensShape(tm), k) == match Get(tm, k) case None => None case Some(n) => Some(IntVal(n))
  {
    var s := TokensShape(tm);
    GetFinds(tm, k);
    GetFinds(s, k);
    match Get(tm, k)
    case None =>
    case Some(n) =>
      var i :| 0 <= i < |tm| && tm[i] == (k, n) && forall j :: 0 <= j < i ==> tm[j].0 != k;
      var r := Get(s, k);
      assert s[i].0 == k;
      var i' :| 0 <= i' < |s| && s[i'] == (k, r.value) && forall j :: 0 <= j < i' ==> s[j].0 != k;
      assert i' == i;
  }

  /** On what payment outputs hold, PrimarySale.py's lovelace reading agrees
      with the ledger's. */
  lemma ExtractLovelaceReadsAda(v: Value)
    ensures ExtractLovelace(AdaEntry(v)) == Lovelace(v)
  {
    match Get(v, Ada)
    case None =>
    case Some(tm) => GetTokensShape(tm, Ada);
  }

  // ---- find_own_input ----------------------------------------------------------

  /** The first input resolved at `addr`. */
  function FirstInputAt(inputs: seq<TxInInfo>, addr: Id): (r: Option<TxInInfo>)
    ensures r.None? <==> forall j :: 0 <= j < |inputs| ==> inputs[j].resolved.address != addr
    ensures r.Some? ==> exists k :: 0 <= k < |inputs| && inputs[k] == r.value && r.value.resolved.address == addr &&
                                    forall j :: 0 <= j < k ==> inputs[j].resolved.address != addr
  {
    if |inputs| == 0 then None
    else if inputs[0].resolved.address == addr then Some(inputs[0])
    else
      var r := FirstInputAt(inputs[1..], addr);
      assert forall j :: 0 <= j < |inputs| - 1 ==> inputs[1..][j] == inputs[j + 1];
      r
  }

  /** `find_own_input`: scan the inputs and return the first one at the script address. */
  method FindOwnInput(txInputs: seq<TxInInfo>, scriptAddress: Id) returns (r: Option<TxInInfo>)
    ensures r == FirstInputAt(txInputs, scriptAddress)
  {
    var i := 0;
    while i < |txInputs|
      invariant 0 <= i <= |txInputs|
      invariant FirstInputAt(txInputs, scriptAddress) == FirstInputAt(txInputs[i..], scriptAddress)
    {
      assert txInputs[i..][1..] == txInputs[i + 1..];
      if txInputs[i].resolved.address == scriptAddress {
        return Some(txInputs[i]);
      }
      i := i + 1;
    }
    return None;
  }

  // ---- find_nft_in_value ---------------------------------------------------------

  /** The first token name whose amount converts to the int 1 (a nested
      mapping raises in the conversion and is skipped). */
  function FirstOne(tokens: seq<(Bytes, Shape)>): Option<Bytes> {
    if |tokens| == 0 then None
    else if tokens[0].1 == IntVal(1) then Some(tokens[0].0)
    else FirstOne(tokens[1..])
  }

  /** Nothing is found exactly when no amount is the int 1; what is found is
      a token name whose amount is 1. */
  lemma {:induction false} FirstOneFinds(tokens: seq<(Bytes, Shape)>)
    ensures FirstOne(tokens).None? <==> forall j :: 0 <= j < |tokens| ==> tokens[j].1 != IntVal(1)
    ensures FirstOne(tokens).Some? ==> exists j :: 0 <= j < |tokens| && tokens[j] == (FirstOne(tokens).value, IntVal(1))
  {
    if |tokens| > 0 && tokens[0].1 != IntVal(1) {
      FirstOneFinds(tokens[1..]);
      assert forall j :: 0 <= j < |tokens| - 1 ==> tokens[1..][j] == tokens[j + 1];
      if FirstOne(tokens).Some? {
        var j :| 0 <= j < |tokens[1..]| && tokens[1..][j] == (FirstOne(tokens).value, IntVal(1));
        assert tokens[j + 1] == (FirstOne(tokens).value, IntVal(1));
      }
    }
  }

  /** A non-lovelace policy entry whose token map holds some amount 1. */
  predicate HoldsNft(e: (Bytes, Shape)) {
    e.0 != Ada && e.1.MapVal? && FirstOne(e.1.entries).Some?
  }

  function FirstNftIn(policies: seq<(Bytes, Shape)>): Option<(Bytes, Bytes)> {
    if |policies| == 0 then None
    else if HoldsNft(policies[0]) then Some((policies[0].0, FirstOne(policies[0].1.entries).value))
    else FirstNftIn(policies[1..])
  }

  /** Nothing is found exactly when no policy entry holds an NFT; what is
      found comes from an entry that does. */
  lemma {:induction false} FirstNftInFinds(policies: seq<(Bytes, Shape)>)
    ensures FirstNftIn(policies).None? <==> forall i :: 0 <= i < |policies| ==> !HoldsNft(policies[i])
    ensures FirstNftIn(policies).Some? ==>
              exists i :: 0 <= i < |policies| && HoldsNft(policies[i]) &&
                          FirstNftIn(policies).value == (policies[i].0, FirstOne(policies[i].1.entries).value)
  {
    if |policies| > 0 && !HoldsNft(policies[0]) {
      FirstNftInFinds(policies[1..]);
      assert forall i :: 0 <= i < |policies| - 1 ==> policies[1..][i] == policies[i + 1];
      if FirstNftIn(policies).Some? {
        var i :| 0 <= i < |policies[1..]| && HoldsNft(policies[1..][i]) &&
                 FirstNftIn(policies).value == (policies[1..][i].0, FirstOne(policies[1..][i].1.entries).value);
        assert policies[i + 1] == policies[1..][i];
      }
    }
  }

  /** The (policy id, token name) `find_nft_in_value` returns: the first
      amount 1 under a non-lovelace policy, in iteration order; none for a
      value that is not a mapping. */
  function FirstNft(value: Shape): Option<(Bytes, Bytes)> {
    if value.MapVal? then FirstNftIn(value.entries) else None
  }

  /** `find_nft_in_value`: the two nested scans with their early return. */
  method FindNftInValue(value: Shape) returns (r: Option<(Bytes, Bytes)>)
    ensures r == FirstNft(value)
  {
    if !value.MapVal? {
      return None;
    }
    var items := value.entries;
    var i := 0;
    while i < |items|
      invariant 0 <= i <= |items|
      invariant FirstNftIn(items) == FirstNftIn(items[i..])
    {
      assert items[i..][1..] == items[i + 1..];
      var (policyId, tokenMap) := items[i];
      if policyId == Ada || !tokenMap.MapVal? {
        assert !HoldsNft(items[i..][0]);
        i := i + 1;
        continue;
      }
      var tokens := tokenMap.entries;
      var j := 0;
      while j < |tokens|
        invariant 0 <= j <= |tokens|
        invariant FirstOne(tokens) == FirstOne(tokens[j..])
      {
        assert tokens[j..][1..] == tokens[j + 1..];
        if tokens[j].1 == IntVal(1) {
          assert HoldsNft(items[i..][0]);
          return Some((policyId, tokens[j].0));
        }
        j := j + 1;
      }
      assert !HoldsNft(items[i..][0]);
      i := i + 1;
    }
    return None;
  }

  /** On a ledger value: a found pair is a non-lovelace asset held exactly
      once (keys being distinct, as in any dict), and nothing is found exactly
      when no non-lovelace amount is 1. */
  lemma FirstNftOfValue(v: Value)
    ensures FirstNft(ValueShape(v)).None? <==>
              forall i, j :: 0 <= i < |v| && 0 <= j < |v[i].1| && v[i].0 != Ada ==> v[i].1[j].1 != 1
    ensures WellFormed(v) && FirstNft(ValueShape(v)).Some? ==>
              var (p, t) := FirstNft(ValueShape(v)).value; p != Ada && Quantity(v, p, t) == 1
  {
    var s := ValueShape(v);
    FirstNftInFinds(s.entries);
    forall i | 0 <= i < |v| ensures HoldsNft(s.entries[i]) <==> v[i].0 != Ada && exists j :: 0 <= j < |v[i].1| && v[i].1[j].1 == 1 {
      var ts := TokensShape(v[i].1);
      FirstOneFinds(ts);
      if FirstOne(ts).Some? {
        var j :| 0 <= j < |ts| && ts[j] == (FirstOne(ts).value, IntVal(1));
        assert v[i].1[j].1 == 1;
      }
      if exists j :: 0 <= j < |v[i].1| && v[i].1[j].1 == 1 {
        var j :| 0 <= j < |v[i].1| && v[i].1[j].1 == 1;
        assert ts[j].1 == IntVal(1);
      }
    }
    if WellFormed(v) && FirstNft(s).Some? {
      var (p, t) := FirstNft(s).value;
      var i :| 0 <= i < |s.entries| && HoldsNft(s.entries[i]) && (p, t) == (s.entries[i].0, FirstOne(s.entries[i].1.entries).value);
      var ts := TokensShape(v[i].1);
      FirstOneFinds(ts);
      var j :| 0 <= j < |ts| && ts[j] == (t, IntVal(1));
      GetDistinct(v, i);
      GetDistinct(v[i].1, j);
    }
  }

  // ---- the validator -------------------------------------------------------------

  /** The payment the validator demands: the recorded price to the owner for
      a ticket not for resale; otherwise the buyer's `offered` price less the
      royalty to the owner, and the royalty to the royalty address, each in a
      single output. */
  function PaymentVerified(outs: seq<TxOut>, d: TicketDatum, offered: int): bool {
    if d.isForResale == 0 then Paid(outs, d.owner, d.price)
    else Paid(outs, d.owner, offered - d.royaltyAmount) && Paid(outs, d.royaltyAddress, d.royaltyAmount)
  }

  /** The checks on the datum of the output that carries the NFT on. */
  function OutputChecks(buyer: Id, d: TicketDatum, o: TicketDatum): Outcome {
    if o.owner != buyer then Reject("Output datum owner not updated to buyer")
    else if o.eventId != d.eventId then Reject("Event ID mismatch")
    else if o.ticketId != d.ticketId then Reject("Ticket ID mismatch")
    else if o.isForResale != 0 then Reject("Ticket must leave script as non-resale after purchase")
    else Accept
  }

  /** Everything after the NFT of the script input is identified. */
  function NftChecks(outs: seq<TxOut>, addr: Id, red: BuyRedeemer, d: TicketDatum, nft: (PolicyId, TokenName)): Outcome {
    match FindContinuing(outs, addr, nft.0, nft.1)
    case None => Reject("No valid output with NFT found at script")
    case Some(out) =>
      if out.datum.None? then Reject("Output datum missing on NFT output")
      else if OutputChecks(red.buyer, d, out.datum.value).Reject? then OutputChecks(red.buyer, d, out.datum.value)
      else if !PaymentVerified(outs, d, red.offeredPrice) then
        Reject("Payment to owner/royalty missing or insufficient")
      else Accept
  }

  /** Every message the validator can reject with: its assertion messages,
      and the model's reasons where the source raises without one. */
  const Messages: set<string> := {
    "Redeemer must be BuyRedeemer",
    "Invalid redeemer action",
    "Buyer signature missing",
    "Input datum missing",
    "No input found at script",
    "No NFT found in script input",
    "No valid output with NFT found at script",
    "Output datum missing on NFT output",
    "Output datum owner not updated to buyer",
    "Event ID mismatch",
    "Ticket ID mismatch",
    "Ticket must leave script as non-resale after purchase",
    "Payment to owner/royalty missing or insufficient"}

  /** The validator's decision. */
  function Verdict(ctx: Context, ownDatum: Option<TicketDatum>): (r: Outcome)
    ensures r.Reject? ==> r.reason in Messages
  {
    var tx := ctx.transaction;
    if !ctx.redeemer.Buy? then Reject("Redeemer must be BuyRedeemer")
    else if ctx.redeemer.redeemer.action != BuyBytes then Reject("Invalid redeemer action")
    else if ctx.redeemer.redeemer.buyer !in tx.signatories then Reject("Buyer signature missing")
    else if ownDatum.None? then Reject("Input datum missing")
    else
      match FirstInputAt(tx.inputs, ctx.ownAddress)
      case None => Reject("No input found at script")
      case Some(ownInput) =>
        match FirstNft(ValueShape(ownInput.resolved.value))
        case None => Reject("No NFT found in script input")
        case Some(nft) => NftChecks(tx.outputs, ctx.ownAddress, ctx.redeemer.redeemer, ownDatum.value, nft)
  }

  /** The loop over the outputs that stops at the first one at the script
      holding the NFT once. */
  method FindNftOutput(outs: seq<TxOut>, scriptAddress: Id, policyId: PolicyId, tokenName: TokenName)
    returns (r: Option<TxOut>)
    ensures r == FindContinuing(outs, scriptAddress, policyId, tokenName)
  {
    var i := 0;
    while i < |outs|
      invariant 0 <= i <= |outs|
      invariant forall j :: 0 <= j < i ==> !Continues(outs[j], scriptAddress, policyId, tokenName)
    {
      var tokenCount := Quantity(outs[i].value, policyId, tokenName);
      if tokenCount == 1 && outs[i].address == scriptAddress {
        FindContinuingAt(outs, i, scriptAddress, policyId, tokenName);
        return Some(outs[i]);
      }
      i := i + 1;
    }
    return None;
  }

  /** The payment loops: a single scan with break for a ticket not for
      resale; a full scan keeping the owner and royalty flags otherwise. */
  method VerifyPayment(outs: seq<TxOut>, inputDatum: TicketDatum, offered: int) returns (paymentVerified: bool)
    ensures paymentVerified == PaymentVerified(outs, inputDatum, offered)
  {
    paymentVerified := false;
    if inputDatum.isForResale == 0 {
      var requiredAmount := inputDatum.price;
      var k := 0;
      while k < |outs|
        invariant 0 <= k <= |outs|
        invariant !paymentVerified
        invariant forall j :: 0 <= j < k ==> !PaysAtLeast(outs[j], inputDatum.owner, requiredAmount)
      {
        if outs[k].address == inputDatum.owner {
          ExtractLovelaceReadsAda(outs[k].value);
          var lovelaceAmt := ExtractLovelace(AdaEntry(outs[k].value));
          if lovelaceAmt >= requiredAmount {
            paymentVerified := true;
            break;
          }
        }
        k := k + 1;
      }
    } else {
      var royaltyNeeded := inputDatum.royaltyAmount;
      var ownerExpectedMin := offered - royaltyNeeded;
      var ownerPaymentOk, royaltyPaymentOk := false, false;
      var k := 0;
      while k < |outs|
        invariant 0 <= k <= |outs|
        invariant ownerPaymentOk <==> exists j :: 0 <= j < k && PaysAtLeast(outs[j], inputDatum.owner, ownerExpectedMin)
        invariant royaltyPaymentOk <==> exists j :: 0 <= j < k && PaysAtLeast(outs[j], inputDatum.royaltyAddress, royaltyNeeded)
      {
        ExtractLovelaceReadsAda(outs[k].value);
        if outs[k].address == inputDatum.owner {
          var lovelaceAmt := ExtractLovelace(AdaEntry(outs[k].value));
          if lovelaceAmt >= ownerExpectedMin {
            ownerPaymentOk := true;
          }
        }
        if outs[k].address == inputDatum.royaltyAddress {
          var lovelaceAmt := ExtractLovelace(AdaEntry(outs[k].value));
          if lovelaceAmt >= royaltyNeeded {
            royaltyPaymentOk := true;
          }
        }
        k := k + 1;
      }
      paymentVerified := ownerPaymentOk && royaltyPaymentOk;
    }
  }

  /** The validator as the source runs it, one helper call and one check at a time. */
  method Validator(ctx: Context, ownDatum: Option<TicketDatum>) returns (r: Outcome)
    ensures r == Verdict(ctx, ownDatum)
  {
    if !ctx.redeemer.Buy? {
      return Reject("Redeemer must be BuyRedeemer");
    }
    var redeemerObj := ctx.redeemer.redeemer;
    var tx := ctx.transaction;
    if redeemerObj.action != BuyBytes {
      return Reject("Invalid redeemer action");
    }
    if redeemerObj.buyer !in tx.signatories {
      return Reject("Buyer signature missing");
    }
    if ownDatum.None? {
      return Reject("Input datum missing");
    }
    var inputDatum := ownDatum.value;
    var ownInput := FindOwnInput(tx.inputs, ctx.ownAddress);
    if ownInput.None? {
      return Reject("No input found at script");
    }
    var nftIdent := FindNftInValue(ValueShape(ownInput.value.resolved.value));
    if nftIdent.None? {
      return Reject("No NFT found in script input");
    }
    var (policyId, tokenName) := nftIdent.value;
    var nftOutput := FindNftOutput(tx.outputs, ctx.ownAddress, policyId, tokenName);
    if nftOutput.None? {
      return Reject("No valid output with NFT found at script");
    }
    if nftOutput.value.datum.None? {
      return Reject("Output datum missing on NFT output");
    }
    var o := nftOutput.value.datum.value;
    if o.owner != redeemerObj.buyer {
      return Reject("Output datum owner not updated to buyer");
    }
    if o.eventId != inputDatum.eventId {
      return Reject("Event ID mismatch");
    }
    if o.ticketId != inputDatum.ticketId {
      return Reject("Ticket ID mismatch");
    }
    if o.isForResale != 0 {
      return Reject("Ticket must leave script as non-resale after purchase");
    }
    var paymentVerified := VerifyPayment(tx.outputs, inputDatum, redeemerObj.offeredPrice);
    if !paymentVerified {
      return Reject("Payment to owner/royalty missing or insufficient");
    }
    r := Accept;
  }

  // ---- properties ----------------------------------------------------------------

  /** Nothing is accepted unless the redeemer is a BuyRedeemer with action
      b"buy" whose buyer signed, the script's own datum is present, the
      script input carries an NFT, and some output continues the script with
      that NFT. */
  lemma AcceptRequiresSignedBuy(ctx: Context, od: Option<TicketDatum>)
    ensures Verdict(ctx, od) == Accept ==>
              && ctx.redeemer.Buy?
              && ctx.redeemer.redeemer.action == BuyBytes
              && ctx.redeemer.redeemer.buyer in ctx.transaction.signatories
              && od.Some?
              && (exists m :: 0 <= m < |ctx.transaction.inputs| && ctx.transaction.inputs[m].resolved.address == ctx.ownAddress)
              && FirstNft(ValueShape(FirstInputAt(ctx.transaction.inputs, ctx.ownAddress).value.resolved.value)).Some?
              && var nft := FirstNft(ValueShape(FirstInputAt(ctx.transaction.inputs, ctx.ownAddress).value.resolved.value)).value;
                 exists k :: FirstContinuingAt(ctx.transaction.outputs, k, ctx.ownAddress, nft.0, nft.1)
  {
  }

  /** With `inp` the script's own input, `(p, t)` its NFT and `k` the first
      output at the script holding that NFT once, a purchase is accepted
      exactly when it is a signed b"buy", output `k` has a datum whose owner
      is the buyer, whose event and ticket ids are the input's and which is
      not for resale, and the payment is verified. */
  lemma Accepts(ctx: Context, d: TicketDatum, inp: TxInInfo, p: PolicyId, t: TokenName, k: int)
    requires FirstInputAt(ctx.transaction.inputs, ctx.ownAddress) == Some(inp)
    requires FirstNft(ValueShape(inp.resolved.value)) == Some((p, t))
    requires FirstContinuingAt(ctx.transaction.outputs, k, ctx.ownAddress, p, t)
    ensures Verdict(ctx, Some(d)) == Accept <==>
              && ctx.redeemer.Buy?
              && ctx.redeemer.redeemer.action == BuyBytes
              && ctx.redeemer.redeemer.buyer in ctx.transaction.signatories
              && ctx.transaction.outputs[k].datum.Some?
              && ctx.transaction.outputs[k].datum.value.owner == ctx.redeemer.redeemer.buyer
              && ctx.transaction.outputs[k].datum.value.eventId == d.eventId
              && ctx.transaction.outputs[k].datum.value.ticketId == d.ticketId
              && ctx.transaction.outputs[k].datum.value.isForResale == 0
              && PaymentVerified(ctx.transaction.outputs, d, ctx.redeemer.redeemer.offeredPrice)
  {
    FindContinuingAt(ctx.transaction.outputs, k, ctx.ownAddress, p, t);
  }

  /** What an accepted purchase pays: for a ticket not for resale, one output
      pays the owner the recorded price; for a listed one, one output pays the
      owner the offered price less the royalty and one pays the royalty
      address the royalty. */
  lemma AcceptedPays(ctx: Context, d: TicketDatum)
    requires Verdict(ctx, Some(d)) == Accept
    ensures d.isForResale == 0 ==> Paid(ctx.transaction.outputs, d.owner, d.price)
    ensures d.isForResale != 0 ==>
              && Paid(ctx.transaction.outputs, d.owner, ctx.redeemer.redeemer.offeredPrice - d.royaltyAmount)
              && Paid(ctx.transaction.outputs, d.royaltyAddress, d.royaltyAmount)
  {
  }

  /** The payment obligation reads only the addresses and values of the outputs. */
  lemma PaymentSameFunds(outs: seq<TxOut>, outs': seq<TxOut>, d: TicketDatum, offered: int)
    requires |outs| == |outs'|
    requires forall i :: 0 <= i < |outs| ==> outs[i].address == outs'[i].address && outs[i].value == outs'[i].value
    ensures PaymentVerified(outs, d, offered) == PaymentVerified(outs', d, offered)
  {
    PaidSameFunds(outs, outs', d.owner, d.price);
    PaidSameFunds(outs, outs', d.owner, offered - d.royaltyAmount);
    PaidSameFunds(outs, outs', d.royaltyAddress, d.royaltyAmount);
  }

  /** Once the NFT is identified, the checks pass just as well whatever
      price and royalty fields the continuing datum carries. */
  lemma NftChecksIgnoreNewPriceAndRoyalty(outs: seq<TxOut>, addr: Id, red: BuyRedeemer, d: TicketDatum,
                                          p: PolicyId, t: TokenName, k: int,
                                          price: int, royaltyAddress: Id, royaltyAmount: int)
    requires FirstContinuingAt(outs, k, addr, p, t)
    requires NftChecks(outs, addr, red, d, (p, t)) == Accept
    ensures var o := outs[k].datum.value;
            var o' := o.(price := price, royaltyAddress := royaltyAddress, royaltyAmount := royaltyAmount);
            NftChecks(outs[k := outs[k].(datum := Some(o'))], addr, red, d, (p, t)) == Accept
  {
    FindContinuingAt(outs, k, addr, p, t);
    var o := outs[k].datum.value;
    var o' := o.(price := price, royaltyAddress := royaltyAddress, royaltyAmount := royaltyAmount);
    var outs' := outs[k := outs[k].(datum := Some(o'))];
    assert FirstContinuingAt(outs', k, addr, p, t);
    FindContinuingAt(outs', k, addr, p, t);
    assert OutputChecks(red.buyer, d, o') == OutputChecks(red.buyer, d, o);
    PaymentSameFunds(outs, outs', d, red.offeredPrice);
  }

  /** Once the own input and its NFT are fixed, a signed b"buy" is decided
      by the checks after the NFT is identified. */
  lemma VerdictByNftChecks(ctx: Context, d: TicketDatum, inp: TxInInfo, p: PolicyId, t: TokenName)
    requires FirstInputAt(ctx.transaction.inputs, ctx.ownAddress) == Some(inp)
    requires FirstNft(ValueShape(inp.resolved.value)) == Some((p, t))
    requires ctx.redeemer.Buy? && ctx.redeemer.redeemer.action == BuyBytes
    requires ctx.redeemer.redeemer.buyer in ctx.transaction.signatories
    ensures Verdict(ctx, Some(d)) == NftChecks(ctx.transaction.outputs, ctx.ownAddress, ctx.redeemer.redeemer, d, (p, t))
  {
  }

  /** The price, royalty address and royalty amount written into the new
      datum are not checked: an accepted purchase stays accepted whatever
      values the buyer puts there. */
  lemma PriceAndRoyaltyUnconstrained(ctx: Context, d: TicketDatum, inp: TxInInfo, p: PolicyId, t: TokenName, k: int,
                                     o: TicketDatum, price: int, royaltyAddress: Id, royaltyAmount: int)
    requires FirstInputAt(ctx.transaction.inputs, ctx.ownAddress) == Some(inp)
    requires FirstNft(ValueShape(inp.resolved.value)) == Some((p, t))
    requires FirstContinuingAt(ctx.transaction.outputs, k, ctx.ownAddress, p, t)
    requires ctx.transaction.outputs[k].datum == Some(o)
    requires Verdict(ctx, Some(d)) == Accept
    ensures var o' := o.(price := price, royaltyAddress := royaltyAddress, royaltyAmount := royaltyAmount);
            var outs' := ctx.transaction.outputs[k := ctx.transaction.outputs[k].(datum := Some(o'))];
            Verdict(ctx.(transaction := ctx.transaction.(outputs := outs')), Some(d)) == Accept
  {
    var tx := ctx.transaction;
    var outs := tx.outputs;
    var red := ctx.redeemer.redeemer;
    assert ctx.redeemer.Buy? && red.action == BuyBytes && red.buyer in tx.signatories
           && NftChecks(outs, ctx.ownAddress, red, d, (p, t)) == Accept by {
      AcceptRequiresSignedBuy(ctx, Some(d));
      VerdictByNftChecks(ctx, d, inp, p, t);
    }
    var o' := o.(price := price, royaltyAddress := royaltyAddress, royaltyAmount := royaltyAmount);
    var outs' := outs[k := outs[k].(datum := Some(o'))];
    assert NftChecks(outs', ctx.ownAddress, red, d, (p, t)) == Accept by {
      NftChecksIgnoreNewPriceAndRoyalty(outs, ctx.ownAddress, red, d, p, t, k, price, royaltyAddress, royaltyAmount);
    }
    var ctx' := ctx.(transaction := tx.(outputs := outs'));
    assert ctx'.transaction.inputs == tx.inputs && ctx'.transaction.signatories == tx.signatories;
    VerdictByNftChecks(ctx', d, inp, p, t);
  }

  /** For a listed ticket the recorded price plays no part in the checks
      after the NFT is identified. */
  lemma NftChecksIgnoreListedPrice(outs: seq<TxOut>, addr: Id, red: BuyRedeemer, d: TicketDatum,
                                   nft: (PolicyId, TokenName), price: int)
    requires d.isForResale != 0
    ensures NftChecks(outs, addr, red, d, nft) == NftChecks(outs, addr, red, d.(price := price), nft)
  {
    assert PaymentVerified(outs, d, red.offeredPrice) == PaymentVerified(outs, d.(price := price), red.offeredPrice);
    match FindContinuing(outs, addr, nft.0, nft.1)
    case None =>
    case Some(out) =>
      if out.datum.Some? {
        assert OutputChecks(red.buyer, d, out.datum.value) == OutputChecks(red.buyer, d.(price := price), out.datum.value);
      }
  }

  /** For a listed ticket the recorded price plays no part in the decision. */
  lemma ResaleIgnoresListedPrice(ctx: Context, d: TicketDatum, price: int)
    requires d.isForResale != 0
    ensures Verdict(ctx, Some(d)) == Verdict(ctx, Some(d.(price := price)))
  {
    if ctx.redeemer.Buy? {
      var tx := ctx.transaction;
      match FirstInputAt(tx.inputs, ctx.ownAddress)
      case None =>
      case Some(inp) =>
        match FirstNft(ValueShape(inp.resolved.value))
        case None =>
        case Some(nft) =>
          NftChecksIgnoreListedPrice(tx.outputs, ctx.ownAddress, ctx.redeemer.redeemer, d, nft, price);
    }
  }

  /** The owner's share of a resale is whatever the buyer's declared price
      leaves after the royalty: declaring the royalty itself leaves the owner
      owed nothing. */
  lemma BuyerSetsOwnerShare(outs: seq<TxOut>, d: TicketDatum)
    requires d.isForResale != 0
    ensures PaymentVerified(outs, d, d.royaltyAmount) ==
            (Paid(outs, d.owner, 0) && Paid(outs, d.royaltyAddress, d.royaltyAmount))
  {
  }

  /** When the owner is also the royalty address, a single output can settle
      both shares of a resale. */
  lemma OneOutputPaysBoth(outs: seq<TxOut>, d: TicketDatum, offered: int, k: int)
    requires d.isForResale != 0 && d.owner == d.royaltyAddress
    requires 0 <= k < |outs| && outs[k].address == d.owner
    requires Lovelace(outs[k].value) >= offered - d.royaltyAmount && Lovelace(outs[k].value) >= d.royaltyAmount
    ensures PaymentVerified(outs, d, offered)
  {
    assert PaysAtLeast(outs[k], d.owner, offered - d.royaltyAmount);
    assert PaysAtLeast(outs[k], d.royaltyAddress, d.royaltyAmount);
  }
}
