/** minting_policy.py: the ticket minting policy built on the shared record
    types. It checks the action, the event id against the event record and
    the organizer's signature, then walks the whole mint field. */
module MintingPolicyStr {
  import opened Wrappers
  import opened Primitives
  import opened Dicts
  import opened Datums
  import opened Redeemers
  import opened Ledger

  type Context = ScriptContext<MintRedeemer<string>>

  /** The rejection when `own_datum_unsafe` finds no event record (the
      prelude raises; it has no message of its own). */
  const NoEventDatum: string := "own datum missing or not an EventDatum"

  /** The message when an amount is not the int 1. */
  const NotOne: string := "Must mint exactly one token per NFT"

  /** What the loop body sees as `amount`: Python compares it with the int
      1 whatever it is, and only an int can equal 1. */
  datatype Amount = IntAmount(n: int) | MapAmount(tokens: TokenMap)

  /** The loop over `(token_name, amount)` pairs: the first entry whose name
      does not start with the prefix, or whose amount is not the int 1,
      decides the rejection. */
  function CheckItems(items: seq<(Bytes, Amount)>, prefix: Bytes): (r: Outcome)
    ensures r.Reject? ==> r.reason == "Invalid token name" || r.reason == NotOne
  {
    if |items| == 0 then Accept
    else if !StartsWith(items[0].0, prefix) then Reject("Invalid token name")
    else if items[0].1 != IntAmount(1) then Reject(NotOne)
    else CheckItems(items[1..], prefix)
  }

  /** The loop passes exactly when every name starts with the prefix and
      every amount is the int 1. */
  lemma {:induction false} CheckItemsAccepts(items: seq<(Bytes, Amount)>, prefix: Bytes)
    ensures CheckItems(items, prefix) == Accept <==>
              forall i :: 0 <= i < |items| ==> StartsWith(items[i].0, prefix) && items[i].1 == IntAmount(1)
  {
    if |items| > 0 {
      CheckItemsAccepts(items[1..], prefix);
      assert forall i :: 0 <= i < |items| - 1 ==> items[1..][i] == items[i + 1];
    }
  }

  /** `minted.items()`: the policy ids, each paired with its token map. No
      entry is the int 1, so every entry fails the loop's amount test. */
  function MintedItems(minted: Value): (items: seq<(Bytes, Amount)>)
    ensures |items| == |minted|
    ensures forall i :: 0 <= i < |items| ==> items[i].0 == minted[i].0 && items[i].1 != IntAmount(1)
  {
    seq(|minted|, i requires 0 <= i < |minted| => (minted[i].0, MapAmount(minted[i].1)))
  }

  /** Every message the validator can reject with: its assertion messages,
      and the model's reasons where the source raises without one. */
  const Messages: set<string> := {
    "Invalid redeemer action",
    NoEventDatum,
    "Invalid event ID",
    "Organizer signature missing",
    "Invalid token name",
    NotOne}

  /** The policy's decision; `ownDatum` is the event record the prelude
      finds, if any. */
  function Verdict(ctx: Context, ownDatum: Option<EventDatum>): (r: Outcome)
    ensures r.Reject? ==> r.reason in Messages
  {
    var red := ctx.redeemer;
    if red.action != MintText then Reject("Invalid redeemer action")
    else if ownDatum.None? then Reject(NoEventDatum)
    else if red.eventId != ownDatum.value.eventId then Reject("Invalid event ID")
    else if ownDatum.value.organizer !in ctx.transaction.signatories then Reject("Organizer signature missing")
    else CheckItems(MintedItems(ctx.transaction.mint), red.eventId)
  }

  /** As written, the loop lets nothing through: once the preliminary checks
      pass, the policy accepts exactly the transactions that mint nothing,
      and any entry is refused. */
  lemma AcceptsOnlyEmptyMint(ctx: Context, od: Option<EventDatum>)
    ensures Verdict(ctx, od) == Accept <==>
              && ctx.redeemer.action == MintText
              && od.Some?
              && ctx.redeemer.eventId == od.value.eventId
              && od.value.organizer in ctx.transaction.signatories
              && ctx.transaction.mint == []
    ensures Verdict(ctx, od).Reject? && |ctx.transaction.mint| > 0 && ctx.redeemer.action == MintText && od.Some? &&
            ctx.redeemer.eventId == od.value.eventId && od.value.organizer in ctx.transaction.signatories ==>
              Verdict(ctx, od).reason ==
                (if StartsWith(ctx.transaction.mint[0].0, ctx.redeemer.eventId) then NotOne
                 else "Invalid token name")
  {
    CheckItemsAccepts(MintedItems(ctx.transaction.mint), ctx.redeemer.eventId);
  }

  /** The concrete counterexample: one ticket, correctly named and minted
      once under the policy, is refused. */
  lemma RefusesOneTicket(organizer: Id, policy: PolicyId)
    ensures var event := EventDatum(organizer, [7], [], 100, 10, 500);
            var ctx := ScriptContext(Tx([], [], [organizer], [(policy, [([7, 1], 1)])]),
                                     MintRedeemer(MintText, [7]), Minting(policy), [], policy, []);
            Verdict(ctx, Some(event)).Reject?
  {
  }

  /** Neither the ticket total nor the policy id plays any part. */
  lemma NoCapNoPolicy(ctx: Context, e: EventDatum, total: int, policy: PolicyId, purpose: Purpose)
    ensures Verdict(ctx, Some(e)) == Verdict(ctx.(ownPolicyId := policy, purpose := purpose), Some(e.(totalTickets := total)))
  {
  }

  // ---- the evidently intended policy -------------------------------------------

  /** The loop run over `minted.get(policy_id, {})`, which the source's
      unused `policy_id` and its comment ("all minted tokens belong to this
      policy and match event_id") call for. */
  function IntendedVerdict(ctx: Context, ownDatum: Option<EventDatum>): (r: Outcome)
    ensures r.Reject? ==> r.reason in Messages
  {
    var red := ctx.redeemer;
    if red.action != MintText then Reject("Invalid redeemer action")
    else if ownDatum.None? then Reject(NoEventDatum)
    else if red.eventId != ownDatum.value.eventId then Reject("Invalid event ID")
    else if ownDatum.value.organizer !in ctx.transaction.signatories then Reject("Organizer signature missing")
    else CheckTokens(GetOr(ctx.transaction.mint, ctx.ownPolicyId, []), red.eventId, NotOne)
  }

  /** The corrected policy accepts a signed "mint" for the record's event
      exactly when every token under the own policy is named after the event
      and minted once. */
  lemma IntendedAccepts(ctx: Context, od: Option<EventDatum>)
    ensures IntendedVerdict(ctx, od) == Accept <==>
              && ctx.redeemer.action == MintText
              && od.Some?
              && ctx.redeemer.eventId == od.value.eventId
              && od.value.organizer in ctx.transaction.signatories
              && var tokens := GetOr(ctx.transaction.mint, ctx.ownPolicyId, []);
                 forall i :: 0 <= i < |tokens| ==> StartsWith(tokens[i].0, od.value.eventId) && tokens[i].1 == 1
  {
    CheckTokensAccepts(GetOr(ctx.transaction.mint, ctx.ownPolicyId, []), ctx.redeemer.eventId, NotOne);
  }

  /** The corrected policy admits the ticket the written one refuses. */
  lemma IntendedAcceptsOneTicket(organizer: Id, policy: PolicyId)
    ensures var event := EventDatum(organizer, [7], [], 100, 10, 500);
            var ctx := ScriptContext(Tx([], [], [organizer], [(policy, [([7, 1], 1)])]),
                                     MintRedeemer(MintText, [7]), Minting(policy), [], policy, []);
            IntendedVerdict(ctx, Some(event)) == Accept
  {
    assert StartsWith([7, 1], [7]);
  }
}
