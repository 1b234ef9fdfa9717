/** The abstract ledger every validator reads: multi-asset values, outputs,
    the proposed transaction and the script context. Addresses and key
    hashes are one identifier type, because the validators compare an
    output's address directly with a key hash from a datum. */
module Ledger {
  import opened Wrappers
  import opened Primitives
  import opened Dicts
  import opened Datums

  type Id = Bytes
  type PolicyId = Bytes
  type TokenName = Bytes
  type TokenMap = Dict<TokenName, int>

  /** policy id -> token name -> quantity (negative in a mint field means burn). */
  type Value = Dict<PolicyId, TokenMap>

  /** The policy id and token name under which lovelace is held. */
  const Ada: Bytes := []

  /** A value whose maps, at both levels, have distinct keys. */
  predicate WellFormed(v: Value) {
    DistinctKeys(v) && forall i :: 0 <= i < |v| ==> DistinctKeys(v[i].1)
  }

  /** `v.get(policy, {}).get(token, 0)`. */
  function Quantity(v: Value, policy: PolicyId, token: TokenName): int {
    GetOr(GetOr(v, policy, []), token, 0)
  }

  /** A value of `n` lovelace and nothing else. */
  function Coins(n: int): (v: Value)
    ensures Lovelace(v) == n
  {
    [(Ada, [(Ada, n)])]
  }

  /** A value holding one unit of a non-lovelace token and nothing else. */
  function Nft(policy: PolicyId, token: TokenName): (v: Value)
    requires policy != Ada
    ensures Quantity(v, policy, token) == 1 && Lovelace(v) == 0
  {
    var v := [(policy, [(token, 1)])];
    assert Get(v[1..], Ada) == None;
    v
  }

  /** The lovelace held in a value; absent means 0. */
  function Lovelace(v: Value): int {
    Quantity(v, Ada, Ada)
  }

  /** A transaction output; a datum that is missing or is not a ticket
      record is `None`. */
  datatype TxOut = TxOut(address: Id, value: Value, datum: Option<TicketDatum>)

  /** A consumed input, as the output it spends. */
  datatype TxInInfo = TxInInfo(resolved: TxOut)

  datatype Tx = Tx(inputs: seq<TxInInfo>, outputs: seq<TxOut>, signatories: seq<Id>, mint: Value)

  /** Why the script runs. */
  datatype Purpose = Minting(policyId: PolicyId) | Spending | Rewarding | Certifying

  /** The constructor index of a purpose in its on-chain encoding. */
  function PurposeConstrId(p: Purpose): (n: nat)
    ensures n == 0 <==> p.Minting?
  {
    match p
    case Minting(_) => 0
    case Spending => 1
    case Rewarding => 2
    case Certifying => 3
  }

  /** What a validator sees. `ownPolicyId` and `ownTokenName` name the ticket
      NFT the spending validators follow. */
  datatype ScriptContext<R> = ScriptContext(
    transaction: Tx,
    redeemer: R,
    purpose: Purpose,
    ownAddress: Id,
    ownPolicyId: PolicyId,
    ownTokenName: TokenName)

  /** The same context with another redeemer. */
  function WithRedeemer<R, S>(ctx: ScriptContext<R>, r: S): ScriptContext<S>
  {
    ScriptContext(ctx.transaction, r, ctx.purpose, ctx.ownAddress, ctx.ownPolicyId, ctx.ownTokenName)
  }

  /** The rejection when `own_datum_unsafe` finds no ticket record on the
      spent output (the prelude raises; it has no message of its own). */
  const NoOwnDatum: string := "own datum missing or not a TicketDatum"

  // ---- the continuing output -------------------------------------------------

  /** The output sits at `addr` and holds exactly one unit of (policy, token). */
  predicate Continues(o: TxOut, addr: Id, policy: PolicyId, token: TokenName) {
    o.address == addr && Quantity(o.value, policy, token) == 1
  }

  /** `k` is the first continuing output. */
  ghost predicate FirstContinuingAt(outs: seq<TxOut>, k: int, addr: Id, policy: PolicyId, token: TokenName) {
    0 <= k < |outs| && Continues(outs[k], addr, policy, token) &&
    forall j :: 0 <= j < k ==> !Continues(outs[j], addr, policy, token)
  }

  /** The first output that continues the script with the NFT. */
  function FindContinuing(outs: seq<TxOut>, addr: Id, policy: PolicyId, token: TokenName): (r: Option<TxOut>)
    ensures r.None? <==> forall j :: 0 <= j < |outs| ==> !Continues(outs[j], addr, policy, token)
    ensures r.Some? ==> exists k :: FirstContinuingAt(outs, k, addr, policy, token) && outs[k] == r.value
  {
    if |outs| == 0 then None
    else if Continues(outs[0], addr, policy, token) then
      assert FirstContinuingAt(outs, 0, addr, policy, token);
      Some(outs[0])
    else
      var r := FindContinuing(outs[1..], addr, policy, token);
      assert forall j :: 0 <= j < |outs| - 1 ==> outs[1..][j] == outs[j + 1];
      assert r.Some? ==> exists k :: FirstContinuingAt(outs[1..], k, addr, policy, token) && outs[1..][k] == r.value;
      assert forall k :: FirstContinuingAt(outs[1..], k, addr, policy, token) ==> FirstContinuingAt(outs, k + 1, addr, policy, token);
      r
  }

  /** The first continuing output is the one at any index that is first. */
  lemma FindContinuingAt(outs: seq<TxOut>, k: int, addr: Id, policy: PolicyId, token: TokenName)
    requires FirstContinuingAt(outs, k, addr, policy, token)
    ensures FindContinuing(outs, addr, policy, token) == Some(outs[k])
  {
    var r := FindContinuing(outs, addr, policy, token);
    assert r.Some?;
    var k' :| FirstContinuingAt(outs, k', addr, policy, token) && outs[k'] == r.value;
    assert k' == k;
  }

  /** `output_datum`: the datum of the first continuing output, `None` when
      there is no such output or it carries no ticket record. */
  function ContinuingDatum(outs: seq<TxOut>, addr: Id, policy: PolicyId, token: TokenName): Option<TicketDatum> {
    match FindContinuing(outs, addr, policy, token)
    case None => None
    case Some(o) => o.datum
  }

  /** The search loop of the spending validators: take the datum of the
      first output at `addr` holding exactly one (policy, token), then stop. */
  method ScanContinuing(outs: seq<TxOut>, addr: Id, policy: PolicyId, token: TokenName)
    returns (outputDatum: Option<TicketDatum>)
    ensures outputDatum == ContinuingDatum(outs, addr, policy, token)
  {
    outputDatum := None;
    var i := 0;
    while i < |outs|
      invariant 0 <= i <= |outs|
      invariant forall j :: 0 <= j < i ==> !Continues(outs[j], addr, policy, token)
      invariant outputDatum == None
    {
      if outs[i].address == addr && Quantity(outs[i].value, policy, token) == 1 {
        outputDatum := outs[i].datum;
        FindContinuingAt(outs, i, addr, policy, token);
        return;
      }
      i := i + 1;
    }
  }

  /** Outputs that do not continue the script do not move the search. */
  lemma {:induction false} FindContinuingSkips(a: seq<TxOut>, o: TxOut, b: seq<TxOut>, addr: Id, policy: PolicyId, token: TokenName)
    requires !Continues(o, addr, policy, token)
    ensures FindContinuing(a + [o] + b, addr, policy, token) == FindContinuing(a + b, addr, policy, token)
  {
    if a == [] {
      assert a + [o] + b == [o] + b;
      assert ([o] + b)[1..] == b;
      assert a + b == b;
    } else {
      assert (a + [o] + b)[0] == a[0] && (a + b)[0] == a[0];
      assert (a + [o] + b)[1..] == a[1..] + [o] + b;
      assert (a + b)[1..] == a[1..] + b;
      FindContinuingSkips(a[1..], o, b, addr, policy, token);
    }
  }

  // ---- payments ----------------------------------------------------------------

  /** The output pays `addr` at least `amount` lovelace. */
  predicate PaysAtLeast(o: TxOut, addr: Id, amount: int) {
    o.address == addr && Lovelace(o.value) >= amount
  }

  /** Some single output pays `addr` at least `amount` lovelace. */
  predicate Paid(outs: seq<TxOut>, addr: Id, amount: int) {
    exists i :: 0 <= i < |outs| && PaysAtLeast(outs[i], addr, amount)
  }

  /** The payment loop of the spending validators: set a flag at the first
      output to `addr` with enough lovelace, then stop. */
  method ScanPayment(outs: seq<TxOut>, addr: Id, amount: int) returns (found: bool)
    ensures found == Paid(outs, addr, amount)
  {
    found := false;
    var i := 0;
    while i < |outs|
      invariant 0 <= i <= |outs|
      invariant !found
      invariant forall j :: 0 <= j < i ==> !PaysAtLeast(outs[j], addr, amount)
    {
      if outs[i].address == addr {
        var lovelace := Lovelace(outs[i].value);
        if lovelace >= amount {
          found := true;
          break;
        }
      }
      i := i + 1;
    }
  }

  /** Outputs to other addresses do not affect a payment test. */
  lemma PaidSkips(a: seq<TxOut>, o: TxOut, b: seq<TxOut>, addr: Id, amount: int)
    requires o.address != addr
    ensures Paid(a + [o] + b, addr, amount) == Paid(a + b, addr, amount)
  {
    var s, t := a + [o] + b, a + b;
    if Paid(s, addr, amount) {
      var i :| 0 <= i < |s| && PaysAtLeast(s[i], addr, amount);
      var i' := if i < |a| then i else i - 1;
      assert t[i'] == s[i];
    }
    if Paid(t, addr, amount) {
      var i :| 0 <= i < |t| && PaysAtLeast(t[i], addr, amount);
      var i' := if i < |a| then i else i + 1;
      assert s[i'] == t[i];
    }
  }

  /** Outputs with the same addresses and values pay the same, whatever their datums. */
  lemma PaidSameFunds(outs: seq<TxOut>, outs': seq<TxOut>, addr: Id, amount: int)
    requires |outs| == |outs'|
    requires forall i :: 0 <= i < |outs| ==> outs[i].address == outs'[i].address && outs[i].value == outs'[i].value
    ensures Paid(outs, addr, amount) == Paid(outs', addr, amount)
  {
    if Paid(outs, addr, amount) {
      var i :| 0 <= i < |outs| && PaysAtLeast(outs[i], addr, amount);
      assert PaysAtLeast(outs'[i], addr, amount);
    }
    if Paid(outs', addr, amount) {
      var i :| 0 <= i < |outs'| && PaysAtLeast(outs'[i], addr, amount);
      assert PaysAtLeast(outs[i], addr, amount);
    }
  }

  // ---- minted tickets ------------------------------------------------------------

  /** The minting policies' per-token loop in iteration order: the first
      token whose name does not start with the prefix, or whose amount is not
      1, decides the rejection; `notOne` is the policy's message for the
      amount. */
  function CheckTokens(tokens: TokenMap, prefix: Bytes, notOne: string): (r: Outcome)
    ensures r.Reject? ==> r.reason == "Invalid token name" || r.reason == notOne
  {
    if |tokens| == 0 then Accept
    else if !StartsWith(tokens[0].0, prefix) then Reject("Invalid token name")
    else if tokens[0].1 != 1 then Reject(notOne)
    else CheckTokens(tokens[1..], prefix, notOne)
  }

  /** The token checks pass exactly when every name starts with the prefix
      and every amount is 1. */
  lemma {:induction false} CheckTokensAccepts(tokens: TokenMap, prefix: Bytes, notOne: string)
    ensures CheckTokens(tokens, prefix, notOne) == Accept <==>
              forall i :: 0 <= i < |tokens| ==> StartsWith(tokens[i].0, prefix) && tokens[i].1 == 1
  {
    if |tokens| > 0 {
      CheckTokensAccepts(tokens[1..], prefix, notOne);
      assert forall i :: 0 <= i < |tokens| - 1 ==> tokens[1..][i] == tokens[i + 1];
    }
  }
}
