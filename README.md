# Seatmint ticket validators in Dafny

This project models the on-chain validators of the seatmint NFT ticket
marketplace. The marketplace runs on a UTXO ledger. Each ticket is an NFT
held at a script address, next to a `TicketDatum` record giving its event,
its owner, its price, whether it is listed for resale, and the royalty owed
on a resale. Four kinds of validator judge a proposed transaction:

- minting policies decide whether ticket NFTs may be minted;
- primary-sale validators let a buyer take a ticket from the organizer
  against payment;
- a resale validator lets an owner list a ticket ("list") and a buyer take
  it ("buy") against payment to the seller and to the royalty address;
- a stand-alone sale validator covers both a primary sale and a resale at a
  price the buyer declares.

Every source variant is modelled separately, as written. Each validator is
a function `Verdict` that returns `Accept` or `Reject(reason)`, using the
source's assertion message as the reason. Validators whose source is a
sequence of loops and assertions also get a method `Validator`. That method
runs the same loops with their flags and early exits, and is proved equal
to `Verdict`. The properties are lemmas about `Verdict`:

- acceptance conditions in both directions;
- the fields a transition may and may not change;
- payment obligations and their boundaries;
- independence from unrelated outputs;
- agreement between the text-tag and byte-tag variants;
- a list-then-buy lifecycle.

Modules:

- `Wrappers`, `Primitives` and `Dicts`: options, outcomes, bytes, Python
  truthiness and prefix tests, and Python dicts as association lists. The
  first entry with a key wins, so the source's iteration order is kept.
- `Datums` and `Redeemers`: the record types of `datums.py` and
  `redeemers.py`.
- `Ledger`: values, outputs, transactions and the script context. It also
  holds the continuing-output search and the payment scans that the spending
  validators share.
- `ResaleStr` (`resale.py`) and `Resale` (`Resale.py`).
- `PrimarySaleStr` (`primary_sale.py`) and `BuildPrimarySale` (`build_primary_sale.py`).
- `PrimarySale` (`PrimarySale.py`).
- `BuildMintingPolicy` (`build_minting_policy.py`), `MintingPolicyStr`
  (`minting_policy.py`) and `MintingPolicy` (`MintingPolicy.py`).

Three facts about the code shape the model:

- Every search takes the first match and never checks uniqueness. This
  holds for the own input, the continuing output and the NFT. So
  `FindContinuing`, `FirstInputAt` and `FirstNft` return the first one.
- The supply cap sees only the current transaction's mint. It is compared
  against `total_tickets`.
- `datums.py` declares `is_for_resale` a `bool`. `Resale.py`,
  `build_primary_sale.py` and `PrimarySale.py` test it as an int. The model
  uses one int field, with Python truthiness (`IntTruthy`) where the source
  tests truthiness.

## Model

| member | source | states |
|---|---|---|
| Dicts.GetFinds | packages/contracts/resale.py:17 | a dict lookup finds nothing exactly when the key is absent, and otherwise finds the value of the first entry holding the key |
| Dicts.GetDistinct | packages/contracts/resale.py:17 | with distinct keys, looking up the key of any entry finds that entry's value |
| Primitives.Latin1Injective | packages/contracts/Resale.py:52 | the text and byte encodings of an action tag are equal exactly when the texts are equal |
| Ledger.PurposeConstrId | packages/contracts/build_minting_policy.py:50 | a purpose has constructor index 0 exactly when it is Minting |
| Ledger.FindContinuing | packages/contracts/resale.py:16-20 | no continuing output is found exactly when no output sits at the script address holding exactly one unit of the ticket NFT; a found output is the first such output |
| Ledger.FindContinuingAt | packages/contracts/resale.py:16-20 | when output k is the first continuing one, the search returns output k |
| Ledger.ScanContinuing | packages/contracts/resale.py:15-19 | the output loop with its break yields the datum of the first continuing output |
| Ledger.FindContinuingSkips | packages/contracts/primary_sale.py:25-29 | inserting an output that does not continue the script does not change which output is found |
| Ledger.ScanPayment | packages/contracts/resale.py:50-56 | the flag loop with its break sets the flag exactly when some single output pays the address at least the amount |
| Ledger.PaidSkips | packages/contracts/primary_sale.py:42-47 | an inserted output at another address does not change whether a payment is found |
| Ledger.PaidSameFunds | packages/contracts/PrimarySale.py:155-163 | outputs with the same addresses and values satisfy the same payment checks, whatever their datums |
| ResaleStr.Verdict | packages/contracts/resale.py:6-69 | every rejection carries one of the validator's assertion messages, or the model's reason for a missing own datum; the decision is the first failing assertion's message, or Accept |
| ResaleStr.Validator | packages/contracts/resale.py:6-69 | the validator's loops and assertions give exactly the decision `Verdict` |
| ResaleStr.RejectsWithoutContinuing | packages/contracts/resale.py:16-20 | with no continuing output, every action is rejected with "No valid output found" |
| ResaleStr.ListAccepts | packages/contracts/resale.py:22-33 | a "list" is accepted exactly when the owner signed, the new datum is truthily listed at the redeemer's new price, and owner, event id, ticket id and both royalty fields are unchanged |
| ResaleStr.BuyAccepts | packages/contracts/resale.py:35-66 | a "buy" is accepted exactly when the ticket is listed, some signatory is non-empty, the new datum clears the flag and changes the owner but keeps every other field, one output pays the seller the price, and one output pays the royalty address the royalty |
| ResaleStr.BuyIgnoresWhoSigned | packages/contracts/resale.py:40 | a "buy" binds no buyer: replacing the signatories with any list that has a non-empty entry leaves the decision unchanged |
| ResaleStr.OnlyListAndBuy | packages/contracts/resale.py:68-69 | every other action is rejected, including the "cancel" documented for the redeemer; with the own datum and a continuing output present the reason is "Invalid redeemer action" |
| Resale.Verdict | packages/contracts/Resale.py:38-90 | every rejection carries one of the validator's assertion messages, or the model's reason for a missing own datum; the decision is the first failing assertion's message, or Accept |
| Resale.Validator | packages/contracts/Resale.py:38-90 | the validator's loops and assertions give exactly the decision `Verdict` |
| Resale.ListAccepts | packages/contracts/Resale.py:52-60 | a b"list" is accepted exactly when the owner signed and the new datum is the old one with the redeemer's price and a non-zero flag |
| Resale.BuyAccepts | packages/contracts/Resale.py:62-87 | a b"buy" is accepted exactly when the ticket is listed, some signatory is non-empty, the new datum is the old one with a different owner and a zero flag, and the seller and the royalty address are each paid by one output |
| Resale.RejectsWithoutContinuing | packages/contracts/Resale.py:44-50 | with no continuing output every action is rejected, with "No valid output found" once the own datum is present |
| Resale.OnlyListAndBuy | packages/contracts/Resale.py:89-90 | tags other than b"list" and b"buy" are rejected; with the own datum and a continuing output present the reason is "Invalid redeemer action" |
| Resale.ListThenBuy | packages/contracts/Resale.py:52-71 | an accepted listing followed by an accepted purchase yields an unlisted ticket with a new owner, the listed price, and the original event id, ticket id and royalty fields |
| Resale.AgreesWithTextTags | packages/contracts/resale.py:22-69 | the text-tag validator decides every transaction as the byte-tag one does once the tag is encoded, so its truthiness tests agree with the explicit `!= 0` / `== 0` tests |
| PrimarySaleStr.Verdict | packages/contracts/primary_sale.py:6-48 | every rejection carries one of the validator's assertion messages, or the model's reason for a missing own datum; the decision is the first failing assertion's message, or Accept |
| PrimarySaleStr.Validator | packages/contracts/primary_sale.py:6-48 | the validator's loops and assertions give exactly the decision `Verdict` |
| PrimarySaleStr.RejectsUnlessUnlistedBuySignedByBuyer | packages/contracts/primary_sale.py:13-19 | a tag other than "buy", a listed ticket, or missing buyer signature is rejected |
| PrimarySaleStr.RejectsWithoutContinuing | packages/contracts/primary_sale.py:25-29 | with no continuing output every sale is rejected, with "No valid output found" once a signed "buy" of an unlisted ticket has passed the gates |
| PrimarySaleStr.DatumChecksAccept | packages/contracts/primary_sale.py:32-38 | the datum assertions pass exactly when the new datum is the old one with only the owner replaced by the buyer |
| PrimarySaleStr.Accepts | packages/contracts/primary_sale.py:21-48 | a sale is accepted exactly when it is a signed "buy" of an unlisted ticket, the continuing datum is the old one with the owner replaced by the buyer, and one output pays the old owner at least the price |
| PrimarySaleStr.IgnoresUnrelatedOutputs | packages/contracts/primary_sale.py:25-29 | inserting an output that neither continues the script nor pays the owner leaves the decision unchanged |
| PrimarySaleStr.PaymentBoundary | packages/contracts/primary_sale.py:41-48 | a payment of exactly the price is accepted, and one lovelace less is rejected with "Payment to organizer not found or insufficient" |
| BuildPrimarySale.Verdict | packages/contracts/build_primary_sale.py:38-71 | every rejection carries one of the validator's assertion messages, or the model's reason for a missing own datum; the decision is the first failing assertion's message, or Accept |
| BuildPrimarySale.Validator | packages/contracts/build_primary_sale.py:38-71 | the validator's loops and assertions give exactly the decision `Verdict` |
| BuildPrimarySale.RejectsUnlessUnlistedBuySignedByBuyer | packages/contracts/build_primary_sale.py:43-45 | a tag other than b"buy", a ticket with a non-zero flag, or a missing buyer signature is rejected |
| BuildPrimarySale.RejectsWithoutContinuing | packages/contracts/build_primary_sale.py:49-54 | a transaction with no continuing output is rejected, with "No valid output found" once a signed b"buy" of an unlisted ticket has passed the gates |
| BuildPrimarySale.Accepts | packages/contracts/build_primary_sale.py:43-71 | a sale is accepted exactly when it is a signed b"buy" of an unlisted ticket, the continuing datum is the old one with only the owner set to the buyer, and one output pays the old owner at least the price |
| BuildPrimarySale.AgreesWithTextTags | packages/contracts/primary_sale.py:13-48 | the text-tag primary sale decides every transaction as the byte-tag one does once the tag is encoded |
| PrimarySale.ExtractLovelaceReadsAda | packages/contracts/PrimarySale.py:35-59 | applied to `value.get(b"", 0)`, `extract_lovelace` returns the ledger's lovelace amount: the int under b"" when the token map holds one, otherwise 0 |
| PrimarySale.FirstInputAt | packages/contracts/PrimarySale.py:61-66 | no input is found exactly when none sits at the script address; a found input is the first one there |
| PrimarySale.FindOwnInput | packages/contracts/PrimarySale.py:61-66 | the loop with its early return yields the first input at the script address |
| PrimarySale.FirstOneFinds | packages/contracts/PrimarySale.py:81-86 | no token is found exactly when no amount is the int 1; a found name has amount 1 |
| PrimarySale.FirstNftInFinds | packages/contracts/PrimarySale.py:76-87 | no NFT is found exactly when no non-lovelace policy entry holds an amount of 1; a found pair comes from such an entry |
| PrimarySale.FindNftInValue | packages/contracts/PrimarySale.py:68-87 | the nested loops with their skips and early return yield the first NFT in iteration order, and none for a value that is not a mapping |
| PrimarySale.FirstNftOfValue | packages/contracts/PrimarySale.py:68-87 | on a ledger value, nothing is found exactly when no non-lovelace amount is 1; with distinct keys, a found pair (p, t) has p different from b"" and quantity 1 |
| PrimarySale.FindNftOutput | packages/contracts/PrimarySale.py:113-123 | the output loop with its break yields the first output at the script address holding the NFT once |
| PrimarySale.VerifyPayment | packages/contracts/PrimarySale.py:132-165 | the two payment paths set the flag exactly when the payment obligation `PaymentVerified` holds |
| PrimarySale.Verdict | packages/contracts/PrimarySale.py:91-167 | every rejection carries one of the validator's assertion messages; the decision is the first failing assertion's message, or Accept |
| PrimarySale.Validator | packages/contracts/PrimarySale.py:91-167 | the validator's helper calls, loops and assertions give exactly the decision `Verdict` |
| PrimarySale.AcceptRequiresSignedBuy | packages/contracts/PrimarySale.py:93-109 | acceptance needs a BuyRedeemer with tag b"buy" whose buyer signed, the own datum, an input at the script address, an NFT in that input, and an output at the script holding that NFT once |
| PrimarySale.Accepts | packages/contracts/PrimarySale.py:112-167 | with the own input, its NFT and the first output holding it fixed, a purchase is accepted exactly when it is a signed b"buy" whose output datum names the buyer, keeps event id and ticket id, has a zero flag, and the payment obligation holds |
| PrimarySale.AcceptedPays | packages/contracts/PrimarySale.py:136-165 | an accepted sale of an unlisted ticket pays the owner the price; an accepted resale pays the owner the offered price less the royalty and pays the royalty address the royalty |
| PrimarySale.PaymentSameFunds | packages/contracts/PrimarySale.py:132-165 | the payment obligation reads only the addresses and values of the outputs, never their datums |
| PrimarySale.NftChecksIgnoreNewPriceAndRoyalty | packages/contracts/PrimarySale.py:125-130 | once the NFT is identified, the checks accept whatever price, royalty address and royalty amount the continuing datum carries |
| PrimarySale.PriceAndRoyaltyUnconstrained | packages/contracts/PrimarySale.py:125-130 | an accepted purchase stays accepted whatever price, royalty address and royalty amount the new datum carries |
| PrimarySale.VerdictByNftChecks | packages/contracts/PrimarySale.py:93-123 | once the own input and its NFT are fixed, a signed b"buy" is decided by the output-datum and payment checks alone |
| PrimarySale.NftChecksIgnoreListedPrice | packages/contracts/PrimarySale.py:145-165 | for a listed ticket, once the NFT is identified, the recorded price does not affect the checks |
| PrimarySale.ResaleIgnoresListedPrice | packages/contracts/PrimarySale.py:145-165 | for a listed ticket the recorded price does not affect the decision |
| PrimarySale.BuyerSetsOwnerShare | packages/contracts/PrimarySale.py:149-151 | declaring the royalty itself as the offered price leaves the owner owed nothing beyond some output of at least 0 |
| PrimarySale.OneOutputPaysBoth | packages/contracts/PrimarySale.py:155-165 | when the owner is the royalty address, one output large enough for both shares meets the resale payment |
| BuildMintingPolicy.Verdict | packages/contracts/build_minting_policy.py:43-67 | every rejection carries one of the policy's assertion messages; the decision is the first failing assertion's message, or Accept |
| BuildMintingPolicy.Validator | packages/contracts/build_minting_policy.py:43-67 | the checks plus the loop that accumulates `total_minted` give exactly the decision `Verdict` |
| Ledger.CheckTokensAccepts | packages/contracts/build_minting_policy.py:61-63 | the token loop passes exactly when every name starts with the event id and every amount is 1 |
| BuildMintingPolicy.TotalMintedCounts | packages/contracts/build_minting_policy.py:60-64 | when every amount is 1, the total minted is the number of token names |
| BuildMintingPolicy.Accepts | packages/contracts/build_minting_policy.py:43-67 | a mint is accepted exactly when it has a MintRedeemer with tag b"mint", a Minting purpose, the datum's event id and the organizer's signature, and under the purpose's policy only event-prefixed names, each minted once, at most `total_tickets` of them, with one policy in the mint |
| BuildMintingPolicy.AcceptedMintIsOwnPolicy | packages/contracts/build_minting_policy.py:58-67 | with distinct keys, an accepted mint that mints anything consists of the own policy's entry alone |
| BuildMintingPolicy.AbsentPolicyMintsNothing | packages/contracts/build_minting_policy.py:58 | a policy absent from the mint gives no tokens and a total of 0, and acceptance then rests on the remaining checks |
| BuildMintingPolicy.CapOfTwo | packages/contracts/build_minting_policy.py:66 | for an event of two tickets, two tickets are accepted and three are rejected with "Exceeds total tickets allowed" |
| BuildMintingPolicy.PurposeIsNotMintingUnreached | packages/contracts/build_minting_policy.py:50-51 | a purpose other than Minting is refused by the constructor-index check, so the isinstance check after it is never the one that rejects |
| MintingPolicyStr.MintedItems | packages/contracts/minting_policy.py:30 | `minted.items()` has one entry per policy id, in order, and none of its entries is the int 1, so none can pass `amount == 1` |
| MintingPolicyStr.Verdict | packages/contracts/minting_policy.py:6-32 | every rejection carries one of the policy's assertion messages, or the model's reason for a missing event record; the decision is the first failing assertion's message, or Accept |
| MintingPolicyStr.CheckItemsAccepts | packages/contracts/minting_policy.py:30-32 | the loop passes exactly when every key starts with the event id and every value is the int 1 |
| MintingPolicyStr.AcceptsOnlyEmptyMint | packages/contracts/minting_policy.py:12-32 | as written, a signed "mint" for the datum's event is accepted exactly when nothing is minted; otherwise the first mint entry is rejected |
| MintingPolicyStr.RefusesOneTicket | packages/contracts/minting_policy.py:30-32 | one correctly named ticket minted once is refused |
| MintingPolicyStr.NoCapNoPolicy | packages/contracts/minting_policy.py:16-32 | neither `total_tickets` nor the policy id affects the decision |
| MintingPolicyStr.IntendedAccepts | packages/contracts/minting_policy.py:24-32 | the corrected policy accepts a signed "mint" for the datum's event exactly when every token under the own policy is event-prefixed and minted once |
| MintingPolicyStr.IntendedAcceptsOneTicket | packages/contracts/minting_policy.py:29-32 | the corrected policy accepts the ticket the written one refuses |
| MintingPolicy.VerdictFor | packages/contracts/MintingPolicy.py:8-35 | with any fixed signatory, every rejection carries one of the policy's assertion messages, or the model's reason for a policy absent from the mint; the decision is the first failing assertion's message, or Accept |
| MintingPolicy.Verdict | packages/contracts/MintingPolicy.py:8-35 | the policy with the hard-coded signatory rejects only with those messages |
| MintingPolicy.AcceptsFor | packages/contracts/MintingPolicy.py:8-35 | a transaction is accepted exactly when the purpose is Minting, the signatory signed, and the own policy forges exactly one token name whose amount is 1 for action 1 or negative for action 2 |
| MintingPolicy.RejectsOtherActions | packages/contracts/MintingPolicy.py:34-35 | any action other than 1 and 2 is rejected |
| MintingPolicy.RequiredSignerLength | packages/contracts/MintingPolicy.py:9-10 | the hard-coded signatory is 57 bytes long |
| MintingPolicy.NeverAcceptsKeyHashSigners | packages/contracts/MintingPolicy.py:9-20 | as written, a transaction whose signatories are all 28-byte key hashes is always rejected |
| MintingPolicy.PaymentKeyHash | packages/contracts/MintingPolicy.py:9 | the embedded payment key hash is 28 bytes and sits after the one-byte header of the hard-coded value |
| MintingPolicy.IntendedAcceptsSignedMint | packages/contracts/MintingPolicy.py:20-31 | with the payment key hash as signatory, a signed mint of one token is accepted, and the written policy refuses the same transaction |

## Left out

- Opshin prelude plumbing: `own_datum`, `own_datum_unsafe` and `from_primitive` are not modelled. Each validator takes the decoded own datum as a parameter. A missing or ill-typed datum is `None` and is rejected.
- In `PrimarySale.py`, an output datum that is present but is not a `TicketDatum` makes `from_primitive` fail. The model represents it as a missing datum, and the rejection "Output datum missing on NFT output" stands for that failure.
- The on-chain byte encoding of records (constructor indices) is not modelled. A Python `isinstance` test on a redeemer is a local sum type. The purpose's index is `Ledger.PurposeConstrId`.
- The `try: int(...)` coercions in `extract_lovelace` and `find_nft_in_value` are abstracted. Values are `IntVal`, `MapVal` or `OtherVal`. A mapping never converts to an int, and `OtherVal` stands for every other object, which is never taken as 1.
- `PrimarySale.ExtractLovelace` reads an `OtherVal` under b"" as 0, although Python's `int()` converts some objects there (digit strings, bytes, floats, bools). On a ledger value this path is unreachable: `AdaEntry` yields only `IntVal` or `MapVal`.
- The hexadecimal decoding in `MintingPolicy.py` is not modelled; the constant `MintingPolicy.RequiredSigner` holds the decoded bytes.
- A `mint[policy_id]` lookup that raises `KeyError` becomes a rejection with the model's own reason text.
- Supply is not tracked across transactions, because no source file does so. Each cap check sees only the current mint.
- Ledger behaviour is not modelled: atomicity, several validators per transaction, fees and coin selection.
- A minting policy normally runs only when its policy id appears in the mint. `BuildMintingPolicy.AbsentPolicyMintsNothing` states what the code alone does in that case.
- Addresses and key hashes are one identifier type, so an output address can be compared directly with a key hash, as the source does.
- Lovelace is read through one function, `Ledger.Lovelace`. The on-chain mismatch, where `value.get(b"", 0)` returns a token map, is abstracted. `PrimarySale.ExtractLovelaceReadsAda` ties the source's own reader to `Ledger.Lovelace`.
- Dicts are association lists, and duplicate keys can be written down. Lemmas that need Python's distinct keys require `DistinctKeys` or `WellFormed`.
- Text and byte strings are separate types. A text tag compares equal only to text; `Latin1` links the two for the agreement lemmas.
- Integers are unbounded, as in Plutus, so there is no overflow to model.
- `datums.py` and `redeemers.py` declare records only. Their properties are carried by the types in `Datums` and `Redeemers` and by the lemmas of the validators that use them.
- Where `redeemers.py` documents "cancel", `ResaleStr.OnlyListAndBuy` covers it.

## Findings

| source | as written | input that shows it | evidently intended | confidence | as-written member | corrected member |
|---|---|---|---|---|---|---|
| packages/contracts/minting_policy.py:30-32 | the loop runs over the whole mint map, so each `amount` is a token map and `amount == 1` never holds | a signed "mint" of one ticket `[7, 1]` with amount 1 under the policy, for event `[7]` | loop over the tokens minted under `policy_id` and require each name to carry the event prefix and amount 1 | not executed | MintingPolicyStr.RefusesOneTicket | MintingPolicyStr.IntendedAccepts |
| packages/contracts/MintingPolicy.py:9-10 | the hard-coded signatory decodes to 57 bytes (a base address), so it can never be a 28-byte key hash among the signatories | any transaction whose signatories are key hashes, e.g. one signed by the address's own payment key hash minting one token | require the payment key hash embedded in that address (bytes 1 to 28) | not executed | MintingPolicy.NeverAcceptsKeyHashSigners | MintingPolicy.IntendedAcceptsSignedMint |
