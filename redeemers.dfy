/** The action payloads submitted with a transaction. The shared record
    definitions tag actions with text strings; the self-contained validator
    files redeclare the same records with byte-string tags, so each record is
    generic in its tag type. */
module Redeemers {
  import opened Primitives

  /** Mint the tickets of `eventId`; the action is "mint". */
  datatype MintRedeemer<Tag> = MintRedeemer(action: Tag, eventId: Bytes)

  /** Buy a ticket for `buyer`; the action is "buy". */
  datatype BuyRedeemer<Tag> = BuyRedeemer(action: Tag, buyer: Bytes)

  /** List a ticket at `newPrice` lovelace; the action is documented as
      "list" or "cancel". */
  datatype ResellRedeemer<Tag> = ResellRedeemer(action: Tag, newPrice: int)

  const MintText: string := "mint"
  const BuyText: string := "buy"
  const ListText: string := "list"

  /** b"mint", b"buy", b"list". */
  const MintBytes: Bytes := Latin1(MintText)
  const BuyBytes: Bytes := Latin1(BuyText)
  const ListBytes: Bytes := Latin1(ListText)
}
