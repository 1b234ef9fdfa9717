/** The state records attached to ledger outputs. */
module Datums {
  import opened Primitives

  /** Event terms, written once by the organizer. `ticketPrice` is in lovelace;
      `royaltyPercentage` is in basis points (500 stands for 5%). */
  datatype EventDatum = EventDatum(
    organizer: Bytes,
    eventId: Bytes,
    eventName: Bytes,
    totalTickets: int,
    ticketPrice: int,
    royaltyPercentage: int)

  /** The state carried by the output that holds a ticket NFT. `price` and
      `royaltyAmount` are lovelace amounts; `isForResale` is an int whose zero
      means "not listed". The shared record type declares that field a bool;
      here True is any non-zero int, which is how Python tests it. */
  datatype TicketDatum = TicketDatum(
    eventId: Bytes,
    ticketId: Bytes,
    owner: Bytes,
    price: int,
    isForResale: int,
    royaltyAddress: Bytes,
    royaltyAmount: int)

  /** The ticket is listed for resale. */
  predicate Listed(d: TicketDatum) {
    IntTruthy(d.isForResale)
  }
}
