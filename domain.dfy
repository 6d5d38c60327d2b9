/** The store-side entities the notification handler reads and writes. */
module Domain {
  import opened Common

  /** Nop.Core.Domain.Payments.PaymentStatus. */
  datatype PaymentStatus = Pending | Authorized | Paid | PartiallyRefunded | Refunded | Voided

  /** Nop.Core.Domain.Orders.OrderStatus. */
  datatype OrderStatus = Pending | Processing | Complete | Cancelled

  /** The text of an order note: a literal, or the shipment-deadline narrative, kept as
      the facts it reports (the manufacturer with the longest delivery window, that
      window's name, and the deadline day) rather than as rendered prose. */
  datatype NoteText =
    | Plain(text: string)
    | ShipmentNarrative(manufacturer: string, deliveryDateName: string, deadline: int)

  /** OrderNote: text, DisplayToCustomer and CreatedOnUtc (a clock reading in ticks). */
  datatype OrderNote = OrderNote(note: NoteText, displayToCustomer: bool, createdOnUtc: int)

  /** The localized name of a product's delivery date, such as "5 a 10 dias úteis". */
  datatype DeliveryDate = DeliveryDate(name: string)

  /** What the shipment narrative needs of an order line: the delivery date of its product
      (None when the shipping service finds none for the product's DeliveryDateId) and the
      name of the product's first manufacturer (None when it has none). */
  datatype OrderItem = OrderItem(deliveryDate: Option<DeliveryDate>, manufacturer: Option<string>)

  /** The two results PaymentReturn gives back to the gateway: HTTP 200 and HTTP 500. */
  datatype HttpStatus = OK | InternalServerError
}
