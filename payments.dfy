/** The payment processor's objects, as the handler reads them. */
module Payments {
  import opened Outcomes

  /** The event type the handler acts on; every other type is acknowledged and ignored. */
  const CHECKOUT_COMPLETED: string := "checkout.session.completed"

  /** A customer record: metadata values are strings, and an absent key reads as undefined. */
  datatype Customer = Customer(
    id: string,
    name: string,
    email: string,
    phone: string,
    metadata: map<string, string>)

  /** The completed checkout session carried by the event; the amount is in minor units. */
  datatype Session = Session(
    id: string,
    customerRef: string,
    amountTotal: int,
    currency: string)

  datatype Event = Event(eventType: string, session: Session)

  /**
   * `metadata[key] || null`: a metadata value is kept only when it is truthy. For a
   * string value the falsy cases are an absent key (undefined) and the empty string.
   */
  function MetadataValue(metadata: map<string, string>, key: string): (v: Option<string>)
    ensures v.None? <==> key !in metadata || metadata[key] == ""
    ensures v.Some? ==> key in metadata && v.value == metadata[key] && v.value != ""
  {
    if key in metadata && metadata[key] != "" then Some(metadata[key]) else None
  }
}
