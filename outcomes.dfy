/** Result values for fallible external calls, and the record of which calls a run made. */
module Outcomes {

  datatype Option<+T> = None | Some(value: T)

  /** What an external call produced: a value, or the message of the error it threw. */
  datatype Result<+T> = Ok(value: T) | Err(message: string)

  /** The external calls the webhook handler can make, one constructor per collaborator call. */
  datatype Call =
    | RetrieveCustomer   // payment processor: fetch the session's customer
    | ListContacts       // accounting system: list contacts
    | CreateContact      // accounting system: create one contact
    | CreateInvoice      // accounting system: create one invoice
    | CreateDocument     // document-signing system: create a document from a template
    | SendDocument       // document-signing system: send it for signature
    | AddTransaction     // document store: append a transaction record

  /** The outcome of one step: its result, the collaborator's state after it, and the calls it made, in order. */
  datatype Step<+T, +S> = Step(result: Result<T>, state: S, calls: seq<Call>)
}
