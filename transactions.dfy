/** The document store's append-only `transactions` collection (`storeTransaction`). */
module Transactions {
  import opened Outcomes
  import opened Payments

  const PAYMENT_STATUS: string := "completed"
  const SQUADRON_KEY: string := "squadronId"
  const PCP_KEY: string := "pcpAssigned"

  /** One stored transaction; the server timestamp is not modelled. */
  datatype TransactionRecord = TransactionRecord(
    customerId: string,
    customerEmail: string,
    amount: int,
    currency: string,
    paymentStatus: string,
    stripeSessionId: string,
    xeroInvoiceId: string,
    pandaDocContractId: string,
    squadronId: Option<string>,
    pcpAssigned: Option<string>)

  /** The record of a processed payment. */
  function BuildRecord(c: Customer, s: Session, invoiceId: string, contractId: string): TransactionRecord
  {
    TransactionRecord(
      c.id, c.email, s.amountTotal, s.currency, PAYMENT_STATUS, s.id, invoiceId, contractId,
      MetadataValue(c.metadata, SQUADRON_KEY), MetadataValue(c.metadata, PCP_KEY))
  }

  /** `storeTransaction`: append the record (`adding` is the new record's id, or the error). */
  function Store(records: seq<TransactionRecord>, c: Customer, s: Session, invoiceId: string, contractId: string,
                 adding: Result<string>): Step<string, seq<TransactionRecord>>
  {
    match adding
    case Err(m) => Step(Err(m), records, [AddTransaction])
    case Ok(id) => Step(Ok(id), records + [BuildRecord(c, s, invoiceId, contractId)], [AddTransaction])
  }

  /**
   * The record is marked completed, carries the customer's id and email, the
   * session's id, amount and currency, and the two ids it is given; a metadata
   * value that is absent or empty becomes null.
   */
  lemma RecordFields(c: Customer, s: Session, invoiceId: string, contractId: string)
    ensures var r := BuildRecord(c, s, invoiceId, contractId);
            && r.paymentStatus == "completed"
            && r.customerId == c.id && r.customerEmail == c.email
            && r.stripeSessionId == s.id && r.amount == s.amountTotal && r.currency == s.currency
            && r.xeroInvoiceId == invoiceId && r.pandaDocContractId == contractId
            && (r.squadronId.None? <==> "squadronId" !in c.metadata || c.metadata["squadronId"] == "")
            && (r.squadronId.Some? ==> r.squadronId.value == c.metadata["squadronId"])
            && (r.pcpAssigned.None? <==> "pcpAssigned" !in c.metadata || c.metadata["pcpAssigned"] == "")
            && (r.pcpAssigned.Some? ==> r.pcpAssigned.value == c.metadata["pcpAssigned"])
  {
  }

  /** The collection only grows: a store appends the one record or, failing, leaves it as it was. */
  lemma StoreAppendOnly(records: seq<TransactionRecord>, c: Customer, s: Session, invoiceId: string,
                        contractId: string, adding: Result<string>)
    ensures var o := Store(records, c, s, invoiceId, contractId, adding);
            && o.state[..|records|] == records
            && (o.result.Ok? <==> adding.Ok?)
            && (adding.Err? ==> o.result == Err(adding.message) && o.state == records)
            && (adding.Ok? ==> o.state == records + [BuildRecord(c, s, invoiceId, contractId)])
  {
  }

  /** The `transactions` collection. */
  class TransactionStore {
    var records: seq<TransactionRecord>

    constructor (initial: seq<TransactionRecord>)
      ensures records == initial
    {
      records := initial;
    }

    /** `collection('transactions').add`: on success the record is appended and its id returned. */
    method Add(rec: TransactionRecord, reply: Result<string>) returns (r: Result<string>)
      modifies this
      ensures reply.Err? ==> r == Err(reply.message) && records == old(records)
      ensures reply.Ok? ==> r == Ok(reply.value) && records == old(records) + [rec]
    {
      match reply
      case Err(m) =>
        r := Err(m);
      case Ok(id) =>
        records := records + [rec];
        r := Ok(id);
    }
  }

  /** `storeTransaction`: build the record and append it. */
  method StoreTransaction(db: TransactionStore, c: Customer, s: Session, invoiceId: string, contractId: string,
                          adding: Result<string>)
    returns (r: Result<string>, ghost calls: seq<Call>)
    modifies db
    ensures Step(r, db.records, calls) == Store(old(db.records), c, s, invoiceId, contractId, adding)
  {
    calls := [AddTransaction];
    r := db.Add(BuildRecord(c, s, invoiceId, contractId), adding);
  }
}
