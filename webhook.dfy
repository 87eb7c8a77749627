/**
 * The `/webhook/stripe` handler: for a completed checkout it fetches the
 * customer, issues the invoice, dispatches the contract and stores the
 * transaction, strictly in that order; the first failure skips every later
 * step and is answered with 500, everything else with 200.
 */
module Webhook {
  import opened Outcomes
  import opened Payments
  import opened Tiers
  import opened Accounting
  import opened Signing
  import opened Transactions

  /**
   * How the collaborators answer the calls of one delivery: the customer
   * lookup for the session's customer reference, and for each other call its
   * fault, or the id the collaborator assigns.
   */
  datatype Replies = Replies(
    retrieveCustomer: Result<Customer>,
    listContacts: Option<string>,
    createContact: Result<string>,
    createInvoice: Result<string>,
    createDocument: Result<string>,
    sendDocument: Option<string>,
    addTransaction: Result<string>)

  datatype Body = Received | ErrorBody(message: string)

  datatype Response = Response(status: int, body: Body)

  /** `200 {received: true}`. */
  const ACK: Response := Response(200, Received)

  /** `500 {error: error.message}`. */
  function Failure(message: string): Response
  {
    Response(500, ErrorBody(message))
  }

  /** The collaborators' states together. */
  datatype World = World(ledger: Ledger, desk: Desk, records: seq<TransactionRecord>)

  /** The handler's answer, the collaborators' states afterwards, and the calls it made. */
  datatype Handled = Handled(response: Response, world: World, calls: seq<Call>)

  /** The handler on one delivery of an event. */
  function Handle(w: World, e: Event, rp: Replies): Handled
  {
    if e.eventType != CHECKOUT_COMPLETED then Handled(ACK, w, [])
    else
      match rp.retrieveCustomer
      case Err(m) => Handled(Failure(m), w, [RetrieveCustomer])
      case Ok(c) =>
        var amount := e.session.amountTotal;
        var inv := Issue(w.ledger, c, amount, rp.listContacts, rp.createContact, rp.createInvoice);
        var w1 := w.(ledger := inv.state);
        var calls1 := [RetrieveCustomer] + inv.calls;
        if inv.result.Err? then Handled(Failure(inv.result.message), w1, calls1)
        else
          var doc := Dispatch(w.desk, c, amount, rp.createDocument, rp.sendDocument);
          var w2 := w1.(desk := doc.state);
          var calls2 := calls1 + doc.calls;
          if doc.result.Err? then Handled(Failure(doc.result.message), w2, calls2)
          else
            var st := Store(w.records, c, e.session, inv.result.value.invoiceId, doc.result.value.id,
                            rp.addTransaction);
            var w3 := w2.(records := st.state);
            var calls3 := calls2 + st.calls;
            if st.result.Err? then Handled(Failure(st.result.message), w3, calls3)
            else Handled(ACK, w3, calls3)
  }

  /** The error message the replies give the call, if the call fails. */
  function FailureOf(rp: Replies, call: Call): Option<string>
  {
    match call
    case RetrieveCustomer => if rp.retrieveCustomer.Err? then Some(rp.retrieveCustomer.message) else None
    case ListContacts => rp.listContacts
    case CreateContact => if rp.createContact.Err? then Some(rp.createContact.message) else None
    case CreateInvoice => if rp.createInvoice.Err? then Some(rp.createInvoice.message) else None
    case CreateDocument => if rp.createDocument.Err? then Some(rp.createDocument.message) else None
    case SendDocument => rp.sendDocument
    case AddTransaction => if rp.addTransaction.Err? then Some(rp.addTransaction.message) else None
  }

  /** Every call of a complete run, in order; `create` when the contact had to be created. */
  function Pipeline(create: bool): seq<Call>
  {
    [RetrieveCustomer, ListContacts] + (if create then [CreateContact] else [])
      + [CreateInvoice, CreateDocument, SendDocument, AddTransaction]
  }

  /** An event of any other type makes no call, changes nothing and is acknowledged. */
  lemma IgnoresOtherEvents(w: World, e: Event, rp: Replies)
    requires e.eventType != "checkout.session.completed"
    ensures Handle(w, e, rp) == Handled(Response(200, Received), w, [])
  {
  }

  /** The calls a completed checkout makes are a prefix of the fixed step order. */
  lemma CallsFollowPipeline(w: World, e: Event, rp: Replies)
    requires e.eventType == "checkout.session.completed"
    ensures var o := Handle(w, e, rp);
            o.calls <= Pipeline(false) || o.calls <= Pipeline(true)
  {
  }

  /** None of the calls failed. */
  predicate Clean(rp: Replies, calls: seq<Call>)
  {
    forall i :: 0 <= i < |calls| ==> FailureOf(rp, calls[i]).None?
  }

  /** The last call failed with `message`, and it was the first that failed. */
  predicate FailsLast(rp: Replies, calls: seq<Call>, message: string)
  {
    && |calls| > 0
    && FailureOf(rp, calls[|calls| - 1]) == Some(message)
    && Clean(rp, calls[..|calls| - 1])
  }

  /** Clean calls followed by a clean run, or by a run that fails last, keep that property. */
  lemma Concat(rp: Replies, a: seq<Call>, b: seq<Call>, message: string)
    requires Clean(rp, a)
    ensures Clean(rp, b) ==> Clean(rp, a + b)
    ensures FailsLast(rp, b, message) ==> FailsLast(rp, a + b, message)
  {
  }

  /** A step either runs clean and succeeds, or fails with the message of its last call. */
  predicate Accounts<T, S>(rp: Replies, o: Step<T, S>)
  {
    (o.result.Ok? ==> Clean(rp, o.calls)) && (o.result.Err? ==> FailsLast(rp, o.calls, o.result.message))
  }

  lemma IssueAccounts(l: Ledger, c: Customer, amount: int, rp: Replies)
    ensures Accounts(rp, Issue(l, c, amount, rp.listContacts, rp.createContact, rp.createInvoice))
  {
  }

  lemma DispatchAccounts(d: Desk, c: Customer, amount: int, rp: Replies)
    ensures Accounts(rp, Dispatch(d, c, amount, rp.createDocument, rp.sendDocument))
  {
  }

  /**
   * Every answer is 200 with no failed call, or 500 carrying the message of the
   * last call made, which was the first to fail.
   */
  lemma HandleAccounts(w: World, e: Event, rp: Replies)
    ensures var o := Handle(w, e, rp);
            && (o.response == Response(200, Received) ==> Clean(rp, o.calls))
            && (o.response != Response(200, Received) ==>
                  o.response.status == 500 && o.response.body.ErrorBody?
                  && FailsLast(rp, o.calls, o.response.body.message))
  {
    if e.eventType == CHECKOUT_COMPLETED && rp.retrieveCustomer.Ok? {
      var c := rp.retrieveCustomer.value;
      var amount := e.session.amountTotal;
      var inv := Issue(w.ledger, c, amount, rp.listContacts, rp.createContact, rp.createInvoice);
      var doc := Dispatch(w.desk, c, amount, rp.createDocument, rp.sendDocument);
      IssueAccounts(w.ledger, c, amount, rp);
      DispatchAccounts(w.desk, c, amount, rp);
      var first := [RetrieveCustomer];
      assert Clean(rp, first);
      Concat(rp, first, inv.calls, if inv.result.Err? then inv.result.message else "");
      if inv.result.Ok? {
        var calls1 := first + inv.calls;
        Concat(rp, calls1, doc.calls, if doc.result.Err? then doc.result.message else "");
        if doc.result.Ok? {
          var calls2 := calls1 + doc.calls;
          var st := Store(w.records, c, e.session, inv.result.value.invoiceId, doc.result.value.id,
                          rp.addTransaction);
          assert Accounts(rp, st);
          Concat(rp, calls2, st.calls, if st.result.Err? then st.result.message else "");
        }
      }
    } else if e.eventType == CHECKOUT_COMPLETED {
      assert Handle(w, e, rp).calls[..0] == [];
    }
  }

  /** Every answer is 200 or 500, and it is 200 exactly when none of the calls made failed. */
  lemma AckIffNoFailure(w: World, e: Event, rp: Replies)
    ensures var o := Handle(w, e, rp);
            && (o.response == Response(200, Received) || o.response.status == 500)
            && (o.response == Response(200, Received) <==>
                  forall i :: 0 <= i < |o.calls| ==> FailureOf(rp, o.calls[i]).None?)
  {
    HandleAccounts(w, e, rp);
  }

  /**
   * A 500 carries the message of the last call made, which failed, all earlier
   * calls succeeded, and no record was stored.
   */
  lemma FirstFailureAborts(w: World, e: Event, rp: Replies)
    ensures var o := Handle(w, e, rp);
            o.response.status == 500 ==>
              && |o.calls| > 0
              && FailureOf(rp, o.calls[|o.calls| - 1]) == Some(o.response.body.message)
              && (forall i :: 0 <= i < |o.calls| - 1 ==> FailureOf(rp, o.calls[i]).None?)
              && o.world.records == w.records
  {
    HandleAccounts(w, e, rp);
    var o := Handle(w, e, rp);
    if o.response.status == 500 {
      assert forall i :: 0 <= i < |o.calls| - 1 ==> o.calls[..|o.calls| - 1][i] == o.calls[i];
    }
  }

  /**
   * A completed checkout answered with 200 made every call in order, appended
   * exactly one invoice, one sent document of the amount's tier and one
   * completed record that carries the two new ids, and the invoice references
   * the resolved contact, a stored contact with the customer's email.
   */
  lemma SuccessRecordsAll(w: World, e: Event, rp: Replies)
    requires e.eventType == "checkout.session.completed"
    requires Handle(w, e, rp).response == Response(200, Received)
    ensures rp.retrieveCustomer.Ok? && rp.createInvoice.Ok? && rp.createDocument.Ok?
    ensures var o := Handle(w, e, rp);
            var c := rp.retrieveCustomer.value;
            var invoiceId := rp.createInvoice.value;
            var documentId := rp.createDocument.value;
            && (o.calls == Pipeline(false) || o.calls == Pipeline(true))
            && |o.world.ledger.invoices| == |w.ledger.invoices| + 1
            && o.world.ledger.invoices[|w.ledger.invoices|].invoiceId == invoiceId
            && o.world.desk.documents == w.desk.documents + [Document(documentId, ContractRequest(c, e.session.amountTotal))]
            && o.world.desk.sent == w.desk.sent + [documentId]
            && o.world.records == w.records + [BuildRecord(c, e.session, invoiceId, documentId)]
            && o.world.records[|w.records|].paymentStatus == "completed"
            && (var r := Resolve(w.ledger, c, rp.listContacts, rp.createContact);
                r.result.Ok? && o.world.ledger.invoices[|w.ledger.invoices|].invoice.contactId == r.result.value.contactId)
            && exists k :: k in o.world.ledger.contacts && k.email == c.email
                           && k.contactId == o.world.ledger.invoices[|w.ledger.invoices|].invoice.contactId
  {
  }

  /** A record is appended only by a completed checkout answered with 200, and at most one. */
  lemma RecordsOnlyOnSuccess(w: World, e: Event, rp: Replies)
    ensures var o := Handle(w, e, rp);
            && (o.world.records == w.records <==> !(e.eventType == "checkout.session.completed" && o.response.status == 200))
            && |w.records| <= |o.world.records| <= |w.records| + 1
  {
  }

  /**
   * When the contract step fails after the invoice was issued, the invoice
   * stays in the accounting system, nothing is stored and the answer is 500
   * with the contract step's message: the handler neither compensates nor
   * records a partial outcome. A failed creation adds no document; a failed
   * send leaves the created document in place, unsent.
   */
  lemma ContractFailureKeepsInvoice(w: World, e: Event, rp: Replies)
    requires e.eventType == "checkout.session.completed"
    requires rp.retrieveCustomer.Ok?
    requires Issue(w.ledger, rp.retrieveCustomer.value, e.session.amountTotal, rp.listContacts, rp.createContact,
                   rp.createInvoice).result.Ok?
    requires rp.createDocument.Err? || rp.sendDocument.Some?
    ensures var o := Handle(w, e, rp);
            && o.response.status == 500
            && |o.world.ledger.invoices| == |w.ledger.invoices| + 1
            && o.world.desk.sent == w.desk.sent
            && o.world.records == w.records
            && (rp.createDocument.Err? ==>
                  o.response == Response(500, ErrorBody(rp.createDocument.message)) && o.world.desk == w.desk)
            && (rp.createDocument.Ok? ==>
                  && o.response == Response(500, ErrorBody(rp.sendDocument.value))
                  && o.world.desk.documents == w.desk.documents
                       + [Document(rp.createDocument.value, ContractRequest(rp.retrieveCustomer.value, e.session.amountTotal))])
  {
  }

  /** Replies under which every call of one delivery succeeds. */
  predicate AllSucceed(rp: Replies)
  {
    && rp.retrieveCustomer.Ok? && rp.listContacts.None? && rp.createContact.Ok? && rp.createInvoice.Ok?
    && rp.createDocument.Ok? && rp.sendDocument.None? && rp.addTransaction.Ok?
  }

  /**
   * The handler does not deduplicate by session: a redelivered event that
   * succeeds twice reuses the contact, but issues a second invoice, dispatches
   * a second contract and stores a second record for the same session.
   */
  lemma RedeliveryRepeatsSideEffects(w: World, e: Event, rp1: Replies, rp2: Replies)
    requires e.eventType == "checkout.session.completed"
    requires AllSucceed(rp1) && AllSucceed(rp2) && rp1.retrieveCustomer == rp2.retrieveCustomer
    ensures var once := Handle(w, e, rp1);
            var twice := Handle(once.world, e, rp2);
            && once.response == Response(200, Received) && twice.response == Response(200, Received)
            && twice.world.ledger.contacts == once.world.ledger.contacts
            && |twice.world.ledger.invoices| == |w.ledger.invoices| + 2
            && |twice.world.desk.sent| == |w.desk.sent| + 2
            && |twice.world.records| == |w.records| + 2
            && twice.world.records[|w.records|].stripeSessionId == e.session.id
            && twice.world.records[|w.records| + 1].stripeSessionId == e.session.id
  {
    var c := rp1.retrieveCustomer.value;
    var amount := e.session.amountTotal;
    var once := Handle(w, e, rp1);
    IssueShape(w.ledger, c, amount, rp1.listContacts, rp1.createContact, rp1.createInvoice);
    var k :| k in once.world.ledger.contacts && k.email == c.email;
    var j :| 0 <= j < |once.world.ledger.contacts| && once.world.ledger.contacts[j] == k;
    ResolveFrame(once.world.ledger, c, rp2.listContacts, rp2.createContact);
    IssueShape(once.world.ledger, c, amount, rp2.listContacts, rp2.createContact, rp2.createInvoice);
  }

  /**
   * A first payment of 500.00 by a new customer: one contact is created, one
   * invoice issued for it, a premium contract sent to the customer's email,
   * and one completed record written for session "s1".
   */
  lemma NewCustomerScenario(w: World, rp: Replies)
    requires AllSucceed(rp)
    requires rp.retrieveCustomer.value.email == "a@x.com"
    requires forall j :: 0 <= j < |w.ledger.contacts| ==> w.ledger.contacts[j].email != "a@x.com"
    ensures var e := Event("checkout.session.completed", Session("s1", "cus_1", 50000, "usd"));
            var o := Handle(w, e, rp);
            var c := rp.retrieveCustomer.value;
            && o.response == Response(200, Received)
            && o.world.ledger.contacts == w.ledger.contacts + [Contact(rp.createContact.value, c.name, "a@x.com", [Phone("MOBILE", c.phone)])]
            && o.world.ledger.invoices == w.ledger.invoices
                 + [IssuedInvoice(rp.createInvoice.value,
                      Invoice("ACCREC", rp.createContact.value, [LineItem("Vision Lake Subscription", 1, 50000, "200")], "AUTHORISED"))]
            && |o.world.desk.documents| == |w.desk.documents| + 1
            && o.world.desk.documents[|w.desk.documents|].request.template == PremiumTemplate
            && o.world.desk.documents[|w.desk.documents|].request.recipients[0].email == "a@x.com"
            && o.world.desk.sent == w.desk.sent + [rp.createDocument.value]
            && |o.world.records| == |w.records| + 1
            && o.world.records[|w.records|].paymentStatus == "completed"
            && o.world.records[|w.records|].stripeSessionId == "s1"
            && o.world.records[|w.records|].xeroInvoiceId == rp.createInvoice.value
            && o.world.records[|w.records|].pandaDocContractId == rp.createDocument.value
  {
  }

  /** The collaborators' states, read off the three systems. */
  function Snapshot(xero: AccountingSystem, panda: SigningSystem, db: TransactionStore): World
    reads xero, panda, db
  {
    World(xero.State(), panda.State(), db.records)
  }

  /** The `/webhook/stripe` handler. */
  method HandleWebhook(xero: AccountingSystem, panda: SigningSystem, db: TransactionStore, e: Event, rp: Replies)
    returns (response: Response, ghost calls: seq<Call>)
    modifies xero, panda, db
    ensures Handled(response, Snapshot(xero, panda, db), calls) == Handle(old(Snapshot(xero, panda, db)), e, rp)
  {
    calls := [];
    if e.eventType == CHECKOUT_COMPLETED {
      var session := e.session;
      calls := [RetrieveCustomer];
      if rp.retrieveCustomer.Err? {
        return Failure(rp.retrieveCustomer.message), calls;
      }
      var customer := rp.retrieveCustomer.value;
      ghost var more;
      var invoice;
      invoice, more := CreateXeroInvoice(xero, customer, session.amountTotal, rp.listContacts, rp.createContact,
                                         rp.createInvoice);
      calls := calls + more;
      if invoice.Err? {
        return Failure(invoice.message), calls;
      }
      var contract;
      contract, more := GeneratePandaDocContract(panda, customer, session.amountTotal, rp.createDocument,
                                                 rp.sendDocument);
      calls := calls + more;
      if contract.Err? {
        return Failure(contract.message), calls;
      }
      var stored;
      stored, more := StoreTransaction(db, customer, session, invoice.value.invoiceId, contract.value.id,
                                       rp.addTransaction);
      calls := calls + more;
      if stored.Err? {
        return Failure(stored.message), calls;
      }
    }
    response := ACK;
  }
}
