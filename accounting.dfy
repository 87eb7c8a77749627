/**
 * The accounting system as the handler uses it: contacts found by email or
 * created, and one invoice issued per payment (`createXeroInvoice`).
 */
module Accounting {
  import opened Outcomes
  import opened Payments

  const PHONE_TYPE: string := "MOBILE"
  const INVOICE_TYPE: string := "ACCREC"
  const LINE_DESCRIPTION: string := "Vision Lake Subscription"
  const ACCOUNT_CODE: string := "200"
  const INVOICE_STATUS: string := "AUTHORISED"

  datatype Phone = Phone(phoneType: string, phoneNumber: string)

  /** A contact as the accounting system lists it; the system assigns `contactId`. */
  datatype Contact = Contact(contactId: string, name: string, email: string, phones: seq<Phone>)

  /** The body of a contact-creation request. */
  datatype ContactRequest = ContactRequest(name: string, email: string, phones: seq<Phone>)

  /** One invoice line; the unit amount is kept in minor units. */
  datatype LineItem = LineItem(description: string, quantity: int, unitAmount: int, accountCode: string)

  datatype Invoice = Invoice(kind: string, contactId: string, lineItems: seq<LineItem>, status: string)

  /** An invoice the accounting system accepted, with the `InvoiceID` it assigned. */
  datatype IssuedInvoice = IssuedInvoice(invoiceId: string, invoice: Invoice)

  /** The accounting system's state that the handler reads or changes. */
  datatype Ledger = Ledger(contacts: seq<Contact>, invoices: seq<IssuedInvoice>)

  /** `contacts.find(c => c.EmailAddress === email)`, as the position of the first match. */
  function FindByEmail(contacts: seq<Contact>, email: string): (i: Option<nat>)
    ensures i.Some? ==> i.value < |contacts| && contacts[i.value].email == email
    ensures i.Some? ==> forall j :: 0 <= j < i.value ==> contacts[j].email != email
    ensures i.None? ==> forall j :: 0 <= j < |contacts| ==> contacts[j].email != email
  {
    if contacts == [] then None
    else if contacts[0].email == email then Some(0)
    else
      match FindByEmail(contacts[1..], email)
      case None => None
      case Some(k) => Some(k + 1)
  }

  /** The new contact built from the customer: name, email and one mobile number. */
  function ContactRequestFor(c: Customer): ContactRequest
  {
    ContactRequest(c.name, c.email, [Phone(PHONE_TYPE, c.phone)])
  }

  /** The contact the accounting system returns for a request it accepted under `id`. */
  function Created(req: ContactRequest, id: string): Contact
  {
    Contact(id, req.name, req.email, req.phones)
  }

  /** The invoice for a payment: one subscription line for the whole amount. */
  function BuildInvoice(contactId: string, amount: int): Invoice
  {
    Invoice(INVOICE_TYPE, contactId, [LineItem(LINE_DESCRIPTION, 1, amount, ACCOUNT_CODE)], INVOICE_STATUS)
  }

  /**
   * Contact resolution: list the contacts (`listing` is the fault the listing
   * call throws, if any), reuse the first one with the customer's email, or else
   * create one (`creation` is the new contact's id, or the creation error).
   */
  function Resolve(l: Ledger, c: Customer, listing: Option<string>, creation: Result<string>): Step<Contact, Ledger>
  {
    if listing.Some? then Step(Err(listing.value), l, [ListContacts])
    else
      match FindByEmail(l.contacts, c.email)
      case Some(i) => Step(Ok(l.contacts[i]), l, [ListContacts])
      case None =>
        match creation
        case Err(m) => Step(Err(m), l, [ListContacts, CreateContact])
        case Ok(id) =>
          var k := Created(ContactRequestFor(c), id);
          Step(Ok(k), l.(contacts := l.contacts + [k]), [ListContacts, CreateContact])
  }

  /** `createXeroInvoice`: resolve the contact, then issue one invoice referencing it (`issuing` is the new id or the error). */
  function Issue(l: Ledger, c: Customer, amount: int, listing: Option<string>, creation: Result<string>,
                 issuing: Result<string>): Step<IssuedInvoice, Ledger>
  {
    var r := Resolve(l, c, listing, creation);
    match r.result
    case Err(m) => Step(Err(m), r.state, r.calls)
    case Ok(k) =>
      match issuing
      case Err(m) => Step(Err(m), r.state, r.calls + [CreateInvoice])
      case Ok(id) =>
        var issued := IssuedInvoice(id, BuildInvoice(k.contactId, amount));
        Step(Ok(issued), r.state.(invoices := r.state.invoices + [issued]), r.calls + [CreateInvoice])
  }

  /** With a matching contact listed, resolution returns the first match and creates nothing. */
  lemma ResolveReusesFirstMatch(l: Ledger, c: Customer, creation: Result<string>, i: nat)
    requires i < |l.contacts| && l.contacts[i].email == c.email
    requires forall j :: 0 <= j < i ==> l.contacts[j].email != c.email
    ensures Resolve(l, c, None, creation) == Step(Ok(l.contacts[i]), l, [ListContacts])
  {
  }

  /**
   * With no matching contact, resolution creates exactly one contact carrying the
   * customer's name, email and a single mobile number, appends it and uses it.
   */
  lemma ResolveCreatesMissing(l: Ledger, c: Customer, id: string)
    requires forall j :: 0 <= j < |l.contacts| ==> l.contacts[j].email != c.email
    ensures var k := Contact(id, c.name, c.email, [Phone("MOBILE", c.phone)]);
            Resolve(l, c, None, Ok(id)) == Step(Ok(k), Ledger(l.contacts + [k], l.invoices), [ListContacts, CreateContact])
  {
  }

  /**
   * Whatever the collaborator does, resolution only appends contacts, at most
   * one, never when the email is already listed, and a resolved contact is
   * in the store and has the customer's email.
   */
  lemma ResolveFrame(l: Ledger, c: Customer, listing: Option<string>, creation: Result<string>)
    ensures var o := Resolve(l, c, listing, creation);
            && o.state.invoices == l.invoices
            && |l.contacts| <= |o.state.contacts| <= |l.contacts| + 1
            && o.state.contacts[..|l.contacts|] == l.contacts
            && (o.result.Err? ==> o.state == l)
            && ((exists j :: 0 <= j < |l.contacts| && l.contacts[j].email == c.email) ==> o.state == l)
            && (o.result.Ok? ==> o.result.value in o.state.contacts && o.result.value.email == c.email)
  {
  }

  /**
   * A successful `createXeroInvoice` adds one ACCREC, AUTHORISED invoice with a
   * single subscription line (quantity 1, account 200) for the amount, which
   * references the resolved contact (the first listed match, or the one just
   * created), a stored contact with the customer's email; a failed one issues
   * no invoice.
   */
  lemma IssueShape(l: Ledger, c: Customer, amount: int, listing: Option<string>, creation: Result<string>,
                   issuing: Result<string>)
    ensures var o := Issue(l, c, amount, listing, creation, issuing);
            && |l.contacts| <= |o.state.contacts| <= |l.contacts| + 1
            && o.state.contacts[..|l.contacts|] == l.contacts
            && (o.result.Err? ==> o.state.invoices == l.invoices)
            && (o.result.Ok? ==>
                  && o.state.invoices == l.invoices + [o.result.value]
                  && o.result.value.invoice.kind == "ACCREC"
                  && o.result.value.invoice.status == "AUTHORISED"
                  && o.result.value.invoice.lineItems == [LineItem("Vision Lake Subscription", 1, amount, "200")]
                  && exists k :: k in o.state.contacts && k.contactId == o.result.value.invoice.contactId
                                 && k.email == c.email)
            && (o.result.Ok? ==>
                  var r := Resolve(l, c, listing, creation);
                  r.result.Ok? && o.result.value.invoice.contactId == r.result.value.contactId)
  {
  }

  /**
   * When several listed contacts share the customer's email, the invoice is
   * issued to the first of them, and no contact is created.
   */
  lemma IssueBillsFirstMatch(l: Ledger, c: Customer, amount: int, creation: Result<string>, id: string, i: nat)
    requires i < |l.contacts| && l.contacts[i].email == c.email
    requires forall j :: 0 <= j < i ==> l.contacts[j].email != c.email
    ensures var issued := IssuedInvoice(id, Invoice("ACCREC", l.contacts[i].contactId,
                                          [LineItem("Vision Lake Subscription", 1, amount, "200")], "AUTHORISED"));
            Issue(l, c, amount, None, creation, Ok(id))
              == Step(Ok(issued), Ledger(l.contacts, l.invoices + [issued]), [ListContacts, CreateInvoice])
  {
    ResolveReusesFirstMatch(l, c, creation, i);
  }

  /** The accounting system's contact and invoice collections. */
  class AccountingSystem {
    var contacts: seq<Contact>
    var invoices: seq<IssuedInvoice>

    function State(): Ledger
      reads this
    {
      Ledger(contacts, invoices)
    }

    constructor (initial: Ledger)
      ensures State() == initial
    {
      contacts := initial.contacts;
      invoices := initial.invoices;
    }

    /** `getContacts`: every contact, or the error the call threw (`fault`). */
    method GetContacts(fault: Option<string>) returns (r: Result<seq<Contact>>)
      ensures fault.Some? <==> r.Err?
      ensures fault.Some? ==> r.message == fault.value
      ensures fault.None? ==> r.value == contacts
    {
      if fault.Some? {
        r := Err(fault.value);
      } else {
        r := Ok(contacts);
      }
    }

    /** `createContacts` with one contact: on success the new contact, with its assigned id, is appended. */
    method CreateContacts(req: ContactRequest, reply: Result<string>) returns (r: Result<Contact>)
      modifies this
      ensures invoices == old(invoices)
      ensures reply.Err? ==> r == Err(reply.message) && contacts == old(contacts)
      ensures reply.Ok? ==> r == Ok(Created(req, reply.value)) && contacts == old(contacts) + [r.value]
    {
      match reply
      case Err(m) =>
        r := Err(m);
      case Ok(id) =>
        var k := Created(req, id);
        contacts := contacts + [k];
        r := Ok(k);
    }

    /** `createInvoices` with one invoice: on success it is recorded under its assigned id. */
    method CreateInvoices(inv: Invoice, reply: Result<string>) returns (r: Result<IssuedInvoice>)
      modifies this
      ensures contacts == old(contacts)
      ensures reply.Err? ==> r == Err(reply.message) && invoices == old(invoices)
      ensures reply.Ok? ==> r == Ok(IssuedInvoice(reply.value, inv)) && invoices == old(invoices) + [r.value]
    {
      match reply
      case Err(m) =>
        r := Err(m);
      case Ok(id) =>
        var issued := IssuedInvoice(id, inv);
        invoices := invoices + [issued];
        r := Ok(issued);
    }
  }

  /** First half of `createXeroInvoice`: find the contact by email, or create it. */
  method ResolveContact(xero: AccountingSystem, c: Customer, listing: Option<string>, creation: Result<string>)
    returns (r: Result<Contact>, ghost calls: seq<Call>)
    modifies xero
    ensures Step(r, xero.State(), calls) == Resolve(old(xero.State()), c, listing, creation)
  {
    calls := [ListContacts];
    var listed := xero.GetContacts(listing);
    if listed.Err? {
      return Err(listed.message), calls;
    }
    var contacts := listed.value;
    var found := FindByEmail(contacts, c.email);
    var contact: Option<Contact> := if found.Some? then Some(contacts[found.value]) else None;
    if contact.None? {
      calls := calls + [CreateContact];
      var created := xero.CreateContacts(ContactRequestFor(c), creation);
      if created.Err? {
        return Err(created.message), calls;
      }
      contact := Some(created.value);
    }
    r := Ok(contact.value);
  }

  /** `createXeroInvoice`: resolve the contact, then issue the invoice referencing it. */
  method CreateXeroInvoice(xero: AccountingSystem, c: Customer, amount: int, listing: Option<string>,
                           creation: Result<string>, issuing: Result<string>)
    returns (r: Result<IssuedInvoice>, ghost calls: seq<Call>)
    modifies xero
    ensures Step(r, xero.State(), calls) == Issue(old(xero.State()), c, amount, listing, creation, issuing)
  {
    var contact;
    contact, calls := ResolveContact(xero, c, listing, creation);
    if contact.Err? {
      return Err(contact.message), calls;
    }
    var invoice := BuildInvoice(contact.value.contactId, amount);
    calls := calls + [CreateInvoice];
    r := xero.CreateInvoices(invoice, issuing);
  }
}
