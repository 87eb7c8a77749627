/**
 * The document-signing system as the handler uses it: a contract document is
 * created from the tier's template and sent for signature
 * (`generatePandaDocContract`).
 */
module Signing {
  import opened Outcomes
  import opened Payments
  import opened Tiers
  import opened Names

  const RECIPIENT_ROLE: string := "Client"
  const DOCUMENT_PREFIX: string := "Vision Lake Contract - "

  datatype Recipient = Recipient(email: string, firstName: string, lastName: string, role: string)

  /**
   * The create-from-template request: template, document name, recipients and
   * the `client.name` token. The amount and date tokens are not modelled.
   */
  datatype DocumentRequest = DocumentRequest(
    template: TemplateId,
    name: string,
    recipients: seq<Recipient>,
    clientName: string)

  /** A document the signing system created, with the id it assigned. */
  datatype Document = Document(id: string, request: DocumentRequest)

  /** The signing system's state the handler changes: created documents and the ids sent for signature. */
  datatype Desk = Desk(documents: seq<Document>, sent: seq<string>)

  /** The document request for a customer's payment. */
  function ContractRequest(c: Customer, amount: int): DocumentRequest
  {
    DocumentRequest(
      TierTemplate(amount),
      DOCUMENT_PREFIX + c.name,
      [Recipient(c.email, FirstName(c.name), LastName(c.name), RECIPIENT_ROLE)],
      c.name)
  }

  /**
   * `generatePandaDocContract`: create the document (`creating` is its new id or
   * the error), then send it (`sending` is the error the send throws, if any).
   */
  function Dispatch(d: Desk, c: Customer, amount: int, creating: Result<string>, sending: Option<string>)
    : Step<Document, Desk>
  {
    match creating
    case Err(m) => Step(Err(m), d, [CreateDocument])
    case Ok(id) =>
      var doc := Document(id, ContractRequest(c, amount));
      var created := d.(documents := d.documents + [doc]);
      if sending.Some? then Step(Err(sending.value), created, [CreateDocument, SendDocument])
      else Step(Ok(doc), created.(sent := created.sent + [id]), [CreateDocument, SendDocument])
  }

  /**
   * The request uses the template of the amount's tier and has one client
   * recipient at the customer's email whose first name is the part of the
   * name before its first space and whose last name is the rest.
   */
  lemma ContractRequestShape(c: Customer, amount: int)
    ensures var req := ContractRequest(c, amount);
            && InBand(amount, req.template)
            && req.clientName == c.name
            && |req.recipients| == 1
            && req.recipients[0].email == c.email
            && req.recipients[0].role == "Client"
            && SPACE !in req.recipients[0].firstName
            && (SPACE in c.name ==> req.recipients[0].firstName + " " + req.recipients[0].lastName == c.name)
            && (SPACE !in c.name ==> req.recipients[0].firstName == c.name && req.recipients[0].lastName == "")
  {
    NameParts(c.name);
  }

  /**
   * A dispatch that succeeds creates exactly one document for the request and
   * sends exactly that document; one whose send fails leaves the created
   * document unsent; one whose creation fails changes nothing.
   */
  lemma DispatchOutcome(d: Desk, c: Customer, amount: int, creating: Result<string>, sending: Option<string>)
    ensures var o := Dispatch(d, c, amount, creating, sending);
            && (creating.Err? ==> o.result.Err? && o.state == d && o.calls == [CreateDocument])
            && (creating.Ok? ==> o.state.documents == d.documents + [Document(creating.value, ContractRequest(c, amount))])
            && (creating.Ok? && sending.Some? ==> o.result == Err(sending.value) && o.state.sent == d.sent)
            && (o.result.Ok? <==> creating.Ok? && sending.None?)
            && (o.result.Ok? ==> o.result.value.id == creating.value && o.state.sent == d.sent + [creating.value])
  {
  }

  /** The signing system's documents and the record of which were sent. */
  class SigningSystem {
    var documents: seq<Document>
    var sent: seq<string>

    function State(): Desk
      reads this
    {
      Desk(documents, sent)
    }

    constructor (initial: Desk)
      ensures State() == initial
    {
      documents := initial.documents;
      sent := initial.sent;
    }

    /** `documents.createFromTemplate`: on success the document is stored under its assigned id. */
    method CreateFromTemplate(req: DocumentRequest, reply: Result<string>) returns (r: Result<Document>)
      modifies this
      ensures sent == old(sent)
      ensures reply.Err? ==> r == Err(reply.message) && documents == old(documents)
      ensures reply.Ok? ==> r == Ok(Document(reply.value, req)) && documents == old(documents) + [r.value]
    {
      match reply
      case Err(m) =>
        r := Err(m);
      case Ok(id) =>
        var doc := Document(id, req);
        documents := documents + [doc];
        r := Ok(doc);
    }

    /** `documents.send`: on success the document's id joins the sent ones. */
    method Send(id: string, fault: Option<string>) returns (r: Result<string>)
      modifies this
      ensures documents == old(documents)
      ensures fault.Some? ==> r == Err(fault.value) && sent == old(sent)
      ensures fault.None? ==> r == Ok(id) && sent == old(sent) + [id]
    {
      if fault.Some? {
        r := Err(fault.value);
      } else {
        sent := sent + [id];
        r := Ok(id);
      }
    }
  }

  /** `generatePandaDocContract`: choose the template, create the document, send it. */
  method GeneratePandaDocContract(panda: SigningSystem, c: Customer, amount: int, creating: Result<string>,
                                  sending: Option<string>)
    returns (r: Result<Document>, ghost calls: seq<Call>)
    modifies panda
    ensures Step(r, panda.State(), calls) == Dispatch(old(panda.State()), c, amount, creating, sending)
  {
    var request := ContractRequest(c, amount);
    calls := [CreateDocument];
    var created := panda.CreateFromTemplate(request, creating);
    if created.Err? {
      return Err(created.message), calls;
    }
    calls := calls + [SendDocument];
    var delivered := panda.Send(created.value.id, sending);
    if delivered.Err? {
      return Err(delivered.message), calls;
    }
    r := Ok(created.value);
  }
}
