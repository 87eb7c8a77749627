# Payment pipeline webhook — Dafny model

This project models the core of the Vision Lake payment pipeline's webhook handler
(`src/payment-pipeline/index.js`). When the payment processor reports that a checkout
session completed, the handler does four things in order:

1. It fetches the session's customer.
2. It issues an invoice in the accounting system. It reuses the first contact with the
   customer's email, or creates one.
3. It creates a contract document from the template of the amount's tier and sends it
   for signature.
4. It appends a transaction record to the document store.

It answers 200 `{received: true}`, or 500 `{error: message}` when any step throws.

Every external system is an injected, fallible collaborator:

- The accounting system is the class `AccountingSystem`. Its contacts and invoices are
  sequences.
- The signing system is the class `SigningSystem`. It holds the created documents and the
  ids sent for signature.
- The document store is the class `TransactionStore`. It holds an append-only sequence of
  records.
- The payment processor is read-only and appears only as the reply to the customer lookup.

Each call gets its reply as a parameter: either the id the collaborator assigns, or the
message of the error it throws. All replies for one delivery are collected in
`Webhook.Replies`.

The pure logic is written as functions with lemmas: the tier classifier, name splitting,
and building the contact request, invoice and record. Each step is also a spec function
over value states (`Accounting.Resolve`, `Accounting.Issue`, `Signing.Dispatch`,
`Transactions.Store`, `Webhook.Handle`). Each returns the step's result, the
collaborator's new state and the calls it made. The imperative methods (`ResolveContact`,
`CreateXeroInvoice`, `GeneratePandaDocContract`, `StoreTransaction`, `HandleWebhook`) change
the class fields. Each is proved equal to its spec function. The properties are lemmas
about those spec functions.

Modules: `Outcomes` (Option, Result, the call log), `Payments` (customer, session, event),
`Tiers`, `Names`, `Accounting`, `Signing`, `Transactions` and `Webhook`.

Some things the handler does not do:

- It does not deduplicate by session id.
- It records nothing on a partial failure, and does not undo steps that already succeeded.
- It treats every failure alike, answering 500.
- It always sends a phone entry with a new contact, even when the customer has no phone.

Two lemmas state this outright: `Webhook.RedeliveryRepeatsSideEffects` and
`Webhook.ContractFailureKeepsInvoice`.

## Model

| member | source | states |
|---|---|---|
| Tiers.TierTemplate | src/payment-pipeline/index.js:135-144 | the template chosen for an amount is the tier whose band (exclusive floor, inclusive ceiling) contains the amount |
| Tiers.TierTemplateIsBand | src/payment-pipeline/index.js:135-144 | an amount selects a template exactly when the amount lies in that template's band: basic up to 35000, premium above 35000 up to 1000000, enterprise above 1000000 |
| Tiers.TierTemplateMonotone | src/payment-pipeline/index.js:135-144 | a larger amount never selects a cheaper tier |
| Tiers.TierBoundaries | src/payment-pipeline/index.js:137-142 | 35000 gives basic, 35001 premium, 1000000 premium, 1000001 enterprise |
| Names.Split | src/payment-pipeline/index.js:115-116 | `split(' ')` yields one more piece than there are separators, and no piece holds the separator |
| Names.JoinSplit | src/payment-pipeline/index.js:115-116 | joining the pieces of a split with the same separator gives the original string |
| Names.SplitJoin | src/payment-pipeline/index.js:115-116 | splitting the join of separator-free pieces gives the pieces back |
| Names.NameParts | src/payment-pipeline/index.js:115-116 | the first name has no space; for a name with a space, first name + ' ' + last name is the name; for a name without one, the first name is the whole name and the last name is empty |
| Names.NameReconstructs | src/payment-pipeline/index.js:115-116 | whenever the last name is non-empty, first and last name joined with a space rebuild the name |
| Names.TwoWordName | src/payment-pipeline/index.js:115-116 | "Ada Lovelace" gives first name "Ada" and last name "Lovelace" |
| Names.OneWordName | src/payment-pipeline/index.js:115-116 | "Prince" gives first name "Prince" and an empty last name |
| Accounting.FindByEmail | src/payment-pipeline/index.js:62-63 | the lookup returns the position of the first contact whose email equals the customer's, or reports that no contact has it |
| Accounting.ResolveReusesFirstMatch | src/payment-pipeline/index.js:62-65 | when a listed contact has the email, resolution returns the first such contact, creates nothing and leaves the store unchanged |
| Accounting.ResolveCreatesMissing | src/payment-pipeline/index.js:65-80 | when no contact has the email, exactly one contact with the customer's name, email and a single MOBILE phone holding the customer's phone is appended and used |
| Accounting.ResolveFrame | src/payment-pipeline/index.js:62-80 | resolution only appends contacts, at most one, and none when the email is already listed; it never touches invoices; on failure nothing changes; a resolved contact is in the store and has the customer's email |
| Accounting.IssueShape | src/payment-pipeline/index.js:60-102 | a successful invoice step appends one ACCREC, AUTHORISED invoice whose single line is 'Vision Lake Subscription', quantity 1, account '200', for the amount, and which references the contact that resolution returned (a stored contact with the customer's email); a failed one issues no invoice; contacts grow by at most one |
| Accounting.IssueBillsFirstMatch | src/payment-pipeline/index.js:62-102 | when listed contacts share the customer's email, the invoice is issued to the first of them, no contact is created, and only that invoice is added |
| Accounting.AccountingSystem.GetContacts | src/payment-pipeline/index.js:62 | listing gives every contact, or fails with the thrown message |
| Accounting.AccountingSystem.CreateContacts | src/payment-pipeline/index.js:75-79 | on success the created contact, with its assigned id, is appended and returned; on failure nothing changes |
| Accounting.AccountingSystem.CreateInvoices | src/payment-pipeline/index.js:98-102 | on success the invoice is appended under its assigned id and returned; on failure nothing changes |
| Accounting.ResolveContact | src/payment-pipeline/index.js:60-80 | the find-then-create method leaves the result, contacts and invoices that `Resolve` describes |
| Accounting.CreateXeroInvoice | src/payment-pipeline/index.js:60-103 | the method leaves the result, contacts and invoices that `Issue` describes |
| Signing.ContractRequestShape | src/payment-pipeline/index.js:107-124 | the document uses the amount's tier template, has one 'Client' recipient at the customer's email whose first and last names are the two halves of the name around its first space, and carries the client name token |
| Signing.DispatchOutcome | src/payment-pipeline/index.js:105-133 | a successful dispatch creates exactly one document and sends exactly it; a failed send leaves the created document unsent; a failed creation changes nothing; success holds exactly when both calls succeed |
| Signing.SigningSystem.CreateFromTemplate | src/payment-pipeline/index.js:110-124 | on success the document is stored under its assigned id; on failure nothing changes |
| Signing.SigningSystem.Send | src/payment-pipeline/index.js:127-130 | on success the document id joins the sent ones; on failure nothing changes |
| Signing.GeneratePandaDocContract | src/payment-pipeline/index.js:105-133 | the method leaves the result, documents and sent ids that `Dispatch` describes |
| Payments.MetadataValue | src/payment-pipeline/index.js:157-158 | the falsy-to-null default keeps a metadata value exactly when it is present and non-empty, and then keeps it unchanged |
| Transactions.RecordFields | src/payment-pipeline/index.js:146-159 | the record is 'completed' and carries the customer's id and email, the session's id, amount and currency, the invoice and contract ids it is given, and null metadata fields exactly when the value is absent or empty |
| Transactions.StoreAppendOnly | src/payment-pipeline/index.js:146-159 | storing only appends: on success exactly the built record is appended; on failure the records are unchanged and the message is passed on |
| Transactions.TransactionStore.Add | src/payment-pipeline/index.js:147 | on success the record is appended and its id returned; on failure nothing changes |
| Transactions.StoreTransaction | src/payment-pipeline/index.js:146-160 | the method leaves the result and records that `Store` describes |
| Webhook.IgnoresOtherEvents | src/payment-pipeline/index.js:30-52 | an event of any type other than 'checkout.session.completed' makes no call, changes no state and gets 200 `{received: true}` |
| Webhook.CallsFollowPipeline | src/payment-pipeline/index.js:38-47 | the calls of a completed checkout are a prefix of customer fetch, contact list, (contact create), invoice create, document create, document send, record append |
| Webhook.HandleAccounts | src/payment-pipeline/index.js:33-56 | a 200 means no call made failed; any other answer is a 500 whose message is that of the last call made, which was the first to fail |
| Webhook.AckIffNoFailure | src/payment-pipeline/index.js:52-55 | every answer is 200 or 500, and it is 200 exactly when none of the calls made failed |
| Webhook.FirstFailureAborts | src/payment-pipeline/index.js:38-55 | on a 500 the failing call is the last one made, every earlier call succeeded, and no record was stored |
| Webhook.SuccessRecordsAll | src/payment-pipeline/index.js:38-52 | a completed checkout answered 200 made every call in order and appended one invoice, one sent document for the request, and one 'completed' record with the new invoice and document ids; the invoice references the resolved contact, a stored contact with the customer's email |
| Webhook.RecordsOnlyOnSuccess | src/payment-pipeline/index.js:34-55 | the records change exactly when a completed checkout is answered 200, and at most one record is appended |
| Webhook.ContractFailureKeepsInvoice | src/payment-pipeline/index.js:41-55 | when the contract step fails after invoicing, the invoice stays, nothing is sent or recorded, and the answer is 500 with the failing call's message; a failed creation adds no document, a failed send leaves the created document in place, unsent |
| Webhook.RedeliveryRepeatsSideEffects | src/payment-pipeline/index.js:30-57 | delivering the same event twice with every call succeeding reuses the contact, but yields two invoices, two sent contracts and two records for the same session |
| Webhook.NewCustomerScenario | src/payment-pipeline/index.js:30-159 | a 50000-minor-unit payment by a new customer at a@x.com creates its contact, issues the invoice for that contact, sends a premium contract to a@x.com and stores one 'completed' record for session s1 |
| Webhook.HandleWebhook | src/payment-pipeline/index.js:30-57 | the handler method leaves the answer, the three systems' states and the calls that `Handle` describes |

## Left out

- Express routing, `express.json()`, `app.listen`, the port, client initialisation and environment-variable reads are process bootstrap. The three template ids, which the code reads from the environment, are three distinct constants of `Tiers.TemplateId`. The code does not check that the configured ids are set or distinct.
- The network calls to the payment processor, accounting system, signing system and document store are replaced by replies given as parameters. Timeouts, retries inside the SDKs, authentication and paging of the contact list are not modelled.
- `amount / 100` for the invoice's unit amount and the `$${amount / 100}` amount token use binary floating point. The model keeps the unit amount in integer minor units and leaves out the amount token.
- The invoice date (`toISOString`), the contract's locale date token and the record's server timestamp depend on the clock and locale. They are not modelled.
- The fixed reviewer message and `silent: false` of the send call are not modelled. The send is modelled only as succeeding or failing on the created document's id.
- Console logging is not modelled.
- Customer name, email and phone are plain strings. The payment processor can return null for them. For a null name, `customer.name.split` throws inside the contract step and the handler answers 500. The model does not represent that case.
- A malformed event body (no `data.object`) throws a TypeError that the handler answers with 500. Events here are well-typed.
- The collaborators are assumed to echo what they were sent: a created contact carries the request's name, email and phones, plus its new id.
- Concurrent deliveries are not modelled. The model is one sequential run of the handler, with the collaborators' states threaded between runs.
