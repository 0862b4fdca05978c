# amoCRM order synchronisation — a Dafny model

This project models the deterministic core of the Yii component `Amo`
(`components/Amo.php`). The component pushes insurance-order events to the
amoCRM HTTP API. The lead-then-contact handlers (the two early order
milestones, `backCallAfterInsert` and `insurantAfterInsert`) do three things:

1. They build a *lead* payload and upsert it through `set`.
2. They build a *contact* payload linked to the returned lead id and upsert that.
3. They write the two returned ids back onto the order (`amo_lead_id`,
   `amo_contact_id`).

`orderBeforePaid` sends one lead and writes nothing back. A call-back
without an order sends a lead and a contact but writes nothing back. Every
`set` goes through `auth`, which logs in while no `session_id` cookie is
cached and caches the cookie from an OK reply.

The network is an oracle. `Net` maps a request, and its position in the
component's log, to the reply the CRM gives. Each handler is a pure function.
It takes the component state (`Amo`: the cached cookie and the log of every
exchange) and returns the new state; the handlers that write ids back also
return the order with its new CRM ids.

Modules:

- `Json` (json.dfy): JSON-like values and the PHP semantics the component
  relies on. These are truthiness, `isset`, and reading a possibly missing
  index of a decoded response.
- `Entities` (entities.dfy): snapshot records for the order, policy, vehicle,
  offer data, delivery, call-back and insured party, and the configuration.
- `Gateway` (gateway.dfy): `auth`, the `set` envelope, the operation choice,
  and reading the id out of the response.
- `Fields` (fields.dfy): custom-field entries, `addCustomField`, and a decoder
  for entries (`ReadCustomField`).
- `Handlers` (handlers.dfy): the payload builders and the five event handlers.
- `Sync` (sync.dfy): properties that relate several calls. They are stated
  over `SyncedPair`, the contract a handler ensures of the lead and contact
  upserts it sends and the ids it writes back. It holds of the two milestone
  handlers, `insurantAfterInsert`, and `backCallAfterInsert` when an order is
  found.

## Model

| member | source | states |
|---|---|---|
| Gateway.ChooseOperation | components/Amo.php:124 | `set` updates exactly when the payload has an `id` key holding a non-null value (`isset`); with no `id` key, or one holding null, it adds |
| Gateway.Envelope | components/Amo.php:126 | the envelope decodes to exactly the type, operation and unchanged payload it was built from |
| Gateway.EnvelopeExact | components/Amo.php:126 | a JSON value decodes as an upsert iff it is the envelope for that upsert, so the envelope holds only `request.<type>s.<operation>` = `[payload]` |
| Gateway.UpsertResult | components/Amo.php:139-143 | a failed reply yields false; on an OK reply whose `response.<type>s.<operation>` holds a list whose first item is an object with `id`, the result is that `id`, whatever else the answer holds; a non-null result can only come from that path of the operation that was sent |
| Gateway.EchoAmongOtherKeys | components/Amo.php:139-140 | an OK answer carrying `response.<type>s.<operation>[0].id` yields that id even with other keys at every level and further items after the first |
| Gateway.EchoRoundTrip | components/Amo.php:139-140 | if the CRM echoes an id at position 0 under the path of the sent type and operation, `set` returns that id; an echo under another type or operation reads as null; a failed reply reads as false |
| Gateway.Auth | components/Amo.php:69-91 | with a cookie cached, nothing is sent and nothing changes; otherwise exactly one login request carrying the configured login and hash is sent, and a cookie is cached iff the reply is OK and carries a `session_id` cookie |
| Gateway.AuthIdempotent | components/Amo.php:71-90 | once a cookie is cached, a further `auth` sends nothing and keeps the same cookie |
| Gateway.Set | components/Amo.php:122-144 | at most one login, then exactly one upsert of the payload under the chosen operation, carrying the cached cookie; the value returned is the id read from that upsert's reply |
| Gateway.SetThenSet | components/Amo.php:207-236 | two consecutive `set` calls send exactly their two upserts, in order, and return the ids read from their replies |
| Gateway.UpsertsAppend | components/Amo.php:122-144 | the upserts of a concatenated log are the upserts of each part, in order |
| Fields.FieldId | components/Amo.php:157 | a registry name gives its integer id; a name missing from the registry gives null, not an error |
| Fields.Entry | components/Amo.php:156-173 | every entry built reads back as the same id, value and tag |
| Fields.CustomFieldExact | components/Amo.php:153-176 | a JSON value reads as a custom field iff it is exactly that field's entry, so entries carry nothing else |
| Fields.CustomFieldFor | components/Amo.php:155-165 | the decoded entry has the registry id and the given value; it is tagged iff the enum is truthy, and then under "ENUM" with the enum value |
| Fields.AddCustomField | components/Amo.php:153-176 | the entry has exactly the keys `id` and `values`; `values` is one object holding `value`, plus the key `ENUM` exactly when the enum is truthy |
| Fields.InlineEntries | components/Amo.php:187-232 | an inline untagged entry is the one `addCustomField` builds with no enum; an inline `'enum' => 'WORK'` entry differs from `addCustomField(.., 'WORK')`, and only in the tag key's spelling |
| Fields.Entries | components/Amo.php:408-450 | a list of entries reads back field by field, in order |
| Handlers.WithId | components/Amo.php:206 | the payload gets `id` iff the stored id is truthy, and then it holds that id; so the upsert is an update iff the stored id is truthy |
| Handlers.MilestoneLead | components/Amo.php:183-206 | the early-milestone lead: keyed by the stored lead id; `tags` present only when a tag is given; name, price and timestamp; exactly the order-number and link fields |
| Handlers.InlineContactFieldList | components/Amo.php:214-233 | the contact's fields are email then phone, each tagged "WORK" under the lower-case key `enum` |
| Handlers.CallerContactFieldList | components/Amo.php:464-467 | the contact's fields are email then phone, each tagged "WORK" under the key `ENUM` |
| Handlers.OrderFieldList | components/Amo.php:187-204 | exactly two fields: the order number and the order link |
| Handlers.BeforePaidLead | components/Amo.php:317-391 | `id` is always present and holds the stored lead id, so the upsert adds only when that id is null; the price is the order total; the tag is the card wording iff the payment type is `Payment::TYPE_CARD`; no `linked_leads_id`; `custom_fields` is the list it is given, which `orderBeforePaid` builds with `BeforePaidFieldList` |
| Handlers.BeforePaidFieldList | components/Amo.php:323-390 | eight fields, in order: insurer, recorded power, driver minimum age, driver minimum experience, make, model, year, delivery window |
| Handlers.BackCallFieldList | components/Amo.php:408-450 | eleven fields: power from the vehicle record when there is one, else from the offer's text; age and experience from the drivers when there are any, else from the offer's text; term, car type, multi-drive, clean experience and region always from the offer |
| Handlers.SyncMilestone | components/Amo.php:183-239 | the two early milestones send one lead and then one contact upsert, keyed by the stored ids; the contact is linked to the lead result; both results are written back |
| Handlers.OrderAfterEmailAndPhoneSet | components/Amo.php:178-241 | one lead upsert, then one contact upsert, each an update iff its stored id is truthy; the contact is linked to `[leadId]`; the order's ids become the two results and nothing else of the order changes; untagged lead with order-number and link fields; contact email and phone tagged under `enum` |
| Handlers.OrderAfterDocumentsUploaded | components/Amo.php:243-310 | as for the email-and-phone event, plus the documents tag on the lead and the contact named after the order code |
| Handlers.OrderBeforePaid | components/Amo.php:312-393 | a policy without a vehicle is a fatal error before anything is sent; otherwise exactly one upsert, a lead, is sent, with no contact; the order is unchanged; the upsert is an update iff the stored lead id is not null |
| Handlers.BackCallAfterInsert | components/Amo.php:395-506 | always one lead, stamped with the lead time, then one contact from the caller, linked to the lead result. If the order code is truthy and an order is found: the lead is named `Осаго <code>`, tagged, priced at the policy price, with the fall-back fields; both upserts are keyed by and written back to that order. Otherwise the lead is exactly the no-order lead `Осаго <id> без заказа` at price 0 with no fields; both upserts create; nothing is written back |
| Handlers.InsurantAfterInsert | components/Amo.php:508-553 | lead and contact keyed by the order's stored ids; the lead is tagged for the insured party, named after the order, priced at the policy price, with the order-number and link fields; the contact has the insured party's name, email and phone, tagged under `ENUM`, and is linked to the lead result; both carry their `time()` readings; both results are written back |
| Sync.EchoingCrmEchoes | components/Amo.php:132-140 | against a CRM that accepts every login and echoes an id per object type, every upsert a component sent carries that CRM's answer |
| Sync.EchoedUpsert | components/Amo.php:139-140 | an upsert answered by the echoing CRM returns the id that CRM assigns to the upsert's type |
| Sync.EchoedIdsWrittenBack | components/Amo.php:207-239 | for any lead-then-contact sync, if the CRM echoes ids, the contact is linked to the new lead id and the order stores both new ids |
| Sync.SecondSyncUpdates | components/Amo.php:206-306 | a fresh order's first sync creates both objects without `id`; if the ids it returned are truthy, the next sync updates both, addressed by those ids |
| Sync.FailedLeadUpsertStoresFalse | components/Amo.php:139-143 | after a rejected lead upsert, the contact is still linked to `[false]` and false is stored as the lead id |
| Sync.FailedLeadUpsertIsRecreated | components/Amo.php:238-273 | after a rejected lead upsert, the next sync creates the lead again, without an `id` |
| Sync.BeforePaidAfterFailedSync | components/Amo.php:317-318 | after a rejected lead upsert, `orderBeforePaid` sends an update addressed to the id false, because false is not null for `isset` |
| Sync.MissingFieldHasNullId | components/Amo.php:157 | a field name missing from the registry still yields an entry, with a null id |

Four behaviours of the code are easy to misread; the model follows the code:

- A field name missing from the registry does not make the build fail.
  PHP reads it as null with a notice (`MissingFieldHasNullId`).
- `orderBeforePaid` does have a create branch. It always sends `id`, and a
  null `id` makes `set` choose `add` (`OrderBeforePaid`).
- The enum tag key is not one consistent key. `addCustomField` writes `ENUM`,
  and the first two handlers write `enum` inline (`InlineEntries`).
- A failed login does not stay cached. The cookie stays unset, so the next
  `set` logs in again (`Auth`).

## Left out

- The HTTP client, URLs, subdomain formatting and cookie objects are left out
  as network I/O. A cookie is modelled by its value, and the transport is the `Net` oracle.
  The envelope modelled is the PHP array `set` hands to the client; how the
  client encodes it on the wire, and any exception `send()` raises, are not
  modelled. Payload values such as `[false]` and an `id` of false are
  statements about that array.
- `info()` (the accounts GET) is left out: it is network I/O with no logic.
- `init()`, event registration and the `YII_ENV` gate are left out as
  framework plumbing. Each handler is called directly with its event's record.
- Loading the field registry from the application parameters is left out. The
  registry is a given map in `Config`.
- ORM behaviour is left out. This covers `Order::findOne` (the `find` parameter),
  `$order->save()`, and the policy, vehicle, driver, delivery, payment and
  offer getters, whose results are snapshot values.
- `time()` is left out. Each handler receives the two readings as `Times`.
- PHP notices and warnings are left out. Only their resulting values are modelled.
- Object key order is not modelled. PHP arrays with string keys are maps
  here, so where `id` lands in a payload is lost.
- Non-integer numbers (a float price) are not modelled. Snapshot values are
  JSON values without floats.
- Handlers.OrderBeforePaid: the payment-type test uses exact equality, not
  PHP's loose `==`, because the type of `Payment::TYPE_CARD` is not part of
  this model.
- Handlers.BackCallAfterInsert: a policy without offer data, or with no
  policy, is a fatal error in the source. The model always has the offer and
  the policy, so these crashes are not modelled.
- Handlers.InsurantAfterInsert: an insured party without a policy (a fatal
  error at `$insurant->policy->getOrder()`), or whose policy has no order
  (errors on a null order), is not modelled. The model always has the order.
- Handlers.OrderBeforePaid: an order without a policy is a fatal error in the
  source (at `$order->policy->getAuto()`). The model's order always has a
  policy, so only the missing-vehicle crash is modelled.
- Gateway.UpsertResult: a response path that runs through a string reads as
  null. PHP would instead index the string, or raise an error.
- Return values are left out. The `return true` of two handlers
  (`orderAfterDocumentsUploaded`, `backCallAfterInsert`) carries no information.
- Entities.BackCall: the call-back id appears in the lead name in its decimal
  text form, given as a string. Integer-to-string conversion is not modelled.
