# Donation payment reconciliation, modelled in Dafny

This project models the payment-record reconciliation logic of a donation
flow built on the Stripe payment processor. The processor is treated as an
oracle: whatever it answers (a retrieved intent or session, a verified
webhook event, a created intent or session) is an input of the model.

What is modelled:

- **The payment store** (`PaymentStore`, from `lib/db/services/payment-service.ts`).
  The persisted table is a value `Table`: records keyed by payment-intent id,
  the keys in creation order, and a counter for internal ids. The pure
  functions `Create`, `Update`, `UpdateStatus`, `Find`, `ByStatus` and
  `Recent` specify the service calls. The class `PaymentService` holds the
  table in fields (`payments: map<string, Payment>`, `order`, `nextId`) and
  implements the calls by updating those fields in place. `WellFormed` is
  its invariant: keys equal intent ids, internal ids are unique and grow with
  creation. The constant `available` says whether the database can be
  reached. When it cannot, every call fails with `Unavailable`.
- **The three reconciliation entry points.** These are the client poll
  (`VerifyIntentRoute`), the webhook (`StripeWebhookRoute`) and the
  checkout-session poll (`VerifySessionRoute`). Each is first a pure step
  function from the table before the request to the response and the table
  after it (`VerifyIntentStep`, `WebhookStep`, `VerifySessionStep`). Each is
  then an imperative method on a `PaymentService` whose postcondition is
  that step. The lemmas state the properties in the table under "## Model" about the steps. The
  create-or-update block shared by the poll and the webhook lives once in
  `IntentSuccess`. `Reconciliation` holds lemmas that combine the poll and
  the webhook.
- **Donation amounts and products** (`DonationConfig`, from `config/stripe.ts`),
  plus the two creation handlers. `CreateIntentRoute` and
  `CheckoutSessionRoute` are pure functions from the request to the request
  descriptor sent to the processor, or to the error response.

Representation choices:

- JSON request bodies are `Http.Request`: either a parse failure or a map of
  `JsonValue`s. The guards use JavaScript truthiness (`Http.Truthy`).
- Responses are `Response(code, body)`. Exceptions caught by a handler
  become the handler's 500 response.
- JavaScript numbers in requests are `real`. Intent amounts are integer
  cents. The stored amount is `real` major units: `cents / 100`.
- A processor call's answer is `Reply<T>`: `Returned(value)` or `Threw`.
  Retrieval answers are `Reply<Option<T>>`, where `None` stands for null.
- The internal record id is a `nat` taken from a counter, in place of the
  database's generated string id. Because it grows with creation, ordering
  by it stands in for ordering by `createdAt`.

Behaviour a reader might expect of this flow that the code does not have,
and which the model therefore does not have either:

- The client poll does not record a failed or cancelled processor status.
  It only returns that status; the stored record keeps its old status.
- The checkout-session flow does not store the session id in the record.
  Nothing ever sets `checkoutSessionId`.
- No donor notification is sent when a payment succeeds. No reconciliation
  path calls the email service.
- Only the client poll trusts a stored SUCCEEDED record and stops there.
  The webhook rewrites the record on every delivery, and the session poll
  rewrites its status.
- The client poll never answers 404 for an unknown intent. A null intent
  from the processor is read for logging before the not-found guard runs,
  so the request ends in 500 (`VerifyIntentOutcomes`).

## Model

| member | source | states |
|---|---|---|
| `DonationConfig.IsDonationAmount` | config/stripe.ts:62-68 | an amount is accepted iff it is 10, 20, 50 or 100 |
| `DonationConfig.FirstMatch` | config/stripe.ts:70-76 | `find` returns a matching product that is the first match in table order, and none iff no product matches |
| `DonationConfig.TableAmountsAreDonationAmounts` | config/stripe.ts:11-62 | the table's amounts are exactly `DONATION_AMOUNTS`, in order and pairwise distinct |
| `DonationConfig.TablePricesDistinctAndUsd` | config/stripe.ts:11-60 | price ids are pairwise distinct and every product is in `usd` |
| `DonationConfig.FindProductByAmount` | config/stripe.ts:70-72 | a product is found for an amount iff it is a donation amount, and that product lists the amount |
| `DonationConfig.FindProductByPriceId` | config/stripe.ts:74-76 | a product is found iff some row has the price id, and it is then the unique row |
| `PaymentStore.IdsUnique` | lib/db/services/payment-service.ts:13-22 | in a well-formed table no two records share an internal id |
| `PaymentStore.Find` | lib/db/services/payment-service.ts:42-46 | the result is the unique record whose intent id is the key, or none when no record has it |
| `PaymentStore.WithStatus` | lib/db/services/payment-service.ts:55-60 | the filtered list holds only records with the status, each a stored one, and every stored record with the status |
| `PaymentStore.WithStatusNewestFirst` | lib/db/services/payment-service.ts:55-60 | the filtered list is ordered newest first |
| `PaymentStore.ByStatusExact` | lib/db/services/payment-service.ts:55-60 | `getPaymentsByStatus` returns exactly the stored records with that status, newest first |
| `PaymentStore.RecentCount` | lib/db/services/payment-service.ts:62-67 | in a consistent table, `getRecentPayments` returns min(limit, number of stored records) records, and every stored record left out is older than every record returned |
| `PaymentStore.RecentNewestFirst` | lib/db/services/payment-service.ts:62-67 | `getRecentPayments` returns at most `limit` stored records, newest first |
| `PaymentStore.RecentOmitsOnlyOlder` | lib/db/services/payment-service.ts:62-67 | any stored record left out is older than every record returned, and then exactly `limit` are returned |
| `PaymentStore.CreateKeepsWellFormed` | lib/db/services/payment-service.ts:13-22 | creating a record keeps keys, creation order and unique ids consistent |
| `PaymentStore.CreateStoresInput` | lib/db/services/payment-service.ts:13-22 | create stores amount/100 and copies the other fields; status defaults to PENDING; it adds exactly one record under a fresh id, appended to the creation order; a taken key or an unreachable store changes nothing |
| `PaymentStore.Patch` | lib/db/services/payment-service.ts:30-39 | an update sets only the given status, metadata, checkout session and email; id, intent id, amount and currency are kept |
| `PaymentStore.KeyWithId` | lib/db/services/payment-service.ts:31-33 | `where: { id }` finds a stored key with that internal id, or none when no stored record has it |
| `PaymentStore.UpdateHitsRecord` | lib/db/services/payment-service.ts:25-40 | updating by a record's internal id patches exactly that record |
| `PaymentStore.UpdateChangesOnlyMutableFields` | lib/db/services/payment-service.ts:25-40 | `updatePayment` succeeds iff a record has the id; only that record changes, only by `Patch`; keys and order are unchanged |
| `PaymentStore.UpdateKeepsWellFormed` | lib/db/services/payment-service.ts:25-40 | updating keeps the table consistent |
| `PaymentStore.UpdateStatusChangesOnlyStatus` | lib/db/services/payment-service.ts:48-53 | `updatePaymentStatus` succeeds iff the key has a record; only that record's status changes |
| `PaymentStore.UpdateStatusKeepsWellFormed` | lib/db/services/payment-service.ts:48-53 | a status update keeps the table consistent |
| `PaymentStore.PaymentService.constructor` | lib/db/services/payment-service.ts:4 | a new service sees the consistent table the database already holds, and the given availability |
| `PaymentStore.PaymentService.CreatePayment` | lib/db/services/payment-service.ts:5-23 | the fields after the call are the table `Create` gives, and the invariant holds |
| `PaymentStore.PaymentService.UpdatePayment` | lib/db/services/payment-service.ts:25-40 | the fields after the call are the table `Update` gives, and the invariant holds |
| `PaymentStore.PaymentService.UpdatePaymentStatus` | lib/db/services/payment-service.ts:48-53 | the fields after the call are the table `UpdateStatus` gives, and the invariant holds |
| `PaymentStore.PaymentService.GetPaymentByIntentId` | lib/db/services/payment-service.ts:42-46 | fails iff the store is unreachable; otherwise returns the unique record with that intent id, or none |
| `PaymentStore.PaymentService.GetPaymentsByStatus` | lib/db/services/payment-service.ts:55-60 | fails iff unreachable; otherwise exactly the records with the status, newest first |
| `PaymentStore.PaymentService.GetRecentPayments` | lib/db/services/payment-service.ts:62-67 | fails iff unreachable; otherwise at most `limit` stored records, newest first, with every omitted record older |
| `Http.OrUndefined` | app/api/payment/verify-intent/route.ts:61 | `receipt_email \|\| undefined` keeps the email only when it is set and non-empty |
| `IntentSuccess.WriteSucceeded` | app/api/payment/verify-intent/route.ts:57-74 | the store after the call is what `RecordSucceeded` gives: update the found record, else create one |
| `IntentSuccess.RecordSucceededKeepsWellFormed` | app/api/webhooks/stripe/route.ts:112-147 | the success write keeps the table consistent, and a failed write leaves it unchanged |
| `IntentSuccess.RecordSucceededUpdatesInPlace` | app/api/payment/verify-intent/route.ts:57-63 | with a record, the same record (same id) becomes SUCCEEDED with the intent's metadata and email; no record is added or otherwise changed, and creation order is kept |
| `IntentSuccess.RecordSucceededCreatesOne` | app/api/payment/verify-intent/route.ts:64-74 | without a record, exactly one SUCCEEDED record is created with the intent's amount/100, currency, metadata and email |
| `IntentSuccess.SuccessWriteFixesCarrier` | app/api/webhooks/stripe/route.ts:112-118 | rewriting a record that already carries the success changes nothing |
| `IntentSuccess.RecordSucceededIdempotent` | app/api/webhooks/stripe/route.ts:109-147 | the lookup-then-write succeeds, and a second identical one leaves the table as the first left it |
| `VerifyIntentRoute.VerifyIntent` | app/api/payment/verify-intent/route.ts:7-93 | the response and store after the handler are those of `VerifyIntentStep`, and the invariant holds |
| `VerifyIntentRoute.VerifyIntentOutcomes` | app/api/payment/verify-intent/route.ts:39-92 | the code is 200, 400 or 500, never 404; every error leaves the store unchanged; consistency is kept |
| `VerifyIntentRoute.VerifyIntentMissingParameters` | app/api/payment/verify-intent/route.ts:12-18 | a missing parameter gives 400 whatever the store or processor hold; nothing is written |
| `VerifyIntentRoute.VerifyIntentShortCircuit` | app/api/payment/verify-intent/route.ts:20-36 | a SUCCEEDED record gives "succeeded" with the stored email for any processor answer; the store is unchanged |
| `VerifyIntentRoute.VerifyIntentAuthorityFailure` | app/api/payment/verify-intent/route.ts:39-53 | a null or failed retrieval gives 500 and no write |
| `VerifyIntentRoute.VerifyIntentUpdatesExisting` | app/api/payment/verify-intent/route.ts:55-63 | succeeded with a record: that same record becomes SUCCEEDED with email and metadata; no record is created |
| `VerifyIntentRoute.VerifyIntentCreatesNew` | app/api/payment/verify-intent/route.ts:64-79 | succeeded without a record: exactly one SUCCEEDED record with the intent's amount and currency |
| `VerifyIntentRoute.VerifyIntentPassesStatusThrough` | app/api/payment/verify-intent/route.ts:82-85 | another status is returned verbatim with the receipt email; no write, with or without a record |
| `VerifyIntentRoute.VerifyIntentIdempotent` | app/api/payment/verify-intent/route.ts:29-79 | after a succeeded reconciliation, a second poll short-circuits for any processor answer and writes nothing |
| `StripeWebhookRoute.HandleWebhook` | app/api/webhooks/stripe/route.ts:21-182 | the response and store after the handler are those of `WebhookStep`, and the invariant holds |
| `StripeWebhookRoute.WebhookGuards` | app/api/webhooks/stripe/route.ts:26-66 | unreadable body gives 400, then missing signature gives 400 (before the secret check), then missing secret gives 500; none writes |
| `StripeWebhookRoute.WebhookRejectsBadSignature` | app/api/webhooks/stripe/route.ts:68-95 | a failed verification gives 400 and no write, whatever the body |
| `StripeWebhookRoute.WebhookAcknowledgesOtherEvents` | app/api/webhooks/stripe/route.ts:97-159 | a verified event of another type gives `{received: true}` and no write |
| `StripeWebhookRoute.WebhookUpdatesExisting` | app/api/webhooks/stripe/route.ts:108-127 | a succeeded event rewrites the existing record in place to SUCCEEDED, even one already SUCCEEDED; no record is added |
| `StripeWebhookRoute.WebhookCreatesNew` | app/api/webhooks/stripe/route.ts:128-146 | a succeeded event for an unknown intent creates exactly one SUCCEEDED record |
| `StripeWebhookRoute.WebhookStoreFailure` | app/api/webhooks/stripe/route.ts:148-170 | an unreachable store gives 500 and no write |
| `StripeWebhookRoute.WebhookOutcomes` | app/api/webhooks/stripe/route.ts:21-182 | the code is 200, 400 or 500; every error leaves the store unchanged; consistency is kept |
| `StripeWebhookRoute.WebhookIdempotent` | app/api/webhooks/stripe/route.ts:107-159 | redelivering a succeeded event is acknowledged and leaves the store as the first delivery did |
| `VerifySessionRoute.VerifySession` | app/api/payment/verify/route.ts:15-53 | the response and store after the handler are those of `VerifySessionStep`, and the invariant holds |
| `VerifySessionRoute.VerifySessionMissingId` | app/api/payment/verify/route.ts:19-24 | a missing session id gives 400 for any processor answer; no write |
| `VerifySessionRoute.VerifySessionNotFound` | app/api/payment/verify/route.ts:26-33 | an absent session gives 404; no write |
| `VerifySessionRoute.VerifySessionMarksPaid` | app/api/payment/verify/route.ts:35-45 | a paid session sets only the status of the record keyed by its intent to SUCCEEDED |
| `VerifySessionRoute.VerifySessionNeverCreates` | app/api/payment/verify/route.ts:35-51 | paid with no record, or no intent reference, gives 500 and no write |
| `VerifySessionRoute.VerifySessionUnpaid` | app/api/payment/verify/route.ts:42-45 | an unpaid status is returned verbatim with the session email; no write |
| `VerifySessionRoute.VerifySessionOutcomes` | app/api/payment/verify/route.ts:15-53 | the code is 200, 400, 404 or 500; errors do not write; no record is added; only a status may change, to SUCCEEDED; `checkoutSessionId` is never set |
| `CreateIntentRoute.IntentParamsFor` | app/api/payment/create-intent/route.ts:13-28 | an intent is requested iff the body parses and its amount is a donation amount; it is for exactly amount*100 cents, `usd`, card only; a parsed body with another amount gets 400, and one that does not parse gets 500 |
| `CreateIntentRoute.CreateIntentResponse` | app/api/payment/create-intent/route.ts:13-40 | success returns the client secret; a create failure or an unparseable body gives 500; a refused amount gives 400, whatever the processor would say |
| `CreateIntentRoute.DonationRoundTrip` | app/api/payment/create-intent/route.ts:24-28 | recording a payment created from the requested cents stores exactly the donor's whole amount |
| `CheckoutSessionRoute.SessionParamsFor` | app/api/create-checkout-session/route.ts:9-49 | without a secret key, 500 before the body is read; an unparseable body gives 500; every refusal is an error of 400 or 500; a session is a one-item card payment at a table price, cancelling to the application URL and succeeding to its success page |
| `CheckoutSessionRoute.CheckoutRejectsBadAmount` | app/api/create-checkout-session/route.ts:17-26 | a missing, non-numeric or non-positive amount gives 400 |
| `CheckoutSessionRoute.CheckoutAcceptsOnlyTableAmounts` | app/api/create-checkout-session/route.ts:28-49 | a session is requested iff the amount is in the table; it is in payment mode with one line item, quantity 1, at the matching product's price |
| `CheckoutSessionRoute.CheckoutResponse` | app/api/create-checkout-session/route.ts:9-59 | a missing secret key gives 500 for any request; success returns the session id; a create failure or an unparseable body gives 500; a refusal does not depend on the processor |
| `Reconciliation.WebhookThenPollShortCircuits` | app/api/payment/verify-intent/route.ts:21-36 | after the webhook records a success, a poll for that intent short-circuits and writes nothing |
| `Reconciliation.DeliveryOrderIrrelevant` | app/api/webhooks/stripe/route.ts:107-147 | for a succeeded intent and any consistent store, webhook then poll and poll then webhook succeed and leave the same store |

## Left out

- UI pages, the browser-side processor loader, the processor wrapper
  service and the email service. They render pages or call external APIs,
  and no reconciliation path sends email.
- The processor itself. Signature verification over the raw body, and the
  retrieval and creation of intents and sessions, are inputs (`Reply`, and
  `Result<Event, string>` for `constructEvent`). No cryptography is modelled.
- Timestamps (`createdAt`, `updatedAt`) and the database's string ids. The
  counter id stands in for both.
- Store faults are one availability flag per service instance. A database
  that fails part-way through one handler is not modelled.
- Concurrency. Each handler is one sequential step on the store: races
  between webhook and poll, and a race that hits the unique constraint,
  are not modelled.
- Logging, and the `${err.message}` text the webhook appends to its
  processing-failure message. The verification failure keeps the
  processor's message.
- The webhook's outermost "Fatal webhook error" catch. With headers and env
  as inputs, nothing in the model can throw there.
- Three routes throw at module load when `STRIPE_SECRET_KEY` is missing:
  create-intent and verify directly, and verify-intent through the processor
  wrapper it imports. That is a startup failure, not a per-request path.
- JSON numbers are exact reals: no floating-point rounding, NaN or
  Infinity. JSON cannot carry NaN.
- In the client poll, a truthy `paymentIntentId` that is not a string is
  taken to make the store's lookup throw (500).
- A session's `payment_intent` returned as an expanded object is not modelled.
- `PaymentStore.PaymentService.GetRecentPayments`: `limit` is a `nat`, so
  the store's take-from-the-end meaning of a negative limit is not modelled.
  The source's default limit of 10 is not modelled: every call passes its
  limit explicitly.
