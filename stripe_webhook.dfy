/**
 * The processor's webhook handler (`POST /api/webhooks/stripe`): accept a
 * pushed event only when its signature verifies, reconcile
 * `payment_intent.succeeded` into the store, and acknowledge every other
 * verified event without acting on it.
 */
module StripeWebhookRoute {
  import opened Wrappers
  import opened Http
  import opened Processor
  import opened PaymentStore
  import opened IntentSuccess

  const UnreadableBody: string := "Could not read request body"
  const NoSignature: string := "No Stripe signature found"
  const NoSecret: string := "Webhook secret not configured"
  const VerificationFailed: string := "Webhook verification failed: "
  const ProcessingFailed: string := "Failed to process webhook"

  /**
   * The handler as a step on the table. `bodyRead` says whether the raw body
   * could be read; `signature` is the `stripe-signature` header; `secret` is
   * the configured webhook secret; `verified` is what `constructEvent`
   * makes of the raw body, signature and secret: the event, or the
   * verification error's message.
   */
  function WebhookStep(t: Table, available: bool, bodyRead: bool, signature: Option<string>,
                       secret: Option<string>, verified: Result<Event, string>): (Response, Table)
  {
    if !bodyRead then (Fail(400, UnreadableBody), t)
    else if !Configured(signature) then (Fail(400, NoSignature), t)
    else if !Configured(secret) then (Fail(500, NoSecret), t)
    else if verified.Err? then (Fail(400, VerificationFailed + verified.error), t)
    else
      var event := verified.value;
      if event.eventType != PaymentIntentSucceededEvent then (Success(Received), t)
      else if !available then (Fail(500, ProcessingFailed), t)
      else
        var (w, t') := RecordSucceeded(t, available, Find(t, event.intent.id), event.intent);
        if w.Err? then (Fail(500, ProcessingFailed), t') else (Success(Received), t')
  }

  method HandleWebhook(store: PaymentService, bodyRead: bool, signature: Option<string>,
                       secret: Option<string>, verified: Result<Event, string>) returns (resp: Response)
    requires store.Valid()
    modifies store
    ensures store.Valid()
    ensures (resp, store.Snapshot()) == WebhookStep(old(store.Snapshot()), store.available, bodyRead, signature, secret, verified)
  {
    if !bodyRead {
      return Fail(400, UnreadableBody);
    }
    if !Configured(signature) {
      return Fail(400, NoSignature);
    }
    if !Configured(secret) {
      return Fail(500, NoSecret);
    }
    if verified.Err? {
      return Fail(400, VerificationFailed + verified.error);
    }
    var event := verified.value;
    if event.eventType == PaymentIntentSucceededEvent {
      var found := store.GetPaymentByIntentId(event.intent.id);
      if found.Err? {
        return Fail(500, ProcessingFailed);
      }
      var written := WriteSucceeded(store, found.value, event.intent);
      if written.Err? {
        return Fail(500, ProcessingFailed);
      }
    }
    resp := Success(Received);
  }

  /** The guards, in order, all leave the table as it is. */
  lemma WebhookGuards(t: Table, available: bool, bodyRead: bool, signature: Option<string>,
                      secret: Option<string>, verified: Result<Event, string>)
    ensures !bodyRead ==>
              WebhookStep(t, available, bodyRead, signature, secret, verified) == (Fail(400, UnreadableBody), t)
    ensures bodyRead && !Configured(signature) ==>
              WebhookStep(t, available, bodyRead, signature, secret, verified) == (Fail(400, NoSignature), t)
    ensures bodyRead && Configured(signature) && !Configured(secret) ==>
              WebhookStep(t, available, bodyRead, signature, secret, verified) == (Fail(500, NoSecret), t)
  {
  }

  /** A signature that does not verify gives 400 and no write, whatever the body holds. */
  lemma WebhookRejectsBadSignature(t: Table, available: bool, signature: Option<string>, secret: Option<string>, message: string)
    requires Configured(signature) && Configured(secret)
    ensures WebhookStep(t, available, true, signature, secret, Err(message)) ==
              (Fail(400, VerificationFailed + message), t)
  {
  }

  /** A verified event of another type is acknowledged and changes nothing. */
  lemma WebhookAcknowledgesOtherEvents(t: Table, available: bool, signature: Option<string>, secret: Option<string>, event: Event)
    requires Configured(signature) && Configured(secret)
    requires event.eventType != PaymentIntentSucceededEvent
    ensures WebhookStep(t, available, true, signature, secret, Ok(event)) == (Success(Received), t)
  {
  }

  /**
   * A succeeded event for a stored record rewrites that record in place to
   * SUCCEEDED, with no short-circuit: an already SUCCEEDED record gets the
   * event's metadata and email too. No record is added.
   */
  lemma WebhookUpdatesExisting(t: Table, signature: Option<string>, secret: Option<string>, event: Event)
    requires WellFormed(t) && Configured(signature) && Configured(secret)
    requires event.eventType == PaymentIntentSucceededEvent && event.intent.id in t.payments
    ensures var (resp, t') := WebhookStep(t, true, true, signature, secret, Ok(event));
      var k := event.intent.id;
      var p, p' := t.payments[k], t'.payments[k];
      && resp == Success(Received)
      && t'.payments.Keys == t.payments.Keys
      && t'.order == t.order && t'.nextId == t.nextId
      && p'.id == p.id && p'.amount == p.amount && p'.currency == p.currency
      && p'.status == SUCCEEDED && p'.metadata == Some(event.intent.metadata)
      && p'.customerEmail == (if Configured(event.intent.receiptEmail) then event.intent.receiptEmail else p.customerEmail)
      && (forall k2 :: k2 in t.payments && k2 != k ==> t'.payments[k2] == t.payments[k2])
  {
    RecordSucceededUpdatesInPlace(t, event.intent.id, event.intent);
  }

  /** A succeeded event for an unknown intent creates exactly one SUCCEEDED record for it. */
  lemma WebhookCreatesNew(t: Table, signature: Option<string>, secret: Option<string>, event: Event)
    requires WellFormed(t) && Configured(signature) && Configured(secret)
    requires event.eventType == PaymentIntentSucceededEvent && event.intent.id !in t.payments
    ensures var (resp, t') := WebhookStep(t, true, true, signature, secret, Ok(event));
      var k := event.intent.id;
      && resp == Success(Received)
      && t'.payments.Keys == t.payments.Keys + {k}
      && t'.order == t.order + [k] && t'.nextId == t.nextId + 1
      && t'.payments[k].status == SUCCEEDED
      && t'.payments[k].amount == event.intent.amount as real / 100.0
      && t'.payments[k].currency == event.intent.currency
      && (forall k2 :: k2 in t.payments ==> t'.payments[k2] == t.payments[k2])
  {
    RecordSucceededCreatesOne(t, event.intent);
  }

  /** When the store cannot be reached, a succeeded event ends in 500 and nothing is written. */
  lemma WebhookStoreFailure(t: Table, signature: Option<string>, secret: Option<string>, event: Event)
    requires Configured(signature) && Configured(secret)
    requires event.eventType == PaymentIntentSucceededEvent
    ensures WebhookStep(t, false, true, signature, secret, Ok(event)) == (Fail(500, ProcessingFailed), t)
  {
  }

  /** Every outcome is 200, 400 or 500, an error writes nothing, and the table stays consistent. */
  lemma WebhookOutcomes(t: Table, available: bool, bodyRead: bool, signature: Option<string>,
                        secret: Option<string>, verified: Result<Event, string>)
    requires WellFormed(t)
    ensures var (resp, t') := WebhookStep(t, available, bodyRead, signature, secret, verified);
      && resp.code in {200, 400, 500}
      && (resp.code != 200 ==> t' == t)
      && WellFormed(t')
  {
    if verified.Ok? {
      var intent := verified.value.intent;
      RecordSucceededKeepsWellFormed(t, available, Find(t, intent.id), intent);
    }
  }

  /** Redelivering a succeeded event is acknowledged and leaves the table as the first delivery left it. */
  lemma WebhookIdempotent(t: Table, signature: Option<string>, secret: Option<string>, event: Event)
    requires WellFormed(t) && Configured(signature) && Configured(secret)
    requires event.eventType == PaymentIntentSucceededEvent
    ensures var (resp1, t1) := WebhookStep(t, true, true, signature, secret, Ok(event));
      && resp1 == Success(Received)
      && WebhookStep(t1, true, true, signature, secret, Ok(event)) == (Success(Received), t1)
  {
    RecordSucceededIdempotent(t, event.intent);
  }
}
