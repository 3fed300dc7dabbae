/**
 * How the entry points combine: a webhook delivery and a client poll for
 * the same succeeded intent converge on the same record, in either order.
 */
module Reconciliation {
  import opened Wrappers
  import opened Http
  import opened Processor
  import opened PaymentStore
  import opened IntentSuccess
  import opened VerifyIntentRoute
  import opened StripeWebhookRoute

  /** After the webhook records a success, a poll for that intent takes the short-circuit and writes nothing. */
  lemma WebhookThenPollShortCircuits(t: Table, signature: Option<string>, secret: Option<string>,
                                     event: Event, req: Request, later: Reply<Option<Intent>>)
    requires WellFormed(t) && Configured(signature) && Configured(secret)
    requires event.eventType == PaymentIntentSucceededEvent
    requires AsksFor(req, event.intent.id)
    ensures var (_, t1) := WebhookStep(t, true, true, signature, secret, Ok(event));
      && event.intent.id in t1.payments
      && VerifyIntentStep(t1, true, req, later) ==
           (Success(PaymentState(IntentSucceeded, t1.payments[event.intent.id].customerEmail)), t1)
  {
    RecordSucceededIdempotent(t, event.intent);
  }

  /**
   * Webhook-then-poll and poll-then-webhook for a succeeded intent leave the
   * same table, and both calls succeed in either order. When the record is
   * already SUCCEEDED the poll short-circuits and the webhook still rewrites
   * it; otherwise the second write finds the first one's record.
   */
  lemma DeliveryOrderIrrelevant(t: Table, signature: Option<string>, secret: Option<string>,
                                intent: Intent, req: Request)
    requires WellFormed(t) && Configured(signature) && Configured(secret)
    requires intent.status == IntentSucceeded && AsksFor(req, intent.id)
    ensures var event := Event(PaymentIntentSucceededEvent, intent);
      var (w1, tw) := WebhookStep(t, true, true, signature, secret, Ok(event));
      var (p2, twp) := VerifyIntentStep(tw, true, req, Returned(Some(intent)));
      var (p1, tp) := VerifyIntentStep(t, true, req, Returned(Some(intent)));
      var (w2, tpw) := WebhookStep(tp, true, true, signature, secret, Ok(event));
      && w1 == w2 == Success(Received)
      && p1.code == p2.code == 200
      && twp == tpw
  {
    var event := Event(PaymentIntentSucceededEvent, intent);
    RecordSucceededIdempotent(t, intent);
    var tw := WebhookStep(t, true, true, signature, secret, Ok(event)).1;
    if intent.id in t.payments && t.payments[intent.id].status == SUCCEEDED {
      assert VerifyIntentStep(t, true, req, Returned(Some(intent))).1 == t;
    } else {
      assert VerifyIntentStep(t, true, req, Returned(Some(intent))).1 == tw;
    }
  }
}
