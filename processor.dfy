/**
 * The payment processor (Stripe) seen from this system: the objects it
 * returns, as plain data, and the shape of its answers. Every call into the
 * processor is an input of the model; nothing here talks to it.
 */
module Processor {
  import opened Wrappers

  /** The answer of one processor call: a returned value, or a thrown error. */
  datatype Reply<+T> = Returned(value: T) | Threw

  /** A payment intent: `status` is the processor's own lower-case vocabulary. */
  datatype Intent = Intent(
    id: string,
    status: string,
    amount: int,                   // minor units (cents)
    currency: string,
    receiptEmail: Option<string>,  // `receipt_email`, possibly null
    metadata: map<string, string>)

  /** A checkout session: `payment_status`, its `payment_intent` reference and `customer_details?.email`. */
  datatype Session = Session(
    paymentStatus: string,
    paymentIntent: Option<string>,
    customerEmail: Option<string>)

  /** A verified webhook event; `intent` is `event.data.object`, read only for intent events. */
  datatype Event = Event(eventType: string, intent: Intent)

  /** The processor's status string for a settled intent. */
  const IntentSucceeded: string := "succeeded"

  /** The one event type the webhook reconciles. */
  const PaymentIntentSucceededEvent: string := "payment_intent.succeeded"

  /** The checkout session's `payment_status` once it has been paid. */
  const SessionPaid: string := "paid"
}
