/**
 * The client-poll handler (`POST /api/payment/verify-intent`): given the
 * intent id and client secret the browser holds, answer with the payment's
 * status, trusting a stored SUCCEEDED record over the processor, and
 * otherwise record a success the processor reports.
 */
module VerifyIntentRoute {
  import opened Wrappers
  import opened Http
  import opened Processor
  import opened PaymentStore
  import opened IntentSuccess

  const MissingParameters: string := "Missing required parameters"
  const VerifyFailed: string := "Error verifying payment"

  /**
   * The handler as a step from the table before the request to the response
   * and the table after it. `retrieved` is the processor's answer to
   * `paymentIntents.retrieve`; a null intent is dereferenced (for logging)
   * before the not-found guard, so it ends in the catch-all 500.
   */
  function VerifyIntentStep(t: Table, available: bool, req: Request, retrieved: Reply<Option<Intent>>): (Response, Table)
  {
    match req
    case Malformed => (Fail(500, VerifyFailed), t)
    case Json(fields) =>
      var intentId := Field(fields, "paymentIntentId");
      var secret := Field(fields, "clientSecret");
      if !Truthy(intentId) || !Truthy(secret) then (Fail(400, MissingParameters), t)
      else if !intentId.Str? || !available then (Fail(500, VerifyFailed), t)
      else
        var payment := Find(t, intentId.s);
        if payment.Some? && payment.value.status == SUCCEEDED then
          (Success(PaymentState(IntentSucceeded, payment.value.customerEmail)), t)
        else if retrieved.Threw? || retrieved.value.None? then (Fail(500, VerifyFailed), t)
        else
          var intent := retrieved.value.value;
          if intent.status == IntentSucceeded then
            var (w, t') := RecordSucceeded(t, available, payment, intent);
            if w.Err? then (Fail(500, VerifyFailed), t')
            else (Success(PaymentState(IntentSucceeded, intent.receiptEmail)), t')
          else (Success(PaymentState(intent.status, intent.receiptEmail)), t)
  }

  method VerifyIntent(store: PaymentService, req: Request, retrieved: Reply<Option<Intent>>) returns (resp: Response)
    requires store.Valid()
    modifies store
    ensures store.Valid()
    ensures (resp, store.Snapshot()) == VerifyIntentStep(old(store.Snapshot()), store.available, req, retrieved)
  {
    if req.Malformed? {
      return Fail(500, VerifyFailed);
    }
    var intentId := Field(req.fields, "paymentIntentId");
    var secret := Field(req.fields, "clientSecret");
    if !Truthy(intentId) || !Truthy(secret) {
      return Fail(400, MissingParameters);
    }
    if !intentId.Str? {
      return Fail(500, VerifyFailed);  // the store rejects a key that is not a string
    }
    var found := store.GetPaymentByIntentId(intentId.s);
    if found.Err? {
      return Fail(500, VerifyFailed);
    }
    var payment := found.value;
    if payment.Some? && payment.value.status == SUCCEEDED {
      return Success(PaymentState(IntentSucceeded, payment.value.customerEmail));
    }
    if retrieved.Threw? || retrieved.value.None? {
      return Fail(500, VerifyFailed);
    }
    var intent := retrieved.value.value;
    if intent.status == IntentSucceeded {
      var written := WriteSucceeded(store, payment, intent);
      if written.Err? {
        return Fail(500, VerifyFailed);
      }
      return Success(PaymentState(IntentSucceeded, intent.receiptEmail));
    }
    resp := Success(PaymentState(intent.status, intent.receiptEmail));
  }

  /** The request carries both parameters, the intent id as the string `k`. */
  predicate AsksFor(req: Request, k: string)
  {
    && req.Json?
    && Field(req.fields, "paymentIntentId") == Str(k) && k != ""
    && Truthy(Field(req.fields, "clientSecret"))
  }

  /**
   * Every outcome is 200, 400 or 500 (never 404: the not-found guard is
   * unreachable), an error leaves the table as it was, and the table stays
   * consistent.
   */
  lemma VerifyIntentOutcomes(t: Table, available: bool, req: Request, retrieved: Reply<Option<Intent>>)
    requires WellFormed(t)
    ensures var (resp, t') := VerifyIntentStep(t, available, req, retrieved);
      && resp.code in {200, 400, 500}
      && (resp.code != 200 ==> t' == t)
      && WellFormed(t')
  {
    if req.Json? && retrieved.Returned? && retrieved.value.Some? {
      var intentId := Field(req.fields, "paymentIntentId");
      if intentId.Str? {
        RecordSucceededKeepsWellFormed(t, available, Find(t, intentId.s), retrieved.value.value);
      }
    }
  }

  /** Without both parameters the answer is 400, whatever the store holds or the processor says. */
  lemma VerifyIntentMissingParameters(t: Table, available: bool, req: Request, retrieved: Reply<Option<Intent>>)
    requires req.Json?
    requires !Truthy(Field(req.fields, "paymentIntentId")) || !Truthy(Field(req.fields, "clientSecret"))
    ensures VerifyIntentStep(t, available, req, retrieved) == (Fail(400, MissingParameters), t)
  {
  }

  /**
   * A stored SUCCEEDED record short-circuits: the answer is "succeeded" with
   * the stored email, the processor's answer is never consulted and the
   * table is unchanged.
   */
  lemma VerifyIntentShortCircuit(t: Table, req: Request, k: string, retrieved: Reply<Option<Intent>>)
    requires WellFormed(t) && AsksFor(req, k)
    requires k in t.payments && t.payments[k].status == SUCCEEDED
    ensures VerifyIntentStep(t, true, req, retrieved) ==
              (Success(PaymentState(IntentSucceeded, t.payments[k].customerEmail)), t)
  {
  }

  /** A missing or failed processor answer ends in 500 with the table unchanged. */
  lemma VerifyIntentAuthorityFailure(t: Table, req: Request, k: string, retrieved: Reply<Option<Intent>>)
    requires AsksFor(req, k)
    requires k !in t.payments || t.payments[k].status != SUCCEEDED
    requires retrieved.Threw? || retrieved.value.None?
    ensures VerifyIntentStep(t, true, req, retrieved) == (Fail(500, VerifyFailed), t)
  {
  }

  /**
   * A succeeded intent with a stored (not yet SUCCEEDED) record updates that
   * same record in place to SUCCEEDED with the intent's email and metadata;
   * no record is created and no other record changes.
   */
  lemma VerifyIntentUpdatesExisting(t: Table, req: Request, k: string, intent: Intent)
    requires WellFormed(t) && AsksFor(req, k)
    requires k in t.payments && t.payments[k].status != SUCCEEDED
    requires intent.status == IntentSucceeded
    ensures var (resp, t') := VerifyIntentStep(t, true, req, Returned(Some(intent)));
      var p, p' := t.payments[k], t'.payments[k];
      && resp == Success(PaymentState(IntentSucceeded, intent.receiptEmail))
      && t'.payments.Keys == t.payments.Keys
      && t'.order == t.order && t'.nextId == t.nextId
      && p'.id == p.id && p'.amount == p.amount && p'.currency == p.currency
      && p'.status == SUCCEEDED && p'.metadata == Some(intent.metadata)
      && p'.customerEmail == (if Configured(intent.receiptEmail) then intent.receiptEmail else p.customerEmail)
      && (forall k2 :: k2 in t.payments && k2 != k ==> t'.payments[k2] == t.payments[k2])
  {
    RecordSucceededUpdatesInPlace(t, k, intent);
  }

  /**
   * A succeeded intent with no stored record creates exactly one record, for
   * that intent, with status SUCCEEDED and the intent's amount and currency.
   */
  lemma VerifyIntentCreatesNew(t: Table, req: Request, k: string, intent: Intent)
    requires WellFormed(t) && AsksFor(req, k)
    requires k !in t.payments && intent.id == k
    requires intent.status == IntentSucceeded
    ensures var (resp, t') := VerifyIntentStep(t, true, req, Returned(Some(intent)));
      && resp == Success(PaymentState(IntentSucceeded, intent.receiptEmail))
      && t'.payments.Keys == t.payments.Keys + {k}
      && t'.order == t.order + [k] && t'.nextId == t.nextId + 1
      && t'.payments[k].status == SUCCEEDED
      && t'.payments[k].amount == intent.amount as real / 100.0
      && t'.payments[k].currency == intent.currency
      && (forall k2 :: k2 in t.payments ==> t'.payments[k2] == t.payments[k2])
  {
    RecordSucceededCreatesOne(t, intent);
  }

  /**
   * Any other processor status is answered verbatim with the receipt email,
   * and nothing is written, whether or not a record exists.
   */
  lemma VerifyIntentPassesStatusThrough(t: Table, req: Request, k: string, intent: Intent)
    requires AsksFor(req, k)
    requires k !in t.payments || t.payments[k].status != SUCCEEDED
    requires intent.status != IntentSucceeded
    ensures VerifyIntentStep(t, true, req, Returned(Some(intent))) ==
              (Success(PaymentState(intent.status, intent.receiptEmail)), t)
  {
  }

  /**
   * Polling again after a succeeded reconciliation takes the short-circuit:
   * whatever the processor would now say, the answer is "succeeded" and the
   * table stays as the first poll left it.
   */
  lemma VerifyIntentIdempotent(t: Table, req: Request, k: string, intent: Intent, later: Reply<Option<Intent>>)
    requires WellFormed(t) && AsksFor(req, k)
    requires intent.id == k && intent.status == IntentSucceeded
    ensures var (resp1, t1) := VerifyIntentStep(t, true, req, Returned(Some(intent)));
      && resp1.code == 200
      && k in t1.payments && t1.payments[k].status == SUCCEEDED
      && VerifyIntentStep(t1, true, req, later) ==
           (Success(PaymentState(IntentSucceeded, t1.payments[k].customerEmail)), t1)
  {
    if k in t.payments && t.payments[k].status == SUCCEEDED {
    } else {
      RecordSucceededIdempotent(t, intent);
    }
  }
}
