/**
 * The checkout-session handler (`POST /api/payment/verify`): look the
 * session up at the processor and, once it is paid, mark the record of its
 * payment intent SUCCEEDED. It never creates a record.
 */
module VerifySessionRoute {
  import opened Wrappers
  import opened Http
  import opened Processor
  import opened PaymentStore

  const SessionIdRequired: string := "Session ID is required"
  const SessionNotFound: string := "Session not found"
  const VerifyFailed: string := "Failed to verify payment"

  /**
   * The handler as a step on the table; `retrieved` is the processor's
   * answer to `checkout.sessions.retrieve`. A paid session whose
   * `payment_intent` is null reaches the store with a null key, which the
   * store rejects (500).
   */
  function VerifySessionStep(t: Table, available: bool, req: Request, retrieved: Reply<Option<Session>>): (Response, Table)
  {
    match req
    case Malformed => (Fail(500, VerifyFailed), t)
    case Json(fields) =>
      if !Truthy(Field(fields, "sessionId")) then (Fail(400, SessionIdRequired), t)
      else if retrieved.Threw? then (Fail(500, VerifyFailed), t)
      else if retrieved.value.None? then (Fail(404, SessionNotFound), t)
      else
        var session := retrieved.value.value;
        var answer := Success(PaymentState(session.paymentStatus, session.customerEmail));
        if session.paymentStatus != SessionPaid then (answer, t)
        else if session.paymentIntent.None? then (Fail(500, VerifyFailed), t)
        else
          var (w, t') := UpdateStatus(t, available, session.paymentIntent.value, SUCCEEDED);
          if w.Err? then (Fail(500, VerifyFailed), t') else (answer, t')
  }

  method VerifySession(store: PaymentService, req: Request, retrieved: Reply<Option<Session>>) returns (resp: Response)
    requires store.Valid()
    modifies store
    ensures store.Valid()
    ensures (resp, store.Snapshot()) == VerifySessionStep(old(store.Snapshot()), store.available, req, retrieved)
  {
    if req.Malformed? {
      return Fail(500, VerifyFailed);
    }
    if !Truthy(Field(req.fields, "sessionId")) {
      return Fail(400, SessionIdRequired);
    }
    if retrieved.Threw? {
      return Fail(500, VerifyFailed);
    }
    if retrieved.value.None? {
      return Fail(404, SessionNotFound);
    }
    var session := retrieved.value.value;
    if session.paymentStatus == SessionPaid {
      if session.paymentIntent.None? {
        return Fail(500, VerifyFailed);
      }
      var written := store.UpdatePaymentStatus(session.paymentIntent.value, SUCCEEDED);
      if written.Err? {
        return Fail(500, VerifyFailed);
      }
    }
    resp := Success(PaymentState(session.paymentStatus, session.customerEmail));
  }

  /** Without a session id the answer is 400, whatever the processor would say. */
  lemma VerifySessionMissingId(t: Table, available: bool, req: Request, retrieved: Reply<Option<Session>>)
    requires req.Json? && !Truthy(Field(req.fields, "sessionId"))
    ensures VerifySessionStep(t, available, req, retrieved) == (Fail(400, SessionIdRequired), t)
  {
  }

  /** An absent session is answered 404 with nothing written. */
  lemma VerifySessionNotFound(t: Table, available: bool, req: Request)
    requires req.Json? && Truthy(Field(req.fields, "sessionId"))
    ensures VerifySessionStep(t, available, req, Returned(None)) == (Fail(404, SessionNotFound), t)
  {
  }

  /**
   * A paid session marks the record keyed by its payment intent SUCCEEDED;
   * every other field of that record, and every other record, is unchanged.
   */
  lemma VerifySessionMarksPaid(t: Table, req: Request, session: Session)
    requires WellFormed(t) && req.Json? && Truthy(Field(req.fields, "sessionId"))
    requires session.paymentStatus == SessionPaid
    requires session.paymentIntent.Some? && session.paymentIntent.value in t.payments
    ensures var (resp, t') := VerifySessionStep(t, true, req, Returned(Some(session)));
      var k := session.paymentIntent.value;
      && resp == Success(PaymentState(SessionPaid, session.customerEmail))
      && t'.payments == t.payments[k := t.payments[k].(status := SUCCEEDED)]
      && t'.order == t.order && t'.nextId == t.nextId
  {
    UpdateStatusChangesOnlyStatus(t, true, session.paymentIntent.value, SUCCEEDED);
  }

  /** A paid session whose intent has no record (or no intent reference) fails with 500: no record is created. */
  lemma VerifySessionNeverCreates(t: Table, req: Request, session: Session)
    requires req.Json? && Truthy(Field(req.fields, "sessionId"))
    requires session.paymentStatus == SessionPaid
    requires session.paymentIntent.None? || session.paymentIntent.value !in t.payments
    ensures VerifySessionStep(t, true, req, Returned(Some(session))) == (Fail(500, VerifyFailed), t)
  {
  }

  /** An unpaid session's status is answered verbatim with the session's email, and nothing is written. */
  lemma VerifySessionUnpaid(t: Table, available: bool, req: Request, session: Session)
    requires req.Json? && Truthy(Field(req.fields, "sessionId"))
    requires session.paymentStatus != SessionPaid
    ensures VerifySessionStep(t, available, req, Returned(Some(session))) ==
              (Success(PaymentState(session.paymentStatus, session.customerEmail)), t)
  {
  }

  /**
   * Every outcome is 200, 400, 404 or 500; an error writes nothing; no
   * record is added; and a write sets a status to SUCCEEDED and touches no
   * other field, so the checkout session id is never set.
   */
  lemma VerifySessionOutcomes(t: Table, available: bool, req: Request, retrieved: Reply<Option<Session>>)
    requires WellFormed(t)
    ensures var (resp, t') := VerifySessionStep(t, available, req, retrieved);
      && resp.code in {200, 400, 404, 500}
      && (resp.code != 200 ==> t' == t)
      && WellFormed(t')
      && t'.payments.Keys == t.payments.Keys
      && t'.order == t.order && t'.nextId == t.nextId
      && (forall k :: k in t.payments ==>
            t'.payments[k] == t.payments[k] || t'.payments[k] == t.payments[k].(status := SUCCEEDED))
  {
    var t' := VerifySessionStep(t, available, req, retrieved).1;
    if && req.Json? && Truthy(Field(req.fields, "sessionId"))
       && retrieved.Returned? && retrieved.value.Some?
       && retrieved.value.value.paymentStatus == SessionPaid
       && retrieved.value.value.paymentIntent.Some?
    {
      var key := retrieved.value.value.paymentIntent.value;
      UpdateStatusChangesOnlyStatus(t, available, key, SUCCEEDED);
      UpdateStatusKeepsWellFormed(t, available, key, SUCCEEDED);
      assert t' == UpdateStatus(t, available, key, SUCCEEDED).1;
    } else {
      assert t' == t;
    }
  }
}
