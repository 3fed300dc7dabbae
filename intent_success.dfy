/**
 * The create-or-update block that both the client-poll handler and the
 * webhook handler run once the processor reports an intent as succeeded:
 * update the existing record to SUCCEEDED, or create one with SUCCEEDED.
 */
module IntentSuccess {
  import opened Wrappers
  import opened Http
  import opened Processor
  import opened PaymentStore

  /** `{ status: 'SUCCEEDED', customerEmail: receipt_email || undefined, metadata }`. */
  function SucceededUpdate(intent: Intent): UpdateInput
  {
    UpdateInput(Some(SUCCEEDED), Some(intent.metadata), None, OrUndefined(intent.receiptEmail))
  }

  /** The `createPayment` argument built from a succeeded intent. */
  function SucceededCreate(intent: Intent): CreateInput
  {
    CreateInput(intent.amount, intent.currency, intent.id, Some(intent.metadata), Some(SUCCEEDED),
                OrUndefined(intent.receiptEmail))
  }

  /** Update `existing` (by its internal id) when there is one, else create a record for the intent. */
  function RecordSucceeded(t: Table, available: bool, existing: Option<Payment>, intent: Intent): (Result<Payment, StoreError>, Table)
  {
    if existing.Some? then Update(t, available, existing.value.id, SucceededUpdate(intent))
    else Create(t, available, SucceededCreate(intent))
  }

  method WriteSucceeded(store: PaymentService, existing: Option<Payment>, intent: Intent)
    returns (r: Result<Payment, StoreError>)
    requires store.Valid()
    modifies store
    ensures store.Valid()
    ensures (r, store.Snapshot()) == RecordSucceeded(old(store.Snapshot()), store.available, existing, intent)
  {
    if existing.Some? {
      r := store.UpdatePayment(existing.value.id, SucceededUpdate(intent));
    } else {
      r := store.CreatePayment(SucceededCreate(intent));
    }
  }

  /** The write keeps the table consistent and, when it fails, leaves it as it was. */
  lemma RecordSucceededKeepsWellFormed(t: Table, available: bool, existing: Option<Payment>, intent: Intent)
    requires WellFormed(t)
    ensures WellFormed(RecordSucceeded(t, available, existing, intent).1)
    ensures RecordSucceeded(t, available, existing, intent).0.Err? ==> RecordSucceeded(t, available, existing, intent).1 == t
  {
    if existing.Some? {
      UpdateKeepsWellFormed(t, available, existing.value.id, SucceededUpdate(intent));
    } else {
      CreateKeepsWellFormed(t, available, SucceededCreate(intent));
    }
  }

  /**
   * With a stored record, the same record (same key, same internal id) is
   * rewritten: status SUCCEEDED, the intent's metadata, its receipt email
   * when it has one; amount, currency and checkout session are kept and no
   * other record changes. No record is added.
   */
  lemma RecordSucceededUpdatesInPlace(t: Table, k: string, intent: Intent)
    requires WellFormed(t) && k in t.payments
    ensures var (r, t') := RecordSucceeded(t, true, Some(t.payments[k]), intent);
      var p, p' := t.payments[k], t'.payments[k];
      && r.Ok?
      && t'.payments.Keys == t.payments.Keys
      && t'.order == t.order && t'.nextId == t.nextId
      && p'.id == p.id && p'.paymentIntentId == k
      && p'.amount == p.amount && p'.currency == p.currency
      && p'.checkoutSessionId == p.checkoutSessionId
      && p'.status == SUCCEEDED
      && p'.metadata == Some(intent.metadata)
      && p'.customerEmail == (if Configured(intent.receiptEmail) then intent.receiptEmail else p.customerEmail)
      && (forall k2 :: k2 in t.payments && k2 != k ==> t'.payments[k2] == t.payments[k2])
  {
    UpdateHitsRecord(t, k, SucceededUpdate(intent));
  }

  /**
   * With no stored record, exactly one record is created, under the
   * intent's id: status SUCCEEDED, the intent's amount in major units, its
   * currency, metadata and receipt email; no other record changes.
   */
  lemma RecordSucceededCreatesOne(t: Table, intent: Intent)
    requires WellFormed(t) && intent.id !in t.payments
    ensures var (r, t') := RecordSucceeded(t, true, None, intent);
      var p' := t'.payments[intent.id];
      && r.Ok?
      && t'.payments.Keys == t.payments.Keys + {intent.id}
      && t'.order == t.order + [intent.id] && t'.nextId == t.nextId + 1
      && p'.status == SUCCEEDED
      && p'.amount == intent.amount as real / 100.0
      && p'.currency == intent.currency
      && p'.metadata == Some(intent.metadata)
      && p'.customerEmail == OrUndefined(intent.receiptEmail)
      && p'.checkoutSessionId.None?
      && (forall k2 :: k2 in t.payments ==> t'.payments[k2] == t.payments[k2] && t'.payments[k2].id != p'.id)
  {
    CreateStoresInput(t, true, SucceededCreate(intent));
  }

  /** A record that already carries what the success write would set. */
  predicate CarriesSuccess(p: Payment, intent: Intent)
  {
    && p.status == SUCCEEDED
    && p.metadata == Some(intent.metadata)
    && (Configured(intent.receiptEmail) ==> p.customerEmail == intent.receiptEmail)
  }

  /** Writing the success onto a record that already carries it changes nothing. */
  lemma SuccessWriteFixesCarrier(t: Table, k: string, intent: Intent)
    requires WellFormed(t) && k in t.payments && CarriesSuccess(t.payments[k], intent)
    ensures RecordSucceeded(t, true, Some(t.payments[k]), intent) == (Ok(t.payments[k]), t)
  {
    UpdateHitsRecord(t, k, SucceededUpdate(intent));
    assert Patch(t.payments[k], SucceededUpdate(intent)) == t.payments[k];
    assert t.payments[k := t.payments[k]] == t.payments;
  }

  /**
   * Looking the record up by the intent's own id and writing the success
   * twice gives the table the first write gave: the write is idempotent.
   */
  lemma RecordSucceededIdempotent(t: Table, intent: Intent)
    requires WellFormed(t)
    ensures var (r1, t1) := RecordSucceeded(t, true, Find(t, intent.id), intent);
      && r1.Ok?
      && intent.id in t1.payments && CarriesSuccess(t1.payments[intent.id], intent)
      && RecordSucceeded(t1, true, Find(t1, intent.id), intent) == (Ok(t1.payments[intent.id]), t1)
  {
    var t1 := RecordSucceeded(t, true, Find(t, intent.id), intent).1;
    if intent.id in t.payments {
      RecordSucceededUpdatesInPlace(t, intent.id, intent);
    } else {
      RecordSucceededCreatesOne(t, intent);
    }
    RecordSucceededKeepsWellFormed(t, true, Find(t, intent.id), intent);
    SuccessWriteFixesCarrier(t1, intent.id, intent);
  }
}
