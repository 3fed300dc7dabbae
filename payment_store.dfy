/**
 * The payment record store: persisted payment records keyed by the
 * processor's payment-intent id (a unique column) and the service that
 * creates, updates and queries them.
 *
 * The persisted table is modelled as a value (Table) with pure operations
 * that specify each service call; the class PaymentService holds the table
 * in its fields and implements the calls by updating those fields in place.
 */
module PaymentStore {
  import opened Wrappers

  /** The store's status taxonomy (upper case, unlike the processor's). */
  datatype Status = PENDING | PROCESSING | SUCCEEDED | FAILED | CANCELED

  /** Processor metadata, stored verbatim. */
  type Metadata = map<string, string>

  /**
   * One payment record. `id` is the internal identifier the store assigns on
   * creation; it is drawn from a counter, so it also records creation order.
   */
  datatype Payment = Payment(
    id: nat,
    paymentIntentId: string,
    amount: real,          // major units
    currency: string,
    status: Status,
    customerEmail: Option<string>,
    metadata: Option<Metadata>,
    checkoutSessionId: Option<string>)

  /** The argument of `createPayment`; `amount` is in minor units (cents). */
  datatype CreateInput = CreateInput(
    amount: int,
    currency: string,
    paymentIntentId: string,
    metadata: Option<Metadata>,
    status: Option<Status>,
    customerEmail: Option<string>)

  /** The argument of `updatePayment`; a field that is None is left as it is. */
  datatype UpdateInput = UpdateInput(
    status: Option<Status>,
    metadata: Option<Metadata>,
    checkoutSessionId: Option<string>,
    customerEmail: Option<string>)

  /** Why a store call throws: the database is unreachable, the unique key is taken, no row matches. */
  datatype StoreError = Unavailable | UniqueViolation | RecordNotFound

  /**
   * The persisted table: the records by payment-intent id, the keys in
   * creation order, and the next internal id to hand out.
   */
  datatype Table = Table(payments: map<string, Payment>, order: seq<string>, nextId: nat)

  /** Consistency of the table: keys are the records' intent ids, `order` lists every key once, and ids grow with creation. */
  ghost predicate WellFormed(t: Table)
  {
    && (forall k :: k in t.payments ==> t.payments[k].paymentIntentId == k && t.payments[k].id < t.nextId)
    && (forall k :: k in t.payments <==> k in t.order)
    && (forall i, j :: 0 <= i < j < |t.order| ==> t.payments[t.order[i]].id < t.payments[t.order[j]].id)
  }

  /** Every key listed in `order` has a record. */
  ghost predicate Listed(order: seq<string>, payments: map<string, Payment>)
  {
    forall i :: 0 <= i < |order| ==> order[i] in payments
  }

  /** Internal ids never repeat: the store's primary key is unique. */
  lemma IdsUnique(t: Table, k1: string, k2: string)
    requires WellFormed(t)
    requires k1 in t.payments && k2 in t.payments && k1 != k2
    ensures t.payments[k1].id != t.payments[k2].id
  {
    var i :| 0 <= i < |t.order| && t.order[i] == k1;
    var j :| 0 <= j < |t.order| && t.order[j] == k2;
    assert i != j;
  }

  /** `input.amount / 100`: minor units to major units. */
  function MajorUnits(cents: int): real
  {
    cents as real / 100.0
  }

  // ---------------------------------------------------------------------------
  // Queries
  // ---------------------------------------------------------------------------

  /** `getPaymentByIntentId`: the unique record whose intent id is `paymentIntentId`, or none. */
  function Find(t: Table, paymentIntentId: string): (r: Option<Payment>)
    ensures WellFormed(t) && r.Some? ==>
              r.value in t.payments.Values && r.value.paymentIntentId == paymentIntentId
    ensures WellFormed(t) ==>
              forall p :: p in t.payments.Values && p.paymentIntentId == paymentIntentId ==> r == Some(p)
  {
    if paymentIntentId in t.payments then Some(t.payments[paymentIntentId]) else None
  }

  /** Records of `order` whose ids decrease from first to last. */
  ghost predicate NewestFirst(r: seq<Payment>)
  {
    forall i, j :: 0 <= i < j < |r| ==> r[i].id > r[j].id
  }

  /** Ids grow along `order`. */
  ghost predicate IdsIncrease(order: seq<string>, payments: map<string, Payment>)
    requires Listed(order, payments)
  {
    forall i, j :: 0 <= i < j < |order| ==> payments[order[i]].id < payments[order[j]].id
  }

  /** The records of `order` with status `status`, taken from the newest key to the oldest. */
  function WithStatus(order: seq<string>, payments: map<string, Payment>, status: Status): (r: seq<Payment>)
    requires Listed(order, payments)
    ensures forall p :: p in r ==> p.status == status
    ensures forall p :: p in r ==> exists i :: 0 <= i < |order| && payments[order[i]] == p
    ensures forall i :: 0 <= i < |order| && payments[order[i]].status == status ==> payments[order[i]] in r
  {
    if order == [] then []
    else
      var last := order[|order| - 1];
      var rest := WithStatus(order[..|order| - 1], payments, status);
      assert forall i :: 0 <= i < |order| - 1 ==> order[..|order| - 1][i] == order[i];
      if payments[last].status == status then [payments[last]] + rest else rest
  }

  lemma {:induction false} WithStatusNewestFirst(order: seq<string>, payments: map<string, Payment>, status: Status)
    requires Listed(order, payments) && IdsIncrease(order, payments)
    ensures NewestFirst(WithStatus(order, payments, status))
  {
    if order != [] {
      var init := order[..|order| - 1];
      assert forall i :: 0 <= i < |init| ==> init[i] == order[i];
      WithStatusNewestFirst(init, payments, status);
      var last := payments[order[|order| - 1]];
      var rest := WithStatus(init, payments, status);
      forall p | p in rest ensures p.id < last.id {
        var i :| 0 <= i < |init| && payments[init[i]] == p;
        assert payments[order[i]] == p;
      }
      if last.status == status {
        var r := [last] + rest;
        forall i, j | 0 <= i < j < |r| ensures r[i].id > r[j].id {
          if i == 0 {
            assert r[j] == rest[j - 1] && rest[j - 1] in rest;
          } else {
            assert r[i] == rest[i - 1] && r[j] == rest[j - 1];
          }
        }
      }
    }
  }

  /** `getPaymentsByStatus` (ordered by creation, newest first). */
  function ByStatus(t: Table, status: Status): seq<Payment>
    requires Listed(t.order, t.payments)
  {
    WithStatus(t.order, t.payments, status)
  }

  /** `getPaymentsByStatus` returns exactly the stored records with that status, newest first. */
  lemma ByStatusExact(t: Table, status: Status)
    requires WellFormed(t)
    ensures Listed(t.order, t.payments)
    ensures forall p :: p in ByStatus(t, status) <==> p in t.payments.Values && p.status == status
    ensures NewestFirst(ByStatus(t, status))
  {
    WithStatusNewestFirst(t.order, t.payments, status);
    forall p | p in t.payments.Values && p.status == status ensures p in ByStatus(t, status) {
      var k :| k in t.payments && t.payments[k] == p;
      var i :| 0 <= i < |t.order| && t.order[i] == k;
    }
  }

  /** `getRecentPayments(limit)`: the first `limit` records, newest first. */
  function Recent(t: Table, limit: nat): seq<Payment>
    requires Listed(t.order, t.payments)
  {
    var n := if limit < |t.order| then limit else |t.order|;
    seq(n, i requires 0 <= i < n => t.payments[t.order[|t.order| - 1 - i]])
  }

  /** The records `getRecentPayments` returns are stored ones, newest first, at most `limit` of them. */
  lemma RecentNewestFirst(t: Table, limit: nat)
    requires WellFormed(t)
    ensures Listed(t.order, t.payments)
    ensures |Recent(t, limit)| <= limit
    ensures forall p :: p in Recent(t, limit) ==> p in t.payments.Values
    ensures NewestFirst(Recent(t, limit))
  {
    var r := Recent(t, limit);
    var n := |t.order|;
    RecentAt(t, limit, 0);
    forall p | p in r ensures p in t.payments.Values {
      var i :| 0 <= i < |r| && r[i] == p;
      RecentAt(t, limit, i);
      assert t.order[n - 1 - i] in t.payments;
    }
    forall i, j | 0 <= i < j < |r| ensures r[i].id > r[j].id {
      RecentAt(t, limit, i);
      RecentAt(t, limit, j);
    }
  }

  /** The `i`-th record `getRecentPayments` returns is the `i`-th newest. */
  lemma RecentAt(t: Table, limit: nat, i: nat)
    requires Listed(t.order, t.payments)
    ensures |Recent(t, limit)| == if limit < |t.order| then limit else |t.order|
    ensures i < |Recent(t, limit)| ==> Recent(t, limit)[i] == t.payments[t.order[|t.order| - 1 - i]]
  {
  }

  /** A sequence whose entries are pairwise distinct has as many distinct elements as entries. */
  lemma {:induction false} DistinctKeysCount(s: seq<string>)
    requires forall i, j :: 0 <= i < j < |s| ==> s[i] != s[j]
    ensures |set x | x in s| == |s|
  {
    if s != [] {
      var init := s[..|s| - 1];
      assert forall i :: 0 <= i < |init| ==> init[i] == s[i];
      DistinctKeysCount(init);
      assert (set x | x in s) == (set x | x in init) + {s[|s| - 1]};
      assert s[|s| - 1] !in init;
    }
  }

  /** In a consistent table, `order` holds exactly one entry per stored record. */
  lemma OrderCountsRecords(t: Table)
    requires WellFormed(t)
    ensures |t.order| == |t.payments|
  {
    forall i, j | 0 <= i < j < |t.order| ensures t.order[i] != t.order[j] {
      assert t.payments[t.order[i]].id < t.payments[t.order[j]].id;
    }
    DistinctKeysCount(t.order);
    assert t.payments.Keys == set x | x in t.order;
  }

  /**
   * `getRecentPayments` returns min(limit, number of stored records)
   * records, and they are the newest ones: every stored record it leaves out
   * has a smaller id than every record it returns.
   */
  lemma RecentCount(t: Table, limit: nat)
    requires WellFormed(t)
    ensures Listed(t.order, t.payments)
    ensures |Recent(t, limit)| == if limit < |t.payments| then limit else |t.payments|
    ensures forall p, q :: p in Recent(t, limit) && q in t.payments.Values && q !in Recent(t, limit) ==> q.id < p.id
  {
    OrderCountsRecords(t);
    RecentAt(t, limit, 0);
    forall p, q | p in Recent(t, limit) && q in t.payments.Values && q !in Recent(t, limit) ensures q.id < p.id {
      var k :| k in t.payments && t.payments[k] == q;
      RecentOmitsOnlyOlder(t, limit, k);
      var i :| 0 <= i < |Recent(t, limit)| && Recent(t, limit)[i] == p;
    }
  }

  /** Every stored record that `getRecentPayments` leaves out is older than all those it returns. */
  lemma RecentOmitsOnlyOlder(t: Table, limit: nat, k: string)
    requires WellFormed(t) && k in t.payments
    ensures Listed(t.order, t.payments)
    ensures t.payments[k] !in Recent(t, limit) ==>
              |Recent(t, limit)| == limit &&
              forall i :: 0 <= i < limit ==> t.payments[k].id < Recent(t, limit)[i].id
  {
    var n := |t.order|;
    var j :| 0 <= j < n && t.order[j] == k;
    RecentAt(t, limit, n - 1 - j);
    if t.payments[k] !in Recent(t, limit) {
      forall i | 0 <= i < limit ensures t.payments[k].id < Recent(t, limit)[i].id {
        RecentAt(t, limit, i);
        assert j < n - 1 - i;
      }
    }
  }

  // ---------------------------------------------------------------------------
  // Writes
  // ---------------------------------------------------------------------------

  /** The record `createPayment` inserts. */
  function NewPayment(t: Table, input: CreateInput): Payment
  {
    Payment(t.nextId, input.paymentIntentId, MajorUnits(input.amount), input.currency,
            if input.status.Some? then input.status.value else PENDING,
            input.customerEmail, input.metadata, None)
  }

  /** `createPayment`: insert a new record, refused when the intent id is already taken. */
  function Create(t: Table, available: bool, input: CreateInput): (Result<Payment, StoreError>, Table)
  {
    if !available then (Err(Unavailable), t)
    else if input.paymentIntentId in t.payments then (Err(UniqueViolation), t)
    else
      var p := NewPayment(t, input);
      (Ok(p), Table(t.payments[input.paymentIntentId := p], t.order + [input.paymentIntentId], t.nextId + 1))
  }

  lemma CreateKeepsWellFormed(t: Table, available: bool, input: CreateInput)
    requires WellFormed(t)
    ensures WellFormed(Create(t, available, input).1)
  {
    if available && input.paymentIntentId !in t.payments {
      var t' := Create(t, available, input).1;
      var k := input.paymentIntentId;
      forall i, j | 0 <= i < j < |t'.order|
        ensures t'.payments[t'.order[i]].id < t'.payments[t'.order[j]].id
      {
        assert t'.order[i] == t.order[i];
        if j < |t.order| {
          assert t'.order[j] == t.order[j];
        } else {
          assert t'.order[j] == k;
          assert t.order[i] in t.payments;
        }
      }
    }
  }

  /**
   * `createPayment` stores `amount / 100`, copies currency, intent id,
   * metadata and email, defaults the status to PENDING, leaves the checkout
   * session unset, and adds exactly one record under a fresh id; a taken
   * intent id or an unreachable store changes nothing.
   */
  lemma CreateStoresInput(t: Table, available: bool, input: CreateInput)
    requires WellFormed(t)
    ensures var (r, t') := Create(t, available, input);
      && (r.Ok? <==> available && Find(t, input.paymentIntentId).None?)
      && (r.Err? ==> t' == t)
      && (r.Ok? ==>
            && r.value.amount == input.amount as real / 100.0
            && r.value.currency == input.currency
            && r.value.paymentIntentId == input.paymentIntentId
            && r.value.metadata == input.metadata
            && r.value.customerEmail == input.customerEmail
            && r.value.status == (if input.status.Some? then input.status.value else PENDING)
            && r.value.checkoutSessionId.None?
            && (forall k :: k in t.payments ==> t.payments[k].id != r.value.id)
            && t'.payments.Keys == t.payments.Keys + {input.paymentIntentId}
            && t'.order == t.order + [input.paymentIntentId] && t'.nextId == t.nextId + 1
            && t'.payments[input.paymentIntentId] == r.value
            && (forall k :: k in t.payments ==> t'.payments[k] == t.payments[k]))
  {
  }

  /** A record with every field of `input` that is given, and the rest of `p`. */
  function Patch(p: Payment, input: UpdateInput): (r: Payment)
    ensures r.id == p.id && r.paymentIntentId == p.paymentIntentId
    ensures r.amount == p.amount && r.currency == p.currency
    ensures r.status == (if input.status.Some? then input.status.value else p.status)
    ensures r.metadata == (if input.metadata.Some? then input.metadata else p.metadata)
    ensures r.checkoutSessionId == (if input.checkoutSessionId.Some? then input.checkoutSessionId else p.checkoutSessionId)
    ensures r.customerEmail == (if input.customerEmail.Some? then input.customerEmail else p.customerEmail)
  {
    p.(status := if input.status.Some? then input.status.value else p.status,
       metadata := if input.metadata.Some? then input.metadata else p.metadata,
       checkoutSessionId := if input.checkoutSessionId.Some? then input.checkoutSessionId else p.checkoutSessionId,
       customerEmail := if input.customerEmail.Some? then input.customerEmail else p.customerEmail)
  }

  /** The key, in `order`, of the first record whose internal id is `id`. */
  function KeyWithId(order: seq<string>, payments: map<string, Payment>, id: nat): (r: Option<string>)
    ensures r.Some? ==> r.value in order && r.value in payments && payments[r.value].id == id
    ensures r.None? ==> forall i :: 0 <= i < |order| && order[i] in payments ==> payments[order[i]].id != id
  {
    if order == [] then None
    else if order[0] in payments && payments[order[0]].id == id then Some(order[0])
    else
      var rest := KeyWithId(order[1..], payments, id);
      assert forall i :: 1 <= i < |order| ==> order[i] == order[1..][i - 1];
      rest
  }

  /** `updatePayment(id, input)`: patch the record whose internal id is `id`. */
  function Update(t: Table, available: bool, id: nat, input: UpdateInput): (Result<Payment, StoreError>, Table)
  {
    if !available then (Err(Unavailable), t)
    else
      match KeyWithId(t.order, t.payments, id)
      case None => (Err(RecordNotFound), t)
      case Some(k) =>
        var p := Patch(t.payments[k], input);
        (Ok(p), t.(payments := t.payments[k := p]))
  }

  /** Updating the record with a given internal id addresses exactly that record. */
  lemma UpdateHitsRecord(t: Table, k: string, input: UpdateInput)
    requires WellFormed(t) && k in t.payments
    ensures Update(t, true, t.payments[k].id, input) ==
              (Ok(Patch(t.payments[k], input)), t.(payments := t.payments[k := Patch(t.payments[k], input)]))
  {
    var key := KeyWithId(t.order, t.payments, t.payments[k].id);
    assert key.Some?;
    if key.value != k {
      IdsUnique(t, key.value, k);
    }
  }

  /**
   * `updatePayment` changes at most status, metadata, checkout session and
   * email of the one record with that id; amount, currency, intent id, id and
   * every other record are unchanged; an unknown id changes nothing.
   */
  lemma UpdateChangesOnlyMutableFields(t: Table, available: bool, id: nat, input: UpdateInput)
    requires WellFormed(t)
    ensures var (r, t') := Update(t, available, id, input);
      && (r.Ok? <==> available && exists k :: k in t.payments && t.payments[k].id == id)
      && (r.Err? ==> t' == t)
      && t'.order == t.order && t'.nextId == t.nextId
      && t'.payments.Keys == t.payments.Keys
      && (forall k :: k in t.payments && t.payments[k].id != id ==> t'.payments[k] == t.payments[k])
      && (forall k :: k in t.payments && t.payments[k].id == id && available ==>
            r == Ok(Patch(t.payments[k], input)) && t'.payments[k] == r.value)
  {
    var (r, t') := Update(t, available, id, input);
    if available {
      var key := KeyWithId(t.order, t.payments, id);
      if key.None? {
        forall k | k in t.payments ensures t.payments[k].id != id {
          var i :| 0 <= i < |t.order| && t.order[i] == k;
        }
      } else {
        forall k | k in t.payments && t.payments[k].id == id ensures k == key.value {
          if k != key.value { IdsUnique(t, k, key.value); }
        }
      }
    }
  }

  lemma UpdateKeepsWellFormed(t: Table, available: bool, id: nat, input: UpdateInput)
    requires WellFormed(t)
    ensures WellFormed(Update(t, available, id, input).1)
  {
    UpdateChangesOnlyMutableFields(t, available, id, input);
  }

  /** `updatePaymentStatus(paymentIntentId, status)`: set the status of the record under that key. */
  function UpdateStatus(t: Table, available: bool, paymentIntentId: string, status: Status): (Result<Payment, StoreError>, Table)
  {
    if !available then (Err(Unavailable), t)
    else if paymentIntentId !in t.payments then (Err(RecordNotFound), t)
    else
      var p := t.payments[paymentIntentId].(status := status);
      (Ok(p), t.(payments := t.payments[paymentIntentId := p]))
  }

  /**
   * `updatePaymentStatus` changes only the status of the record keyed by the
   * intent id and no other record; with no such record it fails and changes nothing.
   */
  lemma UpdateStatusChangesOnlyStatus(t: Table, available: bool, paymentIntentId: string, status: Status)
    requires WellFormed(t)
    ensures var (r, t') := UpdateStatus(t, available, paymentIntentId, status);
      && (r.Ok? <==> available && Find(t, paymentIntentId).Some?)
      && (r.Err? ==> t' == t)
      && t'.order == t.order && t'.nextId == t.nextId
      && t'.payments.Keys == t.payments.Keys
      && (forall k :: k in t.payments && k != paymentIntentId ==> t'.payments[k] == t.payments[k])
      && (r.Ok? ==> (r.value == Find(t, paymentIntentId).value.(status := status)
                     && t'.payments[paymentIntentId] == r.value))
  {
  }

  lemma UpdateStatusKeepsWellFormed(t: Table, available: bool, paymentIntentId: string, status: Status)
    requires WellFormed(t)
    ensures WellFormed(UpdateStatus(t, available, paymentIntentId, status).1)
  {
  }

  // ---------------------------------------------------------------------------
  // The service
  // ---------------------------------------------------------------------------

  /**
   * `PaymentService`: the payment table held in fields that its methods
   * update in place. `available` says whether the database can be reached;
   * when it cannot, every call throws (returns Err(Unavailable)).
   */
  class PaymentService {
    var payments: map<string, Payment>
    var order: seq<string>
    var nextId: nat
    const available: bool

    /** The table as a value. */
    function Snapshot(): Table
      reads this
    {
      Table(payments, order, nextId)
    }

    ghost predicate Valid()
      reads this
    {
      WellFormed(Snapshot())
    }

    /** A service over the database as it stands: `t` is what it already holds. */
    constructor (t: Table, available: bool)
      requires WellFormed(t)
      ensures Valid() && Snapshot() == t && this.available == available
    {
      payments := t.payments;
      order := t.order;
      nextId := t.nextId;
      this.available := available;
    }

    method CreatePayment(input: CreateInput) returns (r: Result<Payment, StoreError>)
      requires Valid()
      modifies this
      ensures Valid()
      ensures (r, Snapshot()) == Create(old(Snapshot()), available, input)
    {
      CreateKeepsWellFormed(Snapshot(), available, input);
      if !available {
        return Err(Unavailable);
      }
      var key := input.paymentIntentId;
      if key in payments {
        return Err(UniqueViolation);
      }
      var p := NewPayment(Snapshot(), input);
      payments := payments[key := p];
      order := order + [key];
      nextId := nextId + 1;
      r := Ok(p);
    }

    method UpdatePayment(id: nat, input: UpdateInput) returns (r: Result<Payment, StoreError>)
      requires Valid()
      modifies this
      ensures Valid()
      ensures (r, Snapshot()) == Update(old(Snapshot()), available, id, input)
    {
      UpdateKeepsWellFormed(Snapshot(), available, id, input);
      if !available {
        return Err(Unavailable);
      }
      var key := KeyWithId(order, payments, id);
      if key.None? {
        return Err(RecordNotFound);
      }
      var p := Patch(payments[key.value], input);
      payments := payments[key.value := p];
      r := Ok(p);
    }

    method UpdatePaymentStatus(paymentIntentId: string, status: Status) returns (r: Result<Payment, StoreError>)
      requires Valid()
      modifies this
      ensures Valid()
      ensures (r, Snapshot()) == UpdateStatus(old(Snapshot()), available, paymentIntentId, status)
    {
      UpdateStatusKeepsWellFormed(Snapshot(), available, paymentIntentId, status);
      if !available {
        return Err(Unavailable);
      }
      if paymentIntentId !in payments {
        return Err(RecordNotFound);
      }
      var p := payments[paymentIntentId].(status := status);
      payments := payments[paymentIntentId := p];
      r := Ok(p);
    }

    method GetPaymentByIntentId(paymentIntentId: string) returns (r: Result<Option<Payment>, StoreError>)
      requires Valid()
      ensures r.Err? <==> !available
      ensures r.Ok? ==> r.value == Find(Snapshot(), paymentIntentId)
    {
      if !available {
        return Err(Unavailable);
      }
      r := Ok(if paymentIntentId in payments then Some(payments[paymentIntentId]) else None);
    }

    method GetPaymentsByStatus(status: Status) returns (r: Result<seq<Payment>, StoreError>)
      requires Valid()
      ensures r.Err? <==> !available
      ensures r.Ok? ==> forall p :: p in r.value <==> p in payments.Values && p.status == status
      ensures r.Ok? ==> NewestFirst(r.value)
    {
      ByStatusExact(Snapshot(), status);
      if !available {
        return Err(Unavailable);
      }
      r := Ok(ByStatus(Snapshot(), status));
    }

    method GetRecentPayments(limit: nat) returns (r: Result<seq<Payment>, StoreError>)
      requires Valid()
      ensures r.Err? <==> !available
      ensures r.Ok? ==> |r.value| <= limit && NewestFirst(r.value)
      ensures r.Ok? ==> forall p :: p in r.value ==> p in payments.Values
      ensures r.Ok? ==> forall k :: k in payments && payments[k] !in r.value ==>
                          |r.value| == limit && forall i :: 0 <= i < limit ==> payments[k].id < r.value[i].id
    {
      RecentNewestFirst(Snapshot(), limit);
      forall k | k in payments {
        RecentOmitsOnlyOlder(Snapshot(), limit, k);
      }
      if !available {
        return Err(Unavailable);
      }
      r := Ok(Recent(Snapshot(), limit));
    }
  }
}
