/**
 * The ingestion step of kafka/consumer.go: the per-read decision of the
 * receive loop in `Start`, and `processMessage`, which validates a decoded
 * message, inserts its rows in one transaction and, only after the commit,
 * puts a header-only order into the cache.
 */
module Kafka {
  import opened Wrappers
  import opened Models
  import opened Storage
  import opened Caching

  type Byte = bv8

  /** The wire shape of an order message; `dateCreated` stays the raw string. */
  datatype KafkaOrder = KafkaOrder(
    orderUID: string,
    trackNumber: string,
    entry: string,
    delivery: Delivery,
    payment: Payment,
    items: seq<Item>,
    locale: string,
    internalSignature: string,
    customerId: string,
    deliveryService: string,
    shardKey: string,
    smId: int,
    dateCreated: string,
    oofShard: string)

  /** A broker message: its payload, and what `json.Unmarshal` makes of that payload (None when it fails). */
  datatype Message = Message(value: seq<Byte>, decoded: Option<KafkaOrder>)

  /** An error from `ReadMessage`: the `context.DeadlineExceeded` value itself, or any other error with its text. */
  datatype ReadError = DeadlineExceeded | ReadFailure(message: string)

  /** The outcome of one `ReadMessage` call. */
  datatype Read = ReadErr(err: ReadError) | ReadOk(msg: Message)

  /** What one loop iteration does with a read: go on, leave the loop, or process a payload. */
  datatype Action = Continue | Stop | Process(decoded: Option<KafkaOrder>)

  datatype ProcessError =
    | UnmarshalFailed
    | EmptyOrderUID
    | CreateOrderFailed
    | CreateDeliveryFailed
    | CreatePaymentFailed
    | CreateItemFailed
    | CommitFailed

  /** `strings.Contains`: `sub` occurs in `s` at some position. */
  function Contains(s: string, sub: string): (b: bool)
    ensures b <==> exists i :: SubstringAt(s, sub, i)
    decreases |s|
  {
    if |sub| <= |s| && s[..|sub|] == sub then
      assert SubstringAt(s, sub, 0);
      true
    else if s == [] then false
    else
      ContainsInTail(s, sub);
      Contains(s[1..], sub)
  }

  ghost predicate SubstringAt(s: string, sub: string, i: int) {
    0 <= i && i + |sub| <= |s| && s[i..i + |sub|] == sub
  }

  /** An occurrence in the tail of `s` is an occurrence in `s` one position later. */
  lemma SubstringShift(s: string, sub: string, i: int)
    requires s != [] && 0 <= i
    ensures SubstringAt(s[1..], sub, i) <==> SubstringAt(s, sub, i + 1)
  {
    if i + |sub| <= |s| - 1 {
      assert s[1..][i..i + |sub|] == s[i + 1..i + 1 + |sub|];
    }
  }

  /** When `sub` is not a prefix of `s`, it occurs in `s` exactly when it occurs in the tail of `s`. */
  lemma ContainsInTail(s: string, sub: string)
    requires s != [] && !(|sub| <= |s| && s[..|sub|] == sub)
    ensures (exists i :: SubstringAt(s, sub, i)) <==> exists i :: SubstringAt(s[1..], sub, i)
  {
    if exists i :: SubstringAt(s, sub, i) {
      var i :| SubstringAt(s, sub, i);
      assert i != 0;
      SubstringShift(s, sub, i - 1);
    }
    if exists i :: SubstringAt(s[1..], sub, i) {
      var i :| SubstringAt(s[1..], sub, i);
      SubstringShift(s, sub, i);
    }
  }

  const ContextCanceled := "context canceled"

  /**
   * The branches of the receive loop after one read: a deadline error and any
   * other error continue, except an error whose text mentions a cancelled
   * context, which stops the loop; an empty payload is skipped; any other
   * payload is processed.
   */
  function Dispatch(r: Read): (a: Action)
    ensures a.Stop? <==> r.ReadErr? && r.err.ReadFailure? && Contains(r.err.message, ContextCanceled)
    ensures a.Process? <==> r.ReadOk? && |r.msg.value| > 0
    ensures a.Process? ==> a.decoded == r.msg.decoded
  {
    match r
    case ReadErr(e) =>
      if e == DeadlineExceeded then Continue
      else if Contains(e.message, ContextCanceled) then Stop
      else Continue
    case ReadOk(msg) =>
      if |msg.value| == 0 then Continue else Process(msg.decoded)
  }

  /** An error stops the loop exactly when "context canceled" occurs in its text; the deadline value never does. */
  lemma DispatchStopsOnCancel(e: ReadError)
    ensures Dispatch(ReadErr(e)) == Stop <==> e.ReadFailure? && exists i :: SubstringAt(e.message, ContextCanceled, i)
    ensures Dispatch(ReadErr(e)) != Stop ==> Dispatch(ReadErr(e)) == Continue
  {
  }

  /** The header fields copied from a message at kafka/consumer.go lines 130-139. */
  predicate SameHeaderFields(k1: KafkaOrder, k2: KafkaOrder) {
    && k1.orderUID == k2.orderUID
    && k1.trackNumber == k2.trackNumber
    && k1.entry == k2.entry
    && k1.locale == k2.locale
    && k1.internalSignature == k2.internalSignature
    && k1.customerId == k2.customerId
    && k1.deliveryService == k2.deliveryService
    && k1.shardKey == k2.shardKey
    && k1.smId == k2.smId
    && k1.oofShard == k2.oofShard
  }

  /** The header-only order built from a message: no delivery, payment or items, and a zero creation time. */
  function Header(k: KafkaOrder): (o: Order)
    ensures o.orderUID == k.orderUID && o.trackNumber == k.trackNumber && o.entry == k.entry
    ensures o.locale == k.locale && o.internalSignature == k.internalSignature && o.customerId == k.customerId
    ensures o.deliveryService == k.deliveryService && o.shardKey == k.shardKey && o.smId == k.smId
    ensures o.oofShard == k.oofShard
    ensures o.delivery == ZeroDelivery && o.payment == ZeroPayment && o.items == [] && o.dateCreated == ZeroTime
  {
    Order(k.orderUID, k.trackNumber, k.entry, k.locale, k.internalSignature, k.customerId,
          k.deliveryService, k.shardKey, k.smId, ZeroTime, k.oofShard, ZeroDelivery, ZeroPayment, [])
  }

  /** The header depends on exactly the ten copied fields: not on the delivery, payment, items or date of the message. */
  lemma HeaderDependsOnHeaderFields(k1: KafkaOrder, k2: KafkaOrder)
    ensures Header(k1) == Header(k2) <==> SameHeaderFields(k1, k2)
  {
  }

  /** The items with the order's UID stamped into their foreign key. */
  function Stamp(items: seq<Item>, uid: string): (r: seq<Item>)
    ensures |r| == |items|
    ensures forall i :: 0 <= i < |items| ==> r[i] == items[i].(orderID := uid)
    decreases |items|
  {
    if items == [] then [] else [items[0].(orderID := uid)] + Stamp(items[1..], uid)
  }

  function ItemRows(items: seq<Item>): (rows: seq<Row>)
    ensures |rows| == |items|
    ensures forall i :: 0 <= i < |items| ==> rows[i] == ItemRow(items[i])
    decreases |items|
  {
    if items == [] then [] else [ItemRow(items[0])] + ItemRows(items[1..])
  }

  /** The rows `processMessage` inserts, in insertion order: header, delivery, payment, then each item. */
  function InsertPlan(k: KafkaOrder): (plan: seq<Row>)
    ensures |plan| == 3 + |k.items|
    ensures plan[0] == OrderRow(Header(k))
    ensures plan[1] == DeliveryRow(k.delivery.(orderUID := k.orderUID))
    ensures plan[2] == PaymentRow(k.payment.(orderUID := k.orderUID))
  {
    [OrderRow(Header(k)),
     DeliveryRow(k.delivery.(orderUID := k.orderUID)),
     PaymentRow(k.payment.(orderUID := k.orderUID))]
    + ItemRows(Stamp(k.items, k.orderUID))
  }

  /**
   * What `processMessage` inserts, described row by row: the header, the
   * delivery and the payment stamped with the UID, then each item in list
   * order, stamped with it too.
   */
  predicate IsPlanOf(plan: seq<Row>, k: KafkaOrder) {
    && |plan| == 3 + |k.items|
    && plan[0] == OrderRow(Header(k))
    && plan[1] == DeliveryRow(k.delivery.(orderUID := k.orderUID))
    && plan[2] == PaymentRow(k.payment.(orderUID := k.orderUID))
    && forall i :: 0 <= i < |k.items| ==> plan[3 + i] == ItemRow(k.items[i].(orderID := k.orderUID))
  }

  /** `InsertPlan` lays the rows out as that description says. */
  lemma InsertPlanShape(k: KafkaOrder)
    ensures IsPlanOf(InsertPlan(k), k)
  {
    forall i | 0 <= i < |k.items|
      ensures InsertPlan(k)[3 + i] == ItemRow(k.items[i].(orderID := k.orderUID))
    {
      InsertPlanItem(k, i);
    }
  }

  /** ... and it is the only sequence that does. */
  lemma PlanOfIsInsertPlan(plan: seq<Row>, k: KafkaOrder)
    requires IsPlanOf(plan, k)
    ensures plan == InsertPlan(k)
  {
    InsertPlanShape(k);
    PlansAgree(plan, InsertPlan(k), k);
  }

  lemma PlansAgree(p: seq<Row>, q: seq<Row>, k: KafkaOrder)
    requires IsPlanOf(p, k) && IsPlanOf(q, k)
    ensures p == q
  {
    forall j | 3 <= j < |p|
      ensures p[j] == q[j]
    {
      var i := j - 3;
      assert p[3 + i] == ItemRow(k.items[i].(orderID := k.orderUID)) == q[3 + i];
    }
  }

  /** Insert number `3 + i` of the plan is item `i`, stamped with the order's UID. */
  lemma InsertPlanItem(k: KafkaOrder, i: nat)
    requires i < |k.items|
    ensures |InsertPlan(k)| == 3 + |k.items|
    ensures InsertPlan(k)[3 + i] == ItemRow(k.items[i].(orderID := k.orderUID))
  {
  }

  /** Every row of the plan, the header and each child, carries the message's UID. */
  lemma InsertPlanCarriesUID(k: KafkaOrder)
    ensures forall r :: r in InsertPlan(k) ==> RowUID(r) == k.orderUID
  {
    var plan := InsertPlan(k);
    forall r | r in plan
      ensures RowUID(r) == k.orderUID
    {
      var i :| 0 <= i < |plan| && plan[i] == r;
      if i >= 3 {
        assert plan[i] == ItemRow(k.items[i - 3].(orderID := k.orderUID));
      }
    }
  }

  /** The whole aggregate as the store holds it once a message's rows are committed. */
  function Aggregate(k: KafkaOrder): Order {
    Header(k).(delivery := k.delivery.(orderUID := k.orderUID),
               payment := k.payment.(orderUID := k.orderUID),
               items := Stamp(k.items, k.orderUID))
  }

  lemma {:induction false} ItemsInItemRows(items: seq<Item>)
    ensures ItemsIn(ItemRows(items)) == items
    decreases |items|
  {
    if items != [] {
      assert ItemRows(items)[1..] == ItemRows(items[1..]);
      ItemsInItemRows(items[1..]);
      assert [items[0]] + items[1..] == items;
    }
  }

  /** The lookup functions on rows laid out as ingestion inserts them: header, delivery, payment, then the items. */
  lemma LookupOfPlanRows(h: Order, d: Delivery, p: Payment, items: seq<Item>)
    ensures var rows := [OrderRow(h), DeliveryRow(d), PaymentRow(p)] + ItemRows(items);
      && FirstHeader(rows) == Some(h) && FirstDelivery(rows) == Some(d)
      && FirstPayment(rows) == Some(p) && ItemsIn(rows) == items
  {
    var ir := ItemRows(items);
    var tail2 := [PaymentRow(p)] + ir;
    var tail1 := [DeliveryRow(d)] + tail2;
    var rows := [OrderRow(h)] + tail1;
    assert rows == [OrderRow(h), DeliveryRow(d), PaymentRow(p)] + ir;
    assert rows[1..] == tail1;
    assert tail1[1..] == tail2;
    assert tail2[1..] == ir;
    assert FirstPayment(tail1) == FirstPayment(tail2);
    ItemsInItemRows(items);
    assert ItemsIn(tail2) == ItemsIn(ir);
    assert ItemsIn(tail1) == ItemsIn(tail2);
  }

  /**
   * Reading an order back after its rows were committed into a store that held
   * no rows of that order yields the whole aggregate, and the header-only order
   * that ingestion caches is that aggregate with its children dropped.
   */
  lemma ReadAfterIngest(before: seq<Row>, k: KafkaOrder)
    requires forall r :: r in before ==> RowUID(r) != k.orderUID
    ensures Assemble(before + InsertPlan(k), k.orderUID) == Some(Aggregate(k))
    ensures Aggregate(k).(delivery := ZeroDelivery, payment := ZeroPayment, items := []) == Header(k)
  {
    InsertPlanCarriesUID(k);
    AssembleAppended(before, InsertPlan(k), k.orderUID);
    LookupOfPlanRows(Header(k), k.delivery.(orderUID := k.orderUID), k.payment.(orderUID := k.orderUID),
                     Stamp(k.items, k.orderUID));
  }

  /** The error `processMessage` returns for a transaction that failed at `failAt`, or whose commit failed; None on success. */
  function TxError(failAt: Option<nat>, commitOk: bool): (err: Option<ProcessError>)
    ensures err.None? <==> failAt.None? && commitOk
  {
    match failAt
    case Some(0) => Some(CreateOrderFailed)
    case Some(1) => Some(CreateDeliveryFailed)
    case Some(2) => Some(CreatePaymentFailed)
    case Some(_) => Some(CreateItemFailed)
    case None => if commitOk then None else Some(CommitFailed)
  }

  class Consumer {
    const db: Store
    const cache: Cache

    /** `NewConsumer`, without the broker reader and its context. */
    constructor (db: Store, cache: Cache)
      ensures this.db == db && this.cache == cache
    {
      this.db := db;
      this.cache := cache;
    }

    ghost predicate Valid()
      reads this, cache
    {
      cache.Valid()
    }

    /** Neither the store nor the cache changed, and nothing was issued to the store. */
    twostate predicate Untouched()
      reads this, db, cache
    {
      && db.committed == old(db.committed) && db.staged == old(db.staged) && db.trace == old(db.trace)
      && cache.orders == old(cache.orders) && cache.size == old(cache.size)
    }

    /**
     * The effect of `processMessage` on a decoded payload: an undecodable
     * payload or an empty UID is refused before any transaction begins;
     * otherwise one transaction inserts the plan in order and stops at the
     * first failing insert; the plan is committed as a whole or not at all;
     * and the cache gets the header-only order exactly when the commit
     * succeeded, and is untouched otherwise.
     */
    twostate predicate Ingested(decoded: Option<KafkaOrder>, new err: Option<ProcessError>)
      reads this, db, cache
    {
      match decoded
      case None => err == Some(UnmarshalFailed) && Untouched()
      case Some(k) =>
        if k.orderUID == [] then err == Some(EmptyOrderUID) && Untouched()
        else
          var plan := InsertPlan(k);
          && db.staged == []
          && (exists failAt: Option<nat>, commitOk: bool ::
                && (failAt.Some? ==> failAt.value < |plan|)
                && db.trace == old(db.trace) + TxTrace(plan, failAt, commitOk)
                && err == TxError(failAt, commitOk))
          && (err.None? ==>
                db.committed == old(db.committed) + plan &&
                cache.Stored(old(cache.orders), old(cache.size), k.orderUID, Header(k)))
          && (err.Some? ==>
                db.committed == old(db.committed) &&
                cache.orders == old(cache.orders) && cache.size == old(cache.size))
    }

    /** `processMessage`, given what `json.Unmarshal` made of the payload. */
    method ProcessMessage(decoded: Option<KafkaOrder>) returns (err: Option<ProcessError>)
      requires Valid()
      modifies db, cache
      ensures Valid()
      ensures Ingested(decoded, err)
    {
      if decoded.None? {
        return Some(UnmarshalFailed);
      }
      var k := decoded.value;
      if k.orderUID == "" {
        return Some(EmptyOrderUID);
      }
      var order;
      ghost var failAt, commitOk;
      order, err, failAt, commitOk := Persist(k);
      if err.Some? {
        return err;
      }
      var _ := cache.Set(order.orderUID, Some(order));
    }

    /**
     * Lines 126-173 of `processMessage`: one transaction inserting the header,
     * the delivery, the payment and each item, each stamped with the order's
     * UID; the first failing insert is rolled back and ends it; then the
     * commit. The ghost results say where it stopped.
     */
    method Persist(k: KafkaOrder) returns (order: Order, err: Option<ProcessError>, ghost failAt: Option<nat>, ghost commitOk: bool)
      modifies db
      ensures order == Header(k)
      ensures failAt.Some? ==> failAt.value < |InsertPlan(k)|
      ensures db.trace == old(db.trace) + TxTrace(InsertPlan(k), failAt, commitOk)
      ensures err == TxError(failAt, commitOk)
      ensures db.staged == []
      ensures db.committed == if err.None? then old(db.committed) + InsertPlan(k) else old(db.committed)
    {
      ghost var trace0 := db.trace;
      ghost var plan := InsertPlan(k);
      InsertPlanShape(k);
      db.Begin();
      ghost var failed;
      order, err, failed := StageRows(trace0, plan, k);
      if err.Some? {
        return order, err, Some(failed), false;
      }
      var ok := CommitPlan(trace0, plan);
      failAt, commitOk := None, ok;
      err := if ok then None else Some(CommitFailed);
    }

    /**
     * Every insert of `processMessage` before the commit, in plan order; the
     * first failure is rolled back and ends the transaction, and `failed` is
     * its position in `plan`, the rows of `k` in insertion order. The
     * transaction has just begun.
     */
    method StageRows(ghost t0: seq<Op>, ghost plan: seq<Row>, k: KafkaOrder)
      returns (order: Order, err: Option<ProcessError>, ghost failed: nat)
      requires IsPlanOf(plan, k)
      requires db.trace == t0 + [Begin] && db.staged == []
      modifies db
      ensures order == Header(k)
      ensures db.committed == old(db.committed)
      ensures err.None? ==> db.trace == t0 + [Begin] + CreateAll(plan) && db.staged == plan
      ensures err.Some? ==> failed < |plan| && err == TxError(Some(failed), false) &&
                            db.trace == t0 + TxTrace(plan, Some(failed), false) && db.staged == []
    {
      order, err, failed := InsertOwnedRows(t0, plan, k);
      if err.None? {
        var ok, failedItem := InsertItems(t0, plan, k);
        if !ok {
          err, failed := Some(CreateItemFailed), 3 + failedItem;
        }
      }
    }

    /** `tx.Commit()` of a transaction that staged every row of `plan`. */
    method CommitPlan(ghost t0: seq<Op>, ghost plan: seq<Row>) returns (ok: bool)
      requires db.trace == t0 + [Begin] + CreateAll(plan) && db.staged == plan
      modifies db
      ensures db.trace == t0 + TxTrace(plan, None, ok) && db.staged == []
      ensures db.committed == if ok then old(db.committed) + plan else old(db.committed)
    {
      ok := db.Commit();
      TxTraceCommitted(t0, plan, ok);
      assert plan[..|plan|] == plan;
    }

    /**
     * The first three inserts of `processMessage`: the header, then the
     * delivery and the payment stamped with the order's UID, each rolled back
     * on failure. The transaction has just begun.
     */
    method InsertOwnedRows(ghost t0: seq<Op>, ghost plan: seq<Row>, k: KafkaOrder)
      returns (order: Order, err: Option<ProcessError>, ghost failed: nat)
      requires IsPlanOf(plan, k)
      requires db.trace == t0 + [Begin] && db.staged == []
      modifies db
      ensures order == Header(k)
      ensures db.committed == old(db.committed)
      ensures err.None? ==> db.trace == t0 + [Begin] + CreateAll(plan[..3]) && db.staged == plan[..3]
      ensures err.Some? ==> failed < 3 && err == TxError(Some(failed), false) &&
                            db.trace == t0 + TxTrace(plan, Some(failed), false) && db.staged == []
    {
      assert plan[..0] == [];
      order := Header(k);
      var ok := CreateOrRollback(t0, plan, 0, OrderRow(order));
      if !ok {
        return order, Some(CreateOrderFailed), 0;
      }
      var delivery := k.delivery.(orderUID := k.orderUID);
      ok := CreateOrRollback(t0, plan, 1, DeliveryRow(delivery));
      if !ok {
        return order, Some(CreateDeliveryFailed), 1;
      }
      var payment := k.payment.(orderUID := k.orderUID);
      ok := CreateOrRollback(t0, plan, 2, PaymentRow(payment));
      if !ok {
        return order, Some(CreatePaymentFailed), 2;
      }
      return order, None, 0;
    }

    /**
     * The loop of `processMessage` over the items: stamp item `i` with the
     * order's UID and insert it, stopping at the first failure. The
     * header, delivery and payment rows of `plan` are already in the
     * transaction.
     */
    method InsertItems(ghost t0: seq<Op>, ghost plan: seq<Row>, k: KafkaOrder) returns (ok: bool, ghost failed: nat)
      requires IsPlanOf(plan, k)
      requires db.trace == t0 + [Begin] + CreateAll(plan[..3]) && db.staged == plan[..3]
      modifies db
      ensures db.committed == old(db.committed)
      ensures ok ==> db.trace == t0 + [Begin] + CreateAll(plan) && db.staged == plan
      ensures !ok ==> 3 + failed < |plan| && db.trace == t0 + TxTrace(plan, Some(3 + failed), false) && db.staged == []
    {
      var items := k.items;
      for i := 0 to |items|
        invariant |items| == |k.items|
        invariant items[i..] == k.items[i..]
        invariant db.committed == old(db.committed) && db.staged == plan[..3 + i]
        invariant db.trace == t0 + [Begin] + CreateAll(plan[..3 + i])
      {
        assert items[i] == k.items[i];
        items := items[i := items[i].(orderID := k.orderUID)];
        ok := CreateOrRollback(t0, plan, 3 + i, ItemRow(items[i]));
        if !ok {
          return false, i;
        }
      }
      assert plan[..|plan|] == plan;
      return true, 0;
    }

    /**
     * The step repeated for every row in `processMessage`: `tx.Create(row)`,
     * and on failure `tx.Rollback()`. Here `row` is insert number `n` of `plan`
     * and the transaction so far holds the plan's first `n` rows.
     */
    method CreateOrRollback(ghost t0: seq<Op>, ghost plan: seq<Row>, ghost n: nat, row: Row) returns (ok: bool)
      requires n < |plan| && plan[n] == row
      requires db.trace == t0 + [Begin] + CreateAll(plan[..n]) && db.staged == plan[..n]
      modifies db
      ensures db.committed == old(db.committed)
      ensures ok ==> db.trace == t0 + [Begin] + CreateAll(plan[..n + 1]) && db.staged == plan[..n + 1]
      ensures !ok ==> db.trace == t0 + TxTrace(plan, Some(n), false) && db.staged == []
    {
      ok := db.Create(row);
      if !ok {
        db.Rollback();
        TxTraceFailed(t0, plan, n);
      } else {
        CreateAllSnoc(plan, n);
        assert plan[..n + 1] == plan[..n] + [plan[n]];
      }
    }

    /** One iteration of the receive loop in `Start` after its read; `stop` is true when the loop returns. */
    method HandleRead(r: Read) returns (stop: bool)
      requires Valid()
      modifies db, cache
      ensures Valid()
      ensures stop <==> Dispatch(r).Stop?
      ensures !Dispatch(r).Process? ==> Untouched()
      ensures Dispatch(r).Process? ==> exists err :: Ingested(Dispatch(r).decoded, err)
    {
      match Dispatch(r)
      case Continue =>
        stop := false;
      case Stop =>
        stop := true;
      case Process(decoded) =>
        var err := ProcessMessage(decoded);
        stop := false;
    }
  }
}
