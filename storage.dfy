/**
 * The relational store behind gorm, as the core uses it: a list of committed
 * rows, the rows a transaction has staged, and a trace of the operations
 * issued. Each operation's effect is the pure function Apply; whether a
 * Create, a Commit or a query succeeds is outside the core's control, so the
 * store chooses it (the outcome is recorded in the trace).
 */
module Storage {
  import opened Wrappers
  import opened Models

  /** A row of one of the four tables. */
  datatype Row = OrderRow(order: Order) | DeliveryRow(delivery: Delivery) | PaymentRow(payment: Payment) | ItemRow(item: Item)

  /** The order a row belongs to: the header's primary key or a child's foreign key. */
  function RowUID(row: Row): string {
    match row
    case OrderRow(o) => o.orderUID
    case DeliveryRow(d) => d.orderUID
    case PaymentRow(p) => p.orderUID
    case ItemRow(it) => it.orderID
  }

  /** One call issued to the store, with its outcome. */
  datatype Op = Begin | Create(row: Row, ok: bool) | Rollback | Commit(ok: bool) | Query(orderUID: string, ok: bool)

  datatype DbState = DbState(committed: seq<Row>, staged: seq<Row>)

  datatype DbError = RecordNotFound | QueryFailed

  /** The effect of one operation. */
  function Apply(s: DbState, op: Op): DbState {
    match op
    case Begin => s.(staged := [])
    case Create(row, ok) => if ok then s.(staged := s.staged + [row]) else s
    case Rollback => s.(staged := [])
    case Commit(ok) => if ok then DbState(s.committed + s.staged, []) else s.(staged := [])
    case Query(_, _) => s
  }

  /** The state reached by issuing `ops` in order from `s`. */
  function Replay(s: DbState, ops: seq<Op>): DbState
    decreases |ops|
  {
    if ops == [] then s else Apply(Replay(s, ops[..|ops| - 1]), ops[|ops| - 1])
  }

  /** Successful creates of `rows`, in order. */
  function CreateAll(rows: seq<Row>): (ops: seq<Op>)
    ensures |ops| == |rows|
    ensures forall i :: 0 <= i < |rows| ==> ops[i] == Create(rows[i], true)
  {
    if rows == [] then [] else CreateAll(rows[..|rows| - 1]) + [Create(rows[|rows| - 1], true)]
  }

  /**
   * The operations of one transaction that inserts `plan`: Begin, then the
   * creates in order; a failing create at index `failAt` is followed only by
   * Rollback, and when none fails the transaction ends with Commit.
   */
  function TxTrace(plan: seq<Row>, failAt: Option<nat>, commitOk: bool): seq<Op>
    requires failAt.Some? ==> failAt.value < |plan|
  {
    match failAt
    case Some(i) => [Begin] + CreateAll(plan[..i]) + [Create(plan[i], false), Rollback]
    case None => [Begin] + CreateAll(plan) + [Commit(commitOk)]
  }

  lemma CreateAllSnoc(plan: seq<Row>, n: nat)
    requires n < |plan|
    ensures CreateAll(plan[..n + 1]) == CreateAll(plan[..n]) + [Create(plan[n], true)]
  {
    assert plan[..n + 1][..n] == plan[..n];
  }

  /** A transaction interrupted by its failing create number `n` followed by Rollback is TxTrace with failAt `n`. */
  lemma TxTraceFailed(t0: seq<Op>, plan: seq<Row>, n: nat)
    requires n < |plan|
    ensures t0 + [Begin] + CreateAll(plan[..n]) + [Create(plan[n], false)] + [Rollback] == t0 + TxTrace(plan, Some(n), false)
  {
  }

  /** A transaction whose creates all succeeded, followed by Commit, is TxTrace without failAt. */
  lemma TxTraceCommitted(t0: seq<Op>, plan: seq<Row>, ok: bool)
    ensures t0 + [Begin] + CreateAll(plan[..|plan|]) + [Commit(ok)] == t0 + TxTrace(plan, None, ok)
  {
    assert plan[..|plan|] == plan;
  }

  /** The rows a trace asked the store to create, in order, whatever their outcome. */
  function Attempted(ops: seq<Op>): seq<Row> {
    if ops == [] then []
    else (if ops[0].Create? then [ops[0].row] else []) + Attempted(ops[1..])
  }

  lemma {:induction false} ReplayAppend(s: DbState, a: seq<Op>, b: seq<Op>)
    ensures Replay(s, a + b) == Replay(Replay(s, a), b)
    decreases |b|
  {
    if b != [] {
      var b' := b[..|b| - 1];
      assert (a + b)[..|a + b| - 1] == a + b';
      ReplayAppend(s, a, b');
    } else {
      assert a + b == a;
    }
  }

  lemma {:induction false} ReplayCreateAll(s: DbState, rows: seq<Row>)
    ensures Replay(s, CreateAll(rows)) == s.(staged := s.staged + rows)
    decreases |rows|
  {
    if rows == [] {
      assert s.staged + rows == s.staged;
    } else {
      var init := rows[..|rows| - 1];
      var ops := CreateAll(rows);
      assert ops[..|ops| - 1] == CreateAll(init);
      ReplayCreateAll(s, init);
      assert init + [rows[|rows| - 1]] == rows;
    }
  }

  /**
   * All or nothing: a transaction trace leaves nothing staged, and commits
   * either every row of the plan, in order (no create failed and the commit
   * succeeded), or none of them.
   */
  lemma ReplayTx(s: DbState, plan: seq<Row>, failAt: Option<nat>, commitOk: bool)
    requires failAt.Some? ==> failAt.value < |plan|
    ensures Replay(s, TxTrace(plan, failAt, commitOk))
         == DbState(if failAt.None? && commitOk then s.committed + plan else s.committed, [])
  {
    var s1 := Apply(s, Begin);
    assert Replay(s, [Begin]) == s1 by {
      assert [Begin][..0] == [];
    }
    match failAt
    case Some(i) =>
      var tail := [Create(plan[i], false), Rollback];
      ReplayAppend(s, [Begin] + CreateAll(plan[..i]), tail);
      ReplayAppend(s, [Begin], CreateAll(plan[..i]));
      ReplayCreateAll(s1, plan[..i]);
      var s2 := s1.(staged := s1.staged + plan[..i]);
      assert Replay(s2, [Create(plan[i], false)]) == s2 by {
        assert [Create(plan[i], false)][..0] == [];
      }
      assert tail[..1] == [Create(plan[i], false)];
      assert Replay(s2, tail) == Apply(s2, Rollback);
    case None =>
      var tail := [Commit(commitOk)];
      ReplayAppend(s, [Begin] + CreateAll(plan), tail);
      ReplayAppend(s, [Begin], CreateAll(plan));
      ReplayCreateAll(s1, plan);
      assert tail[..0] == [];
      assert [] + plan == plan;
  }

  lemma {:induction false} AttemptedAppend(a: seq<Op>, b: seq<Op>)
    ensures Attempted(a + b) == Attempted(a) + Attempted(b)
    decreases |a|
  {
    if a == [] {
      assert a + b == b;
    } else {
      var head := if a[0].Create? then [a[0].row] else [];
      assert (a + b)[0] == a[0] && (a + b)[1..] == a[1..] + b;
      AttemptedAppend(a[1..], b);
      assert Attempted(a + b) == head + (Attempted(a[1..]) + Attempted(b));
      assert Attempted(a) == head + Attempted(a[1..]);
    }
  }

  lemma {:induction false} AttemptedCreateAll(rows: seq<Row>)
    ensures Attempted(CreateAll(rows)) == rows
    decreases |rows|
  {
    if rows != [] {
      var init := rows[..|rows| - 1];
      AttemptedCreateAll(init);
      AttemptedAppend(CreateAll(init), [Create(rows[|rows| - 1], true)]);
      assert [Create(rows[|rows| - 1], true)][1..] == [];
      assert init + [rows[|rows| - 1]] == rows;
    }
  }

  /**
   * A transaction attempts exactly the plan's rows up to and including the
   * first failing one, in plan order, and none after it; it ends in Rollback
   * exactly when a create failed, and in Commit otherwise.
   */
  lemma TxTraceAttempts(plan: seq<Row>, failAt: Option<nat>, commitOk: bool)
    requires failAt.Some? ==> failAt.value < |plan|
    ensures Attempted(TxTrace(plan, failAt, commitOk)) == if failAt.Some? then plan[..failAt.value + 1] else plan
    ensures TxTrace(plan, failAt, commitOk)[0] == Begin
    ensures var t := TxTrace(plan, failAt, commitOk);
      t[|t| - 1] == if failAt.Some? then Rollback else Commit(commitOk)
  {
    match failAt
    case Some(i) =>
      var tail := [Create(plan[i], false), Rollback];
      AttemptedAppend([Begin] + CreateAll(plan[..i]), tail);
      AttemptedAppend([Begin], CreateAll(plan[..i]));
      AttemptedCreateAll(plan[..i]);
      assert tail[1..][1..] == [];
      assert Attempted(tail) == [plan[i]];
      assert [Begin][1..] == [];
      assert plan[..i] + [plan[i]] == plan[..i + 1];
    case None =>
      var tail := [Commit(commitOk)];
      AttemptedAppend([Begin] + CreateAll(plan), tail);
      AttemptedAppend([Begin], CreateAll(plan));
      AttemptedCreateAll(plan);
      assert tail[1..] == [];
      assert [Begin][1..] == [];
  }

  /** The rows of `rows` that belong to order `uid`, in order. */
  function RowsFor(rows: seq<Row>, uid: string): (r: seq<Row>)
    ensures forall i :: 0 <= i < |r| ==> RowUID(r[i]) == uid
    ensures |r| <= |rows|
  {
    if rows == [] then []
    else (if RowUID(rows[0]) == uid then [rows[0]] else []) + RowsFor(rows[1..], uid)
  }

  function FirstHeader(rows: seq<Row>): Option<Order> {
    if rows == [] then None else if rows[0].OrderRow? then Some(rows[0].order) else FirstHeader(rows[1..])
  }

  function FirstDelivery(rows: seq<Row>): Option<Delivery> {
    if rows == [] then None else if rows[0].DeliveryRow? then Some(rows[0].delivery) else FirstDelivery(rows[1..])
  }

  function FirstPayment(rows: seq<Row>): Option<Payment> {
    if rows == [] then None else if rows[0].PaymentRow? then Some(rows[0].payment) else FirstPayment(rows[1..])
  }

  function ItemsIn(rows: seq<Row>): seq<Item> {
    if rows == [] then [] else (if rows[0].ItemRow? then [rows[0].item] else []) + ItemsIn(rows[1..])
  }

  /**
   * `Preload("Delivery").Preload("Payment").Preload("Items").Where("order_uid = ?", uid).First`:
   * the header row of `uid` with its delivery and payment (zero values when
   * there is no such row) and all of its item rows in stored order. An order
   * is found exactly when a header row of `uid` is stored, and everything it
   * carries is a stored row of `uid`.
   */
  function Assemble(rows: seq<Row>, uid: string): (r: Option<Order>)
    ensures r.Some? <==> exists o :: OrderRow(o) in rows && o.orderUID == uid
    ensures r.Some? ==> r.value.orderUID == uid
    ensures r.Some? ==> r.value.delivery == ZeroDelivery ||
                        (DeliveryRow(r.value.delivery) in rows && r.value.delivery.orderUID == uid)
    ensures r.Some? ==> r.value.payment == ZeroPayment ||
                        (PaymentRow(r.value.payment) in rows && r.value.payment.orderUID == uid)
    ensures r.Some? ==> forall it :: it in r.value.items ==> ItemRow(it) in rows && it.orderID == uid
  {
    var mine := RowsFor(rows, uid);
    RowsForExact(rows, uid);
    FirstHeaderIn(mine);
    FirstDeliveryIn(mine);
    FirstPaymentIn(mine);
    ItemsInFrom(mine);
    match FirstHeader(mine)
    case None => None
    case Some(h) =>
      Some(h.(delivery := FirstDelivery(mine).GetOr(ZeroDelivery),
              payment := FirstPayment(mine).GetOr(ZeroPayment),
              items := ItemsIn(mine)))
  }

  lemma {:induction false} RowsForAppend(a: seq<Row>, b: seq<Row>, uid: string)
    ensures RowsFor(a + b, uid) == RowsFor(a, uid) + RowsFor(b, uid)
    decreases |a|
  {
    if a == [] {
      assert a + b == b;
    } else {
      assert (a + b)[1..] == a[1..] + b;
      RowsForAppend(a[1..], b, uid);
    }
  }

  lemma {:induction false} RowsForNone(rows: seq<Row>, uid: string)
    requires forall r :: r in rows ==> RowUID(r) != uid
    ensures RowsFor(rows, uid) == []
    decreases |rows|
  {
    if rows != [] {
      assert rows[0] in rows;
      assert forall r :: r in rows[1..] ==> r in rows;
      RowsForNone(rows[1..], uid);
    }
  }

  lemma {:induction false} RowsForAll(rows: seq<Row>, uid: string)
    requires forall r :: r in rows ==> RowUID(r) == uid
    ensures RowsFor(rows, uid) == rows
    decreases |rows|
  {
    if rows != [] {
      assert rows[0] in rows;
      assert forall r :: r in rows[1..] ==> r in rows;
      RowsForAll(rows[1..], uid);
      assert [rows[0]] + rows[1..] == rows;
    }
  }

  /** Rows appended after those of other orders are exactly what a lookup of their order sees. */
  lemma AssembleAppended(before: seq<Row>, added: seq<Row>, uid: string)
    requires forall r :: r in before ==> RowUID(r) != uid
    requires forall r :: r in added ==> RowUID(r) == uid
    ensures Assemble(before + added, uid) == Assemble(added, uid)
    ensures RowsFor(before + added, uid) == added
  {
    RowsForAppend(before, added, uid);
    RowsForNone(before, uid);
    RowsForAll(added, uid);
    assert RowsFor(before + added, uid) == RowsFor(added, uid);
  }

  /** A query for an order with no rows at all finds nothing. */
  lemma AssembleAbsent(rows: seq<Row>, uid: string)
    requires forall r :: r in rows ==> RowUID(r) != uid
    ensures Assemble(rows, uid) == None
  {
    RowsForNone(rows, uid);
  }

  /**
   * A found order is a stored header row of `uid` whose children were replaced
   * by the ones the lookup collected.
   */
  lemma AssembleFindsOwnHeader(rows: seq<Row>, uid: string) returns (h: Order)
    requires Assemble(rows, uid).Some?
    ensures OrderRow(h) in rows && h.orderUID == uid
    ensures Assemble(rows, uid).value.(delivery := h.delivery, payment := h.payment, items := h.items) == h
  {
    h := FirstHeader(RowsFor(rows, uid)).value;
    FirstHeaderIn(RowsFor(rows, uid));
    RowsForExact(rows, uid);
  }

  /** The first header is a header of `rows`, and there is one exactly when `rows` holds a header row. */
  lemma {:induction false} FirstHeaderIn(rows: seq<Row>)
    ensures FirstHeader(rows).Some? <==> exists o :: OrderRow(o) in rows
    ensures FirstHeader(rows).Some? ==> OrderRow(FirstHeader(rows).value) in rows
    decreases |rows|
  {
    if rows != [] {
      FirstHeaderIn(rows[1..]);
      if rows[0].OrderRow? {
        assert OrderRow(rows[0].order) in rows;
      } else {
        if exists o :: OrderRow(o) in rows {
          var o :| OrderRow(o) in rows;
          assert OrderRow(o) in rows[1..];
        }
      }
    }
  }

  /** The first delivery is a delivery row of `rows`, and there is one exactly when `rows` holds a delivery row. */
  lemma {:induction false} FirstDeliveryIn(rows: seq<Row>)
    ensures FirstDelivery(rows).Some? <==> exists d :: DeliveryRow(d) in rows
    ensures FirstDelivery(rows).Some? ==> DeliveryRow(FirstDelivery(rows).value) in rows
    decreases |rows|
  {
    if rows != [] {
      FirstDeliveryIn(rows[1..]);
      if rows[0].DeliveryRow? {
        assert DeliveryRow(rows[0].delivery) in rows;
      } else if exists d :: DeliveryRow(d) in rows {
        var d :| DeliveryRow(d) in rows;
        assert DeliveryRow(d) in rows[1..];
      }
    }
  }

  /** The first payment is a payment row of `rows`, and there is one exactly when `rows` holds a payment row. */
  lemma {:induction false} FirstPaymentIn(rows: seq<Row>)
    ensures FirstPayment(rows).Some? <==> exists p :: PaymentRow(p) in rows
    ensures FirstPayment(rows).Some? ==> PaymentRow(FirstPayment(rows).value) in rows
    decreases |rows|
  {
    if rows != [] {
      FirstPaymentIn(rows[1..]);
      if rows[0].PaymentRow? {
        assert PaymentRow(rows[0].payment) in rows;
      } else if exists p :: PaymentRow(p) in rows {
        var p :| PaymentRow(p) in rows;
        assert PaymentRow(p) in rows[1..];
      }
    }
  }

  /** The items collected are exactly the items of the item rows of `rows`. */
  lemma {:induction false} ItemsInFrom(rows: seq<Row>)
    ensures forall it :: it in ItemsIn(rows) <==> ItemRow(it) in rows
    decreases |rows|
  {
    if rows != [] {
      ItemsInFrom(rows[1..]);
      assert rows == [rows[0]] + rows[1..];
    }
  }

  /**
   * The preloads miss nothing: a found order holds every stored item row of
   * its id, and it carries a stored delivery (payment) row of its id whenever
   * one is stored.
   */
  lemma AssembleComplete(rows: seq<Row>, uid: string)
    requires Assemble(rows, uid).Some?
    ensures forall it :: ItemRow(it) in rows && it.orderID == uid ==> it in Assemble(rows, uid).value.items
    ensures (exists d :: DeliveryRow(d) in rows && d.orderUID == uid) ==>
              var d := Assemble(rows, uid).value.delivery; DeliveryRow(d) in rows && d.orderUID == uid
    ensures (exists p :: PaymentRow(p) in rows && p.orderUID == uid) ==>
              var p := Assemble(rows, uid).value.payment; PaymentRow(p) in rows && p.orderUID == uid
  {
    var mine := RowsFor(rows, uid);
    RowsForExact(rows, uid);
    FirstDeliveryIn(mine);
    FirstPaymentIn(mine);
    ItemsInFrom(mine);
    forall it | ItemRow(it) in rows && it.orderID == uid
      ensures ItemRow(it) in mine
    {
      assert RowUID(ItemRow(it)) == uid;
    }
    if exists d :: DeliveryRow(d) in rows && d.orderUID == uid {
      var d :| DeliveryRow(d) in rows && d.orderUID == uid;
      assert RowUID(DeliveryRow(d)) == uid;
      assert DeliveryRow(d) in mine;
    }
    if exists p :: PaymentRow(p) in rows && p.orderUID == uid {
      var p :| PaymentRow(p) in rows && p.orderUID == uid;
      assert RowUID(PaymentRow(p)) == uid;
      assert PaymentRow(p) in mine;
    }
  }

  /** The `Where("order_uid = ?", uid)` filter selects exactly the stored rows of `uid`: none of another order, and none missed. */
  lemma {:induction false} RowsForExact(rows: seq<Row>, uid: string)
    ensures forall x :: x in RowsFor(rows, uid) <==> x in rows && RowUID(x) == uid
    decreases |rows|
  {
    if rows != [] {
      RowsForExact(rows[1..], uid);
      assert rows == [rows[0]] + rows[1..];
    }
  }

  class Store {
    var committed: seq<Row>
    var staged: seq<Row>
    var trace: seq<Op>

    function State(): DbState
      reads this
    {
      DbState(committed, staged)
    }

    /** A store holding `rows`, with no transaction open and nothing issued yet. */
    constructor (rows: seq<Row>)
      ensures committed == rows && staged == [] && trace == []
    {
      committed := rows;
      staged := [];
      trace := [];
    }

    /** `db.Begin()`. */
    method Begin()
      modifies this
      ensures trace == old(trace) + [Op.Begin] && State() == Apply(old(State()), Op.Begin)
    {
      staged := [];
      trace := trace + [Op.Begin];
    }

    /** `tx.Create(&row)`: may fail; a failed insert stages nothing. */
    method Create(row: Row) returns (ok: bool)
      modifies this
      ensures trace == old(trace) + [Op.Create(row, ok)] && State() == Apply(old(State()), Op.Create(row, ok))
    {
      ok :| true;
      if ok {
        staged := staged + [row];
      }
      trace := trace + [Op.Create(row, ok)];
    }

    /** `tx.Rollback()`. */
    method Rollback()
      modifies this
      ensures trace == old(trace) + [Op.Rollback] && State() == Apply(old(State()), Op.Rollback)
    {
      staged := [];
      trace := trace + [Op.Rollback];
    }

    /** `tx.Commit()`: may fail, in which case nothing staged becomes committed. */
    method Commit() returns (ok: bool)
      modifies this
      ensures trace == old(trace) + [Op.Commit(ok)] && State() == Apply(old(State()), Op.Commit(ok))
    {
      ok :| true;
      if ok {
        committed := committed + staged;
      }
      staged := [];
      trace := trace + [Op.Commit(ok)];
    }

    /**
     * The read path's query for one order: RecordNotFound when the committed
     * rows hold no header for it, the assembled order when they do, and
     * QueryFailed when the query itself fails.
     */
    method First(uid: string) returns (r: Result<Order, DbError>)
      modifies this
      ensures committed == old(committed) && staged == old(staged)
      ensures exists ok :: (trace == old(trace) + [Query(uid, ok)] &&
                            r == if !ok then Err(QueryFailed)
                                 else if Assemble(committed, uid).None? then Err(RecordNotFound)
                                 else Ok(Assemble(committed, uid).value))
    {
      var ok: bool :| true;
      trace := trace + [Query(uid, ok)];
      if !ok {
        return Err(QueryFailed);
      }
      var found := Assemble(committed, uid);
      if found.None? {
        return Err(RecordNotFound);
      }
      return Ok(found.value);
    }
  }
}
