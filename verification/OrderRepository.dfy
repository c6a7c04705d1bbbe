/** The durable table of order operations: one row per accepted request, unique per
    account and idempotency key, with an atomic create and an atomic finish. */
module OrderRepository {
  import opened OrderPolicy

  datatype OpStatus = Processing | Succeeded | Failed | Uncertain

  datatype Operation = Operation(
    order: string,
    account: string,
    key: string,
    action: Action,
    carrier: string,
    tracking: string,
    status: OpStatus,
    postStatus: string
  )

  /** Committed database content. */
  datatype Db = Db(orders: map<string, Order>, ops: map<nat, Operation>)

  datatype CreateResult =
    | OrderNotFound
    | Conflict
    | Existing(id: nat)
    | Created(id: nat)

  datatype Lookup = Missing | Found(id: nat)

  ghost predicate UniqueKeys(ops: map<nat, Operation>) {
    forall i, j :: i in ops && j in ops && ops[i].account == ops[j].account && ops[i].key == ops[j].key ==> i == j
  }

  ghost predicate OneProcessing(ops: map<nat, Operation>) {
    forall i, j ::
      i in ops && j in ops && ops[i].order == ops[j].order && ops[i].status.Processing? && ops[j].status.Processing?
      ==> i == j
  }

  ghost predicate Busy(db: Db, order: string) {
    exists i :: i in db.ops && db.ops[i].order == order && db.ops[i].status.Processing?
  }

  ghost predicate KeyTaken(db: Db, account: string, key: string) {
    exists i :: i in db.ops && db.ops[i].account == account && db.ops[i].key == key
  }

  ghost function ByKey(db: Db, account: string, key: string): (r: Lookup)
    ensures r.Missing? <==> !KeyTaken(db, account, key)
    ensures r.Found? ==> r.id in db.ops && db.ops[r.id].account == account && db.ops[r.id].key == key
  {
    if KeyTaken(db, account, key) then
      var i :| i in db.ops && db.ops[i].account == account && db.ops[i].key == key;
      Found(i)
    else Missing
  }

  /** Insert a processing row under the order's row lock; the unique index answers a
      repeated key with the row that already holds it. */
  ghost function CreateTx(db: Db, id: nat, draft: Operation): (Db, CreateResult)
    requires id !in db.ops
  {
    if draft.order !in db.orders then (db, OrderNotFound)
    else if Busy(db, draft.order) then (db, Conflict)
    else
      match ByKey(db, draft.account, draft.key)
      case Found(holder) => (db, Existing(holder))
      case Missing => (db.(ops := db.ops[id := draft.(status := Processing)]), Created(id))
  }

  /** Record an outcome; a success with `applyState` also moves the order row. */
  function FinishTx(db: Db, id: nat, status: OpStatus, postStatus: string, applyState: bool): Db
    requires id in db.ops
  {
    var row := db.ops[id].(status := status, postStatus := postStatus);
    if applyState && status.Succeeded? && row.order in db.orders then
      var order := Apply(db.orders[row.order], row.action, row.carrier, row.tracking);
      Db(db.orders[row.order := order], db.ops[id := row.(postStatus := order.status)])
    else db.(ops := db.ops[id := row])
  }

  /** The repository: its methods are the transactions above. */
  class OrderActionRepository {
    var orders: map<string, Order>
    var ops: map<nat, Operation>

    ghost function View(): Db
      reads this
    {
      Db(orders, ops)
    }

    constructor (orders: map<string, Order>)
      ensures View() == Db(orders, map[])
    {
      this.orders := orders;
      this.ops := map[];
    }

    method GetByIdempotency(account: string, key: string) returns (r: Lookup)
      ensures r.Missing? <==> !KeyTaken(View(), account, key)
      ensures r.Found? ==> r.id in ops && ops[r.id].account == account && ops[r.id].key == key
      ensures UniqueKeys(ops) ==> r == ByKey(View(), account, key)
    {
      if i :| i in ops && ops[i].account == account && ops[i].key == key {
        r := Found(i);
      } else {
        r := Missing;
      }
    }

    method Create(id: nat, draft: Operation) returns (r: CreateResult)
      requires id !in ops && UniqueKeys(ops)
      modifies this
      ensures (View(), r) == CreateTx(old(View()), id, draft)
      ensures UniqueKeys(ops)
      ensures old(OneProcessing(ops)) ==> OneProcessing(ops)
    {
      if draft.order !in orders {
        return OrderNotFound;
      }
      if i :| i in ops && ops[i].order == draft.order && ops[i].status.Processing? {
        assert Busy(View(), draft.order);
        return Conflict;
      }
      assert !Busy(View(), draft.order);
      var existing := GetByIdempotency(draft.account, draft.key);
      if existing.Found? {
        return Existing(existing.id);
      }
      assert !KeyTaken(View(), draft.account, draft.key);
      ops := ops[id := draft.(status := Processing)];
      r := Created(id);
    }

    method Finish(id: nat, status: OpStatus, postStatus: string, applyState: bool) returns (found: bool)
      modifies this
      ensures found == (id in old(ops))
      ensures View() == if found then FinishTx(old(View()), id, status, postStatus, applyState) else old(View())
      ensures old(UniqueKeys(ops)) ==> UniqueKeys(ops)
      ensures old(OneProcessing(ops)) && !status.Processing? ==> OneProcessing(ops)
    {
      if id !in ops {
        return false;
      }
      var row := ops[id].(status := status, postStatus := postStatus);
      if applyState && status.Succeeded? && row.order in orders {
        var order := Apply(orders[row.order], row.action, row.carrier, row.tracking);
        orders := orders[row.order := order];
        row := row.(postStatus := order.status);
      }
      ops := ops[id := row];
      found := true;
    }
  }

  /** A key that is taken stays taken by the same row, and rows keep their identity: no
      transaction rewrites whose request a row records. */
  ghost predicate RowsKept(before: map<nat, Operation>, after: map<nat, Operation>) {
    forall i :: i in before ==>
      && i in after
      && after[i].order == before[i].order && after[i].account == before[i].account
      && after[i].key == before[i].key && after[i].action == before[i].action
      && after[i].carrier == before[i].carrier && after[i].tracking == before[i].tracking
  }

  lemma CreateKeepsTables(db: Db, id: nat, draft: Operation)
    requires id !in db.ops && UniqueKeys(db.ops) && OneProcessing(db.ops)
    ensures
      var (after, r) := CreateTx(db, id, draft);
      && UniqueKeys(after.ops) && OneProcessing(after.ops) && RowsKept(db.ops, after.ops)
      && after.orders == db.orders
      && (r.Created? ==> !KeyTaken(db, draft.account, draft.key) && !Busy(db, draft.order))
  {
    var (after, r) := CreateTx(db, id, draft);
    if r.Created? {
      assert !KeyTaken(db, draft.account, draft.key) && !Busy(db, draft.order);
    }
  }

  lemma FinishKeepsTables(db: Db, id: nat, status: OpStatus, postStatus: string, applyState: bool)
    requires id in db.ops && !status.Processing? && UniqueKeys(db.ops) && OneProcessing(db.ops)
    ensures
      var after := FinishTx(db, id, status, postStatus, applyState);
      UniqueKeys(after.ops) && OneProcessing(after.ops) && RowsKept(db.ops, after.ops)
  {
  }

  /** Every column but those that shipping may set is the same. */
  ghost predicate ShippedAs(o: Order, n: Order, logistics: string, carrier: string, tracking: string) {
    n == o.(status := "shipped", logisticsType := logistics, carrierCode := carrier, trackingNo := tracking)
  }

  function OrElse(text: string, fallback: string): string { if text != "" then text else fallback }

  /** What a success that moves the order leaves of it, action by action. */
  ghost predicate Moved(o: Order, n: Order, row: Operation) {
    && (row.action == ConfirmShipping ==> ShippedAs(o, n, "dummy", o.carrierCode, o.trackingNo))
    && (row.action == FreeShipping ==> ShippedAs(o, n, "bargain_free_shipping", o.carrierCode, o.trackingNo))
    && (row.action == OfflineShipping ==>
          ShippedAs(o, n, "offline", OrElse(row.carrier, o.carrierCode), OrElse(row.tracking, o.trackingNo)))
    && (row.action == CloseOrder ==> n == o.(status := "closed"))
    && (row.action == RateBuyer ==> n == o.(sellerRateStatus := "4"))
    && (row.action == RefuseRefund ==> n == o.(refundStatus := "rejected", refundActions := {}, refuseOptions := []))
  }

  /** A finish sets the outcome of its own row. A success with `applyState` on a known order also
      moves that order, and no other, and the row takes the order's new status; any other finish
      leaves all orders alone and stores the given status. */
  lemma FinishMeans(db: Db, id: nat, status: OpStatus, postStatus: string, applyState: bool)
    requires id in db.ops
    ensures
      var t := FinishTx(db, id, status, postStatus, applyState);
      var row := db.ops[id];
      var moves := applyState && status.Succeeded? && row.order in db.orders;
      && t.ops.Keys == db.ops.Keys && (forall i :: i in db.ops && i != id ==> t.ops[i] == db.ops[i])
      && t.ops[id] == row.(status := status, postStatus := t.ops[id].postStatus)
      && t.orders.Keys == db.orders.Keys
      && (forall o :: o in db.orders && (o != row.order || !moves) ==> t.orders[o] == db.orders[o])
      && (moves ==> Moved(db.orders[row.order], t.orders[row.order], row) && t.ops[id].postStatus == t.orders[row.order].status)
      && (!moves ==> t.ops[id].postStatus == postStatus)
  {
  }
}
