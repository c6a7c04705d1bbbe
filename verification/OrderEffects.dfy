/** What recorded outcomes leave on their rows and on the orders. */
module OrderEffects {
  import opened OrderPolicy
  import opened OrderRepository
  import opened MtopWrite
  import opened OrderProtocol
  import opened OrderGuarantees
  import opened OrderReplays

  /** The row and the orders after a verdict: an accepted write moves its order and takes the new
      status; any other leaves the orders alone and stores the status the call had read. */
  ghost predicate StoredAs(db: Db, t: Db, op: nat, basis: Order, verdict: Verdict)
    requires op in db.ops && op in t.ops
  {
    var row, after := db.ops[op], t.ops[op];
    && (verdict.Done? ==> after.status == Succeeded)
    && (verdict.Done? && row.order in db.orders ==>
          && row.order in t.orders && Moved(db.orders[row.order], t.orders[row.order], row)
          && after.postStatus == t.orders[row.order].status)
    && (verdict.Rejected? ==> after.status == Failed)
    && (verdict.ResultUnknown? || verdict.Broken? ==> after.status == Uncertain)
    && (!verdict.Done? ==> after.postStatus == basis.status && t.orders == db.orders)
  }

  lemma VerdictIsStored(db: Db, op: nat, basis: Order, verdict: Verdict)
    requires op in db.ops
    ensures op in Settled(db, op, basis, verdict).ops && StoredAs(db, Settled(db, op, basis, verdict), op, basis, verdict)
    ensures forall o :: o in db.orders && o != db.ops[op].order ==>
      o in Settled(db, op, basis, verdict).orders && Settled(db, op, basis, verdict).orders[o] == db.orders[o]
  {
    match verdict {
      case Done(_) => FinishMeans(db, op, Succeeded, "", true);
      case Rejected => FinishMeans(db, op, Failed, basis.status, false);
      case _ => FinishMeans(db, op, Uncertain, basis.status, false);
    }
  }

  // ----- how one step changes an order -----

  /** The call or late job stores the outcome of an accepted write. */
  ghost predicate StoresSuccess(s: State, e: Event) {
    && (e.Finish? || e.Late?) && e.call in s.calls
    && var pc := s.calls[e.call].pc;
       && (if e.Finish? then pc.Replied? else pc.LateFinish?)
       && pc.op in s.db.ops && pc.op in s.h.evidence && s.h.evidence[pc.op].verdict.Done?
  }

  lemma FinishChangesOrders(s: State, c: nat, o: string)
    requires c in s.calls && o in s.db.orders
    requires
      var t := Step(s, Finish(c));
      o in t.db.orders && t.db.orders[o] != s.db.orders[o]
    ensures StoresSuccess(s, Finish(c)) && s.db.ops[s.calls[c].pc.op].order == o
    ensures Moved(s.db.orders[o], Step(s, Finish(c)).db.orders[o], s.db.ops[s.calls[c].pc.op])
  {
    var pc := s.calls[c].pc;
    VerdictIsStored(s.db, pc.op, pc.basis, s.h.evidence[pc.op].verdict);
  }

  lemma LateChangesOrders(s: State, c: nat, id: nat, o: string)
    requires c in s.calls && o in s.db.orders
    requires
      var t := RunLate(s, c, id);
      o in t.db.orders && t.db.orders[o] != s.db.orders[o]
    ensures StoresSuccess(s, Late(c, id)) && s.db.ops[s.calls[c].pc.op].order == o
    ensures Moved(s.db.orders[o], RunLate(s, c, id).db.orders[o], s.db.ops[s.calls[c].pc.op])
  {
    var pc := s.calls[c].pc;
    if pc.LateFinish? { VerdictIsStored(s.db, pc.op, pc.basis, s.h.evidence[pc.op].verdict); }
  }

  lemma RepairLeavesOrders(s: State, c: nat)
    requires c in s.calls
    ensures Step(s, FinishRepair(c)).db.orders == s.db.orders
  {
  }

  /** An order changes only when the platform's content for it is stored, or when an accepted
      write of that order is recorded, and then as its action says. */
  lemma OrderChange(s: State, e: Event, o: string)
    requires o in s.db.orders && o in Step(s, e).db.orders && Step(s, e).db.orders[o] != s.db.orders[o]
    ensures
      var after := Step(s, e).db.orders[o];
      || (e.OrderRefreshed? && e.order == o && after == e.content)
      || (e.RunPreflight? && e.call in s.calls && s.calls[e.call].req.order == o
          && e.outcome.Refreshed? && after == e.outcome.order)
      || (StoresSuccess(s, e) && var row := s.db.ops[s.calls[e.call].pc.op];
          row.order == o && Moved(s.db.orders[o], after, row))
  {
    if ByCall(e) && e.call in s.calls {
      if e.Finish? { FinishChangesOrders(s, e.call, o); }
      else if e.Late? { LateChangesOrders(s, e.call, e.id, o); }
      else if e.FinishRepair? { RepairLeavesOrders(s, e.call); }
      else if !e.RunPreflight? { OtherEventsTouchNoOrder(s, e); }
    }
  }

  // ----- succeeded rows over whole runs -----

  /** The status a succeeded row shows. */
  ghost predicate PostFits(row: Operation) {
    row.status.Succeeded? ==>
      && (row.action in {ConfirmShipping, OfflineShipping, FreeShipping} ==> row.postStatus == "shipped")
      && (row.action == CloseOrder ==> row.postStatus == "closed")
  }

  ghost predicate RowsFit(db: Db) {
    forall op :: op in db.ops ==> db.ops[op].order in db.orders && PostFits(db.ops[op])
  }

  lemma MovedStatus(o: Order, n: Order, row: Operation)
    requires Moved(o, n, row)
    ensures row.action in {ConfirmShipping, OfflineShipping, FreeShipping} ==> n.status == "shipped"
    ensures row.action == CloseOrder ==> n.status == "closed"
  {
  }

  lemma SettledFits(db: Db, op: nat, basis: Order, verdict: Verdict)
    requires RowsFit(db) && op in db.ops
    ensures op in Settled(db, op, basis, verdict).ops && PostFits(Settled(db, op, basis, verdict).ops[op])
  {
    var t := Settled(db, op, basis, verdict);
    VerdictIsStored(db, op, basis, verdict);
    SettledRow(db, op, basis, verdict);
    if verdict.Done? { MovedStatus(db.orders[db.ops[op].order], t.orders[db.ops[op].order], db.ops[op]); }
  }

  lemma FinishFits(s: State, c: nat, op: nat)
    requires RowsFit(s.db) && c in s.calls && Settles(s.calls[c].pc) && s.calls[c].pc.op == op && op in s.db.ops
    ensures op in Step(s, Finish(c)).db.ops && PostFits(Step(s, Finish(c)).db.ops[op])
  {
    if op in s.h.evidence { SettledFits(s.db, op, s.calls[c].pc.basis, s.h.evidence[op].verdict); }
  }

  lemma RepairFits(s: State, c: nat, op: nat)
    requires RowsFit(s.db) && c in s.calls && Settles(s.calls[c].pc) && s.calls[c].pc.op == op && op in s.db.ops
    ensures op in Step(s, FinishRepair(c)).db.ops && PostFits(Step(s, FinishRepair(c)).db.ops[op])
  {
    FinishTouchesOneRow(s.db, op, Uncertain, s.calls[c].pc.basis.status, false);
  }

  lemma LateRowFits(s: State, c: nat, id: nat, op: nat)
    requires RowsFit(s.db) && c in s.calls && Settles(s.calls[c].pc) && s.calls[c].pc.op == op && op in s.db.ops
    ensures op in RunLate(s, c, id).db.ops && PostFits(RunLate(s, c, id).db.ops[op])
  {
    if op in s.h.evidence { SettledFits(s.db, op, s.calls[c].pc.basis, s.h.evidence[op].verdict); }
    FinishTouchesOneRow(s.db, op, Uncertain, s.calls[c].pc.basis.status, false);
  }

  /** The stepping call's own row, when the step stores an outcome on it. */
  lemma RecordFits(s: State, e: Event, op: nat)
    requires RowsFit(s.db) && (e.Finish? || e.FinishRepair? || e.Late?) && e.call in s.calls
    requires Settles(s.calls[e.call].pc) && s.calls[e.call].pc.op == op && op in s.db.ops
    ensures op in Step(s, e).db.ops && PostFits(Step(s, e).db.ops[op])
  {
    if e.Finish? { FinishFits(s, e.call, op); }
    else if e.FinishRepair? { RepairFits(s, e.call, op); }
    else { LateRowFits(s, e.call, e.id, op); }
  }

  lemma StepKeepsRowsFit(s: State, e: Event)
    requires RowsFit(s.db)
    ensures RowsFit(Step(s, e).db)
  {
    var t := Step(s, e);
    RowChange(s, e);
    AccountsKept(s, e);
    forall op | op in t.db.ops ensures t.db.ops[op].order in t.db.orders && PostFits(t.db.ops[op]) {
      if op in s.db.ops && t.db.ops[op] != s.db.ops[op] { RecordFits(s, e, op); }
      if op !in s.db.ops { NewRowFits(s, e, op); }
    }
  }

  lemma NewRowFits(s: State, e: Event, op: nat)
    requires (e.Create? || e.Late?) && op !in s.db.ops && op in Step(s, e).db.ops
    ensures Step(s, e).db.ops[op].order in s.db.orders && Step(s, e).db.ops[op].status.Processing?
  {
  }

  lemma {:induction false} RunKeepsRowsFit(s: State, events: seq<Event>)
    requires RowsFit(s.db)
    ensures RowsFit(Run(s, events).db)
    decreases |events|
  {
    if events != [] {
      StepKeepsRowsFit(s, events[0]);
      RunKeepsRowsFit(Step(s, events[0]), events[1..]);
    }
  }

  /** Over every run a succeeded shipping shows its order as shipped, and a succeeded closing as
      closed. */
  lemma SucceededRowsMovedTheirOrder(orders: map<string, Order>, events: seq<Event>, op: nat)
    requires op in Run(Init(orders), events).db.ops && Run(Init(orders), events).db.ops[op].status.Succeeded?
    ensures
      var row := Run(Init(orders), events).db.ops[op];
      && (row.action in {ConfirmShipping, OfflineShipping, FreeShipping} ==> row.postStatus == "shipped")
      && (row.action == CloseOrder ==> row.postStatus == "closed")
  {
    RunKeepsRowsFit(Init(orders), events);
    assert PostFits(Run(Init(orders), events).db.ops[op]);
  }
}
