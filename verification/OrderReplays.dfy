/** Whose operation a replayed reply names. */
module OrderReplays {
  import opened OrderPolicy
  import opened OrderRepository
  import opened MtopWrite
  import opened OrderProtocol
  import opened OrderGuarantees

  // ----- replays -----

  /** A replayed reply names the caller's own order and action exactly when it came from
      the key check. After a lost race at the insert it always names another order. */
  lemma ReplayNamesOwnOrderExactlyWithoutRace(orders: map<string, Order>, events: seq<Event>, c: nat)
    requires
      var s := Run(Init(orders), events);
      c in s.calls && s.calls[c].pc.Returned? && s.calls[c].pc.reply.Replayed?
    ensures
      var s := Run(Init(orders), events);
      var reply := s.calls[c].pc.reply;
      && reply.op in s.db.ops && s.db.ops[reply.op].key == s.calls[c].req.key
      && ((s.db.ops[reply.op].order == s.calls[c].req.order && s.db.ops[reply.op].action == s.calls[c].req.action)
          <==> !reply.raced)
  {
    InitIsSound(orders);
    RunKeepsInv(Init(orders), events);
    assert Good(Run(Init(orders), events), c);
  }

  /** The insert answers with another order's operation exactly when the order is there and
      idle and the key is taken in its account; all of that can be read before the insert. */
  lemma ForeignReplayExactly(s: State, c: nat, id: nat)
    requires Inv(s) && c in s.calls && s.calls[c].pc.Ready? && id !in s.db.ops
    ensures
      var t := Step(s, Create(c, id));
      var req, pc := s.calls[c].req, t.calls[c].pc;
      (pc.Returned? && pc.reply.Replayed? && pc.reply.op in t.db.ops && t.db.ops[pc.reply.op].order != req.order) <==>
        req.order in s.db.orders && !Busy(s.db, req.order) && KeyTaken(s.db, s.calls[c].pc.account, req.key)
  {
    var r := CreateTx(s.db, id, Draft(s.calls[c].req, s.calls[c].pc.account)).1;
    if r.Existing? { RacedRowIsForeign(s, c, r.id); }
  }

  // ----- keys that name one request -----

  /** Orders keep their account. */
  ghost predicate SameAccounts(orders: map<string, Order>, now: map<string, Order>) {
    now.Keys == orders.Keys && forall o :: o in orders ==> now[o].accountId == orders[o].accountId
  }

  lemma FinishKeepsAccounts(db: Db, op: nat, status: OpStatus, post: string, applyState: bool)
    requires op in db.ops
    ensures SameAccounts(db.orders, FinishTx(db, op, status, post, applyState).orders)
  {
  }

  lemma SettledKeepsAccounts(db: Db, op: nat, basis: Order, verdict: Verdict)
    requires op in db.ops
    ensures SameAccounts(db.orders, Settled(db, op, basis, verdict).orders)
  {
    match verdict {
      case Done(_) => FinishKeepsAccounts(db, op, Succeeded, "", true);
      case Rejected => FinishKeepsAccounts(db, op, Failed, basis.status, false);
      case _ => FinishKeepsAccounts(db, op, Uncertain, basis.status, false);
    }
  }

  lemma RecordKeepsAccounts(s: State, e: Event)
    requires (e.Finish? || e.FinishRepair?) && e.call in s.calls
    ensures SameAccounts(s.db.orders, CallStep(s, e).db.orders)
  {
    var pc := s.calls[e.call].pc;
    if e.Finish? && pc.Replied? && pc.op in s.db.ops && pc.op in s.h.evidence {
      SettledKeepsAccounts(s.db, pc.op, pc.basis, s.h.evidence[pc.op].verdict);
    }
  }

  lemma LateKeepsAccounts(s: State, c: nat, id: nat)
    requires c in s.calls
    ensures SameAccounts(s.db.orders, RunLate(s, c, id).db.orders)
  {
    var pc := s.calls[c].pc;
    if pc.LateFinish? && pc.op in s.db.ops && pc.op in s.h.evidence {
      SettledKeepsAccounts(s.db, pc.op, pc.basis, s.h.evidence[pc.op].verdict);
    }
  }

  lemma PreflightKeepsAccounts(s: State, c: nat, outcome: Preflight)
    requires c in s.calls && s.calls[c].pc.KeyFree?
    ensures SameAccounts(s.db.orders, AfterPreflight(s, c, outcome).db.orders)
  {
  }

  lemma OtherEventsTouchNoOrder(s: State, e: Event)
    requires ByCall(e) && e.call in s.calls && !e.Finish? && !e.FinishRepair? && !e.Late? && !e.RunPreflight?
    ensures CallStep(s, e).db.orders == s.db.orders
  {
  }

  lemma AccountsKept(s: State, e: Event)
    ensures SameAccounts(s.db.orders, Step(s, e).db.orders)
  {
    if ByCall(e) && e.call in s.calls {
      if e.Finish? || e.FinishRepair? { RecordKeepsAccounts(s, e); }
      else if e.Late? { LateKeepsAccounts(s, e.call, e.id); }
      else if e.RunPreflight? { if s.calls[e.call].pc.KeyFree? { PreflightKeepsAccounts(s, e.call, e.outcome); } }
      else { OtherEventsTouchNoOrder(s, e); }
    }
  }

  predicate InAccount(orders: map<string, Order>, order: string, account: string) {
    order in orders && orders[order].accountId == account
  }

  /** What the call knows of its account, and whose operation it was answered with. */
  ghost predicate CallFits(call: Call, orders: map<string, Order>, ops: Ops) {
    && (call.pc.Loaded? || call.pc.KeyFree? || call.pc.Ready? || call.pc.LateCreate? ==>
          InAccount(orders, call.req.order, call.pc.account))
    && (call.pc.Returned? && call.pc.reply.Replayed? ==>
          call.pc.reply.op in ops && InAccount(orders, call.req.order, ops[call.pc.reply.op].account))
  }

  lemma ReadingFits(s: State, e: Event, orders: map<string, Order>)
    requires (e.Acquire? || e.LoadOrder? || e.CheckKey?) && e.call in s.calls
    requires SameAccounts(orders, s.db.orders) && CallFits(s.calls[e.call], orders, s.db.ops)
    ensures e.call in CallStep(s, e).calls && CallFits(CallStep(s, e).calls[e.call], orders, CallStep(s, e).db.ops)
  {
  }

  lemma PreflightFits(s: State, e: Event, orders: map<string, Order>)
    requires e.RunPreflight? && e.call in s.calls && CallFits(s.calls[e.call], orders, s.db.ops)
    ensures e.call in CallStep(s, e).calls && CallFits(CallStep(s, e).calls[e.call], orders, CallStep(s, e).db.ops)
  {
  }

  lemma WritingFits(s: State, e: Event, orders: map<string, Order>)
    requires (e.BeginWrite? || e.RefuseWrite? || e.EndWrite? || e.Finish? || e.FinishRepair?) && e.call in s.calls
    requires CallFits(s.calls[e.call], orders, s.db.ops)
    ensures e.call in CallStep(s, e).calls && CallFits(CallStep(s, e).calls[e.call], orders, CallStep(s, e).db.ops)
  {
  }

  lemma LeavingFits(s: State, e: Event, orders: map<string, Order>)
    requires (e.Fault? || e.Complete? || e.Cancel? || e.Detach?) && e.call in s.calls
    requires CallFits(s.calls[e.call], orders, s.db.ops)
    ensures e.call in CallStep(s, e).calls && CallFits(CallStep(s, e).calls[e.call], orders, CallStep(s, e).db.ops)
  {
  }

  lemma InsertingFits(s: State, e: Event, orders: map<string, Order>)
    requires e.Create? && e.call in s.calls && CallFits(s.calls[e.call], orders, s.db.ops)
    ensures e.call in CallStep(s, e).calls && CallFits(CallStep(s, e).calls[e.call], orders, CallStep(s, e).db.ops)
  {
  }

  lemma LateFits(s: State, c: nat, id: nat, orders: map<string, Order>)
    requires c in s.calls && CallFits(s.calls[c], orders, s.db.ops)
    ensures c in RunLate(s, c, id).calls && CallFits(RunLate(s, c, id).calls[c], orders, RunLate(s, c, id).db.ops)
  {
  }

  lemma CallStepFits(s: State, e: Event, orders: map<string, Order>)
    requires ByCall(e) && e.call in s.calls
    requires SameAccounts(orders, s.db.orders) && CallFits(s.calls[e.call], orders, s.db.ops)
    ensures e.call in CallStep(s, e).calls && CallFits(CallStep(s, e).calls[e.call], orders, CallStep(s, e).db.ops)
  {
    if e.Acquire? || e.LoadOrder? || e.CheckKey? { ReadingFits(s, e, orders); }
    else if e.RunPreflight? { PreflightFits(s, e, orders); }
    else if e.Create? { InsertingFits(s, e, orders); }
    else if e.Late? { LateFits(s, e.call, e.id, orders); }
    else if e.Fault? || e.Complete? || e.Cancel? || e.Detach? { LeavingFits(s, e, orders); }
    else { WritingFits(s, e, orders); }
  }

  /** The row stands for this request. */
  ghost predicate RowOf(row: Operation, r: Request) {
    && row.order == r.order && row.key == r.key && row.action == r.action
    && (if r.action == OfflineShipping then row.carrier == r.carrier && row.tracking == r.tracking
        else row.carrier == "" && row.tracking == "")
  }

  ghost predicate RowFits(row: Operation, orders: map<string, Order>, reqs: set<Request>) {
    InAccount(orders, row.order, row.account) && exists r :: r in reqs && RowOf(row, r)
  }

  /** Every call and every row comes from one of these requests, and has its order's account. */
  ghost predicate Requested(s: State, orders: map<string, Order>, reqs: set<Request>) {
    && SameAccounts(orders, s.db.orders)
    && (forall c :: c in s.calls ==> s.calls[c].req in reqs && CallFits(s.calls[c], orders, s.db.ops))
    && (forall op :: op in s.db.ops ==> RowFits(s.db.ops[op], orders, reqs))
  }

  lemma StepKeepsRows(s: State, e: Event, orders: map<string, Order>, reqs: set<Request>)
    requires Requested(s, orders, reqs)
    ensures forall op :: op in Step(s, e).db.ops ==> RowFits(Step(s, e).db.ops[op], orders, reqs)
  {
    var t := Step(s, e);
    RowChange(s, e);
    forall op | op in t.db.ops ensures RowFits(t.db.ops[op], orders, reqs) {
      if op in s.db.ops {
        assert RowFits(s.db.ops[op], orders, reqs);
        var r :| r in reqs && RowOf(s.db.ops[op], r);
        assert RowOf(t.db.ops[op], r);
      } else {
        assert CallFits(s.calls[e.call], orders, s.db.ops);
        assert RowOf(t.db.ops[op], s.calls[e.call].req);
      }
    }
  }

  lemma StepKeepsCalls(s: State, e: Event, orders: map<string, Order>, c: nat)
    requires SameAccounts(orders, s.db.orders) && c in s.calls && CallFits(s.calls[c], orders, s.db.ops)
    requires c in Step(s, e).calls && RowsKept(s.db.ops, Step(s, e).db.ops)
    ensures Step(s, e).calls[c].req == s.calls[c].req && CallFits(Step(s, e).calls[c], orders, Step(s, e).db.ops)
  {
    CallsChange(s, e);
    if ByCall(e) && e.call == c { CallStepFits(s, e, orders); }
    else { assert Step(s, e).calls[c] == s.calls[c]; }
  }

  lemma StepKeepsRequested(s: State, e: Event, orders: map<string, Order>, reqs: set<Request>)
    requires Requested(s, orders, reqs) && (e.Arrive? ==> e.req in reqs)
    ensures Requested(Step(s, e), orders, reqs)
  {
    var t := Step(s, e);
    AccountsKept(s, e);
    StepKeepsRows(s, e, orders, reqs);
    CallsChange(s, e);
    RowChange(s, e);
    forall c | c in t.calls ensures t.calls[c].req in reqs && CallFits(t.calls[c], orders, t.db.ops) {
      if c in s.calls {
        StepKeepsCalls(s, e, orders, c);
      }
    }
  }

  lemma {:induction false} RunKeepsRequested(s: State, events: seq<Event>, orders: map<string, Order>, reqs: set<Request>)
    requires Requested(s, orders, reqs)
    requires forall i :: 0 <= i < |events| && events[i].Arrive? ==> events[i].req in reqs
    ensures Requested(Run(s, events), orders, reqs)
    decreases |events|
  {
    if events != [] {
      StepKeepsRequested(s, events[0], orders, reqs);
      RunKeepsRequested(Step(s, events[0]), events[1..], orders, reqs);
    }
  }

  /** Two requests that share a key within one account ask for the same. */
  predicate Agree(orders: map<string, Order>, q: Request, r: Request) {
    q.key == r.key && q.order in orders && InAccount(orders, r.order, orders[q.order].accountId)
    ==> q.order == r.order && q.action == r.action
  }

  /** Within an account no two arrivals use one key for different orders or actions. */
  ghost predicate KeysNameOneRequest(orders: map<string, Order>, events: seq<Event>) {
    forall i, j ::
      0 <= i < |events| && 0 <= j < |events| && events[i].Arrive? && events[j].Arrive?
      ==> Agree(orders, events[i].req, events[j].req)
  }

  ghost predicate OneRequestPerKey(orders: map<string, Order>, reqs: set<Request>) {
    forall q, r :: q in reqs && r in reqs ==> Agree(orders, q, r)
  }

  lemma Arrivals(orders: map<string, Order>, events: seq<Event>) returns (reqs: set<Request>)
    requires KeysNameOneRequest(orders, events)
    ensures OneRequestPerKey(orders, reqs)
    ensures forall i :: 0 <= i < |events| && events[i].Arrive? ==> events[i].req in reqs
  {
    reqs := set i | 0 <= i < |events| && events[i].Arrive? :: events[i].req;
  }

  /** Callers that never use a key of an account for two different requests get their own
      operation back: over every run, every replay then names the caller's own order and action. */
  lemma OwnKeysReplayOwnOperation(orders: map<string, Order>, events: seq<Event>, c: nat)
    requires KeysNameOneRequest(orders, events)
    requires
      var s := Run(Init(orders), events);
      c in s.calls && s.calls[c].pc.Returned? && s.calls[c].pc.reply.Replayed?
    ensures
      var s := Run(Init(orders), events);
      var op := s.calls[c].pc.reply.op;
      op in s.db.ops && s.db.ops[op].order == s.calls[c].req.order && s.db.ops[op].action == s.calls[c].req.action
  {
    ReplayNamesOwnOrderExactlyWithoutRace(orders, events, c);
    var reqs := Arrivals(orders, events);
    RunKeepsRequested(Init(orders), events, orders, reqs);
    SameKeySameRequest(Run(Init(orders), events), c, orders, reqs);
  }

  lemma SameKeySameRequest(s: State, c: nat, orders: map<string, Order>, reqs: set<Request>)
    requires Requested(s, orders, reqs) && c in s.calls && s.calls[c].pc.Returned? && s.calls[c].pc.reply.Replayed?
    requires OneRequestPerKey(orders, reqs)
    requires
      var op := s.calls[c].pc.reply.op;
      op in s.db.ops && s.db.ops[op].key == s.calls[c].req.key
    ensures
      var op := s.calls[c].pc.reply.op;
      s.db.ops[op].order == s.calls[c].req.order && s.db.ops[op].action == s.calls[c].req.action
  {
    var row := s.db.ops[s.calls[c].pc.reply.op];
    assert RowFits(row, orders, reqs);
    var r :| r in reqs && RowOf(row, r);
    assert CallFits(s.calls[c], orders, s.db.ops);
    assert Agree(orders, s.calls[c].req, r);
  }

  // ----- a raced replay -----

  lemma {:induction false} RunConcat(s: State, a: seq<Event>, b: seq<Event>)
    ensures Run(s, a + b) == Run(Run(s, a), b)
    decreases |a|
  {
    if a == [] {
      assert a + b == b;
    } else {
      assert (a + b)[0] == a[0] && (a + b)[1..] == a[1..] + b;
      RunConcat(Step(s, a[0]), a[1..], b);
    }
  }

  function UpToReady(c: nat, req: Request, order: Order): seq<Event> {
    [Arrive(c, req)] + ([Acquire(c)] + ([LoadOrder(c)] + ([CheckKey(c)] + ([RunPreflight(c, Refreshed(order, true))] + []))))
  }

  predicate Simple(a: Action) { !a.OfflineShipping? && !a.RefuseRefund? }

  /** A call on an idle, unlocked order with a free key comes up to its insert. */
  lemma ReachReady(s: State, c: nat, req: Request)
    requires c !in s.calls && req.order in s.db.orders && req.order !in s.locks && Simple(req.action)
    requires Enabled(s.db.orders[req.order], req.action)
    requires !KeyTaken(s.db, s.db.orders[req.order].accountId, req.key)
    ensures
      var order := s.db.orders[req.order];
      Run(s, UpToReady(c, req, order)) ==
        s.(locks := s.locks[req.order := c], calls := s.calls[c := Call(req, Ready(order.accountId, order))])
  {
    var order := s.db.orders[req.order];
    var waiting := s.(calls := s.calls[c := Call(req, Waiting)]);
    var locked := s.(locks := s.locks[req.order := c], calls := s.calls[c := Call(req, Locked)]);
    var last := [RunPreflight(c, Refreshed(order, true))] + [];
    RunCons(s, Arrive(c, req), [Acquire(c)] + ([LoadOrder(c)] + ([CheckKey(c)] + last)));
    RunCons(waiting, Acquire(c), [LoadOrder(c)] + ([CheckKey(c)] + last));
    assert waiting.calls[c := Call(req, Locked)] == locked.calls;
    LockedToReady(locked, c);
  }

  lemma LockedToReady(s: State, c: nat)
    requires c in s.calls && s.calls[c].pc.Locked? && s.calls[c].req.order in s.db.orders
    requires
      var req := s.calls[c].req;
      Simple(req.action) && Enabled(s.db.orders[req.order], req.action)
      && !KeyTaken(s.db, s.db.orders[req.order].accountId, req.key)
    ensures
      var order := s.db.orders[s.calls[c].req.order];
      Run(s, [LoadOrder(c)] + ([CheckKey(c)] + ([RunPreflight(c, Refreshed(order, true))] + []))) ==
        To(s, c, Ready(order.accountId, order))
  {
    var order := s.db.orders[s.calls[c].req.order];
    var loaded, keyFree := To(s, c, Loaded(order.accountId)), To(s, c, KeyFree(order.accountId));
    var last := [RunPreflight(c, Refreshed(order, true))] + [];
    RunCons(s, LoadOrder(c), [CheckKey(c)] + last);
    RunCons(loaded, CheckKey(c), last);
    assert Step(loaded, CheckKey(c)) == keyFree;
    RunCons(keyFree, RunPreflight(c, Refreshed(order, true)), []);
    assert s.db.orders[s.calls[c].req.order := order] == s.db.orders;
  }

  /** Two orders of one account, one key: both calls pass the key check, then both insert. */
  function Race(first: Request, second: Request, a: Order, b: Order): seq<Event> {
    UpToReady(0, first, a) + UpToReady(1, second, b) + [Create(0, 10), Create(1, 11)]
  }

  /** Whatever the two requests are, the second is answered with the first one's operation. */
  lemma RaceReplaysForeign(orders: map<string, Order>, first: Request, second: Request)
    requires first.order != second.order && first.order in orders && second.order in orders
    requires first.key == second.key && orders[first.order].accountId == orders[second.order].accountId
    requires Simple(first.action) && Simple(second.action)
    requires Enabled(orders[first.order], first.action) && Enabled(orders[second.order], second.action)
    ensures
      var s := Run(Init(orders), Race(first, second, orders[first.order], orders[second.order]));
      && 1 in s.calls && s.calls[1] == Call(second, Returned(Replayed(10, true)))
      && 10 in s.db.ops && s.db.ops[10].order == first.order
  {
    var a, b := orders[first.order], orders[second.order];
    var s0 := Init(orders);
    var s1 := Run(s0, UpToReady(0, first, a));
    var s2 := Run(s1, UpToReady(1, second, b));
    ReachReady(s0, 0, first);
    ReachReady(s1, 1, second);
    RunConcat(s0, UpToReady(0, first, a), UpToReady(1, second, b));
    RunConcat(s0, UpToReady(0, first, a) + UpToReady(1, second, b), [Create(0, 10), Create(1, 11)]);
    BothInsert(s2, first, second, a, b);
  }

  lemma BothInsert(s: State, first: Request, second: Request, a: Order, b: Order)
    requires first.order != second.order && first.order in s.db.orders && second.order in s.db.orders
    requires first.key == second.key && a.accountId == b.accountId && s.db.ops == map[]
    requires s.calls == map[0 := Call(first, Ready(a.accountId, a)), 1 := Call(second, Ready(b.accountId, b))]
    ensures
      var t := Run(s, [Create(0, 10), Create(1, 11)]);
      && 1 in t.calls && t.calls[1] == Call(second, Returned(Replayed(10, true)))
      && 10 in t.db.ops && t.db.ops[10].order == first.order
  {
    var es := [Create(0, 10), Create(1, 11)];
    var row := Draft(first, a.accountId);
    var t := Step(s, Create(0, 10));
    assert !Busy(s.db, first.order) && !KeyTaken(s.db, a.accountId, first.key);
    assert t.db.ops == map[10 := row];
    assert t.db.ops[10].account == b.accountId && t.db.ops[10].key == second.key;
    assert KeyTaken(t.db, b.accountId, second.key) && !Busy(t.db, second.order);
    assert es[1..] == [Create(1, 11)] && es[1..][1..] == [];
    assert Run(s, es) == Step(t, Create(1, 11));
  }

  /** A concrete race. */
  lemma RaceHappens() returns (orders: map<string, Order>, events: seq<Event>)
    ensures
      var s := Run(Init(orders), events);
      && 1 in s.calls && s.calls[1].pc == Returned(Replayed(10, true)) && s.calls[1].req.order == "q"
      && 10 in s.db.ops && s.db.ops[10].order == "p"
  {
    var o := Order("a", "seller", true, "1", "pending_payment", "", "", {}, {}, {}, false, false, "", "", "", [], "", "", "");
    orders := map["p" := o, "q" := o];
    var first := Request("p", "k", CloseOrder, "", "");
    var second := Request("q", "k", CloseOrder, "", "");
    assert Enabled(o, CloseOrder);
    events := Race(first, second, o, o);
    RaceReplaysForeign(orders, first, second);
  }
}
