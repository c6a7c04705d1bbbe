/** Concurrent `execute` calls over one database: every await is a point where another
    call may run, the call may be cancelled, or the process may die. A call cancelled twice
    leaves while its job in the thread pool goes on without it. A run is any list of events;
    an event that is not possible leaves the state as it is. */
module OrderProtocol {
  import opened OrderPolicy
  import opened OrderRepository
  import opened MtopWrite

  datatype Request = Request(order: string, key: string, action: Action, carrier: string, tracking: string)

  datatype Reply =
    | Errored
    | Cancelled
    | Replayed(op: nat, raced: bool)
    | Performed(op: nat)

  /** Where a call stands; everything from `Locked` to `Repair` runs under the order lock. A
      late job is what is left of a call that was cancelled twice. */
  datatype Pc =
    | Waiting
    | Locked
    | Loaded(account: string)
    | KeyFree(account: string)
    | Ready(account: string, basis: Order)
    | Opened(op: nat, basis: Order)
    | Writing(op: nat, basis: Order)
    | Replied(op: nat, basis: Order)
    | Recorded(op: nat, basis: Order)
    | Repair(op: nat, basis: Order)
    | LateCreate(account: string, basis: Order)
    | LateWrite(op: nat, basis: Order)
    | LateFinish(op: nat, basis: Order)
    | LateRepair(op: nat, basis: Order)
    | Returned(reply: Reply)

  datatype Call = Call(req: Request, pc: Pc)

  /** One `client.execute`, with the refreshed order it was allowed on. */
  datatype Write = Write(op: nat, basis: Order)

  /** What the platform passes of a finished write met. */
  datatype Evidence = Evidence(action: Action, fieldsPresent: bool, first: Attempt, second: Attempt)

  /** The evidence of a write with the verdict drawn from it. */
  datatype Ruling = Ruling(ev: Evidence, verdict: Verdict)

  /** What happened to the operations: whose write began, how answered writes went, whose write
      the executor refused to take, and which rows were committed after their call had left. */
  datatype History = History(begun: set<nat>, evidence: map<nat, Ruling>, refused: set<nat>, orphans: set<nat>)

  datatype State = State(
    db: Db,
    locks: map<string, nat>,
    calls: map<nat, Call>,
    writes: seq<Write>,
    h: History
  )

  datatype Preflight = PreflightFailed | Refreshed(order: Order, requestValid: bool)

  datatype Event =
    | Arrive(call: nat, req: Request)
    | Acquire(call: nat)
    | LoadOrder(call: nat)
    | CheckKey(call: nat)
    | RunPreflight(call: nat, outcome: Preflight)
    | Create(call: nat, id: nat)
    | BeginWrite(call: nat)
    | RefuseWrite(call: nat)          // the executor is saturated or closed
    | EndWrite(call: nat, fieldsPresent: bool, first: Attempt, second: Attempt)
    | Finish(call: nat)
    | Fault(call: nat)                // a store call raises
    | FinishRepair(call: nat)
    | Complete(call: nat)
    | Cancel(call: nat)               // the call leaves, or its late job is dropped
    | Detach(call: nat)               // a second cancellation while a job is in the pool
    | Late(call: nat, id: nat)        // the late job runs
    | Crash
    | OrderRefreshed(order: string, content: Order)

  predicate IsLate(pc: Pc) {
    pc.LateCreate? || pc.LateWrite? || pc.LateFinish? || pc.LateRepair?
  }

  predicate Critical(pc: Pc) {
    !pc.Waiting? && !pc.Returned? && !IsLate(pc)
  }

  predicate Owns(pc: Pc) {
    || pc.Opened? || pc.Writing? || pc.Replied? || pc.Recorded? || pc.Repair?
    || pc.LateWrite? || pc.LateFinish? || pc.LateRepair?
  }

  function VerdictFor(e: Evidence): Verdict {
    VerdictOf(e.action, e.fieldsPresent, e.first, e.second)
  }

  function To(s: State, c: nat, pc: Pc): State
    requires c in s.calls
  {
    s.(calls := s.calls[c := s.calls[c].(pc := pc)])
  }

  /** Leave the order lock. */
  function Release(s: State, c: nat, pc: Pc): State
    requires c in s.calls
  {
    var order := s.calls[c].req.order;
    To(s, c, pc).(locks := if order in s.locks && s.locks[order] == c then s.locks - {order} else s.locks)
  }

  function Return(s: State, c: nat, reply: Reply): State
    requires c in s.calls
  {
    Release(s, c, Returned(reply))
  }

  function Draft(req: Request, account: string): Operation {
    var offline := req.action.OfflineShipping?;
    Operation(req.order, account, req.key, req.action,
              if offline then req.carrier else "", if offline then req.tracking else "", Processing, "")
  }

  ghost function Step(s: State, e: Event): State {
    match e
    case Crash => s.(locks := map[], calls := map[])
    case OrderRefreshed(o, content) =>
      if o in s.db.orders && content.accountId == s.db.orders[o].accountId then
        s.(db := s.db.(orders := s.db.orders[o := content]))
      else s
    case Arrive(c, req) => if c in s.calls then s else s.(calls := s.calls[c := Call(req, Waiting)])
    case _ => if e.call in s.calls then CallStep(s, e) else s
  }

  ghost function CallStep(s: State, e: Event): State
    requires !e.Crash? && !e.OrderRefreshed? && !e.Arrive? && e.call in s.calls
  {
    var c := e.call;
    var pc := s.calls[c].pc;
    match e
    case Acquire(_) => if pc.Waiting? then TakeLock(s, c) else s
    case LoadOrder(_) => if pc.Locked? then ReadOrder(s, c) else s
    case CheckKey(_) => if pc.Loaded? then LookUpKey(s, c) else s
    case RunPreflight(_, outcome) => if pc.KeyFree? then AfterPreflight(s, c, outcome) else s
    case Create(_, id) => if pc.Ready? && id !in s.db.ops then InsertRow(s, c, id) else s
    case BeginWrite(_) => if pc.Opened? then StartWrite(s, c, Writing(pc.op, pc.basis)) else s
    case RefuseWrite(_) => if pc.Opened? then NoteRefusal(s, c) else s
    case EndWrite(_, fieldsPresent, first, second) =>
      if pc.Writing? then StoreEvidence(s, c, Evidence(s.calls[c].req.action, fieldsPresent, first, second)) else s
    case Finish(_) => if pc.Replied? && pc.op in s.db.ops && pc.op in s.h.evidence then Record(s, c) else s
    case Fault(_) => Raise(s, c)
    case FinishRepair(_) => if pc.Repair? && pc.op in s.db.ops then RecordUncertain(s, c, Performed(pc.op)) else s
    case Complete(_) => if pc.Recorded? then Return(s, c, Performed(pc.op)) else s
    case Cancel(_) => if pc.Returned? then s else Return(s, c, Cancelled)
    case Detach(_) => if Detachable(pc) then Release(s, c, Detached(pc)) else s
    case Late(_, id) => RunLate(s, c, id)
  }

  function TakeLock(s: State, c: nat): State
    requires c in s.calls
  {
    var order := s.calls[c].req.order;
    if order in s.locks then s else To(s, c, Locked).(locks := s.locks[order := c])
  }

  function ReadOrder(s: State, c: nat): State
    requires c in s.calls
  {
    var order := s.calls[c].req.order;
    if order in s.db.orders then To(s, c, Loaded(s.db.orders[order].accountId)) else Return(s, c, Errored)
  }

  ghost function LookUpKey(s: State, c: nat): State
    requires c in s.calls && s.calls[c].pc.Loaded?
  {
    var req := s.calls[c].req;
    match ByKey(s.db, s.calls[c].pc.account, req.key)
    case Missing => To(s, c, KeyFree(s.calls[c].pc.account))
    case Found(i) =>
      if s.db.ops[i].order == req.order && s.db.ops[i].action == req.action then Return(s, c, Replayed(i, false))
      else Return(s, c, Errored)
  }

  ghost function InsertRow(s: State, c: nat, id: nat): State
    requires c in s.calls && s.calls[c].pc.Ready? && id !in s.db.ops
  {
    var pc := s.calls[c].pc;
    var (db, r) := CreateTx(s.db, id, Draft(s.calls[c].req, pc.account));
    match r
    case Created(_) => To(s, c, Opened(id, pc.basis)).(db := db)
    case Existing(i) => Return(s, c, Replayed(i, true))
    case _ => Return(s, c, Errored)
  }

  function StartWrite(s: State, c: nat, next: Pc): State
    requires c in s.calls && (s.calls[c].pc.Opened? || s.calls[c].pc.LateWrite?)
  {
    var pc := s.calls[c].pc;
    To(s, c, next).(writes := s.writes + [Write(pc.op, pc.basis)], h := s.h.(begun := s.h.begun + {pc.op}))
  }

  /** The executor raises before it takes the write; the generic handler then runs. */
  function NoteRefusal(s: State, c: nat): State
    requires c in s.calls && s.calls[c].pc.Opened?
  {
    var pc := s.calls[c].pc;
    To(s, c, Repair(pc.op, pc.basis)).(h := s.h.(refused := s.h.refused + {pc.op}))
  }

  function StoreEvidence(s: State, c: nat, ev: Evidence): State
    requires c in s.calls && s.calls[c].pc.Writing?
  {
    var pc := s.calls[c].pc;
    To(s, c, Replied(pc.op, pc.basis)).(h := s.h.(evidence := s.h.evidence[pc.op := Ruling(ev, VerdictFor(ev))]))
  }

  /** An exception: before the row is opened and in the handlers it leaves; after an accepted
      write the generic handler still runs. */
  function Raise(s: State, c: nat): State
    requires c in s.calls
  {
    var pc := s.calls[c].pc;
    if pc.Recorded? || (pc.Replied? && pc.op in s.h.evidence && s.h.evidence[pc.op].verdict.Done?) then
      To(s, c, Repair(pc.op, pc.basis))
    else if Critical(pc) && !pc.Opened? && !pc.Writing? then Return(s, c, Errored)
    else s
  }

  function RecordUncertain(s: State, c: nat, reply: Reply): State
    requires c in s.calls && Owns(s.calls[c].pc) && s.calls[c].pc.op in s.db.ops
  {
    var pc := s.calls[c].pc;
    Return(s.(db := FinishTx(s.db, pc.op, Uncertain, pc.basis.status, false)), c, reply)
  }

  /** The refresh is stored, then the policy and the request's own fields decide. */
  function AfterPreflight(s: State, c: nat, outcome: Preflight): State
    requires c in s.calls && s.calls[c].pc.KeyFree?
  {
    var req := s.calls[c].req;
    var account := s.calls[c].pc.account;
    if outcome.PreflightFailed? || outcome.order.accountId != account || req.order !in s.db.orders
       || s.db.orders[req.order].accountId != account then Return(s, c, Errored)
    else
      var stored := s.(db := s.db.(orders := s.db.orders[req.order := outcome.order]));
      if !Enabled(outcome.order, req.action)
         || (req.action.OfflineShipping? && (req.tracking == "" || req.carrier == ""))
         || (req.action.RefuseRefund? && !outcome.requestValid) then Return(stored, c, Errored)
      else To(stored, c, Ready(account, outcome.order))
  }

  /** The row as a verdict leaves it. */
  function Settled(db: Db, op: nat, basis: Order, verdict: Verdict): Db
    requires op in db.ops
  {
    match verdict
    case Done(_) => FinishTx(db, op, Succeeded, "", true)
    case Rejected => FinishTx(db, op, Failed, basis.status, false)
    case _ => FinishTx(db, op, Uncertain, basis.status, false)
  }

  /** Store the verdict on the operation. A success is followed by a read-back, so the call
      is still inside the block whose exceptions are caught. */
  function Record(s: State, c: nat): State
    requires c in s.calls && Owns(s.calls[c].pc) && s.calls[c].pc.op in s.db.ops && s.calls[c].pc.op in s.h.evidence
  {
    var pc := s.calls[c].pc;
    var verdict := s.h.evidence[pc.op].verdict;
    var stored := s.(db := Settled(s.db, pc.op, pc.basis, verdict));
    if verdict.Done? then To(stored, c, Recorded(pc.op, pc.basis)) else Return(stored, c, Performed(pc.op))
  }

  predicate Detachable(pc: Pc) {
    pc.Ready? || pc.Opened? || pc.Replied? || pc.Repair?
  }

  /** What stays in the thread pool when a call is cancelled for the second time. */
  function Detached(pc: Pc): Pc
    requires Detachable(pc)
  {
    match pc
    case Ready(account, basis) => LateCreate(account, basis)
    case Opened(op, basis) => LateWrite(op, basis)
    case Replied(op, basis) => LateFinish(op, basis)
    case Repair(op, basis) => LateRepair(op, basis)
  }

  /** A job that runs after its call left: its result is dropped. */
  ghost function RunLate(s: State, c: nat, id: nat): State
    requires c in s.calls
  {
    var pc := s.calls[c].pc;
    match pc
    case LateCreate(account, _) => if id in s.db.ops then s else InsertLate(s, c, id)
    case LateWrite(_, _) => StartWrite(s, c, Returned(Cancelled))
    case LateFinish(op, basis) =>
      if op in s.db.ops && op in s.h.evidence
      then Return(s.(db := Settled(s.db, op, basis, s.h.evidence[op].verdict)), c, Cancelled) else s
    case LateRepair(op, _) => if op in s.db.ops then RecordUncertain(s, c, Cancelled) else s
    case _ => s
  }

  ghost function InsertLate(s: State, c: nat, id: nat): State
    requires c in s.calls && s.calls[c].pc.LateCreate? && id !in s.db.ops
  {
    var (db, r) := CreateTx(s.db, id, Draft(s.calls[c].req, s.calls[c].pc.account));
    var left := Return(s, c, Cancelled);
    if r.Created? then left.(db := db, h := s.h.(orphans := s.h.orphans + {id})) else left
  }

  ghost function Run(s: State, events: seq<Event>): State
    decreases |events|
  {
    if events == [] then s else Run(Step(s, events[0]), events[1..])
  }

  lemma RunCons(s: State, e: Event, rest: seq<Event>)
    ensures Run(s, [e] + rest) == Run(Step(s, e), rest)
  {
    assert ([e] + rest)[1..] == rest;
  }

  function NoHistory(): History {
    History({}, map[], {}, {})
  }

  function Init(orders: map<string, Order>): State {
    State(Db(orders, map[]), map[], map[], [], NoHistory())
  }

  // ----- the invariant -----

  type Ops = map<nat, Operation>

  /** Nobody else is in the critical section of a call's order. */
  ghost predicate LocksOk(locks: map<string, nat>, calls: map<nat, Call>) {
    && (forall c :: c in calls && Critical(calls[c].pc) ==>
          calls[c].req.order in locks && locks[calls[c].req.order] == c)
    && (forall o :: o in locks ==> locks[o] in calls && calls[locks[o]].req.order == o && Critical(calls[locks[o]].pc))
  }

  ghost predicate OwnersDistinct(calls: map<nat, Call>) {
    forall c, d {:trigger Owns(calls[c].pc), Owns(calls[d].pc)} ::
      c in calls && d in calls && c != d && Owns(calls[c].pc) && Owns(calls[d].pc) ==> calls[c].pc.op != calls[d].pc.op
  }

  ghost predicate Wrote(writes: seq<Write>, op: nat) {
    exists i :: 0 <= i < |writes| && writes[i].op == op
  }

  /** Every write belongs to a row, was allowed, and no row was written twice. */
  ghost predicate WritesOk(ops: Ops, writes: seq<Write>, begun: set<nat>) {
    && begun <= ops.Keys
    && (forall i :: 0 <= i < |writes| ==> writes[i].op in begun && Enabled(writes[i].basis, ops[writes[i].op].action))
    && (forall i, j :: 0 <= i < j < |writes| ==> writes[i].op != writes[j].op)
    && (forall op :: op in begun ==> Wrote(writes, op))
  }

  /** Evidence is of writes that began, a refused write never began, and a row without a call is
      in progress. */
  ghost predicate HistoryOk(ops: Ops, h: History) {
    && h.evidence.Keys <= h.begun
    && (forall op :: op in h.evidence && op in ops ==> h.evidence[op].ev.action == ops[op].action)
    && (forall op :: op in h.refused ==> op in ops && op !in h.begun)
    && (forall op :: op in h.orphans ==> op in ops && ops[op].status.Processing?)
  }

  /** What a row's status says about the write it stands for. */
  ghost predicate Truthful(status: OpStatus, h: History, op: nat) {
    match status
    case Processing => true
    case Succeeded => op in h.evidence && h.evidence[op].verdict.Done?
    case Failed => op in h.evidence && h.evidence[op].verdict.Rejected?
    case Uncertain => op in h.refused || (op in h.evidence && !h.evidence[op].verdict.Rejected?)
  }

  ghost predicate AllTruthful(ops: Ops, h: History) {
    forall op {:trigger Truthful(ops[op].status, h, op)} :: op in ops ==> Truthful(ops[op].status, h, op)
  }

  /** No row holds the call's key for its own order, unless a late job put it there. */
  ghost predicate KeyFreeFor(ops: Ops, orphans: set<nat>, account: string, req: Request) {
    forall i :: i in ops && ops[i].account == account && ops[i].key == req.key ==>
      ops[i].order != req.order || i in orphans
  }

  ghost predicate OwnerOk(req: Request, pc: Pc, ops: Ops, h: History)
    requires Owns(pc)
  {
    && pc.op in ops && ops[pc.op].order == req.order && ops[pc.op].action == req.action && pc.op !in h.orphans
    && (pc.Opened? || pc.LateWrite? ==>
          ops[pc.op].status.Processing? && pc.op !in h.begun && pc.op !in h.refused && Enabled(pc.basis, req.action))
    && (pc.Writing? ==> ops[pc.op].status.Processing? && pc.op in h.begun && pc.op !in h.evidence)
    && (pc.Replied? || pc.LateFinish? ==> ops[pc.op].status.Processing? && pc.op in h.evidence)
    && (pc.Recorded? ==> Accepted(pc.op, ops, h) && ops[pc.op].status.Succeeded?)
    && (pc.Repair? || pc.LateRepair? ==>
          Accepted(pc.op, ops, h) || (pc.op in h.refused && ops[pc.op].status.Processing?))
  }

  /** The platform accepted the write of this row. */
  ghost predicate Accepted(op: nat, ops: Ops, h: History) {
    && op in ops && op in h.evidence && h.evidence[op].verdict.Done?
    && (ops[op].status.Processing? || ops[op].status.Succeeded?)
  }

  ghost predicate ReplyOk(ops: Ops, req: Request, reply: Reply) {
    reply.Replayed? ==>
      && reply.op in ops && ops[reply.op].key == req.key
      && (reply.raced <==> ops[reply.op].order != req.order)
      && (!reply.raced ==> ops[reply.op].action == req.action)
  }

  ghost predicate CallOk(call: Call, ops: Ops, h: History) {
    && (Owns(call.pc) ==> OwnerOk(call.req, call.pc, ops, h))
    && (call.pc.KeyFree? || call.pc.Ready? ==> KeyFreeFor(ops, h.orphans, call.pc.account, call.req))
    && (call.pc.Ready? ==> Enabled(call.pc.basis, call.req.action))
    && (call.pc.Returned? ==> ReplyOk(ops, call.req, call.pc.reply))
  }

  ghost predicate AllCallsOk(calls: map<nat, Call>, ops: Ops, h: History) {
    forall c {:trigger CallOk(calls[c], ops, h)} :: c in calls ==> CallOk(calls[c], ops, h)
  }

  ghost predicate Inv(s: State) {
    && UniqueKeys(s.db.ops) && OneProcessing(s.db.ops)
    && LocksOk(s.locks, s.calls) && OwnersDistinct(s.calls)
    && WritesOk(s.db.ops, s.writes, s.h.begun) && HistoryOk(s.db.ops, s.h)
    && AllTruthful(s.db.ops, s.h)
    && AllCallsOk(s.calls, s.db.ops, s.h)
  }

  ghost predicate Good(s: State, c: nat) {
    c in s.calls && CallOk(s.calls[c], s.db.ops, s.h)
  }

  // ----- locks -----

  /** Two calls under the lock of one order are the same call. */
  lemma OneCallPerOrder(locks: map<string, nat>, calls: map<nat, Call>, c: nat, d: nat)
    requires LocksOk(locks, calls) && c in calls && d in calls
    requires Critical(calls[c].pc) && Critical(calls[d].pc) && calls[c].req.order == calls[d].req.order
    ensures c == d
  {
  }

  lemma MoveKeepsLocks(s: State, c: nat, pc: Pc)
    requires LocksOk(s.locks, s.calls) && c in s.calls && (Critical(s.calls[c].pc) <==> Critical(pc))
    ensures LocksOk(s.locks, To(s, c, pc).calls)
  {
  }

  lemma ReleaseKeepsLocks(s: State, c: nat, pc: Pc)
    requires LocksOk(s.locks, s.calls) && c in s.calls && !Critical(pc)
    ensures LocksOk(Release(s, c, pc).locks, Release(s, c, pc).calls)
  {
    var t := Release(s, c, pc);
    forall d | d in t.calls && Critical(t.calls[d].pc)
      ensures t.calls[d].req.order in t.locks && t.locks[t.calls[d].req.order] == d
    {
      assert d != c && d in s.calls && Critical(s.calls[d].pc);
    }
  }

  // ----- owners -----

  ghost predicate OnlyCall(calls: map<nat, Call>, after: map<nat, Call>, c: nat) {
    && c in calls && after.Keys == calls.Keys && after[c].req == calls[c].req
    && forall d :: d in calls && d != c ==> after[d] == calls[d]
  }

  /** The call's step gives it no new operation. */
  ghost predicate KeepsOwn(calls: map<nat, Call>, after: map<nat, Call>, c: nat) {
    && OnlyCall(calls, after, c)
    && (Owns(after[c].pc) ==> Owns(calls[c].pc) && calls[c].pc.op == after[c].pc.op)
  }

  lemma OwnersStayDistinct(calls: map<nat, Call>, after: map<nat, Call>, c: nat)
    requires OwnersDistinct(calls) && KeepsOwn(calls, after, c)
    ensures OwnersDistinct(after)
  {
  }

  // ----- what a change of one row leaves alone -----

  /** Rows other than `op` are as before, and no row changes whose request it records. */
  ghost predicate OnlyRow(ops: Ops, after: Ops, op: nat) {
    && op in ops && after.Keys == ops.Keys && RowsKept(ops, after)
    && forall o :: o in ops && o != op ==> after[o] == ops[o]
  }

  /** The two histories agree on `o`. */
  ghost predicate SameHistory(h: History, h': History, o: nat) {
    && (o in h'.begun <==> o in h.begun) && (o in h'.refused <==> o in h.refused)
    && (o in h'.orphans <==> o in h.orphans)
    && (o in h'.evidence <==> o in h.evidence) && (o in h.evidence ==> h'.evidence[o] == h.evidence[o])
  }

  lemma FinishTouchesOneRow(db: Db, op: nat, status: OpStatus, post: string, applyState: bool)
    requires op in db.ops
    ensures OnlyRow(db.ops, FinishTx(db, op, status, post, applyState).ops, op)
    ensures FinishTx(db, op, status, post, applyState).ops[op].status == status
  {
  }

  lemma WritesKept(ops: Ops, after: Ops, writes: seq<Write>, begun: set<nat>)
    requires WritesOk(ops, writes, begun) && RowsKept(ops, after)
    ensures WritesOk(after, writes, begun)
  {
  }

  /** A call is not disturbed by a change that leaves its row alone and opens no row for
      its order but a late one. */
  lemma CallUndisturbed(call: Call, ops: Ops, h: History, ops': Ops, h': History)
    requires CallOk(call, ops, h) && RowsKept(ops, ops') && h.orphans <= h'.orphans
    requires Critical(call.pc) ==>
      forall i :: i in ops' && i !in ops ==> ops'[i].order != call.req.order || i in h'.orphans
    requires Owns(call.pc) ==>
      call.pc.op in ops && call.pc.op in ops' && ops'[call.pc.op].status == ops[call.pc.op].status
      && SameHistory(h, h', call.pc.op)
    ensures CallOk(call, ops', h')
  {
    if call.pc.KeyFree? || call.pc.Ready? {
      forall i | i in ops' && ops'[i].account == call.pc.account && ops'[i].key == call.req.key
        ensures ops'[i].order != call.req.order || i in h'.orphans
      {
        if i in ops { assert ops[i].account == call.pc.account; }
      }
    }
  }

  /** When the only row and history touched are those of the operation call `c` owns, the
      other calls stay sound. */
  lemma OthersUndisturbed(s: State, t: State, c: nat)
    requires OwnersDistinct(s.calls) && AllCallsOk(s.calls, s.db.ops, s.h)
    requires OnlyCall(s.calls, t.calls, c) && Owns(s.calls[c].pc) && Good(t, c)
    requires OnlyRow(s.db.ops, t.db.ops, s.calls[c].pc.op) && t.h.orphans == s.h.orphans
    requires forall o :: o != s.calls[c].pc.op ==> SameHistory(s.h, t.h, o)
    ensures AllCallsOk(t.calls, t.db.ops, t.h)
  {
    forall d | d in t.calls ensures CallOk(t.calls[d], t.db.ops, t.h) {
      if d != c {
        assert Good(s, d);
        if Owns(s.calls[d].pc) { assert SameHistory(s.h, t.h, s.calls[d].pc.op); }
        CallUndisturbed(s.calls[d], s.db.ops, s.h, t.db.ops, t.h);
      }
    }
  }

  // ----- one lemma per step -----

  /** A call that only moves or leaves, touching no operation, keeps the invariant. */
  lemma QuietStep(s: State, t: State, c: nat)
    requires Inv(s) && KeepsOwn(s.calls, t.calls, c) && t.db.ops == s.db.ops
    requires t.writes == s.writes && t.h == s.h
    requires LocksOk(t.locks, t.calls) && Good(t, c)
    ensures Inv(t)
  {
    OwnersStayDistinct(s.calls, t.calls, c);
    forall d | d in t.calls ensures CallOk(t.calls[d], t.db.ops, t.h) {
      if d != c { assert CallOk(s.calls[d], s.db.ops, s.h); }
    }
  }

  lemma LeaveKeepsInv(s: State, c: nat, reply: Reply)
    requires Inv(s) && c in s.calls && ReplyOk(s.db.ops, s.calls[c].req, reply)
    ensures Inv(Return(s, c, reply))
  {
    ReleaseKeepsLocks(s, c, Returned(reply));
    QuietStep(s, Return(s, c, reply), c);
  }

  lemma MoveKeepsInv(s: State, c: nat, pc: Pc)
    requires Inv(s) && c in s.calls && Critical(s.calls[c].pc) && Critical(pc)
    requires Owns(pc) ==> Owns(s.calls[c].pc) && s.calls[c].pc.op == pc.op
    requires CallOk(Call(s.calls[c].req, pc), s.db.ops, s.h)
    ensures Inv(To(s, c, pc))
  {
    MoveKeepsLocks(s, c, pc);
    QuietStep(s, To(s, c, pc), c);
  }

  lemma DetachIsGood(s: State, c: nat)
    requires LocksOk(s.locks, s.calls) && Good(s, c) && Detachable(s.calls[c].pc)
    ensures
      var t := Release(s, c, Detached(s.calls[c].pc));
      Good(t, c) && KeepsOwn(s.calls, t.calls, c) && LocksOk(t.locks, t.calls)
  {
    ReleaseKeepsLocks(s, c, Detached(s.calls[c].pc));
  }

  lemma DetachKeepsInv(s: State, c: nat)
    requires Inv(s) && Good(s, c) && Detachable(s.calls[c].pc)
    ensures Inv(Release(s, c, Detached(s.calls[c].pc)))
  {
    DetachIsGood(s, c);
    QuietStep(s, Release(s, c, Detached(s.calls[c].pc)), c);
  }

  lemma TakeLockKeepsInv(s: State, c: nat)
    requires Inv(s) && c in s.calls && s.calls[c].pc.Waiting?
    ensures Inv(TakeLock(s, c))
  {
    var t := TakeLock(s, c);
    if t != s {
      assert LocksOk(t.locks, t.calls);
      QuietStep(s, t, c);
    }
  }

  lemma LookUpKeepsInv(s: State, c: nat)
    requires Inv(s) && c in s.calls && s.calls[c].pc.Loaded?
    ensures Inv(LookUpKey(s, c))
  {
    var req := s.calls[c].req;
    var account := s.calls[c].pc.account;
    match ByKey(s.db, account, req.key) {
      case Missing =>
        assert KeyFreeFor(s.db.ops, s.h.orphans, account, req) by { assert !KeyTaken(s.db, account, req.key); }
        MoveKeepsInv(s, c, KeyFree(account));
      case Found(i) =>
        LeaveKeepsInv(s, c, if s.db.ops[i].order == req.order && s.db.ops[i].action == req.action
                            then Replayed(i, false) else Errored);
    }
  }

  lemma OrdersDoNotMatter(s: State, orders: map<string, Order>)
    requires Inv(s)
    ensures Inv(s.(db := s.db.(orders := orders)))
  {
  }

  lemma PreflightKeepsInv(s: State, c: nat, outcome: Preflight)
    requires Inv(s) && c in s.calls && s.calls[c].pc.KeyFree?
    ensures Inv(AfterPreflight(s, c, outcome))
  {
    var t := AfterPreflight(s, c, outcome);
    var stored := s.(db := s.db.(orders := t.db.orders));
    OrdersDoNotMatter(s, t.db.orders);
    if t.calls[c].pc.Ready? {
      assert Good(s, c);
      MoveKeepsInv(stored, c, t.calls[c].pc);
    } else {
      LeaveKeepsInv(stored, c, Errored);
    }
  }

  /** A row found by its key while the order is idle belongs to another order. */
  lemma RacedRowIsForeign(s: State, c: nat, i: nat)
    requires Inv(s) && c in s.calls && s.calls[c].pc.Ready? && !Busy(s.db, s.calls[c].req.order)
    requires i in s.db.ops && s.db.ops[i].account == s.calls[c].pc.account && s.db.ops[i].key == s.calls[c].req.key
    ensures s.db.ops[i].order != s.calls[c].req.order
  {
    assert Good(s, c);
    assert s.db.ops[i].order != s.calls[c].req.order || i in s.h.orphans;
  }

  lemma InsertKeepsInv(s: State, c: nat, id: nat)
    requires Inv(s) && c in s.calls && s.calls[c].pc.Ready? && id !in s.db.ops
    ensures Inv(InsertRow(s, c, id))
  {
    var pc := s.calls[c].pc;
    var draft := Draft(s.calls[c].req, pc.account);
    var (db, r) := CreateTx(s.db, id, draft);
    CreateKeepsTables(s.db, id, draft);
    if r.Created? {
      assert Good(s, c);
      NewRowKeepsInv(s, c, id, db);
    } else if r.Existing? {
      RacedRowIsForeign(s, c, r.id);
      LeaveKeepsInv(s, c, Replayed(r.id, true));
    } else {
      LeaveKeepsInv(s, c, Errored);
    }
  }

  /** A row that is new to the table and in progress disturbs neither history nor truth. */
  lemma NewRowKeepsHistory(s: State, id: nat, row: Operation, h': History)
    requires Inv(s) && id !in s.db.ops && row.status.Processing?
    requires h' == s.h || h' == s.h.(orphans := s.h.orphans + {id})
    ensures
      var ops' := s.db.ops[id := row];
      && RowsKept(s.db.ops, ops') && WritesOk(ops', s.writes, h'.begun) && HistoryOk(ops', h') && AllTruthful(ops', h')
  {
    var ops' := s.db.ops[id := row];
    WritesKept(s.db.ops, ops', s.writes, s.h.begun);
    forall o | o in ops' ensures Truthful(ops'[o].status, h', o) {
      if o != id { assert Truthful(s.db.ops[o].status, s.h, o); }
    }
  }

  lemma NewRowKeepsCalls(s: State, c: nat, id: nat, row: Operation, h': History)
    requires Inv(s) && c in s.calls && id !in s.db.ops && row.order == s.calls[c].req.order
    requires h' == s.h.(orphans := s.h.orphans + {id}) || (h' == s.h && Critical(s.calls[c].pc))
    ensures forall d :: d in s.calls && d != c ==> CallOk(s.calls[d], s.db.ops[id := row], h')
  {
    forall d | d in s.calls && d != c ensures CallOk(s.calls[d], s.db.ops[id := row], h') {
      assert Good(s, d);
      if h' == s.h && Critical(s.calls[d].pc) && s.calls[d].req.order == row.order {
        OneCallPerOrder(s.locks, s.calls, c, d);
      }
      CallUndisturbed(s.calls[d], s.db.ops, s.h, s.db.ops[id := row], h');
    }
  }

  lemma NewOwnerStaysDistinct(s: State, c: nat, id: nat, basis: Order)
    requires OwnersDistinct(s.calls) && AllCallsOk(s.calls, s.db.ops, s.h) && c in s.calls && id !in s.db.ops
    ensures OwnersDistinct(To(s, c, Opened(id, basis)).calls)
  {
    var t := To(s, c, Opened(id, basis));
    forall d | d in s.calls && d != c && Owns(s.calls[d].pc) ensures s.calls[d].pc.op != id { assert Good(s, d); }
  }

  lemma NewRowIsGood(s: State, c: nat, id: nat, db: Db)
    requires LocksOk(s.locks, s.calls) && HistoryOk(s.db.ops, s.h) && WritesOk(s.db.ops, s.writes, s.h.begun)
    requires Good(s, c) && s.calls[c].pc.Ready? && id !in s.db.ops
    requires db.ops == s.db.ops[id := Draft(s.calls[c].req, s.calls[c].pc.account)]
    ensures
      var t := To(s, c, Opened(id, s.calls[c].pc.basis)).(db := db);
      Good(t, c) && LocksOk(t.locks, t.calls)
  {
    MoveKeepsLocks(s, c, Opened(id, s.calls[c].pc.basis));
  }

  lemma NewRowKeepsInv(s: State, c: nat, id: nat, db: Db)
    requires Inv(s) && c in s.calls && s.calls[c].pc.Ready? && id !in s.db.ops && Good(s, c)
    requires UniqueKeys(db.ops) && OneProcessing(db.ops)
    requires db.ops == s.db.ops[id := Draft(s.calls[c].req, s.calls[c].pc.account)]
    ensures Inv(To(s, c, Opened(id, s.calls[c].pc.basis)).(db := db))
  {
    var row := Draft(s.calls[c].req, s.calls[c].pc.account);
    NewRowIsGood(s, c, id, db);
    NewOwnerStaysDistinct(s, c, id, s.calls[c].pc.basis);
    NewRowKeepsHistory(s, id, row, s.h);
    NewRowKeepsCalls(s, c, id, row, s.h);
  }

  lemma OrphanKeepsInv(s: State, c: nat, id: nat, db: Db)
    requires Inv(s) && c in s.calls && s.calls[c].pc.LateCreate? && id !in s.db.ops
    requires UniqueKeys(db.ops) && OneProcessing(db.ops)
    requires db.ops == s.db.ops[id := Draft(s.calls[c].req, s.calls[c].pc.account)]
    ensures Inv(Return(s, c, Cancelled).(db := db, h := s.h.(orphans := s.h.orphans + {id})))
  {
    var row := Draft(s.calls[c].req, s.calls[c].pc.account);
    var h' := s.h.(orphans := s.h.orphans + {id});
    LeaveLocksAndOwners(s, c);
    NewRowKeepsHistory(s, id, row, h');
    NewRowKeepsCalls(s, c, id, row, h');
    OneCallChanged(s.calls, Return(s, c, Cancelled).calls, c, db.ops, h');
  }

  lemma LeaveLocksAndOwners(s: State, c: nat)
    requires LocksOk(s.locks, s.calls) && OwnersDistinct(s.calls) && c in s.calls
    ensures
      var t := Return(s, c, Cancelled);
      LocksOk(t.locks, t.calls) && OwnersDistinct(t.calls) && OnlyCall(s.calls, t.calls, c)
  {
    ReleaseKeepsLocks(s, c, Returned(Cancelled));
    OwnersStayDistinct(s.calls, Return(s, c, Cancelled).calls, c);
  }

  lemma OneCallChanged(calls: map<nat, Call>, after: map<nat, Call>, c: nat, ops: Ops, h: History)
    requires OnlyCall(calls, after, c) && CallOk(after[c], ops, h)
    requires forall d :: d in calls && d != c ==> CallOk(calls[d], ops, h)
    ensures AllCallsOk(after, ops, h)
  {
  }

  lemma LateRowKeepsInv(s: State, c: nat, id: nat)
    requires Inv(s) && c in s.calls && s.calls[c].pc.LateCreate? && id !in s.db.ops
    ensures Inv(InsertLate(s, c, id))
  {
    var row := Draft(s.calls[c].req, s.calls[c].pc.account);
    var (db, r) := CreateTx(s.db, id, row);
    CreateKeepsTables(s.db, id, row);
    if r.Created? {
      OrphanKeepsInv(s, c, id, db);
    } else {
      LeaveKeepsInv(s, c, Cancelled);
    }
  }

  lemma AppendedWrite(ops: Ops, writes: seq<Write>, begun: set<nat>, w: Write)
    requires WritesOk(ops, writes, begun) && w.op in ops && w.op !in begun && Enabled(w.basis, ops[w.op].action)
    ensures WritesOk(ops, writes + [w], begun + {w.op})
  {
    var more := writes + [w];
    forall op | op in begun + {w.op} ensures Wrote(more, op) {
      if op == w.op {
        assert more[|writes|] == w;
      } else {
        var i :| 0 <= i < |writes| && writes[i].op == op;
        assert more[i] == writes[i];
      }
    }
  }

  /** A history that learns about one operation's write keeps what the rows say. */
  lemma HistoryGrows(ops: Ops, h: History, h': History, op: nat)
    requires HistoryOk(ops, h) && AllTruthful(ops, h) && op in ops && ops[op].status.Processing?
    requires forall o :: o != op ==> SameHistory(h, h', o)
    requires op in h'.evidence ==> op in h'.begun && h'.evidence[op].ev.action == ops[op].action
    requires op in h'.refused ==> op !in h'.begun
    requires h'.orphans == h.orphans
    ensures HistoryOk(ops, h') && AllTruthful(ops, h')
  {
    forall o | o in ops ensures Truthful(ops[o].status, h', o) {
      assert Truthful(ops[o].status, h, o);
      if o != op { assert SameHistory(h, h', o); }
    }
    forall o | o in h'.evidence ensures o in h'.begun && (o in ops ==> h'.evidence[o].ev.action == ops[o].action) {
      if o != op { assert SameHistory(h, h', o); }
    }
    forall o | o in h'.refused ensures o in ops && o !in h'.begun {
      if o != op { assert SameHistory(h, h', o); }
    }
  }

  /** A step by the owner of a row in progress that only adds to its history. */
  lemma HistoryStep(s: State, t: State, c: nat)
    requires Inv(s) && KeepsOwn(s.calls, t.calls, c) && Owns(s.calls[c].pc) && t.db == s.db
    requires LocksOk(t.locks, t.calls) && Good(t, c)
    requires s.calls[c].pc.op in s.db.ops && s.db.ops[s.calls[c].pc.op].status.Processing?
    requires forall o :: o != s.calls[c].pc.op ==> SameHistory(s.h, t.h, o)
    requires WritesOk(t.db.ops, t.writes, t.h.begun) && HistoryOk(t.db.ops, t.h) && AllTruthful(t.db.ops, t.h)
    requires t.h.orphans == s.h.orphans
    ensures Inv(t)
  {
    OwnersStayDistinct(s.calls, t.calls, c);
    assert OnlyRow(s.db.ops, t.db.ops, s.calls[c].pc.op);
    OthersUndisturbed(s, t, c);
  }

  predicate StartsWriting(pc: Pc, next: Pc) {
    (pc.Opened? && next == Writing(pc.op, pc.basis)) || (pc.LateWrite? && next == Returned(Cancelled))
  }

  lemma StartWriteIsGood(s: State, c: nat, next: Pc)
    requires HistoryOk(s.db.ops, s.h) && LocksOk(s.locks, s.calls)
    requires Good(s, c) && StartsWriting(s.calls[c].pc, next)
    ensures
      var t := StartWrite(s, c, next);
      Good(t, c) && KeepsOwn(s.calls, t.calls, c) && LocksOk(t.locks, t.calls)
  {
    MoveKeepsLocks(s, c, next);
  }

  lemma BegunHistory(s: State, op: nat)
    requires HistoryOk(s.db.ops, s.h) && AllTruthful(s.db.ops, s.h)
    requires op in s.db.ops && s.db.ops[op].status.Processing? && op !in s.h.begun && op !in s.h.refused
    ensures
      var h' := s.h.(begun := s.h.begun + {op});
      HistoryOk(s.db.ops, h') && AllTruthful(s.db.ops, h') && forall o :: o != op ==> SameHistory(s.h, h', o)
  {
    HistoryGrows(s.db.ops, s.h, s.h.(begun := s.h.begun + {op}), op);
  }

  lemma StartWriteKeepsInv(s: State, c: nat, next: Pc)
    requires Inv(s) && Good(s, c) && StartsWriting(s.calls[c].pc, next)
    ensures Inv(StartWrite(s, c, next))
  {
    var pc := s.calls[c].pc;
    var t := StartWrite(s, c, next);
    StartWriteIsGood(s, c, next);
    AppendedWrite(s.db.ops, s.writes, s.h.begun, Write(pc.op, pc.basis));
    BegunHistory(s, pc.op);
    HistoryStep(s, t, c);
  }

  lemma RefusalKeepsInv(s: State, c: nat)
    requires Inv(s) && c in s.calls && s.calls[c].pc.Opened?
    ensures Inv(NoteRefusal(s, c))
  {
    var pc := s.calls[c].pc;
    var t := NoteRefusal(s, c);
    assert Good(s, c);
    MoveKeepsLocks(s, c, Repair(pc.op, pc.basis));
    HistoryGrows(s.db.ops, s.h, t.h, pc.op);
    HistoryStep(s, t, c);
  }

  lemma StoreEvidenceKeepsInv(s: State, c: nat, ev: Evidence)
    requires Inv(s) && c in s.calls && s.calls[c].pc.Writing? && ev.action == s.calls[c].req.action
    ensures Inv(StoreEvidence(s, c, ev))
  {
    var pc := s.calls[c].pc;
    var t := StoreEvidence(s, c, ev);
    assert Good(s, c);
    MoveKeepsLocks(s, c, Replied(pc.op, pc.basis));
    HistoryGrows(s.db.ops, s.h, t.h, pc.op);
    HistoryStep(s, t, c);
  }

  /** Recording an outcome that fits the history. */
  lemma CommitKeepsInv(s: State, t: State, c: nat, status: OpStatus, post: string, applyState: bool)
    requires Inv(s) && KeepsOwn(s.calls, t.calls, c) && LocksOk(t.locks, t.calls)
    requires t.writes == s.writes && t.h == s.h
    requires Owns(s.calls[c].pc) && s.calls[c].pc.op in s.db.ops && !status.Processing?
    requires t.db == FinishTx(s.db, s.calls[c].pc.op, status, post, applyState)
    requires Truthful(status, t.h, s.calls[c].pc.op) && s.calls[c].pc.op !in s.h.orphans && Good(t, c)
    ensures Inv(t)
  {
    var op := s.calls[c].pc.op;
    FinishKeepsTables(s.db, op, status, post, applyState);
    FinishTouchesOneRow(s.db, op, status, post, applyState);
    WritesKept(s.db.ops, t.db.ops, s.writes, s.h.begun);
    OwnersStayDistinct(s.calls, t.calls, c);
    TruthKept(s.db.ops, t.db.ops, s.h, op);
    OthersUndisturbed(s, t, c);
  }

  lemma TruthKept(ops: Ops, after: Ops, h: History, op: nat)
    requires AllTruthful(ops, h) && HistoryOk(ops, h) && OnlyRow(ops, after, op)
    requires Truthful(after[op].status, h, op) && op !in h.orphans
    ensures AllTruthful(after, h) && HistoryOk(after, h)
  {
    forall o | o in after ensures Truthful(after[o].status, h, o) {
      if o != op { assert Truthful(ops[o].status, h, o); }
    }
  }

  lemma RecordUncertainKeepsInv(s: State, c: nat, reply: Reply)
    requires Inv(s) && c in s.calls && (s.calls[c].pc.Repair? || s.calls[c].pc.LateRepair?) && !reply.Replayed?
    ensures s.calls[c].pc.op in s.db.ops && Inv(RecordUncertain(s, c, reply))
  {
    var pc := s.calls[c].pc;
    assert Good(s, c);
    ReleaseKeepsLocks(s, c, Returned(reply));
    CommitKeepsInv(s, RecordUncertain(s, c, reply), c, Uncertain, pc.basis.status, false);
  }

  /** What a verdict leaves of the row, whoever commits it. */
  lemma VerdictCommitKeepsInv(s: State, t: State, c: nat)
    requires Inv(s) && c in s.calls && (s.calls[c].pc.Replied? || s.calls[c].pc.LateFinish?)
    requires s.calls[c].pc.op in s.db.ops && s.calls[c].pc.op in s.h.evidence
    requires KeepsOwn(s.calls, t.calls, c) && LocksOk(t.locks, t.calls) && t.writes == s.writes && t.h == s.h
    requires t.db == Settled(s.db, s.calls[c].pc.op, s.calls[c].pc.basis, s.h.evidence[s.calls[c].pc.op].verdict)
    requires Good(t, c)
    ensures Inv(t)
  {
    var pc := s.calls[c].pc;
    assert Good(s, c);
    match s.h.evidence[pc.op].verdict {
      case Done(_) => CommitKeepsInv(s, t, c, Succeeded, "", true);
      case Rejected => CommitKeepsInv(s, t, c, Failed, pc.basis.status, false);
      case _ => CommitKeepsInv(s, t, c, Uncertain, pc.basis.status, false);
    }
  }

  lemma SettledRow(db: Db, op: nat, basis: Order, verdict: Verdict)
    requires op in db.ops
    ensures OnlyRow(db.ops, Settled(db, op, basis, verdict).ops, op)
    ensures !Settled(db, op, basis, verdict).ops[op].status.Processing?
    ensures Settled(db, op, basis, verdict).ops[op].status.Succeeded? <==> verdict.Done?
  {
    match verdict {
      case Done(_) => FinishTouchesOneRow(db, op, Succeeded, "", true);
      case Rejected => FinishTouchesOneRow(db, op, Failed, basis.status, false);
      case _ => FinishTouchesOneRow(db, op, Uncertain, basis.status, false);
    }
  }

  /** The call after its own record, from what it knows of its row. */
  lemma RecordIsGood(s: State, c: nat)
    requires Good(s, c) && s.calls[c].pc.Replied?
    ensures Good(Record(s, c), c) && KeepsOwn(s.calls, Record(s, c).calls, c)
  {
    var pc := s.calls[c].pc;
    SettledRow(s.db, pc.op, pc.basis, s.h.evidence[pc.op].verdict);
  }

  lemma RecordKeepsLocks(s: State, c: nat)
    requires LocksOk(s.locks, s.calls) && Good(s, c) && s.calls[c].pc.Replied?
    ensures LocksOk(Record(s, c).locks, Record(s, c).calls)
  {
    var pc := s.calls[c].pc;
    MoveKeepsLocks(s, c, Recorded(pc.op, pc.basis));
    ReleaseKeepsLocks(s, c, Returned(Performed(pc.op)));
  }

  lemma RecordKeepsInv(s: State, c: nat)
    requires Inv(s) && Good(s, c) && s.calls[c].pc.Replied?
    ensures Inv(Record(s, c))
  {
    RecordIsGood(s, c);
    RecordKeepsLocks(s, c);
    VerdictCommitKeepsInv(s, Record(s, c), c);
  }

  lemma LateFinishIsGood(s: State, c: nat)
    requires LocksOk(s.locks, s.calls) && Good(s, c) && s.calls[c].pc.LateFinish?
    ensures
      var t := RunLate(s, c, 0);
      Good(t, c) && KeepsOwn(s.calls, t.calls, c) && LocksOk(t.locks, t.calls)
  {
    ReleaseKeepsLocks(s, c, Returned(Cancelled));
  }

  lemma LateFinishKeepsInv(s: State, c: nat)
    requires Inv(s) && Good(s, c) && s.calls[c].pc.LateFinish?
    ensures Inv(RunLate(s, c, 0))
  {
    LateFinishIsGood(s, c);
    VerdictCommitKeepsInv(s, RunLate(s, c, 0), c);
  }

  lemma LateKeepsInv(s: State, c: nat, id: nat)
    requires Inv(s) && c in s.calls
    ensures Inv(RunLate(s, c, id))
  {
    match s.calls[c].pc {
      case LateCreate(_, _) => if id !in s.db.ops { LateRowKeepsInv(s, c, id); }
      case LateWrite(_, _) => assert Good(s, c); StartWriteKeepsInv(s, c, Returned(Cancelled));
      case LateFinish(_, _) => assert Good(s, c); LateFinishKeepsInv(s, c);
      case LateRepair(_, _) => RecordUncertainKeepsInv(s, c, Cancelled);
      case _ =>
    }
  }

  lemma RaiseKeepsInv(s: State, c: nat)
    requires Inv(s) && c in s.calls
    ensures Inv(Raise(s, c))
  {
    var pc := s.calls[c].pc;
    assert Good(s, c);
    if pc.Recorded? || (pc.Replied? && s.h.evidence[pc.op].verdict.Done?) {
      MoveKeepsInv(s, c, Repair(pc.op, pc.basis));
    } else if Critical(pc) && !pc.Opened? && !pc.Writing? {
      LeaveKeepsInv(s, c, Errored);
    }
  }

  lemma ArriveKeepsInv(s: State, c: nat, req: Request)
    requires Inv(s) && c !in s.calls
    ensures Inv(s.(calls := s.calls[c := Call(req, Waiting)]))
  {
    var t := s.(calls := s.calls[c := Call(req, Waiting)]);
    assert LocksOk(t.locks, t.calls) && OwnersDistinct(t.calls);
    forall d | d in t.calls ensures CallOk(t.calls[d], t.db.ops, t.h) {
      if d != c { assert Good(s, d); }
    }
  }

  /** The steps of a call up to its row. */
  lemma EarlyStepKeepsInv(s: State, e: Event)
    requires Inv(s) && (e.Acquire? || e.LoadOrder? || e.CheckKey? || e.RunPreflight? || e.Create?) && e.call in s.calls
    ensures Inv(CallStep(s, e))
  {
    var c := e.call;
    var pc := s.calls[c].pc;
    match e {
      case Acquire(_) => if pc.Waiting? { TakeLockKeepsInv(s, c); }
      case LoadOrder(_) =>
        if pc.Locked? {
          if s.calls[c].req.order in s.db.orders { MoveKeepsInv(s, c, Loaded(s.db.orders[s.calls[c].req.order].accountId)); }
          else { LeaveKeepsInv(s, c, Errored); }
        }
      case CheckKey(_) => if pc.Loaded? { LookUpKeepsInv(s, c); }
      case RunPreflight(_, o) => if pc.KeyFree? { PreflightKeepsInv(s, c, o); }
      case Create(_, id) => if pc.Ready? && id !in s.db.ops { InsertKeepsInv(s, c, id); }
    }
  }

  /** The steps by which a call writes and records. */
  lemma WriteStepKeepsInv(s: State, e: Event)
    requires Inv(s) && (e.BeginWrite? || e.RefuseWrite? || e.EndWrite? || e.Finish? || e.FinishRepair?) && e.call in s.calls
    ensures Inv(CallStep(s, e))
  {
    var c := e.call;
    var pc := s.calls[c].pc;
    match e {
      case BeginWrite(_) => if pc.Opened? { assert Good(s, c); StartWriteKeepsInv(s, c, Writing(pc.op, pc.basis)); }
      case RefuseWrite(_) => if pc.Opened? { RefusalKeepsInv(s, c); }
      case EndWrite(_, f, a, b) =>
        if pc.Writing? { StoreEvidenceKeepsInv(s, c, Evidence(s.calls[c].req.action, f, a, b)); }
      case Finish(_) => if pc.Replied? { assert Good(s, c); RecordKeepsInv(s, c); }
      case FinishRepair(_) => if pc.Repair? { RecordUncertainKeepsInv(s, c, Performed(pc.op)); }
    }
  }

  lemma CallStepKeepsInv(s: State, e: Event)
    requires Inv(s) && !e.Crash? && !e.OrderRefreshed? && !e.Arrive? && e.call in s.calls
    ensures Inv(CallStep(s, e))
  {
    var c := e.call;
    var pc := s.calls[c].pc;
    match e {
      case Fault(_) => RaiseKeepsInv(s, c);
      case Complete(_) => if pc.Recorded? { LeaveKeepsInv(s, c, Performed(pc.op)); }
      case Cancel(_) => if !pc.Returned? { LeaveKeepsInv(s, c, Cancelled); }
      case Detach(_) => if Detachable(pc) { assert Good(s, c); DetachKeepsInv(s, c); }
      case Late(_, id) => LateKeepsInv(s, c, id);
      case _ =>
        if e.Acquire? || e.LoadOrder? || e.CheckKey? || e.RunPreflight? || e.Create? { EarlyStepKeepsInv(s, e); }
        else { WriteStepKeepsInv(s, e); }
    }
  }

  lemma CrashKeepsInv(s: State)
    requires Inv(s)
    ensures Inv(s.(locks := map[], calls := map[]))
  {
  }

  /** Every step keeps the invariant. */
  lemma StepKeepsInv(s: State, e: Event)
    requires Inv(s)
    ensures Inv(Step(s, e))
  {
    if e.Crash? {
      CrashKeepsInv(s);
    } else if e.OrderRefreshed? {
      OrdersDoNotMatter(s, Step(s, e).db.orders);
    } else if e.Arrive? {
      if e.call !in s.calls { ArriveKeepsInv(s, e.call, e.req); }
    } else if e.call in s.calls {
      CallStepKeepsInv(s, e);
    }
  }
}
