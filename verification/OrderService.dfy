/** `OrderActionService.execute` from end to end, when nothing interleaves with it: the method
    itself, what it computes, and that it is one of the runs of the concurrent protocol. */
module OrderService {
  import opened OrderPolicy
  import opened OrderRepository
  import opened MtopWrite
  import opened OrderProtocol
  import opened OrderReplays
  import opened OrderEffects

  predicate RequestAllowed(req: Request, refreshed: Order, requestValid: bool) {
    && Enabled(refreshed, req.action)
    && (req.action.OfflineShipping? ==> req.tracking != "" && req.carrier != "")
    && (req.action.RefuseRefund? ==> requestValid)
  }

  predicate Refused(outcome: Preflight, account: string) {
    outcome.PreflightFailed? || outcome.order.accountId != account
  }

  function Updated(db: Db, req: Request, refreshed: Order): Db {
    db.(orders := db.orders[req.order := refreshed])
  }

  /** The platform write and its record, for a row that was just created. */
  function Perform(db: Db, id: nat, basis: Order, ev: Evidence): Db
    requires id in db.ops
  {
    Settled(db, id, basis, VerdictFor(ev))
  }

  /** What one undisturbed call does to the database, and what it answers. */
  ghost function Serve(db: Db, req: Request, outcome: Preflight, id: nat, ev: Evidence): (Db, OrderProtocol.Reply)
    requires id !in db.ops
  {
    if req.order !in db.orders then (db, Errored)
    else
      var account := db.orders[req.order].accountId;
      match ByKey(db, account, req.key)
      case Found(i) =>
        (db, if db.ops[i].order == req.order && db.ops[i].action == req.action then Replayed(i, false) else Errored)
      case Missing =>
        if Refused(outcome, account) then (db, Errored)
        else ServeRefreshed(Updated(db, req, outcome.order), req, outcome, id, ev)
  }

  ghost function ServeRefreshed(db: Db, req: Request, outcome: Preflight, id: nat, ev: Evidence): (Db, OrderProtocol.Reply)
    requires id !in db.ops && outcome.Refreshed?
  {
    if !RequestAllowed(req, outcome.order, outcome.requestValid) then (db, Errored)
    else
      var (after, r) := CreateTx(db, id, Draft(req, outcome.order.accountId));
      match r
      case Created(_) => (Perform(after, id, outcome.order, ev), Performed(id))
      case Existing(i) => (after, Replayed(i, true))
      case _ => (after, Errored)
  }

  class OrderActionService {
    const repository: OrderActionRepository
    const client: Session

    constructor (repository: OrderActionRepository, client: Session)
      ensures this.repository == repository && this.client == client
    {
      this.repository := repository;
      this.client := client;
    }

    method Execute(req: Request, outcome: Preflight, id: nat, fieldsPresent: bool, first: Attempt, second: Attempt)
        returns (reply: OrderProtocol.Reply)
      requires id !in repository.ops && UniqueKeys(repository.ops)
      modifies repository, client
      ensures (repository.View(), reply) ==
        Serve(old(repository.View()), req, outcome, id, Evidence(req.action, fieldsPresent, first, second))
      ensures client.sent == old(client.sent) + if reply.Performed? && fieldsPresent then Requests(first, second) else []
    {
      if req.order !in repository.orders {
        return Errored;
      }
      var account := repository.orders[req.order].accountId;
      var existing := repository.GetByIdempotency(account, req.key);
      if existing.Found? {
        var row := repository.ops[existing.id];
        if row.order != req.order || row.action != req.action {
          return Errored;
        }
        return Replayed(existing.id, false);
      }
      if outcome.PreflightFailed? || outcome.order.accountId != account {
        return Errored;
      }
      repository.orders := repository.orders[req.order := outcome.order];
      reply := ExecuteRefreshed(req, outcome, id, fieldsPresent, first, second);
    }

    method ExecuteRefreshed(req: Request, outcome: Preflight, id: nat, fieldsPresent: bool, first: Attempt, second: Attempt)
        returns (reply: OrderProtocol.Reply)
      requires id !in repository.ops && UniqueKeys(repository.ops) && outcome.Refreshed?
      modifies repository, client
      ensures (repository.View(), reply) ==
        ServeRefreshed(old(repository.View()), req, outcome, id, Evidence(req.action, fieldsPresent, first, second))
      ensures client.sent == old(client.sent) + if reply.Performed? && fieldsPresent then Requests(first, second) else []
    {
      var refreshed := outcome.order;
      if !Enabled(refreshed, req.action) {
        return Errored;
      }
      if req.action.OfflineShipping? && (req.tracking == "" || req.carrier == "") {
        return Errored;
      }
      if req.action.RefuseRefund? && !outcome.requestValid {
        return Errored;
      }
      var created := repository.Create(id, Draft(req, refreshed.accountId));
      match created {
        case OrderNotFound => return Errored;
        case Conflict => return Errored;
        case Existing(i) => return Replayed(i, true);
        case Created(_) =>
      }
      WriteAndRecord(req, id, refreshed, fieldsPresent, first, second);
      reply := Performed(id);
    }

    /** The one platform write of an opened operation, and the record of how it ended. */
    method WriteAndRecord(req: Request, id: nat, refreshed: Order, fieldsPresent: bool, first: Attempt, second: Attempt)
      requires id in repository.ops
      modifies repository, client
      ensures repository.View() ==
        Perform(old(repository.View()), id, refreshed, Evidence(req.action, fieldsPresent, first, second))
      ensures client.sent == old(client.sent) + if fieldsPresent then Requests(first, second) else []
    {
      var verdict := client.Execute(req.action, fieldsPresent, first, second);
      RecordVerdict(id, refreshed, verdict);
    }

    method RecordVerdict(id: nat, refreshed: Order, verdict: Verdict)
      requires id in repository.ops
      modifies repository
      ensures repository.View() == Settled(old(repository.View()), id, refreshed, verdict)
    {
      match verdict {
        case Done(_) => var _ := repository.Finish(id, Succeeded, "", true);
        case Rejected => var _ := repository.Finish(id, Failed, refreshed.status, false);
        case ResultUnknown => var _ := repository.Finish(id, Uncertain, refreshed.status, false);
        case Broken => var _ := repository.Finish(id, Uncertain, refreshed.status, false);
      }
    }
  }

  // ----- what an undisturbed call does -----

  /** The refreshed order is the account's, permits the action, and the request's own fields are
      complete. */
  ghost predicate MayGoOn(req: Request, outcome: Preflight, account: string) {
    && outcome.Refreshed? && outcome.order.accountId == account && MayPerform(outcome.order, req.action)
    && (req.action == OfflineShipping ==> |req.tracking| > 0 && |req.carrier| > 0)
    && (req.action == RefuseRefund ==> outcome.requestValid)
  }

  /** The row that stands for the account's key, if any. */
  ghost predicate Stands(db: Db, req: Request, i: nat) {
    && req.order in db.orders && i in db.ops
    && db.ops[i].account == db.orders[req.order].accountId && db.ops[i].key == req.key
  }

  ghost predicate NewRequest(db: Db, req: Request) {
    req.order in db.orders && forall i :: !Stands(db, req, i)
  }

  /** Every reply, by what the database held and what the platform said: a known key is answered
      with its row if it stands for the same order and action, a new request is performed exactly
      when the order permits it and no other operation is in progress, and anything else errs. */
  lemma ServeExactly(db: Db, req: Request, outcome: Preflight, id: nat, ev: Evidence)
    requires id !in db.ops && UniqueKeys(db.ops)
    ensures
      var reply := Serve(db, req, outcome, id, ev).1;
      && (reply.Replayed? <==>
            exists i :: Stands(db, req, i) && db.ops[i].order == req.order && db.ops[i].action == req.action)
      && (reply.Replayed? ==> Stands(db, req, reply.op) && !reply.raced)
      && (reply.Performed? <==>
            && NewRequest(db, req) && MayGoOn(req, outcome, db.orders[req.order].accountId)
            && forall i :: i in db.ops && db.ops[i].order == req.order ==> db.ops[i].status != Processing)
      && (reply.Performed? ==> reply.op == id)
      && (!reply.Performed? && !reply.Replayed? ==> reply.Errored?)
  {
    if req.order in db.orders {
      var account := db.orders[req.order].accountId;
      KeyStands(db, req);
      if outcome.Refreshed? { EnabledExactlyWhenPermitted(outcome.order, req.action); }
      if !KeyTaken(db, account, req.key) && !Refused(outcome, account) {
        var stored := Updated(db, req, outcome.order);
        assert KeyTaken(stored, account, req.key) <==> KeyTaken(db, account, req.key);
        assert Busy(stored, req.order) <==> Busy(db, req.order);
      }
    }
  }

  lemma KeyStands(db: Db, req: Request)
    requires req.order in db.orders
    ensures KeyTaken(db, db.orders[req.order].accountId, req.key) <==> exists i :: Stands(db, req, i)
  {
    var account := db.orders[req.order].accountId;
    if KeyTaken(db, account, req.key) {
      var i :| i in db.ops && db.ops[i].account == account && db.ops[i].key == req.key;
      assert Stands(db, req, i);
    }
  }

  /** What a performed request leaves: one new row for it, with the outcome of its write, on the
      refreshed order, and nothing else. */
  lemma ServedRow(db: Db, req: Request, outcome: Preflight, id: nat, ev: Evidence)
    requires id !in db.ops && Serve(db, req, outcome, id, ev).1.Performed?
    ensures
      var t := Serve(db, req, outcome, id, ev).0;
      && t.ops.Keys == db.ops.Keys + {id} && (forall i :: i in db.ops ==> t.ops[i] == db.ops[i])
      && RowOf(t.ops[id], req) && req.order in db.orders && t.ops[id].account == outcome.order.accountId
      && (VerdictFor(ev).Done? ==>
            && t.ops[id].status.Succeeded? && req.order in t.orders
            && Moved(outcome.order, t.orders[req.order], t.ops[id]) && t.ops[id].postStatus == t.orders[req.order].status)
      && (!VerdictFor(ev).Done? ==>
            && t.ops[id].status == (if VerdictFor(ev).Rejected? then Failed else Uncertain)
            && t.ops[id].postStatus == outcome.order.status && t.orders == db.orders[req.order := outcome.order])
  {
    var stored := Updated(db, req, outcome.order);
    var (after, r) := CreateTx(stored, id, Draft(req, outcome.order.accountId));
    assert r.Created?;
    VerdictIsStored(after, id, outcome.order, VerdictFor(ev));
    SettledRow(after, id, outcome.order, VerdictFor(ev));
  }

  // ----- the undisturbed call as a run of the protocol -----

  /** What is left of earlier calls: the database and its history. */
  datatype Past = Past(writes: seq<Write>, h: History)

  /** The protocol state with call 0 as the only one. */
  function Solo(db: Db, req: Request, pc: Pc, p: Past): State {
    State(db, if Critical(pc) then map[req.order := 0] else map[], map[0 := Call(req, pc)], p.writes, p.h)
  }

  function Quiet(db: Db, p: Past): State {
    State(db, map[], map[], p.writes, p.h)
  }

  lemma SoloMoves(db: Db, req: Request, pc: Pc, next: Pc, reply: OrderProtocol.Reply, p: Past)
    requires Critical(pc)
    ensures Critical(next) ==> To(Solo(db, req, pc, p), 0, next) == Solo(db, req, next, p)
    ensures Return(Solo(db, req, pc, p), 0, reply) == Solo(db, req, Returned(reply), p)
  {
    var s := Solo(db, req, pc, p);
    assert s.locks - {req.order} == map[];
    assert s.calls[0 := Call(req, next)] == map[0 := Call(req, next)];
  }

  /** A call that has returned takes no more steps. */
  lemma {:induction false} ReturnedStays(s: State, events: seq<Event>)
    requires 0 in s.calls && s.calls[0].pc.Returned?
    requires OwnSteps(events)
    ensures Run(s, events) == s
    decreases |events|
  {
    if events != [] {
      assert OwnStep(events[0]);
      assert Step(s, events[0]) == s;
      ReturnedStays(s, events[1..]);
    }
  }

  predicate OwnStep(e: Event) {
    !e.Arrive? && !e.Crash? && !e.OrderRefreshed? && e.call == 0
  }

  predicate OwnSteps(events: seq<Event>) {
    forall i :: 0 <= i < |events| ==> OwnStep(events[i])
  }

  lemma RestIsOwn(outcome: Preflight, id: nat, ev: Evidence)
    ensures OwnSteps(Ending(ev)) && OwnSteps([Create(0, id)] + Ending(ev))
    ensures OwnSteps(Middle(outcome, id, ev)) && OwnSteps([CheckKey(0)] + Middle(outcome, id, ev))
  {
  }

  function Ending(ev: Evidence): seq<Event> {
    [BeginWrite(0), EndWrite(0, ev.fieldsPresent, ev.first, ev.second), Finish(0), Complete(0)]
  }

  function Middle(outcome: Preflight, id: nat, ev: Evidence): seq<Event> {
    [RunPreflight(0, outcome)] + ([Create(0, id)] + Ending(ev))
  }

  function WholeCall(req: Request, outcome: Preflight, id: nat, ev: Evidence): seq<Event> {
    [Arrive(0, req), Acquire(0), LoadOrder(0), CheckKey(0)] + Middle(outcome, id, ev)
  }

  ghost predicate EndsAs(s: State, served: (Db, OrderProtocol.Reply)) {
    s.db == served.0 && 0 in s.calls && s.calls[0].pc == Returned(served.1) && s.locks == map[]
  }

  lemma WriteThenRecord(db: Db, req: Request, id: nat, basis: Order, ev: Evidence, p: Past)
    requires id in db.ops && ev.action == req.action
    ensures EndsAs(Run(Solo(db, req, Opened(id, basis), p), Ending(ev)), (Perform(db, id, basis, ev), Performed(id)))
    ensures Run(Solo(db, req, Opened(id, basis), p), Ending(ev)).writes == p.writes + [Write(id, basis)]
  {
    var es := Ending(ev);
    var p1 := Past(p.writes + [Write(id, basis)], p.h.(begun := p.h.begun + {id}));
    var p2 := p1.(h := p1.h.(evidence := p.h.evidence[id := Ruling(ev, VerdictFor(ev))]));
    var s0, s1, s2 := Solo(db, req, Opened(id, basis), p), Solo(db, req, Writing(id, basis), p1), Solo(db, req, Replied(id, basis), p2);
    assert es == [es[0]] + ([es[1]] + ([es[2]] + ([es[3]] + [])));
    SoloMoves(db, req, Opened(id, basis), Writing(id, basis), Errored, p);
    assert Step(s0, es[0]) == s1;
    SoloMoves(db, req, Writing(id, basis), Replied(id, basis), Errored, p1);
    assert Step(s1, es[1]) == s2;
    RecordAlone(db, req, id, basis, ev, p2);
    RunCons(s0, es[0], [es[1]] + ([es[2]] + ([es[3]] + [])));
    RunCons(s1, es[1], [es[2]] + ([es[3]] + []));
    RunCons(s2, es[2], [es[3]] + []);
    RunCons(Step(s2, es[2]), es[3], []);
  }

  lemma RecordAlone(db: Db, req: Request, id: nat, basis: Order, ev: Evidence, p: Past)
    requires id in db.ops && id in p.h.evidence && p.h.evidence[id] == Ruling(ev, VerdictFor(ev))
    ensures
      var t := Step(Step(Solo(db, req, Replied(id, basis), p), Finish(0)), Complete(0));
      EndsAs(t, (Perform(db, id, basis, ev), Performed(id))) && t.writes == p.writes
  {
    var done := Perform(db, id, basis, ev);
    var s := Solo(db, req, Replied(id, basis), p);
    var stored := Solo(done, req, Replied(id, basis), p);
    assert s.(db := done) == stored;
    SoloMoves(done, req, Replied(id, basis), Recorded(id, basis), Performed(id), p);
    SoloMoves(done, req, Recorded(id, basis), Recorded(id, basis), Performed(id), p);
  }

  lemma CreateAlone(db: Db, req: Request, id: nat, account: string, basis: Order, p: Past)
    requires id !in db.ops
    ensures Step(Solo(db, req, Ready(account, basis), p), Create(0, id)) ==
      var (after, r) := CreateTx(db, id, Draft(req, account));
      match r
      case Created(_) => Solo(after, req, Opened(id, basis), p)
      case Existing(i) => Solo(after, req, Returned(Replayed(i, true)), p)
      case _ => Solo(after, req, Returned(Errored), p)
  {
    var (after, r) := CreateTx(db, id, Draft(req, account));
    var pc := Ready(account, basis);
    SoloMoves(db, req, pc, Opened(id, basis), Errored, p);
    if r.Existing? { SoloMoves(db, req, pc, pc, Replayed(r.id, true), p); }
  }

  lemma CreateThenWrite(db: Db, req: Request, id: nat, outcome: Preflight, ev: Evidence, p: Past)
    requires id !in db.ops && ev.action == req.action
    requires outcome.Refreshed? && RequestAllowed(req, outcome.order, outcome.requestValid)
    ensures EndsAs(Run(Solo(db, req, Ready(outcome.order.accountId, outcome.order), p), [Create(0, id)] + Ending(ev)),
      ServeRefreshed(db, req, outcome, id, ev))
  {
    var account, basis := outcome.order.accountId, outcome.order;
    var (after, r) := CreateTx(db, id, Draft(req, account));
    var s := Solo(db, req, Ready(account, basis), p);
    RunCons(s, Create(0, id), Ending(ev));
    CreateAlone(db, req, id, account, basis, p);
    if r.Created? {
      WriteThenRecord(after, req, id, basis, ev, p);
    } else {
      RestIsOwn(outcome, id, ev);
      ReturnedStays(Step(s, Create(0, id)), Ending(ev));
    }
  }

  /** Where the preflight leads. */
  function Prepared(db: Db, req: Request, account: string, outcome: Preflight, p: Past): State {
    if Refused(outcome, account) then Solo(db, req, Returned(Errored), p)
    else if RequestAllowed(req, outcome.order, outcome.requestValid)
    then Solo(Updated(db, req, outcome.order), req, Ready(account, outcome.order), p)
    else Solo(Updated(db, req, outcome.order), req, Returned(Errored), p)
  }

  lemma PreflightAlone(db: Db, req: Request, account: string, outcome: Preflight, p: Past, rest: seq<Event>)
    requires req.order in db.orders && db.orders[req.order].accountId == account
    ensures Run(Solo(db, req, KeyFree(account), p), [RunPreflight(0, outcome)] + rest) ==
      Run(Prepared(db, req, account, outcome, p), rest)
  {
    var pc := KeyFree(account);
    RunCons(Solo(db, req, pc, p), RunPreflight(0, outcome), rest);
    SoloMoves(db, req, pc, pc, Errored, p);
    if !Refused(outcome, account) {
      var stored := Updated(db, req, outcome.order);
      assert Solo(db, req, pc, p).(db := stored) == Solo(stored, req, pc, p);
      SoloMoves(stored, req, pc, Ready(account, outcome.order), Errored, p);
    }
  }

  lemma PreflightThenCreate(db: Db, req: Request, account: string, outcome: Preflight, id: nat, ev: Evidence, p: Past)
    requires id !in db.ops && ev.action == req.action
    requires req.order in db.orders && db.orders[req.order].accountId == account
    ensures EndsAs(Run(Solo(db, req, KeyFree(account), p), Middle(outcome, id, ev)),
      if Refused(outcome, account) then (db, Errored)
      else ServeRefreshed(Updated(db, req, outcome.order), req, outcome, id, ev))
  {
    var rest := [Create(0, id)] + Ending(ev);
    PreflightAlone(db, req, account, outcome, p, rest);
    if !Refused(outcome, account) && RequestAllowed(req, outcome.order, outcome.requestValid) {
      CreateThenWrite(Updated(db, req, outcome.order), req, id, outcome, ev, p);
    } else {
      RestIsOwn(outcome, id, ev);
      ReturnedStays(Prepared(db, req, account, outcome, p), rest);
    }
  }

  /** The method's result and effect are those of the run in which its steps follow each other
      undisturbed: all that is proved of every run holds of it. */
  lemma ServeIsARun(db: Db, req: Request, outcome: Preflight, id: nat, ev: Evidence, p: Past)
    requires id !in db.ops && ev.action == req.action
    ensures EndsAs(Run(Quiet(db, p), WholeCall(req, outcome, id, ev)), Serve(db, req, outcome, id, ev))
  {
    var s0 := Quiet(db, p);
    var s1 := Solo(db, req, Waiting, p);
    var s2 := Solo(db, req, Locked, p);
    var middle := Middle(outcome, id, ev);
    assert WholeCall(req, outcome, id, ev) == [Arrive(0, req)] + ([Acquire(0)] + ([LoadOrder(0)] + ([CheckKey(0)] + middle)));
    RunCons(s0, Arrive(0, req), [Acquire(0)] + ([LoadOrder(0)] + ([CheckKey(0)] + middle)));
    assert Step(s0, Arrive(0, req)) == s1;
    RunCons(s1, Acquire(0), [LoadOrder(0)] + ([CheckKey(0)] + middle));
    assert s1.calls[0 := Call(req, Locked)] == map[0 := Call(req, Locked)];
    assert Step(s1, Acquire(0)) == s2;
    LoadThenRest(db, req, outcome, id, ev, p);
  }

  /** Where the key check leads. */
  ghost function AfterKey(db: Db, req: Request, account: string): Pc {
    match ByKey(db, account, req.key)
    case Missing => KeyFree(account)
    case Found(i) =>
      Returned(if db.ops[i].order == req.order && db.ops[i].action == req.action then Replayed(i, false) else Errored)
  }

  lemma KeyAlone(db: Db, req: Request, account: string, p: Past, rest: seq<Event>)
    ensures Run(Solo(db, req, Loaded(account), p), [CheckKey(0)] + rest) == Run(Solo(db, req, AfterKey(db, req, account), p), rest)
  {
    RunCons(Solo(db, req, Loaded(account), p), CheckKey(0), rest);
    SoloMoves(db, req, Loaded(account), KeyFree(account), Errored, p);
    match ByKey(db, account, req.key) {
      case Missing =>
      case Found(i) => SoloMoves(db, req, Loaded(account), Locked, Replayed(i, false), p);
    }
  }

  lemma KeyThenRest(db: Db, req: Request, outcome: Preflight, id: nat, ev: Evidence, p: Past)
    requires id !in db.ops && ev.action == req.action && req.order in db.orders
    ensures EndsAs(Run(Solo(db, req, Loaded(db.orders[req.order].accountId), p), [CheckKey(0)] + Middle(outcome, id, ev)),
      Serve(db, req, outcome, id, ev))
  {
    var account := db.orders[req.order].accountId;
    KeyAlone(db, req, account, p, Middle(outcome, id, ev));
    if ByKey(db, account, req.key).Missing? {
      PreflightThenCreate(db, req, account, outcome, id, ev, p);
    } else {
      RestIsOwn(outcome, id, ev);
      ReturnedStays(Solo(db, req, AfterKey(db, req, account), p), Middle(outcome, id, ev));
    }
  }

  lemma LoadAlone(db: Db, req: Request, p: Past, rest: seq<Event>)
    ensures
      var next := if req.order in db.orders then Loaded(db.orders[req.order].accountId) else Returned(Errored);
      Run(Solo(db, req, Locked, p), [LoadOrder(0)] + rest) == Run(Solo(db, req, next, p), rest)
  {
    RunCons(Solo(db, req, Locked, p), LoadOrder(0), rest);
    var next := if req.order in db.orders then Loaded(db.orders[req.order].accountId) else Locked;
    SoloMoves(db, req, Locked, next, Errored, p);
  }

  lemma LoadThenRest(db: Db, req: Request, outcome: Preflight, id: nat, ev: Evidence, p: Past)
    requires id !in db.ops && ev.action == req.action
    ensures
      var rest := [LoadOrder(0)] + ([CheckKey(0)] + Middle(outcome, id, ev));
      EndsAs(Run(Solo(db, req, Locked, p), rest), Serve(db, req, outcome, id, ev))
  {
    var rest := [CheckKey(0)] + Middle(outcome, id, ev);
    LoadAlone(db, req, p, rest);
    if req.order in db.orders {
      KeyThenRest(db, req, outcome, id, ev, p);
    } else {
      RestIsOwn(outcome, id, ev);
      ReturnedStays(Solo(db, req, Returned(Errored), p), rest);
    }
  }
}
