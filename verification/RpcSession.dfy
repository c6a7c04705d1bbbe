/** Single-flight requests of one IM session: a lock, a table of pending futures that the
    receiver resolves, a throttle, and a health counter. Tasks switch only at awaits, so
    each event below is one uninterrupted stretch of the source. */
module RpcSession {

  datatype Frame = Frame(mid: string, body: string)

  datatype Outcome = Response(frame: Frame) | Failed | Cancelled

  datatype Future = Unset | Resolved(frame: Frame) | Errored

  datatype Pc =
    | Waiting
    | Sleeping(until: real)
    | Sending(start: real)
    | AwaitingReply(start: real)
    | Over(outcome: Outcome)

  /** One `_send_and_wait` call; `settled` counts how often its future was given a result. */
  datatype Call = Call(mid: string, pc: Pc, future: Future, settled: nat)

  datatype Holder = Free | Held(owner: nat)

  /** A request's stay in the guarded block, from registration to the final clause. */
  datatype Span = Span(start: real, end: real)

  /** Where `_run` stands: no socket, socket open, past the session's set-up, or cleaning up. */
  datatype Stage = Down | Opened | Established | Leaving

  datatype State = State(
    now: real,
    stage: Stage,
    connected: bool,
    online: bool,
    holder: Holder,
    calls: map<nat, Call>,
    pending: map<string, nat>,
    lastRpcAt: real,
    failures: nat,
    spans: seq<Span>,
    outcomes: seq<Outcome>
  )

  datatype Event =
    | Tick(elapsed: real)
    | Connect
    | GoOnline
    | BeginCleanup
    | Cleanup
    | Start(call: nat, mid: string)
    | Acquire(call: nat)
    | Wake(call: nat)
    | SendOk(call: nat)
    | SendFails(call: nat)
    | Deliver(frame: Frame)
    | Reply(call: nat)
    | Timeout(call: nat)
    | Cancel(call: nat)

  const THROTTLE: real := 0.35

  function Init(now: real): State {
    State(now, Down, false, false, Free, map[], map[], 0.0, 0, [], [])
  }

  predicate InBlock(pc: Pc) { pc.Sending? || pc.AwaitingReply? }

  predicate UnderLock(pc: Pc) { pc.Sleeping? || InBlock(pc) }

  function To(s: State, c: nat, pc: Pc): State
    requires c in s.calls
  {
    s.(calls := s.calls[c := s.calls[c].(pc := pc)])
  }

  /** Failures in a row: exceptions count, cancellations do not, a response resets. */
  function NextFailures(failures: nat, o: Outcome): nat {
    match o
    case Response(_) => 0
    case Failed => failures + 1
    case Cancelled => failures
  }

  /** Leave the guarded block by its `finally` clause. */
  function Finish(s: State, c: nat, o: Outcome): State
    requires c in s.calls && InBlock(s.calls[c].pc)
  {
    To(s, c, Over(o)).(
      holder := Free,
      pending := s.pending - {s.calls[c].mid},
      lastRpcAt := s.now,
      failures := NextFailures(s.failures, o),
      spans := s.spans + [Span(s.calls[c].pc.start, s.now)],
      outcomes := s.outcomes + [o])
  }

  /** Register the future and start sending; without a socket the send raises at once. */
  function Begin(s: State, c: nat): State
    requires c in s.calls
  {
    var t := To(s, c, Sending(s.now)).(pending := s.pending[s.calls[c].mid := c]);
    if s.connected then t else Finish(t, c, Failed)
  }

  function TakeLock(s: State, c: nat): State
    requires c in s.calls
  {
    var t := s.(holder := Held(c));
    var delay := THROTTLE - (s.now - s.lastRpcAt);
    if delay > 0.0 then To(t, c, Sleeping(s.now + delay)) else Begin(t, c)
  }

  function Settle(call: Call, f: Future): Call {
    if call.future.Unset? then call.(future := f, settled := call.settled + 1) else call
  }

  /** `_resolve_pending_response`. */
  function Resolve(s: State, frame: Frame): State {
    if frame.mid != "" && frame.mid in s.pending && s.pending[frame.mid] in s.calls then
      var c := s.pending[frame.mid];
      s.(calls := s.calls[c := Settle(s.calls[c], Resolved(frame))])
    else s
  }

  /** The tail of `_cleanup_connection`: fail whatever is pending and forget it. */
  function Dropped(s: State): State {
    s.(stage := Down, connected := false, pending := map[],
       calls := map c | c in s.calls :: if c in s.pending.Values then Settle(s.calls[c], Errored) else s.calls[c])
  }

  function CancelCall(s: State, c: nat): State
    requires c in s.calls
  {
    var pc := s.calls[c].pc;
    if InBlock(pc) then Finish(s, c, Cancelled)
    else if pc.Sleeping? then To(s, c, Over(Cancelled)).(holder := Free)
    else if pc.Waiting? then To(s, c, Over(Cancelled))
    else s
  }

  function Step(s: State, e: Event): State {
    match e
    case Tick(d) => if d >= 0.0 then s.(now := s.now + d) else s
    case Connect => if s.stage.Down? then s.(stage := Opened, connected := true) else s
    case GoOnline => if s.stage.Opened? then s.(stage := Established, online := true) else s
    case BeginCleanup => s.(stage := Leaving, online := false)
    case Cleanup => if s.stage.Leaving? then Dropped(s) else s
    case Deliver(frame) => Resolve(s, frame)
    case Start(c, mid) =>
      if c in s.calls || mid == "" then s else s.(calls := s.calls[c := Call(mid, Waiting, Unset, 0)])
    case _ => if e.call in s.calls then CallStep(s, e) else s
  }

  function CallStep(s: State, e: Event): State
    requires e.Acquire? || e.Wake? || e.SendOk? || e.SendFails? || e.Reply? || e.Timeout? || e.Cancel?
    requires e.call in s.calls
  {
    var c := e.call;
    var call := s.calls[c];
    match e
    case Acquire(_) => if call.pc.Waiting? && s.holder.Free? then TakeLock(s, c) else s
    case Wake(_) => if call.pc.Sleeping? && s.now >= call.pc.until then Begin(s, c) else s
    case SendOk(_) => if call.pc.Sending? then To(s, c, AwaitingReply(call.pc.start)) else s
    case SendFails(_) => if call.pc.Sending? then Finish(s, c, Failed) else s
    case Reply(_) =>
      if !call.pc.AwaitingReply? || call.future.Unset? then s
      else if call.future.Resolved? then Finish(s, c, Response(call.future.frame))
      else Finish(s, c, Failed)
    case Timeout(_) => if call.pc.AwaitingReply? then Finish(s, c, Failed) else s
    case Cancel(_) => CancelCall(s, c)
  }

  function Run(s: State, events: seq<Event>): State
    decreases |events|
  {
    if events == [] then s else Run(Step(s, events[0]), events[1..])
  }

  // ----- the invariant -----

  ghost function Streak(outcomes: seq<Outcome>): nat {
    if outcomes == [] then 0
    else
      var last := outcomes[|outcomes| - 1];
      var earlier := outcomes[..|outcomes| - 1];
      if last.Response? then 0 else Streak(earlier) + (if last.Failed? then 1 else 0)
  }

  ghost predicate CallOk(c: Call) {
    && (c.future.Unset? <==> c.settled == 0) && c.settled <= 1
    && (c.future.Resolved? ==> c.future.frame.mid == c.mid)
    && (c.pc.Over? && c.pc.outcome.Response? ==> c.pc.outcome.frame.mid == c.mid)
  }

  /** Only the lock holder is past the lock, and only its request can be registered. */
  ghost predicate LockOk(holder: Holder, calls: map<nat, Call>, pending: map<string, nat>) {
    && (forall c :: c in calls && UnderLock(calls[c].pc) ==> holder == Held(c))
    && (holder.Held? ==> holder.owner in calls && UnderLock(calls[holder.owner].pc))
    && (forall m :: m in pending ==> holder.Held? && pending[m] == holder.owner)
    && (forall m :: m in pending ==> pending[m] in calls && calls[pending[m]].mid == m && InBlock(calls[pending[m]].pc))
  }

  ghost predicate TimesOk(now: real, lastRpcAt: real, calls: map<nat, Call>, spans: seq<Span>) {
    && (forall i :: 0 <= i < |spans| ==> spans[i].start <= spans[i].end)
    && (forall i :: 0 <= i < |spans| - 1 ==> spans[i + 1].start >= spans[i].end + THROTTLE)
    && (spans != [] ==> lastRpcAt == spans[|spans| - 1].end <= now)
    && (forall c :: c in calls && calls[c].pc.Sleeping? ==> calls[c].pc.until >= lastRpcAt + THROTTLE)
    && (forall c :: c in calls && InBlock(calls[c].pc) ==> lastRpcAt + THROTTLE <= calls[c].pc.start <= now)
  }

  ghost predicate AllCallsOk(calls: map<nat, Call>) {
    forall c :: c in calls ==> CallOk(calls[c])
  }

  ghost predicate Inv(s: State) {
    && AllCallsOk(s.calls)
    && LockOk(s.holder, s.calls, s.pending)
    && TimesOk(s.now, s.lastRpcAt, s.calls, s.spans)
    && s.failures == Streak(s.outcomes)
    && |s.outcomes| == |s.spans|
    && StageOk(s)
  }

  /** What `_run`'s position says about the two flags that it sets at different points. */
  ghost predicate StageOk(s: State) {
    && (s.online <==> s.stage.Established?)
    && (s.stage.Opened? || s.stage.Established? ==> s.connected)
  }

  lemma FinishKeepsInv(s: State, c: nat, o: Outcome)
    requires Inv(s) && c in s.calls && InBlock(s.calls[c].pc)
    requires o.Response? ==> o.frame.mid == s.calls[c].mid
    ensures Inv(Finish(s, c, o))
  {
    var t := Finish(s, c, o);
    assert t.outcomes[..|t.outcomes| - 1] == s.outcomes;
    assert s.holder == Held(c);
    FinishKeepsTimes(s, c, o);
    FinishKeepsLock(s, c, o);
  }

  lemma FinishKeepsLock(s: State, c: nat, o: Outcome)
    requires LockOk(s.holder, s.calls, s.pending) && c in s.calls && InBlock(s.calls[c].pc) && s.holder == Held(c)
    ensures LockOk(Free, Finish(s, c, o).calls, Finish(s, c, o).pending)
  {
    var t := Finish(s, c, o);
    forall m | m in s.pending ensures m == s.calls[c].mid {
      assert s.pending[m] == c;
    }
    assert t.pending == map[];
  }

  lemma FinishKeepsTimes(s: State, c: nat, o: Outcome)
    requires Inv(s) && c in s.calls && InBlock(s.calls[c].pc)
    ensures TimesOk(s.now, s.now, Finish(s, c, o).calls, Finish(s, c, o).spans)
  {
    var t := Finish(s, c, o);
    forall d | d in t.calls ensures !UnderLock(t.calls[d].pc) {
      if d != c { assert t.calls[d] == s.calls[d]; }
    }
  }

  lemma BeginKeepsInv(s: State, c: nat)
    requires AllCallsOk(s.calls) && s.failures == Streak(s.outcomes) && |s.outcomes| == |s.spans|
    requires StageOk(s)
    requires c in s.calls && s.holder == Held(c) && s.pending == map[]
    requires forall d :: d in s.calls && d != c ==> !UnderLock(s.calls[d].pc)
    requires TimesOk(s.now, s.lastRpcAt, s.calls, s.spans) && s.now >= s.lastRpcAt + THROTTLE
    ensures Inv(Begin(s, c))
  {
    var t := To(s, c, Sending(s.now)).(pending := s.pending[s.calls[c].mid := c]);
    assert CallOk(t.calls[c]);
    assert Inv(t);
    if !s.connected { FinishKeepsInv(t, c, Failed); }
  }

  lemma NothingPending(s: State)
    requires LockOk(s.holder, s.calls, s.pending)
    requires s.holder.Held? ==> !InBlock(s.calls[s.holder.owner].pc)
    ensures s.pending == map[]
  {
    assert forall m :: m !in s.pending;
  }

  lemma TakeLockKeepsInv(s: State, c: nat)
    requires Inv(s) && c in s.calls && s.calls[c].pc.Waiting? && s.holder.Free?
    ensures Inv(TakeLock(s, c))
  {
    NothingPending(s);
    var delay := THROTTLE - (s.now - s.lastRpcAt);
    if delay > 0.0 {
      assert CallOk(s.calls[c]);
    } else {
      BeginKeepsInv(s.(holder := Held(c)), c);
    }
  }

  lemma WakeKeepsInv(s: State, c: nat)
    requires Inv(s) && c in s.calls && s.calls[c].pc.Sleeping? && s.now >= s.calls[c].pc.until
    ensures Inv(Begin(s, c))
  {
    NothingPending(s);
    BeginKeepsInv(s, c);
  }

  lemma ResolveKeepsInv(s: State, frame: Frame)
    requires Inv(s)
    ensures Inv(Resolve(s, frame))
  {
  }

  lemma DroppedKeepsInv(s: State)
    requires Inv(s) && s.stage.Leaving?
    ensures Inv(Dropped(s))
  {
    var t := Dropped(s);
    forall c | c in t.calls ensures CallOk(t.calls[c]) { assert CallOk(s.calls[c]); }
  }

  lemma CancelKeepsInv(s: State, c: nat)
    requires Inv(s) && c in s.calls
    ensures Inv(CancelCall(s, c))
  {
    var pc := s.calls[c].pc;
    if InBlock(pc) {
      FinishKeepsInv(s, c, Cancelled);
    } else if !pc.Over? {
      LeaveEarlyKeepsInv(s, c);
    }
  }

  lemma LeaveEarlyKeepsInv(s: State, c: nat)
    requires Inv(s) && c in s.calls && (s.calls[c].pc.Sleeping? || s.calls[c].pc.Waiting?)
    ensures Inv(CancelCall(s, c))
  {
    if s.calls[c].pc.Sleeping? { NothingPending(s); }
    assert CallOk(s.calls[c]);
  }

  lemma MoveInBlockKeepsInv(s: State, c: nat)
    requires Inv(s) && c in s.calls && s.calls[c].pc.Sending?
    ensures Inv(To(s, c, AwaitingReply(s.calls[c].pc.start)))
  {
  }

  lemma CallStepKeepsInv(s: State, e: Event)
    requires e.Acquire? || e.Wake? || e.SendOk? || e.SendFails? || e.Reply? || e.Timeout? || e.Cancel?
    requires Inv(s) && e.call in s.calls
    ensures Inv(CallStep(s, e))
  {
    var c := e.call;
    var call := s.calls[c];
    assert CallOk(call);
    match e {
      case Acquire(_) => if call.pc.Waiting? && s.holder.Free? { TakeLockKeepsInv(s, c); }
      case Wake(_) => if call.pc.Sleeping? && s.now >= call.pc.until { WakeKeepsInv(s, c); }
      case SendOk(_) => if call.pc.Sending? { MoveInBlockKeepsInv(s, c); }
      case SendFails(_) => if call.pc.Sending? { FinishKeepsInv(s, c, Failed); }
      case Reply(_) =>
        if call.pc.AwaitingReply? && !call.future.Unset? {
          FinishKeepsInv(s, c, if call.future.Resolved? then Response(call.future.frame) else Failed);
        }
      case Timeout(_) => if call.pc.AwaitingReply? { FinishKeepsInv(s, c, Failed); }
      case Cancel(_) => CancelKeepsInv(s, c);
    }
  }

  lemma StartKeepsInv(s: State, c: nat, mid: string)
    requires Inv(s) && c !in s.calls
    ensures Inv(s.(calls := s.calls[c := Call(mid, Waiting, Unset, 0)]))
  {
  }

  lemma StepKeepsInv(s: State, e: Event)
    requires Inv(s)
    ensures Inv(Step(s, e))
  {
    match e {
      case Tick(_) =>
      case Connect =>
      case GoOnline =>
      case BeginCleanup =>
      case Cleanup => if s.stage.Leaving? { DroppedKeepsInv(s); }
      case Deliver(frame) => ResolveKeepsInv(s, frame);
      case Start(c, mid) => if c !in s.calls { StartKeepsInv(s, c, mid); }
      case _ => if e.call in s.calls { CallStepKeepsInv(s, e); }
    }
  }

  lemma {:induction false} RunKeepsInv(s: State, events: seq<Event>)
    requires Inv(s)
    ensures Inv(Run(s, events))
    decreases |events|
  {
    if events != [] {
      StepKeepsInv(s, events[0]);
      RunKeepsInv(Step(s, events[0]), events[1..]);
    }
  }

  // ----- the theorems -----

  /** Over every run: online implies a live socket; at most one request is registered, and
      its owner is in the guarded block, so a finished call has no entry; a returned frame
      carries the request's own id; a future is settled at most once. */
  lemma SingleFlight(now: real, events: seq<Event>)
    ensures
      var s := Run(Init(now), events);
      && |s.pending| <= 1
      && (s.online ==> s.connected)
      && (forall m :: m in s.pending ==> s.pending[m] in s.calls && InBlock(s.calls[s.pending[m]].pc))
      && (forall c :: c in s.calls ==> s.calls[c].settled <= 1)
      && (forall c :: c in s.calls && s.calls[c].pc.Over? && s.calls[c].pc.outcome.Response? ==>
            s.calls[c].pc.outcome.frame.mid == s.calls[c].mid)
  {
    var s := Run(Init(now), events);
    RunKeepsInv(Init(now), events);
    forall c | c in s.calls ensures CallOk(s.calls[c]) {}
    if s.holder.Held? {
      var mid := s.calls[s.holder.owner].mid;
      assert forall m :: m in s.pending ==> m == mid;
      assert s.pending.Keys <= {mid};
      SubsetSize(s.pending.Keys, mid);
    } else {
      assert s.pending == map[];
    }
  }

  lemma SubsetSize(keys: set<string>, m: string)
    requires keys <= {m}
    ensures |keys| <= 1
  {
    if keys != {} { assert keys == {m}; }
  }

  /** Over every run: the health counter is the number of exception-ended requests since
      the last response, and every request starts at least the throttle after the end of
      the one before. */
  lemma HealthAndSpacing(now: real, events: seq<Event>)
    ensures
      var s := Run(Init(now), events);
      && s.failures == Streak(s.outcomes)
      && |s.spans| == |s.outcomes|
      && forall i :: 0 <= i < |s.spans| - 1 ==> s.spans[i + 1].start - s.spans[i].end >= 0.35
  {
    RunKeepsInv(Init(now), events);
  }

  // ----- what becomes of a call -----

  lemma RunCons(s: State, e: Event, rest: seq<Event>)
    ensures Run(s, [e] + rest) == Run(Step(s, e), rest)
  {
    assert ([e] + rest)[1..] == rest;
  }

  function AnswerEvents(c: nat, frame: Frame): seq<Event> {
    [SendOk(c)] + ([Deliver(frame)] + ([Reply(c)] + []))
  }

  /** A call that is sending, with its future registered. */
  ghost predicate Registered(s: State, c: nat, mid: string) {
    c in s.calls && s.calls[c] == Call(mid, Sending(s.now), Unset, 0) && s.pending == map[mid := c] && mid != ""
  }

  lemma RequestIsAnswered(s: State, c: nat, frame: Frame)
    requires Registered(s, c, frame.mid)
    ensures
      var t := Run(s, AnswerEvents(c, frame));
      && c in t.calls && t.calls[c].pc == Over(Response(frame)) && t.holder.Free? && t.pending == map[]
      && t.failures == 0 && t.lastRpcAt == s.now && t.outcomes == s.outcomes + [Response(frame)]
      && t.spans == s.spans + [Span(s.now, s.now)]
  {
    var awaiting := Step(s, SendOk(c));
    var settled := Step(awaiting, Deliver(frame));
    RunCons(s, SendOk(c), [Deliver(frame)] + ([Reply(c)] + []));
    RunCons(awaiting, Deliver(frame), [Reply(c)] + []);
    RunCons(settled, Reply(c), []);
    assert settled.calls[c].future == Resolved(frame) && settled.pending == map[frame.mid := c];
  }

  lemma CallIsRegistered(s: State, c: nat, mid: string)
    requires Inv(s) && s.connected && s.holder.Free? && c !in s.calls && mid != "" && s.now - s.lastRpcAt >= 0.35
    ensures
      var t := Step(Step(s, Start(c, mid)), Acquire(c));
      Registered(t, c, mid) && t.now == s.now && t.spans == s.spans && t.outcomes == s.outcomes
  {
    NothingPending(s);
  }

  /** A call that nothing disturbs, 0.35 s or more after the one before: it returns the frame that
      carries its mid, nothing stays registered, and the failures are forgotten. */
  lemma CallIsAnswered(s: State, c: nat, frame: Frame)
    requires Inv(s) && s.connected && s.holder.Free? && c !in s.calls && frame.mid != "" && s.now - s.lastRpcAt >= 0.35
    ensures
      var t := Run(s, [Start(c, frame.mid)] + ([Acquire(c)] + AnswerEvents(c, frame)));
      && c in t.calls && t.calls[c].pc == Over(Response(frame)) && t.holder.Free? && t.pending == map[]
      && t.failures == 0 && t.lastRpcAt == s.now && t.outcomes == s.outcomes + [Response(frame)]
      && t.spans == s.spans + [Span(s.now, s.now)]
  {
    var waiting := Step(s, Start(c, frame.mid));
    RunCons(s, Start(c, frame.mid), [Acquire(c)] + AnswerEvents(c, frame));
    RunCons(waiting, Acquire(c), AnswerEvents(c, frame));
    CallIsRegistered(s, c, frame.mid);
    RequestIsAnswered(Step(waiting, Acquire(c)), c, frame);
  }

  /** A call that takes the lock earlier sleeps until 0.35 s after the end of the last one, and
      then begins. */
  lemma EarlyCallSleeps(s: State, c: nat, wait: real)
    requires c in s.calls && s.calls[c].pc.Waiting? && s.holder.Free? && s.now - s.lastRpcAt < 0.35 && wait >= 0.0
    ensures
      var t := Step(s, Acquire(c));
      var woken := Step(Step(t, Tick(wait)), Wake(c));
      && c in t.calls && t.calls[c].pc == Sleeping(s.lastRpcAt + 0.35) && t.holder == Held(c)
      && c in woken.calls
      && (s.now + wait < s.lastRpcAt + 0.35 ==> woken.calls[c].pc == t.calls[c].pc)
      && (s.now + wait >= s.lastRpcAt + 0.35 && s.connected ==>
            woken.calls[c].pc == Sending(s.now + wait) && s.calls[c].mid in woken.pending && woken.pending[s.calls[c].mid] == c)
  {
  }

  /** Every other way to end: without a socket, by a failed send, by a timeout or by the end of
      the connection the call fails; a cancellation ends it as cancelled. Each gives the lock
      back. */
  lemma CallEnds(s: State, c: nat)
    requires Inv(s) && c in s.calls
    ensures s.calls[c].pc.Sending? ==> EndedAs(s, Step(s, SendFails(c)), c, Failed)
    ensures s.calls[c].pc.AwaitingReply? ==> EndedAs(s, Step(s, Timeout(c)), c, Failed)
    ensures InBlock(s.calls[c].pc) ==> EndedAs(s, Step(s, Cancel(c)), c, Cancelled)
    ensures s.calls[c].pc.Waiting? && s.holder.Free? && s.now - s.lastRpcAt >= 0.35 && !s.connected ==>
      EndedAs(s, Step(s, Acquire(c)), c, Failed)
    ensures
      var t := Step(s, Cancel(c));
      s.calls[c].pc.Waiting? || s.calls[c].pc.Sleeping? ==>
        && t.calls[c].pc == Over(Cancelled) && t.pending == s.pending && t.failures == s.failures
        && t.outcomes == s.outcomes && t.holder == (if s.calls[c].pc.Sleeping? then Free else s.holder)
  {
  }

  ghost predicate EndedAs(s: State, t: State, c: nat, o: Outcome) {
    && c in s.calls && c in t.calls && t.calls[c].pc == Over(o) && t.holder.Free? && s.calls[c].mid !in t.pending
    && t.lastRpcAt == s.now && t.outcomes == s.outcomes + [o]
    && t.failures == (if o.Failed? then s.failures + 1 else if o.Response? then 0 else s.failures)
  }

  /** The end of a connection fails the call that waits for its answer, and only that one. */
  lemma DropFailsTheCall(s: State, c: nat)
    requires Inv(s) && s.stage.Leaving? && c in s.calls && s.calls[c].pc.AwaitingReply?
    requires s.calls[c].mid in s.pending && s.calls[c].future.Unset?
    ensures
      var t := Step(s, Cleanup);
      && !t.connected && t.stage.Down? && t.pending == map[] && c in t.calls && t.calls[c].future == Errored
      && (forall d :: d in s.calls && d != c ==> d in t.calls && t.calls[d] == s.calls[d])
      && EndedAs(t, Step(t, Reply(c)), c, Failed)
  {
    assert s.pending[s.calls[c].mid] in s.pending.Values;
  }

  /** A frame settles the future that waits for its mid, once, and touches nothing else. */
  lemma FrameMeans(s: State, frame: Frame)
    ensures
      var t := Step(s, Deliver(frame));
      && t == s.(calls := t.calls) && t.calls.Keys == s.calls.Keys
      && forall c :: c in s.calls ==>
           t.calls[c] ==
             if frame.mid != "" && frame.mid in s.pending && s.pending[frame.mid] == c && s.calls[c].future.Unset?
             then s.calls[c].(future := Resolved(frame), settled := s.calls[c].settled + 1) else s.calls[c]
  {
  }

  /** The session's own fields and the stretches that change them. Each stretch is a step of the
      machine, so `StepKeepsInv` carries the invariant over it. */
  class Session {
    var now: real
    ghost var stage: Stage
    var connected: bool
    var online: bool
    var holder: Holder
    var calls: map<nat, Call>
    var pending: map<string, nat>
    var lastRpcAt: real
    var failures: nat
    ghost var spans: seq<Span>
    ghost var outcomes: seq<Outcome>

    ghost function View(): State
      reads this
    {
      State(now, stage, connected, online, holder, calls, pending, lastRpcAt, failures, spans, outcomes)
    }

    constructor (now: real)
      ensures View() == Init(now) && Inv(View())
    {
      this.now, stage, connected, online := now, Down, false, false;
      holder, calls, pending := Free, map[], map[];
      lastRpcAt, failures, spans, outcomes := 0.0, 0, [], [];
    }

    /** From acquiring the lock to the first await: sleep out the throttle or send. */
    method EnterSendAndWait(c: nat)
      requires c in calls && calls[c].pc.Waiting? && holder.Free?
      modifies this
      ensures View() == Step(old(View()), Acquire(c))
    {
      ghost var goal := TakeLock(View(), c);
      holder := Held(c);
      var delay := THROTTLE - (now - lastRpcAt);
      if delay > 0.0 {
        calls := calls[c := calls[c].(pc := Sleeping(now + delay))];
      } else {
        RegisterAndSend(c);
      }
      assert View() == goal;
    }

    method RegisterAndSend(c: nat)
      requires c in calls
      modifies this
      ensures View() == Begin(old(View()), c)
    {
      pending := pending[calls[c].mid := c];
      calls := calls[c := calls[c].(pc := Sending(now))];
      if !connected {
        FinishWith(c, Failed);
      }
    }

    /** The outcome clauses and the `finally` of `_send_and_wait`. */
    method FinishWith(c: nat, o: Outcome)
      requires c in calls && InBlock(calls[c].pc)
      modifies this
      ensures View() == Finish(old(View()), c, o)
    {
      match o {
        case Response(_) => failures := 0;
        case Failed => failures := failures + 1;
        case Cancelled =>
      }
      spans := spans + [Span(calls[c].pc.start, now)];
      outcomes := outcomes + [o];
      pending := pending - {calls[c].mid};
      lastRpcAt := now;
      holder := Free;
      calls := calls[c := calls[c].(pc := Over(o))];
    }

    method ResolvePendingResponse(frame: Frame) returns (consumed: bool)
      requires Inv(View())
      modifies this
      ensures consumed <==> frame.mid != "" && frame.mid in old(pending)
      ensures View() == Step(old(View()), Deliver(frame)) && Inv(View())
    {
      ResolveKeepsInv(View(), frame);
      if frame.mid == "" || frame.mid !in pending {
        return false;
      }
      var c := pending[frame.mid];
      if calls[c].future.Unset? {
        calls := calls[c := calls[c].(future := Resolved(frame), settled := calls[c].settled + 1)];
      }
      consumed := true;
    }

    /** Give every pending future the connection error. */
    method FailFutures()
      requires forall m :: m in pending ==> pending[m] in calls
      modifies this`calls
      ensures calls.Keys == old(calls).Keys
      ensures forall c :: c in calls ==>
        calls[c] == if c in pending.Values then Settle(old(calls)[c], Errored) else old(calls)[c]
    {
      var left := pending.Keys;
      ghost var done: set<nat> := {};
      while left != {}
        invariant left <= pending.Keys && calls.Keys == old(calls).Keys
        invariant forall m :: m in pending && m !in left ==> pending[m] in done
        invariant done <= pending.Values
        invariant forall c :: c in calls ==>
          calls[c] == if c in done then Settle(old(calls)[c], Errored) else old(calls)[c]
        decreases left
      {
        var m :| m in left;
        var c := pending[m];
        if calls[c].future.Unset? {
          calls := calls[c := calls[c].(future := Errored, settled := calls[c].settled + 1)];
        }
        done := done + {c};
        left := left - {m};
      }
      assert forall c :: c in pending.Values ==> c in done;
    }

    /** The tail of `_cleanup_connection`: fail every pending future, then forget them. */
    method FailPending()
      requires stage.Leaving? && forall m :: m in pending ==> pending[m] in calls
      modifies this
      ensures View() == Step(old(View()), Cleanup)
    {
      ghost var goal := Dropped(View());
      stage := Down;
      connected := false;
      FailFutures();
      pending := map[];
      assert calls == goal.calls;
      assert View() == goal;
    }
  }
}
