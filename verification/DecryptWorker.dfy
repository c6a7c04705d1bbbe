/** The pool of persistent decoder processes. A worker writes one request to its child and
    waits for one line; the child answers each request it received at most once, as late as it
    likes, and a reader thread per child carries the lines to the queue made for that child.
    A stopped child may live on: nothing here relies on it being dead. */
module DecryptWorker {
  import opened Options

  datatype Request = Request(id: string, data: string)

  datatype Reply = Result(text: string) | Error(message: string)

  /** A line of the child's output; `origin` is the request it was written for. */
  datatype Line = Line(origin: Request, reply: Reply)

  /** One child with the pipes, reader thread and response queue created for it; `None` in the
      queue is the reader's end mark. */
  datatype Child = Child(
    alive: bool,
    unanswered: seq<Request>,
    pipe: seq<Line>,
    queue: seq<Option<Line>>,
    readerDone: bool
  )

  datatype Call = Idle | Writing(request: Request) | Waiting(request: Request)

  datatype Entry =
    | Returned(call: Request, line: Line)
    | ReportedError(call: Request, line: Line)
    | Mismatch(call: Request, line: Line)
    | TimedOut(call: Request)
    | Stopped(call: Request)
    | WriteFailed(call: Request)

  /** `children` holds every child ever started, the newest last. */
  datatype Worker = Worker(process: Option<nat>, children: seq<Child>, call: Call, log: seq<Entry>)

  datatype Event =
    | Begin(request: Request)               // decrypt takes the lock and ensures a process
    | Write(ok: bool, delivered: bool)      // a failed write may still have been delivered
    | TakeLine
    | TimeOut
    | Close
    | ChildAnswers(child: nat, index: nat, reply: Reply)
    | ChildDies(child: nat)
    | ReaderMoves(child: nat)
    | ReaderEnds(child: nat)

  /** The events of the thread inside `decrypt`; the others happen around it. */
  predicate ByCaller(e: Event) {
    e.Begin? || e.Write? || e.TakeLine? || e.TimeOut?
  }

  function Init(): Worker {
    Worker(None, [], Idle, [])
  }

  function NewChild(): Child {
    Child(true, [], [], [], false)
  }

  /** `_ensure_process`: a live child is reused, otherwise a child with its own queue starts. */
  function EnsureProcess(w: Worker): Worker {
    if w.process.Some? && w.process.value < |w.children| && w.children[w.process.value].alive then w
    else w.(process := Some(|w.children|), children := w.children + [NewChild()])
  }

  /** The failure path of `decrypt`: `_stop_locked`, then the error reaches the caller. */
  function Fail(w: Worker, e: Entry): Worker {
    w.(process := None, call := Idle, log := w.log + [e])
  }

  function Accept(c: Child, r: Request): Child {
    c.(unanswered := c.unanswered + [r])
  }

  function WriteStep(w: Worker, ok: bool, delivered: bool): Worker {
    if !w.call.Writing? || w.process.None? || w.process.value >= |w.children| then w
    else
      var g := w.process.value;
      var sent := if ok || delivered then w.(children := w.children[g := Accept(w.children[g], w.call.request)]) else w;
      if ok then sent.(call := Waiting(w.call.request)) else Fail(sent, WriteFailed(w.call.request))
  }

  /** The part of `decrypt` after a line was taken from the queue. */
  function Judge(w: Worker, r: Request, got: Option<Line>): Worker {
    if got.None? then Fail(w, Stopped(r))
    else if got.value.origin.id != r.id then Fail(w, Mismatch(r, got.value))
    else if got.value.reply.Error? then Fail(w, ReportedError(r, got.value))
    else w.(call := Idle, log := w.log + [Returned(r, got.value)])
  }

  function TakeStep(w: Worker): Worker {
    if !w.call.Waiting? || w.process.None? || w.process.value >= |w.children| then w
    else
      var g := w.process.value;
      var c := w.children[g];
      if c.queue == [] then w
      else Judge(w.(children := w.children[g := c.(queue := c.queue[1..])]), w.call.request, c.queue[0])
  }

  function Answered(c: Child, i: nat, reply: Reply): Child {
    if i < |c.unanswered| && c.alive then
      c.(unanswered := c.unanswered[..i] + c.unanswered[i + 1..], pipe := c.pipe + [Line(c.unanswered[i], reply)])
    else c
  }

  function Moved(c: Child): Child {
    if c.pipe != [] && !c.readerDone then c.(pipe := c.pipe[1..], queue := c.queue + [Some(c.pipe[0])]) else c
  }

  function Ended(c: Child): Child {
    if c.readerDone then c else c.(readerDone := true, queue := c.queue + [None])
  }

  function Step(w: Worker, e: Event): Worker {
    match e
    case Begin(r) => if w.call.Idle? then EnsureProcess(w).(call := Writing(r)) else w
    case Write(ok, delivered) => WriteStep(w, ok, delivered)
    case TakeLine => TakeStep(w)
    case TimeOut => if w.call.Waiting? then Fail(w, TimedOut(w.call.request)) else w
    case Close => if w.call.Idle? then w.(process := None) else w
    case ChildAnswers(g, i, reply) =>
      if g < |w.children| then w.(children := w.children[g := Answered(w.children[g], i, reply)]) else w
    case ChildDies(g) =>
      if g < |w.children| then w.(children := w.children[g := w.children[g].(alive := false)]) else w
    case ReaderMoves(g) =>
      if g < |w.children| then w.(children := w.children[g := Moved(w.children[g])]) else w
    case ReaderEnds(g) =>
      if g < |w.children| then w.(children := w.children[g := Ended(w.children[g])]) else w
  }

  function Run(w: Worker, events: seq<Event>): Worker
    decreases |events|
  {
    if events == [] then w else Run(Step(w, events[0]), events[1..])
  }

  // ----- what is still on its way from a child -----

  function LineOf(x: Option<Line>): seq<Line> {
    if x.Some? then [x.value] else []
  }

  function Lines(queue: seq<Option<Line>>): seq<Line>
    decreases |queue|
  {
    if queue == [] then [] else LineOf(queue[0]) + Lines(queue[1..])
  }

  lemma {:induction false} LinesSnoc(queue: seq<Option<Line>>, x: Option<Line>)
    ensures Lines(queue + [x]) == Lines(queue) + LineOf(x)
    decreases |queue|
  {
    var all := queue + [x];
    if queue == [] {
      assert all == [x] && all[1..] == [];
      assert Lines(all) == LineOf(x) + Lines([]);
    } else {
      var head, rest := queue[0], queue[1..];
      assert all[0] == head && all[1..] == rest + [x];
      LinesSnoc(rest, x);
      assert Lines(all) == LineOf(head) + (Lines(rest) + LineOf(x));
    }
  }

  /** The child has nothing on its way. */
  ghost predicate Quiet(c: Child) {
    c.unanswered == [] && c.pipe == [] && Lines(c.queue) == []
  }

  /** At most one answer is on its way, and it is for `r`. */
  ghost predicate OnlyFor(c: Child, r: Request) {
    && |c.unanswered| + |c.pipe| + |Lines(c.queue)| <= 1
    && (forall i :: 0 <= i < |c.unanswered| ==> c.unanswered[i] == r)
    && (forall i :: 0 <= i < |c.pipe| ==> c.pipe[i].origin == r)
    && (forall i :: 0 <= i < |Lines(c.queue)| ==> Lines(c.queue)[i].origin == r)
  }

  /** No call was handed a line written for another one. */
  ghost predicate Matched(log: seq<Entry>) {
    forall i :: 0 <= i < |log| ==>
      && !log[i].Mismatch?
      && (log[i].Returned? ==> log[i].line.origin == log[i].call && log[i].line.reply.Result?)
      && (log[i].ReportedError? ==> log[i].line.origin == log[i].call)
  }

  /** The child a call talks to has at most that call's answer on its way, and between calls
      nothing at all. */
  ghost predicate Inv(w: Worker) {
    && (w.process.Some? ==> w.process.value < |w.children|)
    && (w.call.Idle? && w.process.Some? ==> Quiet(w.children[w.process.value]))
    && (w.call.Writing? ==> w.process.Some? && Quiet(w.children[w.process.value]))
    && (w.call.Waiting? ==> w.process.Some? && OnlyFor(w.children[w.process.value], w.call.request))
    && Matched(w.log)
  }

  lemma AnswerKeeps(c: Child, r: Request, i: nat, reply: Reply)
    ensures Quiet(c) ==> Quiet(Answered(c, i, reply))
    ensures OnlyFor(c, r) ==> OnlyFor(Answered(c, i, reply), r)
  {
  }

  lemma ReaderKeeps(c: Child, r: Request)
    ensures Quiet(c) ==> Quiet(Moved(c)) && Quiet(Ended(c))
    ensures OnlyFor(c, r) ==> OnlyFor(Moved(c), r) && OnlyFor(Ended(c), r)
  {
    LinesSnoc(c.queue, None);
    if c.pipe != [] { LinesSnoc(c.queue, Some(c.pipe[0])); }
  }

  lemma TakeKeepsInv(w: Worker)
    requires Inv(w)
    ensures Inv(TakeStep(w))
  {
    if w.call.Waiting? {
      var c := w.children[w.process.value];
      if c.queue != [] && c.queue[0].Some? {
        assert Lines(c.queue) == [c.queue[0].value] + Lines(c.queue[1..]);
        assert Lines(c.queue)[0] == c.queue[0].value;
        assert Quiet(c.(queue := c.queue[1..]));
      }
    }
  }

  lemma BeginKeepsInv(w: Worker, r: Request)
    requires Inv(w)
    ensures Inv(Step(w, Begin(r)))
  {
  }

  lemma WriteKeepsInv(w: Worker, ok: bool, delivered: bool)
    requires Inv(w)
    ensures Inv(WriteStep(w, ok, delivered))
  {
  }

  lemma AnswerKeepsInv(w: Worker, g: nat, i: nat, reply: Reply)
    requires Inv(w)
    ensures Inv(Step(w, ChildAnswers(g, i, reply)))
  {
    if g < |w.children| && !w.call.Idle? { AnswerKeeps(w.children[g], w.call.request, i, reply); }
  }

  lemma StepKeepsInv(w: Worker, e: Event)
    requires Inv(w)
    ensures Inv(Step(w, e))
  {
    match e {
      case Begin(r) => BeginKeepsInv(w, r);
      case Write(ok, delivered) => WriteKeepsInv(w, ok, delivered);
      case TakeLine => TakeKeepsInv(w);
      case ChildAnswers(g, i, reply) => AnswerKeepsInv(w, g, i, reply);
      case ReaderMoves(g) => if g < |w.children| { ReaderKeepsInv(w, g); }
      case ReaderEnds(g) => if g < |w.children| { ReaderKeepsInv(w, g); }
      case _ =>
    }
  }

  lemma ReaderKeepsInv(w: Worker, g: nat)
    requires Inv(w) && g < |w.children|
    ensures Inv(Step(w, ReaderMoves(g))) && Inv(Step(w, ReaderEnds(g)))
  {
    var r := if w.call.Idle? then Request("", "") else w.call.request;
    ReaderKeeps(w.children[g], r);
  }

  lemma {:induction false} RunKeepsInv(w: Worker, events: seq<Event>)
    requires Inv(w)
    ensures Inv(Run(w, events))
    decreases |events|
  {
    if events != [] {
      StepKeepsInv(w, events[0]);
      RunKeepsInv(Step(w, events[0]), events[1..]);
    }
  }

  /** Over every run of calls, timeouts, closings and arbitrarily late answers: no call fails
      by mismatch, and whatever a call returns or reports was written for that very call. */
  lemma LateAnswersNeverReachLaterCalls(events: seq<Event>)
    ensures Matched(Run(Init(), events).log)
  {
    RunKeepsInv(Init(), events);
  }

  // ----- an undisturbed call -----

  lemma RunCons(w: Worker, e: Event, rest: seq<Event>)
    ensures Run(w, [e] + rest) == Run(Step(w, e), rest)
  {
    assert ([e] + rest)[1..] == rest;
  }

  /** The child a call would talk to: the live one, or one that is started for it. */
  function Serving(w: Worker): nat {
    if w.process.Some? && w.process.value < |w.children| && w.children[w.process.value].alive then w.process.value
    else |w.children|
  }

  /** The child has been started, lives, and nothing is on its way from it. */
  predicate Ready(w: Worker, g: nat) {
    w.process == Some(g) && g < |w.children| && w.children[g] == Child(true, [], [], [], false)
  }

  lemma BeginServes(w: Worker, r: Request)
    requires w.call.Idle? && (Serving(w) < |w.children| ==> Ready(w, Serving(w)))
    ensures Ready(Step(w, Begin(r)), Serving(w)) && Step(w, Begin(r)).call == Writing(r) && Step(w, Begin(r)).log == w.log
  {
  }

  function AnswerEvents(g: nat, delivered: bool, reply: Reply): seq<Event> {
    [Write(true, delivered)] + ([ChildAnswers(g, 0, reply)] + ([ReaderMoves(g)] + ([TakeLine] + [])))
  }

  lemma RequestIsAnswered(w: Worker, g: nat, r: Request, delivered: bool, reply: Reply)
    requires Ready(w, g) && w.call == Writing(r)
    ensures
      var t := Run(w, AnswerEvents(g, delivered, reply));
      && t.call.Idle?
      && (reply.Result? ==> Ready(t, g) && t.log == w.log + [Returned(r, Line(r, reply))])
      && (reply.Error? ==> t.process.None? && t.log == w.log + [ReportedError(r, Line(r, reply))])
  {
    var written := Step(w, Write(true, delivered));
    var answered := Step(written, ChildAnswers(g, 0, reply));
    var moved := Step(answered, ReaderMoves(g));
    RunCons(w, Write(true, delivered), [ChildAnswers(g, 0, reply)] + ([ReaderMoves(g)] + ([TakeLine] + [])));
    RunCons(written, ChildAnswers(g, 0, reply), [ReaderMoves(g)] + ([TakeLine] + []));
    RunCons(answered, ReaderMoves(g), [TakeLine] + []);
    RunCons(moved, TakeLine, []);
    assert written.children[g] == Child(true, [r], [], [], false);
    assert answered.children[g] == Child(true, [], [Line(r, reply)], [], false);
    assert moved.children[g] == Child(true, [], [], [Some(Line(r, reply))], false);
  }

  /** A call that nothing disturbs gets the child's answer to its own request, from the live child
      or from one started for it, and leaves that child ready; an error gives the child up. */
  lemma CallIsAnswered(w: Worker, r: Request, delivered: bool, reply: Reply)
    requires w.call.Idle? && (Serving(w) < |w.children| ==> Ready(w, Serving(w)))
    ensures
      var t := Run(w, [Begin(r)] + AnswerEvents(Serving(w), delivered, reply));
      && t.call.Idle?
      && (reply.Result? ==> Ready(t, Serving(w)) && t.log == w.log + [Returned(r, Line(r, reply))])
      && (reply.Error? ==> t.process.None? && t.log == w.log + [ReportedError(r, Line(r, reply))])
  {
    RunCons(w, Begin(r), AnswerEvents(Serving(w), delivered, reply));
    BeginServes(w, r);
    RequestIsAnswered(Step(w, Begin(r)), Serving(w), r, delivered, reply);
  }

  /** The end of a child's output stops the call that waits on it, and a dead child is replaced. */
  lemma DeadChildIsReplaced(w: Worker, g: nat, r: Request)
    requires w.process == Some(g) && g < |w.children| && w.children[g].queue == [] && !w.children[g].readerDone
    ensures
      var t := Step(Step(w, ReaderEnds(g)), TakeLine);
      w.call.Waiting? ==> t.process.None? && t.call.Idle? && t.log == w.log + [Stopped(w.call.request)]
    ensures
      var t := Step(Step(w, ChildDies(g)), Begin(r));
      w.call.Idle? ==> t.process == Some(|w.children|) && Ready(t, |w.children|) && t.call == Writing(r)
    ensures Step(Step(w, ReaderEnds(g)), ReaderEnds(g)) == Step(w, ReaderEnds(g))
  {
    var ended := Step(w, ReaderEnds(g));
    assert ended.children[g].queue[0] == None;
  }

  /** How a call fails: each failure gives the process up and is reported to its caller. */
  lemma CallFails(w: Worker)
    ensures
      var t := Step(w, TimeOut);
      w.call.Waiting? ==> t.process.None? && t.call.Idle? && t.log == w.log + [TimedOut(w.call.request)]
    ensures
      var t := Step(w, TakeLine);
      w.call.Waiting? && w.process.Some? && w.process.value < |w.children|
      && |w.children[w.process.value].queue| > 0 && w.children[w.process.value].queue[0].None? ==>
        t.process.None? && t.call.Idle? && t.log == w.log + [Stopped(w.call.request)]
    ensures forall delivered ::
      var t := Step(w, Write(false, delivered));
      w.call.Writing? && w.process.Some? && w.process.value < |w.children| ==>
        t.process.None? && t.call.Idle? && t.log == w.log + [WriteFailed(w.call.request)]
    ensures w.call.Idle? ==> Step(w, Close).process.None?
  {
  }

  // ----- the pool -----

  /** Which worker each caller holds, and the queue of free ones. */
  datatype Pool = Pool(workers: seq<Worker>, available: seq<nat>, held: map<nat, nat>)

  datatype PoolEvent =
    | Acquire(caller: nat)
    | Use(caller: nat, event: Event)        // the holder's thread inside worker.decrypt
    | Around(worker: nat, event: Event)     // children, reader threads and close()
    | GiveBack(caller: nat)

  function NewPool(size: int): Pool {
    var n := if size < 1 then 1 else size;
    Pool(seq(n, _ => Init()), seq(n, i => i), map[])
  }

  function UseStep(p: Pool, caller: nat, e: Event): Pool {
    if caller in p.held && p.held[caller] < |p.workers| && ByCaller(e)
    then p.(workers := p.workers[p.held[caller] := Step(p.workers[p.held[caller]], e)])
    else p
  }

  function AroundStep(p: Pool, worker: nat, e: Event): Pool {
    if worker < |p.workers| && !ByCaller(e) then p.(workers := p.workers[worker := Step(p.workers[worker], e)]) else p
  }

  function AcquireStep(p: Pool, caller: nat): Pool {
    if caller !in p.held && p.available != [] then
      p.(available := p.available[1..], held := p.held[caller := p.available[0]])
    else p
  }

  function GiveBackStep(p: Pool, caller: nat): Pool {
    if caller in p.held && p.held[caller] < |p.workers| && p.workers[p.held[caller]].call.Idle? then
      p.(available := p.available + [p.held[caller]], held := p.held - {caller})
    else p
  }

  function PoolStep(p: Pool, e: PoolEvent): Pool {
    match e
    case Acquire(caller) => AcquireStep(p, caller)
    case Use(caller, event) => UseStep(p, caller, event)
    case Around(worker, event) => AroundStep(p, worker, event)
    case GiveBack(caller) => GiveBackStep(p, caller)
  }

  function PoolRun(p: Pool, events: seq<PoolEvent>): Pool
    decreases |events|
  {
    if events == [] then p else PoolRun(PoolStep(p, events[0]), events[1..])
  }

  ghost predicate NoneTwice(count: nat, available: seq<nat>, held: map<nat, nat>) {
    && (forall i :: 0 <= i < |available| ==> available[i] < count)
    && (forall c :: c in held ==> held[c] < count)
    && (forall i, j :: 0 <= i < j < |available| ==> available[i] != available[j])
    && (forall c, d :: c in held && d in held && c != d ==> held[c] != held[d])
    && (forall c, i :: c in held && 0 <= i < |available| ==> held[c] != available[i])
  }

  ghost predicate NoneLost(count: nat, available: seq<nat>, held: map<nat, nat>) {
    forall w: nat :: w < count ==> w in available || w in held.Values
  }

  /** Every worker is either in the queue, once, or held by exactly one caller. */
  ghost predicate Partitioned(count: nat, available: seq<nat>, held: map<nat, nat>) {
    NoneTwice(count, available, held) && NoneLost(count, available, held)
  }

  ghost predicate PoolInv(p: Pool) {
    && Partitioned(|p.workers|, p.available, p.held)
    && |p.available| + |p.held| == |p.workers|
    && (forall w :: 0 <= w < |p.workers| ==> Inv(p.workers[w]))
    && (forall w :: 0 <= w < |p.workers| && w !in p.held.Values ==> p.workers[w].call.Idle?)
  }

  lemma InsertHeld(held: map<nat, nat>, caller: nat, worker: nat)
    requires caller !in held
    ensures held[caller := worker].Values == held.Values + {worker}
    ensures |held[caller := worker]| == |held| + 1
  {
    var now := held[caller := worker];
    assert now.Keys == held.Keys + {caller} && |now| == |now.Keys| && |held| == |held.Keys|;
    assert now[caller] == worker;
    forall w | w in held.Values ensures w in now.Values {
      var c :| c in held && held[c] == w;
      assert now[c] == w;
    }
  }

  lemma RemoveHeld(held: map<nat, nat>, caller: nat)
    requires caller in held
    requires forall c, d :: c in held && d in held && c != d ==> held[c] != held[d]
    ensures (held - {caller}).Values == held.Values - {held[caller]}
    ensures |held - {caller}| == |held| - 1
  {
    var left := held - {caller};
    assert left.Keys == held.Keys - {caller} && |left| == |left.Keys| && |held| == |held.Keys|;
    forall w | w in held.Values && w != held[caller] ensures w in left.Values {
      var c :| c in held && held[c] == w;
      assert left[c] == w;
    }
  }

  lemma AcquireKeepsPartition(count: nat, available: seq<nat>, held: map<nat, nat>, caller: nat)
    requires Partitioned(count, available, held) && caller !in held && available != []
    ensures Partitioned(count, available[1..], held[caller := available[0]])
  {
    AcquireLosesNone(count, available, held, caller);
  }

  lemma AcquireLosesNone(count: nat, available: seq<nat>, held: map<nat, nat>, caller: nat)
    requires NoneLost(count, available, held) && caller !in held && available != []
    ensures NoneLost(count, available[1..], held[caller := available[0]])
  {
    InsertHeld(held, caller, available[0]);
    assert available == [available[0]] + available[1..];
  }

  lemma GiveBackKeepsPartition(count: nat, available: seq<nat>, held: map<nat, nat>, caller: nat)
    requires Partitioned(count, available, held) && caller in held
    ensures Partitioned(count, available + [held[caller]], held - {caller})
  {
    GiveBackLosesNone(count, available, held, caller);
  }

  lemma GiveBackLosesNone(count: nat, available: seq<nat>, held: map<nat, nat>, caller: nat)
    requires Partitioned(count, available, held) && caller in held
    ensures NoneLost(count, available + [held[caller]], held - {caller})
  {
    RemoveHeld(held, caller);
  }

  /** Only the holder's own steps make a worker busy. */
  lemma AroundKeepsCalls(w: Worker, e: Event)
    requires !ByCaller(e)
    ensures Step(w, e).call == w.call
  {
  }

  lemma AcquireKeepsInv(p: Pool, caller: nat)
    requires PoolInv(p)
    ensures PoolInv(AcquireStep(p, caller))
  {
    if caller !in p.held && p.available != [] {
      AcquireKeepsPartition(|p.workers|, p.available, p.held, caller);
      InsertHeld(p.held, caller, p.available[0]);
    }
  }

  lemma GiveBackKeepsInv(p: Pool, caller: nat)
    requires PoolInv(p)
    ensures PoolInv(GiveBackStep(p, caller))
  {
    if caller in p.held {
      GiveBackKeepsPartition(|p.workers|, p.available, p.held, caller);
      RemoveHeld(p.held, caller);
    }
  }

  lemma WorkKeepsInv(p: Pool, w: nat, e: Event)
    requires PoolInv(p) && w < |p.workers|
    requires ByCaller(e) ==> w in p.held.Values
    ensures PoolInv(p.(workers := p.workers[w := Step(p.workers[w], e)]))
  {
    StepKeepsInv(p.workers[w], e);
    if !ByCaller(e) { AroundKeepsCalls(p.workers[w], e); }
  }

  lemma PoolStepKeepsInv(p: Pool, e: PoolEvent)
    requires PoolInv(p)
    ensures PoolInv(PoolStep(p, e)) && |PoolStep(p, e).workers| == |p.workers|
  {
    match e {
      case Acquire(caller) => AcquireKeepsInv(p, caller);
      case Use(caller, event) => if caller in p.held { WorkKeepsInv(p, p.held[caller], event); }
      case Around(worker, event) => if worker < |p.workers| && !ByCaller(event) { WorkKeepsInv(p, worker, event); }
      case GiveBack(caller) => GiveBackKeepsInv(p, caller);
    }
  }

  lemma {:induction false} PoolRunKeepsInv(p: Pool, events: seq<PoolEvent>)
    requires PoolInv(p)
    ensures PoolInv(PoolRun(p, events)) && |PoolRun(p, events).workers| == |p.workers|
    decreases |events|
  {
    if events != [] {
      PoolStepKeepsInv(p, events[0]);
      PoolRunKeepsInv(PoolStep(p, events[0]), events[1..]);
    }
  }

  /** Over every run of any number of callers on a pool of any size: the workers stay
      partitioned into free ones and ones held by exactly one caller, a worker inside a call is
      held, and no caller ever receives another call's answer. */
  lemma PoolIsPartitionedAndMatched(size: int, events: seq<PoolEvent>)
    ensures
      var p := PoolRun(NewPool(size), events);
      && |p.workers| == (if size < 1 then 1 else size)
      && Partitioned(|p.workers|, p.available, p.held)
      && |p.available| + |p.held| == |p.workers|
      && (forall w :: 0 <= w < |p.workers| && !p.workers[w].call.Idle? ==> w in p.held.Values)
      && (forall w :: 0 <= w < |p.workers| ==> Matched(p.workers[w].log))
  {
    var start := NewPool(size);
    forall w: nat | w < |start.workers| ensures w in start.available { assert start.available[w] == w; }
    PoolRunKeepsInv(start, events);
  }

  // ----- the worker object -----

  /** `_NodeDecryptWorker`; the children with their queues are the environment it talks to. */
  class NodeDecryptWorker {
    var process: Option<nat>
    var children: seq<Child>
    var call: Call
    ghost var log: seq<Entry>

    ghost function View(): Worker
      reads this
    {
      Worker(process, children, call, log)
    }

    constructor ()
      ensures View() == Init()
    {
      process, children, call, log := None, [], Idle, [];
    }

    method EnsureRunning() returns (g: nat)
      requires Inv(View())
      modifies this
      ensures View() == EnsureProcess(old(View())) && process == Some(g)
    {
      if process.Some? && children[process.value].alive { return process.value; }
      g := |children|;
      children := children + [NewChild()];
      process := Some(g);
    }

    method StopLocked()
      modifies this
      ensures View() == old(View()).(process := None)
    {
      process := None;
    }

    method BeginDecrypt(r: Request)
      requires Inv(View()) && call.Idle?
      modifies this
      ensures View() == Step(old(View()), Begin(r))
    {
      var _ := EnsureRunning();
      call := Writing(r);
    }

    /** From the written request to the end of the call, with `got` the line that arrived in
        time, if any did; `answer` is what the caller sees. */
    method FinishDecrypt(timedOut: bool) returns (answer: Option<Reply>)
      requires Inv(View()) && call.Waiting?
      requires !timedOut ==> children[process.value].queue != []
      modifies this
      ensures View() == Step(old(View()), if timedOut then TimeOut else TakeLine) && Inv(View())
      ensures answer.Some? ==>
        Some(Line(old(call).request, answer.value)) in old(children[process.value].queue)
      ensures (answer.Some? && answer.value.Result?) || process.None?
    {
      StepKeepsInv(View(), if timedOut then TimeOut else TakeLine);
      var r := call.request;
      call := Idle;
      if timedOut {
        log := log + [TimedOut(r)];
        StopLocked();
        return None;
      }
      var g := process.value;
      var c := children[g];
      var got := c.queue[0];
      children := children[g := c.(queue := c.queue[1..])];
      if got.None? {
        log := log + [Stopped(r)];
        StopLocked();
        return None;
      }
      assert Lines(c.queue)[0] == got.value;
      if got.value.origin.id != r.id {
        assert false;
      } else if got.value.reply.Error? {
        log := log + [ReportedError(r, got.value)];
        StopLocked();
      } else {
        log := log + [Returned(r, got.value)];
      }
      answer := Some(got.value.reply);
      assert Some(got.value) in old(children[process.value].queue);
    }
  }

  /** `ProtocolDecryptPool`: the queue of free workers. */
  class DecryptPool {
    const size: nat
    var available: seq<nat>
    ghost var held: map<nat, nat>

    ghost predicate Valid()
      reads this
    {
      Partitioned(size, available, held)
    }

    constructor (wanted: int)
      ensures Valid() && held == map[] && size == (if wanted < 1 then 1 else wanted)
      ensures available == NewPool(wanted).available
    {
      var n := if wanted < 1 then 1 else wanted;
      size := n;
      available := seq(n, i => i);
      held := map[];
      new;
      forall w: nat | w < n ensures w in available { assert available[w] == w; }
    }

    method Take(ghost caller: nat) returns (worker: nat)
      requires Valid() && available != [] && caller !in held
      modifies this
      ensures Valid() && worker == old(available[0]) && worker < size
      ensures available == old(available[1..]) && held == old(held)[caller := worker]
      ensures worker !in old(held).Values
    {
      AcquireKeepsPartition(size, available, held, caller);
      worker := available[0];
      available := available[1..];
      held := held[caller := worker];
    }

    method Put(ghost caller: nat, worker: nat)
      requires Valid() && caller in held && held[caller] == worker
      modifies this
      ensures Valid() && available == old(available) + [worker] && held == old(held) - {caller}
    {
      GiveBackKeepsPartition(size, available, held, caller);
      available := available + [worker];
      held := held - {caller};
    }
  }
}
