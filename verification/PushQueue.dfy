/** The push side of an IM session: a bounded queue that drops its oldest frame when full,
    four workers, and the drain at the end of a connection. */
module PushQueue {

  const MAX_SIZE: nat := 1000
  const WORKER_COUNT: nat := 4

  /** What became of a frame that left the queue. */
  datatype Fate = Taken | Dropped | Drained

  datatype Worker = Idle | Holding(index: nat)

  /** `arrived` and `fates` are history: every frame ever enqueued, and the fate of each
      frame that left, both in order of arrival. */
  datatype Push<!F> = Push(
    queue: seq<F>,
    running: bool,
    workers: seq<Worker>,
    inflight: int,
    dropped: nat,
    connectionBase: nat,
    arrived: seq<F>,
    fates: seq<Fate>,
    inline: nat
  )

  datatype Event<F> =
    | Open
    | Arrive(frame: F)
    | Take(worker: nat)
    | Complete(worker: nat)
    | StopWorkers
    | Cleanup

  function Init<F>(): Push<F> {
    Push([], false, [], 0, 0, 0, [], [], 0)
  }

  function Enqueue<F>(p: Push<F>, frame: F): Push<F> {
    p.(queue := p.queue + [frame], arrived := p.arrived + [frame])
  }

  /** Remove the oldest frame, recording why. */
  function Pop<F>(p: Push<F>, fate: Fate): Push<F>
    requires p.queue != []
  {
    p.(queue := p.queue[1..], fates := p.fates + [fate])
  }

  function DropOldest<F>(p: Push<F>): Push<F>
    requires p.queue != []
  {
    Pop(p, Dropped).(dropped := p.dropped + 1)
  }

  function Handle<F>(p: Push<F>, frame: F): Push<F> {
    if !p.running then p.(inline := p.inline + 1)
    else if |p.queue| >= MAX_SIZE then Enqueue(DropOldest(p), frame)
    else Enqueue(p, frame)
  }

  function TakeFrame<F>(p: Push<F>, w: nat): Push<F>
    requires w < |p.workers| && p.queue != []
  {
    Pop(p, Taken).(inflight := p.inflight + 1, workers := p.workers[w := Holding(|p.fates|)])
  }

  function CompleteFrame<F>(p: Push<F>, w: nat): Push<F>
    requires w < |p.workers|
  {
    p.(inflight := if p.inflight - 1 < 0 then 0 else p.inflight - 1, workers := p.workers[w := Idle])
  }

  function Repeat(fate: Fate, n: nat): (r: seq<Fate>)
    ensures |r| == n && forall i :: 0 <= i < n ==> r[i] == fate
  {
    if n == 0 then [] else [fate] + Repeat(fate, n - 1)
  }

  function DrainAll<F>(p: Push<F>): Push<F> {
    p.(queue := [], fates := p.fates + Repeat(Drained, |p.queue|))
  }

  predicate AllIdle(workers: seq<Worker>) {
    forall w :: 0 <= w < |workers| ==> workers[w].Idle?
  }

  function Step<F>(p: Push<F>, e: Event<F>): Push<F> {
    match e
    case Open =>
      if p.running || p.workers != [] || p.queue != [] then p
      else p.(running := true, workers := [Idle, Idle, Idle, Idle], connectionBase := |p.arrived|)
    case Arrive(frame) => Handle(p, frame)
    case Take(w) => if w < |p.workers| && p.workers[w].Idle? && p.running && p.queue != [] then TakeFrame(p, w) else p
    case Complete(w) => if w < |p.workers| && p.workers[w].Holding? then CompleteFrame(p, w) else p
    case StopWorkers => if AllIdle(p.workers) then p.(running := false, workers := []) else p
    case Cleanup => if p.running || p.workers != [] then p else DrainAll(p)
  }

  function Run<F>(p: Push<F>, events: seq<Event<F>>): Push<F>
    decreases |events|
  {
    if events == [] then p else Run(Step(p, events[0]), events[1..])
  }

  // ----- accounts -----

  ghost function Count(fates: seq<Fate>, fate: Fate): nat {
    if fates == [] then 0 else Count(fates[..|fates| - 1], fate) + if fates[|fates| - 1] == fate then 1 else 0
  }

  ghost function Busy(workers: seq<Worker>): nat {
    if workers == [] then 0 else Busy(workers[..|workers| - 1]) + if workers[|workers| - 1].Holding? then 1 else 0
  }

  lemma {:induction false} BusyUpdate(workers: seq<Worker>, w: nat, x: Worker)
    requires w < |workers|
    ensures Busy(workers[w := x]) ==
            Busy(workers) - (if workers[w].Holding? then 1 else 0) + (if x.Holding? then 1 else 0)
  {
    var n := |workers| - 1;
    if w == n {
      assert workers[w := x][..n] == workers[..n];
    } else {
      assert workers[w := x][..n] == workers[..n][w := x];
      BusyUpdate(workers[..n], w, x);
    }
  }

  lemma {:induction false} BusyBound(workers: seq<Worker>)
    ensures Busy(workers) <= |workers|
    ensures AllIdle(workers) ==> Busy(workers) == 0
  {
    if workers != [] { BusyBound(workers[..|workers| - 1]); }
  }

  lemma {:induction false} CountTotal(fates: seq<Fate>)
    ensures Count(fates, Taken) + Count(fates, Dropped) + Count(fates, Drained) == |fates|
  {
    if fates != [] { CountTotal(fates[..|fates| - 1]); }
  }

  lemma {:induction false} CountRepeat(fates: seq<Fate>, n: nat)
    ensures Count(fates + Repeat(Drained, n), Dropped) == Count(fates, Dropped)
  {
    var all := fates + Repeat(Drained, n);
    if n == 0 {
      assert all == fates;
    } else {
      assert all[..|all| - 1] == fates + Repeat(Drained, n - 1);
      CountRepeat(fates, n - 1);
    }
  }

  lemma CountAppend(fates: seq<Fate>, fate: Fate, which: Fate)
    ensures Count(fates + [fate], which) == Count(fates, which) + if fate == which then 1 else 0
  {
    assert (fates + [fate])[..|fates|] == fates;
  }

  // ----- the invariant -----

  /** No frame is held by two workers, and a held frame was taken from the queue. */
  ghost predicate HoldersOk(workers: seq<Worker>, fates: seq<Fate>) {
    && (forall w :: 0 <= w < |workers| && workers[w].Holding? ==>
          workers[w].index < |fates| && fates[workers[w].index] == Taken)
    && (forall v, w :: 0 <= v < w < |workers| && workers[v].Holding? && workers[w].Holding? ==>
          workers[v].index != workers[w].index)
  }

  ghost predicate Inv<F>(p: Push<F>) {
    && |p.queue| <= MAX_SIZE
    && |p.arrived| == |p.fates| + |p.queue| && p.queue == p.arrived[|p.fates|..]
    && (p.queue != [] ==> p.connectionBase <= |p.fates|)
    && p.dropped == Count(p.fates, Dropped)
    && p.inflight == Busy(p.workers)
    && (|p.workers| == WORKER_COUNT || p.workers == []) && (p.running ==> |p.workers| == WORKER_COUNT)
    && (p.running ==> p.connectionBase <= |p.fates|)
    && HoldersOk(p.workers, p.fates)
  }

  lemma PopKeepsInv<F>(p: Push<F>, fate: Fate)
    requires Inv(p) && p.queue != [] && !fate.Dropped?
    ensures Inv(Pop(p, fate))
  {
    CountAppend(p.fates, fate, Dropped);
  }

  lemma HandleKeepsInv<F>(p: Push<F>, frame: F)
    requires Inv(p)
    ensures Inv(Handle(p, frame))
  {
    CountAppend(p.fates, Dropped, Dropped);
  }

  lemma TakeKeepsInv<F>(p: Push<F>, w: nat)
    requires Inv(p) && w < |p.workers| && p.workers[w].Idle? && p.queue != []
    ensures Inv(TakeFrame(p, w))
  {
    PopKeepsInv(p, Taken);
    BusyUpdate(p.workers, w, Holding(|p.fates|));
  }

  lemma CompleteKeepsInv<F>(p: Push<F>, w: nat)
    requires Inv(p) && w < |p.workers| && p.workers[w].Holding?
    ensures Inv(CompleteFrame(p, w)) && CompleteFrame(p, w).inflight == p.inflight - 1
  {
    BusyUpdate(p.workers, w, Idle);
  }

  lemma DrainKeepsInv<F>(p: Push<F>)
    requires Inv(p)
    ensures Inv(DrainAll(p))
  {
    CountRepeat(p.fates, |p.queue|);
  }

  lemma StepKeepsInv<F>(p: Push<F>, e: Event<F>)
    requires Inv(p)
    ensures Inv(Step(p, e))
  {
    match e {
      case Open => BusyBound([Idle, Idle, Idle, Idle]);
      case Arrive(frame) => HandleKeepsInv(p, frame);
      case Take(w) => if w < |p.workers| && p.workers[w].Idle? && p.queue != [] { TakeKeepsInv(p, w); }
      case Complete(w) => if w < |p.workers| && p.workers[w].Holding? { CompleteKeepsInv(p, w); }
      case StopWorkers => BusyBound(p.workers);
      case Cleanup => DrainKeepsInv(p);
    }
  }

  lemma {:induction false} RunKeepsInv<F>(p: Push<F>, events: seq<Event<F>>)
    requires Inv(p)
    ensures Inv(Run(p, events))
    decreases |events|
  {
    if events != [] {
      StepKeepsInv(p, events[0]);
      RunKeepsInv(Step(p, events[0]), events[1..]);
    }
  }

  /** Over every run: the queue never exceeds its bound; it is the unbroken run of the most
      recently enqueued frames, all of this connection; every enqueued frame is queued or
      has exactly one fate, in order of arrival; the in-flight count is the number of
      workers holding a frame, at most four, and no two hold the same one. */
  lemma QueueIsRecentSuffix<F>(events: seq<Event<F>>)
    ensures
      var p := Run(Init<F>(), events);
      && |p.queue| <= 1000
      && |p.arrived| == |p.fates| + |p.queue| && p.queue == p.arrived[|p.fates|..]
      && (p.queue != [] ==> p.connectionBase <= |p.fates|)
      && |p.arrived| == Count(p.fates, Taken) + p.dropped + Count(p.fates, Drained) + |p.queue|
      && p.inflight == Busy(p.workers) <= 4
      && HoldersOk(p.workers, p.fates)
  {
    var p := Run(Init<F>(), events);
    RunKeepsInv(Init<F>(), events);
    CountTotal(p.fates);
    BusyBound(p.workers);
  }

  /** What becomes of an arriving frame: handled at once without workers, appended when there is
      room, and otherwise appended in place of the oldest. */
  lemma ArrivalMeans<F>(p: Push<F>, frame: F)
    ensures
      var t := Step(p, Arrive(frame));
      && (!p.running ==> t == p.(inline := p.inline + 1))
      && (p.running ==> t.arrived == p.arrived + [frame] && t.inline == p.inline && t.inflight == p.inflight)
      && (p.running && |p.queue| < 1000 ==> t.queue == p.queue + [frame] && t.dropped == p.dropped && t.fates == p.fates)
      && (p.running && |p.queue| >= 1000 ==>
            && t.queue == p.queue[1..] + [frame] && t.dropped == p.dropped + 1 && t.fates == p.fates + [Dropped])
  {
  }

  /** A connection from its start to its end: four idle workers, and after they stopped nothing is
      left in the queue, so that the next connection can start. */
  lemma ConnectionCycle<F>(p: Push<F>)
    ensures
      var t := Step(p, Open);
      !p.running && p.workers == [] && p.queue == [] ==>
        t.running && |t.workers| == 4 && AllIdle(t.workers) && t.queue == []
    ensures
      var t := Step(Step(p, StopWorkers), Cleanup);
      (forall w :: 0 <= w < |p.workers| ==> p.workers[w] == Idle) ==>
        && !t.running && t.workers == [] && t.queue == [] && t.dropped == p.dropped && t.inflight == p.inflight
        && |t.fates| == |p.fates| + |p.queue| && p.fates <= t.fates
        && (forall i :: |p.fates| <= i < |t.fates| ==> t.fates[i] == Drained)
    ensures
      (p.running || p.workers != []) ==> Step(p, Cleanup) == p
  {
  }

  /** A worker of a running connection takes the oldest frame and lets it go. */
  lemma WorkerCycle<F>(p: Push<F>, w: nat)
    requires w < |p.workers| && p.workers[w].Idle? && p.running && p.queue != [] && p.inflight >= 0
    ensures
      var t := Step(p, Take(w));
      && t.queue == p.queue[1..] && t.fates == p.fates + [Taken] && t.workers == p.workers[w := Holding(|p.fates|)]
      && Step(t, Complete(w)) == t.(workers := p.workers, inflight := p.inflight)
  {
    assert p.workers[w := Holding(|p.fates|)][w := Idle] == p.workers;
  }

  /** Over every run the clamp on the in-flight counter never changes a value. */
  lemma ClampNeverFires<F>(events: seq<Event<F>>, w: nat)
    requires
      var p := Run(Init<F>(), events);
      w < |p.workers| && p.workers[w].Holding?
    ensures
      var p := Run(Init<F>(), events);
      p.inflight >= 1 && Step(p, Complete(w)).inflight == p.inflight - 1
  {
    RunKeepsInv(Init<F>(), events);
    CompleteKeepsInv(Run(Init<F>(), events), w);
    StepKeepsInv(Run(Init<F>(), events), Complete(w));
    BusyBound(Step(Run(Init<F>(), events), Complete(w)).workers);
  }

  /** The session's queue fields. */
  class PushSide<F> {
    var queue: seq<F>
    var running: bool
    var inflight: int
    var dropped: nat
    var inline: nat
    ghost var workers: seq<Worker>
    ghost var connectionBase: nat
    ghost var arrived: seq<F>
    ghost var fates: seq<Fate>

    ghost function View(): Push<F>
      reads this
    {
      Push(queue, running, workers, inflight, dropped, connectionBase, arrived, fates, inline)
    }

    constructor ()
      ensures View() == Init<F>() && Inv(View())
    {
      queue, running, workers, inflight, dropped, inline := [], false, [], 0, 0, 0;
      connectionBase, arrived, fates := 0, [], [];
    }

    /** `asyncio.Queue.put_nowait`, which raises on a full queue. */
    method PutNowait(frame: F)
      requires |queue| < MAX_SIZE
      modifies this
      ensures View() == Enqueue(old(View()), frame)
    {
      queue := queue + [frame];
      arrived := arrived + [frame];
    }

    /** The tail of `_handle_raw_message`. */
    method HandlePush(frame: F)
      requires Inv(View())
      modifies this
      ensures View() == Step(old(View()), Arrive(frame)) && Inv(View())
    {
      HandleKeepsInv(View(), frame);
      if !running {
        inline := inline + 1;
        return;
      }
      if |queue| >= MAX_SIZE {
        queue := queue[1..];
        fates := fates + [Dropped];
        dropped := dropped + 1;
        assert View() == DropOldest(old(View()));
      }
      ghost var ready := View();
      PutNowait(frame);
      assert View() == Enqueue(ready, frame);
    }

    /** A worker's `get` and the increment that follows it. */
    method WorkerTakes(ghost w: nat) returns (frame: F)
      requires Inv(View()) && running && w < |workers| && workers[w].Idle? && queue != []
      modifies this
      ensures View() == Step(old(View()), Take(w)) && Inv(View())
      ensures workers[w].Holding? && workers[w].index < |arrived| && frame == arrived[workers[w].index]
    {
      TakeKeepsInv(View(), w);
      frame := queue[0];
      workers := workers[w := Holding(|fates|)];
      queue := queue[1..];
      fates := fates + [Taken];
      inflight := inflight + 1;
    }

    /** A worker's `finally`. */
    method WorkerFinishes(ghost w: nat)
      requires Inv(View()) && w < |workers| && workers[w].Holding?
      modifies this
      ensures View() == Step(old(View()), Complete(w)) && Inv(View())
      ensures inflight == old(inflight) - 1
    {
      CompleteKeepsInv(View(), w);
      workers := workers[w := Idle];
      inflight := if inflight - 1 < 0 then 0 else inflight - 1;
    }

    /** The drain loop of `_cleanup_connection`. */
    method Drain()
      requires Inv(View()) && !running && workers == []
      modifies this
      ensures View() == Step(old(View()), Cleanup) && Inv(View())
    {
      DrainKeepsInv(View());
      ghost var n := 0;
      while queue != []
        invariant n + |queue| == |old(queue)|
        invariant View() == old(View()).(queue := queue, fates := old(fates) + Repeat(Drained, n))
      {
        queue := queue[1..];
        RepeatSnoc(Drained, n);
        fates := fates + [Drained];
        n := n + 1;
      }
    }
  }

  lemma {:induction false} RepeatSnoc(fate: Fate, n: nat)
    ensures Repeat(fate, n) + [fate] == Repeat(fate, n + 1)
  {
    if n > 0 { RepeatSnoc(fate, n - 1); }
  }
}
