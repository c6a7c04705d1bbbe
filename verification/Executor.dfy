/** The bounded executor: admission under a lock, a thread pool, and callers that wait for
    their callable even when they are cancelled. Threads, the event loop and the callers
    interleave freely; a run is any list of events. */
module Executor {

  /** Life of one admitted call's future and thread. */
  datatype Phase =
    | Admitted        // slot taken, not yet handed to the pool
    | SubmitFailed    // the pool refused it
    | Pending         // in the pool's queue
    | Picked          // a thread took it, `invoke` has not started counting
    | Active          // inside the callable
    | Ended           // callable over, future not yet resolved
    | Finished        // future resolved
    | Cancelled       // future cancelled while pending

  datatype Caller =
    | Submitting
    | Awaiting
    | Draining        // cancelled once, still waiting
    | Left

  datatype Job = Job(phase: Phase, caller: Caller, slot: bool, releases: nat, cancels: nat, failed: bool)

  datatype Pool = Pool(
    maxWorkers: nat,
    capacity: nat,
    closed: bool,
    queued: int,
    active: int,
    submitted: int,
    completed: int,
    failures: int,
    rejected: int,
    jobs: seq<Job>
  )

  datatype Event =
    | Admit
    | Submit(job: nat)
    | PickUp(job: nat)
    | InvokeStart(job: nat)
    | InvokeEnd(job: nat, failed: bool)
    | Resolve(job: nat)
    | Shutdown
    | ReleaseCancelled(job: nat)
    | CancelCaller(job: nat)
    | WakeCaller(job: nat)

  function Max(a: int, b: int): int { if a < b then b else a }

  function Init(maxWorkers: int, maxQueue: int): Pool {
    Pool(Max(1, maxWorkers), Max(1, maxWorkers) + Max(0, maxQueue), false, 0, 0, 0, 0, 0, 0, [])
  }

  predicate Busy(p: Phase) { p.Picked? || p.Active? || p.Ended? }

  predicate FutureDone(p: Phase) { p.Finished? || p.Cancelled? || p.SubmitFailed? }

  function Sum(jobs: seq<Job>, weight: Job -> nat): nat {
    if jobs == [] then 0 else weight(jobs[0]) + Sum(jobs[1..], weight)
  }

  function HoldsSlot(j: Job): nat { if j.slot then 1 else 0 }
  function IsActive(j: Job): nat { if j.phase.Active? then 1 else 0 }
  function OnThread(j: Job): nat { if Busy(j.phase) then 1 else 0 }
  function IsComplete(j: Job): nat { if j.phase.Ended? || j.phase.Finished? then 1 else 0 }
  function IsFailure(j: Job): nat { if (j.phase.Ended? || j.phase.Finished?) && j.failed then 1 else 0 }
  function Unrun(j: Job): nat { if !j.slot && (j.phase.SubmitFailed? || j.phase.Cancelled?) then 1 else 0 }

  /** Give the queue slot back unless that already happened. */
  function Released(p: Pool, i: nat): Pool
    requires i < |p.jobs|
  {
    var j := p.jobs[i];
    if j.slot then p.(queued := p.queued - 1, jobs := p.jobs[i := j.(slot := false, releases := j.releases + 1)]) else p
  }

  function WithPhase(p: Pool, i: nat, phase: Phase): Pool
    requires i < |p.jobs|
  {
    p.(jobs := p.jobs[i := p.jobs[i].(phase := phase)])
  }

  function WithCaller(p: Pool, i: nat, caller: Caller): Pool
    requires i < |p.jobs|
  {
    p.(jobs := p.jobs[i := p.jobs[i].(caller := caller)])
  }

  function AdmitJob(p: Pool): Pool {
    if p.queued + p.active >= p.capacity then p.(rejected := p.rejected + 1)
    else p.(queued := p.queued + 1, submitted := p.submitted + 1,
            jobs := p.jobs + [Job(Admitted, Submitting, true, 0, 0, false)])
  }

  function SubmitJob(p: Pool, i: nat): Pool
    requires i < |p.jobs|
  {
    if p.closed then Released(WithCaller(WithPhase(p, i, SubmitFailed), i, Left), i)
    else WithCaller(WithPhase(p, i, Pending), i, Awaiting)
  }

  function StartJob(p: Pool, i: nat): Pool
    requires i < |p.jobs|
  {
    var r := Released(WithPhase(p, i, Active), i);
    r.(active := r.active + 1)
  }

  function EndJob(p: Pool, i: nat, failed: bool): Pool
    requires i < |p.jobs|
  {
    p.(active := p.active - 1, completed := p.completed + 1, failures := p.failures + (if failed then 1 else 0),
       jobs := p.jobs[i := p.jobs[i].(phase := Ended, failed := failed)])
  }

  /** Pending futures are cancelled; running ones are left to finish. */
  function CancelPending(jobs: seq<Job>): (r: seq<Job>)
    ensures |r| == |jobs|
    ensures forall i :: 0 <= i < |jobs| ==>
      r[i] == if jobs[i].phase.Pending? then jobs[i].(phase := Cancelled) else jobs[i]
  {
    if jobs == [] then []
    else [if jobs[0].phase.Pending? then jobs[0].(phase := Cancelled) else jobs[0]] + CancelPending(jobs[1..])
  }

  /** A second cancellation while draining leaves at once. */
  function CancelJobCaller(p: Pool, i: nat): Pool
    requires i < |p.jobs|
  {
    var j := p.jobs[i];
    p.(jobs := p.jobs[i := j.(cancels := j.cancels + 1, caller := if j.caller.Awaiting? then Draining else Left)])
  }

  function Step(p: Pool, e: Event): Pool {
    match e
    case Admit => AdmitJob(p)
    case Shutdown => p.(closed := true, jobs := CancelPending(p.jobs))
    case _ => if e.job < |p.jobs| then JobStep(p, e) else p
  }

  function JobStep(p: Pool, e: Event): Pool
    requires !e.Admit? && !e.Shutdown? && e.job < |p.jobs|
  {
    var i := e.job;
    var j := p.jobs[i];
    match e
    case Submit(_) => if j.phase.Admitted? then SubmitJob(p, i) else p
    case PickUp(_) =>
      if j.phase.Pending? && Sum(p.jobs, OnThread) < p.maxWorkers then WithPhase(p, i, Picked) else p
    case InvokeStart(_) => if j.phase.Picked? then StartJob(p, i) else p
    case InvokeEnd(_, failed) => if j.phase.Active? then EndJob(p, i, failed) else p
    case Resolve(_) => if j.phase.Ended? then WithPhase(p, i, Finished) else p
    case ReleaseCancelled(_) => if j.phase.Cancelled? then Released(p, i) else p
    case CancelCaller(_) => if j.caller.Awaiting? || j.caller.Draining? then CancelJobCaller(p, i) else p
    case WakeCaller(_) =>
      if (j.caller.Awaiting? || j.caller.Draining?) && FutureDone(j.phase) then WithCaller(p, i, Left) else p
  }

  function Run(p: Pool, events: seq<Event>): Pool
    decreases |events|
  {
    if events == [] then p else Run(Step(p, events[0]), events[1..])
  }

  // ----- counting -----

  lemma {:induction false} SumAppend(jobs: seq<Job>, j: Job, weight: Job -> nat)
    ensures Sum(jobs + [j], weight) == Sum(jobs, weight) + weight(j)
  {
    if jobs == [] {
      assert (jobs + [j])[1..] == [];
    } else {
      assert (jobs + [j])[1..] == jobs[1..] + [j];
      SumAppend(jobs[1..], j, weight);
    }
  }

  lemma {:induction false} SumUpdate(jobs: seq<Job>, i: nat, j: Job, weight: Job -> nat)
    requires i < |jobs|
    ensures Sum(jobs[i := j], weight) == Sum(jobs, weight) - weight(jobs[i]) + weight(j)
  {
    if i == 0 {
      assert jobs[i := j][1..] == jobs[1..];
    } else {
      assert jobs[i := j][1..] == jobs[1..][i - 1 := j];
      SumUpdate(jobs[1..], i - 1, j, weight);
    }
  }

  lemma {:induction false} SumBounds(jobs: seq<Job>, lo: Job -> nat, hi: Job -> nat)
    requires forall j :: j in jobs ==> lo(j) <= hi(j)
    ensures Sum(jobs, lo) <= Sum(jobs, hi)
  {
    if jobs != [] {
      assert jobs[0] in jobs;
      assert forall j :: j in jobs[1..] ==> j in jobs;
      SumBounds(jobs[1..], lo, hi);
    }
  }

  lemma {:induction false} SumUnchanged(jobs: seq<Job>, after: seq<Job>, weight: Job -> nat)
    requires |after| == |jobs| && forall i :: 0 <= i < |jobs| ==> weight(after[i]) == weight(jobs[i])
    ensures Sum(after, weight) == Sum(jobs, weight)
  {
    if jobs != [] {
      assert weight(after[0]) == weight(jobs[0]);
      SumUnchanged(jobs[1..], after[1..], weight);
    }
  }

  /** Every admitted call is in exactly one of the four accounts. */
  lemma {:induction false} Partition(jobs: seq<Job>)
    requires forall j :: j in jobs ==> JobOk(j)
    ensures |jobs| == Sum(jobs, HoldsSlot) + Sum(jobs, IsActive) + Sum(jobs, IsComplete) + Sum(jobs, Unrun)
  {
    if jobs != [] {
      assert JobOk(jobs[0]);
      Partition(jobs[1..]);
    }
  }

  // ----- the invariant -----

  /** The slot is held exactly until the call starts or is known never to run, and was
      given back once when it is not held. */
  ghost predicate JobOk(j: Job) {
    && (j.slot <==> j.releases == 0) && j.releases <= 1
    && (j.phase.Admitted? || j.phase.Pending? || j.phase.Picked? ==> j.slot)
    && (j.phase.Active? || j.phase.Ended? || j.phase.Finished? || j.phase.SubmitFailed? ==> !j.slot)
    && (j.phase.Admitted? <==> j.caller.Submitting?)
    && (j.caller.Submitting? || j.caller.Awaiting? ==> j.cancels == 0)
    && (j.caller.Draining? ==> j.cancels == 1)
    && (j.caller.Left? && j.cancels <= 1 ==> FutureDone(j.phase))
  }

  ghost predicate Counts(p: Pool) {
    && p.queued == Sum(p.jobs, HoldsSlot)
    && p.active == Sum(p.jobs, IsActive)
    && p.completed == Sum(p.jobs, IsComplete)
    && p.failures == Sum(p.jobs, IsFailure)
    && p.submitted == |p.jobs|
  }

  ghost predicate Inv(p: Pool) {
    && Counts(p)
    && Sum(p.jobs, OnThread) <= p.maxWorkers
    && p.queued + p.active <= p.capacity
    && forall j :: j in p.jobs ==> JobOk(j)
  }

  /** Replacing one job moves every sum by that job's own change. */
  lemma Replace(p: Pool, q: Pool, i: nat)
    requires i < |p.jobs| && |q.jobs| == |p.jobs| && q.jobs == p.jobs[i := q.jobs[i]]
    requires (forall j :: j in p.jobs ==> JobOk(j)) && JobOk(q.jobs[i])
    ensures forall j :: j in q.jobs ==> JobOk(j)
    ensures Sum(q.jobs, HoldsSlot) == Sum(p.jobs, HoldsSlot) - HoldsSlot(p.jobs[i]) + HoldsSlot(q.jobs[i])
    ensures Sum(q.jobs, IsActive) == Sum(p.jobs, IsActive) - IsActive(p.jobs[i]) + IsActive(q.jobs[i])
    ensures Sum(q.jobs, IsComplete) == Sum(p.jobs, IsComplete) - IsComplete(p.jobs[i]) + IsComplete(q.jobs[i])
    ensures Sum(q.jobs, IsFailure) == Sum(p.jobs, IsFailure) - IsFailure(p.jobs[i]) + IsFailure(q.jobs[i])
    ensures Sum(q.jobs, OnThread) == Sum(p.jobs, OnThread) - OnThread(p.jobs[i]) + OnThread(q.jobs[i])
  {
    SumUpdate(p.jobs, i, q.jobs[i], HoldsSlot);
    SumUpdate(p.jobs, i, q.jobs[i], IsActive);
    SumUpdate(p.jobs, i, q.jobs[i], IsComplete);
    SumUpdate(p.jobs, i, q.jobs[i], IsFailure);
    SumUpdate(p.jobs, i, q.jobs[i], OnThread);
  }

  lemma AdmitKeepsInv(p: Pool)
    requires Inv(p)
    ensures Inv(AdmitJob(p))
  {
    var j := Job(Admitted, Submitting, true, 0, 0, false);
    SumAppend(p.jobs, j, HoldsSlot);
    SumAppend(p.jobs, j, IsActive);
    SumAppend(p.jobs, j, IsComplete);
    SumAppend(p.jobs, j, IsFailure);
    SumAppend(p.jobs, j, OnThread);
  }

  lemma ShutdownKeepsInv(p: Pool)
    requires Inv(p)
    ensures Inv(Step(p, Shutdown))
  {
    var after := CancelPending(p.jobs);
    SumUnchanged(p.jobs, after, HoldsSlot);
    SumUnchanged(p.jobs, after, IsActive);
    SumUnchanged(p.jobs, after, IsComplete);
    SumUnchanged(p.jobs, after, IsFailure);
    SumUnchanged(p.jobs, after, OnThread);
    forall j | j in after ensures JobOk(j) {
      var i :| 0 <= i < |after| && after[i] == j;
      assert p.jobs[i] in p.jobs;
    }
  }

  /** A step of one job changes that job only. */
  lemma JobStepShape(p: Pool, e: Event)
    requires !e.Admit? && !e.Shutdown? && e.job < |p.jobs|
    ensures
      var q := JobStep(p, e);
      && |q.jobs| == |p.jobs| && q.jobs == p.jobs[e.job := q.jobs[e.job]]
      && q.maxWorkers == p.maxWorkers && q.capacity == p.capacity && q.submitted == p.submitted
  {
  }

  lemma JobStaysSound(p: Pool, e: Event)
    requires !e.Admit? && !e.Shutdown? && e.job < |p.jobs| && JobOk(p.jobs[e.job])
    ensures JobOk(JobStep(p, e).jobs[e.job])
  {
  }

  /** The counters move exactly as the job's own accounts do. */
  lemma JobStepCounts(p: Pool, e: Event)
    requires !e.Admit? && !e.Shutdown? && e.job < |p.jobs| && JobOk(p.jobs[e.job])
    ensures
      var q := JobStep(p, e);
      var a, b := p.jobs[e.job], q.jobs[e.job];
      && q.queued == p.queued - HoldsSlot(a) + HoldsSlot(b)
      && q.active == p.active - IsActive(a) + IsActive(b)
      && q.completed == p.completed - IsComplete(a) + IsComplete(b)
      && q.failures == p.failures - IsFailure(a) + IsFailure(b)
      && HoldsSlot(b) + IsActive(b) <= HoldsSlot(a) + IsActive(a)
      && (OnThread(b) <= OnThread(a) || Sum(p.jobs, OnThread) < p.maxWorkers)
  {
  }

  lemma JobStepKeepsInv(p: Pool, e: Event)
    requires Inv(p) && !e.Admit? && !e.Shutdown? && e.job < |p.jobs|
    ensures Inv(JobStep(p, e))
  {
    assert p.jobs[e.job] in p.jobs;
    JobStepShape(p, e);
    JobStaysSound(p, e);
    JobStepCounts(p, e);
    Replace(p, JobStep(p, e), e.job);
  }

  lemma {:induction false} RunKeepsInv(p: Pool, events: seq<Event>)
    requires Inv(p)
    ensures Inv(Run(p, events))
    decreases |events|
  {
    if events != [] {
      match events[0] {
        case Admit => AdmitKeepsInv(p);
        case Shutdown => ShutdownKeepsInv(p);
        case e => if e.job < |p.jobs| { JobStepKeepsInv(p, e); }
      }
      RunKeepsInv(Step(p, events[0]), events[1..]);
    }
  }

  // ----- the theorems -----

  /** How often admission was asked for. */
  ghost function Requests(events: seq<Event>): nat
    decreases |events|
  {
    if events == [] then 0 else (if events[0].Admit? then 1 else 0) + Requests(events[1..])
  }

  lemma {:induction false} RequestsAreCounted(p: Pool, events: seq<Event>)
    requires p.submitted == |p.jobs|
    ensures
      var t := Run(p, events);
      t.submitted == |t.jobs| && t.submitted + t.rejected == p.submitted + p.rejected + Requests(events)
    decreases |events|
  {
    if events != [] { RequestsAreCounted(Step(p, events[0]), events[1..]); }
  }

  /** A closed pool. */
  ghost predicate Shut(p: Pool) {
    p.closed && forall i :: 0 <= i < |p.jobs| ==> !p.jobs[i].phase.Pending?
  }

  lemma {:induction false} ShutStays(p: Pool, events: seq<Event>)
    requires Shut(p)
    ensures Shut(Run(p, events))
    decreases |events|
  {
    if events != [] { ShutStays(Step(p, events[0]), events[1..]); }
  }

  /** After a shutdown, whatever happens, no callable waits in the pool, and one handed to it is
      refused. */
  lemma ShutDownIsFinal(p: Pool, events: seq<Event>, i: nat)
    ensures
      var t := Run(Step(p, Shutdown), events);
      && Shut(t)
      && (i < |t.jobs| && t.jobs[i].phase.Admitted? ==>
            var refused := Step(t, Submit(i)).jobs[i];
            refused.phase == SubmitFailed && refused.caller == Left && !refused.slot)
  {
    ShutStays(Step(p, Shutdown), events);
  }

  /** A call's way through an open pool with room, step by step, up to the caller's return. */
  lemma CallRuns(p: Pool, i: nat, failed: bool)
    requires !p.closed && p.queued + p.active < p.capacity && i == |p.jobs|
    ensures
      var admitted := Step(p, Admit);
      && admitted.jobs == p.jobs + [Job(Admitted, Submitting, true, 0, 0, false)]
      && admitted.queued == p.queued + 1 && admitted.submitted == p.submitted + 1
      && var handed := Step(admitted, Submit(i));
         && handed.jobs[i] == Job(Pending, Awaiting, true, 0, 0, false)
         && (Sum(handed.jobs, OnThread) < p.maxWorkers ==>
               var started := Step(Step(handed, PickUp(i)), InvokeStart(i));
               && started.jobs[i] == Job(Active, Awaiting, false, 1, 0, false)
               && started.queued == p.queued && started.active == p.active + 1
               && var ended := Step(started, InvokeEnd(i, failed));
                  && ended.active == p.active && ended.completed == p.completed + 1
                  && ended.failures == p.failures + (if failed then 1 else 0)
                  && Step(ended, WakeCaller(i)) == ended
                  && Step(Step(ended, Resolve(i)), WakeCaller(i)).jobs[i] == Job(Finished, Left, false, 1, 0, failed))
  {
  }

  /** In every reachable state the counters are exact and bounded. */
  lemma CountersAreExact(maxWorkers: int, maxQueue: int, events: seq<Event>)
    ensures
      var p := Run(Init(maxWorkers, maxQueue), events);
      && p.maxWorkers == (if maxWorkers >= 1 then maxWorkers else 1)
      && p.capacity == p.maxWorkers + (if maxQueue >= 0 then maxQueue else 0)
      && 0 <= p.queued && 0 <= p.active <= p.maxWorkers
      && p.queued + p.active <= p.capacity
      && p.submitted == |p.jobs| && p.submitted + p.rejected == Requests(events)
      && p.submitted == p.queued + p.active + p.completed + Sum(p.jobs, Unrun)
      && p.failures <= p.completed
  {
    var p := Run(Init(maxWorkers, maxQueue), events);
    RunKeepsInv(Init(maxWorkers, maxQueue), events);
    Partition(p.jobs);
    LimitsAreFixed(Init(maxWorkers, maxQueue), events);
    RequestsAreCounted(Init(maxWorkers, maxQueue), events);
    SumBounds(p.jobs, IsActive, OnThread);
    SumBounds(p.jobs, IsFailure, IsComplete);
  }

  lemma {:induction false} LimitsAreFixed(p: Pool, events: seq<Event>)
    ensures Run(p, events).maxWorkers == p.maxWorkers && Run(p, events).capacity == p.capacity
    decreases |events|
  {
    if events != [] { LimitsAreFixed(Step(p, events[0]), events[1..]); }
  }

  /** A call gives its queue slot back at most once, and exactly once when it has run or
      can no longer run and the loop has been told. As long as a call's future is not done, its
      caller is out of `run` if and only if it was cancelled at least twice. */
  lemma SlotsAndCallers(maxWorkers: int, maxQueue: int, events: seq<Event>, i: nat)
    requires i < |Run(Init(maxWorkers, maxQueue), events).jobs|
    ensures
      var j := Run(Init(maxWorkers, maxQueue), events).jobs[i];
      && j.releases <= 1
      && (j.phase.Active? || j.phase.Ended? || j.phase.Finished? || j.phase.SubmitFailed? ==> j.releases == 1)
      && (j.phase.Admitted? || j.phase.Pending? || j.phase.Picked? ==> j.releases == 0)
      && (!FutureDone(j.phase) ==> (j.caller.Left? <==> j.cancels >= 2))
  {
    RunKeepsInv(Init(maxWorkers, maxQueue), events);
    assert Run(Init(maxWorkers, maxQueue), events).jobs[i] in Run(Init(maxWorkers, maxQueue), events).jobs;
  }

  /** No capacity leaks: when every future is done and every cancellation was reported, the
      pool counts nothing as queued or active and admits again. */
  lemma CapacityIsRecovered(maxWorkers: int, maxQueue: int, events: seq<Event>)
    requires
      var p := Run(Init(maxWorkers, maxQueue), events);
      forall j :: j in p.jobs ==> FutureDone(j.phase) && (j.phase.Cancelled? ==> !j.slot)
    ensures
      var p := Run(Init(maxWorkers, maxQueue), events);
      p.queued == 0 && p.active == 0 && |Step(p, Admit).jobs| == |p.jobs| + 1
  {
    var p := Run(Init(maxWorkers, maxQueue), events);
    RunKeepsInv(Init(maxWorkers, maxQueue), events);
    LimitsAreFixed(Init(maxWorkers, maxQueue), events);
    var zero: Job -> nat := j => 0;
    ZeroSum(p.jobs, zero);
    forall j | j in p.jobs ensures HoldsSlot(j) <= zero(j) && IsActive(j) <= zero(j) { assert JobOk(j); }
    SumBounds(p.jobs, HoldsSlot, zero);
    SumBounds(p.jobs, IsActive, zero);
  }

  lemma {:induction false} ZeroSum(jobs: seq<Job>, zero: Job -> nat)
    requires forall j :: zero(j) == 0
    ensures Sum(jobs, zero) == 0
  {
    if jobs != [] { ZeroSum(jobs[1..], zero); }
  }

  /** A caller cancelled twice may leave while its callable still runs. */
  lemma SecondCancelLeavesEarly() returns (events: seq<Event>)
    ensures
      var p := Run(Init(1, 0), events);
      |p.jobs| == 1 && p.jobs[0].caller.Left? && p.jobs[0].phase.Active?
  {
    var p0 := Init(1, 0);
    var p1 := Step(p0, Admit);
    var p2 := Step(p1, Submit(0));
    assert p2.jobs[1..] == [] && Sum(p2.jobs, OnThread) == 0;
    var p3 := Step(p2, PickUp(0));
    var p4 := Step(p3, InvokeStart(0));
    assert |p4.jobs| == 1 && p4.jobs[0].phase.Active?;
    var p5 := Step(p4, CancelCaller(0));
    var p6 := Step(p5, CancelCaller(0));
    var e6 := [CancelCaller(0)];
    var e5 := [CancelCaller(0)] + e6;
    var e4 := [InvokeStart(0)] + e5;
    var e3 := [PickUp(0)] + e4;
    var e2 := [Submit(0)] + e3;
    events := [Admit] + e2;
    assert e6[1..] == [] && Run(p6, []) == p6;
    assert Run(p5, e6) == p6;
    assert e5[1..] == e6 && Run(p4, e5) == p6;
    assert e4[1..] == e5 && Run(p3, e4) == p6;
    assert e3[1..] == e4 && Run(p2, e3) == p6;
    assert e2[1..] == e3 && Run(p1, e2) == p6;
    assert events[1..] == e2;
  }

  /** The counters as the source keeps them, one method per locked section. */
  class BoundedExecutor {
    const maxWorkers: nat
    const capacity: nat
    var closed: bool
    var queued: int
    var active: int
    var submitted: int
    var completed: int
    var failures: int
    var rejected: int
    var jobs: seq<Job>

    ghost function View(): Pool
      reads this
    {
      Pool(maxWorkers, capacity, closed, queued, active, submitted, completed, failures, rejected, jobs)
    }

    constructor (workers: int, queue: int)
      ensures View() == Init(workers, queue) && Inv(View())
    {
      maxWorkers := Max(1, workers);
      capacity := Max(1, workers) + Max(0, queue);
      closed, queued, active, submitted := false, 0, 0, 0;
      completed, failures, rejected := 0, 0, 0;
      jobs := [];
    }

    /** Entry of `run`; the job's index is its identity from here on. */
    method TryAdmit() returns (admitted: bool, job: nat)
      requires Inv(View())
      modifies this
      ensures View() == Step(old(View()), Admit) && Inv(View())
      ensures admitted <==> old(queued + active < capacity)
      ensures admitted ==> job == |old(jobs)| && |jobs| == job + 1
      ensures !admitted ==> jobs == old(jobs) && rejected == old(rejected) + 1
    {
      AdmitKeepsInv(View());
      job := |jobs|;
      if queued + active >= capacity {
        rejected := rejected + 1;
        return false, job;
      }
      queued := queued + 1;
      submitted := submitted + 1;
      jobs := jobs + [Job(Admitted, Submitting, true, 0, 0, false)];
      admitted := true;
    }

    method ReleaseSlot(job: nat)
      requires job < |jobs|
      modifies this
      ensures View() == Released(old(View()), job)
    {
      if jobs[job].slot {
        queued := queued - 1;
        jobs := jobs[job := jobs[job].(slot := false, releases := jobs[job].releases + 1)];
      }
    }

    /** First locked section of `invoke`. */
    method InvokeBegin(job: nat)
      requires Inv(View()) && job < |jobs| && jobs[job].phase.Picked?
      modifies this
      ensures View() == Step(old(View()), InvokeStart(job)) && Inv(View())
      ensures active == old(active) + 1 && queued == old(queued) - 1
    {
      JobStepKeepsInv(View(), InvokeStart(job));
      assert jobs[job] in jobs;
      jobs := jobs[job := jobs[job].(phase := Active)];
      ReleaseSlot(job);
      active := active + 1;
    }

    /** The `finally` section of `invoke`. */
    method InvokeFinally(job: nat, failed: bool)
      requires Inv(View()) && job < |jobs| && jobs[job].phase.Active?
      modifies this
      ensures View() == Step(old(View()), InvokeEnd(job, failed)) && Inv(View())
    {
      JobStepKeepsInv(View(), InvokeEnd(job, failed));
      active := active - 1;
      completed := completed + 1;
      failures := failures + (if failed then 1 else 0);
      jobs := jobs[job := jobs[job].(phase := Ended, failed := failed)];
    }

    /** Hand the job to the pool; a closed pool refuses and the slot goes back. */
    method SubmitToPool(job: nat) returns (accepted: bool)
      requires Inv(View()) && job < |jobs| && jobs[job].phase.Admitted?
      modifies this
      ensures View() == Step(old(View()), Submit(job)) && Inv(View())
      ensures accepted <==> !old(closed)
    {
      JobStepKeepsInv(View(), Submit(job));
      if closed {
        jobs := jobs[job := jobs[job].(phase := SubmitFailed)];
        jobs := jobs[job := jobs[job].(caller := Left)];
        ReleaseSlot(job);
        return false;
      }
      jobs := jobs[job := jobs[job].(phase := Pending)];
      jobs := jobs[job := jobs[job].(caller := Awaiting)];
      accepted := true;
    }

    /** `shutdown`: no further submission, pending futures cancelled. */
    method ShutDown()
      requires Inv(View())
      modifies this
      ensures View() == Step(old(View()), Shutdown) && Inv(View())
      ensures closed && (queued, active, completed) == old((queued, active, completed))
    {
      ShutdownKeepsInv(View());
      closed := true;
      jobs := CancelPending(jobs);
    }

    /** The done-callback of a cancelled future. */
    method ReleaseCancelledSlot(job: nat)
      requires Inv(View()) && job < |jobs|
      modifies this
      ensures View() == Step(old(View()), ReleaseCancelled(job)) && Inv(View())
    {
      JobStepKeepsInv(View(), ReleaseCancelled(job));
      if !jobs[job].phase.Cancelled? {
        return;
      }
      ReleaseSlot(job);
    }
  }
}
