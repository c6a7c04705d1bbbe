/** Deciding that a Web login has expired. One account's renewal and keepalive tasks, stored
    status and memory of the previous error; every store call is an await, so other tasks may
    write in between, and the process may stop at any point. */
module RenewalExpiry {
  import opened Options

  datatype ErrorKind = NoError | Suspected | AuthExpired | OtherError

  datatype Trigger = NoTrigger | Manual | Scheduled | AuthRecovery

  datatype Source = ImRuntime | CookieKeepalive | WebRequest

  /** How the HTTP renewal of a task ended; a failure carries the service's error kind. */
  datatype Result = Renewed | Conflicted | Failed(kind: ErrorKind)

  /** A renewal task, with the trigger it read from the stored status. */
  datatype Task = Created | Reading(trigger: Trigger)

  /** `trigger()` between its awaits, under the manager's lock. */
  datatype Triggering = Unlocked | Read(trigger: Trigger, error: ErrorKind) | Stored

  /** The keepalive task: a probe, and a delayed second probe after a suspicion. */
  datatype Probing = Idle | First | Second

  /** History: failed probes, reports of lost logins, suspicions stored, and expiry verdicts
      with the grounds they were given on. */
  datatype Entry =
    | Probe(auth: bool)
    | Report(source: Source)
    | Suspicion
    | Verdict(recovery: bool, previous: ErrorKind)

  datatype Manager = Manager(
    errorKind: ErrorKind,           // stored last error
    storedTrigger: Trigger,         // stored trigger
    lock: Triggering,
    live: map<nat, Task>,           // renewal tasks that have not ended
    current: Option<nat>,           // entry of the task table
    previous: ErrorKind,            // remembered error from trigger time
    pending: nat,                   // reports on their way to trigger()
    probing: Probing,
    log: seq<Entry>
  )

  datatype Event =
    | AuthReport(source: Source)    // a report from outside the manager
    | TriggerRead(trigger: Trigger) // trigger() takes the lock and reads the status
    | TriggerStore                  // stores the new attempt, remembers the old error
    | TriggerCreate(task: nat)      // creates the task and releases the lock
    | TriggerGivesUp                // cooldown, a vanished account, or cancellation
    | ReadStatus(task: nat)
    | End(task: nat, result: Result)
    | Abandon(task: nat)            // the task is cancelled or its account is gone
    | Discard(task: nat)            // the done-callback
    | StartKeepalive
    | ProbeEnds(kind: ErrorKind)    // NoError when the probe succeeded
    | StatusCleared(login: bool)    // a scan login or a new cookie, or else a stored validation
    | Restart                       // shutdown or crash: memory is lost, the store is not

  function Init(): Manager {
    Manager(NoError, NoTrigger, Unlocked, map[], None, NoError, 0, Idle, [])
  }

  /** The task table's check: a task that is still running. */
  predicate Running(m: Manager) {
    m.current.Some? && m.current.value in m.live
  }

  /** `handle_auth_expired`: an IM report is ignored, and so is any report while the login is
      already known to be lost or a renewal is running. */
  function HandleReport(m: Manager, source: Source): Manager {
    var noted := m.(log := m.log + [Report(source)]);
    if source.ImRuntime? || m.errorKind.AuthExpired? || Running(m) then noted else noted.(pending := m.pending + 1)
  }

  /** The first stretch of `trigger` under the lock; a recovery uses up its report. */
  function ReadForTrigger(m: Manager, trigger: Trigger): Manager {
    if !m.lock.Unlocked? || trigger.NoTrigger? || (trigger.AuthRecovery? && m.pending == 0) then m
    else
      var taken := if trigger.AuthRecovery? then m.(pending := m.pending - 1) else m;
      if Running(m) then taken else taken.(lock := Read(trigger, m.errorKind))
  }

  function StoreAttempt(m: Manager): Manager {
    if !m.lock.Read? then m
    else m.(errorKind := NoError, storedTrigger := m.lock.trigger, previous := m.lock.error, lock := Stored)
  }

  function CreateTask(m: Manager, id: nat): Manager {
    if !m.lock.Stored? || id in m.live then m
    else m.(live := m.live[id := Created], current := Some(id), lock := Unlocked)
  }

  /** The failure clause of `_execute`: when an auth failure counts as confirmed. */
  predicate Confirmed(trigger: Trigger, previous: ErrorKind) {
    trigger.AuthRecovery? || previous.Suspected?
  }

  function EndTask(m: Manager, id: nat, result: Result): Manager {
    if id !in m.live || !m.live[id].Reading? then m
    else
      var trigger := m.live[id].trigger;
      var ended := m.(live := m.live - {id});
      match result
      case Renewed => ended.(errorKind := NoError)
      case Conflicted => ended.(errorKind := OtherError)
      case Failed(kind) =>
        if kind.AuthExpired? && Confirmed(trigger, m.previous) then
          ended.(errorKind := AuthExpired, log := m.log + [Verdict(trigger.AuthRecovery?, m.previous)])
        else if kind.AuthExpired? || kind.Suspected? then
          ended.(errorKind := Suspected, log := m.log + [Suspicion])
        else ended.(errorKind := OtherError)
  }

  function DiscardTask(m: Manager, id: nat): Manager {
    if m.current == Some(id) && id !in m.live then m.(current := None, previous := NoError) else m
  }

  function BeginKeepalive(m: Manager): Manager {
    if m.probing.Idle? && m.current.None? then m.(probing := First) else m
  }

  /** `_run_keepalive` and `_recheck_suspected_keepalive`: a first suspicion is probed again,
      and only a lost login or a second failure is reported. */
  function EndProbe(m: Manager, kind: ErrorKind): Manager {
    var idle := m.(probing := Idle);
    var noted := idle.(log := m.log + [Probe(kind.AuthExpired?)]);
    match m.probing
    case Idle => m
    case First =>
      if kind.Suspected? then noted.(probing := Second)
      else if kind.AuthExpired? then HandleReport(noted, CookieKeepalive)
      else idle
    case Second =>
      if kind.Suspected? || kind.AuthExpired? then HandleReport(noted, CookieKeepalive) else idle
  }

  function Step(m: Manager, e: Event): Manager {
    match e
    case AuthReport(source) => if source.CookieKeepalive? then m else HandleReport(m, source)
    case TriggerRead(trigger) => ReadForTrigger(m, trigger)
    case TriggerStore => StoreAttempt(m)
    case TriggerCreate(id) => CreateTask(m, id)
    case TriggerGivesUp => m.(lock := Unlocked)
    case ReadStatus(id) =>
      if id in m.live && m.live[id].Created? then m.(live := m.live[id := Reading(m.storedTrigger)]) else m
    case End(id, result) => EndTask(m, id, result)
    case Abandon(id) => m.(live := m.live - {id})
    case Discard(id) => DiscardTask(m, id)
    case StartKeepalive => BeginKeepalive(m)
    case ProbeEnds(kind) => EndProbe(m, kind)
    case StatusCleared(login) =>
      m.(errorKind := NoError, storedTrigger := if login then NoTrigger else m.storedTrigger)
    case Restart =>
      m.(lock := Unlocked, live := map[], current := None, previous := NoError, pending := 0, probing := Idle)
  }

  function Run(m: Manager, events: seq<Event>): Manager
    decreases |events|
  {
    if events == [] then m else Run(Step(m, events[0]), events[1..])
  }

  // ----- what the history must show -----

  ghost predicate Probed(log: seq<Entry>) {
    exists i :: 0 <= i < |log| && log[i].Probe?
  }

  ghost predicate HadSuspicion(log: seq<Entry>) {
    exists i :: 0 <= i < |log| && log[i].Suspicion?
  }

  /** A report that may start a recovery. */
  predicate Actionable(e: Entry) { e.Report? && !e.source.ImRuntime? }

  function Reports(log: seq<Entry>): nat {
    if log == [] then 0 else Reports(log[..|log| - 1]) + (if Actionable(log[|log| - 1]) then 1 else 0)
  }

  predicate RecoveryVerdict(e: Entry) { e.Verdict? && e.recovery }

  function Recoveries(log: seq<Entry>): nat {
    if log == [] then 0 else Recoveries(log[..|log| - 1]) + (if RecoveryVerdict(log[|log| - 1]) then 1 else 0)
  }

  ghost predicate HadVerdict(log: seq<Entry>) {
    exists i :: 0 <= i < |log| && log[i].Verdict?
  }

  /** What may follow `log`: a verdict needs a report other than the IM runtime's that no earlier
      recovery verdict has used, or an earlier suspicion; a keepalive report needs a probe that
      found the login lost, or two failed probes. */
  ghost predicate MayFollow(log: seq<Entry>, e: Entry) {
    match e
    case Verdict(recovery, previous) =>
      (recovery && Recoveries(log) < Reports(log)) || (previous.Suspected? && HadSuspicion(log))
    case Report(CookieKeepalive) =>
      log != [] && log[|log| - 1].Probe? && (log[|log| - 1].auth || Probed(log[..|log| - 1]))
    case _ => true
  }

  ghost predicate Grounded(log: seq<Entry>) {
    forall i :: 0 <= i < |log| ==> MayFollow(log[..i], log[i])
  }

  /** Recoveries whose report is used up or waiting and whose verdict is still open. */
  function UnderWay(m: Manager): nat {
    m.pending
    + (if m.lock.Read? && m.lock.trigger.AuthRecovery? then 1 else 0)
    + (if m.lock.Stored? && m.storedTrigger.AuthRecovery? then 1 else 0)
    + (if Running(m) && TriggerOf(m, m.live[m.current.value]).AuthRecovery? then 1 else 0)
  }

  /** The trigger a task acts on: the one it read, or the stored one it is going to read. */
  function TriggerOf(m: Manager, task: Task): Trigger {
    if task.Reading? then task.trigger else m.storedTrigger
  }

  ghost predicate Inv(m: Manager) {
    && Grounded(m.log)
    && (m.errorKind.Suspected? ==> HadSuspicion(m.log))
    && (m.errorKind.AuthExpired? ==> HadVerdict(m.log))
    && (m.previous.Suspected? ==> HadSuspicion(m.log))
    && (m.lock.Read? && m.lock.error.Suspected? ==> HadSuspicion(m.log))
    && Recoveries(m.log) + UnderWay(m) <= Reports(m.log)
    && (forall id :: id in m.live ==> m.current == Some(id))
    && (!m.lock.Unlocked? ==> m.live == map[])
    && (m.probing.Second? ==> Probed(m.log))
  }

  lemma LogGrows(log: seq<Entry>, e: Entry)
    ensures HadSuspicion(log) ==> HadSuspicion(log + [e])
    ensures Reports(log + [e]) == Reports(log) + (if Actionable(e) then 1 else 0)
    ensures Recoveries(log + [e]) == Recoveries(log) + (if RecoveryVerdict(e) then 1 else 0)
    ensures Probed(log) ==> Probed(log + [e])
    ensures HadVerdict(log) || e.Verdict? ==> HadVerdict(log + [e])
    ensures e.Suspicion? ==> HadSuspicion(log + [e])
    ensures e.Probe? ==> Probed(log + [e])
    ensures Grounded(log) && MayFollow(log, e) ==> Grounded(log + [e])
  {
    var more := log + [e];
    assert more[|log|] == e;
    if i :| 0 <= i < |log| && log[i].Suspicion? { assert more[i].Suspicion?; }
    if i :| 0 <= i < |log| && log[i].Probe? { assert more[i].Probe?; }
    if i :| 0 <= i < |log| && log[i].Verdict? { assert more[i].Verdict?; }
    assert more[..|more| - 1] == log;
    assert forall i :: 0 <= i <= |log| ==> more[..i] == log[..i];
    assert log[..|log|] == log;
  }

  lemma NotedReport(m: Manager, source: Source)
    requires Inv(m) && MayFollow(m.log, Report(source))
    ensures
      var noted := m.(log := m.log + [Report(source)]);
      && Inv(noted)
      && (!source.ImRuntime? ==> Recoveries(noted.log) + UnderWay(noted) + 1 <= Reports(noted.log))
  {
    LogGrows(m.log, Report(source));
    assert UnderWay(m.(log := m.log + [Report(source)])) == UnderWay(m);
  }

  lemma PendingKeepsInv(m: Manager)
    requires Inv(m) && Recoveries(m.log) + UnderWay(m) + 1 <= Reports(m.log)
    ensures Inv(m.(pending := m.pending + 1))
  {
    assert UnderWay(m.(pending := m.pending + 1)) == UnderWay(m) + 1;
  }

  lemma ReportKeepsInv(m: Manager, source: Source)
    requires Inv(m) && MayFollow(m.log, Report(source))
    ensures Inv(HandleReport(m, source))
  {
    NotedReport(m, source);
    if !source.ImRuntime? { PendingKeepsInv(m.(log := m.log + [Report(source)])); }
  }

  lemma VerdictKeepsInv(m: Manager, id: nat)
    requires Inv(m) && id in m.live && m.live[id].Reading? && Confirmed(m.live[id].trigger, m.previous)
    ensures Inv(m.(live := m.live - {id}, errorKind := AuthExpired,
      log := m.log + [Verdict(m.live[id].trigger.AuthRecovery?, m.previous)]))
  {
    LogGrows(m.log, Verdict(m.live[id].trigger.AuthRecovery?, m.previous));
  }

  lemma SuspicionKeepsInv(m: Manager, id: nat)
    requires Inv(m) && id in m.live
    ensures Inv(m.(live := m.live - {id}, errorKind := Suspected, log := m.log + [Suspicion]))
  {
    LogGrows(m.log, Suspicion);
  }

  lemma EndKeepsInv(m: Manager, id: nat, result: Result)
    requires Inv(m)
    ensures Inv(EndTask(m, id, result))
  {
    if id in m.live && m.live[id].Reading? && result.Failed? {
      if result.kind.AuthExpired? && Confirmed(m.live[id].trigger, m.previous) {
        VerdictKeepsInv(m, id);
      } else if result.kind.AuthExpired? || result.kind.Suspected? {
        SuspicionKeepsInv(m, id);
      }
    }
  }

  lemma NotedProbe(m: Manager, auth: bool, next: Probing)
    requires Inv(m)
    ensures
      var noted := m.(probing := next, log := m.log + [Probe(auth)]);
      Inv(noted) && (auth || Probed(m.log) ==> MayFollow(noted.log, Report(CookieKeepalive)))
  {
    LogGrows(m.log, Probe(auth));
    assert (m.log + [Probe(auth)])[..|m.log|] == m.log;
  }

  lemma ReportedProbe(m: Manager, auth: bool)
    requires Inv(m) && (auth || Probed(m.log))
    ensures Inv(HandleReport(m.(probing := Idle, log := m.log + [Probe(auth)]), CookieKeepalive))
  {
    NotedProbe(m, auth, Idle);
    ReportKeepsInv(m.(probing := Idle, log := m.log + [Probe(auth)]), CookieKeepalive);
  }

  lemma ProbeKeepsInv(m: Manager, kind: ErrorKind)
    requires Inv(m)
    ensures Inv(EndProbe(m, kind))
  {
    if m.probing.First? && kind.Suspected? {
      NotedProbe(m, false, Second);
    } else if !m.probing.Idle? && (kind.Suspected? || kind.AuthExpired?) {
      ReportedProbe(m, kind.AuthExpired?);
    }
  }

  lemma TriggerKeepsInv(m: Manager, trigger: Trigger, id: nat)
    requires Inv(m)
    ensures Inv(ReadForTrigger(m, trigger))
    ensures Inv(StoreAttempt(m))
    ensures Inv(CreateTask(m, id))
  {
  }

  lemma StepKeepsInv(m: Manager, e: Event)
    requires Inv(m)
    ensures Inv(Step(m, e))
  {
    match e {
      case AuthReport(source) => if !source.CookieKeepalive? { ReportKeepsInv(m, source); }
      case End(id, result) => EndKeepsInv(m, id, result);
      case ProbeEnds(kind) => ProbeKeepsInv(m, kind);
      case TriggerRead(trigger) => TriggerKeepsInv(m, trigger, 0);
      case TriggerStore => TriggerKeepsInv(m, NoTrigger, 0);
      case TriggerCreate(id) => TriggerKeepsInv(m, NoTrigger, id);
      case _ =>
    }
  }

  lemma {:induction false} RunKeepsInv(m: Manager, events: seq<Event>)
    requires Inv(m)
    ensures Inv(Run(m, events))
    decreases |events|
  {
    if events != [] {
      StepKeepsInv(m, events[0]);
      RunKeepsInv(Step(m, events[0]), events[1..]);
    }
  }

  /** Over every run: at most one renewal task is live, every verdict and every keepalive report
      stands on the earlier failures it needs, and each recovery verdict uses up a report of its
      own. */
  lemma VerdictsAreConfirmed(events: seq<Event>)
    ensures |Run(Init(), events).live| <= 1
    ensures Recoveries(Run(Init(), events).log) <= Reports(Run(Init(), events).log)
    ensures Run(Init(), events).errorKind.AuthExpired? ==> HadVerdict(Run(Init(), events).log)
    ensures Grounded(Run(Init(), events).log)
  {
    var m := Run(Init(), events);
    RunKeepsInv(Init(), events);
    if m.current.Some? {
      assert m.live.Keys <= {m.current.value};
      if m.live.Keys != {} { assert m.live.Keys == {m.current.value}; }
    } else {
      assert m.live == map[];
    }
  }

  // ----- one renewal, one report, one probe -----

  lemma RunCons(m: Manager, e: Event, rest: seq<Event>)
    ensures Run(m, [e] + rest) == Run(Step(m, e), rest)
  {
    assert ([e] + rest)[1..] == rest;
  }

  /** The stored error after a renewal, by its trigger, the error stored before it and its end. */
  ghost function ErrorAfter(trigger: Trigger, before: ErrorKind, result: Result): ErrorKind {
    match result
    case Renewed => NoError
    case Conflicted => OtherError
    case Failed(AuthExpired) => if trigger == AuthRecovery || before == Suspected then AuthExpired else Suspected
    case Failed(Suspected) => Suspected
    case Failed(_) => OtherError
  }

  lemma RenewalStarts(m: Manager, trigger: Trigger, id: nat)
    requires m.lock.Unlocked? && m.live == map[] && m.current.None? && !trigger.NoTrigger?
    requires trigger.AuthRecovery? ==> m.pending > 0
    ensures
      var t := Step(Step(Step(Step(m, TriggerRead(trigger)), TriggerStore), TriggerCreate(id)), ReadStatus(id));
      && t.live == map[id := Reading(trigger)] && t.current == Some(id) && t.lock.Unlocked? && t.errorKind.NoError?
      && t.previous == m.errorKind && t.log == m.log && t.probing == m.probing
      && t.pending == (if trigger.AuthRecovery? then m.pending - 1 else m.pending)
  {
  }

  lemma RenewalEnds(m: Manager, trigger: Trigger, id: nat, result: Result)
    requires m.live == map[id := Reading(trigger)] && m.current == Some(id)
    ensures
      var t := Step(Step(m, End(id, result)), Discard(id));
      && t.live == map[] && t.current.None? && t.previous.NoError? && t.lock == m.lock && t.pending == m.pending
      && t.errorKind == ErrorAfter(trigger, m.previous, result)
      && t.log == m.log + (if t.errorKind.AuthExpired? then [Verdict(trigger.AuthRecovery?, m.previous)]
                           else if t.errorKind.Suspected? then [Suspicion] else [])
  {
    assert m.live - {id} == map[];
  }

  /** A renewal that nothing disturbs: what it stores and records for every trigger and end. */
  lemma RenewalRuns(m: Manager, trigger: Trigger, id: nat, result: Result)
    requires m.lock.Unlocked? && m.live == map[] && m.current.None? && !trigger.NoTrigger?
    requires trigger.AuthRecovery? ==> m.pending > 0
    ensures
      var t := Run(m, [TriggerRead(trigger)] + ([TriggerStore] + ([TriggerCreate(id)] +
                      ([ReadStatus(id)] + ([End(id, result)] + ([Discard(id)] + []))))));
      && t.live == map[] && t.current.None? && t.lock.Unlocked?
      && t.errorKind == ErrorAfter(trigger, m.errorKind, result)
      && t.pending == (if trigger.AuthRecovery? then m.pending - 1 else m.pending)
  {
    var e5 := [End(id, result)] + ([Discard(id)] + []);
    var m1 := Step(m, TriggerRead(trigger));
    var m2 := Step(m1, TriggerStore);
    var m3 := Step(m2, TriggerCreate(id));
    var m4 := Step(m3, ReadStatus(id));
    RunCons(m, TriggerRead(trigger), [TriggerStore] + ([TriggerCreate(id)] + ([ReadStatus(id)] + e5)));
    RunCons(m1, TriggerStore, [TriggerCreate(id)] + ([ReadStatus(id)] + e5));
    RunCons(m2, TriggerCreate(id), [ReadStatus(id)] + e5);
    RunCons(m3, ReadStatus(id), e5);
    RunCons(m4, End(id, result), [Discard(id)] + []);
    RunCons(Step(m4, End(id, result)), Discard(id), []);
    RenewalStarts(m, trigger, id);
    RenewalEnds(m4, trigger, id, result);
  }

  /** A report goes on to a recovery exactly when it is not the IM runtime's, the login is not
      already known to be lost, and no renewal runs. */
  lemma ReportMeans(m: Manager, source: Source)
    requires source != CookieKeepalive
    ensures
      var t := Step(m, AuthReport(source));
      && t.pending == (if source != ImRuntime && m.errorKind != AuthExpired && !(m.current.Some? && m.current.value in m.live)
                       then m.pending + 1 else m.pending)
      && t == m.(pending := t.pending, log := m.log + [Report(source)])
  {
  }

  /** A login or a new cookie clears the stored error and its trigger, a validation the error
      alone. A restart forgets what is not stored. */
  lemma ClearingMeans(m: Manager, login: bool)
    ensures Step(m, StatusCleared(login)) ==
      m.(errorKind := NoError, storedTrigger := if login then NoTrigger else m.storedTrigger)
    ensures
      var t := Step(m, Restart);
      && t.errorKind == m.errorKind && t.storedTrigger == m.storedTrigger && t.log == m.log
      && t.live == map[] && t.current.None? && t.pending == 0 && t.probing.Idle? && t.lock.Unlocked? && t.previous.NoError?
  {
  }

  /** A keepalive starts only beside no other and no renewal. A first suspicion is probed again; a
      lost login, or a second failure, is reported; a success ends it. */
  lemma ProbeMeans(m: Manager, kind: ErrorKind)
    ensures Step(m, StartKeepalive).probing == (if m.probing.Idle? && m.current.None? then First else m.probing)
    ensures
      var t := Step(m, ProbeEnds(kind));
      && (m.probing.Idle? ==> t == m)
      && (m.probing.First? && kind.Suspected? ==> t.probing.Second? && t.log == m.log + [Probe(false)] && t.pending == m.pending)
      && (m.probing.First? && kind.AuthExpired? ==> t.probing.Idle? && t.log == m.log + [Probe(true), Report(CookieKeepalive)])
      && (m.probing.Second? && (kind.Suspected? || kind.AuthExpired?) ==>
            t.probing.Idle? && t.log == m.log + [Probe(kind.AuthExpired?), Report(CookieKeepalive)])
      && (!m.probing.Idle? && (kind.NoError? || kind.OtherError?) ==> t == m.(probing := Idle))
  {
    assert forall e, f :: m.log + [e] + [f] == m.log + [e, f];
  }

  lemma {:induction false} SomeReport(log: seq<Entry>) returns (j: nat)
    requires Reports(log) > 0
    ensures j < |log| && Actionable(log[j])
  {
    j := |log| - 1;
    if !Actionable(log[j]) { j := SomeReport(log[..j]); }
  }

  /** A verdict is never the first failure: a suspicion or a report other than the IM
      runtime's is on record before it. */
  lemma VerdictFollowsFailure(events: seq<Event>, i: nat)
    requires i < |Run(Init(), events).log| && Run(Init(), events).log[i].Verdict?
    ensures var log := Run(Init(), events).log;
      exists j :: 0 <= j < i && (log[j].Suspicion? || (log[j].Report? && !log[j].source.ImRuntime?))
  {
    VerdictsAreConfirmed(events);
    var log := Run(Init(), events).log;
    assert MayFollow(log[..i], log[i]);
    if HadSuspicion(log[..i]) {
      var j :| 0 <= j < i && log[..i][j].Suspicion?;
      assert log[j] == log[..i][j];
    } else {
      var j := SomeReport(log[..i]);
      assert log[j] == log[..i][j];
    }
  }

  /** A report from the IM runtime changes nothing but the history. */
  ghost predicate SameButLog(a: Manager, b: Manager) {
    a == b.(log := a.log)
  }

  function Unnoticed(events: seq<Event>): seq<Event>
    decreases |events|
  {
    if events == [] then []
    else if events[0] == AuthReport(ImRuntime) then Unnoticed(events[1..])
    else [events[0]] + Unnoticed(events[1..])
  }

  lemma SameEnd(a: Manager, b: Manager, id: nat, result: Result)
    requires SameButLog(a, b)
    ensures SameButLog(EndTask(a, id, result), EndTask(b, id, result))
  {
  }

  lemma SameProbe(a: Manager, b: Manager, kind: ErrorKind)
    requires SameButLog(a, b)
    ensures SameButLog(EndProbe(a, kind), EndProbe(b, kind))
  {
  }

  lemma SameStep(a: Manager, b: Manager, e: Event)
    requires SameButLog(a, b)
    ensures SameButLog(Step(a, e), Step(b, e))
  {
    match e {
      case End(id, result) => SameEnd(a, b, id, result);
      case ProbeEnds(kind) => SameProbe(a, b, kind);
      case _ =>
    }
  }

  /** Deleting every IM report from a run leaves the same stored status, tasks, memory and
      probes: such a report never starts or confirms anything. */
  lemma {:induction false} ImReportsAreInert(a: Manager, b: Manager, events: seq<Event>)
    requires SameButLog(a, b)
    ensures SameButLog(Run(a, events), Run(b, Unnoticed(events)))
    decreases |events|
  {
    if events != [] {
      var e := events[0];
      if e == AuthReport(ImRuntime) {
        ImReportsAreInert(Step(a, e), b, events[1..]);
      } else {
        SameStep(a, b, e);
        ImReportsAreInert(Step(a, e), Step(b, e), events[1..]);
        var rest := Unnoticed(events[1..]);
        assert ([e] + rest)[1..] == rest;
      }
    }
  }

  // ----- the manager itself -----

  /** `CookieRenewalManager`, for one account, with the stored row it writes through. Each
      method is a stretch between two awaits. */
  class CookieRenewalManager {
    var errorKind: ErrorKind
    var storedTrigger: Trigger
    var lock: Triggering
    var live: map<nat, Task>
    var current: Option<nat>
    var previous: ErrorKind
    var pending: nat
    var probing: Probing
    ghost var log: seq<Entry>

    ghost function View(): Manager
      reads this
    {
      Manager(errorKind, storedTrigger, lock, live, current, previous, pending, probing, log)
    }

    constructor ()
      ensures View() == Init()
    {
      errorKind, storedTrigger, lock, live := NoError, NoTrigger, Unlocked, map[];
      current, previous, pending, probing, log := None, NoError, 0, Idle, [];
    }

    method HandleAuthExpired(source: Source)
      modifies this
      ensures View() == HandleReport(old(View()), source)
    {
      log := log + [Report(source)];
      if source.ImRuntime? { return; }
      if errorKind.AuthExpired? { return; }
      if current.Some? && current.value in live { return; }
      pending := pending + 1;
    }

    /** `existing` says that a running task made `trigger` return at once. */
    method TriggerUnderLock(trigger: Trigger) returns (existing: bool)
      requires lock.Unlocked? && !trigger.NoTrigger? && (trigger.AuthRecovery? ==> pending > 0)
      modifies this
      ensures existing == Running(old(View()))
      ensures View() == Step(old(View()), TriggerRead(trigger))
    {
      if trigger.AuthRecovery? { pending := pending - 1; }
      existing := current.Some? && current.value in live;
      if !existing { lock := Read(trigger, errorKind); }
    }

    method BeginRenewal()
      requires lock.Read?
      modifies this
      ensures View() == Step(old(View()), TriggerStore)
    {
      errorKind, storedTrigger := NoError, lock.trigger;
      previous := lock.error;
      lock := Stored;
    }

    method StartExecute(id: nat)
      requires lock.Stored? && id !in live
      modifies this
      ensures View() == Step(old(View()), TriggerCreate(id))
    {
      live := live[id := Created];
      current := Some(id);
      lock := Unlocked;
    }

    /** The end of `_execute`, from the service's answer to the stored status. */
    method FinishExecute(id: nat, result: Result)
      requires id in live && live[id].Reading?
      modifies this
      ensures View() == Step(old(View()), End(id, result))
    {
      var trigger := live[id].trigger;
      live := live - {id};
      match result {
        case Renewed => errorKind := NoError;
        case Conflicted => errorKind := OtherError;
        case Failed(kind) =>
          var candidate := kind.AuthExpired?;
          var confirmed := candidate && (trigger.AuthRecovery? || previous.Suspected?);
          errorKind := if confirmed then AuthExpired else if candidate || kind.Suspected? then Suspected else OtherError;
          if confirmed {
            log := log + [Verdict(trigger.AuthRecovery?, previous)];
          } else if errorKind.Suspected? {
            log := log + [Suspicion];
          }
      }
    }

    method Discarded(id: nat)
      modifies this
      ensures View() == Step(old(View()), Discard(id))
    {
      if current == Some(id) && id !in live { current, previous := None, NoError; }
    }

    method StartKeepaliveIfDue()
      modifies this
      ensures View() == Step(old(View()), StartKeepalive)
    {
      if current.Some? { return; }
      if probing.Idle? { probing := First; }
    }

    method ProbeReturned(kind: ErrorKind)
      requires !probing.Idle?
      modifies this
      ensures View() == Step(old(View()), ProbeEnds(kind))
    {
      var first := probing.First?;
      probing := Idle;
      if kind.Suspected? || kind.AuthExpired? {
        log := log + [Probe(kind.AuthExpired?)];
        if first && kind.Suspected? {
          probing := Second;
        } else {
          HandleAuthExpired(CookieKeepalive);
        }
      }
    }

    method Shutdown()
      modifies this
      ensures View() == Step(old(View()), Restart)
    {
      lock, live, current, previous, pending, probing := Unlocked, map[], None, NoError, 0, Idle;
    }
  }
}
