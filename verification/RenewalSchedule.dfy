/** When a scheduled renewal starts. Times are seconds on one clock. A scan reads the stored
    status of each account, may move its next attempt, and may hand the account to `trigger`;
    failures and rechecks write the same row between scans, and every write of the row stamps
    its `updated_at`. */
module RenewalSchedule {
  import opened Options

  /** `Busy` stands for the states `running` and `applying`. */
  datatype Phase = Busy | Settled

  datatype Attempt = Attempt(succeeded: bool, next: Option<real>)

  datatype Status = Status(
    phase: Phase,
    next: Option<real>,             // next_attempt_at
    succeeded: Option<real>,        // last_succeeded_at
    updated: Option<real>,          // updated_at
    manual: bool,                   // manual_action_required
    recent: seq<Attempt>            // newest first
  )

  datatype Account = Account(id: string, enabled: bool, hasCookie: bool)

  datatype Config = Config(interval: real, scanSeconds: real)

  datatype Action = Skip | Seed | Keepalive | Start

  function Min(a: real, b: real): real { if a <= b then a else b }

  function Max(a: real, b: real): real { if a >= b then a else b }

  function Abs(a: real): real { if a >= 0.0 then a else -a }

  /** The constructor's floors: an interval of a minute, a scan period of ten seconds. */
  function MakeConfig(intervalHours: real, scanSeconds: real): Config {
    Config(Max(intervalHours, 1.0 / 60.0) * 3600.0, Max(scanSeconds, 10.0))
  }

  predicate Legal(c: Config) {
    c.interval >= 60.0 && c.scanSeconds >= 10.0
  }

  lemma MakeConfigIsLegal(intervalHours: real, scanSeconds: real)
    ensures
      var c := MakeConfig(intervalHours, scanSeconds);
      && Legal(c)
      && (intervalHours * 60.0 >= 1.0 ==> c.interval == intervalHours * 3600.0)
      && (intervalHours * 60.0 <= 1.0 ==> c.interval == 60.0)
      && c.scanSeconds == (if scanSeconds >= 10.0 then scanSeconds else 10.0)
  {
    assert Max(intervalHours, 1.0 / 60.0) * 3600.0 >= (1.0 / 60.0) * 3600.0;
  }

  function MaxJitter(c: Config): real {
    Min(c.interval * 0.1, 3600.0)
  }

  /** The latest next attempt a scan accepts after a success at `last`. */
  function Limit(c: Config, last: real): real {
    last + c.interval + (MaxJitter(c) + 5.0)
  }

  function FirstSuccess(recent: seq<Attempt>): Option<Attempt>
    decreases |recent|
  {
    if recent == [] then None
    else if recent[0].succeeded then Some(recent[0])
    else FirstSuccess(recent[1..])
  }

  /** The end of the quiet window after a success at `last`: the interval, or the jittered
      time recorded with the latest success when it is later and credible. */
  function WindowEnd(c: Config, s: Status, last: real): (end: real)
    requires Legal(c)
    ensures last + c.interval <= end <= Limit(c, last)
  {
    var floor := last + c.interval;
    var latest := FirstSuccess(s.recent);
    if latest.Some? && latest.value.next.Some? && latest.value.next.value <= Limit(c, last)
    then Max(floor, latest.value.next.value)
    else floor
  }

  /** Attempt i is the latest success on record. */
  predicate LatestSuccess(recent: seq<Attempt>, i: nat) {
    i < |recent| && recent[i].succeeded && forall j :: 0 <= j < i ==> !recent[j].succeeded
  }

  lemma {:induction false} FirstSuccessIs(recent: seq<Attempt>)
    ensures forall i: nat :: LatestSuccess(recent, i) ==> FirstSuccess(recent) == Some(recent[i])
    ensures (forall i :: 0 <= i < |recent| ==> !recent[i].succeeded) ==> FirstSuccess(recent).None?
    decreases |recent|
  {
    if recent != [] {
      FirstSuccessIs(recent[1..]);
      if !recent[0].succeeded {
        forall i: nat | LatestSuccess(recent, i) ensures FirstSuccess(recent) == Some(recent[i]) {
          assert i > 0 && forall j :: 0 <= j < i - 1 ==> recent[1..][j] == recent[j + 1];
          assert LatestSuccess(recent[1..], i - 1);
        }
        if forall i :: 0 <= i < |recent| ==> !recent[i].succeeded {
          assert forall i :: 0 <= i < |recent[1..]| ==> recent[1..][i] == recent[i + 1];
        }
      }
    }
  }

  /** A tenth of the interval, an hour at most, and five seconds. */
  predicate Credible(c: Config, last: real, at: real) {
    && last + c.interval <= at
    && at <= last + c.interval + c.interval / 10.0 + 5.0 && at <= last + c.interval + 3600.0 + 5.0
  }

  /** The window ends at the time recorded with the latest success if that time is credible, and
      otherwise the bare interval after the success. */
  lemma WindowEndExactly(c: Config, s: Status, last: real, i: nat)
    requires Legal(c)
    ensures LatestSuccess(s.recent, i) && s.recent[i].next.Some? && Credible(c, last, s.recent[i].next.value) ==>
      WindowEnd(c, s, last) == s.recent[i].next.value
    ensures LatestSuccess(s.recent, i) && !(s.recent[i].next.Some? && Credible(c, last, s.recent[i].next.value)) ==>
      WindowEnd(c, s, last) == last + c.interval
    ensures (forall j :: 0 <= j < |s.recent| ==> !s.recent[j].succeeded) ==> WindowEnd(c, s, last) == last + c.interval
  {
    FirstSuccessIs(s.recent);
  }

  /** `_recent_success_defer_until`. */
  function DeferUntil(c: Config, s: Status, now: real): Option<real>
    requires Legal(c)
  {
    if s.succeeded.None? then None
    else
      var end := WindowEnd(c, s, s.succeeded.value);
      if end > now then Some(end) else None
  }

  /** `_is_due`. */
  predicate IsDue(s: Status, now: real) {
    if s.phase.Busy? then s.updated.Some? && now - s.updated.value >= 300.0
    else s.next.Some? && s.next.value <= now
  }

  /** One account's turn in a scan: the time the scan began, the random seed delay, and the
      times of the two writes the turn may make. */
  datatype Tick = Tick(now: real, draw: real, first: real, second: real)

  predicate LegalTick(c: Config, t: Tick) {
    t.now <= t.first <= t.second && 5.0 <= t.draw <= Min(300.0, c.scanSeconds * 2.0)
  }

  /** `reschedule_cookie_renewal`. */
  function Rescheduled(s: Status, next: real, at: real): Status {
    s.(next := Some(next), updated := Some(at))
  }

  /** The next attempt lies beyond what a scan accepts after the last success. */
  predicate BeyondLimit(c: Config, s: Status) {
    s.next.Some? && s.succeeded.Some? && s.next.value > Limit(c, s.succeeded.value)
  }

  /** What the scan of one account writes first: a next attempt beyond the limit is pulled in. */
  function Clamped(c: Config, s: Status, t: Tick): Status {
    if BeyondLimit(c, s) then Rescheduled(s, Max(t.now, s.succeeded.value + c.interval), t.first) else s
  }

  /** What the scan does with the status it last read. */
  function Decide(c: Config, s: Status, now: real): Action
    requires Legal(c)
  {
    if DeferUntil(c, s, now).Some? || !IsDue(s, now) then Keepalive else Start
  }

  function Deferred(c: Config, s: Status, t: Tick): Status
    requires Legal(c)
  {
    var until := DeferUntil(c, s, t.now);
    if until.Some? && (s.next.None? || Abs(s.next.value - until.value) > 1.0)
    then Rescheduled(s, until.value, t.second) else s
  }

  /** One account's turn in `_scan_due_accounts`, with nobody else writing its row: the stored
      status afterwards, and what was decided. */
  function ScanOne(c: Config, a: Account, s: Status, t: Tick): (Status, Action)
    requires Legal(c)
  {
    if !a.enabled || !a.hasCookie || s.manual then (s, Skip)
    else if s.next.None? then (Rescheduled(s, t.now + t.draw, t.first), Seed)
    else
      var clamped := Clamped(c, s, t);
      (Deferred(c, clamped, t), Decide(c, clamped, t.now))
  }

  // ----- when a renewal starts -----

  /** Whatever status the scan last read, also one that other tasks rewrote during the scan, a
      start means the interval since its success has passed. */
  lemma StartNeedsWindow(c: Config, s: Status, now: real)
    requires Legal(c)
    ensures Decide(c, s, now).Start? && s.succeeded.Some? ==> now >= s.succeeded.value + c.interval
  {
    if s.succeeded.Some? { var end := WindowEnd(c, s, s.succeeded.value); }
  }

  predicate Qualifies(a: Account, s: Status) {
    a.enabled && a.hasCookie && !s.manual
  }

  /** The condition for a start that a reader of the stored row can check: the window is over,
      and a settled row's next attempt is due or beyond the limit, while an attempt left running
      is five minutes old and not beyond the limit, since pulling it in stamps it anew. */
  predicate ShouldStart(c: Config, a: Account, s: Status, now: real)
    requires Legal(c)
  {
    && Qualifies(a, s) && s.next.Some?
    && (s.succeeded.Some? ==> WindowEnd(c, s, s.succeeded.value) <= now)
    && (match s.phase
        case Busy => s.updated.Some? && s.updated.value + 300.0 <= now && !BeyondLimit(c, s)
        case Settled => s.next.value <= now || BeyondLimit(c, s))
  }

  lemma StartExactly(c: Config, a: Account, s: Status, t: Tick)
    requires Legal(c) && LegalTick(c, t)
    ensures ScanOne(c, a, s, t).1.Start? <==> ShouldStart(c, a, s, t.now)
  {
    if s.next.Some? {
      var u := Clamped(c, s, t);
      assert u.recent == s.recent && u.succeeded == s.succeeded && u.phase == s.phase;
      if s.succeeded.Some? {
        assert WindowEnd(c, u, s.succeeded.value) == WindowEnd(c, s, s.succeeded.value);
      }
    }
  }

  /** A start leaves the next attempt due: the clamp wrote the present, and no deferral did. */
  lemma StartedIsDue(c: Config, a: Account, s: Status, t: Tick)
    requires Legal(c) && LegalTick(c, t) && ShouldStart(c, a, s, t.now)
    ensures var after := ScanOne(c, a, s, t).0;
      after.succeeded == s.succeeded && (s.phase.Settled? ==> after.next.Some? && after.next.value <= t.now)
  {
    StartExactly(c, a, s, t);
  }

  // ----- attempts left running -----

  /** The row after each scan of a list, with nobody else writing it. */
  function AfterScans(c: Config, a: Account, s: Status, ticks: seq<Tick>): Status
    requires Legal(c)
    decreases |ticks|
  {
    if ticks == [] then s else AfterScans(c, a, ScanOne(c, a, s, ticks[0]).0, ticks[1..])
  }

  /** Legal turns, none before the one ahead of it. */
  ghost predicate InOrder(c: Config, ticks: seq<Tick>) {
    && (forall i :: 0 <= i < |ticks| ==> LegalTick(c, ticks[i]))
    && (forall i, j :: 0 <= i < j < |ticks| ==> ticks[i].now <= ticks[j].now)
  }

  /** Scans of one loop, which sleeps the scan period after a scan has made its writes. */
  ghost predicate Spaced(c: Config, ticks: seq<Tick>) {
    && InOrder(c, ticks)
    && forall i, j :: 0 <= i < j < |ticks| ==> ticks[i].second + c.scanSeconds <= ticks[j].now
  }

  /** Some scan of the list hands the account to `trigger`. */
  ghost predicate SomeScanStarts(c: Config, a: Account, s: Status, ticks: seq<Tick>)
    requires Legal(c)
  {
    exists i :: 0 <= i < |ticks| && ScanOne(c, a, AfterScans(c, a, s, ticks[..i]), ticks[i]).1.Start?
  }

  /** An attempt left running whose next attempt is beyond the limit, seen by a scan that comes
      after the limit. */
  predicate Stuck(c: Config, s: Status, now: real) {
    s.phase.Busy? && BeyondLimit(c, s) && now > Limit(c, s.succeeded.value)
  }

  /** Each scan pulls the next attempt in to the present, which is again beyond the limit, and
      stamps the row, which is then never five minutes old. */
  lemma StuckStaysStuck(c: Config, a: Account, s: Status, t: Tick, later: real)
    requires Legal(c) && LegalTick(c, t) && Stuck(c, s, t.now) && t.now <= later
    ensures !ScanOne(c, a, s, t).1.Start? && Stuck(c, ScanOne(c, a, s, t).0, later)
  {
    StartExactly(c, a, s, t);
    var u := Clamped(c, s, t);
    var end := WindowEnd(c, u, s.succeeded.value);
    assert DeferUntil(c, u, t.now).None?;
  }

  /** The scans after the first one start from the row it leaves. */
  lemma StartsLater(c: Config, a: Account, s: Status, t: Tick, rest: seq<Tick>)
    requires Legal(c) && !ScanOne(c, a, s, t).1.Start?
    ensures SomeScanStarts(c, a, s, [t] + rest) <==> SomeScanStarts(c, a, ScanOne(c, a, s, t).0, rest)
  {
    var ticks, next := [t] + rest, ScanOne(c, a, s, t).0;
    forall i | 0 <= i < |rest| ensures AfterScans(c, a, s, ticks[..i + 1]) == AfterScans(c, a, next, rest[..i]) {
      assert ticks[..i + 1][0] == t && ticks[..i + 1][1..] == rest[..i];
    }
    if SomeScanStarts(c, a, s, ticks) {
      var j :| 0 <= j < |ticks| && ScanOne(c, a, AfterScans(c, a, s, ticks[..j]), ticks[j]).1.Start?;
      assert ScanOne(c, a, AfterScans(c, a, next, rest[..j - 1]), rest[j - 1]).1.Start?;
    }
    if SomeScanStarts(c, a, next, rest) {
      var i :| 0 <= i < |rest| && ScanOne(c, a, AfterScans(c, a, next, rest[..i]), rest[i]).1.Start?;
      assert ScanOne(c, a, AfterScans(c, a, s, ticks[..i + 1]), ticks[i + 1]).1.Start?;
    }
  }

  /** Over every list of scans, however long, such an attempt is never started again. */
  lemma {:induction false} StuckIsNeverStarted(c: Config, a: Account, s: Status, ticks: seq<Tick>)
    requires Legal(c) && InOrder(c, ticks)
    requires ticks != [] ==> Stuck(c, s, ticks[0].now)
    ensures !SomeScanStarts(c, a, s, ticks)
    decreases |ticks|
  {
    if ticks != [] {
      var next, rest := ScanOne(c, a, s, ticks[0]).0, ticks[1..];
      StuckStaysStuck(c, a, s, ticks[0], ticks[0].now);
      if rest != [] { StuckStaysStuck(c, a, s, ticks[0], rest[0].now); }
      StuckIsNeverStarted(c, a, next, rest);
      StartsLater(c, a, s, ticks[0], rest);
      assert [ticks[0]] + rest == ticks;
    }
  }

  /** A scan after an unstuck one's writes are five minutes old and the window is over. */
  predicate LateEnough(c: Config, s: Status, t: Tick, late: Tick)
    requires Legal(c)
  {
    && late.now >= t.second + 300.0
    && (s.updated.Some? ==> late.now >= s.updated.value + 300.0)
    && (s.succeeded.Some? ==> late.now >= WindowEnd(c, s, s.succeeded.value))
  }

  /** An attempt left running that is not stuck is started by the first or by a late scan. */
  lemma UnstuckIsStarted(c: Config, a: Account, s: Status, t: Tick, late: Tick)
    requires Legal(c) && LegalTick(c, t) && LegalTick(c, late) && Qualifies(a, s)
    requires s.phase.Busy? && s.next.Some? && s.updated.Some? && !Stuck(c, s, t.now)
    requires LateEnough(c, s, t, late)
    ensures SomeScanStarts(c, a, s, [t, late])
  {
    var ticks := [t, late];
    var u := ScanOne(c, a, s, t).0;
    assert u.recent == s.recent && u.succeeded == s.succeeded && u.phase == s.phase && u.manual == s.manual;
    if s.succeeded.Some? {
      assert WindowEnd(c, u, s.succeeded.value) == WindowEnd(c, s, s.succeeded.value);
      assert WindowEnd(c, Clamped(c, s, t), s.succeeded.value) == WindowEnd(c, s, s.succeeded.value);
    }
    assert !BeyondLimit(c, u) && u.updated.Some? && u.updated.value + 300.0 <= late.now;
    StartExactly(c, a, u, late);
    assert ticks[..1] == [t] && AfterScans(c, a, u, [t][1..]) == u;
    assert ScanOne(c, a, AfterScans(c, a, s, ticks[..1]), ticks[1]).1.Start?;
  }

  /** When nobody but the scans writes the row, an attempt left running is never started again
      if and only if the first scan finds it stuck. */
  lemma NeverStartedExactly(c: Config, a: Account, s: Status, t: Tick)
    requires Legal(c) && LegalTick(c, t) && Qualifies(a, s)
    requires s.phase.Busy? && s.next.Some? && s.updated.Some?
    ensures Stuck(c, s, t.now) <==>
      forall more :: Spaced(c, [t] + more) ==> !SomeScanStarts(c, a, s, [t] + more)
  {
    if Stuck(c, s, t.now) {
      forall more | Spaced(c, [t] + more) ensures !SomeScanStarts(c, a, s, [t] + more) {
        StuckIsNeverStarted(c, a, s, [t] + more);
      }
    } else {
      var over := if s.succeeded.Some? then WindowEnd(c, s, s.succeeded.value) else t.now;
      var when := Max(Max(over, t.second + c.scanSeconds), Max(t.second, s.updated.value) + 300.0);
      var late := Tick(when, 5.0, when, when);
      UnstuckIsStarted(c, a, s, t, late);
      assert [t] + [late] == [t, late];
      assert Spaced(c, [t] + [late]);
    }
  }

  /** The seeded time is beyond the limit, and so is every later scan of the loop. */
  predicate SeedsTooLate(c: Config, last: real, t: Tick) {
    t.now + t.draw > Limit(c, last) && t.second + c.scanSeconds > Limit(c, last)
  }

  /** An attempt that stopped without a trace has no next attempt. Once a success is known, no
      scan of the loop ever starts it again if and only if the seeding scan comes so late that
      its seed and the scan after it both lie beyond the limit; for a scan that takes no time,
      if it comes less than its draw and less than a scan period before the limit. */
  lemma InterruptedIsStuckExactly(c: Config, a: Account, s: Status, t: Tick)
    requires Legal(c) && LegalTick(c, t) && Qualifies(a, s)
    requires s.phase.Busy? && s.next.None? && s.succeeded.Some?
    ensures SeedsTooLate(c, s.succeeded.value, t) <==>
      forall more :: Spaced(c, [t] + more) ==> !SomeScanStarts(c, a, s, [t] + more)
    ensures t.second == t.now ==>
      (SeedsTooLate(c, s.succeeded.value, t) <==>
         t.now + Min(t.draw, c.scanSeconds) > Limit(c, s.succeeded.value))
  {
    var next := ScanOne(c, a, s, t).0;
    if SeedsTooLate(c, s.succeeded.value, t) {
      forall more | Spaced(c, [t] + more) ensures !SomeScanStarts(c, a, s, [t] + more) {
        LaterScans(c, t, more);
        StuckIsNeverStarted(c, a, next, more);
        StartsLater(c, a, s, t, more);
      }
    } else {
      var at := t.second + c.scanSeconds;
      var again := Tick(at, 5.0, at, at);
      NeverStartedExactly(c, a, next, again);
      var more :| Spaced(c, [again] + more) && SomeScanStarts(c, a, next, [again] + more);
      StartsLater(c, a, s, t, [again] + more);
      FirstScan(c, t, [again] + more);
    }
  }

  lemma LaterScans(c: Config, t: Tick, more: seq<Tick>)
    requires Spaced(c, [t] + more)
    ensures InOrder(c, more) && (more != [] ==> t.second + c.scanSeconds <= more[0].now)
  {
    var ticks := [t] + more;
    forall i | 0 <= i < |more| ensures LegalTick(c, more[i]) && t.second + c.scanSeconds <= more[i].now {
      assert ticks[0] == t && ticks[i + 1] == more[i];
    }
    forall i, j | 0 <= i < j < |more| ensures more[i].now <= more[j].now {
      assert ticks[i + 1] == more[i] && ticks[j + 1] == more[j];
    }
  }

  lemma FirstScan(c: Config, t: Tick, more: seq<Tick>)
    requires Legal(c) && LegalTick(c, t) && Spaced(c, more) && more != [] && t.second + c.scanSeconds <= more[0].now
    ensures Spaced(c, [t] + more)
  {
    forall j | 0 <= j < |more| ensures t.second + c.scanSeconds <= more[j].now {
      if j > 0 { assert more[0].now <= more[j].now; }
    }
  }

  /** An attempt interrupted after a success at 0 and seeded five seconds before the limit of
      7925 s is stuck all the same. */
  lemma SeededBeforeTheLimitIsStuck(a: Account, more: seq<Tick>) returns (c: Config, s: Status, t: Tick)
    requires a.enabled && a.hasCookie
    ensures Legal(c) && LegalTick(c, t) && Qualifies(a, s) && s.phase.Busy? && s.succeeded == Some(0.0)
    ensures t.now == 7920.0 && Limit(c, 0.0) == 7925.0
    ensures Spaced(c, [t] + more) ==> !SomeScanStarts(c, a, s, [t] + more)
  {
    c, s := Config(7200.0, 10.0), Status(Busy, None, Some(0.0), Some(7900.0), false, []);
    t := Tick(7920.0, 10.0, 7920.0, 7920.0);
    InterruptedIsStuckExactly(c, a, s, t);
  }

  // ----- what the scan leaves behind -----

  ghost predicate Near(c: Config, s: Status, last: real)
    requires Legal(c)
  {
    s.next.Some? && Abs(s.next.value - WindowEnd(c, s, last)) <= 1.0
  }

  /** While the window is open, a scan that finds a next attempt leaves one within a second of
      the window's end, which lies in [success + interval, success + interval + jitter + 5];
      but for that column and the time stamp of a write the row stays as it was. */
  lemma OpenWindowIsKept(c: Config, a: Account, s: Status, t: Tick)
    requires Legal(c) && LegalTick(c, t) && Qualifies(a, s)
    requires s.next.Some? && s.succeeded.Some? && t.now < WindowEnd(c, s, s.succeeded.value)
    ensures var (after, action) := ScanOne(c, a, s, t);
      && Near(c, after, s.succeeded.value) && action.Keepalive?
      && s.succeeded.value + c.interval - 1.0 <= after.next.value <= Limit(c, s.succeeded.value) + 1.0
      && after == s.(next := after.next, updated := after.updated)
      && (after == s || after.updated == Some(t.first) || after.updated == Some(t.second))
      && (after == s <==> Abs(s.next.value - WindowEnd(c, s, s.succeeded.value)) <= 1.0 && !BeyondLimit(c, s))
  {
    var last := s.succeeded.value;
    var clamped := Clamped(c, s, t);
    assert WindowEnd(c, clamped, last) == WindowEnd(c, s, last);
    var after := Deferred(c, clamped, t);
    assert WindowEnd(c, after, last) == WindowEnd(c, s, last);
    assert Abs(after.next.value - WindowEnd(c, s, last)) <= 1.0;
  }

  /** The next attempt a scan leaves, when it finds one: beyond the limit it is pulled in to the
      end of the bare interval or the present, whichever is later; then, while the window is open,
      it is put at the window's end unless it is within a second of it. */
  lemma NextExactly(c: Config, a: Account, s: Status, t: Tick)
    requires Legal(c) && Qualifies(a, s) && s.next.Some?
    ensures
      var after := ScanOne(c, a, s, t).0;
      && after.next.Some?
      && (s.succeeded.None? ==> after == s)
      && (s.succeeded.Some? ==>
            var last, next := s.succeeded.value, s.next.value;
            var pulled :=
              if next > last + c.interval + Min(c.interval / 10.0, 3600.0) + 5.0 then
                if t.now > last + c.interval then t.now else last + c.interval
              else next;
            var end := WindowEnd(c, s, last);
            after.next.value == if t.now < end && (pulled > end + 1.0 || pulled < end - 1.0) then end else pulled)
  {
    if s.succeeded.Some? {
      var u := Clamped(c, s, t);
      assert WindowEnd(c, u, s.succeeded.value) == WindowEnd(c, s, s.succeeded.value);
    }
  }

  /** With no next attempt stored the scan seeds one instead, and the seed lies near the window
      only if the draw happens to put it there. */
  lemma SeededStatus(c: Config, a: Account, s: Status, t: Tick)
    requires Legal(c) && Qualifies(a, s) && s.next.None? && s.succeeded.Some?
    ensures var (after, action) := ScanOne(c, a, s, t);
      && action.Seed?
      && (Near(c, after, s.succeeded.value) <==>
            Abs(t.now + t.draw - WindowEnd(c, s, s.succeeded.value)) <= 1.0)
  {
    var after := ScanOne(c, a, s, t).0;
    assert WindowEnd(c, after, s.succeeded.value) == WindowEnd(c, s, s.succeeded.value);
  }

  /** A window that is open and a status whose next attempt is missing: the draw of 5 s puts
      the next attempt an hour before the window ends. */
  lemma SeedCanMissTheWindow()
    ensures
      var c := Config(7200.0, 10.0);
      var s := Status(Settled, None, Some(0.0), None, false, []);
      var t := Tick(3600.0, 5.0, 3600.0, 3600.0);
      && Legal(c) && LegalTick(c, t) && 3600.0 < WindowEnd(c, s, 0.0)
      && !Near(c, ScanOne(c, Account("a", true, true), s, t).0, 0.0)
  {
    var c := Config(7200.0, 10.0);
    var s := Status(Settled, None, Some(0.0), None, false, []);
    SeededStatus(c, Account("a", true, true), s, Tick(3600.0, 5.0, 3600.0, 3600.0));
    assert WindowEnd(c, s, 0.0) == 7200.0;
  }

  /** The scan after a seeding one repairs the row if the window is still open. */
  lemma SeedIsRepaired(c: Config, a: Account, s: Status, t: Tick, u: Tick)
    requires Legal(c) && InOrder(c, [t, u]) && Qualifies(a, s)
    requires s.succeeded.Some? && u.now < WindowEnd(c, s, s.succeeded.value)
    ensures
      var after := ScanOne(c, a, s, t).0;
      Near(c, ScanOne(c, a, after, u).0, s.succeeded.value) && ScanOne(c, a, after, u).1.Keepalive?
  {
    var both := [t, u];
    assert both[0].now <= both[1].now && LegalTick(c, both[0]) && LegalTick(c, both[1]);
    var after := ScanOne(c, a, s, t).0;
    assert WindowEnd(c, after, s.succeeded.value) == WindowEnd(c, s, s.succeeded.value);
    if s.next.Some? { OpenWindowIsKept(c, a, s, t); }
    OpenWindowIsKept(c, a, after, u);
  }

  // ----- the jittered time of a success -----

  /** The row holds the time that was drawn with its latest success. */
  ghost predicate Drawn(c: Config, s: Status, regular: real) {
    && s.succeeded.Some? && Credible(c, s.succeeded.value, regular) && s.next == Some(regular)
    && exists i: nat :: LatestSuccess(s.recent, i) && s.recent[i].next == Some(regular)
  }

  lemma DrawnWindow(c: Config, s: Status, regular: real)
    requires Legal(c) && Drawn(c, s, regular)
    ensures WindowEnd(c, s, s.succeeded.value) == regular && !BeyondLimit(c, s)
  {
    var i: nat :| LatestSuccess(s.recent, i) && s.recent[i].next == Some(regular);
    WindowEndExactly(c, s, s.succeeded.value, i);
  }

  /** No scan before the drawn time starts a renewal or touches the row. */
  lemma {:induction false} DrawnTimeIsKept(c: Config, a: Account, s: Status, regular: real, ticks: seq<Tick>)
    requires Legal(c) && InOrder(c, ticks) && Drawn(c, s, regular)
    requires forall i :: 0 <= i < |ticks| ==> ticks[i].now < regular
    ensures AfterScans(c, a, s, ticks) == s && !SomeScanStarts(c, a, s, ticks)
    decreases |ticks|
  {
    if ticks != [] {
      var t, rest := ticks[0], ticks[1..];
      assert LegalTick(c, t) && t.now < regular;
      DrawnWindow(c, s, regular);
      StartExactly(c, a, s, t);
      assert ScanOne(c, a, s, t).0 == s;
      DrawnTimeIsKept(c, a, s, regular, rest);
      StartsLater(c, a, s, t, rest);
      assert [t] + rest == ticks;
    }
  }

  /** The first scan at or after the drawn time starts the renewal of a settled row. */
  lemma DrawnTimeStarts(c: Config, a: Account, s: Status, regular: real, t: Tick)
    requires Legal(c) && LegalTick(c, t) && Drawn(c, s, regular) && Qualifies(a, s) && s.phase.Settled?
    ensures ScanOne(c, a, s, t).1.Start? <==> t.now >= regular
  {
    DrawnWindow(c, s, regular);
    StartExactly(c, a, s, t);
  }

  /** A renewal stores such a row exactly when the jitter covers the time from the draw to the
      record of the success. */
  lemma RenewedRowIsDrawnExactly(c: Config, t: Track, drawnAt: real, jitter: real, at: real)
    requires Legal(c) && t.live && drawnAt <= at && 0.0 <= jitter <= Min(c.interval / 10.0, 3600.0)
    ensures
      var regular := drawnAt + c.interval + jitter;
      Drawn(c, AdvanceOthers(t, RenewedAt(at, regular)).status, regular) <==> drawnAt + jitter >= at
  {
    var s := AdvanceOthers(t, RenewedAt(at, drawnAt + c.interval + jitter)).status;
    assert LatestSuccess(s.recent, 0);
  }

  // ----- retries -----

  /** `RETRY_DELAYS`, for the attempts that have one. */
  function RetryDelay(attempts: int): real
    requires attempts <= 3
  {
    if attempts <= 1 then 60.0 else if attempts == 2 then 300.0 else 1800.0
  }

  /** `_next_failure_attempt`; `jitter` is the draw of a regular attempt. */
  function NextFailureAttempt(c: Config, s: Option<Status>, attempts: int, now: real, jitter: real): real
    requires Legal(c)
  {
    if s.Some? && DeferUntil(c, s.value, now).Some? then DeferUntil(c, s.value, now).value
    else if attempts > 3 then now + c.interval + jitter
    else now + RetryDelay(attempts)
  }

  /** A failure inside the window is put at the window's end; outside it the first three are tried
      again after a minute, five minutes and half an hour, and later ones a regular time later. */
  lemma FailureIsPutOff(c: Config, s: Option<Status>, attempts: int, now: real, jitter: real)
    requires Legal(c) && 0.0 <= jitter <= MaxJitter(c)
    ensures
      var next := NextFailureAttempt(c, s, attempts, now, jitter);
      && next > now
      && if s.Some? && s.value.succeeded.Some? && now < WindowEnd(c, s.value, s.value.succeeded.value)
         then next == WindowEnd(c, s.value, s.value.succeeded.value)
         else
           && (attempts <= 1 ==> next == now + 60.0)
           && (attempts == 2 ==> next == now + 300.0)
           && (attempts == 3 ==> next == now + 1800.0)
           && (attempts > 3 ==> next == now + c.interval + jitter)
  {
  }

  /** The retry time a failure stores holds back the scans before it exactly when it lies
      within the limit; beyond the limit the very next scan starts again. */
  lemma RetryHoldsExactly(c: Config, a: Account, s: Status, attempts: int, now: real, jitter: real, t: Tick)
    requires Legal(c) && LegalTick(c, t) && 0.0 <= jitter <= MaxJitter(c)
    requires Qualifies(a, s) && s.phase.Settled? && s.succeeded.Some?
    requires WindowEnd(c, s, s.succeeded.value) <= now <= t.now < NextFailureAttempt(c, Some(s), attempts, now, jitter)
    ensures
      var retry := NextFailureAttempt(c, Some(s), attempts, now, jitter);
      ScanOne(c, a, s.(next := Some(retry)), t).1.Start? <==> retry > Limit(c, s.succeeded.value)
  {
    var retry := NextFailureAttempt(c, Some(s), attempts, now, jitter);
    var stored := s.(next := Some(retry));
    assert WindowEnd(c, stored, s.succeeded.value) == WindowEnd(c, s, s.succeeded.value);
    StartExactly(c, a, stored, t);
  }

  // ----- whole histories -----

  datatype Happening = Renewed(at: real) | Replaced | Decided(now: real) | Started(at: real)

  /** One account over time: its row, the clock, the scan's decision that `trigger` has not yet
      acted on, whether a renewal task is running, and what happened so far. */
  datatype Track = Track(status: Status, clock: real, decided: Option<real>, live: bool, log: seq<Happening>)

  datatype Moment =
    | ScanAt(tick: Tick)
    | TriggerAt(at: real)                // the scan's trigger takes the lock and begins
    | BegunElsewhere(at: real)           // a manual renewal or a recovery begins
    | RenewedAt(at: real, regular: real) // the running renewal succeeds
    | Rewritten(at: real, phase: Phase, next: Option<real>, manual: bool, recent: seq<Attempt>, ended: bool)
    | CookieReplaced(at: real)
    | Restart

  /** `begin_cookie_renewal`. */
  function Begun(t: Track, at: real): Track {
    t.(status := t.status.(phase := Busy, next := None, updated := Some(at)), live := true)
  }

  /** The scan reads the row, writes it and decides; it waits for its trigger before it comes
      back to the account. */
  function AdvanceScan(c: Config, a: Account, t: Track, tick: Tick): Track
    requires Legal(c)
  {
    if t.decided.Some? || !LegalTick(c, tick) then t
    else
      var (status, action) := ScanOne(c, a, t.status, tick);
      var seen := t.(status := status, clock := Max(t.clock, tick.second));
      if action.Start? then seen.(decided := Some(tick.now), log := t.log + [Decided(tick.now)]) else seen
  }

  /** Between the decision and the start other tasks may run. A running task makes the trigger
      return. */
  function AdvanceTrigger(t: Track, at: real): Track {
    if t.decided.None? then t
    else if t.live then t.(decided := None)
    else Begun(t, at).(decided := None, log := t.log + [Started(at)])
  }

  /** The row's other writers. Failures, rechecks, validations and logins leave the success time
      alone; a renewal sets it; a cookie entered by hand forgets it unless a renewal runs. */
  function AdvanceOthers(t: Track, m: Moment): Track {
    match m
    case BegunElsewhere(at) => if t.live then t else Begun(t, at)
    case RenewedAt(at, regular) =>
      if !t.live then t
      else t.(status := Status(Settled, Some(regular), Some(at), Some(at), false,
                               [Attempt(true, Some(regular))] + t.status.recent),
              live := false, log := t.log + [Renewed(at)])
    case Rewritten(at, phase, next, manual, recent, ended) =>
      t.(status := Status(phase, next, t.status.succeeded, Some(at), manual, recent), live := t.live && !ended)
    case CookieReplaced(at) =>
      if t.status.phase.Busy? then t
      else t.(status := t.status.(next := Some(at), succeeded := None, updated := Some(at)), log := t.log + [Replaced])
    case _ => t
  }

  /** Moments that would run the clock backwards do not happen. */
  function Advance(c: Config, a: Account, t: Track, m: Moment): Track
    requires Legal(c)
  {
    match m
    case ScanAt(tick) => AdvanceScan(c, a, t, tick)
    case Restart => t.(live := false, decided := None)
    case TriggerAt(at) => if at < t.clock then t else AdvanceTrigger(t.(clock := at), at)
    case _ => if m.at < t.clock then t else AdvanceOthers(t.(clock := m.at), m)
  }

  function Follow(c: Config, a: Account, t: Track, moments: seq<Moment>): Track
    requires Legal(c)
    decreases |moments|
  {
    if moments == [] then t else Follow(c, a, Advance(c, a, t, moments[0]), moments[1..])
  }

  /** The renewal that still counts at the end of `log`. */
  function LastRenewal(log: seq<Happening>): Option<real>
    decreases |log|
  {
    if log == [] then None
    else
      match log[|log| - 1]
      case Renewed(at) => Some(at)
      case Replaced => None
      case _ => LastRenewal(log[..|log| - 1])
  }

  /** The time of the scan whose decision came last. */
  function LastDecision(log: seq<Happening>): Option<real>
    decreases |log|
  {
    if log == [] then None
    else if log[|log| - 1].Decided? then Some(log[|log| - 1].now)
    else LastDecision(log[..|log| - 1])
  }

  /** A renewal that still counts finished after the last decision. */
  predicate RenewedSince(log: seq<Happening>)
    decreases |log|
  {
    if log == [] then false
    else
      match log[|log| - 1]
      case Renewed(_) => true
      case Started(_) => RenewedSince(log[..|log| - 1])
      case _ => false
  }

  /** What is known of a start at `at` after `log`: without a renewal in the gap it keeps the
      interval, and with one it keeps it only if the gap alone was that long. */
  ghost predicate StartFits(c: Config, log: seq<Happening>, at: real) {
    && LastDecision(log).Some? && LastDecision(log).value <= at
    && (LastRenewal(log).Some? ==>
          && (!RenewedSince(log) ==> at >= LastRenewal(log).value + c.interval)
          && (RenewedSince(log) ==> LastRenewal(log).value >= LastDecision(log).value))
  }

  ghost predicate AllStartsFit(c: Config, log: seq<Happening>) {
    forall i :: 0 <= i < |log| && log[i].Started? ==> StartFits(c, log[..i], log[i].at)
  }

  /** The pending decision, and how it stands to the renewals. */
  ghost predicate DecisionFits(c: Config, t: Track) {
    t.decided.Some? ==>
      && LastDecision(t.log) == t.decided && t.decided.value <= t.clock
      && StartFits(c, t.log, t.decided.value)
  }

  ghost predicate TrackOk(c: Config, t: Track) {
    t.status.succeeded == LastRenewal(t.log) && DecisionFits(c, t) && AllStartsFit(c, t.log)
  }

  lemma LogSnoc(c: Config, log: seq<Happening>, h: Happening)
    requires AllStartsFit(c, log) && (h.Started? ==> StartFits(c, log, h.at))
    ensures AllStartsFit(c, log + [h])
    ensures LastRenewal(log + [h]) ==
      match h { case Renewed(at) => Some(at) case Replaced => None case _ => LastRenewal(log) }
    ensures LastDecision(log + [h]) == if h.Decided? then Some(h.now) else LastDecision(log)
    ensures RenewedSince(log + [h]) == (h.Renewed? || (h.Started? && RenewedSince(log)))
  {
    var more := log + [h];
    assert more[..|log|] == log;
    forall i | 0 <= i < |more| && more[i].Started? ensures StartFits(c, more[..i], more[i].at) {
      assert more[..i] == log[..i];
      if i == |log| { assert log[..i] == log; }
    }
  }

  lemma ScanKeepsTrack(c: Config, a: Account, t: Track, tick: Tick)
    requires Legal(c) && TrackOk(c, t)
    ensures TrackOk(c, AdvanceScan(c, a, t, tick))
  {
    if t.decided.None? && LegalTick(c, tick) && ScanOne(c, a, t.status, tick).1.Start? {
      StartExactly(c, a, t.status, tick);
      StartedIsDue(c, a, t.status, tick);
      LogSnoc(c, t.log, Decided(tick.now));
    }
  }

  lemma TriggerKeepsTrack(c: Config, t: Track, at: real)
    requires TrackOk(c, t) && t.clock == at
    ensures TrackOk(c, AdvanceTrigger(t, at))
  {
    if t.decided.Some? && !t.live { LogSnoc(c, t.log, Started(at)); }
  }

  lemma OthersKeepTrack(c: Config, t: Track, m: Moment)
    requires TrackOk(c, t) && !m.ScanAt? && !m.Restart? && t.clock == m.at
    ensures TrackOk(c, AdvanceOthers(t, m))
  {
    match m {
      case RenewedAt(at, _) => if t.live { LogSnoc(c, t.log, Renewed(at)); }
      case CookieReplaced(_) => if t.status.phase.Settled? { LogSnoc(c, t.log, Replaced); }
      case _ =>
    }
  }

  lemma AdvanceKeepsTrack(c: Config, a: Account, t: Track, m: Moment)
    requires Legal(c) && TrackOk(c, t)
    ensures TrackOk(c, Advance(c, a, t, m))
  {
    match m {
      case ScanAt(tick) => ScanKeepsTrack(c, a, t, tick);
      case Restart =>
      case TriggerAt(at) => if at >= t.clock { TriggerKeepsTrack(c, t.(clock := at), at); }
      case _ => if m.at >= t.clock { OthersKeepTrack(c, t.(clock := m.at), m); }
    }
  }

  lemma {:induction false} FollowKeepsTrack(c: Config, a: Account, t: Track, moments: seq<Moment>)
    requires Legal(c) && TrackOk(c, t)
    ensures TrackOk(c, Follow(c, a, t, moments))
    decreases |moments|
  {
    if moments != [] {
      AdvanceKeepsTrack(c, a, t, moments[0]);
      FollowKeepsTrack(c, a, Advance(c, a, t, moments[0]), moments[1..]);
    }
  }

  /** Over every history of scans, triggers, rewrites of the row by other tasks, renewals,
      restarts and cookie changes: a scheduled start keeps the interval after the last success
      if no renewal finished between the scan's decision and the start; and if one did, it
      keeps it only when decision and start lie an interval apart. */
  lemma StartsKeepTheIntervalExactly(c: Config, a: Account, t: Track, moments: seq<Moment>, i: nat)
    requires Legal(c) && TrackOk(c, t)
    requires
      var log := Follow(c, a, t, moments).log;
      i < |log| && log[i].Started? && LastRenewal(log[..i]).Some?
    ensures
      var log := Follow(c, a, t, moments).log;
      var at, last := log[i].at, LastRenewal(log[..i]).value;
      && LastDecision(log[..i]).Some?
      && (!RenewedSince(log[..i]) ==> at >= last + c.interval)
      && (at < LastDecision(log[..i]).value + c.interval ==> (at >= last + c.interval <==> !RenewedSince(log[..i])))
  {
    FollowKeepsTrack(c, a, t, moments);
    var log := Follow(c, a, t, moments).log;
    assert StartFits(c, log[..i], log[i].at);
  }

  lemma FollowCons(c: Config, a: Account, t: Track, m: Moment, rest: seq<Moment>)
    requires Legal(c)
    ensures Follow(c, a, t, [m] + rest) == Follow(c, a, Advance(c, a, t, m), rest)
  {
    assert ([m] + rest)[1..] == rest;
  }

  /** One round of the schedule, undisturbed: the scan after the drawn time decides, the trigger
      starts, and the renewal's success stores the next drawn time on a settled row. */
  lemma ScheduledRound(c: Config, a: Account, t: Track, regular: real, tick: Tick, start: real, end: real, jitter: real)
    requires Legal(c) && LegalTick(c, tick) && t.decided.None? && !t.live && t.clock <= tick.second <= start <= end
    requires Drawn(c, t.status, regular) && Qualifies(a, t.status) && t.status.phase.Settled? && regular <= tick.now
    requires 0.0 <= jitter <= Min(c.interval / 10.0, 3600.0)
    ensures
      var next := end + c.interval + jitter;
      var done := Follow(c, a, t, [ScanAt(tick)] + ([TriggerAt(start)] + ([RenewedAt(end, next)] + [])));
      && done.log == t.log + [Decided(tick.now), Started(start), Renewed(end)]
      && Drawn(c, done.status, next) && done.status.phase.Settled? && !done.status.manual && done.status.updated == Some(end)
      && !done.live && done.decided.None? && done.clock == end
  {
    var next := end + c.interval + jitter;
    DrawnTimeStarts(c, a, t.status, regular, tick);
    var decided := Advance(c, a, t, ScanAt(tick));
    var started := Advance(c, a, decided, TriggerAt(start));
    assert started.live && started.status.phase.Busy? && started.status.next.None? && started.status.updated == Some(start);
    RenewedRowIsDrawnExactly(c, started.(clock := end), end, jitter, end);
    FollowCons(c, a, t, ScanAt(tick), [TriggerAt(start)] + ([RenewedAt(end, next)] + []));
    FollowCons(c, a, decided, TriggerAt(start), [RenewedAt(end, next)] + []);
    FollowCons(c, a, started, RenewedAt(end, next), []);
  }

  /** A renewal begun elsewhere runs beside no other; its task ends with a failure that is
      stored, or with the process; a cookie entered by hand makes the row due at once, unless a
      renewal is at work on it. */
  lemma OtherWriters(c: Config, a: Account, t: Track, at: real, recent: seq<Attempt>, next: Option<real>)
    requires Legal(c) && t.clock <= at
    ensures
      var begun := Advance(c, a, t, BegunElsewhere(at));
      if t.live then begun == t.(clock := at)
      else begun.live && begun.status.phase.Busy? && begun.status.next.None? && begun.status.updated == Some(at)
    ensures !Advance(c, a, t, Rewritten(at, Settled, next, false, recent, true)).live
    ensures Advance(c, a, t, Rewritten(at, Settled, next, false, recent, false)).live == t.live
    ensures !Advance(c, a, t, Restart).live && Advance(c, a, t, Restart).status == t.status
    ensures
      var replaced := Advance(c, a, t, CookieReplaced(at)).status;
      if t.status.phase.Busy? then replaced == t.status
      else replaced == t.status.(next := Some(at), succeeded := None, updated := Some(at))
  {
  }

  /** Such a gap is met: the scan finds an attempt that has run for 350 s and decides to start a
      new one; the attempt succeeds a second later, and a second after that the scheduled
      renewal starts. */
  lemma RenewalInTheGap() returns (c: Config, a: Account, t: Track, moments: seq<Moment>)
    ensures Legal(c) && TrackOk(c, t)
    ensures Follow(c, a, t, moments).log == [Renewed(0.0), Decided(7650.0), Renewed(7651.0), Started(7652.0)]
    ensures 7652.0 < 7651.0 + c.interval
  {
    c, a := Config(7200.0, 10.0), Account("a", true, true);
    var s := Status(Busy, Some(7200.0), Some(0.0), Some(7300.0), false, []);
    t := Track(s, 7300.0, None, true, [Renewed(0.0)]);
    var tick := Tick(7650.0, 5.0, 7650.0, 7650.0);
    assert WindowEnd(c, s, 0.0) == 7200.0 && !BeyondLimit(c, s);
    StartExactly(c, a, s, tick);
    var t1 := t.(clock := 7650.0, decided := Some(7650.0), log := [Renewed(0.0), Decided(7650.0)]);
    assert Advance(c, a, t, ScanAt(tick)) == t1;
    var t2 := Advance(c, a, t1, RenewedAt(7651.0, 15000.0));
    assert t2.log == [Renewed(0.0), Decided(7650.0), Renewed(7651.0)] && !t2.live;
    var t3 := Advance(c, a, t2, TriggerAt(7652.0));
    assert t3.log == [Renewed(0.0), Decided(7650.0), Renewed(7651.0), Started(7652.0)];
    var third := [TriggerAt(7652.0)] + [];
    var second := [RenewedAt(7651.0, 15000.0)] + third;
    moments := [ScanAt(tick)] + second;
    FollowCons(c, a, t, ScanAt(tick), second);
    FollowCons(c, a, t1, RenewedAt(7651.0, 15000.0), third);
    FollowCons(c, a, t2, TriggerAt(7652.0), []);
  }

  // ----- the scan over all accounts -----

  /** The stored rows, and the scheduler's pass over them. */
  class Scheduler {
    var rows: map<string, Status>
    const config: Config

    constructor (config: Config, rows: map<string, Status>)
      ensures this.config == config && this.rows == rows
    {
      this.config := config;
      this.rows := rows;
    }

    /** The store's reschedule: the next attempt of an existing row, and its time stamp. */
    method Reschedule(id: string, next: real, at: real) returns (status: Status)
      requires id in rows
      modifies this
      ensures status == Rescheduled(old(rows[id]), next, at) && rows == old(rows)[id := status]
    {
      status := rows[id].(next := Some(next), updated := Some(at));
      rows := rows[id := status];
    }

    method ScanAccount(a: Account, t: Tick) returns (action: Action)
      requires Legal(config) && a.id in rows
      modifies this
      ensures
        var (status, planned) := ScanOne(config, a, old(rows[a.id]), t);
        rows == old(rows)[a.id := status] && action == planned
    {
      var status := rows[a.id];
      assert rows == rows[a.id := status];
      if !a.enabled || !a.hasCookie || status.manual { return Skip; }
      if status.next.None? {
        status := Reschedule(a.id, t.now + t.draw, t.first);
        return Seed;
      }
      if status.succeeded.Some? {
        var floor := status.succeeded.value + config.interval;
        if status.next.value > floor + (MaxJitter(config) + 5.0) {
          status := Reschedule(a.id, Max(t.now, floor), t.first);
        }
      }
      ghost var clamped := status;
      assert clamped == Clamped(config, old(rows[a.id]), t);
      var until := DeferUntil(config, status, t.now);
      if until.Some? {
        if status.next.None? || Abs(status.next.value - until.value) > 1.0 {
          status := Reschedule(a.id, until.value, t.second);
        }
        return Keepalive;
      }
      if !IsDue(status, t.now) { return Keepalive; }
      return Start;
    }

    /** The whole pass; accounts without a status row are passed over. `ticks[i]` is the turn of
        account i, all of one scan. The listing has each account once. */
    method ScanDueAccounts(accounts: seq<Account>, now: real, ticks: seq<Tick>) returns (started: seq<string>)
      requires Legal(config) && |ticks| == |accounts|
      requires forall i :: 0 <= i < |ticks| ==> LegalTick(config, ticks[i]) && ticks[i].now == now
      requires forall i, j :: 0 <= i < j < |accounts| ==> accounts[i].id != accounts[j].id
      modifies this
      ensures rows.Keys == old(rows).Keys
      ensures forall i :: 0 <= i < |accounts| && accounts[i].id in old(rows) ==>
        rows[accounts[i].id] == ScanOne(config, accounts[i], old(rows[accounts[i].id]), ticks[i]).0
      ensures forall id :: id in rows && (forall i :: 0 <= i < |accounts| ==> accounts[i].id != id) ==>
        rows[id] == old(rows[id])
      ensures forall i :: 0 <= i < |accounts| ==>
        (accounts[i].id in started <==>
           accounts[i].id in old(rows) && ShouldStart(config, accounts[i], old(rows[accounts[i].id]), now))
    {
      started := [];
      ghost var was := rows;
      for k := 0 to |accounts|
        invariant rows.Keys == was.Keys
        invariant forall i :: 0 <= i < k && accounts[i].id in was ==>
          rows[accounts[i].id] == ScanOne(config, accounts[i], was[accounts[i].id], ticks[i]).0
        invariant forall id :: id in rows && (forall i :: 0 <= i < k ==> accounts[i].id != id) ==> rows[id] == was[id]
        invariant forall i :: k <= i < |accounts| ==> accounts[i].id !in started
        invariant forall i :: 0 <= i < k ==>
          (accounts[i].id in started <==>
             accounts[i].id in was && ShouldStart(config, accounts[i], was[accounts[i].id], now))
      {
        if accounts[k].id in rows {
          StartExactly(config, accounts[k], was[accounts[k].id], ticks[k]);
          var action := ScanAccount(accounts[k], ticks[k]);
          if action.Start? { started := started + [accounts[k].id]; }
        }
      }
    }
  }
}
