/** The reconnect loop of an IM session, one round per connection attempt. Delays are in
    seconds. */
module Reconnect {

  datatype Fault = RiskControl | AuthExpired | OtherFault

  datatype Ending =
    | StopRequested          // the connection block was left because of the stop event
    | TaskCancelled          // or an exception handler raised
    | Raised(fault: Fault)

  /** How far a connection came: `Counted` if the state callback raised, or the task was
      cancelled, after the connection was counted and before the back-off was reset. */
  datatype Reach = Unconnected | Counted | Online

  /** What one pass through the loop body meets. */
  datatype Round = Round(
    reach: Reach,
    ending: Ending,
    stopBeforeWait: bool,
    credentialsChanged: bool,
    stopDuringWait: bool
  )

  /** The loop's variables and the session's counters, with the waits made so far. */
  datatype Loop = Loop(
    attempt: nat,
    retryDelay: int,
    connections: nat,
    reconnects: nat,
    over: bool,
    tries: nat,
    waits: seq<int>
  )

  function Init(): Loop {
    Loop(0, 1, 0, 0, false, 0, [])
  }

  predicate Terminal(e: Ending) {
    e.Raised? && !e.fault.OtherFault?
  }

  function Min(a: int, b: int): int { if a < b then a else b }

  function NextDelay(retryDelay: int, waited: int, credentialsChanged: bool): int {
    if credentialsChanged then 1 else if waited < 900 then Min(retryDelay * 2, 60) else 60
  }

  /** Going online counts the connection and, once the state is announced, resets the back-off;
      the wait of this round was read before. */
  function AfterConnect(l: Loop, r: Round): Loop {
    var t := l.(tries := l.tries + 1);
    if r.reach.Unconnected? then t
    else
      var counted := t.(connections := l.connections + 1,
                        reconnects := if l.connections + 1 > 1 then l.reconnects + 1 else l.reconnects);
      if r.reach.Online? then counted.(attempt := 0, retryDelay := 1) else counted
  }

  function Step(l: Loop, r: Round): Loop {
    if l.over then l
    else
      var waited := l.retryDelay;
      var t := AfterConnect(l, r);
      if r.ending.TaskCancelled? || r.ending.StopRequested? || r.stopBeforeWait || Terminal(r.ending) then
        t.(over := true)
      else
        t.(attempt := t.attempt + 1, waits := t.waits + [waited],
           retryDelay := NextDelay(t.retryDelay, waited, r.credentialsChanged), over := r.stopDuringWait)
  }

  function Run(l: Loop, rounds: seq<Round>): Loop
    decreases |rounds|
  {
    if rounds == [] then l else Run(Step(l, rounds[0]), rounds[1..])
  }

  /** `_run`, with its local variables. */
  method RunLoop(rounds: seq<Round>) returns (l: Loop)
    ensures l == Run(Init(), rounds)
  {
    var attempt, retryDelay, connections, reconnects := 0, 1, 0, 0;
    var tries, waits, stopped := 0, [], false;
    var i := 0;
    while i < |rounds| && !stopped
      invariant 0 <= i <= |rounds|
      invariant connections >= 0 && reconnects >= 0 && attempt >= 0 && tries >= 0
      invariant Run(Init(), rounds)
        == Run(Loop(attempt, retryDelay, connections, reconnects, stopped, tries, waits), rounds[i..])
    {
      var r := rounds[i];
      var nextDelay := retryDelay;
      assert rounds[i..][0] == r && rounds[i..][1..] == rounds[i + 1..];
      tries := tries + 1;
      i := i + 1;
      if !r.reach.Unconnected? {
        connections := connections + 1;
        if connections > 1 {
          reconnects := reconnects + 1;
        }
        if r.reach.Online? {
          attempt := 0;
          retryDelay := 1;
        }
      }
      if r.ending.TaskCancelled? || r.ending.StopRequested? || r.stopBeforeWait || Terminal(r.ending) {
        stopped := true;
      } else {
        attempt := attempt + 1;
        waits := waits + [nextDelay];
        retryDelay := NextDelay(retryDelay, nextDelay, r.credentialsChanged);
        stopped := r.stopDuringWait;
      }
    }
    l := Loop(attempt, retryDelay, connections, reconnects, stopped, tries, waits);
    if stopped {
      OverStaysOver(l, rounds[i..]);
    }
  }

  lemma {:induction false} OverStaysOver(l: Loop, rounds: seq<Round>)
    requires l.over
    ensures Run(l, rounds) == l
    decreases |rounds|
  {
    if rounds != [] { OverStaysOver(l, rounds[1..]); }
  }

  const DELAYS: set<int> := {1, 2, 4, 8, 16, 32, 60}

  ghost predicate Inv(l: Loop) {
    && l.retryDelay in DELAYS
    && (forall i :: 0 <= i < |l.waits| ==> l.waits[i] in DELAYS)
    && l.reconnects == (if l.connections > 0 then l.connections - 1 else 0)
    && l.connections <= l.tries && |l.waits| <= l.tries
  }

  lemma {:induction false} RunKeepsInv(l: Loop, rounds: seq<Round>)
    requires Inv(l)
    ensures Inv(Run(l, rounds))
    decreases |rounds|
  {
    if rounds != [] { RunKeepsInv(Step(l, rounds[0]), rounds[1..]); }
  }

  /** Over every run each wait is one of 1, 2, 4, 8, 16, 32, 60 seconds, so the branch for
      delays of 900 and more is never taken, and the reconnect count is one less than the
      connections made. */
  lemma WaitsAndCounts(rounds: seq<Round>)
    ensures
      var l := Run(Init(), rounds);
      && (forall i :: 0 <= i < |l.waits| ==> l.waits[i] in DELAYS && l.waits[i] < 900)
      && l.reconnects == (if l.connections > 0 then l.connections - 1 else 0)
  {
    RunKeepsInv(Init(), rounds);
  }

  /** Nothing is tried after a risk-control or expired-login exception. */
  lemma {:induction false} NoAttemptAfterTerminal(l: Loop, before: seq<Round>, r: Round, after: seq<Round>)
    requires Terminal(r.ending)
    ensures Run(l, before + [r] + after).tries <= l.tries + |before| + 1
    decreases |before|
  {
    var all := before + [r] + after;
    if before == [] {
      assert all[0] == r && all[1..] == after;
      OverStaysOver(Step(l, r), after);
    } else {
      assert all[0] == before[0] && all[1..] == before[1..] + [r] + after;
      NoAttemptAfterTerminal(Step(l, before[0]), before[1..], r, after);
    }
  }

  ghost function Pow2(n: nat): nat {
    if n == 0 then 1 else 2 * Pow2(n - 1)
  }

  /** A round that failed before the back-off was reset, counted or not, without new
      credentials. */
  ghost predicate PlainFailure(r: Round) {
    !r.reach.Online? && r.ending == Raised(OtherFault) && !r.stopBeforeWait && !r.credentialsChanged && !r.stopDuringWait
  }

  /** After n plain failures the waits were min(2^i, 60), i below n. */
  lemma {:induction false} PlainFailuresBackOff(rounds: seq<Round>)
    requires forall i :: 0 <= i < |rounds| ==> PlainFailure(rounds[i])
    ensures
      var l := Run(Init(), rounds);
      && !l.over && |l.waits| == |rounds| == l.attempt == l.tries && l.retryDelay == Min(Pow2(|rounds|), 60)
      && forall i :: 0 <= i < |rounds| ==> l.waits[i] == Min(Pow2(i), 60)
  {
    if rounds != [] {
      var n := |rounds| - 1;
      PlainFailuresBackOff(rounds[..n]);
      assert rounds == rounds[..n] + [rounds[n]];
      RunSnoc(Init(), rounds[..n], rounds[n]);
    }
  }

  lemma {:induction false} RunSnoc(l: Loop, rounds: seq<Round>, r: Round)
    ensures Run(l, rounds + [r]) == Step(Run(l, rounds), r)
    decreases |rounds|
  {
    if rounds == [] {
      assert (rounds + [r])[1..] == [];
    } else {
      assert (rounds + [r])[1..] == rounds[1..] + [r];
      RunSnoc(Step(l, rounds[0]), rounds[1..], r);
    }
  }

  /** The reset on going online acts one round late: after n plain failures, a round that
      was online and then lost its connection still waits min(2^n, 60); the next failure
      waits 2 seconds. */
  lemma ResetActsOneRoundLate(failures: seq<Round>, lost: Round, next: Round)
    requires forall i :: 0 <= i < |failures| ==> PlainFailure(failures[i])
    requires lost.reach.Online? && PlainFailure(lost.(reach := Counted)) && PlainFailure(next)
    ensures
      var l := Run(Init(), failures + [lost] + [next]);
      && |l.waits| == |failures| + 2
      && l.waits[|failures|] == Min(Pow2(|failures|), 60)
      && l.waits[|failures| + 1] == 2
  {
    PlainFailuresBackOff(failures);
    RunSnoc(Init(), failures, lost);
    RunSnoc(Init(), failures + [lost], next);
  }

  /** New credentials start the back-off again: whatever happened before, the round after one
      that ended with new credentials waits one second if it fails. */
  lemma NewCredentialsRestart(before: seq<Round>, changed: Round, next: Round)
    requires !Run(Init(), before).over
    requires changed.credentialsChanged && PlainFailure(changed.(credentialsChanged := false, reach := Unconnected)) && PlainFailure(next)
    ensures
      var l := Run(Init(), before + [changed] + [next]);
      |l.waits| == |Run(Init(), before).waits| + 2 && l.waits[|l.waits| - 1] == 1
  {
    RunSnoc(Init(), before, changed);
    RunSnoc(Init(), before + [changed], next);
  }

  /** Each round tries one connection, counts it if it came that far, and announces a
      reconnection exactly when it is not the first of its series. */
  lemma RoundCounts(l: Loop, r: Round)
    requires !l.over
    ensures
      var t := Step(l, r);
      && t.tries == l.tries + 1
      && t.connections == l.connections + (if r.reach.Unconnected? then 0 else 1)
      && (PlainFailure(r) ==> t.attempt == l.attempt + 1)
      && (PlainFailure(r.(reach := Unconnected)) && r.reach.Online? ==> t.attempt == 1)
      && (r.ending in {TaskCancelled, StopRequested, Raised(RiskControl), Raised(AuthExpired)} || r.stopBeforeWait ==>
            t.over && t.waits == l.waits)
  {
  }
}
