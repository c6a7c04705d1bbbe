/** Operations that stay in progress for good: which they are, what becomes of their order, and
    which events leave them so. */
module OrderStranding {
  import opened OrderPolicy
  import opened OrderRepository
  import opened MtopWrite
  import opened OrderProtocol
  import opened OrderGuarantees

  // ----- operations left in progress -----

  ghost predicate InProgress(s: State, op: nat) {
    op in s.db.ops && s.db.ops[op].status.Processing?
  }

  /** The call, or the late job left of it, works on this operation. */
  ghost predicate Holds(s: State, c: nat, op: nat) {
    c in s.calls && Owns(s.calls[c].pc) && s.calls[c].pc.op == op
  }

  /** A late write of the operation has not gone out yet. */
  ghost predicate LateWriteDue(s: State, op: nat) {
    exists c :: Holds(s, c, op) && s.calls[c].pc.LateWrite?
  }

  /** An operation in progress that nothing holds but a late write, whose answer nobody reads. */
  ghost predicate Stranded(s: State, op: nat) {
    InProgress(s, op) && forall c :: Holds(s, c, op) ==> s.calls[c].pc.LateWrite?
  }

  /** A late write runs or is dropped. */
  lemma LateWriteEnds(s: State, e: Event)
    requires ByCall(e) && e.call in s.calls && s.calls[e.call].pc.LateWrite?
    ensures CallStep(s, e) == s || (e.call in CallStep(s, e).calls && CallStep(s, e).calls[e.call].pc.Returned?)
  {
  }

  lemma StrandedHolders(s: State, e: Event, op: nat, c: nat)
    requires Stranded(s, op) && Holds(Step(s, e), c, op)
    ensures Holds(s, c, op) && s.calls[c].pc.LateWrite? && Step(s, e).calls[c].pc.LateWrite?
  {
    OwnershipChange(s, e, c);
    assert Holds(s, c, op);
    CallsChange(s, e);
    if ByCall(e) && e.call == c { LateWriteEnds(s, e); }
  }

  /** Since `s` the order of `op` was written at most by the late write of `op` itself. */
  ghost predicate OnlyLateWrite(s: State, t: State, op: nat)
    requires op in s.db.ops
  {
    && s.writes <= t.writes
    && forall i :: |s.writes| <= i < |t.writes| ==>
         && t.writes[i].op in t.db.ops
         && (t.db.ops[t.writes[i].op].order == s.db.ops[op].order ==> t.writes[i].op == op && LateWriteDue(s, op))
  }

  lemma StrandedStep(s: State, e: Event, op: nat)
    requires Inv(s) && Stranded(s, op)
    ensures Stranded(Step(s, e), op) && (LateWriteDue(Step(s, e), op) ==> LateWriteDue(s, op))
    ensures OnlyLateWrite(s, Step(s, e), op)
  {
    var t := Step(s, e);
    forall c | Holds(t, c, op) ensures t.calls[c].pc.LateWrite? && LateWriteDue(s, op) { StrandedHolders(s, e, op, c); }
    StrandedRowKept(s, e, op);
    StrandedWrites(s, e, op);
  }

  lemma StrandedRowKept(s: State, e: Event, op: nat)
    requires Stranded(s, op)
    ensures InProgress(Step(s, e), op)
  {
    RowChange(s, e);
    if ByCall(e) && RowTouched(s.db.ops, Step(s, e).db.ops, s, e.call) { assert !Holds(s, e.call, op); }
  }

  lemma StrandedWrites(s: State, e: Event, op: nat)
    requires Inv(s) && Stranded(s, op)
    ensures OnlyLateWrite(s, Step(s, e), op)
  {
    var t := Step(s, e);
    RowChange(s, e);
    WriteChange(s, e);
    if t.writes != s.writes {
      assert Good(s, e.call);
      assert Holds(s, e.call, s.calls[e.call].pc.op);
    }
  }

  /** Over every run a stranded operation stays in progress, and its order is written at most
      once more, by the late write of the operation itself. */
  lemma {:induction false} StrandedForGood(s: State, events: seq<Event>, op: nat)
    requires Inv(s) && Stranded(s, op)
    ensures Stranded(Run(s, events), op) && OnlyLateWrite(s, Run(s, events), op)
    decreases |events|
  {
    if events != [] {
      var m := Step(s, events[0]);
      StrandedStep(s, events[0], op);
      StepKeepsInv(s, events[0]);
      StrandedForGood(m, events[1..], op);
      RowChange(s, events[0]);
      RunKeepsInv(m, events[1..]);
      OnlyLateWriteJoins(s, m, Run(m, events[1..]), op);
    }
  }

  lemma OnlyLateWriteJoins(s: State, m: State, t: State, op: nat)
    requires op in s.db.ops && RowsKept(s.db.ops, m.db.ops) && RowsKept(m.db.ops, t.db.ops)
    requires OnlyLateWrite(s, m, op) && OnlyLateWrite(m, t, op)
    requires LateWriteDue(m, op) ==> LateWriteDue(s, op)
    ensures OnlyLateWrite(s, t, op)
  {
    forall i | |s.writes| <= i < |t.writes|
      ensures t.writes[i].op in t.db.ops
      ensures t.db.ops[t.writes[i].op].order == s.db.ops[op].order ==> t.writes[i].op == op && LateWriteDue(s, op)
    {
      if i < |m.writes| { assert t.writes[i] == m.writes[i]; }
    }
  }

  // ----- every other operation can still be settled -----

  lemma RunOne(s: State, e: Event)
    ensures Run(s, [e]) == Step(s, e)
  {
    assert [e][1..] == [];
  }

  lemma RunTwo(s: State, e: Event, f: Event)
    ensures Run(s, [e, f]) == Step(Step(s, e), f)
  {
    assert [e, f] == [e] + [f];
    RunCons(s, e, [f]);
    RunOne(Step(s, e), f);
  }

  lemma FinishSettles(s: State, c: nat)
    requires Good(s, c) && s.calls[c].pc.Replied?
    ensures !InProgress(Step(s, Finish(c)), s.calls[c].pc.op)
  {
    var pc := s.calls[c].pc;
    SettledRow(s.db, pc.op, pc.basis, s.h.evidence[pc.op].verdict);
  }

  lemma LateFinishSettles(s: State, c: nat, id: nat)
    requires Good(s, c) && s.calls[c].pc.LateFinish?
    ensures
      var op, ops' := s.calls[c].pc.op, RunLate(s, c, id).db.ops;
      op in ops' && !ops'[op].status.Processing?
  {
    var pc := s.calls[c].pc;
    SettledRow(s.db, pc.op, pc.basis, s.h.evidence[pc.op].verdict);
  }

  lemma LateRepairSettles(s: State, c: nat, id: nat)
    requires Good(s, c) && s.calls[c].pc.LateRepair?
    ensures
      var op, ops' := s.calls[c].pc.op, RunLate(s, c, id).db.ops;
      op in ops' && !ops'[op].status.Processing?
  {
    FinishTouchesOneRow(s.db, s.calls[c].pc.op, Uncertain, s.calls[c].pc.basis.status, false);
  }

  lemma LateJobSettles(s: State, c: nat, id: nat)
    requires Good(s, c) && (s.calls[c].pc.LateFinish? || s.calls[c].pc.LateRepair?)
    ensures
      var op, t := s.calls[c].pc.op, Step(s, Late(c, id));
      op in t.db.ops && !InProgress(t, op)
  {
    assert Step(s, Late(c, id)) == RunLate(s, c, id);
    if s.calls[c].pc.LateFinish? { LateFinishSettles(s, c, id); } else { LateRepairSettles(s, c, id); }
  }

  lemma WritingSettles(s: State, c: nat) returns (events: seq<Event>)
    requires Inv(s) && Good(s, c) && s.calls[c].pc.Writing?
    ensures !InProgress(Run(s, events), s.calls[c].pc.op)
  {
    var end := EndWrite(c, false, MissingToken, MissingToken);
    var t := Step(s, end);
    StepKeepsInv(s, end);
    assert Good(t, c);
    events := [end, Finish(c)];
    RunTwo(s, end, Finish(c));
    FinishSettles(t, c);
  }

  lemma LateSettles(s: State, c: nat) returns (events: seq<Event>)
    requires Good(s, c) && (s.calls[c].pc.LateFinish? || s.calls[c].pc.LateRepair?)
    ensures !InProgress(Run(s, events), s.calls[c].pc.op)
  {
    events := [Late(c, 0)];
    RunOne(s, Late(c, 0));
    LateJobSettles(s, c, 0);
  }

  /** A call or late job other than a late write can still settle its operation. */
  lemma HolderSettles(s: State, c: nat, op: nat) returns (events: seq<Event>)
    requires Inv(s) && Holds(s, c, op) && !s.calls[c].pc.LateWrite?
    ensures !InProgress(Run(s, events), op)
  {
    assert Good(s, c);
    match s.calls[c].pc {
      case Opened(_, _) =>
        events := [RefuseWrite(c), FinishRepair(c)];
        RunTwo(s, RefuseWrite(c), FinishRepair(c));
        RefusalIsRecordedUncertain(s, c);
      case Writing(_, _) => events := WritingSettles(s, c);
      case Replied(_, _) =>
        events := [Finish(c)];
        RunOne(s, Finish(c));
        FinishSettles(s, c);
      case Repair(_, _) =>
        events := [FinishRepair(c)];
        RunOne(s, FinishRepair(c));
        RepairRecordsUncertain(s, c);
      case Recorded(_, _) => events := [];
      case LateFinish(_, _) => events := LateSettles(s, c);
      case LateRepair(_, _) => events := LateSettles(s, c);
    }
  }

  /** An operation in progress stays so whatever happens if and only if nothing holds it but a
      late write. */
  lemma NeverSettledExactly(s: State, op: nat)
    requires Inv(s) && InProgress(s, op)
    ensures Stranded(s, op) <==> forall events :: InProgress(Run(s, events), op)
  {
    if Stranded(s, op) {
      forall events ensures InProgress(Run(s, events), op) { StrandedForGood(s, events, op); }
    } else {
      var c :| Holds(s, c, op) && !s.calls[c].pc.LateWrite?;
      var events := HolderSettles(s, c, op);
    }
  }

  // ----- what strands an operation -----

  /** The event takes an operation from the call or late job that holds it: the process dies, the
      holder is cancelled, it is cancelled for the second time before its write, or its handler
      raises. */
  ghost predicate Strands(s: State, e: Event, op: nat) {
    || e.Crash?
    || (&& ByCall(e) && Holds(s, e.call, op)
        && var pc := s.calls[e.call].pc;
           || e.Cancel?
           || (e.Detach? && pc.Opened?)
           || (e.Fault? && (pc.Repair? || (pc.Replied? && op in s.h.evidence && !s.h.evidence[op].verdict.Done?))))
  }

  /** The call holds the operation and can still settle it. */
  ghost predicate CanSettle(s: State, c: nat, op: nat) {
    Holds(s, c, op) && !s.calls[c].pc.LateWrite?
  }

  lemma StrandingStep(s: State, e: Event, op: nat)
    requires ByCall(e) && CanSettle(s, e.call, op) && InProgress(s, op) && Strands(s, e, op)
    ensures InProgress(Step(s, e), op) && !CanSettle(Step(s, e), e.call, op)
  {
  }

  lemma RecordingSettles(s: State, e: Event, op: nat)
    requires Inv(s) && (e.Finish? || e.FinishRepair? || e.Late?) && CanSettle(s, e.call, op)
    ensures !InProgress(Step(s, e), op) || Step(s, e) == s
  {
    var c := e.call;
    assert Good(s, c);
    if e.Finish? && s.calls[c].pc.Replied? { FinishSettles(s, c); }
    else if e.FinishRepair? && s.calls[c].pc.Repair? { RepairRecordsUncertain(s, c); }
    else if e.Late? && (s.calls[c].pc.LateFinish? || s.calls[c].pc.LateRepair?) { LateJobSettles(s, c, e.id); }
  }

  lemma EarlyEventsDoNothing(s: State, e: Event)
    requires (e.Acquire? || e.LoadOrder? || e.CheckKey? || e.RunPreflight? || e.Create?) && e.call in s.calls
    requires Owns(s.calls[e.call].pc)
    ensures Step(s, e) == s
  {
  }

  lemma WritingGoesOn(s: State, e: Event, op: nat)
    requires (e.BeginWrite? || e.RefuseWrite? || e.EndWrite?) && CanSettle(s, e.call, op)
    ensures CanSettle(Step(s, e), e.call, op)
  {
  }

  lemma LeavingGoesOn(s: State, e: Event, op: nat)
    requires Inv(s) && (e.Complete? || e.Detach? || e.Fault?) && CanSettle(s, e.call, op)
    requires InProgress(s, op) && !Strands(s, e, op)
    ensures CanSettle(Step(s, e), e.call, op)
  {
    assert Good(s, e.call);
  }

  /** Any other step of the holder leaves it able to settle, or has settled. */
  lemma HolderGoesOn(s: State, e: Event, op: nat)
    requires Inv(s) && ByCall(e) && CanSettle(s, e.call, op) && InProgress(s, op) && !Strands(s, e, op)
    ensures !InProgress(Step(s, e), op) || CanSettle(Step(s, e), e.call, op)
  {
    if e.Finish? || e.FinishRepair? || e.Late? { RecordingSettles(s, e, op); }
    else if e.BeginWrite? || e.RefuseWrite? || e.EndWrite? { WritingGoesOn(s, e, op); }
    else if e.Complete? || e.Detach? || e.Fault? { LeavingGoesOn(s, e, op); }
    else if !e.Cancel? { EarlyEventsDoNothing(s, e); }
  }

  lemma OthersLeaveHolder(s: State, e: Event, c: nat, op: nat)
    requires CanSettle(s, c, op) && !e.Crash? && (ByCall(e) ==> e.call != c)
    ensures CanSettle(Step(s, e), c, op)
  {
    CallsChange(s, e);
  }

  lemma SoleHolder(s: State, e: Event, c: nat, op: nat)
    requires Inv(s) && Holds(s, c, op) && op in s.db.ops
    ensures forall d :: Holds(Step(s, e), d, op) ==> d == c
    ensures forall d :: Holds(s, d, op) ==> d == c
  {
    forall d | Holds(Step(s, e), d, op) ensures d == c { OwnershipChange(s, e, d); }
  }

  /** From a state in which an operation can still be settled, one event strands it exactly in
      these cases. */
  lemma StrandedExactlyBy(s: State, e: Event, op: nat)
    requires Inv(s) && InProgress(s, op) && !Stranded(s, op)
    ensures Stranded(Step(s, e), op) <==> Strands(s, e, op)
  {
    var c :| Holds(s, c, op) && !s.calls[c].pc.LateWrite?;
    assert CanSettle(s, c, op);
    SoleHolder(s, e, c, op);
    if e.Crash? {
      CrashAbandons(s, op);
    } else if ByCall(e) && e.call == c {
      if Strands(s, e, op) { StrandingStep(s, e, op); } else { HolderGoesOn(s, e, op); }
    } else {
      OthersLeaveHolder(s, e, c, op);
    }
  }

  /** A stranded operation that no late write holds either. */
  ghost predicate Abandoned(s: State, op: nat) {
    Stranded(s, op) && !LateWriteDue(s, op)
  }

  /** The order of an abandoned operation is never written again. */
  lemma AbandonedOrderIsNeverWrittenAgain(s: State, events: seq<Event>, op: nat)
    requires Inv(s) && Abandoned(s, op)
    ensures
      var t := Run(s, events);
      && InProgress(t, op)
      && s.writes <= t.writes
      && forall i :: |s.writes| <= i < |t.writes| ==>
           t.writes[i].op in t.db.ops && t.db.ops[t.writes[i].op].order != s.db.ops[op].order
  {
    StrandedForGood(s, events, op);
  }

  /** The late write does go out, and leaves the operation abandoned. */
  lemma LateWriteAbandons(s: State, c: nat)
    requires Inv(s) && Good(s, c) && s.calls[c].pc.LateWrite?
    ensures
      var op, t := s.calls[c].pc.op, Step(s, Late(c, 0));
      !Wrote(s.writes, op) && Wrote(t.writes, op) && Abandoned(t, op)
  {
    var pc, t := s.calls[c].pc, Step(s, Late(c, 0));
    assert t.writes[|s.writes|] == Write(pc.op, pc.basis);
    assert Holds(s, c, pc.op);
    SoleHolder(s, Late(c, 0), c, pc.op);
    assert t.calls[c].pc.Returned?;
  }

  /** A crash abandons every operation in progress. */
  lemma CrashAbandons(s: State, op: nat)
    requires InProgress(s, op)
    ensures Abandoned(Step(s, Crash), op)
  {
  }

  /** A late insert that commits a row abandons it from the start. */
  lemma LateInsertAbandons(s: State, c: nat, id: nat)
    requires Inv(s) && c in s.calls && s.calls[c].pc.LateCreate? && id !in s.db.ops
    ensures
      var req, t := s.calls[c].req, Step(s, Late(c, id));
      Abandoned(t, id) <==>
        req.order in s.db.orders && !Busy(s.db, req.order) && !KeyTaken(s.db, s.calls[c].pc.account, req.key)
  {
    var t := Step(s, Late(c, id));
    forall d | d in t.calls && Owns(t.calls[d].pc) ensures !Holds(t, d, id) {
      OwnershipChange(s, Late(c, id), d);
      assert Good(s, d);
    }
  }

  /** A call cancelled twice while its verdict is being stored leaves its order unlocked with the
      operation still in progress, and the verdict is stored all the same. */
  lemma SecondCancelCommitsLate(s: State, c: nat)
    requires Inv(s) && Good(s, c) && s.calls[c].pc.Replied?
    ensures
      var op, left := s.calls[c].pc.op, Step(s, Detach(c));
      && s.calls[c].req.order !in left.locks && left.db == s.db && InProgress(left, op)
      && op in Step(left, Late(c, 0)).db.ops && !InProgress(Step(left, Late(c, 0)), op)
  {
    var pc := s.calls[c].pc;
    var left := Release(s, c, LateFinish(pc.op, pc.basis));
    assert Step(s, Detach(c)) == left;
    DetachIsGood(s, c);
    LateJobSettles(left, c, 0);
  }
}
