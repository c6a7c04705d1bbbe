/** What every run of concurrent `execute` calls guarantees: one write per key, and outcomes that
    say what happened. */
module OrderGuarantees {
  import opened OrderPolicy
  import opened OrderRepository
  import opened MtopWrite
  import opened OrderProtocol

  // ----- how one step changes rows, owners and writes -----

  ghost predicate RowTouched(ops: Ops, after: Ops, s: State, c: nat) {
    c in s.calls && Settles(s.calls[c].pc) && OnlyRow(ops, after, s.calls[c].pc.op)
  }

  /** A call or late job that is about to store an outcome. */
  predicate Settles(pc: Pc) {
    pc.Replied? || pc.Repair? || pc.LateFinish? || pc.LateRepair?
  }

  ghost predicate RowAdded(ops: Ops, after: Ops, s: State, c: nat, id: nat) {
    && c in s.calls && (s.calls[c].pc.Ready? || s.calls[c].pc.LateCreate?) && id !in ops
    && after == ops[id := Draft(s.calls[c].req, s.calls[c].pc.account)]
  }

  lemma RecordTouchesOwnRow(s: State, e: Event)
    requires (e.Finish? || e.FinishRepair?) && e.call in s.calls
    ensures
      var ops' := CallStep(s, e).db.ops;
      ops' == s.db.ops || RowTouched(s.db.ops, ops', s, e.call)
  {
    var pc := s.calls[e.call].pc;
    if pc.Replied? && pc.op in s.db.ops && pc.op in s.h.evidence {
      SettledRow(s.db, pc.op, pc.basis, s.h.evidence[pc.op].verdict);
    }
    if pc.Repair? && pc.op in s.db.ops { FinishTouchesOneRow(s.db, pc.op, Uncertain, pc.basis.status, false); }
  }

  lemma LateChangesRows(s: State, c: nat, id: nat)
    requires c in s.calls
    ensures
      var ops' := RunLate(s, c, id).db.ops;
      || ops' == s.db.ops || RowTouched(s.db.ops, ops', s, c)
      || (RowAdded(s.db.ops, ops', s, c, id) && RunLate(s, c, id).calls[c].pc.Returned?)
  {
    match s.calls[c].pc {
      case LateFinish(op, basis) =>
        if op in s.db.ops && op in s.h.evidence { SettledRow(s.db, op, basis, s.h.evidence[op].verdict); }
      case LateRepair(op, basis) =>
        if op in s.db.ops { FinishTouchesOneRow(s.db, op, Uncertain, basis.status, false); }
      case _ =>
    }
  }

  lemma OtherEventsTouchNoRow(s: State, e: Event)
    requires !e.Create? && !e.Finish? && !e.FinishRepair? && !e.Late?
    ensures Step(s, e).db.ops == s.db.ops
  {
    match e {
      case RunPreflight(_, _) =>
      case CheckKey(_) =>
      case Fault(_) =>
      case _ =>
    }
  }

  lemma AddedOrTouchedKeeps(ops: Ops, after: Ops, s: State, c: nat, id: nat)
    requires after == ops || RowTouched(ops, after, s, c) || RowAdded(ops, after, s, c, id)
    ensures RowsKept(ops, after)
  {
  }

  /** How one step changes the rows: not at all, by a new row of the call that inserts it, or in
      the row that the stepping call owns. */
  lemma RowChange(s: State, e: Event)
    ensures
      var ops' := Step(s, e).db.ops;
      || ops' == s.db.ops
      || ((e.Create? || e.Late?) && RowAdded(s.db.ops, ops', s, e.call, e.id))
      || ((e.Finish? || e.FinishRepair? || e.Late?) && RowTouched(s.db.ops, ops', s, e.call))
    ensures RowsKept(s.db.ops, Step(s, e).db.ops)
  {
    if e.Finish? || e.FinishRepair? {
      if e.call in s.calls {
        RecordTouchesOwnRow(s, e);
        AddedOrTouchedKeeps(s.db.ops, Step(s, e).db.ops, s, e.call, 0);
      }
    } else if e.Late? {
      if e.call in s.calls {
        LateChangesRows(s, e.call, e.id);
        AddedOrTouchedKeeps(s.db.ops, Step(s, e).db.ops, s, e.call, e.id);
      }
    } else if e.Create? {
      if e.call in s.calls { AddedOrTouchedKeeps(s.db.ops, Step(s, e).db.ops, s, e.call, e.id); }
    } else {
      OtherEventsTouchNoRow(s, e);
    }
  }

  lemma {:induction false} RunKeepsInv(s: State, events: seq<Event>)
    requires Inv(s)
    ensures Inv(Run(s, events))
    ensures RowsKept(s.db.ops, Run(s, events).db.ops)
    decreases |events|
  {
    if events != [] {
      StepKeepsInv(s, events[0]);
      RowChange(s, events[0]);
      RunKeepsInv(Step(s, events[0]), events[1..]);
    }
  }

  lemma InitIsSound(orders: map<string, Order>)
    ensures Inv(Init(orders))
  {
  }

  lemma PreparingOwnsNothing(s: State, e: Event)
    requires (e.Acquire? || e.LoadOrder? || e.CheckKey?) && e.call in s.calls
    ensures KeepsOwn(s.calls, CallStep(s, e).calls, e.call)
  {
  }

  lemma PreflightOwnsNothing(s: State, e: Event)
    requires e.RunPreflight? && e.call in s.calls
    ensures KeepsOwn(s.calls, CallStep(s, e).calls, e.call)
  {
  }

  lemma InsertingOwnsNewRow(s: State, e: Event)
    requires e.Create? && e.call in s.calls
    ensures
      || KeepsOwn(s.calls, CallStep(s, e).calls, e.call)
      || (OnlyCall(s.calls, CallStep(s, e).calls, e.call) && e.id !in s.db.ops
          && CallStep(s, e).calls[e.call].pc == Opened(e.id, s.calls[e.call].pc.basis))
  {
  }

  lemma WritingKeepsOwn(s: State, e: Event)
    requires (e.BeginWrite? || e.RefuseWrite? || e.EndWrite? || e.Complete? || e.Cancel? || e.Fault?) && e.call in s.calls
    ensures KeepsOwn(s.calls, CallStep(s, e).calls, e.call)
  {
  }

  lemma RecordingKeepsOwn(s: State, e: Event)
    requires (e.Finish? || e.FinishRepair?) && e.call in s.calls
    ensures KeepsOwn(s.calls, CallStep(s, e).calls, e.call)
  {
  }

  lemma DetachKeepsOwn(s: State, e: Event)
    requires e.Detach? && e.call in s.calls
    ensures KeepsOwn(s.calls, CallStep(s, e).calls, e.call)
  {
  }

  lemma LateInsertOwnsNothing(s: State, c: nat, id: nat)
    requires c in s.calls && s.calls[c].pc.LateCreate? && id !in s.db.ops
    ensures KeepsOwn(s.calls, InsertLate(s, c, id).calls, c)
  {
  }

  lemma LateOwnsNothing(s: State, c: nat, id: nat)
    requires c in s.calls
    ensures KeepsOwn(s.calls, RunLate(s, c, id).calls, c)
  {
    if s.calls[c].pc.LateCreate? && id !in s.db.ops { LateInsertOwnsNothing(s, c, id); }
  }

  ghost predicate ByCall(e: Event) {
    !e.Crash? && !e.OrderRefreshed? && !e.Arrive?
  }

  /** A call's step changes that call only, and gives it no operation but one it inserts. */
  lemma CallStepChange(s: State, e: Event)
    requires ByCall(e) && e.call in s.calls
    ensures
      || KeepsOwn(s.calls, CallStep(s, e).calls, e.call)
      || (OnlyCall(s.calls, CallStep(s, e).calls, e.call) && e.Create? && e.id !in s.db.ops
          && CallStep(s, e).calls[e.call].pc == Opened(e.id, s.calls[e.call].pc.basis))
  {
    if e.Create? { InsertingOwnsNewRow(s, e); }
    else if e.Acquire? || e.LoadOrder? || e.CheckKey? { PreparingOwnsNothing(s, e); }
    else if e.RunPreflight? { PreflightOwnsNothing(s, e); }
    else if e.Finish? || e.FinishRepair? { RecordingKeepsOwn(s, e); }
    else if e.Detach? { DetachKeepsOwn(s, e); }
    else if e.Late? { LateOwnsNothing(s, e.call, e.id); }
    else { WritingKeepsOwn(s, e); }
  }

  /** What one step does to the calls. */
  lemma CallsChange(s: State, e: Event)
    ensures
      var after := Step(s, e).calls;
      || after == s.calls || after == map[]
      || (e.Arrive? && after == s.calls[e.call := Call(e.req, Waiting)])
      || (ByCall(e) && OnlyCall(s.calls, after, e.call))
  {
    if ByCall(e) && e.call in s.calls { CallStepChange(s, e); }
  }

  /** A step either adds no write or adds the one of a call or late job that opened its row. */
  lemma WriteChange(s: State, e: Event)
    ensures
      var t := Step(s, e);
      || t.writes == s.writes
      || (&& (e.BeginWrite? || e.Late?) && e.call in s.calls && (s.calls[e.call].pc.Opened? || s.calls[e.call].pc.LateWrite?)
          && t.writes == s.writes + [Write(s.calls[e.call].pc.op, s.calls[e.call].pc.basis)])
  {
  }

  /** Ownership is only gained by inserting the row, and otherwise kept or given up. */
  lemma OwnershipChange(s: State, e: Event, c: nat)
    requires c in Step(s, e).calls && Owns(Step(s, e).calls[c].pc)
    ensures c in s.calls
    ensures
      || (Owns(s.calls[c].pc) && s.calls[c].pc.op == Step(s, e).calls[c].pc.op)
      || (e.Create? && Step(s, e).calls[c].pc.op == e.id && e.id !in s.db.ops)
  {
    if ByCall(e) && e.call in s.calls { CallStepChange(s, e); }
  }

  // ----- at most once -----

  /** Over every interleaving with cancellations, late jobs and crashes: one row per account and
      idempotency key, at most one platform write per key, at most one operation in progress
      per order, and every write was offered by the refreshed order. */
  lemma AtMostOnce(orders: map<string, Order>, events: seq<Event>)
    ensures
      var s := Run(Init(orders), events);
      && UniqueKeys(s.db.ops)
      && OneProcessing(s.db.ops)
      && (forall i :: 0 <= i < |s.writes| ==>
            s.writes[i].op in s.db.ops && MayPerform(s.writes[i].basis, s.db.ops[s.writes[i].op].action))
      && (forall i, j :: 0 <= i < j < |s.writes| ==>
            var a, b := s.db.ops[s.writes[i].op], s.db.ops[s.writes[j].op];
            a.account != b.account || a.key != b.key)
  {
    var s := Run(Init(orders), events);
    InitIsSound(orders);
    RunKeepsInv(Init(orders), events);
    forall i | 0 <= i < |s.writes|
      ensures s.writes[i].op in s.db.ops && MayPerform(s.writes[i].basis, s.db.ops[s.writes[i].op].action)
    {
      EnabledExactlyWhenPermitted(s.writes[i].basis, s.db.ops[s.writes[i].op].action);
    }
  }

  // ----- what a recorded outcome says -----

  /** The verdict kept with the evidence is the one drawn from it. */
  ghost predicate RulingsOk(h: History) {
    forall op {:trigger h.evidence[op]} :: op in h.evidence ==> h.evidence[op].verdict == VerdictFor(h.evidence[op].ev)
  }

  lemma EvidenceChange(s: State, e: Event)
    ensures
      || Step(s, e).h.evidence == s.h.evidence
      || (&& e.EndWrite? && e.call in s.calls && s.calls[e.call].pc.Writing?
          && var ev := Evidence(s.calls[e.call].req.action, e.fieldsPresent, e.first, e.second);
             Step(s, e).h.evidence == s.h.evidence[s.calls[e.call].pc.op := Ruling(ev, VerdictFor(ev))])
  {
  }

  lemma {:induction false} RulingsKept(s: State, events: seq<Event>)
    requires RulingsOk(s.h)
    ensures RulingsOk(Run(s, events).h)
    decreases |events|
  {
    if events != [] {
      EvidenceChange(s, events[0]);
      RulingsKept(Step(s, events[0]), events[1..]);
    }
  }

  /** No request of the write is unanswered, and none went out, or the last one was refused in the
      platform's own words or asked for a retry that could not be signed. */
  ghost predicate RefusedTruly(ev: Evidence) {
    var out := if ev.fieldsPresent then Requests(ev.first, ev.second) else [];
    && (forall t :: t in out ==> t.Answered?)
    && (|| out == [] || RefusedInText(out[|out| - 1])
        || (ev.first.Answered? && SaysTokenExpired(ev.first.answer.dump) && ev.second.MissingToken?))
  }

  /** The deciding answer says success, or a shipping was refused as already delivered. */
  ghost predicate AcceptedTruly(ev: Evidence) {
    var last := DecidingPass(ev.first, ev.second);
    (last.Answered? && SaysSuccess(last.answer)) || NoticedAsDelivered(ev.action, last)
  }

  lemma RulingIsTruthful(r: Ruling)
    requires r.verdict == VerdictFor(r.ev)
    ensures r.verdict.Rejected? ==> RefusedTruly(r.ev)
    ensures r.verdict.Done? ==> AcceptedTruly(r.ev)
  {
    var ev := r.ev;
    VerdictByText(ev.action, ev.fieldsPresent, ev.first, ev.second);
    RetryByText(ev.first, ev.second);
    if r.verdict.Rejected? {
      RejectedIsTruthful(ev.action, ev.fieldsPresent, ev.first, ev.second);
      var out := Requests(ev.first, ev.second);
      if out != [] && out[|out| - 1].Answered? { SuccessIsSaid(out[|out| - 1].answer); }
    }
  }

  /** Recorded outcomes are truthful in every reachable state: `failed` and `succeeded` follow a
      write and what the platform answered; `uncertain` follows a write, unless the executor
      refused to take it, and then no request ever went out. */
  lemma RecordedOutcomesAreTruthful(orders: map<string, Order>, events: seq<Event>, op: nat)
    requires op in Run(Init(orders), events).db.ops
    ensures
      var s := Run(Init(orders), events);
      var status := s.db.ops[op].status;
      && (status.Failed? ==> Wrote(s.writes, op) && op in s.h.evidence && RefusedTruly(s.h.evidence[op].ev))
      && (status.Succeeded? ==>
            && Wrote(s.writes, op) && op in s.h.evidence && AcceptedTruly(s.h.evidence[op].ev)
            && s.h.evidence[op].ev.action == s.db.ops[op].action)
      && (status.Uncertain? ==> (Wrote(s.writes, op) <==> op !in s.h.refused))
  {
    var s := Run(Init(orders), events);
    InitIsSound(orders);
    RunKeepsInv(Init(orders), events);
    RulingsKept(Init(orders), events);
    assert Truthful(s.db.ops[op].status, s.h, op);
    if op in s.h.evidence { RulingIsTruthful(s.h.evidence[op]); }
  }

  /** A refused write is recorded as `uncertain`, though nothing was sent: exactly the step by
      which a saturated or closed executor answers an opened operation leads there. */
  lemma RefusalIsRecordedUncertain(s: State, c: nat)
    requires Inv(s) && c in s.calls && s.calls[c].pc.Opened?
    ensures
      var op := s.calls[c].pc.op;
      var t := Step(Step(s, RefuseWrite(c)), FinishRepair(c));
      && op in t.db.ops && t.db.ops[op].status.Uncertain? && op in t.h.refused && t.writes == s.writes
      && !Wrote(t.writes, op) && t.calls[c].pc == Returned(Performed(op))
  {
    assert Good(s, c);
    var pc := s.calls[c].pc;
    var t := NoteRefusal(s, c);
    assert Step(s, RefuseWrite(c)) == t;
    RepairRecordsUncertain(t, c);
  }

  lemma RepairRecordsUncertain(s: State, c: nat)
    requires c in s.calls && s.calls[c].pc.Repair? && s.calls[c].pc.op in s.db.ops
    ensures
      var op, t := s.calls[c].pc.op, Step(s, FinishRepair(c));
      && op in t.db.ops && t.db.ops[op].status.Uncertain? && t.writes == s.writes && t.h == s.h
      && c in t.calls && t.calls[c].pc == Returned(Performed(op))
  {
    FinishTouchesOneRow(s.db, s.calls[c].pc.op, Uncertain, s.calls[c].pc.basis.status, false);
  }
}
