/** The table that pairs a local conversation with a Chatwoot conversation. Transactions
    read, decide and commit; others may commit in between, and the two unique indexes then
    refuse a commit that would bind an id twice. */
module ConversationMap {

  datatype Local = Local(account: string, conversation: string)

  datatype Row = Row(remote: string, peer: string, source: string, inbox: int, identifier: string)

  type Rows = map<Local, Row>

  /** One call of `_create_conversation_map_sync`; `inbox` 0 and `identifier` "" stand for a
      missing value. */
  datatype Request = Request(key: Local, row: Row)

  datatype Result =
    | Bound(row: Row)
    | AlreadyBound(other: Local)
    | IntegrityError

  datatype Lookup = Nobody | Owner(key: Local)

  /** No two local conversations share a remote id. */
  ghost predicate Injective(rows: Rows) {
    forall a, b :: a in rows && b in rows && rows[a].remote == rows[b].remote ==> a == b
  }

  ghost function ByRemote(rows: Rows, remote: string): (r: Lookup)
    ensures r.Nobody? <==> forall k :: k in rows ==> rows[k].remote != remote
    ensures r.Owner? ==> r.key in rows && rows[r.key].remote == remote
  {
    if k :| k in rows && rows[k].remote == remote then Owner(k) else Nobody
  }

  /** Rebinding keeps the stored inbox when the call brings none. */
  function Merged(stored: Row, given: Row): Row {
    given.(inbox := if given.inbox != 0 then given.inbox else stored.inbox,
           identifier := if given.identifier != "" then given.identifier else stored.identifier)
  }

  /** The remote id belongs to another local conversation. */
  ghost predicate TakenByOther(rows: Rows, req: Request) {
    exists k :: k in rows && rows[k].remote == req.row.remote && k != req.key
  }

  /** An update writes the columns that differ from what was read, and leaves the others as they
      are by then. */
  function Written(read: Row, current: Row, wanted: Row): Row {
    Row(if wanted.remote != read.remote then wanted.remote else current.remote,
        if wanted.peer != read.peer then wanted.peer else current.peer,
        if wanted.source != read.source then wanted.source else current.source,
        if wanted.inbox != read.inbox then wanted.inbox else current.inbox,
        if wanted.identifier != read.identifier then wanted.identifier else current.identifier)
  }

  /** The commit writes the remote id. */
  predicate WritesRemote(seen: Rows, req: Request) {
    req.key !in seen || seen[req.key].remote != req.row.remote
  }

  /** Decide on `seen`, commit on `current`. The answer is the row as the transaction has it. */
  ghost function Transact(seen: Rows, current: Rows, req: Request): (Rows, Result) {
    if TakenByOther(seen, req) then (current, AlreadyBound(Holder(seen, req)))
    else if WritesRemote(seen, req) && TakenByOther(current, req) then
      (current, AlreadyBound(Holder(current, req)))
    else if (req.key in seen) != (req.key in current) then (current, IntegrityError)
    else if req.key in seen then
      var wanted := Merged(seen[req.key], req.row);
      (current[req.key := Written(seen[req.key], current[req.key], wanted)], Bound(wanted))
    else (current[req.key := req.row], Bound(req.row))
  }

  ghost function Holder(rows: Rows, req: Request): (k: Local)
    requires TakenByOther(rows, req)
    ensures k in rows && rows[k].remote == req.row.remote && k != req.key
  {
    var k :| k in rows && rows[k].remote == req.row.remote && k != req.key;
    k
  }

  /** The repository method, run without another transaction in between. */
  class ConversationRepository {
    var rows: Rows

    constructor ()
      ensures rows == map[]
    {
      rows := map[];
    }

    method CreateConversationMap(req: Request) returns (result: Result)
      requires Injective(rows)
      modifies this
      ensures Injective(rows)
      ensures (rows, result) == Transact(old(rows), old(rows), req)
      ensures !result.IntegrityError?
      ensures result.Bound? <==> !TakenByOther(old(rows), req)
      ensures result.Bound? ==> ByRemote(rows, req.row.remote) == Owner(req.key)
      ensures !result.Bound? ==> rows == old(rows)
    {
      var before := rows;
      if k :| k in rows && rows[k].remote == req.row.remote && k != req.key {
        assert TakenByOther(rows, req);
        result := AlreadyBound(k);
        assert k == Holder(rows, req);
        return;
      }
      var row := if req.key in rows then Merged(rows[req.key], req.row) else req.row;
      rows := rows[req.key := row];
      BindKeepsInjective(before, req, row);
      result := Bound(row);
    }

    /** The stored row, whose remote id leads back to the conversation. */
    method GetByLocal(key: Local) returns (found: bool, row: Row)
      requires Injective(rows)
      ensures found <==> key in rows
      ensures found ==> row == rows[key] && ByRemote(rows, row.remote) == Owner(key)
      ensures !found ==> forall remote :: ByRemote(rows, remote) != Owner(key)
    {
      found := key in rows;
      row := if found then rows[key] else Row("", "", "", 0, "");
    }

    method GetByRemoteGlobal(remote: string) returns (r: Lookup)
      requires Injective(rows)
      ensures r == ByRemote(rows, remote)
    {
      if k :| k in rows && rows[k].remote == remote {
        r := Owner(k);
      } else {
        r := Nobody;
      }
    }
  }

  lemma BindKeepsInjective(rows: Rows, req: Request, row: Row)
    requires Injective(rows) && !TakenByOther(rows, req) && row.remote == req.row.remote
    ensures Injective(rows[req.key := row])
    ensures ByRemote(rows[req.key := row], row.remote) == Owner(req.key)
  {
    var after := rows[req.key := row];
    assert after[req.key].remote == row.remote;
  }

  // ----- whole runs -----

  datatype Event =
    | Begin(txn: nat, req: Request)
    | Commit(txn: nat)
    | Abort(txn: nat)

  datatype Open = Open(req: Request, seen: Rows)

  datatype State = State(rows: Rows, open: map<nat, Open>)

  ghost function Step(s: State, e: Event): State {
    match e
    case Begin(t, req) => if t in s.open then s else s.(open := s.open[t := Open(req, s.rows)])
    case Commit(t) =>
      if t in s.open then State(Transact(s.open[t].seen, s.rows, s.open[t].req).0, s.open - {t}) else s
    case Abort(t) => s.(open := s.open - {t})
  }

  ghost function Run(s: State, events: seq<Event>): State
    decreases |events|
  {
    if events == [] then s else Run(Step(s, events[0]), events[1..])
  }

  /** A commit keeps the table injective and changes at most its own conversation's row. It
      succeeds exactly when the id was free for it when read, is free when it is written, and the
      row neither appeared nor went in between. */
  lemma TransactFacts(seen: Rows, current: Rows, req: Request)
    requires Injective(current)
    ensures
      var (after, result) := Transact(seen, current, req);
      && Injective(after)
      && (forall k :: k != req.key ==> (k in after <==> k in current) && (k in current ==> after[k] == current[k]))
      && (result.Bound? <==>
            && !TakenByOther(seen, req) && (WritesRemote(seen, req) ==> !TakenByOther(current, req))
            && (req.key in current <==> req.key in seen))
      && (result.Bound? ==>
            && req.key in after && result.row.remote == req.row.remote
            && after[req.key].remote == if WritesRemote(seen, req) then req.row.remote else current[req.key].remote)
      && (!result.Bound? ==> after == current)
  {
    var (after, result) := Transact(seen, current, req);
    if result.Bound? && WritesRemote(seen, req) {
      BindKeepsInjective(current, req, after[req.key]);
    }
  }

  /** The answered row and the stored row, column by column: a missing inbox or identifier is
      filled from the row that was read, and a column is written only if that changed it. */
  lemma BoundColumns(seen: Rows, current: Rows, req: Request)
    requires Transact(seen, current, req).1.Bound?
    ensures
      var (after, result) := Transact(seen, current, req);
      var row, given := result.row, req.row;
      && req.key in after && row.remote == given.remote && row.peer == given.peer && row.source == given.source
      && (given.inbox != 0 ==> row.inbox == given.inbox)
      && (given.identifier != "" ==> row.identifier == given.identifier)
      && (req.key !in seen ==> row == given && after[req.key] == given)
      && (req.key in seen ==>
            var read, now := seen[req.key], current[req.key];
            && (given.inbox == 0 ==> row.inbox == read.inbox)
            && (given.identifier == "" ==> row.identifier == read.identifier)
            && after[req.key].remote == (if row.remote == read.remote then now.remote else row.remote)
            && after[req.key].peer == (if row.peer == read.peer then now.peer else row.peer)
            && after[req.key].source == (if row.source == read.source then now.source else row.source)
            && after[req.key].inbox == (if row.inbox == read.inbox then now.inbox else row.inbox)
            && after[req.key].identifier == (if row.identifier == read.identifier then now.identifier else row.identifier))
  {
  }

  /** A transaction answers with an id that the table does not hold exactly when it read the
      conversation with that id and another transaction rebound it before the commit. */
  lemma StaleAnswerExactly(seen: Rows, current: Rows, req: Request)
    requires Injective(seen) && Injective(current) && seen.Keys <= current.Keys
    ensures
      var (after, result) := Transact(seen, current, req);
      (result.Bound? && after[req.key].remote != result.row.remote) <==>
        && req.key in seen && seen[req.key].remote == req.row.remote
        && current[req.key].remote != req.row.remote
  {
    TransactFacts(seen, current, req);
  }

  /** Two transactions rebind one conversation; the one that read it first commits last and
      answers with the id it read, while the table keeps the other's. */
  lemma StaleAnswerHappens() returns (s: State, key: Local, again: Request, other: Request)
    ensures Injective(s.rows) && key in s.rows && s.rows[key].remote == "1" && again.row.remote == "1"
    ensures
      var m := Run(s, [Begin(0, again), Begin(1, other), Commit(1)]);
      && 0 in m.open
      && var (after, result) := Transact(m.open[0].seen, m.rows, m.open[0].req);
         result.Bound? && result.row.remote == "1" && key in after && after[key].remote == "2"
  {
    key := Local("a", "c");
    var row := Row("1", "", "", 0, "");
    s := State(map[key := row], map[]);
    again, other := Request(key, row), Request(key, row.(remote := "2"));
    var s1 := Step(s, Begin(0, again));
    var s2 := Step(s1, Begin(1, other));
    var s3 := Step(s2, Commit(1));
    RunCons(s, Begin(0, again), [Begin(1, other)] + ([Commit(1)] + []));
    RunCons(s1, Begin(1, other), [Commit(1)] + []);
    RunCons(s2, Commit(1), []);
    assert [Begin(0, again), Begin(1, other), Commit(1)] == [Begin(0, again)] + ([Begin(1, other)] + ([Commit(1)] + []));
    assert "1" != "2" by { assert "1"[0] != "2"[0]; }
    assert !TakenByOther(s.rows, other) && !TakenByOther(s.rows, again);
    TransactFacts(s.rows, s.rows, other);
    assert s2.open[1] == Open(other, s.rows) && s3.open[0] == Open(again, s.rows);
    TransactFacts(s.rows, s3.rows, again);
  }

  lemma RunCons(s: State, e: Event, rest: seq<Event>)
    ensures Run(s, [e] + rest) == Run(Step(s, e), rest)
  {
    assert ([e] + rest)[1..] == rest;
  }

  lemma {:induction false} RunKeepsInjective(s: State, events: seq<Event>)
    requires Injective(s.rows)
    ensures Injective(Run(s, events).rows)
    ensures s.rows.Keys <= Run(s, events).rows.Keys
    decreases |events|
  {
    if events != [] {
      var e := events[0];
      if e.Commit? && e.txn in s.open { TransactFacts(s.open[e.txn].seen, s.rows, s.open[e.txn].req); }
      RunKeepsInjective(Step(s, e), events[1..]);
    }
  }

  /** Over every interleaving of transactions the two lookups are inverse: a remote id leads
      to the local conversation that holds it, and to nothing else. */
  lemma LookupsAreInverse(events: seq<Event>, key: Local, remote: string)
    ensures
      var rows := Run(State(map[], map[]), events).rows;
      (ByRemote(rows, remote) == Owner(key)) <==> (key in rows && rows[key].remote == remote)
  {
    RunKeepsInjective(State(map[], map[]), events);
  }

  /** Rebinding frees the id the conversation had before. */
  lemma RebindingFreesOldId(rows: Rows, req: Request)
    requires Injective(rows) && req.key in rows && rows[req.key].remote != req.row.remote && !TakenByOther(rows, req)
    ensures
      var after := Transact(rows, rows, req).0;
      ByRemote(after, rows[req.key].remote).Nobody? && ByRemote(after, req.row.remote) == Owner(req.key)
  {
    TransactFacts(rows, rows, req);
    BindKeepsInjective(rows, req, Merged(rows[req.key], req.row));
  }
}
