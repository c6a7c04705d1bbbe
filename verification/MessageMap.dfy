/** The message map that keeps the two chat systems from echoing each other. Tasks run one
    at a time and run to their end; every runtime command answers with the key of the local
    message it created. */
module MessageMap {
  import opened Options

  datatype Origin = FromXianyu | FromChatwoot

  datatype Row = Row(account: string, local: Option<string>, remote: Option<string>, conv: Option<string>,
                     origin: Origin, state: string, error: Option<string>)

  /** The part of a row that the two sides are matched by. */
  datatype Key = Key(account: string, local: string)

  function Or<T>(a: Option<T>, b: Option<T>): Option<T> { if a.Some? then a else b }

  predicate Matches(r: Row, k: Key) { r.account == k.account && r.local == Some(k.local) }

  ghost predicate HasLocal(rows: seq<Row>, k: Key) {
    exists i :: 0 <= i < |rows| && Matches(rows[i], k)
  }

  ghost predicate HasRemote(rows: seq<Row>, remote: string) {
    exists i :: 0 <= i < |rows| && rows[i].remote == Some(remote)
  }

  /** At most one row per account and local message. */
  ghost predicate UniqueLocals(rows: seq<Row>) {
    forall i, j :: 0 <= i < j < |rows| && rows[i].local.Some? ==>
      rows[i].account != rows[j].account || rows[i].local != rows[j].local
  }

  /** Update of a stored row: new ids win when given, the origin is kept. */
  function Updated(stored: Row, r: Row): Row {
    stored.(remote := Or(r.remote, stored.remote), conv := Or(r.conv, stored.conv), state := r.state, error := r.error)
  }

  /** `r` is a call about the stored row `q`. */
  predicate Same(q: Row, r: Row) { r.local.Some? && Matches(q, Key(r.account, r.local.value)) }

  /** `_record_message_map_sync`. */
  function Record(rows: seq<Row>, r: Row): seq<Row> {
    if rows == [] then [r]
    else if Same(rows[0], r) then [Updated(rows[0], r)] + rows[1..]
    else [rows[0]] + Record(rows[1..], r)
  }

  class MessageRepository {
    var rows: seq<Row>

    constructor ()
      ensures rows == []
    {
      rows := [];
    }

    method RecordMessageMap(r: Row)
      requires UniqueLocals(rows)
      modifies this
      ensures rows == Record(old(rows), r) && UniqueLocals(rows)
    {
      RecordKeepsUnique(rows, r);
      var i := 0;
      while i < |rows| && !Same(rows[i], r)
        invariant 0 <= i <= |rows| && rows == old(rows)
        invariant forall j :: 0 <= j < i ==> !Same(rows[j], r)
      {
        i := i + 1;
      }
      RecordAt(rows, r, i);
      if i < |rows| {
        rows := rows[i := Updated(rows[i], r)];
      } else {
        rows := rows + [r];
      }
    }
  }

  /** The row that a call updates, found by position. */
  lemma {:induction false} RecordAt(rows: seq<Row>, r: Row, i: nat)
    requires i <= |rows| && (forall j :: 0 <= j < i ==> !Same(rows[j], r)) && (i < |rows| ==> Same(rows[i], r))
    ensures Record(rows, r) == if i < |rows| then rows[i := Updated(rows[i], r)] else rows + [r]
  {
    if rows != [] && i > 0 {
      assert !Same(rows[0], r);
      RecordAt(rows[1..], r, i - 1);
    }
  }

  lemma {:induction false} RecordFacts(rows: seq<Row>, r: Row)
    ensures forall k :: HasLocal(Record(rows, r), k) <==> HasLocal(rows, k) || Matches(r, k)
    ensures forall m :: HasRemote(rows, m) && (r.local.Some? ==> !HasLocal(rows, Key(r.account, r.local.value)))
              ==> HasRemote(Record(rows, r), m)
    ensures r.remote.Some? ==> HasRemote(Record(rows, r), r.remote.value)
    ensures forall m :: HasRemote(Record(rows, r), m) ==> HasRemote(rows, m) || r.remote == Some(m)
  {
    var after := Record(rows, r);
    if rows == [] {
      assert after[0] == r;
    } else if Same(rows[0], r) {
      assert after[0] == Updated(rows[0], r);
      assert HasLocal(rows, Key(r.account, r.local.value));
      forall k ensures HasLocal(after, k) <==> HasLocal(rows, k) || Matches(r, k) {
        if i :| 0 <= i < |rows| && Matches(rows[i], k) { assert Matches(after[i], k); }
        if i :| 0 <= i < |after| && Matches(after[i], k) { assert Matches(rows[i], k); }
      }
      forall m | HasRemote(after, m) ensures HasRemote(rows, m) || r.remote == Some(m) {
        var i :| 0 <= i < |after| && after[i].remote == Some(m);
        if i > 0 { assert rows[i].remote == Some(m); }
      }
    } else {
      RecordFacts(rows[1..], r);
      var rest := Record(rows[1..], r);
      ConsFacts(rows[0], rows[1..]);
      ConsFacts(rows[0], rest);
      assert rows == [rows[0]] + rows[1..];
    }
  }

  lemma ConsFacts(head: Row, tail: seq<Row>)
    ensures forall k :: HasLocal([head] + tail, k) <==> Matches(head, k) || HasLocal(tail, k)
    ensures forall m :: HasRemote([head] + tail, m) <==> head.remote == Some(m) || HasRemote(tail, m)
  {
    var all := [head] + tail;
    forall k ensures HasLocal(all, k) <==> Matches(head, k) || HasLocal(tail, k) {
      if Matches(head, k) { assert Matches(all[0], k); }
      if i :| 0 <= i < |tail| && Matches(tail[i], k) { assert Matches(all[i + 1], k); }
    }
    forall m ensures HasRemote(all, m) <==> head.remote == Some(m) || HasRemote(tail, m) {
      if head.remote == Some(m) { assert all[0].remote == Some(m); }
      if i :| 0 <= i < |tail| && tail[i].remote == Some(m) { assert all[i + 1].remote == Some(m); }
    }
  }

  lemma HeadIsUnique(rows: seq<Row>)
    requires UniqueLocals(rows) && rows != [] && rows[0].local.Some?
    ensures !HasLocal(rows[1..], Key(rows[0].account, rows[0].local.value))
  {
    assert forall i :: 0 <= i < |rows[1..]| ==> rows[1..][i] == rows[i + 1];
  }

  lemma {:induction false} RecordKeepsUnique(rows: seq<Row>, r: Row)
    requires UniqueLocals(rows)
    ensures UniqueLocals(Record(rows, r))
  {
    if rows != [] && !Same(rows[0], r) {
      RecordKeepsUnique(rows[1..], r);
      var rest := Record(rows[1..], r);
      if rows[0].local.Some? {
        var k := Key(rows[0].account, rows[0].local.value);
        HeadIsUnique(rows);
        RecordFacts(rows[1..], r);
        assert !HasLocal(rest, k);
        assert forall j :: 0 <= j < |rest| ==> !Matches(rest[j], k);
      }
    }
  }

  // ----- whole runs -----

  /** `posted`: local messages posted to Chatwoot; `forwarded`: agent messages sent to
      Xianyu; `created`: the Chatwoot ids our posts were given; `bridged`: the local messages
      that forwarding created. */
  datatype State = State(
    rows: seq<Row>,
    posted: seq<Key>,
    forwarded: seq<string>,
    created: set<string>,
    bridged: set<Key>
  )

  datatype Event =
    | MirrorLocal(key: Key, remote: string, conv: string)
    | MirrorUnsupported(key: Key, conv: string)
    | Forward(account: string, remote: string, conv: string, pieces: seq<string>)
    | RejectAudio(account: string, remote: string, conv: string)

  /** The rows that a forwarded message's pieces leave. */
  function RecordPieces(rows: seq<Row>, account: string, remote: string, conv: string, pieces: seq<string>): seq<Row>
    decreases |pieces|
  {
    if pieces == [] then rows
    else RecordPieces(Record(rows, Row(account, Some(pieces[0]), Some(remote), Some(conv), FromChatwoot, "synced", None)),
                      account, remote, conv, pieces[1..])
  }

  /** One task, run to its end. Chatwoot gives a new message an unused id, and a runtime
      command creates new local messages. */
  ghost function Step(s: State, e: Event): State {
    match e
    case MirrorLocal(k, remote, conv) =>
      if HasLocal(s.rows, k) || HasRemote(s.rows, remote) || remote in s.forwarded || remote in s.created then s
      else s.(rows := Record(s.rows, Row(k.account, Some(k.local), Some(remote), Some(conv), FromXianyu, "synced", None)),
              posted := s.posted + [k], created := s.created + {remote})
    case MirrorUnsupported(k, conv) =>
      if HasLocal(s.rows, k) then s
      else s.(rows := Record(s.rows, Row(k.account, Some(k.local), None, Some(conv), FromXianyu,
                                         "outbound_sync_unsupported", Some("unsupported"))))
    case Forward(account, remote, conv, pieces) =>
      if HasRemote(s.rows, remote) || !NewPieces(s, account, pieces) then s
      else s.(rows := RecordPieces(s.rows, account, remote, conv, pieces), forwarded := s.forwarded + [remote],
              bridged := s.bridged + (set p | p in pieces :: Key(account, p)))
    case RejectAudio(account, remote, conv) =>
      if HasRemote(s.rows, remote) then s
      else s.(rows := Record(s.rows, Row(account, None, Some(remote), Some(conv), FromChatwoot,
                                         "audio_unsupported", Some("audio"))))
  }

  ghost predicate NewPieces(s: State, account: string, pieces: seq<string>) {
    && pieces != []
    && (forall i :: 0 <= i < |pieces| ==> !HasLocal(s.rows, Key(account, pieces[i])))
    && (forall i, j :: 0 <= i < j < |pieces| ==> pieces[i] != pieces[j])
  }

  ghost function Run(s: State, events: seq<Event>): State
    decreases |events|
  {
    if events == [] then s else Run(Step(s, events[0]), events[1..])
  }

  ghost predicate Inv(s: State) {
    && UniqueLocals(s.rows)
    && (forall i :: 0 <= i < |s.posted| ==> HasLocal(s.rows, s.posted[i]))
    && (forall k :: k in s.bridged ==> HasLocal(s.rows, k))
    && (forall i :: 0 <= i < |s.posted| ==> s.posted[i] !in s.bridged)
    && (forall m :: m in s.created ==> HasRemote(s.rows, m))
    && (forall i :: 0 <= i < |s.forwarded| ==> HasRemote(s.rows, s.forwarded[i]) && s.forwarded[i] !in s.created)
    && (forall i, j :: 0 <= i < j < |s.posted| ==> s.posted[i] != s.posted[j])
    && (forall i, j :: 0 <= i < j < |s.forwarded| ==> s.forwarded[i] != s.forwarded[j])
  }

  lemma {:induction false} PiecesFacts(rows: seq<Row>, account: string, remote: string, conv: string, pieces: seq<string>)
    requires UniqueLocals(rows)
    requires forall i :: 0 <= i < |pieces| ==> !HasLocal(rows, Key(account, pieces[i]))
    requires forall i, j :: 0 <= i < j < |pieces| ==> pieces[i] != pieces[j]
    ensures
      var after := RecordPieces(rows, account, remote, conv, pieces);
      && UniqueLocals(after)
      && (forall k :: HasLocal(rows, k) ==> HasLocal(after, k))
      && (forall p :: p in pieces ==> HasLocal(after, Key(account, p)))
      && (forall m :: HasRemote(rows, m) ==> HasRemote(after, m))
      && (pieces != [] ==> HasRemote(after, remote))
    decreases |pieces|
  {
    if pieces != [] {
      var r := Row(account, Some(pieces[0]), Some(remote), Some(conv), FromChatwoot, "synced", None);
      var next := Record(rows, r);
      RecordFacts(rows, r);
      RecordKeepsUnique(rows, r);
      forall i | 0 <= i < |pieces[1..]| ensures !HasLocal(next, Key(account, pieces[1..][i])) {
        assert pieces[1..][i] == pieces[i + 1];
        assert !Matches(r, Key(account, pieces[i + 1]));
      }
      PiecesFacts(next, account, remote, conv, pieces[1..]);
      assert Matches(r, Key(account, pieces[0]));
    }
  }

  lemma MirrorKeepsInv(s: State, e: Event)
    requires Inv(s) && (e.MirrorLocal? || e.MirrorUnsupported?)
    ensures Inv(Step(s, e))
  {
    if !HasLocal(s.rows, e.key) {
      var r := Row(e.key.account, Some(e.key.local), if e.MirrorLocal? then Some(e.remote) else None, Some(e.conv), FromXianyu,
                   if e.MirrorLocal? then "synced" else "outbound_sync_unsupported",
                   if e.MirrorLocal? then None else Some("unsupported"));
      RecordFacts(s.rows, r);
      RecordKeepsUnique(s.rows, r);
      assert Matches(r, e.key);
    }
  }

  lemma ForwardKeepsInv(s: State, e: Event)
    requires Inv(s) && e.Forward?
    ensures Inv(Step(s, e))
  {
    if !HasRemote(s.rows, e.remote) && NewPieces(s, e.account, e.pieces) {
      PiecesFacts(s.rows, e.account, e.remote, e.conv, e.pieces);
      var t := Step(s, e);
      forall i | 0 <= i < |t.posted| ensures t.posted[i] !in t.bridged {
        assert HasLocal(s.rows, s.posted[i]);
      }
    }
  }

  lemma RejectKeepsInv(s: State, e: Event)
    requires Inv(s) && e.RejectAudio?
    ensures Inv(Step(s, e))
  {
    var r := Row(e.account, None, Some(e.remote), Some(e.conv), FromChatwoot, "audio_unsupported", Some("audio"));
    RecordFacts(s.rows, r);
    RecordKeepsUnique(s.rows, r);
  }

  lemma StepKeepsInv(s: State, e: Event)
    requires Inv(s)
    ensures Inv(Step(s, e))
  {
    match e {
      case MirrorLocal(_, _, _) => MirrorKeepsInv(s, e);
      case MirrorUnsupported(_, _) => MirrorKeepsInv(s, e);
      case Forward(_, _, _, _) => ForwardKeepsInv(s, e);
      case RejectAudio(_, _, _) => RejectKeepsInv(s, e);
    }
  }

  lemma {:induction false} RunKeepsInv(s: State, events: seq<Event>)
    requires Inv(s)
    ensures Inv(Run(s, events))
    decreases |events|
  {
    if events != [] {
      StepKeepsInv(s, events[0]);
      RunKeepsInv(Step(s, events[0]), events[1..]);
    }
  }

  /** Over every run: one row per local message; a local message is posted to Chatwoot at
      most once, and never when forwarding created it; an agent message is forwarded at most
      once, and never when one of our posts created it. */
  lemma NoEcho(events: seq<Event>)
    ensures
      var s := Run(State([], [], [], {}, {}), events);
      && UniqueLocals(s.rows)
      && (forall i, j :: 0 <= i < j < |s.posted| ==> s.posted[i] != s.posted[j])
      && (forall i :: 0 <= i < |s.posted| ==> s.posted[i] !in s.bridged)
      && (forall i, j :: 0 <= i < j < |s.forwarded| ==> s.forwarded[i] != s.forwarded[j])
      && (forall i :: 0 <= i < |s.forwarded| ==> s.forwarded[i] !in s.created)
  {
    RunKeepsInv(State([], [], [], {}, {}), events);
  }

  // ----- the same in terms of what later tasks do -----

  lemma StepGrows(s: State, e: Event)
    requires Inv(s)
    ensures forall k :: HasLocal(s.rows, k) ==> HasLocal(Step(s, e).rows, k)
    ensures forall m :: HasRemote(s.rows, m) ==> HasRemote(Step(s, e).rows, m)
  {
    match e {
      case MirrorLocal(k, remote, conv) =>
        RecordFacts(s.rows, Row(k.account, Some(k.local), Some(remote), Some(conv), FromXianyu, "synced", None));
      case MirrorUnsupported(k, conv) =>
        RecordFacts(s.rows, Row(k.account, Some(k.local), None, Some(conv), FromXianyu,
                                "outbound_sync_unsupported", Some("unsupported")));
      case Forward(account, remote, conv, pieces) =>
        if NewPieces(s, account, pieces) { PiecesFacts(s.rows, account, remote, conv, pieces); }
      case RejectAudio(account, remote, conv) =>
        RecordFacts(s.rows, Row(account, None, Some(remote), Some(conv), FromChatwoot, "audio_unsupported", Some("audio")));
    }
  }

  lemma {:induction false} RunGrows(s: State, events: seq<Event>)
    requires Inv(s)
    ensures forall k :: HasLocal(s.rows, k) ==> HasLocal(Run(s, events).rows, k)
    ensures forall m :: HasRemote(s.rows, m) ==> HasRemote(Run(s, events).rows, m)
    decreases |events|
  {
    if events != [] {
      StepGrows(s, events[0]);
      StepKeepsInv(s, events[0]);
      RunGrows(Step(s, events[0]), events[1..]);
    }
  }

  /** A local message that nothing knows is posted; after any later tasks, posting it again and
      forwarding what came of it both do nothing. */
  lemma PostHasNoEcho(s: State, k: Key, remote: string, conv: string, events: seq<Event>)
    requires Inv(s) && !HasLocal(s.rows, k) && !HasRemote(s.rows, remote)
    ensures
      var posted := Step(s, MirrorLocal(k, remote, conv));
      var t := Run(posted, events);
      && posted.posted == s.posted + [k] && remote in posted.created
      && (forall again, other :: Step(t, MirrorLocal(k, again, other)) == t)
      && (forall account, other, pieces :: Step(t, Forward(account, remote, other, pieces)) == t)
      && (forall account, other :: Step(t, RejectAudio(account, remote, other)) == t)
  {
    var row := Row(k.account, Some(k.local), Some(remote), Some(conv), FromXianyu, "synced", None);
    RecordFacts(s.rows, row);
    assert Matches(row, k);
    StepKeepsInv(s, MirrorLocal(k, remote, conv));
    RunGrows(Step(s, MirrorLocal(k, remote, conv)), events);
  }

  /** An agent message that nothing knows is forwarded; after any later tasks, forwarding it again
      and posting the local messages that came of it both do nothing. */
  lemma ForwardHasNoEcho(s: State, account: string, remote: string, conv: string, pieces: seq<string>, events: seq<Event>)
    requires Inv(s) && !HasRemote(s.rows, remote) && NewPieces(s, account, pieces)
    ensures
      var sent := Step(s, Forward(account, remote, conv, pieces));
      var t := Run(sent, events);
      && sent.forwarded == s.forwarded + [remote]
      && (forall p :: p in pieces ==> Key(account, p) in sent.bridged)
      && (forall who, other, more :: Step(t, Forward(who, remote, other, more)) == t)
      && (forall p, again, other :: p in pieces ==> Step(t, MirrorLocal(Key(account, p), again, other)) == t)
      && (forall p, other :: p in pieces ==> Step(t, MirrorUnsupported(Key(account, p), other)) == t)
  {
    PiecesFacts(s.rows, account, remote, conv, pieces);
    StepKeepsInv(s, Forward(account, remote, conv, pieces));
    RunGrows(Step(s, Forward(account, remote, conv, pieces)), events);
  }

  /** A refused voice message is remembered, and is neither forwarded nor refused again. */
  lemma RejectionIsFinal(s: State, account: string, remote: string, conv: string, events: seq<Event>)
    requires Inv(s) && !HasRemote(s.rows, remote)
    ensures
      var t := Run(Step(s, RejectAudio(account, remote, conv)), events);
      && HasRemote(t.rows, remote)
      && (forall who, other, pieces :: Step(t, Forward(who, remote, other, pieces)) == t)
  {
    RecordFacts(s.rows, Row(account, None, Some(remote), Some(conv), FromChatwoot, "audio_unsupported", Some("audio")));
    StepKeepsInv(s, RejectAudio(account, remote, conv));
    RunGrows(Step(s, RejectAudio(account, remote, conv)), events);
  }
}
