/** Recalling messages that an agent deleted in Chatwoot. Deliveries and local recall tasks
    run one at a time; a task may stop at any await, by an error or a crash, and be
    delivered again. The remote side keeps the private snapshot notes it was given, and a
    listing shows them. */
module Recall {

  datatype RowState =
    | PendingOk            // recalled, snapshot to be written
    | GatewayPending       // the older name of the same state
    | PendingFailed
    | Recalled
    | RecallFailed
    | Unsupported
    | Mirrored             // any state that has seen no recall

  /** One message row; the key is the local message. */
  datatype Row = Row(remote: string, conv: string, state: RowState)

  type Rows = map<string, Row>

  datatype Note = Note(conv: string, source: string)

  /** A row as the handler read it at the start. */
  datatype Item = Item(key: string, state: RowState)

  /** The handler's result for an item: its verdict, and whether a snapshot is due. */
  datatype Outcome = Outcome(success: bool, pending: bool)

  datatype Task =
    | Idle
    | AtItem(remote: string, conv: string, items: seq<Item>, results: seq<Outcome>)
    | Commanded(remote: string, conv: string, items: seq<Item>, results: seq<Outcome>, success: bool)
    | Noted(remote: string, conv: string, items: seq<Item>, results: seq<Outcome>, next: nat)
    | LocalNoted(key: string)

  datatype State = State(rows: Rows, notes: seq<Note>, recalls: seq<string>, task: Task)

  datatype Event =
    | Deliver(remote: string, conv: string, items: seq<Item>)
    | SkipSettled                       // an item whose verdict is known
    | Command(success: bool)            // the runtime recall of the current item
    | Refuse                            // no runtime command: account off or conversation unknown
    | StorePending
    | WriteSnapshot                     // find the note, or create it
    | StoreFinal
    | Finish
    | LocalSnapshot(key: string)        // local recall task, with credentials
    | StoreLocal
    | LocalUnsupported(key: string)     // local recall task, without credentials
    | Stop                              // error or crash

  predicate IsPending(s: RowState) { s.PendingOk? || s.GatewayPending? || s.PendingFailed? }

  predicate IsFinal(s: RowState) { s.Recalled? || s.RecallFailed? }

  predicate Settled(s: RowState) { IsPending(s) || IsFinal(s) }

  /** The verdict a settled state stands for. */
  predicate Positive(s: RowState) { s.PendingOk? || s.GatewayPending? || s.Recalled? }

  function WithState(rows: Rows, key: string, state: RowState): Rows
    requires key in rows
  {
    rows[key := rows[key].(state := state)]
  }

  /** The rows of one remote message, each once, as currently stored. */
  ghost predicate Lists(rows: Rows, remote: string, items: seq<Item>) {
    && (forall i :: 0 <= i < |items| ==> items[i].key in rows && rows[items[i].key].remote == remote)
    && (forall i :: 0 <= i < |items| ==> items[i].key in rows && rows[items[i].key].state == items[i].state)
    && (forall i, j :: 0 <= i < j < |items| ==> items[i].key != items[j].key)
    && (forall k :: k in rows && rows[k].remote == remote ==> exists i :: 0 <= i < |items| && items[i].key == k)
  }

  function OutcomeOf(s: RowState): Outcome {
    Outcome(Positive(s), IsPending(s))
  }

  predicate SnapshotDue(results: seq<Outcome>) {
    exists i :: 0 <= i < |results| && results[i].pending
  }

  function PendingState(success: bool): RowState { if success then PendingOk else PendingFailed }

  function FinalState(success: bool): RowState { if success then Recalled else RecallFailed }

  ghost function Step(s: State, e: Event): State {
    match e
    case Stop => s.(task := Idle)
    case Deliver(remote, conv, items) =>
      if s.task.Idle? && items != [] && Lists(s.rows, remote, items) then
        s.(task := AtItem(remote, conv, items, []))
      else s
    case LocalSnapshot(k) =>
      if s.task.Idle? && k in s.rows && s.rows[k].remote != "" && !s.rows[k].state.Recalled? then
        s.(notes := AddNote(s.notes, Note(s.rows[k].conv, s.rows[k].remote)), task := LocalNoted(k))
      else s
    case LocalUnsupported(k) =>
      if s.task.Idle? && k in s.rows && s.rows[k].remote != "" && !s.rows[k].state.Recalled? then
        s.(rows := WithState(s.rows, k, Unsupported))
      else s
    case StoreLocal =>
      if s.task.LocalNoted? && s.task.key in s.rows then
        s.(rows := WithState(s.rows, s.task.key, Recalled), task := Idle)
      else s
    case _ => HandlerStep(s, e)
  }

  function AddNote(notes: seq<Note>, n: Note): seq<Note> {
    if n in notes then notes else notes + [n]
  }

  function HandlerStep(s: State, e: Event): State {
    var t := s.task;
    match e
    case SkipSettled =>
      if t.AtItem? && |t.results| < |t.items| && Settled(t.items[|t.results|].state) then
        s.(task := AtItem(t.remote, t.conv, t.items, t.results + [OutcomeOf(t.items[|t.results|].state)]))
      else s
    case Command(success) =>
      if t.AtItem? && |t.results| < |t.items| && !Settled(t.items[|t.results|].state) then
        s.(recalls := s.recalls + [t.items[|t.results|].key],
           task := Commanded(t.remote, t.conv, t.items, t.results, success))
      else s
    case Refuse =>
      if t.AtItem? && |t.results| < |t.items| && !Settled(t.items[|t.results|].state) then
        s.(task := Commanded(t.remote, t.conv, t.items, t.results, false))
      else s
    case StorePending =>
      if t.Commanded? && |t.results| < |t.items| && t.items[|t.results|].key in s.rows then
        s.(rows := WithState(s.rows, t.items[|t.results|].key, PendingState(t.success)),
           task := AtItem(t.remote, t.conv, t.items, t.results + [Outcome(t.success, true)]))
      else s
    case WriteSnapshot =>
      if t.AtItem? && |t.results| == |t.items| && SnapshotDue(t.results) && t.conv != "" then
        s.(notes := AddNote(s.notes, Note(t.conv, t.remote)), task := Noted(t.remote, t.conv, t.items, t.results, 0))
      else s
    case StoreFinal =>
      if t.Noted? && t.next < |t.items| && |t.results| == |t.items| && t.items[t.next].key in s.rows then
        var after := s.(task := Noted(t.remote, t.conv, t.items, t.results, t.next + 1));
        if t.results[t.next].pending then
          after.(rows := WithState(s.rows, t.items[t.next].key, FinalState(t.results[t.next].success)))
        else after
      else s
    case Finish =>
      if (t.AtItem? && |t.results| == |t.items| && !SnapshotDue(t.results)) || (t.Noted? && t.next == |t.items|) then
        s.(task := Idle)
      else s
    case _ => s
  }

  ghost function Run(s: State, events: seq<Event>): State
    decreases |events|
  {
    if events == [] then s else Run(Step(s, events[0]), events[1..])
  }

  // ----- the invariant -----

  ghost predicate HasNote(notes: seq<Note>, source: string) {
    exists i :: 0 <= i < |notes| && notes[i].source == source
  }

  /** What the handler knows about an item it has passed. */
  ghost predicate Passed(rows: Rows, item: Item, r: Outcome) {
    && item.key in rows && Settled(rows[item.key].state)
    && Positive(rows[item.key].state) == r.success
    && (!r.pending ==> IsFinal(rows[item.key].state))
    && (Settled(item.state) ==> Positive(item.state) == r.success)
  }

  ghost predicate ItemsOk(rows: Rows, remote: string, items: seq<Item>, results: seq<Outcome>) {
    && |results| <= |items|
    && (forall i :: 0 <= i < |items| ==> items[i].key in rows && rows[items[i].key].remote == remote)
    && (forall i, j :: 0 <= i < j < |items| ==> items[i].key != items[j].key)
    && (forall i :: 0 <= i < |results| ==> Passed(rows, items[i], results[i]))
    && (forall i :: |results| <= i < |items| ==> rows[items[i].key].state == items[i].state)
  }

  ghost predicate TaskOk(s: State) {
    match s.task
    case Idle => true
    case AtItem(remote, _, items, results) => ItemsOk(s.rows, remote, items, results)
    case Commanded(remote, _, items, results, _) =>
      ItemsOk(s.rows, remote, items, results) && |results| < |items| && !Settled(items[|results|].state)
    case Noted(remote, _, items, results, next) =>
      ItemsOk(s.rows, remote, items, results) && |results| == |items| && next <= |items| && HasNote(s.notes, remote)
    case LocalNoted(k) => k in s.rows && HasNote(s.notes, s.rows[k].remote)
  }

  ghost predicate FinalsNoted(rows: Rows, notes: seq<Note>) {
    forall k :: k in rows && IsFinal(rows[k].state) ==> HasNote(notes, rows[k].remote)
  }

  ghost predicate NotesDistinct(notes: seq<Note>) {
    forall i, j :: 0 <= i < j < |notes| ==> notes[i] != notes[j]
  }

  ghost predicate Inv(s: State) {
    FinalsNoted(s.rows, s.notes) && NotesDistinct(s.notes) && TaskOk(s)
  }

  lemma AddNoteFacts(notes: seq<Note>, n: Note)
    requires NotesDistinct(notes)
    ensures NotesDistinct(AddNote(notes, n)) && HasNote(AddNote(notes, n), n.source) && notes <= AddNote(notes, n)
    ensures forall x :: HasNote(notes, x) ==> HasNote(AddNote(notes, n), x)
  {
    var after := AddNote(notes, n);
    if n in notes {
      var i :| 0 <= i < |notes| && notes[i] == n;
      assert after[i].source == n.source;
    } else {
      assert after[|notes|] == n;
    }
    forall x | HasNote(notes, x) ensures HasNote(after, x) {
      var i :| 0 <= i < |notes| && notes[i].source == x;
      assert after[i] == notes[i];
    }
  }

  /** Storing one item's state leaves what is known about the others. */
  lemma StoreKeepsItems(rows: Rows, remote: string, items: seq<Item>, results: seq<Outcome>, k: nat, state: RowState)
    requires ItemsOk(rows, remote, items, results) && k < |items|
    requires k < |results| ==> Passed(WithState(rows, items[k].key, state), items[k], results[k])
    requires k >= |results| ==> k == |results|
    ensures
      var after := WithState(rows, items[k].key, state);
      && (forall i :: 0 <= i < |items| ==> items[i].key in after && after[items[i].key].remote == remote)
      && (forall i :: 0 <= i < |results| ==> Passed(after, items[i], results[i]))
      && (forall i :: |results| < i < |items| ==> after[items[i].key].state == items[i].state)
      && (k < |results| ==> ItemsOk(after, remote, items, results))
  {
    var after := WithState(rows, items[k].key, state);
    forall i | 0 <= i < |items| && i != k ensures after[items[i].key] == rows[items[i].key] {
      if i < k { assert items[i].key != items[k].key; } else { assert items[k].key != items[i].key; }
    }
    forall i | 0 <= i < |results| ensures Passed(after, items[i], results[i]) {
      if i != k { assert Passed(rows, items[i], results[i]); }
    }
  }

  lemma DeliverKeepsInv(s: State, e: Event)
    requires Inv(s) && e.Deliver?
    ensures Inv(Step(s, e))
  {
  }

  lemma LocalKeepsInv(s: State, e: Event)
    requires Inv(s) && (e.LocalSnapshot? || e.LocalUnsupported? || e.StoreLocal?)
    ensures Inv(Step(s, e))
  {
    if e.LocalSnapshot? && e.key in s.rows {
      AddNoteFacts(s.notes, Note(s.rows[e.key].conv, s.rows[e.key].remote));
    }
  }

  /** Passing an item whose verdict is known. */
  lemma SkipItem(rows: Rows, remote: string, items: seq<Item>, results: seq<Outcome>)
    requires ItemsOk(rows, remote, items, results) && |results| < |items| && Settled(items[|results|].state)
    ensures ItemsOk(rows, remote, items, results + [OutcomeOf(items[|results|].state)])
  {
    var more := results + [OutcomeOf(items[|results|].state)];
    forall i | 0 <= i < |more| ensures Passed(rows, items[i], more[i]) {
      if i < |results| { assert Passed(rows, items[i], results[i]); }
    }
  }

  /** Settling an item by storing its pending state. */
  lemma StoreItem(rows: Rows, remote: string, items: seq<Item>, results: seq<Outcome>, success: bool)
    requires ItemsOk(rows, remote, items, results) && |results| < |items| && !Settled(items[|results|].state)
    ensures
      ItemsOk(WithState(rows, items[|results|].key, PendingState(success)), remote, items, results + [Outcome(success, true)])
  {
    var k := |results|;
    StoreKeepsItems(rows, remote, items, results, k, PendingState(success));
    var after := WithState(rows, items[k].key, PendingState(success));
    var more := results + [Outcome(success, true)];
    forall i | 0 <= i < |more| ensures Passed(after, items[i], more[i]) {
      if i < k { assert Passed(after, items[i], results[i]); }
    }
  }

  lemma StorePendingKeepsInv(s: State)
    requires Inv(s) && s.task.Commanded?
    ensures Inv(HandlerStep(s, StorePending))
  {
    StoreItem(s.rows, s.task.remote, s.task.items, s.task.results, s.task.success);
  }

  lemma StoreFinalKeepsInv(s: State)
    requires Inv(s) && s.task.Noted? && s.task.next < |s.task.items|
    ensures Inv(HandlerStep(s, StoreFinal))
  {
    var t := s.task;
    var k := t.next;
    if t.results[k].pending {
      assert Passed(s.rows, t.items[k], t.results[k]);
      StoreKeepsItems(s.rows, t.remote, t.items, t.results, k, FinalState(t.results[k].success));
    }
  }

  lemma SkipKeepsInv(s: State)
    requires Inv(s)
    ensures Inv(HandlerStep(s, SkipSettled))
  {
    var t := s.task;
    if t.AtItem? && |t.results| < |t.items| && Settled(t.items[|t.results|].state) {
      SkipItem(s.rows, t.remote, t.items, t.results);
    }
  }

  lemma SnapshotKeepsInv(s: State)
    requires Inv(s)
    ensures Inv(HandlerStep(s, WriteSnapshot))
  {
    if s.task.AtItem? { AddNoteFacts(s.notes, Note(s.task.conv, s.task.remote)); }
  }

  lemma StepKeepsInv(s: State, e: Event)
    requires Inv(s)
    ensures Inv(Step(s, e))
  {
    match e {
      case Stop =>
      case Deliver(_, _, _) => DeliverKeepsInv(s, e);
      case LocalSnapshot(_) => LocalKeepsInv(s, e);
      case LocalUnsupported(_) => LocalKeepsInv(s, e);
      case StoreLocal => LocalKeepsInv(s, e);
      case SkipSettled => SkipKeepsInv(s);
      case StorePending => if s.task.Commanded? { StorePendingKeepsInv(s); }
      case WriteSnapshot => SnapshotKeepsInv(s);
      case StoreFinal => if s.task.Noted? && s.task.next < |s.task.items| { StoreFinalKeepsInv(s); }
      case Command(_) =>
      case Refuse =>
      case Finish =>
    }
  }

  lemma {:induction false} RunKeepsInv(s: State, events: seq<Event>)
    requires Inv(s)
    ensures Inv(Run(s, events))
    decreases |events|
  {
    if events != [] {
      StepKeepsInv(s, events[0]);
      RunKeepsInv(Step(s, events[0]), events[1..]);
    }
  }

  // ----- the theorems -----

  /** Rows before any recall and no notes. */
  ghost predicate Initial(s: State) {
    s.task.Idle? && s.notes == [] && s.recalls == [] && forall k :: k in s.rows ==> !IsFinal(s.rows[k].state)
  }

  /** Over every run, with any crashes and any local recall tasks: a final verdict implies
      that the snapshot note exists, and no conversation has two snapshots of a message. */
  lemma FinalImpliesSnapshot(s: State, events: seq<Event>)
    requires Initial(s)
    ensures
      var t := Run(s, events);
      && (forall k :: k in t.rows && IsFinal(t.rows[k].state) ==> HasNote(t.notes, t.rows[k].remote))
      && (forall i, j :: 0 <= i < j < |t.notes| ==> t.notes[i] != t.notes[j])
  {
    RunKeepsInv(s, events);
  }

  /** Rows, notes and the running delivery of message `r` all name the conversation `c`. */
  ghost predicate OneConversation(s: State, r: string, c: string) {
    && (forall k :: k in s.rows && s.rows[k].remote == r ==> s.rows[k].conv == c)
    && (forall i :: 0 <= i < |s.notes| && s.notes[i].source == r ==> s.notes[i].conv == c)
    && ((s.task.AtItem? || s.task.Commanded? || s.task.Noted?) && s.task.remote == r ==> s.task.conv == c)
  }

  lemma StepKeepsConversation(s: State, e: Event, r: string, c: string)
    requires OneConversation(s, r, c) && (e.Deliver? && e.remote == r ==> e.conv == c)
    ensures OneConversation(Step(s, e), r, c)
  {
  }

  lemma {:induction false} ConversationsKept(s: State, events: seq<Event>, r: string, c: string)
    requires OneConversation(s, r, c)
    requires forall i :: 0 <= i < |events| && events[i].Deliver? && events[i].remote == r ==> events[i].conv == c
    ensures OneConversation(Run(s, events), r, c)
    decreases |events|
  {
    if events != [] {
      StepKeepsConversation(s, events[0], r, c);
      ConversationsKept(Step(s, events[0]), events[1..], r, c);
    }
  }

  ghost predicate AtMostOneSnapshot(notes: seq<Note>, r: string) {
    forall i, j :: 0 <= i < j < |notes| && notes[i].source == r ==> notes[j].source != r
  }

  /** A message whose rows and deliveries all name one conversation gets at most one snapshot,
      whatever happens to other messages. */
  lemma OneSnapshotPerMessage(s: State, events: seq<Event>, r: string, c: string)
    requires Initial(s) && forall k :: k in s.rows && s.rows[k].remote == r ==> s.rows[k].conv == c
    requires forall i :: 0 <= i < |events| && events[i].Deliver? && events[i].remote == r ==> events[i].conv == c
    ensures AtMostOneSnapshot(Run(s, events).notes, r)
  {
    RunKeepsInv(s, events);
    ConversationsKept(s, events, r, c);
  }

  /** The event looks for a snapshot and writes it when it is missing. */
  predicate EnsuresSnapshot(s: State, e: Event) {
    || (&& e.WriteSnapshot? && s.task.AtItem? && |s.task.results| == |s.task.items| && SnapshotDue(s.task.results)
        && s.task.conv != "")
    || (&& e.LocalSnapshot? && s.task.Idle? && e.key in s.rows && s.rows[e.key].remote != ""
        && !s.rows[e.key].state.Recalled?)
  }

  function Snapshot(s: State, e: Event): Note
    requires EnsuresSnapshot(s, e)
  {
    if e.WriteSnapshot? then Note(s.task.conv, s.task.remote) else Note(s.rows[e.key].conv, s.rows[e.key].remote)
  }

  /** A message gets its second snapshot exactly when a snapshot is due in a conversation other
      than the one that holds the first. */
  lemma SecondSnapshotExactly(s: State, e: Event, r: string)
    requires Inv(s) && AtMostOneSnapshot(s.notes, r)
    ensures !AtMostOneSnapshot(Step(s, e).notes, r) <==>
      && EnsuresSnapshot(s, e) && Snapshot(s, e).source == r
      && exists i :: 0 <= i < |s.notes| && s.notes[i].source == r && s.notes[i].conv != Snapshot(s, e).conv
  {
    if EnsuresSnapshot(s, e) {
      assert Step(s, e).notes == AddNote(s.notes, Snapshot(s, e));
      AddedSnapshot(s.notes, Snapshot(s, e), r);
    } else {
      assert Step(s, e).notes == s.notes;
    }
  }

  lemma AddedSnapshot(notes: seq<Note>, n: Note, r: string)
    requires NotesDistinct(notes) && AtMostOneSnapshot(notes, r)
    ensures !AtMostOneSnapshot(AddNote(notes, n), r) <==>
      n.source == r && exists i :: 0 <= i < |notes| && notes[i].source == r && notes[i].conv != n.conv
  {
    var more := AddNote(notes, n);
    if i :| 0 <= i < |notes| && notes[i].source == r && notes[i].conv != n.conv {
      if n.source == r {
        assert n !in notes;
        assert more[i].source == r && more[|notes|].source == r;
      }
    }
  }

  lemma RunCons(s: State, e: Event, rest: seq<Event>)
    ensures Run(s, [e] + rest) == Run(Step(s, e), rest)
  {
    assert ([e] + rest)[1..] == rest;
  }

  /** A delivery of a message with one pending row leads to its snapshot. */
  lemma DeliveryAddsSnapshot(s: State, k: string, row: Row, conv: string)
    requires s.task.Idle? && s.rows == map[k := row] && row.state.PendingOk? && conv != ""
    ensures
      var items := [Item(k, PendingOk)];
      Run(s, [Deliver(row.remote, conv, items)] + ([SkipSettled] + ([WriteSnapshot] + []))).notes
        == AddNote(s.notes, Note(conv, row.remote))
  {
    var items := [Item(k, PendingOk)];
    assert items[0].key == k;
    assert Lists(s.rows, row.remote, items);
    var s1 := s.(task := AtItem(row.remote, conv, items, []));
    var results := [Outcome(true, true)];
    assert [] + results == results && results[0].pending;
    var s2 := s1.(task := AtItem(row.remote, conv, items, results));
    RunCons(s, Deliver(row.remote, conv, items), [SkipSettled] + ([WriteSnapshot] + []));
    RunCons(s1, SkipSettled, [WriteSnapshot] + []);
    RunCons(s2, WriteSnapshot, []);
  }

  /** A local task cut off after its note, then a delivery that names another conversation. */
  lemma TwoConversationsTwoSnapshots() returns (s: State, events: seq<Event>)
    ensures Initial(s) && Run(s, events).notes == [Note("c", "r"), Note("d", "r")]
  {
    var row := Row("r", "c", PendingOk);
    s := State(map["m" := row], [], [], Idle);
    var delivery := [Deliver("r", "d", [Item("m", PendingOk)])] + ([SkipSettled] + ([WriteSnapshot] + []));
    events := [LocalSnapshot("m")] + ([Stop] + delivery);
    var s1 := s.(notes := [Note("c", "r")], task := LocalNoted("m"));
    RunCons(s, LocalSnapshot("m"), [Stop] + delivery);
    assert [] + [Note("c", "r")] == [Note("c", "r")];
    assert Step(s, LocalSnapshot("m")) == s1;
    RunCons(s1, Stop, delivery);
    DeliveryAddsSnapshot(s1.(task := Idle), "m", row, "d");
    assert "c" != "d" && Note("d", "r") !in s1.notes;
    assert Run(s1, [Stop] + delivery).notes == [Note("c", "r")] + [Note("d", "r")];
  }

  ghost predicate LocalStore(s: State, e: Event, k: string) {
    e.StoreLocal? && s.task == LocalNoted(k)
  }

  /** What one event does to a settled row: only a local task without credentials unsettles it,
      and only the end of its own local recall flips a verdict, from failed to recalled. */
  lemma SettledStep(s: State, e: Event, k: string)
    requires Inv(s) && k in s.rows && Settled(s.rows[k].state)
    requires e == LocalUnsupported(k) ==> s.rows[k].state.Recalled?
    ensures
      var t := Step(s, e);
      && k in t.rows && Settled(t.rows[k].state)
      && (s.rows[k].state.Recalled? ==> t.rows[k].state.Recalled?)
      && (LocalStore(s, e, k) ==> t.rows[k].state.Recalled?)
      && (!LocalStore(s, e, k) ==> Positive(t.rows[k].state) == Positive(s.rows[k].state))
      && (!LocalStore(s, e, k) && IsFinal(s.rows[k].state) ==> t.rows[k].state == s.rows[k].state)
      && (t.task == LocalNoted(k) ==> s.task == LocalNoted(k) || e == LocalSnapshot(k))
      && s.recalls <= t.recalls && forall i :: |s.recalls| <= i < |t.recalls| ==> t.recalls[i] != k
  {
    var t := s.task;
    if e.Command? && t.AtItem? && |t.results| < |t.items| {
      assert s.rows[t.items[|t.results|].key].state == t.items[|t.results|].state;
    }
    if e.StorePending? && t.Commanded? {
      assert s.rows[t.items[|t.results|].key].state == t.items[|t.results|].state;
    }
    if e.StoreFinal? && t.Noted? && t.next < |t.items| {
      assert Passed(s.rows, t.items[t.next], t.results[t.next]);
    }
  }

  /** No local task without credentials meets the row while it is not recalled. */
  ghost predicate Spared(s: State, events: seq<Event>, k: string)
    decreases |events|
  {
    events != [] ==>
      && (events[0] == LocalUnsupported(k) && k in s.rows ==> s.rows[k].state.Recalled?)
      && Spared(Step(s, events[0]), events[1..], k)
  }

  /** A row that is recalled stands every local task. */
  lemma {:induction false} RecalledIsSpared(s: State, events: seq<Event>, k: string)
    requires Inv(s) && k in s.rows && s.rows[k].state.Recalled?
    ensures Spared(s, events, k)
    decreases |events|
  {
    if events != [] {
      SettledStep(s, events[0], k);
      StepKeepsInv(s, events[0]);
      RecalledIsSpared(Step(s, events[0]), events[1..], k);
    }
  }

  /** Once a row is settled no later delivery recalls it again, whatever crashes and local
      recall tasks happen, also on other rows. */
  lemma {:induction false} SettledIsNeverRecalledAgain(s: State, events: seq<Event>, k: string)
    requires Inv(s) && k in s.rows && Settled(s.rows[k].state)
    requires Spared(s, events, k)
    ensures
      var t := Run(s, events);
      && k in t.rows && Settled(t.rows[k].state) && (s.rows[k].state.Recalled? ==> t.rows[k].state.Recalled?)
      && s.recalls <= t.recalls && forall i :: |s.recalls| <= i < |t.recalls| ==> t.recalls[i] != k
    decreases |events|
  {
    if events != [] {
      var m := Step(s, events[0]);
      SettledStep(s, events[0], k);
      StepKeepsInv(s, events[0]);
      SettledIsNeverRecalledAgain(m, events[1..], k);
      var t := Run(m, events[1..]);
      forall i | |s.recalls| <= i < |t.recalls| ensures t.recalls[i] != k {
        if i < |m.recalls| { assert t.recalls[i] == m.recalls[i]; }
      }
    }
  }

  /** Verdicts over whole runs with local tasks: a positive one stays, and if no local recall
      of this row takes part the verdict and a final state are unchanged. */
  lemma {:induction false} VerdictIsKept(s: State, events: seq<Event>, k: string)
    requires Inv(s) && k in s.rows && Settled(s.rows[k].state)
    requires Spared(s, events, k)
    ensures
      var t := Run(s, events);
      && k in t.rows && Settled(t.rows[k].state)
      && (Positive(s.rows[k].state) ==> Positive(t.rows[k].state))
      && (s.task != LocalNoted(k) && (forall i :: 0 <= i < |events| ==> events[i] != LocalSnapshot(k)) ==>
            && Positive(t.rows[k].state) == Positive(s.rows[k].state)
            && (IsFinal(s.rows[k].state) ==> t.rows[k].state == s.rows[k].state))
    decreases |events|
  {
    if events != [] {
      SettledStep(s, events[0], k);
      StepKeepsInv(s, events[0]);
      VerdictIsKept(Step(s, events[0]), events[1..], k);
    }
  }

  ghost predicate NotLocal(e: Event) {
    !e.LocalSnapshot? && !e.LocalUnsupported? && !e.StoreLocal?
  }

  /** A local recall task unsettles a settled row exactly when it runs without credentials
      on a mirrored row that is not yet recalled. */
  lemma LocalTaskUnsettlesExactly(s: State, e: Event, k: string)
    requires Inv(s) && s.task.Idle? && k in s.rows && Settled(s.rows[k].state) && !NotLocal(e)
    ensures !Settled(Step(s, e).rows[k].state) <==>
            e == LocalUnsupported(k) && s.rows[k].remote != "" && !s.rows[k].state.Recalled?
  {
  }

  /** After that a delivery recalls the message although its recall was already settled. */
  lemma UnsettledRowIsRecalledAgain() returns (s: State, events: seq<Event>)
    ensures Inv(s) && "m" in s.rows && s.rows["m"].state.PendingOk? && s.recalls == []
    ensures Run(s, events).recalls == ["m"]
  {
    s := State(map["m" := Row("r", "c", PendingOk)], [], [], Idle);
    var items := [Item("m", Unsupported)];
    var s1 := Step(s, LocalUnsupported("m"));
    assert s1.rows == map["m" := Row("r", "c", Unsupported)];
    assert items[0].key == "m";
    var s2 := Step(s1, Deliver("r", "c", items));
    var e3 := [Command(true)] + [];
    var e2 := [Deliver("r", "c", items)] + e3;
    events := [LocalUnsupported("m")] + e2;
    RunCons(s, LocalUnsupported("m"), e2);
    RunCons(s1, Deliver("r", "c", items), e3);
    RunCons(s2, Command(true), []);
  }

  // ----- the handler as one uninterrupted task -----

  /** What the runtime does with one recall: not asked, or asked with an answer. */
  datatype Answer = NotAsked | Asked(success: bool)

  function AskOne(item: Item, answer: Answer): seq<string> {
    if !Settled(item.state) && answer.Asked? then [item.key] else []
  }

  /** The recalls that the first n items lead to. */
  ghost function Asks(items: seq<Item>, answers: seq<Answer>, n: nat): seq<string>
    requires |answers| == |items| && n <= |items|
  {
    if n == 0 then [] else Asks(items, answers, n - 1) + AskOne(items[n - 1], answers[n - 1])
  }

  /** Item i was not settled by any recall, and the runtime was asked. */
  predicate AskedFor(items: seq<Item>, answers: seq<Answer>, i: nat)
    requires i < |items| == |answers|
  {
    (items[i].state.Mirrored? || items[i].state.Unsupported?) && answers[i].Asked?
  }

  /** `keys` are, in order and once each, those of the first n items that were asked for. */
  ghost predicate AskedKeys(items: seq<Item>, answers: seq<Answer>, n: nat, asked: seq<nat>, keys: seq<string>)
    requires |answers| == |items| && n <= |items|
  {
    && |asked| == |keys|
    && (forall j :: 0 <= j < |asked| ==> asked[j] < n && keys[j] == items[asked[j]].key)
    && (forall j, k :: 0 <= j < k < |asked| ==> asked[j] < asked[k])
    && (forall i :: 0 <= i < n ==> (i in asked <==> AskedFor(items, answers, i)))
  }

  lemma AskedMore(items: seq<Item>, answers: seq<Answer>, n: nat, asked: seq<nat>, keys: seq<string>)
    requires |answers| == |items| && n < |items| && AskedKeys(items, answers, n, asked, keys) && AskedFor(items, answers, n)
    ensures AskedKeys(items, answers, n + 1, asked + [n], keys + [items[n].key])
  {
    forall i | 0 <= i < n + 1 ensures i in asked + [n] <==> AskedFor(items, answers, i) {
      assert i in asked + [n] <==> i in asked || i == n;
    }
  }

  lemma AskedSame(items: seq<Item>, answers: seq<Answer>, n: nat, asked: seq<nat>, keys: seq<string>)
    requires |answers| == |items| && n < |items| && AskedKeys(items, answers, n, asked, keys) && !AskedFor(items, answers, n)
    ensures AskedKeys(items, answers, n + 1, asked, keys)
  {
  }

  /** The recalls are exactly of the items that no recall had settled and that were asked for. */
  lemma {:induction false} AsksAre(items: seq<Item>, answers: seq<Answer>, n: nat) returns (asked: seq<nat>)
    requires |answers| == |items| && n <= |items|
    ensures AskedKeys(items, answers, n, asked, Asks(items, answers, n))
  {
    asked := [];
    if n > 0 {
      var keys := Asks(items, answers, n - 1);
      asked := AsksAre(items, answers, n - 1);
      if AskedFor(items, answers, n - 1) {
        AskedMore(items, answers, n - 1, asked, keys);
        asked := asked + [n - 1];
      } else {
        AskedSame(items, answers, n - 1, asked, keys);
        assert keys + [] == keys;
      }
    }
  }

  // The same delivery as events of the machine.

  function ItemEvents(item: Item, answer: Answer): seq<Event> {
    if Settled(item.state) then [SkipSettled]
    else [if answer.Asked? then Command(answer.success) else Refuse, StorePending]
  }

  function LoopEvents(items: seq<Item>, answers: seq<Answer>, n: nat): seq<Event>
    requires |answers| == |items| && n <= |items|
  {
    if n == 0 then [] else LoopEvents(items, answers, n - 1) + ItemEvents(items[n - 1], answers[n - 1])
  }

  function FinalEvents(n: nat): seq<Event> {
    if n == 0 then [] else FinalEvents(n - 1) + [StoreFinal]
  }

  ghost function ClosingEvents(conv: string, items: seq<Item>): seq<Event> {
    if NothingDue(items) then [Finish]
    else if conv == "" then [Stop]
    else [WriteSnapshot] + (FinalEvents(|items|) + [Finish])
  }

  /** All the events of an uninterrupted delivery. */
  ghost function DeliveryEvents(remote: string, conv: string, items: seq<Item>, answers: seq<Answer>): seq<Event>
    requires |answers| == |items|
  {
    [Deliver(remote, conv, items)] + (LoopEvents(items, answers, |items|) + ClosingEvents(conv, items))
  }

  lemma {:induction false} RunConcat(s: State, a: seq<Event>, b: seq<Event>)
    ensures Run(s, a + b) == Run(Run(s, a), b)
    decreases |a|
  {
    if a == [] {
      assert a + b == b;
    } else {
      assert (a + b)[0] == a[0] && (a + b)[1..] == a[1..] + b;
      RunConcat(Step(s, a[0]), a[1..], b);
    }
  }

  lemma RunSnoc(s: State, a: seq<Event>, e: Event)
    ensures Run(s, a + [e]) == Step(Run(s, a), e)
  {
    RunConcat(s, a, [e]);
    assert [e][1..] == [];
  }

  /** The machine on one item. */
  lemma ItemRun(s: State, answer: Answer)
    requires s.task.AtItem? && |s.task.results| < |s.task.items| && s.task.items[|s.task.results|].key in s.rows
    ensures
      var t, item := s.task, s.task.items[|s.task.results|];
      Run(s, ItemEvents(item, answer)) ==
        if Settled(item.state) then s.(task := AtItem(t.remote, t.conv, t.items, t.results + [OutcomeOf(item.state)]))
        else
          var success := answer == Asked(true);
          s.(rows := WithState(s.rows, item.key, PendingState(success)),
             recalls := s.recalls + AskOne(item, answer),
             task := AtItem(t.remote, t.conv, t.items, t.results + [Outcome(success, true)]))
  {
    var item := s.task.items[|s.task.results|];
    if Settled(item.state) {
      RunSnoc(s, [], SkipSettled);
      assert [] + [SkipSettled] == [SkipSettled];
    } else {
      var e := if answer.Asked? then Command(answer.success) else Refuse;
      RunSnoc(s, [], e);
      RunSnoc(s, [] + [e], StorePending);
      assert [] + [e] + [StorePending] == ItemEvents(item, answer);
    }
  }

  /** Only states changed, and only of rows of `remote`. */
  ghost predicate TouchesOnly(before: Rows, rows: Rows, remote: string) {
    && rows.Keys == before.Keys
    && (forall k :: k in rows ==> rows[k] == before[k].(state := rows[k].state))
    && (forall k :: k in rows && before[k].remote != remote ==> rows[k].state == before[k].state)
  }

  /** Settled items keep their verdict, the others get the runtime's; a snapshot is due for
      every item that was not final. */
  ghost predicate VerdictsOf(items: seq<Item>, answers: seq<Answer>, results: seq<Outcome>) {
    && |results| <= |items| == |answers|
    && forall i :: 0 <= i < |results| ==> OutcomeFits(items[i], answers[i], results[i])
  }

  predicate OutcomeFits(item: Item, answer: Answer, r: Outcome) {
    && r.success == (if Settled(item.state) then Positive(item.state) else answer == Asked(true))
    && (r.pending <==> !IsFinal(item.state))
  }

  /** All rows were final when the delivery read them. */
  ghost predicate NothingDue(items: seq<Item>) {
    forall i :: 0 <= i < |items| ==> IsFinal(items[i].state)
  }

  lemma DueExactly(items: seq<Item>, answers: seq<Answer>, results: seq<Outcome>)
    requires VerdictsOf(items, answers, results) && |results| == |items|
    ensures !SnapshotDue(results) <==> NothingDue(items)
  {
    if NothingDue(items) {
      assert forall i :: 0 <= i < |results| ==> OutcomeFits(items[i], answers[i], results[i]);
    } else {
      var i :| 0 <= i < |items| && !IsFinal(items[i].state);
      assert OutcomeFits(items[i], answers[i], results[i]) && results[i].pending;
    }
  }

  lemma VerdictsGrow(items: seq<Item>, answers: seq<Answer>, results: seq<Outcome>, r: Outcome)
    requires VerdictsOf(items, answers, results) && |results| < |items|
    requires OutcomeFits(items[|results|], answers[|results|], r)
    ensures VerdictsOf(items, answers, results + [r])
  {
  }

  lemma AsksGrow(items: seq<Item>, answers: seq<Answer>, n: nat, earlier: seq<string>)
    requires |answers| == |items| && n < |items|
    ensures earlier + Asks(items, answers, n) + AskOne(items[n], answers[n]) == earlier + Asks(items, answers, n + 1)
  {
    assert earlier + (Asks(items, answers, n) + AskOne(items[n], answers[n])) == earlier + Asks(items, answers, n + 1);
  }

  lemma DueGrows(results: seq<Outcome>, r: Outcome)
    ensures SnapshotDue(results + [r]) <==> SnapshotDue(results) || r.pending
  {
    var more := results + [r];
    assert more[|results|] == r;
    if i :| 0 <= i < |results| && results[i].pending { assert more[i].pending; }
  }

  lemma StateChangeTouches(before: Rows, rows: Rows, remote: string, key: string, state: RowState)
    requires TouchesOnly(before, rows, remote) && key in rows && rows[key].remote == remote
    ensures TouchesOnly(before, WithState(rows, key, state), remote)
  {
  }

  /** The rows so far: only this message's changed, none became final, and none changed at all
      if no snapshot is due. */
  ghost predicate Progress(was: Rows, rows: Rows, remote: string, results: seq<Outcome>) {
    && TouchesOnly(was, rows, remote) && (SnapshotDue(results) || rows == was)
    && forall k :: k in rows && IsFinal(rows[k].state) ==> rows[k] == was[k]
  }

  lemma ProgressGrows(was: Rows, rows: Rows, after: Rows, remote: string, items: seq<Item>, results: seq<Outcome>, r: Outcome)
    requires Progress(was, rows, remote, results) && ItemsOk(rows, remote, items, results) && |results| < |items|
    requires
      var item := items[|results|];
      && after == (if Settled(item.state) then rows else WithState(rows, item.key, PendingState(r.success)))
      && (r.pending <==> !IsFinal(item.state))
    ensures Progress(was, after, remote, results + [r])
  {
    var item := items[|results|];
    DueGrows(results, r);
    StateChangeTouches(was, rows, remote, item.key, PendingState(r.success));
  }

  /** What the first loop has reached: the verdicts, the recalls made and the rows, and that the
      machine reaches the same by the events of the items passed. */
  ghost predicate SettledSoFar(start: State, now: State, answers: seq<Answer>) {
    && now.task.AtItem? && |now.task.results| <= |now.task.items| == |answers|
    && var t := now.task;
       && ItemsOk(now.rows, t.remote, t.items, t.results)
       && now.recalls == start.recalls + Asks(t.items, answers, |t.results|)
       && VerdictsOf(t.items, answers, t.results)
       && Progress(start.rows, now.rows, t.remote, t.results)
       && now == Run(start, LoopEvents(t.items, answers, |t.results|))
  }

  lemma SettledNext(start: State, before: State, after: State, answers: seq<Answer>, r: Outcome)
    requires SettledSoFar(start, before, answers) && |before.task.results| < |before.task.items|
    requires
      var t := before.task;
      var item, answer := t.items[|t.results|], answers[|t.results|];
      && after.task == AtItem(t.remote, t.conv, t.items, t.results + [r])
      && ItemsOk(after.rows, t.remote, t.items, t.results + [r])
      && after.recalls == before.recalls + AskOne(item, answer) && OutcomeFits(item, answer, r)
      && after.rows == (if Settled(item.state) then before.rows else WithState(before.rows, item.key, PendingState(r.success)))
      && after == Run(start, LoopEvents(t.items, answers, |t.results| + 1))
    ensures SettledSoFar(start, after, answers)
  {
    var t, n := before.task, |before.task.results|;
    VerdictsGrow(t.items, answers, t.results, r);
    AsksGrow(t.items, answers, n, start.recalls);
    ProgressGrows(start.rows, before.rows, after.rows, t.remote, t.items, t.results, r);
  }

  lemma LoopRunNext(start: State, items: seq<Item>, answers: seq<Answer>, n: nat)
    requires |answers| == |items| && n < |items|
    ensures Run(start, LoopEvents(items, answers, n + 1)) ==
      Run(Run(start, LoopEvents(items, answers, n)), ItemEvents(items[n], answers[n]))
  {
    RunConcat(start, LoopEvents(items, answers, n), ItemEvents(items[n], answers[n]));
  }

  lemma FinalRunNext(start: State, n: nat)
    ensures Run(start, FinalEvents(n + 1)) == Step(Run(start, FinalEvents(n)), StoreFinal)
  {
    RunSnoc(start, FinalEvents(n), StoreFinal);
  }

  /** What the last loop has reached, and that the machine reaches it too. */
  ghost predicate FinalSoFar(start: State, now: State) {
    && now.task.Noted? && now.task.next <= |now.task.items| == |now.task.results|
    && var t := now.task;
       && ItemsOk(now.rows, t.remote, t.items, t.results)
       && (forall i :: 0 <= i < t.next ==> IsFinal(now.rows[t.items[i].key].state))
       && TouchesOnly(start.rows, now.rows, t.remote)
       && now == Run(start, FinalEvents(t.next))
  }

  lemma FinalNext(start: State, before: State, after: State)
    requires FinalSoFar(start, before) && before.task.next < |before.task.items|
    requires
      var t := before.task;
      && after.task == Noted(t.remote, t.conv, t.items, t.results, t.next + 1)
      && ItemsOk(after.rows, t.remote, t.items, t.results) && IsFinal(after.rows[t.items[t.next].key].state)
      && TouchesOnly(before.rows, after.rows, t.remote)
      && (forall k :: k in before.rows && IsFinal(before.rows[k].state) ==> k in after.rows && IsFinal(after.rows[k].state))
      && after == Run(start, FinalEvents(t.next + 1))
    ensures FinalSoFar(start, after)
  {
    TouchesTwice(start.rows, before.rows, after.rows, before.task.remote);
  }

  class Bridge {
    var rows: Rows
    var notes: seq<Note>
    var recalls: seq<string>

    constructor (rows: Rows)
      ensures this.rows == rows && notes == [] && recalls == []
    {
      this.rows, notes, recalls := rows, [], [];
    }

    /** The state of the machine with this task. */
    ghost function With(task: Task): State
      reads this
    {
      State(rows, notes, recalls, task)
    }

    /** One pass of the first loop: a known verdict is taken over, otherwise the runtime is
        asked and its answer stored as pending. */
    method SettleItem(remote: string, ghost conv: string, items: seq<Item>, results: seq<Outcome>, answer: Answer)
        returns (r: Outcome)
      requires ItemsOk(rows, remote, items, results) && |results| < |items|
      modifies this`rows, this`recalls
      ensures ItemsOk(rows, remote, items, results + [r])
      ensures recalls == old(recalls) + AskOne(items[|results|], answer)
      ensures OutcomeFits(items[|results|], answer, r)
      ensures rows == if Settled(items[|results|].state) then old(rows)
                      else WithState(old(rows), items[|results|].key, PendingState(r.success))
      ensures With(AtItem(remote, conv, items, results + [r])) ==
        Run(old(With(AtItem(remote, conv, items, results))), ItemEvents(items[|results|], answer))
    {
      var item := items[|results|];
      ItemRun(With(AtItem(remote, conv, items, results)), answer);
      if Settled(item.state) {
        SkipItem(rows, remote, items, results);
        return OutcomeOf(item.state);
      }
      if answer.Asked? {
        recalls := recalls + [item.key];
      }
      var success := answer == Asked(true);
      StoreItem(rows, remote, items, results, success);
      rows := WithState(rows, item.key, PendingState(success));
      r := Outcome(success, true);
    }

    /** The same pass, with what the loop knows before and after it. */
    method SettleNext(remote: string, ghost conv: string, items: seq<Item>, answers: seq<Answer>, results: seq<Outcome>,
        ghost start: State) returns (r: Outcome)
      requires |results| < |items| == |answers|
      requires SettledSoFar(start, With(AtItem(remote, conv, items, results)), answers)
      modifies this`rows, this`recalls
      ensures SettledSoFar(start, With(AtItem(remote, conv, items, results + [r])), answers)
    {
      ghost var before := With(AtItem(remote, conv, items, results));
      r := SettleItem(remote, conv, items, results, answers[|results|]);
      LoopRunNext(start, items, answers, |results|);
      SettledNext(start, before, With(AtItem(remote, conv, items, results + [r])), answers, r);
    }

    /** The first loop: settle every item, asking the runtime only for unsettled ones. */
    method SettleItems(remote: string, ghost conv: string, items: seq<Item>, answers: seq<Answer>)
        returns (results: seq<Outcome>)
      requires ItemsOk(rows, remote, items, []) && |answers| == |items|
      modifies this`rows, this`recalls
      ensures |results| == |items|
      ensures SettledSoFar(old(With(AtItem(remote, conv, items, []))), With(AtItem(remote, conv, items, results)), answers)
    {
      results := [];
      ghost var start := With(AtItem(remote, conv, items, []));
      assert start.recalls + [] == start.recalls;
      for n := 0 to |items|
        invariant |results| == n
        invariant SettledSoFar(start, With(AtItem(remote, conv, items, results)), answers)
      {
        var r := SettleNext(remote, conv, items, answers, results, start);
        results := results + [r];
      }
    }

    method FinalizeOne(remote: string, ghost conv: string, items: seq<Item>, results: seq<Outcome>, j: nat)
      requires ItemsOk(rows, remote, items, results) && j < |results| == |items|
      modifies this`rows
      ensures ItemsOk(rows, remote, items, results) && IsFinal(rows[items[j].key].state)
      ensures TouchesOnly(old(rows), rows, remote)
      ensures forall k :: k in old(rows) && IsFinal(old(rows[k].state)) ==> k in rows && IsFinal(rows[k].state)
      ensures With(Noted(remote, conv, items, results, j + 1)) ==
        Step(old(With(Noted(remote, conv, items, results, j))), StoreFinal)
    {
      assert Passed(rows, items[j], results[j]);
      if results[j].pending {
        StoreKeepsItems(rows, remote, items, results, j, FinalState(results[j].success));
        rows := WithState(rows, items[j].key, FinalState(results[j].success));
      }
    }

    method FinalizeNext(remote: string, ghost conv: string, items: seq<Item>, results: seq<Outcome>, j: nat,
        ghost start: State)
      requires j < |results| == |items| && FinalSoFar(start, With(Noted(remote, conv, items, results, j)))
      modifies this`rows
      ensures FinalSoFar(start, With(Noted(remote, conv, items, results, j + 1)))
    {
      ghost var before := With(Noted(remote, conv, items, results, j));
      FinalizeOne(remote, conv, items, results, j);
      FinalRunNext(start, j);
      FinalNext(start, before, With(Noted(remote, conv, items, results, j + 1)));
    }

    /** The last loop: pending rows become final. */
    method FinalizeItems(remote: string, ghost conv: string, items: seq<Item>, results: seq<Outcome>)
      requires ItemsOk(rows, remote, items, results) && |results| == |items|
      modifies this`rows
      ensures FinalSoFar(old(With(Noted(remote, conv, items, results, 0))), With(Noted(remote, conv, items, results, |items|)))
    {
      ghost var start := With(Noted(remote, conv, items, results, 0));
      for j := 0 to |items|
        invariant FinalSoFar(start, With(Noted(remote, conv, items, results, j)))
      {
        FinalizeNext(remote, conv, items, results, j, start);
      }
    }

    /** Look for the snapshot in the listing and create it when it is not there. */
    method EnsureNote(n: Note)
      requires NotesDistinct(notes)
      modifies this`notes
      ensures NotesDistinct(notes) && HasNote(notes, n.source) && notes == AddNote(old(notes), n)
      ensures forall x :: HasNote(old(notes), x) ==> HasNote(notes, x)
    {
      AddNoteFacts(notes, n);
      if n !in notes {
        notes := notes + [n];
      }
    }

    /** The first loop on the rows a delivery finds. */
    method SettleListed(remote: string, ghost conv: string, items: seq<Item>, answers: seq<Answer>)
        returns (results: seq<Outcome>)
      requires Lists(rows, remote, items) && |answers| == |items| && FinalsNoted(rows, notes)
      modifies this`rows, this`recalls
      ensures FinalsNoted(rows, notes) && TouchesOnly(old(rows), rows, remote)
      ensures recalls == old(recalls) + Asks(items, answers, |items|)
      ensures ItemsOk(rows, remote, items, results) && VerdictsOf(items, answers, results)
      ensures Decided(rows, items, results)
      ensures SnapshotDue(results) <==> !NothingDue(items)
      ensures NothingDue(items) ==> AllFinal(rows, items)
      ensures With(AtItem(remote, conv, items, results)) ==
        Run(old(With(AtItem(remote, conv, items, []))), LoopEvents(items, answers, |items|))
    {
      results := SettleItems(remote, conv, items, answers);
      DueExactly(items, answers, results);
      PassedRows(rows, remote, items, results);
    }

    /** The snapshot and the final states, for a delivery with something pending; `was` are the
        rows it started from. */
    method Conclude(remote: string, conv: string, items: seq<Item>, results: seq<Outcome>, ghost was: Rows)
      requires ItemsOk(rows, remote, items, results) && |results| == |items|
      requires NotesDistinct(notes) && TouchesOnly(was, rows, remote) && FinalsNoted(was, notes)
      requires conv != "" && SnapshotDue(results)
      modifies this`rows, this`notes
      ensures NotesDistinct(notes) && notes == AddNote(old(notes), Note(conv, remote)) && FinalsNoted(rows, notes)
      ensures TouchesOnly(was, rows, remote) && Decided(rows, items, results) && AllFinal(rows, items)
      ensures With(Idle) ==
        Run(old(With(AtItem(remote, conv, items, results))), [WriteSnapshot] + (FinalEvents(|items|) + [Finish]))
    {
      ghost var start := With(AtItem(remote, conv, items, results));
      EnsureNote(Note(conv, remote));
      ghost var noted := With(Noted(remote, conv, items, results, 0));
      RunCons(start, WriteSnapshot, FinalEvents(|items|) + [Finish]);
      RunSnoc(noted, FinalEvents(|items|), Finish);
      FinalizeItems(remote, conv, items, results);
      TouchesTwice(was, old(rows), rows, remote);
      FinalsStayNoted(was, rows, old(notes), notes, remote);
      PassedRows(rows, remote, items, results);
    }

    /** The end of a delivery, given what its first loop left. */
    method Close(remote: string, conv: string, items: seq<Item>, results: seq<Outcome>, ghost was: Rows) returns (ok: bool)
      requires ItemsOk(rows, remote, items, results) && Decided(rows, items, results)
      requires NotesDistinct(notes) && FinalsNoted(was, notes) && FinalsNoted(rows, notes) && TouchesOnly(was, rows, remote)
      requires (SnapshotDue(results) <==> !NothingDue(items)) && (NothingDue(items) ==> AllFinal(rows, items))
      modifies this`rows, this`notes
      ensures FinalsNoted(rows, notes) && NotesDistinct(notes)
      ensures ok <==> conv != "" || NothingDue(items)
      ensures notes == if NothingDue(items) || conv == "" then old(notes) else AddNote(old(notes), Note(conv, remote))
      ensures Decided(rows, items, results) && (ok ==> AllFinal(rows, items))
      ensures TouchesOnly(was, rows, remote)
      ensures With(Idle) == Run(old(With(AtItem(remote, conv, items, results))), ClosingEvents(conv, items))
    {
      ClosingRun(With(AtItem(remote, conv, items, results)), conv, items);
      ok := conv != "" || !SnapshotDue(results);
      if conv != "" && SnapshotDue(results) {
        Conclude(remote, conv, items, results, was);
      }
    }

    /** A whole delivery. It fails exactly when a snapshot is due and the event names no
        conversation; then the verdicts are stored as pending for the next delivery. Otherwise
        every row of the message is final and a due snapshot is there. Either way settled rows
        kept their verdict and only unsettled rows were recalled. All of it is one run of the
        machine. */
    method HandleDelete(remote: string, conv: string, items: seq<Item>, answers: seq<Answer>)
        returns (ok: bool, results: seq<Outcome>)
      requires Lists(rows, remote, items) && |answers| == |items|
      requires FinalsNoted(rows, notes) && NotesDistinct(notes)
      modifies this
      ensures FinalsNoted(rows, notes) && NotesDistinct(notes)
      ensures ok <==> conv != "" || NothingDue(items)
      ensures notes == if NothingDue(items) || conv == "" then old(notes) else AddNote(old(notes), Note(conv, remote))
      ensures recalls == old(recalls) + Asks(items, answers, |items|)
      ensures VerdictsOf(items, answers, results)
      ensures Decided(rows, items, results) && (ok ==> AllFinal(rows, items))
      ensures TouchesOnly(old(rows), rows, remote)
      ensures With(Idle) == Run(old(With(Idle)), DeliveryEvents(remote, conv, items, answers))
    {
      ghost var start := With(Idle);
      results := SettleListed(remote, conv, items, answers);
      ghost var settled := With(AtItem(remote, conv, items, results));
      ok := Close(remote, conv, items, results, old(rows));
      DeliveryRun(start, settled, remote, conv, items, answers);
    }
  }

  /** How a message ends: by the state it was read with, or by the runtime's answer. */
  function EndState(item: Item, answer: Answer): RowState {
    match item.state
    case PendingOk => Recalled
    case GatewayPending => Recalled
    case Recalled => Recalled
    case PendingFailed => RecallFailed
    case RecallFailed => RecallFailed
    case _ => if answer == Asked(true) then Recalled else RecallFailed
  }

  /** What the contract of a delivery that succeeds says of each row. */
  lemma DeliveredStates(rows: Rows, items: seq<Item>, answers: seq<Answer>, results: seq<Outcome>, i: nat)
    requires Decided(rows, items, results) && VerdictsOf(items, answers, results) && AllFinal(rows, items) && i < |items|
    ensures rows[items[i].key].state == EndState(items[i], answers[i])
  {
    assert OutcomeFits(items[i], answers[i], results[i]);
  }

  /** A delivery up to the end of the first loop; one that lists no row ends there. */
  lemma DeliveryRun(start: State, settled: State, remote: string, conv: string, items: seq<Item>, answers: seq<Answer>)
    requires start.task.Idle? && |answers| == |items| && Lists(start.rows, remote, items)
    requires settled == Run(start.(task := AtItem(remote, conv, items, [])), LoopEvents(items, answers, |items|))
    ensures Run(start, DeliveryEvents(remote, conv, items, answers)) == Run(settled, ClosingEvents(conv, items))
  {
    var loop, closing := LoopEvents(items, answers, |items|), ClosingEvents(conv, items);
    RunCons(start, Deliver(remote, conv, items), loop + closing);
    if items == [] {
      assert loop + closing == [] + [Finish] && closing == [] + [Finish];
      RunSnoc(start, [], Finish);
      RunSnoc(settled, [], Finish);
    } else {
      RunConcat(start.(task := AtItem(remote, conv, items, [])), loop, closing);
    }
  }

  lemma ClosingRun(settled: State, conv: string, items: seq<Item>)
    requires settled.task.AtItem? && |settled.task.results| == |items| && settled.task.items == items
    requires SnapshotDue(settled.task.results) <==> !NothingDue(items)
    ensures NothingDue(items) || conv == "" ==> Run(settled, ClosingEvents(conv, items)) == settled.(task := Idle)
  {
    RunSnoc(settled, [], Finish);
    RunSnoc(settled, [], Stop);
    assert [] + [Finish] == [Finish] && [] + [Stop] == [Stop];
  }

  lemma TouchesTwice(a: Rows, b: Rows, c: Rows, remote: string)
    requires TouchesOnly(a, b, remote) && TouchesOnly(b, c, remote)
    ensures TouchesOnly(a, c, remote)
  {
  }

  /** Every row of the items carries the verdict of its result. */
  ghost predicate Decided(rows: Rows, items: seq<Item>, results: seq<Outcome>) {
    && |results| == |items|
    && forall i :: 0 <= i < |items| ==>
         && items[i].key in rows && Settled(rows[items[i].key].state)
         && Positive(rows[items[i].key].state) == results[i].success
  }

  ghost predicate AllFinal(rows: Rows, items: seq<Item>) {
    forall i :: 0 <= i < |items| ==> items[i].key in rows && IsFinal(rows[items[i].key].state)
  }

  lemma PassedRows(rows: Rows, remote: string, items: seq<Item>, results: seq<Outcome>)
    requires ItemsOk(rows, remote, items, results) && |results| == |items|
    ensures Decided(rows, items, results)
    ensures !SnapshotDue(results) ==> AllFinal(rows, items)
  {
    forall i | 0 <= i < |items|
      ensures
        && items[i].key in rows && Settled(rows[items[i].key].state)
        && Positive(rows[items[i].key].state) == results[i].success
        && (!results[i].pending ==> IsFinal(rows[items[i].key].state))
    {
      assert Passed(rows, items[i], results[i]);
    }
  }

  lemma FinalsStayNoted(before: Rows, rows: Rows, known: seq<Note>, notes: seq<Note>, remote: string)
    requires FinalsNoted(before, known) && HasNote(notes, remote) && TouchesOnly(before, rows, remote)
    requires forall x :: HasNote(known, x) ==> HasNote(notes, x)
    ensures FinalsNoted(rows, notes)
  {
    forall k | k in rows && IsFinal(rows[k].state) ensures HasNote(notes, rows[k].remote) {
      if before[k].remote != remote { assert HasNote(known, before[k].remote); }
    }
  }
}
