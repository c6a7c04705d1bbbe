/** Reading all bought orders page by page. The platform is an arbitrary sequence of
    responses: nothing is assumed about its cursors, its flags or its items. */
module Pagination {
  import opened Options
  import Text

  datatype Order = Order(id: string, body: string)

  /** A JSON cursor: absent (or the empty string), a scalar by its text, or an object by its
      fields in key order. */
  datatype Cursor = Missing | Scalar(text: string) | Object(fields: seq<(string, string)>)

  /** A response. An item the parser rejects is `None`; `total` is absent when not a number. */
  datatype Response =
    | Failure(error: string)
    | Page(items: seq<Option<Order>>, next: bool, cursor: Cursor, total: Option<int>)

  datatype Request = Request(page: nat, offset: Cursor)

  datatype Outcome =
    | BadArgument
    | SyncError(error: string)
    | Listed(orders: seq<Order>, pages: nat, total: int, complete: bool)

  function Fields(fields: seq<(string, string)>): seq<string>
    decreases |fields|
  {
    if fields == [] then [] else [fields[0].0 + "=" + fields[0].1] + Fields(fields[1..])
  }

  /** `_cursor_key`. */
  function CursorKey(c: Cursor): string {
    match c
    case Missing => ""
    case Scalar(text) => text
    case Object(fields) => if fields == [] then "" else Text.Join(Fields(fields), "|")
  }

  // ----- what a run of responses means -----

  function Parsed(items: seq<Option<Order>>): seq<Order>
    decreases |items|
  {
    if items == [] then []
    else
      var n := |items| - 1;
      Parsed(items[..n]) + (if items[n].Some? then [items[n].value] else [])
  }

  function Ids(orders: seq<Order>): seq<string>
    decreases |orders|
  {
    if orders == [] then [] else Ids(orders[..|orders| - 1]) + [orders[|orders| - 1].id]
  }

  function OrdersOf(r: Response): seq<Order> {
    if r.Page? then Parsed(r.items) else []
  }

  /** The parsed orders of the first `n` responses, one after the other. */
  function Concatenated(server: nat -> Response, n: nat): seq<Order> {
    if n == 0 then [] else Concatenated(server, n - 1) + OrdersOf(server(n - 1))
  }

  function IdSet(orders: seq<Order>): set<string>
    decreases |orders|
  {
    if orders == [] then {} else IdSet(orders[..|orders| - 1]) + {orders[|orders| - 1].id}
  }

  /** Later orders with an id seen before are left out. */
  function Dedup(orders: seq<Order>): seq<Order>
    decreases |orders|
  {
    if orders == [] then []
    else
      var n := |orders| - 1;
      Dedup(orders[..n]) + (if orders[n].id in IdSet(orders[..n]) then [] else [orders[n]])
  }

  function LastTotal(server: nat -> Response, n: nat): int {
    if n == 0 then 0
    else if server(n - 1).Page? && server(n - 1).total.Some? then server(n - 1).total.value
    else LastTotal(server, n - 1)
  }

  function KeyAt(server: nat -> Response, k: nat): string {
    if server(k).Page? then CursorKey(server(k).cursor) else ""
  }

  function IdsAt(server: nat -> Response, k: nat): seq<string> {
    Ids(OrdersOf(server(k)))
  }

  /** Response `k` lists exactly the ids of the one before it, and lists some. */
  predicate Repeats(server: nat -> Response, k: nat) {
    && k > 0
    && IdsAt(server, k) != []
    && IdsAt(server, k) == IdsAt(server, k - 1)
  }

  predicate HasMore(r: Response) {
    r.Page? && r.next && r.items != []
  }

  predicate WithinPages(maxPages: Option<int>, pages: nat) {
    maxPages.Some? ==> pages <= maxPages.value
  }

  predicate FreshKey(server: nat -> Response, k: nat) {
    KeyAt(server, k) != "" && forall j: nat :: j < k ==> KeyAt(server, j) != KeyAt(server, k)
  }

  /** After response `k` another page is requested. */
  predicate Continues(server: nat -> Response, maxPages: Option<int>, k: nat) {
    && HasMore(server(k)) && !Repeats(server, k)
    && WithinPages(maxPages, k + 2)
    && FreshKey(server, k)
  }

  // ----- facts about the specification -----

  lemma Appended(orders: seq<Order>, x: Order)
    ensures IdSet(orders + [x]) == IdSet(orders) + {x.id}
    ensures Ids(orders + [x]) == Ids(orders) + [x.id]
    ensures Dedup(orders + [x]) == if x.id in IdSet(orders) then Dedup(orders) else Dedup(orders) + [x]
  {
    assert (orders + [x])[..|orders|] == orders;
  }

  lemma {:induction false} IdSetIs(orders: seq<Order>, id: string)
    ensures id in IdSet(orders) <==> exists i :: 0 <= i < |orders| && orders[i].id == id
    decreases |orders|
  {
    if orders != [] {
      var n := |orders| - 1;
      IdSetIs(orders[..n], id);
      if i :| 0 <= i < n && orders[i].id == id { assert orders[..n][i].id == id; }
      if i :| 0 <= i < n && orders[..n][i].id == id { assert orders[i].id == id; }
    }
  }

  /** The result lists each id of the input once. */
  lemma {:induction false} DedupFacts(orders: seq<Order>)
    ensures IdSet(Dedup(orders)) == IdSet(orders)
    ensures forall i, j :: 0 <= i < j < |Dedup(orders)| ==> Dedup(orders)[i].id != Dedup(orders)[j].id
    decreases |orders|
  {
    if orders != [] {
      var n := |orders| - 1;
      var front, last, kept := orders[..n], orders[n], Dedup(orders[..n]);
      DedupFacts(front);
      if last.id in IdSet(front) {
        assert Dedup(orders) == kept;
      } else {
        assert Dedup(orders) == kept + [last];
        Appended(kept, last);
        IdSetIs(kept, last.id);
      }
    }
  }

  /** The order that is kept for an id is its first one. */
  lemma {:induction false} DedupKeepsFirst(orders: seq<Order>, i: nat)
    requires i < |orders| && forall j :: 0 <= j < i ==> orders[j].id != orders[i].id
    ensures orders[i] in Dedup(orders)
    decreases |orders|
  {
    var n := |orders| - 1;
    if i < n {
      DedupKeepsFirst(orders[..n], i);
    } else {
      IdSetIs(orders[..n], orders[n].id);
    }
  }

  // ----- what the responses hold, by index -----

  /** `at` points, in increasing order, at the items that hold these orders. */
  ghost predicate Picks(items: seq<Option<Order>>, at: seq<nat>, orders: seq<Order>) {
    && |at| == |orders|
    && (forall j :: 0 <= j < |at| ==> at[j] < |items| && items[at[j]] == Some(orders[j]))
    && (forall j, k :: 0 <= j < k < |at| ==> at[j] < at[k])
  }

  lemma PicksMore(items: seq<Option<Order>>, item: Option<Order>, at: seq<nat>, orders: seq<Order>)
    requires Picks(items, at, orders)
    ensures Picks(items + [item], at, orders)
    ensures item.Some? ==> Picks(items + [item], at + [|items|], orders + [item.value])
  {
    var more := items + [item];
    forall j | 0 <= j < |at| ensures at[j] < |more| && more[at[j]] == Some(orders[j]) {
      assert more[at[j]] == items[at[j]];
    }
  }

  /** The orders read off a page are its parsed items, in their order. */
  lemma {:induction false} ParsedAre(items: seq<Option<Order>>) returns (at: seq<nat>)
    ensures Picks(items, at, Parsed(items))
    ensures forall i :: 0 <= i < |items| && items[i].Some? ==> i in at
    decreases |items|
  {
    at := [];
    if items != [] {
      var n := |items| - 1;
      var front := items[..n];
      at := ParsedAre(front);
      PicksMore(front, items[n], at, Parsed(front));
      assert front + [items[n]] == items;
      forall i | 0 <= i < n && items[i].Some? ensures i in at { assert front[i].Some?; }
      if items[n].Some? { at := at + [n]; } else { assert Parsed(front) + [] == Parsed(front); }
    }
  }

  function Somes(orders: seq<Order>): seq<Option<Order>> {
    seq(|orders|, i requires 0 <= i < |orders| => Some(orders[i]))
  }

  /** The kept orders come in the order of the input. */
  lemma {:induction false} DedupInOrder(orders: seq<Order>) returns (kept: seq<nat>)
    ensures Picks(Somes(orders), kept, Dedup(orders))
    decreases |orders|
  {
    kept := [];
    if orders != [] {
      var n := |orders| - 1;
      var front := orders[..n];
      kept := DedupInOrder(front);
      PicksMore(Somes(front), Some(orders[n]), kept, Dedup(front));
      assert Somes(front) + [Some(orders[n])] == Somes(orders);
      if orders[n].id !in IdSet(front) { kept := kept + [n]; } else { assert Dedup(front) + [] == Dedup(front); }
    }
  }

  lemma ParsedHas(items: seq<Option<Order>>, o: Order)
    ensures o in Parsed(items) <==> Some(o) in items
  {
    var at := ParsedAre(items);
    if Some(o) in items {
      var i :| 0 <= i < |items| && items[i] == Some(o);
      var j :| 0 <= j < |at| && at[j] == i;
      assert Parsed(items)[j] == o;
    }
    if o in Parsed(items) {
      var j :| 0 <= j < |Parsed(items)| && Parsed(items)[j] == o;
      assert items[at[j]] == Some(o);
    }
  }

  lemma {:induction false} IdsAre(orders: seq<Order>)
    ensures |Ids(orders)| == |orders| && forall i :: 0 <= i < |orders| ==> Ids(orders)[i] == orders[i].id
    decreases |orders|
  {
    if orders != [] { IdsAre(orders[..|orders| - 1]); }
  }

  predicate PageHas(server: nat -> Response, k: nat, o: Order) {
    server(k).Page? && Some(o) in server(k).items
  }

  /** An order on one of the first n pages. */
  ghost predicate OnPage(server: nat -> Response, n: nat, o: Order) {
    exists k: nat :: k < n && PageHas(server, k, o)
  }

  lemma OrdersOfHas(server: nat -> Response, k: nat, o: Order)
    ensures o in OrdersOf(server(k)) <==> PageHas(server, k, o)
  {
    if server(k).Page? { ParsedHas(server(k).items, o); }
  }

  lemma OnPageNext(server: nat -> Response, n: nat, o: Order)
    ensures OnPage(server, n + 1, o) <==> OnPage(server, n, o) || PageHas(server, n, o)
  {
  }

  lemma InConcat(a: seq<Order>, b: seq<Order>, o: Order)
    ensures o in a + b <==> o in a || o in b
  {
  }

  lemma NextPageHas(server: nat -> Response, n: nat, o: Order)
    ensures o in Concatenated(server, n + 1) <==> o in Concatenated(server, n) || PageHas(server, n, o)
  {
    OrdersOfHas(server, n, o);
    InConcat(Concatenated(server, n), OrdersOf(server(n)), o);
  }

  lemma {:induction false} ConcatenatedHas(server: nat -> Response, n: nat, o: Order)
    ensures o in Concatenated(server, n) <==> OnPage(server, n, o)
    decreases n
  {
    if n > 0 {
      var k := n - 1;
      ConcatenatedHas(server, k, o);
      NextPageHas(server, k, o);
      OnPageNext(server, k, o);
      assert k + 1 == n;
    }
  }

  lemma IdInSet(orders: seq<Order>, id: string)
    ensures id in IdSet(orders) <==> exists o :: o in orders && o.id == id
  {
    IdSetIs(orders, id);
    if o :| o in orders && o.id == id { var i :| 0 <= i < |orders| && orders[i] == o; }
  }

  /** An id is listed exactly when one of the pages read carried an order with it. */
  lemma ListedExactly(server: nat -> Response, n: nat, id: string)
    ensures (exists o :: o in Dedup(Concatenated(server, n)) && o.id == id) <==> exists o :: OnPage(server, n, o) && o.id == id
  {
    var all := Concatenated(server, n);
    DedupFacts(all);
    IdInSet(all, id);
    IdInSet(Dedup(all), id);
    if o :| o in all && o.id == id { ConcatenatedHas(server, n, o); }
    if o :| OnPage(server, n, o) && o.id == id { ConcatenatedHas(server, n, o); }
  }

  ghost predicate HasTotal(r: Response) { r.Page? && r.total.Some? }

  /** The reported total is the last one given, and 0 if none is. */
  lemma {:induction false} LastTotalIs(server: nat -> Response, n: nat, k: nat)
    requires k <= n && forall j: nat :: k <= j < n ==> !HasTotal(server(j))
    ensures k == 0 ==> LastTotal(server, n) == 0
    ensures k > 0 && HasTotal(server(k - 1)) ==> LastTotal(server, n) == server(k - 1).total.value
  {
    if n > k { LastTotalIs(server, n - 1, k); }
  }

  // ----- what a cursor key tells apart -----

  ghost predicate Plain(fields: seq<(string, string)>) {
    forall i :: 0 <= i < |fields| ==> PlainText(fields[i].0) && PlainText(fields[i].1)
  }

  predicate PlainText(s: string) { '=' !in s && '|' !in s }

  lemma {:induction false} FieldsAre(fields: seq<(string, string)>)
    ensures |Fields(fields)| == |fields|
    ensures forall i :: 0 <= i < |fields| ==> Fields(fields)[i] == fields[i].0 + "=" + fields[i].1
    decreases |fields|
  {
    if fields != [] { FieldsAre(fields[1..]); }
  }

  lemma FieldTells(a: (string, string), b: (string, string))
    requires '=' !in a.0 && '=' !in b.0 && a.0 + "=" + a.1 == b.0 + "=" + b.1
    ensures a == b
  {
    var text := a.0 + ['='] + a.1;
    assert text == b.0 + ['='] + b.1;
    Text.FindInConcat(a.0, '=', a.1);
    Text.FindInConcat(b.0, '=', b.1);
    assert a.0 == text[..|a.0|] == b.0 && a.1 == text[|a.0| + 1..] == b.1;
  }

  lemma FieldsSplit(fields: seq<(string, string)>)
    requires Plain(fields) && fields != []
    ensures Text.Split(CursorKey(Object(fields)), '|') == Fields(fields)
  {
    FieldsAre(fields);
    forall p | p in Fields(fields) ensures '|' !in p {
      var i :| 0 <= i < |fields| && Fields(fields)[i] == p;
    }
    assert "|" == ['|'];
    Text.SplitOfJoin(Fields(fields), '|');
  }

  lemma {:induction false} JoinHas(parts: seq<string>, separator: string, c: char)
    requires parts != [] && c in parts[0]
    ensures c in Text.Join(parts, separator)
  {
  }

  lemma ObjectKeyIsText(fields: seq<(string, string)>)
    ensures CursorKey(Object(fields)) != "" <==> fields != []
  {
    if fields != [] {
      FieldsAre(fields);
      assert Fields(fields)[0][|fields[0].0|] == '=';
      JoinHas(Fields(fields), "|", '=');
    }
  }

  /** Scalars are told apart by their text; objects of plain names and values by their fields. */
  lemma KeysTell(a: Cursor, b: Cursor)
    ensures a.Scalar? && b.Scalar? ==> (CursorKey(a) == CursorKey(b) <==> a.text == b.text)
    ensures a.Object? && b.Object? && Plain(a.fields) && Plain(b.fields) ==>
      (CursorKey(a) == CursorKey(b) <==> a.fields == b.fields)
    ensures a.Scalar? ==> (CursorKey(a) == "" <==> a.text == "")
    ensures a.Object? ==> (CursorKey(a) == "" <==> a.fields == [])
    ensures a.Missing? ==> CursorKey(a) == ""
  {
    if a.Object? { ObjectKeyIsText(a.fields); }
    if a.Object? && b.Object? && Plain(a.fields) && Plain(b.fields) && CursorKey(a) == CursorKey(b) {
      ObjectKeyIsText(b.fields);
      if a.fields != [] { EqualKeysEqualFields(a.fields, b.fields); }
    }
  }

  lemma EqualKeysEqualFields(a: seq<(string, string)>, b: seq<(string, string)>)
    requires Plain(a) && Plain(b) && a != [] && b != [] && CursorKey(Object(a)) == CursorKey(Object(b))
    ensures a == b
  {
    FieldsSplit(a);
    FieldsSplit(b);
    FieldsAre(a);
    FieldsAre(b);
    forall i | 0 <= i < |a| ensures a[i] == b[i] { FieldTells(a[i], b[i]); }
  }

  // ----- which platforms are followed -----

  /** A cursor that leads on: a scalar with text, or an object of plain fields. */
  ghost predicate Leads(c: Cursor) {
    (c.Scalar? && c.text != "") || (c.Object? && c.fields != [] && Plain(c.fields))
  }

  /** The page has items and the next flag, repeats neither the ids of the page before nor a
      cursor, and all cursors are of one kind. */
  ghost predicate LeadsOn(server: nat -> Response, k: nat) {
    && server(k).Page? && server(k).next && server(k).items != [] && Leads(server(k).cursor)
    && (k > 0 && server(k - 1).Page? ==> Ids(Parsed(server(k).items)) != Ids(Parsed(server(k - 1).items)))
    && forall j: nat :: j < k && server(j).Page? ==>
         server(j).cursor != server(k).cursor && server(j).cursor.Scalar? == server(k).cursor.Scalar?
  }

  /** As long as the platform leads on and the limit allows it, the next page is requested. */
  lemma {:induction false} LeadingPagesAreFollowed(server: nat -> Response, maxPages: Option<int>, n: nat)
    requires (forall k: nat :: k < n ==> LeadsOn(server, k)) && WithinPages(maxPages, n + 1)
    ensures AllContinue(server, maxPages, n)
  {
    if n > 0 {
      LeadingPagesAreFollowed(server, maxPages, n - 1);
      var k := n - 1;
      assert LeadsOn(server, k);
      assert FreshKey(server, k) by {
        KeysTell(server(k).cursor, server(k).cursor);
        forall j: nat | j < k ensures KeyAt(server, j) != KeyAt(server, k) {
          assert LeadsOn(server, j);
          KeysTell(server(j).cursor, server(k).cursor);
        }
      }
      if k > 0 { assert LeadsOn(server, k - 1); }
      assert Continues(server, maxPages, k);
    }
  }

  /** So a listing, which ends at a failure or at a page that calls for no other, has requested
      page n + 1. */
  lemma LeadingPagesAreRequested(server: nat -> Response, maxPages: Option<int>, n: nat, pages: nat)
    requires (forall k: nat :: k < n ==> LeadsOn(server, k)) && WithinPages(maxPages, n + 1)
    requires pages >= 1 && (server(pages - 1).Failure? || !Continues(server, maxPages, pages - 1))
    ensures pages >= n + 1
  {
    LeadingPagesAreFollowed(server, maxPages, n);
    assert pages - 1 < n ==> Continues(server, maxPages, pages - 1);
  }

  /** A page with the same ids as the one before, already the second, stops the listing as
      incomplete; so does a page with more to come at the limit, or without a new cursor. */
  lemma StopsIncomplete(server: nat -> Response, maxPages: Option<int>, k: nat, complete: bool)
    requires server(k).Page? && server(k).next && server(k).items != []
    ensures
      k >= 1 && server(k - 1).Page? && Ids(Parsed(server(k).items)) == Ids(Parsed(server(k - 1).items)) != [] ==>
        (Ends(server, maxPages, k + 1, complete) <==> !complete)
    ensures maxPages.Some? && k + 1 >= maxPages.value ==>
      (Ends(server, maxPages, k + 1, complete) <==> !complete)
    ensures (|| server(k).cursor.Missing? || server(k).cursor == Scalar("")
             || (exists j: nat :: j < k && server(j).Page? && server(j).cursor == server(k).cursor)) ==>
      (Ends(server, maxPages, k + 1, complete) <==> !complete)
  {
    if j: nat :| j < k && server(j).Page? && server(j).cursor == server(k).cursor {
      assert KeyAt(server, j) == KeyAt(server, k);
    }
  }

  /** A page without items or without the next flag ends it, complete unless it repeats. */
  lemma StopsComplete(server: nat -> Response, maxPages: Option<int>, k: nat, complete: bool)
    requires server(k).Page? && (!server(k).next || server(k).items == [])
    ensures Ends(server, maxPages, k + 1, complete) <==>
      (complete <==> k == 0 || Ids(Parsed(server(k).items)) == [] || Ids(Parsed(server(k).items)) != IdsAt(server, k - 1))
  {
  }

  // ----- termination -----

  /** A page limit, if one is given, ends the loop. */
  lemma LimitEnds(server: nat -> Response, limit: int)
    requires limit >= 1
    ensures !Continues(server, Some(limit), limit - 1)
  {
  }

  /** The distinct keys of the first `n` responses. */
  ghost function KeySet(server: nat -> Response, n: nat): set<string> {
    if n == 0 then {} else KeySet(server, n - 1) + {KeyAt(server, n - 1)}
  }

  lemma {:induction false} KeySetIs(server: nat -> Response, n: nat, key: string)
    ensures key in KeySet(server, n) <==> exists j: nat :: j < n && KeyAt(server, j) == key
  {
    if n > 0 { KeySetIs(server, n - 1, key); }
  }

  lemma {:induction false} FreshKeysCount(server: nat -> Response, maxPages: Option<int>, n: nat)
    requires forall k: nat :: k < n ==> Continues(server, maxPages, k)
    ensures |KeySet(server, n)| == n
  {
    if n > 0 {
      FreshKeysCount(server, maxPages, n - 1);
      assert Continues(server, maxPages, n - 1);
      KeySetIs(server, n - 1, KeyAt(server, n - 1));
    }
  }

  lemma {:induction false} KeySetWithin(server: nat -> Response, n: nat, keys: set<string>)
    requires forall i :: KeyAt(server, i) in keys
    ensures KeySet(server, n) <= keys
  {
    if n > 0 { KeySetWithin(server, n - 1, keys); }
  }

  lemma {:induction false} SubsetSize<T>(a: set<T>, b: set<T>)
    requires a <= b
    ensures |a| <= |b|
    decreases |a|
  {
    if a != {} {
      var x :| x in a;
      SubsetSize(a - {x}, b - {x});
    }
  }

  /** If the platform's cursors have finitely many keys, at most one page more than keys is
      read, whatever its flags say. */
  lemma FiniteKeysEnd(server: nat -> Response, maxPages: Option<int>, keys: set<string>) returns (k: nat)
    requires forall i :: KeyAt(server, i) in keys
    ensures k <= |keys| && !Continues(server, maxPages, k)
  {
    if j: nat :| j < |keys| && !Continues(server, maxPages, j) {
      return j;
    }
    k := |keys|;
    if Continues(server, maxPages, k) {
      FreshKeysCount(server, maxPages, k + 1);
      KeySetWithin(server, k + 1, keys);
      SubsetSize(KeySet(server, k + 1), keys);
    }
  }

  /** Without a limit the loop depends on the platform: one that invents a new cursor and new
      ids for every page is followed forever. */
  function Endless(k: nat): Response {
    Page([Some(Order(Tally(k), ""))], true, Scalar(Tally(k + 1)), None)
  }

  function Tally(n: nat): (s: string)
    ensures |s| == n
  {
    if n == 0 then "" else Tally(n - 1) + "1"
  }

  lemma EndlessNeverEnds(k: nat)
    ensures Continues(Endless, None, k)
  {
    assert FreshKey(Endless, k) by {
      assert |KeyAt(Endless, k)| == k + 1;
      assert forall j: nat :: j < k ==> |KeyAt(Endless, j)| == j + 1;
    }
    if k > 0 {
      OneItem(k);
      OneItem(k - 1);
      assert Ids(OrdersOf(Endless(k)))[0] != Ids(OrdersOf(Endless(k - 1)))[0];
    }
  }

  lemma OneItem(k: nat)
    ensures Ids(OrdersOf(Endless(k))) == [Tally(k)]
  {
    var items := Endless(k).items;
    assert items[..0] == [];
    assert Parsed(items) == [Order(Tally(k), "")];
  }

  // ----- the loop -----

  /** What the loop keeps between pages, and what reading one page's items adds to. */
  datatype Gathered = Gathered(orders: seq<Order>, seen: set<string>, total: int, previous: Option<seq<string>>)

  datatype Reading = Reading(orders: seq<Order>, seen: set<string>, ids: seq<string>)

  function Absorb(r: Reading, item: Option<Order>): Reading {
    if item.None? then r
    else
      var order := item.value;
      if order.id in r.seen then r.(ids := r.ids + [order.id])
      else Reading(r.orders + [order], r.seen + {order.id}, r.ids + [order.id])
  }

  function ReadItems(r: Reading, items: seq<Option<Order>>, k: nat): Reading
    requires k <= |items|
  {
    if k == 0 then r else Absorb(ReadItems(r, items, k - 1), items[k - 1])
  }

  function AfterPage(g: Gathered, p: Response): Gathered
    requires p.Page?
  {
    var r := ReadItems(Reading(g.orders, g.seen, []), p.items, |p.items|);
    Gathered(r.orders, r.seen, if p.total.Some? then p.total.value else g.total, Some(r.ids))
  }

  function After(server: nat -> Response, n: nat): Gathered {
    if n == 0 then Gathered([], {}, 0, None)
    else if server(n - 1).Page? then AfterPage(After(server, n - 1), server(n - 1))
    else After(server, n - 1)
  }

  lemma ParsedNext(items: seq<Option<Order>>, k: nat)
    requires k < |items|
    ensures items[k].None? ==> Parsed(items[..k + 1]) == Parsed(items[..k])
    ensures items[k].Some? ==> Parsed(items[..k + 1]) == Parsed(items[..k]) + [items[k].value]
  {
    assert items[..k + 1][..k] == items[..k];
  }

  function Meaning(all: seq<Order>, read: seq<Order>): Reading {
    Reading(Dedup(all + read), IdSet(all + read), Ids(read))
  }

  lemma NothingMeans(all: seq<Order>)
    ensures Meaning(all, []) == Reading(Dedup(all), IdSet(all), [])
  {
    assert all + [] == all;
  }

  lemma AbsorbMeans(all: seq<Order>, read: seq<Order>, order: Order)
    ensures Absorb(Meaning(all, read), Some(order)) == Meaning(all, read + [order])
  {
    assert all + (read + [order]) == (all + read) + [order];
    Appended(all + read, order);
    Appended(read, order);
  }

  lemma {:induction false} ReadItemsMeans(all: seq<Order>, items: seq<Option<Order>>, k: nat)
    requires k <= |items|
    ensures ReadItems(Reading(Dedup(all), IdSet(all), []), items, k) == Meaning(all, Parsed(items[..k]))
  {
    if k == 0 {
      NothingMeans(all);
      assert items[..0] == [];
    } else {
      ReadItemsMeans(all, items, k - 1);
      ParsedNext(items, k - 1);
      assert items[..k - 1 + 1] == items[..k];
      if items[k - 1].Some? { AbsorbMeans(all, Parsed(items[..k - 1]), items[k - 1].value); }
    }
  }

  ghost predicate AllPages(server: nat -> Response, n: nat) {
    n == 0 || (server(n - 1).Page? && AllPages(server, n - 1))
  }

  lemma {:induction false} ContinuingPages(server: nat -> Response, maxPages: Option<int>, n: nat)
    requires AllContinue(server, maxPages, n)
    ensures AllPages(server, n)
  {
    if n > 0 {
      assert Continues(server, maxPages, n - 1);
      ContinuingPages(server, maxPages, n - 1);
    }
  }

  /** The accumulators mean what the responses say. */
  lemma {:induction false} AfterMeans(server: nat -> Response, n: nat)
    requires AllPages(server, n)
    ensures After(server, n) == Gathered(
      Dedup(Concatenated(server, n)), IdSet(Concatenated(server, n)), LastTotal(server, n),
      if n == 0 then None else Some(Ids(OrdersOf(server(n - 1)))))
  {
    if n > 0 {
      AfterMeans(server, n - 1);
      var items := server(n - 1).items;
      assert items[..|items|] == items;
      ReadItemsMeans(Concatenated(server, n - 1), items, |items|);
    }
  }

  /** The loop over one page's items. */
  method ReadPage(g: Gathered, p: Response) returns (after: Gathered)
    requires p.Page?
    ensures after == AfterPage(g, p)
  {
    var orders, seen, ids := g.orders, g.seen, [];
    ghost var start := Reading(g.orders, g.seen, []);
    for k := 0 to |p.items|
      invariant Reading(orders, seen, ids) == ReadItems(start, p.items, k)
    {
      if p.items[k].Some? {
        var order := p.items[k].value;
        ids := ids + [order.id];
        if order.id !in seen {
          seen := seen + {order.id};
          orders := orders + [order];
        }
      }
    }
    after := Gathered(orders, seen, if p.total.Some? then p.total.value else g.total, Some(ids));
  }

  /** The requests for the first `n` pages: consecutive numbers, each with the cursor of the
      page before it. */
  function Traffic(server: nat -> Response, n: nat): (sent: seq<Request>)
    ensures |sent| == n
  {
    if n == 0 then [] else Traffic(server, n - 1) + [Request(n, OffsetAt(server, n - 1))]
  }

  function OffsetAt(server: nat -> Response, k: nat): Cursor {
    if k == 0 || !server(k - 1).Page? then Missing else server(k - 1).cursor
  }

  lemma {:induction false} TrafficAt(server: nat -> Response, n: nat, k: nat)
    requires k < n
    ensures Traffic(server, n)[k] == Request(k + 1, OffsetAt(server, k))
  {
    if k < n - 1 { TrafficAt(server, n - 1, k); }
  }

  ghost predicate AllContinue(server: nat -> Response, maxPages: Option<int>, n: nat) {
    forall k: nat :: k < n ==> Continues(server, maxPages, k)
  }

  /** The top of an iteration, `n` pages having been read and followed. */
  ghost predicate Reached(server: nat -> Response, maxPages: Option<int>, n: nat, seenCursors: set<string>) {
    WithinPages(maxPages, n + 1) && AllContinue(server, maxPages, n) && seenCursors == KeySet(server, n)
  }

  /** The loop stopped at this page, complete or not. */
  ghost predicate Ends(server: nat -> Response, maxPages: Option<int>, page: nat, complete: bool) {
    && page >= 1 && server(page - 1).Page? && !Continues(server, maxPages, page - 1)
    && (complete <==> !Repeats(server, page - 1) && !HasMore(server(page - 1)))
  }

  /** The checks after a page was read: whether to go on, and if not, whether the listing is
      complete. */
  method Judge(server: nat -> Response, maxPages: Option<int>, page: nat, ids: seq<string>,
      previous: Option<seq<string>>, seenCursors: set<string>)
    returns (goOn: bool, complete: bool, seenAfter: set<string>)
    requires page >= 1 && server(page - 1).Page? && Reached(server, maxPages, page - 1, seenCursors)
    requires ids == IdsAt(server, page - 1)
    requires previous == (if page == 1 then None else Some(IdsAt(server, page - 2)))
    ensures goOn <==> Continues(server, maxPages, page - 1)
    ensures goOn ==> Reached(server, maxPages, page, seenAfter)
    ensures !goOn ==> Ends(server, maxPages, page, complete)
  {
    var response := server(page - 1);
    seenAfter := seenCursors;
    if previous.Some? && ids != [] && ids == previous.value {
      return false, false, seenAfter;
    }
    if !response.next || response.items == [] {
      return false, true, seenAfter;
    }
    if maxPages.Some? && page >= maxPages.value {
      return false, false, seenAfter;
    }
    var key := CursorKey(response.cursor);
    KeySetIs(server, page - 1, key);
    if key == "" || key in seenCursors {
      return false, false, seenAfter;
    }
    seenAfter := seenCursors + {key};
    return true, true, seenAfter;
  }

  lemma PreviousIs(server: nat -> Response, maxPages: Option<int>, n: nat)
    requires AllContinue(server, maxPages, n) && server(n).Page?
    ensures After(server, n + 1).previous == Some(IdsAt(server, n))
    ensures After(server, n).previous == (if n == 0 then None else Some(IdsAt(server, n - 1)))
  {
    ContinuingPages(server, maxPages, n);
    AfterMeans(server, n);
    AfterMeans(server, n + 1);
  }

  /** One iteration after a page arrived. */
  method ReadNext(server: nat -> Response, maxPages: Option<int>, page: nat, g: Gathered, seenCursors: set<string>)
    returns (after: Gathered, seenAfter: set<string>, goOn: bool, complete: bool)
    requires page >= 1 && server(page - 1).Page?
    requires Reached(server, maxPages, page - 1, seenCursors) && g == After(server, page - 1)
    ensures after == After(server, page)
    ensures goOn <==> Continues(server, maxPages, page - 1)
    ensures goOn ==> Reached(server, maxPages, page, seenAfter)
    ensures !goOn ==> Ends(server, maxPages, page, complete)
  {
    PreviousIs(server, maxPages, page - 1);
    after := ReadPage(g, server(page - 1));
    goOn, complete, seenAfter := Judge(server, maxPages, page, after.previous.value, g.previous, seenCursors);
  }

  /** What the loop returns after the page that ends it. */
  ghost predicate Concludes(server: nat -> Response, maxPages: Option<int>, pages: nat, outcome: Outcome) {
    && pages >= 1 && !outcome.BadArgument?
    && (outcome.SyncError? <==> server(pages - 1).Failure?)
    && (outcome.Listed? ==>
          && outcome.pages == pages && Ends(server, maxPages, pages, outcome.complete)
          && outcome.orders == After(server, pages).orders && outcome.total == After(server, pages).total)
  }

  /** One iteration: the page is read and followed, or the loop is over. */
  method Turn(server: nat -> Response, maxPages: Option<int>, page: nat, g: Gathered, seenCursors: set<string>)
    returns (after: Gathered, seenAfter: set<string>, over: bool, outcome: Outcome)
    requires page >= 1
    requires Reached(server, maxPages, page - 1, seenCursors) && g == After(server, page - 1)
    ensures over ==> Concludes(server, maxPages, page, outcome)
    ensures !over ==>
      server(page - 1).Page? && after == After(server, page) && Reached(server, maxPages, page, seenAfter)
  {
    after, seenAfter, over, outcome := g, seenCursors, true, BadArgument;
    var response := server(page - 1);
    if response.Failure? {
      outcome := SyncError(response.error);
      return;
    }
    var goOn, complete;
    after, seenAfter, goOn, complete := ReadNext(server, maxPages, page, g, seenCursors);
    over := !goOn;
    if over { outcome := Listed(after.orders, page, after.total, complete); }
  }

  lemma BelowBound(server: nat -> Response, maxPages: Option<int>, n: nat, seenCursors: set<string>, bound: nat)
    requires Reached(server, maxPages, n, seenCursors) && !Continues(server, maxPages, bound)
    ensures n <= bound
  {
  }

  /** The loop itself; `sent` is the traffic. */
  method FollowPages(server: nat -> Response, maxPages: Option<int>, ghost bound: nat)
    returns (outcome: Outcome, sent: seq<Request>)
    requires !Continues(server, maxPages, bound) && WithinPages(maxPages, 1)
    ensures 1 <= |sent| <= bound + 1 && WithinPages(maxPages, |sent|) && AllContinue(server, maxPages, |sent| - 1)
    ensures sent == Traffic(server, |sent|)
    ensures Concludes(server, maxPages, |sent|, outcome)
  {
    sent := [];
    var gathered, seenCursors := Gathered([], {}, 0, None), {};
    var offset, page := Missing, 1;
    while true
      invariant 1 <= page <= bound + 1
      invariant sent == Traffic(server, page - 1) && offset == OffsetAt(server, page - 1)
      invariant Reached(server, maxPages, page - 1, seenCursors) && gathered == After(server, page - 1)
      decreases bound - page
    {
      sent := sent + [Request(page, offset)];
      var over;
      gathered, seenCursors, over, outcome := Turn(server, maxPages, page, gathered, seenCursors);
      if over {
        return;
      }
      BelowBound(server, maxPages, page, seenCursors, bound);
      offset := server(page - 1).cursor;
      page := page + 1;
    }
  }

  lemma ConcludedMeans(server: nat -> Response, maxPages: Option<int>, n: nat, outcome: Outcome)
    requires Concludes(server, maxPages, n, outcome) && AllContinue(server, maxPages, n - 1)
    ensures outcome.SyncError? <==> server(n - 1).Failure?
    ensures outcome.Listed? ==> outcome.pages == n && Ends(server, maxPages, n, outcome.complete)
    ensures outcome.Listed? ==>
      outcome.orders == Dedup(Concatenated(server, n)) && outcome.total == LastTotal(server, n)
  {
    if outcome.Listed? {
      ContinuingPages(server, maxPages, n - 1);
      AfterMeans(server, n);
    }
  }

  /** `list_bought_orders`, against any platform on which some page ends the loop: the result
      is decided by the responses alone. */
  method ListBoughtOrders(server: nat -> Response, maxPages: Option<int>, ghost bound: nat)
    returns (outcome: Outcome, sent: seq<Request>)
    requires !Continues(server, maxPages, bound)
    ensures outcome.BadArgument? <==> maxPages.Some? && maxPages.value < 1
    ensures outcome.BadArgument? ==> sent == []
    ensures !outcome.BadArgument? ==>
      1 <= |sent| <= bound + 1 && WithinPages(maxPages, |sent|) && AllContinue(server, maxPages, |sent| - 1)
    ensures sent == Traffic(server, |sent|)
    ensures outcome.SyncError? <==> sent != [] && server(|sent| - 1).Failure?
    ensures outcome.Listed? ==>
      && outcome.pages == |sent|
      && !Continues(server, maxPages, |sent| - 1)
      && outcome.orders == Dedup(Concatenated(server, |sent|))
      && outcome.total == LastTotal(server, |sent|)
      && (outcome.complete <==> !Repeats(server, |sent| - 1) && !HasMore(server(|sent| - 1)))
  {
    if maxPages.Some? && maxPages.value < 1 {
      return BadArgument, [];
    }
    outcome, sent := FollowPages(server, maxPages, bound);
    ConcludedMeans(server, maxPages, |sent|, outcome);
  }

  /** No cursor key is followed twice. */
  lemma DistinctOffsets(server: nat -> Response, maxPages: Option<int>, n: nat)
    requires n > 0 && AllContinue(server, maxPages, n - 1)
    ensures forall i, j :: 1 <= i < j < n ==>
      CursorKey(Traffic(server, n)[i].offset) != CursorKey(Traffic(server, n)[j].offset)
  {
    forall i, j | 1 <= i < j < n
      ensures CursorKey(Traffic(server, n)[i].offset) != CursorKey(Traffic(server, n)[j].offset)
    {
      TrafficAt(server, n, i);
      TrafficAt(server, n, j);
      assert Continues(server, maxPages, i - 1) && Continues(server, maxPages, j - 1);
      assert KeyAt(server, i - 1) != KeyAt(server, j - 1);
    }
  }
}
