/** The HTTP session's cookie jar and the plain name-to-value map that the renewal works
    with. */
module CookieJar {

  /** A jar entry; `domain` is the lower-cased domain. A jar holds at most one entry per
      domain, path and name, and is listed in some fixed order. */
  datatype Cookie = Cookie(domain: string, path: string, name: string, value: string)

  /** A cookie of one response. */
  datatype Received = Received(name: string, value: string, expired: bool)

  const HOME := ".goofish.com"

  predicate EndsWith(s: string, suffix: string) {
    |suffix| <= |s| && s[|s| - |suffix|..] == suffix
  }

  predicate Accepted(domain: string) {
    domain == "" || EndsWith(domain, "goofish.com") || EndsWith(domain, "mmstat.com")
  }

  function Priority(domain: string): int {
    if domain == HOME then 3 else if EndsWith(domain, "goofish.com") then 2 else 1
  }

  datatype Choice = Choice(priority: int, value: string)

  /** One pass of the selection loop. */
  function Select(chosen: map<string, Choice>, c: Cookie): map<string, Choice> {
    if Accepted(c.domain) && (c.name !in chosen || Priority(c.domain) >= chosen[c.name].priority) then
      chosen[c.name := Choice(Priority(c.domain), c.value)]
    else chosen
  }

  function SelectAll(jar: seq<Cookie>): map<string, Choice> {
    if jar == [] then map[] else Select(SelectAll(jar[..|jar| - 1]), jar[|jar| - 1])
  }

  /** The jar as a plain map: per name the last entry of the best domain, unless empty. */
  function View(jar: seq<Cookie>): map<string, string> {
    Plain(SelectAll(jar))
  }

  function Plain(chosen: map<string, Choice>): map<string, string> {
    map name | name in chosen && chosen[name].value != "" :: chosen[name].value
  }

  function Without(jar: seq<Cookie>, name: string): (r: seq<Cookie>)
    ensures forall c :: c in r <==> c in jar && c.name != name
  {
    if jar == [] then []
    else Without(jar[..|jar| - 1], name) + (if jar[|jar| - 1].name == name then [] else [jar[|jar| - 1]])
  }

  /** One response cookie on the plain map: set it, or delete it when empty or expired. */
  function Assign(m: map<string, string>, r: Received): map<string, string> {
    if r.value != "" && !r.expired then m[r.name := r.value] else m - {r.name}
  }

  function AssignAll(m: map<string, string>, rs: seq<Received>): map<string, string> {
    if rs == [] then m else Assign(AssignAll(m, rs[..|rs| - 1]), rs[|rs| - 1])
  }

  // ----- which entry a name gets -----

  /** Domains that count: none, and those of the two sites. */
  ghost predicate Counts(domain: string) {
    || domain == "" || OnSite(domain)
    || (|domain| >= 10 && domain[|domain| - 10..] == "mmstat.com")
  }

  ghost predicate AtHome(domain: string) { domain == ".goofish.com" }

  ghost predicate OnSite(domain: string) { |domain| >= 11 && domain[|domain| - 11..] == "goofish.com" }

  /** The home domain goes before every other, and any goofish.com domain before the rest. */
  ghost predicate Better(d: string, than: string) {
    (AtHome(d) && !AtHome(than)) || (OnSite(d) && !OnSite(than))
  }

  lemma NotBetterTwice(a: string, b: string, c: string)
    requires !Better(a, b) && !Better(b, c)
    ensures !Better(a, c)
  {
  }

  lemma SiteIs(d: string)
    ensures EndsWith(d, "goofish.com") <==> OnSite(d)
    ensures AtHome(d) ==> OnSite(d)
  {
    assert |"goofish.com"| == 11;
    assert HOME[1..] == "goofish.com";
  }

  lemma AcceptedIs(d: string)
    ensures Accepted(d) <==> Counts(d)
  {
    SiteIs(d);
    assert |"mmstat.com"| == 10;
  }

  lemma RanksAre(d: string, e: string)
    ensures Accepted(d) <==> Counts(d)
    ensures Priority(d) > Priority(e) <==> Better(d, e)
  {
    AcceptedIs(d);
    SiteIs(d);
    SiteIs(e);
  }

  /** Entry i decides its name: it counts, no entry of the name that counts is better, and none
      after it is as good. */
  ghost predicate Decides(jar: seq<Cookie>, i: nat) {
    && i < |jar| && Counts(jar[i].domain)
    && forall j :: 0 <= j < |jar| && jar[j].name == jar[i].name && Counts(jar[j].domain) ==>
         if j > i then Better(jar[i].domain, jar[j].domain) else !Better(jar[j].domain, jar[i].domain)
  }

  /** An entry as good as the deciding one takes over. */
  lemma LastTakesOver(front: seq<Cookie>, last: Cookie, i: nat)
    requires Decides(front, i) && last.name == front[i].name && Counts(last.domain)
    requires !Better(front[i].domain, last.domain)
    ensures Decides(front + [last], |front|)
  {
    var jar := front + [last];
    forall j | 0 <= j < |front| && jar[j].name == last.name && Counts(jar[j].domain)
      ensures !Better(jar[j].domain, last.domain)
    {
      assert jar[j] == front[j];
      if j <= i {
        NotBetterTwice(front[j].domain, front[i].domain, last.domain);
      } else {
        assert Better(front[i].domain, front[j].domain);
        SiteIs(front[i].domain);
        SiteIs(front[j].domain);
        BetterNotBack(front[i].domain, front[j].domain, last.domain);
      }
    }
  }

  lemma BetterNotBack(a: string, b: string, c: string)
    requires Better(a, b) && !Better(a, c) && (AtHome(b) ==> OnSite(b)) && (AtHome(a) ==> OnSite(a))
    ensures !Better(b, c)
  {
  }

  /** Any other entry leaves it. */
  lemma StillDecides(front: seq<Cookie>, last: Cookie, i: nat)
    requires Decides(front, i)
    requires last.name != front[i].name || !Counts(last.domain) || Better(front[i].domain, last.domain)
    ensures Decides(front + [last], i)
  {
    var jar := front + [last];
    forall j | 0 <= j < |jar| && jar[j].name == jar[i].name && Counts(jar[j].domain)
      ensures if j > i then Better(jar[i].domain, jar[j].domain) else !Better(jar[j].domain, jar[i].domain)
    {
      if j < |front| { assert jar[j] == front[j]; }
    }
  }

  lemma FirstDecides(front: seq<Cookie>, last: Cookie)
    requires Counts(last.domain) && forall j :: 0 <= j < |front| ==> front[j].name != last.name || !Counts(front[j].domain)
    ensures Decides(front + [last], |front|)
  {
    var jar := front + [last];
    forall j | 0 <= j < |front| ensures jar[j].name != last.name || !Counts(jar[j].domain) {
      assert jar[j] == front[j];
    }
  }

  ghost predicate Listed(jar: seq<Cookie>, name: string) {
    exists j :: 0 <= j < |jar| && jar[j].name == name && Counts(jar[j].domain)
  }

  lemma ListedNext(front: seq<Cookie>, last: Cookie, name: string)
    ensures Listed(front + [last], name) <==> Listed(front, name) || (last.name == name && Counts(last.domain))
  {
    var jar := front + [last];
    if Listed(front, name) {
      var j :| 0 <= j < |front| && front[j].name == name && Counts(front[j].domain);
      assert jar[j] == front[j];
    }
    if last.name == name && Counts(last.domain) { assert jar[|front|] == last; }
    if Listed(jar, name) {
      var j :| 0 <= j < |jar| && jar[j].name == name && Counts(jar[j].domain);
      if j < |front| { assert front[j] == jar[j]; }
    }
  }

  ghost predicate Chosen(jar: seq<Cookie>, name: string, c: Cookie) {
    name in SelectAll(jar) && SelectAll(jar)[name] == Choice(Priority(c.domain), c.value)
  }

  lemma ChosenNext(front: seq<Cookie>, last: Cookie, name: string, c: Cookie)
    requires Chosen(front, name, c)
    ensures Chosen(front + [last], name,
      if last.name == name && Counts(last.domain) && !Better(c.domain, last.domain) then last else c)
  {
    SelectSnoc(front, last);
    RanksAre(last.domain, c.domain);
    RanksAre(c.domain, last.domain);
  }

  lemma {:induction false} DecidingEntry(jar: seq<Cookie>, name: string) returns (i: nat)
    requires Listed(jar, name)
    ensures Decides(jar, i) && jar[i].name == name && Chosen(jar, name, jar[i])
  {
    var n := |jar| - 1;
    var front, last := jar[..n], jar[n];
    assert jar == front + [last];
    if Listed(front, name) {
      i := DecidingEntry(front, name);
      ChosenNext(front, last, name, front[i]);
      if last.name == name && Counts(last.domain) && !Better(front[i].domain, last.domain) {
        LastTakesOver(front, last, i);
        i := n;
      } else {
        StillDecides(front, last, i);
      }
    } else {
      i := n;
      ListedNext(front, last, name);
      FirstDecides(front, last);
      NoChoice(front, name);
      SelectSnoc(front, last);
      RanksAre(last.domain, "");
    }
  }

  lemma {:induction false} NoChoice(jar: seq<Cookie>, name: string)
    requires forall j :: 0 <= j < |jar| ==> jar[j].name != name || !Counts(jar[j].domain)
    ensures name !in SelectAll(jar)
  {
    if jar != [] {
      NoChoice(jar[..|jar| - 1], name);
      RanksAre(jar[|jar| - 1].domain, "");
    }
  }

  lemma OneDecides(jar: seq<Cookie>, i: nat, j: nat)
    requires Decides(jar, i) && Decides(jar, j) && jar[i].name == jar[j].name
    ensures i == j
  {
  }

  /** For every jar the plain map has a name exactly when its deciding entry has a value, and then
      that value. */
  lemma ViewExactly(jar: seq<Cookie>, name: string, value: string)
    ensures (name in View(jar) && View(jar)[name] == value) <==>
      value != "" && exists i: nat :: Decides(jar, i) && jar[i].name == name && jar[i].value == value
  {
    if Listed(jar, name) {
      var i := DecidingEntry(jar, name);
      forall k: nat | Decides(jar, k) && jar[k].name == name ensures k == i { OneDecides(jar, i, k); }
    } else {
      NoChoice(jar, name);
    }
  }

  // ----- selection by name -----

  /** The entries of one name decide its choice; no other entry matters. */
  ghost predicate SameChoice(a: map<string, Choice>, b: map<string, Choice>, name: string) {
    (name in a <==> name in b) && (name in a ==> a[name] == b[name])
  }

  lemma SelectKeepsSameChoice(a: map<string, Choice>, b: map<string, Choice>, c: Cookie, name: string)
    requires SameChoice(a, b, name)
    ensures SameChoice(Select(a, c), Select(b, c), name)
    ensures c.name != name ==> SameChoice(Select(a, c), a, name)
  {
  }

  lemma {:induction false} ChoiceIgnoresOthers(jar: seq<Cookie>, other: string, name: string)
    requires name != other
    ensures SameChoice(SelectAll(Without(jar, other)), SelectAll(jar), name)
  {
    if jar != [] {
      var front, last := jar[..|jar| - 1], jar[|jar| - 1];
      ChoiceIgnoresOthers(front, other, name);
      SelectKeepsSameChoice(SelectAll(Without(front, other)), SelectAll(front), last, name);
      if last.name == other {
        SelectKeepsSameChoice(SelectAll(front), SelectAll(front), last, name);
        assert Without(jar, other) == Without(front, other);
      } else {
        var kept := Without(jar, other);
        assert kept == Without(front, other) + [last];
        assert kept[..|kept| - 1] == Without(front, other);
      }
    }
  }

  lemma {:induction false} NoChoiceWithoutEntries(jar: seq<Cookie>, name: string)
    requires forall c :: c in jar ==> c.name != name
    ensures name !in SelectAll(jar)
  {
    if jar != [] {
      assert jar[|jar| - 1] in jar;
      assert forall c :: c in jar[..|jar| - 1] ==> c in jar;
      NoChoiceWithoutEntries(jar[..|jar| - 1], name);
    }
  }

  lemma SelectOfWithout(jar: seq<Cookie>, name: string)
    ensures SelectAll(Without(jar, name)) == SelectAll(jar) - {name}
  {
    NoChoiceWithoutEntries(Without(jar, name), name);
    var kept, all := SelectAll(Without(jar, name)), SelectAll(jar) - {name};
    forall n ensures (n in kept <==> n in all) && (n in kept ==> kept[n] == all[n]) {
      if n != name { ChoiceIgnoresOthers(jar, name, n); }
    }
  }

  lemma SelectHome(chosen: map<string, Choice>, c: Cookie)
    requires c.domain == HOME && c.name !in chosen
    ensures Select(chosen, c) == chosen[c.name := Choice(3, c.value)]
  {
    assert HOME[1..] == "goofish.com";
    assert EndsWith(HOME, "goofish.com");
  }

  lemma SelectCommutes(chosen: map<string, Choice>, d: Cookie, name: string, choice: Choice)
    requires d.name != name
    ensures Select(chosen[name := choice], d) == Select(chosen, d)[name := choice]
  {
    if Accepted(d.domain) {
      var p := Priority(d.domain);
      assert chosen[name := choice][d.name := Choice(p, d.value)] == chosen[d.name := Choice(p, d.value)][name := choice];
    }
  }

  lemma SelectSnoc(jar: seq<Cookie>, last: Cookie)
    ensures SelectAll(jar + [last]) == Select(SelectAll(jar), last)
  {
    assert (jar + [last])[..|jar|] == jar;
  }

  /** Where a single new entry is listed does not matter. */
  lemma {:induction false} InsertedEntry(before: seq<Cookie>, after: seq<Cookie>, c: Cookie)
    requires c.domain == HOME && (forall i :: 0 <= i < |before| ==> before[i].name != c.name)
    requires forall i :: 0 <= i < |after| ==> after[i].name != c.name
    ensures SelectAll(before + [c] + after) == SelectAll(before + after)[c.name := Choice(3, c.value)]
  {
    var all := before + [c] + after;
    if after == [] {
      assert all == before + [c] && before + after == before;
      SelectSnoc(before, c);
      NoChoiceWithoutEntries(before, c.name);
      SelectHome(SelectAll(before), c);
    } else {
      var last := after[|after| - 1];
      var front := after[..|after| - 1];
      assert after == front + [last];
      assert last.name != c.name;
      InsertedEntry(before, front, c);
      SelectSnoc(before + [c] + front, last);
      SelectSnoc(before + front, last);
      assert before + [c] + front + [last] == all;
      assert before + front + [last] == before + after;
      SelectCommutes(SelectAll(before + front), last, c.name, Choice(3, c.value));
    }
  }

  lemma PlainOfUpdate(chosen: map<string, Choice>, name: string, choice: Choice)
    ensures Plain(chosen - {name}) == Plain(chosen) - {name}
    ensures choice.value != "" ==> Plain(chosen[name := choice]) == Plain(chosen)[name := choice.value]
  {
  }

  lemma ViewOfWithout(jar: seq<Cookie>, name: string)
    ensures View(Without(jar, name)) == View(jar) - {name}
  {
    SelectOfWithout(jar, name);
    PlainOfUpdate(SelectAll(jar), name, Choice(3, ""));
  }

  lemma SelectOfReplaced(jar: seq<Cookie>, pos: nat, name: string, value: string)
    requires pos <= |Without(jar, name)|
    ensures
      var kept := Without(jar, name);
      SelectAll(kept[..pos] + [Cookie(HOME, "/", name, value)] + kept[pos..])
        == SelectAll(kept)[name := Choice(3, value)]
  {
    var kept := Without(jar, name);
    assert forall d :: d in kept[..pos] ==> d in kept;
    assert forall d :: d in kept[pos..] ==> d in kept;
    InsertedEntry(kept[..pos], kept[pos..], Cookie(HOME, "/", name, value));
    assert kept[..pos] + kept[pos..] == kept;
  }

  lemma Reassign(m: map<string, string>, name: string, value: string)
    ensures (m - {name})[name := value] == m[name := value]
  {
  }

  /** Clear the name, then list one home entry anywhere: the view is assigned. */
  lemma ViewOfReplaced(jar: seq<Cookie>, pos: nat, name: string, value: string)
    requires pos <= |Without(jar, name)| && value != ""
    ensures
      var kept := Without(jar, name);
      View(kept[..pos] + [Cookie(HOME, "/", name, value)] + kept[pos..]) == View(jar)[name := value]
  {
    var chosen := SelectAll(Without(jar, name));
    SelectOfReplaced(jar, pos, name, value);
    PlainOfUpdate(chosen, name, Choice(3, value));
    ViewOfWithout(jar, name);
    Reassign(View(jar), name, value);
  }

  /** A name has one entry at most. */
  ghost predicate Single(jar: seq<Cookie>, name: string) {
    forall c, d :: c in jar && d in jar && c.name == name && d.name == name ==> c == d
  }

  lemma SingleKept(jar: seq<Cookie>, pos: nat, c: Cookie, name: string)
    requires pos <= |Without(jar, c.name)| && (Single(jar, name) || name == c.name)
    ensures Single(Without(jar, c.name), name)
    ensures Single(Without(jar, c.name)[..pos] + [c] + Without(jar, c.name)[pos..], name)
  {
    var kept := Without(jar, c.name);
    var all := kept[..pos] + [c] + kept[pos..];
    assert forall d :: d in all ==> d == c || d in kept;
  }

  /** The session whose jar the renewal edits. */
  class Session {
    var cookies: seq<Cookie>

    constructor (cookies: seq<Cookie>)
      ensures this.cookies == cookies
    {
      this.cookies := cookies;
    }

    /** `session_cookie_map`. */
    method CookieMap() returns (m: map<string, string>)
      ensures m == View(cookies)
    {
      var selected: map<string, Choice> := map[];
      var i := 0;
      while i < |cookies|
        invariant 0 <= i <= |cookies|
        invariant selected == SelectAll(cookies[..i])
      {
        var c := cookies[i];
        SelectSnoc(cookies[..i], c);
        assert cookies[..i + 1] == cookies[..i] + [c];
        if Accepted(c.domain) {
          var priority := Priority(c.domain);
          if c.name !in selected || priority >= selected[c.name].priority {
            selected := selected[c.name := Choice(priority, c.value)];
          }
        }
        i := i + 1;
      }
      assert cookies[..i] == cookies;
      m := map name | name in selected && selected[name].value != "" :: selected[name].value;
    }

    /** The inner loop: clear every entry of that name, whatever its domain and path. */
    method ClearName(name: string)
      modifies this
      ensures cookies == Without(old(cookies), name)
      ensures View(cookies) == old(View(cookies)) - {name}
      ensures forall n :: old(Single(cookies, n)) || n == name ==> Single(cookies, n)
    {
      var kept: seq<Cookie> := [];
      var i := 0;
      while i < |cookies|
        invariant 0 <= i <= |cookies| && cookies == old(cookies)
        invariant kept == Without(cookies[..i], name)
      {
        assert cookies[..i + 1][..i] == cookies[..i];
        if cookies[i].name != name {
          kept := kept + [cookies[i]];
        }
        i := i + 1;
      }
      assert cookies[..i] == cookies;
      ViewOfWithout(cookies, name);
      forall n | Single(cookies, n) || n == name ensures Single(kept, n) {
        SingleKept(cookies, 0, Cookie(HOME, "/", name, ""), n);
      }
      cookies := kept;
    }

    /** Set one home entry for a cleared name; the jar decides where it is listed. */
    method SetHome(name: string, value: string, ghost jar: seq<Cookie>)
      requires cookies == Without(jar, name) && value != ""
      modifies this
      ensures View(cookies) == View(jar)[name := value]
      ensures forall n :: Single(jar, n) || n == name ==> Single(cookies, n)
    {
      var pos: nat :| pos <= |cookies|;
      ViewOfReplaced(jar, pos, name, value);
      forall n | Single(jar, n) || n == name
        ensures Single(cookies[..pos] + [Cookie(HOME, "/", name, value)] + cookies[pos..], n)
      {
        SingleKept(jar, pos, Cookie(HOME, "/", name, value), n);
      }
      cookies := cookies[..pos] + [Cookie(HOME, "/", name, value)] + cookies[pos..];
    }

    /** The outer loop's body. */
    method FlattenOne(r: Received)
      modifies this
      ensures View(cookies) == Assign(old(View(cookies)), r)
      ensures forall n :: old(Single(cookies, n)) || n == r.name ==> Single(cookies, n)
    {
      ghost var jar := cookies;
      ClearName(r.name);
      if r.value != "" && !r.expired {
        SetHome(r.name, r.value, jar);
      }
    }

    /** `_flatten_response_cookies`: afterwards the plain view is the old one assigned left
        to right, and every name the response mentioned has one entry at most. */
    method FlattenResponseCookies(response: seq<Received>)
      modifies this
      ensures View(cookies) == AssignAll(old(View(cookies)), response)
      ensures forall i :: 0 <= i < |response| ==> Single(cookies, response[i].name)
    {
      var k := 0;
      while k < |response|
        invariant 0 <= k <= |response|
        invariant View(cookies) == AssignAll(old(View(cookies)), response[..k])
        invariant forall i :: 0 <= i < k ==> Single(cookies, response[i].name)
      {
        assert response[..k + 1][..k] == response[..k];
        FlattenOne(response[k]);
        k := k + 1;
      }
      assert response[..k] == response;
    }
  }

  /** What the assignments leave: the last response cookie of a name decides it, and other
      names keep their old value. */
  lemma {:induction false} AssignAllDecidedByLast(m: map<string, string>, rs: seq<Received>, i: nat)
    requires i < |rs| && forall j :: i < j < |rs| ==> rs[j].name != rs[i].name
    ensures
      var name := rs[i].name;
      var out := AssignAll(m, rs);
      && (name in out <==> rs[i].value != "" && !rs[i].expired)
      && (name in out ==> out[name] == rs[i].value)
  {
    var n := |rs| - 1;
    if i < n {
      assert rs[n].name != rs[i].name;
      AssignAllDecidedByLast(m, rs[..n], i);
    }
  }

  lemma {:induction false} AssignAllKeepsOthers(m: map<string, string>, rs: seq<Received>, name: string)
    requires forall r :: r in rs ==> r.name != name
    ensures name in AssignAll(m, rs) <==> name in m
    ensures name in m ==> AssignAll(m, rs)[name] == m[name]
  {
    if rs != [] {
      assert rs[|rs| - 1] in rs;
      assert forall r :: r in rs[..|rs| - 1] ==> r in rs;
      AssignAllKeepsOthers(m, rs[..|rs| - 1], name);
    }
  }
}
