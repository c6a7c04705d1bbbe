/** Cookie headers as text: parsing into an insertion-ordered dictionary and writing it
    back, in the syntax of section 4.2.1 of RFC 6265. */
module CookieText {
  import opened Text

  datatype Entry = Entry(name: string, value: string)

  /** A Python dictionary: distinct names in insertion order. */
  type Dict = seq<Entry>

  /** Assign to a key: a known key keeps its place. */
  function Put(d: Dict, name: string, value: string): Dict {
    if d == [] then [Entry(name, value)]
    else if d[0].name == name then [Entry(name, value)] + d[1..]
    else [d[0]] + Put(d[1..], name, value)
  }

  /** One `;`-separated item. */
  function ParseItem(d: Dict, item: string): Dict {
    var pair := Strip(item);
    if pair == "" || '=' !in pair then d
    else
      var i := Find(pair, '=');
      var name := Strip(pair[..i]);
      if name == "" then d else Put(d, name, Strip(pair[i + 1..]))
  }

  function ParseItems(d: Dict, items: seq<string>): Dict
    decreases |items|
  {
    if items == [] then d else ParseItems(ParseItem(d, items[0]), items[1..])
  }

  function WithoutBreaks(s: string): string {
    Remove(Remove(s, '\r'), '\n')
  }

  function Parse(s: string): Dict {
    ParseItems([], Split(WithoutBreaks(s), ';'))
  }

  function Pair(e: Entry): string {
    e.name + "=" + e.value
  }

  /** The entries worth writing: a name and a value. */
  function Live(d: Dict): Dict {
    if d == [] then [] else (if d[0].name != "" && d[0].value != "" then [d[0]] else []) + Live(d[1..])
  }

  function Pairs(d: Dict): (r: seq<string>)
    ensures |r| == |d| && forall i :: 0 <= i < |d| ==> r[i] == Pair(d[i])
  {
    if d == [] then [] else [Pair(d[0])] + Pairs(d[1..])
  }

  /** `serialize_cookie_map`. */
  function Serialize(d: Dict): string {
    Join(Pairs(Live(d)), "; ")
  }

  /** The body of the parsing loop. */
  method AddItem(parsed: Dict, item: string) returns (after: Dict)
    ensures after == ParseItem(parsed, item)
  {
    after := parsed;
    var pair := Strip(item);
    if pair != "" && '=' in pair {
      var i := Find(pair, '=');
      var name := Strip(pair[..i]);
      if name != "" {
        after := Put(parsed, name, Strip(pair[i + 1..]));
      }
    }
  }

  /** `parse_cookie_header`, as the loop it is. */
  method ParseCookieHeader(cookie: string) returns (parsed: Dict)
    ensures parsed == Parse(cookie)
    ensures WellFormed(parsed)
  {
    parsed := [];
    var items := Split(WithoutBreaks(cookie), ';');
    var k := 0;
    while k < |items|
      invariant 0 <= k <= |items|
      invariant ParseItems([], items) == ParseItems(parsed, items[k..])
    {
      assert items[k..][1..] == items[k + 1..];
      parsed := AddItem(parsed, items[k]);
      k := k + 1;
    }
    ParseIsWellFormed(cookie);
  }

  // ----- what parsing guarantees -----

  ghost predicate Clean(s: string) {
    Trimmed(s) && ';' !in s && '\r' !in s && '\n' !in s
  }

  ghost predicate EntryOk(e: Entry) {
    e.name != "" && Clean(e.name) && '=' !in e.name && Clean(e.value)
  }

  ghost predicate WellFormed(d: Dict) {
    && (forall i :: 0 <= i < |d| ==> EntryOk(d[i]))
    && (forall i, j :: 0 <= i < j < |d| ==> d[i].name != d[j].name)
  }

  lemma {:induction false} PutNames(d: Dict, name: string, value: string)
    ensures forall e :: e in Put(d, name, value) ==> e == Entry(name, value) || e in d
    ensures forall e :: e in Put(d, name, value) && e.name == name ==> e.value == value || e in d
  {
    if d != [] && d[0].name != name { PutNames(d[1..], name, value); }
  }

  lemma {:induction false} PutKeepsWellFormed(d: Dict, name: string, value: string)
    requires WellFormed(d) && EntryOk(Entry(name, value))
    ensures WellFormed(Put(d, name, value))
  {
    var r := Put(d, name, value);
    if d != [] && d[0].name != name {
      PutKeepsWellFormed(d[1..], name, value);
      PutNames(d[1..], name, value);
      assert r == [d[0]] + Put(d[1..], name, value);
      forall j | 1 <= j < |r| ensures r[j].name != d[0].name {
        assert r[j] in Put(d[1..], name, value);
      }
    }
  }

  lemma CleanSlice(s: string, i: nat, j: nat)
    requires ';' !in s && '\r' !in s && '\n' !in s && i <= j <= |s|
    ensures Clean(Strip(s[i..j]))
  {
    StripIsTrimmed(s[i..j]);
  }

  lemma ItemKeepsWellFormed(d: Dict, item: string)
    requires WellFormed(d) && ';' !in item && '\r' !in item && '\n' !in item
    ensures WellFormed(ParseItem(d, item))
  {
    var pair := Strip(item);
    StripIsTrimmed(item);
    if pair != "" && '=' in pair {
      var i := Find(pair, '=');
      CleanSlice(pair, 0, i);
      CleanSlice(pair, i + 1, |pair|);
      assert pair[0..i] == pair[..i] && pair[i + 1..|pair|] == pair[i + 1..];
      StripIsTrimmed(pair[..i]);
      if Strip(pair[..i]) != "" { PutKeepsWellFormed(d, Strip(pair[..i]), Strip(pair[i + 1..])); }
    }
  }

  lemma {:induction false} ItemsKeepWellFormed(d: Dict, items: seq<string>)
    requires WellFormed(d) && forall p :: p in items ==> ';' !in p && '\r' !in p && '\n' !in p
    ensures WellFormed(ParseItems(d, items))
    decreases |items|
  {
    if items != [] {
      assert items[0] in items;
      ItemKeepsWellFormed(d, items[0]);
      assert forall p :: p in items[1..] ==> p in items;
      ItemsKeepWellFormed(ParseItem(d, items[0]), items[1..]);
    }
  }

  /** Whatever the text, parsed names are distinct and non-empty, and neither names nor
      values carry separators, line breaks or outer white space. */
  lemma ParseIsWellFormed(s: string)
    ensures WellFormed(Parse(s))
  {
    var t := WithoutBreaks(s);
    assert '\r' !in t && '\n' !in t;
    ItemsKeepWellFormed([], Split(t, ';'));
  }

  // ----- which value a name gets -----

  /** The item, trimmed, reads name, '=', value, each trimmed, and the name is not empty. */
  ghost predicate Names(item: string, name: string, value: string) {
    && name != ""
    && exists a, b :: Strip(item) == a + ['='] + b && '=' !in a && Strip(a) == name && Strip(b) == value
  }

  lemma NamedItem(d: Dict, item: string, name: string, value: string)
    requires Names(item, name, value)
    ensures ParseItem(d, item) == Put(d, name, value)
  {
    var a, b :| Strip(item) == a + ['='] + b && '=' !in a && Strip(a) == name && Strip(b) == value;
    var pair := Strip(item);
    FindInConcat(a, '=', b);
    assert pair[|a|] == '=' && pair[..|a|] == a && pair[|a| + 1..] == b;
  }

  lemma UnnamedItem(d: Dict, item: string)
    requires forall name, value :: !Names(item, name, value)
    ensures ParseItem(d, item) == d
  {
    var pair := Strip(item);
    if '=' in pair {
      var i := Find(pair, '=');
      assert pair == pair[..i] + ['='] + pair[i + 1..];
      if Strip(pair[..i]) != "" { assert Names(item, Strip(pair[..i]), Strip(pair[i + 1..])); }
    }
  }

  /** Assigning to a known name replaces the value in its place; `PutFresh` is the other case. */
  lemma {:induction false} PutKnown(d: Dict, name: string, value: string, i: nat)
    requires i < |d| && d[i].name == name && forall j :: 0 <= j < i ==> d[j].name != name
    ensures Put(d, name, value) == d[i := Entry(name, value)]
  {
    if i == 0 {
      assert [Entry(name, value)] + d[1..] == d[0 := Entry(name, value)];
    } else {
      var rest := d[1..];
      assert forall j :: 0 <= j < |rest| ==> rest[j] == d[j + 1];
      PutKnown(rest, name, value, i - 1);
      assert [d[0]] + rest[i - 1 := Entry(name, value)] == d[i := Entry(name, value)];
    }
  }

  lemma {:induction false} PutHas(d: Dict, name: string, value: string, e: Entry)
    ensures Entry(name, value) in Put(d, name, value)
    ensures e.name != name ==> (e in Put(d, name, value) <==> e in d)
  {
    if d != [] && d[0].name != name { PutHas(d[1..], name, value, e); }
  }

  /** The item names the cookie, with some value. */
  ghost predicate Mentions(item: string, name: string) {
    exists value :: Names(item, name, value)
  }

  lemma OtherItem(d: Dict, item: string, e: Entry)
    requires !Mentions(item, e.name)
    ensures e in ParseItem(d, item) <==> e in d
  {
    if name, value :| Names(item, name, value) {
      NamedItem(d, item, name, value);
      PutHas(d, name, value, e);
    } else {
      UnnamedItem(d, item);
    }
  }

  lemma {:induction false} OtherItems(d: Dict, items: seq<string>, e: Entry)
    requires forall i :: 0 <= i < |items| ==> !Mentions(items[i], e.name)
    ensures e in ParseItems(d, items) <==> e in d
    decreases |items|
  {
    if items != [] {
      OtherItem(d, items[0], e);
      OtherItems(ParseItem(d, items[0]), items[1..], e);
    }
  }

  /** Item i is the last one that names the cookie. */
  ghost predicate LastNaming(items: seq<string>, i: nat, name: string, value: string) {
    && i < |items| && Names(items[i], name, value)
    && forall j :: i < j < |items| ==> !Mentions(items[j], name)
  }

  lemma {:induction false} LastItemWins(d: Dict, items: seq<string>, i: nat, e: Entry)
    requires LastNaming(items, i, e.name, e.value)
    ensures e in ParseItems(d, items)
    decreases |items|
  {
    var next := ParseItem(d, items[0]);
    if i == 0 {
      NamedItem(d, items[0], e.name, e.value);
      PutHas(d, e.name, e.value, e);
      OtherItems(next, items[1..], e);
    } else {
      assert LastNaming(items[1..], i - 1, e.name, e.value);
      LastItemWins(next, items[1..], i - 1, e);
    }
  }

  lemma {:induction false} LastWhere(items: seq<string>, p: string -> bool) returns (i: nat)
    requires exists j :: 0 <= j < |items| && p(items[j])
    ensures i < |items| && p(items[i]) && forall j :: i < j < |items| ==> !p(items[j])
    decreases |items|
  {
    var n := |items| - 1;
    if p(items[n]) {
      i := n;
    } else {
      var j :| 0 <= j < |items| && p(items[j]);
      assert p(items[..n][j]);
      i := LastWhere(items[..n], p);
    }
  }

  lemma LastNamingExists(items: seq<string>, name: string, j: nat) returns (i: nat, value: string)
    requires j < |items| && Mentions(items[j], name)
    ensures LastNaming(items, i, name, value)
  {
    var p := (item: string) => Mentions(item, name);
    assert p(items[j]);
    i := LastWhere(items, p);
    value :| Names(items[i], name, value);
    forall k | i < k < |items| ensures !Mentions(items[k], name) { assert !p(items[k]); }
  }

  lemma DistinctNames(d: Dict, a: Entry, b: Entry)
    requires WellFormed(d) && a in d && b in d && a.name == b.name
    ensures a == b
  {
  }

  lemma ParsedIsNamed(items: seq<string>, e: Entry) returns (i: nat)
    requires e in ParseItems([], items) && WellFormed(ParseItems([], items))
    ensures LastNaming(items, i, e.name, e.value)
  {
    if forall j :: 0 <= j < |items| ==> !Mentions(items[j], e.name) { OtherItems([], items, e); }
    var j :| 0 <= j < |items| && Mentions(items[j], e.name);
    var last;
    i, last := LastNamingExists(items, e.name, j);
    LastItemWins([], items, i, Entry(e.name, last));
    DistinctNames(ParseItems([], items), e, Entry(e.name, last));
  }

  ghost predicate NamedLast(items: seq<string>, name: string, value: string) {
    exists i: nat :: LastNaming(items, i, name, value)
  }

  lemma ItemsExactly(items: seq<string>, e: Entry)
    requires WellFormed(ParseItems([], items))
    ensures e in ParseItems([], items) <==> NamedLast(items, e.name, e.value)
  {
    if e in ParseItems([], items) {
      var i := ParsedIsNamed(items, e);
    } else if NamedLast(items, e.name, e.value) {
      var i: nat :| LastNaming(items, i, e.name, e.value);
      LastItemWins([], items, i, e);
    }
  }

  /** For every text: a name is in the dictionary with a value exactly when the last item that
      names it gives it that value. */
  lemma ParseExactly(s: string, name: string, value: string)
    ensures Entry(name, value) in Parse(s) <==> NamedLast(Split(WithoutBreaks(s), ';'), name, value)
  {
    ParseIsWellFormed(s);
    ItemsExactly(Split(WithoutBreaks(s), ';'), Entry(name, value));
  }

  // ----- the written text -----

  /** Entries without a name or a value are left out. */
  lemma DeadIsNotWritten(e: Entry, d: Dict)
    requires e.name == "" || e.value == ""
    ensures Serialize([e] + d) == Serialize(d)
  {
    assert ([e] + d)[1..] == d;
    assert Live([e] + d) == Live(d);
  }

  lemma LiveCons(e: Entry, d: Dict)
    requires e.name != "" && e.value != ""
    ensures Pairs(Live([e] + d)) == [Pair(e)] + Pairs(Live(d))
  {
    assert ([e] + d)[1..] == d;
    assert Live([e] + d) == [e] + Live(d);
    assert ([e] + Live(d))[1..] == Live(d);
  }

  /** The others are written name=value and separated by a semicolon and a blank. */
  lemma LiveIsWritten(e: Entry, d: Dict)
    requires e.name != "" && e.value != ""
    ensures Serialize([e] + d) == (e.name + "=" + e.value) + if Live(d) == [] then "" else "; " + Serialize(d)
  {
    LiveCons(e, d);
    JoinCons(Pair(e), Pairs(Live(d)), "; ");
  }

  // ----- the round trip -----

  lemma {:induction false} LiveMember(d: Dict, e: Entry)
    requires e in Live(d)
    ensures e in d && e.value != ""
  {
    if !(d[0] == e && e.value != "") {
      LiveMember(d[1..], e);
    }
  }

  lemma {:induction false} LiveDistinct(d: Dict)
    requires forall i, j :: 0 <= i < j < |d| ==> d[i].name != d[j].name
    ensures forall i, j :: 0 <= i < j < |Live(d)| ==> Live(d)[i].name != Live(d)[j].name
  {
    if d != [] {
      var rest := Live(d[1..]);
      LiveDistinct(d[1..]);
      forall j | 0 <= j < |rest| ensures rest[j].name != d[0].name {
        LiveMember(d[1..], rest[j]);
      }
    }
  }

  lemma LiveFacts(d: Dict)
    requires WellFormed(d)
    ensures WellFormed(Live(d))
    ensures forall i :: 0 <= i < |Live(d)| ==> Live(d)[i].value != ""
  {
    LiveDistinct(d);
    forall i | 0 <= i < |Live(d)| ensures EntryOk(Live(d)[i]) && Live(d)[i].value != "" {
      LiveMember(d, Live(d)[i]);
    }
  }

  /** Appending an unknown name. */
  lemma {:induction false} PutFresh(d: Dict, name: string, value: string)
    requires forall i :: 0 <= i < |d| ==> d[i].name != name
    ensures Put(d, name, value) == d + [Entry(name, value)]
  {
    if d != [] { PutFresh(d[1..], name, value); }
  }

  /** Reading one written pair, with or without the blank after the separator. */
  lemma ItemOfPair(d: Dict, e: Entry)
    requires EntryOk(e) && e.value != ""
    ensures ParseItem(d, Pair(e)) == Put(d, e.name, e.value)
    ensures ParseItem(d, " " + Pair(e)) == Put(d, e.name, e.value)
  {
    var pair := Pair(e);
    assert pair[0] == e.name[0] && pair[|pair| - 1] == e.value[|e.value| - 1];
    StripOfTrimmed(pair);
    StripBlankPrefix(pair);
    assert pair == e.name + ['='] + e.value;
    FindInConcat(e.name, '=', e.value);
    assert pair[..|e.name|] == e.name && pair[|e.name| + 1..] == e.value;
    assert pair[|e.name|] == '=';
    StripOfTrimmed(e.name);
    StripOfTrimmed(e.value);
  }

  /** Every pair with the blank that follows a separator. */
  function SpacedAll(d: Dict): (r: seq<string>)
    ensures |r| == |d| && forall i :: 0 <= i < |d| ==> r[i] == " " + Pair(d[i])
  {
    if d == [] then [] else [" " + Pair(d[0])] + SpacedAll(d[1..])
  }

  lemma {:induction false} JoinWithBlanks(d: Dict)
    requires d != []
    ensures " " + Join(Pairs(d), "; ") == Join(SpacedAll(d), ";")
  {
    if |d| > 1 {
      JoinWithBlanks(d[1..]);
      JoinSplitsOff(d);
      assert SpacedAll(d)[1..] == SpacedAll(d[1..]);
      var tail := " " + Join(Pairs(d[1..]), "; ");
      assert " " + (Pair(d[0]) + [';'] + tail) == (" " + Pair(d[0])) + [';'] + tail;
    }
  }

  lemma PairHasNoSeparator(e: Entry)
    requires EntryOk(e)
    ensures ';' !in Pair(e) && '\r' !in Pair(e) && '\n' !in Pair(e)
  {
  }

  lemma {:induction false} JoinedIsPlain(d: Dict, c: char)
    requires forall i :: 0 <= i < |d| ==> c !in Pair(d[i])
    requires c != ';' && c != ' '
    ensures c !in Join(Pairs(d), "; ")
  {
    if |d| > 1 {
      assert Pairs(d)[1..] == Pairs(d[1..]);
      JoinedIsPlain(d[1..], c);
    }
  }

  /** `item` is the written form of `e`. */
  ghost predicate Writes(item: string, e: Entry) {
    item == Pair(e) || item == " " + Pair(e)
  }

  lemma ItemAppends(done: Dict, item: string, e: Entry)
    requires EntryOk(e) && e.value != "" && Writes(item, e)
    requires forall i :: 0 <= i < |done| ==> done[i].name != e.name
    ensures ParseItem(done, item) == done + [e]
  {
    ItemOfPair(done, e);
    PutFresh(done, e.name, e.value);
  }

  lemma NextItemAppends(d: Dict, item: string, k: nat)
    requires k < |d| && EntryOk(d[k]) && d[k].value != "" && Writes(item, d[k])
    requires forall i :: 0 <= i < k ==> d[i].name != d[k].name
    ensures ParseItem(d[..k], item) == d[..k + 1]
  {
    ItemAppends(d[..k], item, d[k]);
    assert d[..k] + [d[k]] == d[..k + 1];
  }

  /** Reading written entries one by one rebuilds the dictionary. */
  lemma {:induction false} ItemsRebuild(d: Dict, items: seq<string>, k: nat)
    requires WellFormed(d) && |items| == |d| && k <= |d|
    requires forall i :: 0 <= i < |d| ==> d[i].value != "" && Writes(items[i], d[i])
    ensures ParseItems(d[..k], items[k..]) == d
    decreases |d| - k
  {
    if k == |d| {
      assert d[..k] == d && items[k..] == [];
    } else {
      var rest := items[k..];
      assert rest[0] == items[k] && rest[1..] == items[k + 1..];
      NextItemAppends(d, items[k], k);
      ItemsRebuild(d, items, k + 1);
    }
  }

  /** Splitting the written text gives the pairs back, all but the first with a blank. */
  lemma SplitOfSerialized(d: Dict)
    requires d != [] && forall i :: 0 <= i < |d| ==> ';' !in Pair(d[i])
    ensures
      var items := Split(Join(Pairs(d), "; "), ';');
      |items| == |d| && forall i :: 0 <= i < |d| ==> Writes(items[i], d[i])
  {
    if |d| == 1 {
      assert Find(Pair(d[0]), ';') == |Pair(d[0])|;
    } else {
      var rest := d[1..];
      JoinSplitsOff(d);
      JoinWithBlanks(rest);
      SplitCons(Pair(d[0]), ';', Join(SpacedAll(rest), ";"));
      SpacedHasNoSeparator(rest);
      SplitOfJoin(SpacedAll(rest), ';');
      assert forall i :: 1 <= i < |d| ==> rest[i - 1] == d[i];
    }
  }

  lemma SpacedHasNoSeparator(d: Dict)
    requires forall i :: 0 <= i < |d| ==> ';' !in Pair(d[i])
    ensures forall p :: p in SpacedAll(d) ==> ';' !in p
  {
  }

  lemma Reassociate(a: string, rest: string)
    ensures a + "; " + rest == a + [';'] + (" " + rest)
  {
    assert "; " == [';'] + " ";
    assert a + "; " + rest == (a + [';']) + " " + rest;
  }

  lemma JoinSplitsOff(d: Dict)
    requires |d| > 1
    ensures Join(Pairs(d), "; ") == Pair(d[0]) + [';'] + (" " + Join(Pairs(d[1..]), "; "))
  {
    var parts := Pairs(d);
    assert parts[1..] == Pairs(d[1..]);
    Reassociate(parts[0], Join(parts[1..], "; "));
  }

  /** For every text: parsing, writing and parsing again gives the parsed dictionary with
      the empty values dropped, in the same order. */
  lemma ParseSerializeRoundTrip(s: string)
    ensures Parse(Serialize(Parse(s))) == Live(Parse(s))
  {
    var d := Parse(s);
    ParseIsWellFormed(s);
    LiveFacts(d);
    var live := Live(d);
    var text := Join(Pairs(live), "; ");
    if live == [] {
      assert text == "" && Split(text, ';') == [""];
    } else {
      forall i | 0 <= i < |live| ensures ';' !in Pair(live[i]) && '\r' !in Pair(live[i]) && '\n' !in Pair(live[i]) {
        assert EntryOk(live[i]);
        PairHasNoSeparator(live[i]);
      }
      JoinedIsPlain(live, '\r');
      JoinedIsPlain(live, '\n');
      assert WithoutBreaks(text) == text;
      SplitOfSerialized(live);
      var items := Split(text, ';');
      ItemsRebuild(live, items, 0);
      assert live[..0] == [] && items[0..] == items;
    }
  }
}
