/** The string operations the source leans on, as Python defines them. */
module Text {

  /** Python's `str.isspace` for one character. */
  predicate IsSpace(c: char) {
    || '\U{9}' <= c <= '\U{d}'
    || '\U{1c}' <= c <= ' '
    || c == '\U{85}' || c == '\U{a0}' || c == '\U{1680}'
    || '\U{2000}' <= c <= '\U{200a}'
    || c == '\U{2028}' || c == '\U{2029}' || c == '\U{202f}' || c == '\U{205f}' || c == '\U{3000}'
  }

  /** The code points with the white-space property. */
  lemma SpacesAre(c: char)
    ensures IsSpace(c) <==>
      var n := c as int;
      || n in {9, 10, 11, 12, 13, 28, 29, 30, 31, 32, 133, 160, 5760, 8232, 8233, 8239, 8287, 12288}
      || n in {8192, 8193, 8194, 8195, 8196, 8197, 8198, 8199, 8200, 8201, 8202}
  {
  }

  function StripLeft(s: string): string {
    if s != [] && IsSpace(s[0]) then StripLeft(s[1..]) else s
  }

  function StripRight(s: string): string {
    if s != [] && IsSpace(s[|s| - 1]) then StripRight(s[..|s| - 1]) else s
  }

  function Strip(s: string): string {
    StripRight(StripLeft(s))
  }

  /** No white space at either end. */
  ghost predicate Trimmed(s: string) {
    s == [] || (!IsSpace(s[0]) && !IsSpace(s[|s| - 1]))
  }

  lemma StripOfTrimmed(s: string)
    requires Trimmed(s)
    ensures Strip(s) == s
  {
  }

  lemma {:induction false} StripLeftFacts(s: string)
    ensures StripLeft(s) == [] || !IsSpace(StripLeft(s)[0])
    ensures forall c :: c in StripLeft(s) ==> c in s
  {
    if s != [] && IsSpace(s[0]) { StripLeftFacts(s[1..]); }
  }

  lemma {:induction false} StripRightFacts(s: string)
    ensures StripRight(s) == [] || !IsSpace(StripRight(s)[|StripRight(s)| - 1])
    ensures StripRight(s) <= s
  {
    if s != [] && IsSpace(s[|s| - 1]) { StripRightFacts(s[..|s| - 1]); }
  }

  lemma StripIsTrimmed(s: string)
    ensures Trimmed(Strip(s))
    ensures forall c :: c in Strip(s) ==> c in s
  {
    StripLeftFacts(s);
    StripRightFacts(StripLeft(s));
  }

  ghost predicate Blank(s: string) {
    forall i :: 0 <= i < |s| ==> IsSpace(s[i])
  }

  lemma {:induction false} StripLeftIs(s: string) returns (before: string)
    ensures Blank(before) && s == before + StripLeft(s)
  {
    before := [];
    if s != [] && IsSpace(s[0]) {
      before := StripLeftIs(s[1..]);
      assert s == [s[0]] + s[1..];
      before := [s[0]] + before;
    }
  }

  lemma {:induction false} StripRightIs(s: string) returns (after: string)
    ensures Blank(after) && s == StripRight(s) + after
  {
    after := [];
    if s != [] && IsSpace(s[|s| - 1]) {
      after := StripRightIs(s[..|s| - 1]);
      assert s == s[..|s| - 1] + [s[|s| - 1]];
      after := after + [s[|s| - 1]];
    }
  }

  /** Stripping takes white space from both ends, and all of it (`StripIsTrimmed`). */
  lemma StripIs(s: string) returns (before: string, after: string)
    ensures Blank(before) && Blank(after) && s == before + Strip(s) + after
  {
    before := StripLeftIs(s);
    after := StripRightIs(StripLeft(s));
    assert before + (Strip(s) + after) == before + Strip(s) + after;
  }

  /** A leading blank is stripped. */
  lemma StripBlankPrefix(s: string)
    requires Trimmed(s)
    ensures Strip(" " + s) == s
  {
    assert (" " + s)[1..] == s;
    StripOfTrimmed(s);
  }

  function Remove(s: string, c: char): (r: string)
    ensures c !in r
    ensures forall x :: x in r ==> x in s
    ensures c !in s ==> r == s
  {
    if s == [] then [] else (if s[0] == c then [] else [s[0]]) + Remove(s[1..], c)
  }

  lemma Associative(a: string, b: string, c: string)
    ensures (a + b) + c == a + (b + c)
  {
  }

  /** Removal works on each part of a text by itself. */
  lemma {:induction false} RemoveConcat(a: string, b: string, c: char)
    ensures Remove(a + b, c) == Remove(a, c) + Remove(b, c)
  {
    if a == [] {
      assert a + b == b;
    } else {
      assert (a + b)[0] == a[0] && (a + b)[1..] == a[1..] + b;
      RemoveConcat(a[1..], b, c);
      Associative(if a[0] == c then [] else [a[0]], Remove(a[1..], c), Remove(b, c));
    }
  }

  /** Every occurrence goes, and nothing else. */
  lemma RemoveIs(a: string, x: char, b: string, c: char)
    ensures Remove(a + [x] + b, c) == Remove(a, c) + (if x == c then [] else [x]) + Remove(b, c)
  {
    RemoveConcat(a + [x], b, c);
    RemoveConcat(a, [x], c);
    assert [x][1..] == [] && Remove([x], c) == if x == c then [] else [x];
  }

  /** Position of the first occurrence, or the length. */
  function Find(s: string, c: char): (i: nat)
    ensures i <= |s|
    ensures i < |s| ==> s[i] == c
    ensures c !in s[..i]
    ensures i == |s| <==> c !in s
  {
    if s == [] then 0 else if s[0] == c then 0 else
      var i := Find(s[1..], c) + 1;
      assert s[..i] == [s[0]] + s[1..][..i - 1];
      i
  }

  lemma FindInConcat(a: string, c: char, b: string)
    requires c !in a
    ensures Find(a + [c] + b, c) == |a|
  {
    var s := a + [c] + b;
    var i := Find(s, c);
    assert s[|a|] == c;
    assert forall k :: 0 <= k < |a| ==> s[k] == a[k];
    assert forall k :: 0 <= k < i ==> s[k] == s[..i][k];
  }

  /** Python's `str.split` with a one-character separator. */
  function Split(s: string, c: char): (parts: seq<string>)
    ensures |parts| >= 1
    ensures forall p :: p in parts ==> c !in p && forall x :: x in p ==> x in s
    decreases |s|
  {
    var i := Find(s, c);
    if i == |s| then [s] else [s[..i]] + Split(s[i + 1..], c)
  }

  /** Python's `separator.join(parts)`. */
  function Join(parts: seq<string>, separator: string): string {
    if parts == [] then ""
    else if |parts| == 1 then parts[0]
    else parts[0] + separator + Join(parts[1..], separator)
  }

  lemma JoinCons(a: string, rest: seq<string>, separator: string)
    ensures Join([a] + rest, separator) == a + if rest == [] then "" else separator + Join(rest, separator)
  {
    assert ([a] + rest)[1..] == rest;
    assert a + "" == a;
    if rest != [] { assert a + separator + Join(rest, separator) == a + (separator + Join(rest, separator)); }
  }

  lemma SplitCons(a: string, c: char, b: string)
    requires c !in a
    ensures Split(a + [c] + b, c) == [a] + Split(b, c)
  {
    var s := a + [c] + b;
    FindInConcat(a, c, b);
    assert s[..|a|] == a && s[|a| + 1..] == b;
  }

  /** Splitting undoes joining when no part contains the separator. */
  lemma {:induction false} SplitOfJoin(parts: seq<string>, c: char)
    requires parts != [] && forall p :: p in parts ==> c !in p
    ensures Split(Join(parts, [c]), c) == parts
  {
    if |parts| > 1 {
      SplitCons(parts[0], c, Join(parts[1..], [c]));
      SplitOfJoin(parts[1..], c);
    } else {
      assert Find(parts[0], c) == |parts[0]|;
    }
  }

  lemma CutAt(s: string, c: char) returns (a: string, b: string)
    requires c in s
    ensures s == a + [c] + b && c !in a
  {
    var i := Find(s, c);
    a, b := s[..i], s[i + 1..];
  }

  lemma JoinedCons(a: string, rest: seq<string>, b: string, c: char)
    requires rest != [] && Join(rest, [c]) == b
    ensures Join([a] + rest, [c]) == a + [c] + b
  {
    JoinCons(a, rest, [c]);
    Associative(a, [c], b);
  }

  lemma UncutSplit(s: string, c: char)
    requires c !in s
    ensures Split(s, c) == [s] && Join([s], [c]) == s
  {
  }

  /** Joining undoes splitting. */
  lemma {:induction false} JoinOfSplit(s: string, c: char)
    ensures Join(Split(s, c), [c]) == s
    decreases |s|
  {
    if c in s {
      var a, b := CutAt(s, c);
      JoinOfSplit(b, c);
      JoinedCons(a, Split(b, c), b, c);
      SplitCons(a, c, b);
    } else {
      UncutSplit(s, c);
    }
  }
}
