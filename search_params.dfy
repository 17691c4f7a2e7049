/** The query string of a router location and `URLSearchParams.get`, as the
    confirmation page reads them: the search part of a path lies between the
    first `?` and the first `#`; it is split on `&`, empty pieces are skipped,
    each piece is split at its first `=`, `+` stands for a space, and `get`
    returns the value of the first pair with the requested name. */
module SearchParams {
  import opened Js

  function IndexOf(s: string, c: char): (r: Option<nat>)
    ensures r.Some? ==> r.value < |s| && s[r.value] == c && c !in s[..r.value]
    ensures r.None? ==> c !in s
  {
    if |s| == 0 then None
    else if s[0] == c then Some(0)
    else
      var rest := IndexOf(s[1..], c);
      if rest.None? then None
      else
        assert s[..rest.value + 1] == [s[0]] + s[1..][..rest.value];
        Some(rest.value + 1)
  }

  /** The part of `s` before the first `c`, or all of `s`. */
  function BeforeFirst(s: string, c: char): string {
    var i := IndexOf(s, c);
    if i.Some? then s[..i.value] else s
  }

  /** The part of `s` after the first `c`, or nothing. */
  function AfterFirst(s: string, c: char): string {
    var i := IndexOf(s, c);
    if i.Some? then s[i.value + 1..] else ""
  }

  /** `location.search` without its leading `?`. */
  function Search(path: string): string {
    AfterFirst(BeforeFirst(path, '#'), '?')
  }

  /** `s.split(c)`. */
  function SplitOn(s: string, c: char): (parts: seq<string>)
    ensures |parts| >= 1
  {
    if |s| == 0 then [""]
    else if s[0] == c then [""] + SplitOn(s[1..], c)
    else
      var rest := SplitOn(s[1..], c);
      [[s[0]] + rest[0]] + rest[1..]
  }

  /** Form decoding of `+` as a space (percent escapes are not decoded). */
  function PlusToSpace(s: string): (r: string)
    ensures |r| == |s|
  {
    if |s| == 0 then "" else [if s[0] == '+' then ' ' else s[0]] + PlusToSpace(s[1..])
  }

  datatype Pair = Pair(name: string, value: string)

  /** The name/value pairs of the non-empty pieces, in order. */
  function PairsOf(pieces: seq<string>): seq<Pair> {
    if |pieces| == 0 then []
    else if pieces[0] == "" then PairsOf(pieces[1..])
    else
      [Pair(PlusToSpace(BeforeFirst(pieces[0], '=')), PlusToSpace(AfterFirst(pieces[0], '=')))]
      + PairsOf(pieces[1..])
  }

  function FirstValue(pairs: seq<Pair>, name: string): (r: Option<string>)
    ensures r.Some? <==> exists i :: 0 <= i < |pairs| && pairs[i].name == name
  {
    if |pairs| == 0 then None
    else if pairs[0].name == name then Some(pairs[0].value)
    else
      var r := FirstValue(pairs[1..], name);
      assert forall i :: 1 <= i < |pairs| ==> pairs[i] == pairs[1..][i - 1];
      r
  }

  /** `new URLSearchParams(query).get(name)`; `None` is `null`. */
  function Get(query: string, name: string): Option<string> {
    FirstValue(PairsOf(SplitOn(query, '&')), name)
  }

  lemma {:induction false} SplitOnWithout(s: string, c: char)
    requires c !in s
    ensures SplitOn(s, c) == [s]
  {
    if |s| > 0 {
      SplitOnWithout(s[1..], c);
      assert [s[0]] + s[1..] == s;
    }
  }

  /** Splitting at a separator that first occurs after `a` yields `a`, then
      the pieces of the rest. */
  lemma {:induction false} SplitOnAfter(a: string, c: char, b: string)
    requires c !in a
    ensures SplitOn(a + [c] + b, c) == [a] + SplitOn(b, c)
  {
    if |a| == 0 {
      assert a + [c] + b == [c] + b;
      assert ([c] + b)[1..] == b;
    } else {
      var s := a + [c] + b;
      assert s[1..] == a[1..] + [c] + b;
      SplitOnAfter(a[1..], c, b);
      assert [a[0]] + a[1..] == a;
    }
  }

  lemma IndexOfAfter(a: string, c: char, b: string)
    requires c !in a
    ensures IndexOf(a + [c] + b, c) == Some(|a|)
  {
    var s := a + [c] + b;
    assert s[|a|] == c;
    assert s[..|a|] == a;
  }

  lemma PlusToSpaceWithout(s: string)
    requires '+' !in s
    ensures PlusToSpace(s) == s
  {
  }

  /** A piece `name=value` whose name has no `=` and neither part a `+`
      decodes to exactly that name and value. */
  lemma PieceOf(name: string, value: string)
    requires '=' !in name && '+' !in name && '+' !in value
    ensures BeforeFirst(name + "=" + value, '=') == name
    ensures AfterFirst(name + "=" + value, '=') == value
    ensures PlusToSpace(name) == name && PlusToSpace(value) == value
  {
    IndexOfAfter(name, '=', value);
    assert name + "=" + value == name + ['='] + value;
    PlusToSpaceWithout(name);
    PlusToSpaceWithout(value);
  }

  /** A simple component a query can carry without escaping. */
  predicate Plain(s: string) {
    '&' !in s && '=' !in s && '+' !in s
  }

  /** Both parameters of `n1=v1&n2=v2` read back as written. */
  lemma {:induction false} GetOfTwo(n1: string, v1: string, n2: string, v2: string)
    requires n1 != "" && n2 != "" && n1 != n2
    requires Plain(n1) && Plain(v1) && Plain(n2) && Plain(v2)
    ensures Get(n1 + "=" + v1 + "&" + n2 + "=" + v2, n1) == Some(v1)
    ensures Get(n1 + "=" + v1 + "&" + n2 + "=" + v2, n2) == Some(v2)
  {
    var p1 := n1 + "=" + v1;
    var p2 := n2 + "=" + v2;
    assert '&' !in p1 && '&' !in p2;
    assert n1 + "=" + v1 + "&" + n2 + "=" + v2 == p1 + ['&'] + p2;
    SplitOnAfter(p1, '&', p2);
    SplitOnWithout(p2, '&');
    PieceOf(n1, v1);
    PieceOf(n2, v2);
    assert SplitOn(p1 + ['&'] + p2, '&') == [p1, p2];
    assert p1 != "" && p2 != "";
    assert PairsOf([p2]) == [Pair(n2, v2)];
    assert [p1, p2][1..] == [p2];
    var pairs := PairsOf([p1, p2]);
    assert pairs == [Pair(n1, v1), Pair(n2, v2)];
    assert pairs[1..] == [Pair(n2, v2)];
    assert FirstValue(pairs, n1) == Some(v1);
    assert FirstValue(pairs, n2) == FirstValue([Pair(n2, v2)], n2);
  }

  /** The one parameter of `n=v` reads back as written. */
  lemma GetOfOne(n: string, v: string)
    requires n != "" && Plain(n) && Plain(v)
    ensures Get(n + "=" + v, n) == Some(v)
  {
    var p := n + "=" + v;
    assert '&' !in p;
    SplitOnWithout(p, '&');
    PieceOf(n, v);
    assert [p][1..] == [];
    assert PairsOf([p]) == [Pair(n, v)];
  }

  /** The search part of `p?q` for a path `p` without `?` or `#`. */
  lemma SearchOf(p: string, q: string)
    requires '?' !in p && '#' !in p && '#' !in q
    ensures Search(p + "?" + q) == q
  {
    var s := p + "?" + q;
    assert '#' !in s;
    assert BeforeFirst(s, '#') == s;
    assert s == p + ['?'] + q;
    IndexOfAfter(p, '?', q);
  }
}
