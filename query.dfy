/**
 * Query strings as `URL.searchParams` and `URLSearchParams` read and write
 * them: `&`-separated `name=value` pairs, empty segments skipped, the name
 * ending at the first `=`. Percent-encoding and `+` for space are not modelled.
 */
module Query {

  datatype Param = Param(name: string, value: string)

  /** `s.split(c)`: the pieces between occurrences of `c`; always at least one. */
  function SplitOn(s: string, c: char): (parts: seq<string>)
    ensures |parts| >= 1
    ensures forall k :: 0 <= k < |parts| ==> c !in parts[k]
    decreases |s|
  {
    if s == [] then [""]
    else
      var rest := SplitOn(s[1..], c);
      if s[0] == c then [""] + rest else [[s[0]] + rest[0]] + rest[1..]
  }

  /** `parts.join(c)`. */
  function Join(parts: seq<string>, c: char): string
    requires |parts| >= 1
  {
    if |parts| == 1 then parts[0] else parts[0] + [c] + Join(parts[1..], c)
  }

  lemma {:induction false} SplitOnFree(a: string, c: char)
    requires c !in a
    ensures SplitOn(a, c) == [a]
  {
    if a != [] {
      SplitOnFree(a[1..], c);
      assert [a[0]] + a[1..] == a;
    }
  }

  lemma {:induction false} SplitOnCons(a: string, b: string, c: char)
    requires c !in a
    ensures SplitOn(a + [c] + b, c) == [a] + SplitOn(b, c)
  {
    if a == [] {
      assert a + [c] + b == [c] + b;
      assert ([c] + b)[1..] == b;
    } else {
      SplitOnCons(a[1..], b, c);
      var s := a + [c] + b;
      assert s[0] == a[0] && s[1..] == a[1..] + [c] + b;
      assert [a[0]] + a[1..] == a;
    }
  }

  /** Splitting a join of pieces free of the separator gives the pieces back. */
  lemma {:induction false} SplitJoin(parts: seq<string>, c: char)
    requires |parts| >= 1
    requires forall k :: 0 <= k < |parts| ==> c !in parts[k]
    ensures SplitOn(Join(parts, c), c) == parts
  {
    if |parts| == 1 {
      SplitOnFree(parts[0], c);
    } else {
      SplitJoin(parts[1..], c);
      SplitOnCons(parts[0], Join(parts[1..], c), c);
      assert [parts[0]] + parts[1..] == parts;
    }
  }

  /** The index of the first `c` in `s`, or `|s|` when there is none. */
  function IndexOf(s: string, c: char): (i: nat)
    ensures i <= |s|
    ensures i < |s| ==> s[i] == c
    ensures c !in s[..i]
    ensures i == |s| <==> c !in s
  {
    if s == [] then 0
    else if s[0] == c then 0
    else
      var j := IndexOf(s[1..], c);
      assert s[1..][..j] == s[1..j + 1];
      assert s[..j + 1] == [s[0]] + s[1..j + 1];
      j + 1
  }

  /** One non-empty segment: the name up to the first `=`, the value after it. */
  function ParseParam(seg: string): (p: Param)
    ensures '=' !in p.name
  {
    var i := IndexOf(seg, '=');
    if i < |seg| then Param(seg[..i], seg[i + 1..]) else Param(seg, "")
  }

  function ParseSegments(segs: seq<string>): seq<Param> {
    if segs == [] then []
    else if segs[0] == "" then ParseSegments(segs[1..])
    else [ParseParam(segs[0])] + ParseSegments(segs[1..])
  }

  /** The parameters of a query string (the part after `?`), in order. */
  function Parse(query: string): seq<Param> {
    ParseSegments(SplitOn(query, '&'))
  }

  /** A parameter that serializes to one segment that parses back to it. */
  predicate WellFormed(p: Param) {
    '&' !in p.name && '=' !in p.name && '&' !in p.value
  }

  predicate AllWellFormed(ps: seq<Param>) {
    forall k :: 0 <= k < |ps| ==> WellFormed(ps[k])
  }

  function SerializeParam(p: Param): string {
    p.name + "=" + p.value
  }

  function Segments(ps: seq<Param>): (segs: seq<string>)
    ensures |segs| == |ps|
    ensures forall k :: 0 <= k < |ps| ==> segs[k] == SerializeParam(ps[k])
  {
    seq(|ps|, k requires 0 <= k < |ps| => SerializeParam(ps[k]))
  }

  /** `params.toString()`: the pairs as `name=value`, joined by `&`. */
  function Serialize(ps: seq<Param>): string {
    if ps == [] then "" else Join(Segments(ps), '&')
  }

  /** `params.has(name)`. */
  predicate Has(ps: seq<Param>, name: string) {
    exists k :: 0 <= k < |ps| && ps[k].name == name
  }

  lemma ParseParamSerialize(p: Param)
    requires WellFormed(p)
    ensures ParseParam(SerializeParam(p)) == p
  {
    var seg := SerializeParam(p);
    var i := IndexOf(seg, '=');
    assert seg[|p.name|] == '=';
    assert seg[..|p.name|] == p.name;
    assert i == |p.name|;
    assert seg[i + 1..] == p.value;
  }

  lemma {:induction false} ParseSegmentsOfParams(ps: seq<Param>)
    requires AllWellFormed(ps)
    ensures ParseSegments(Segments(ps)) == ps
  {
    if ps != [] {
      ParseSegmentsOfParams(ps[1..]);
      ParseParamSerialize(ps[0]);
      var segs := Segments(ps);
      assert segs[0] != "" by { assert segs[0][|ps[0].name|] == '='; }
      assert segs[1..] == Segments(ps[1..]);
      assert [ps[0]] + ps[1..] == ps;
    }
  }

  /** Parsing serialized well-formed parameters gives them back, in order. */
  lemma ParseSerialize(ps: seq<Param>)
    requires AllWellFormed(ps)
    ensures Parse(Serialize(ps)) == ps
  {
    if ps != [] {
      var segs := Segments(ps);
      forall k | 0 <= k < |segs| ensures '&' !in segs[k] {
        assert segs[k] == ps[k].name + "=" + ps[k].value;
      }
      SplitJoin(segs, '&');
      ParseSegmentsOfParams(ps);
    }
  }

  lemma {:induction false} ParseSegmentsWellFormed(segs: seq<string>)
    requires forall k :: 0 <= k < |segs| ==> '&' !in segs[k]
    ensures AllWellFormed(ParseSegments(segs))
  {
    if segs != [] {
      ParseSegmentsWellFormed(segs[1..]);
      if segs[0] != "" {
        var p := ParseParam(segs[0]);
        var i := IndexOf(segs[0], '=');
        if i < |segs[0]| {
          assert forall j :: 0 <= j < i ==> p.name[j] == segs[0][j];
          assert forall j :: 0 <= j < |p.value| ==> p.value[j] == segs[0][i + 1 + j];
        }
      }
    }
  }

  /** Every parameter read from a query string is well formed. */
  lemma ParseWellFormed(query: string)
    ensures AllWellFormed(Parse(query))
  {
    ParseSegmentsWellFormed(SplitOn(query, '&'));
  }
}
