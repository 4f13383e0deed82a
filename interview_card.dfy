/**
 * The header gradient of an interview card: the id's UTF-16 code units are
 * added up, and the sum modulo the size of a five-entry table picks a pair of
 * colours.
 */
module InterviewCard {

  /** The UTF-16 code units of one character: one below U+10000, a surrogate pair above. */
  function Utf16(c: char): (units: seq<nat>)
    ensures 1 <= |units| <= 2
    ensures forall k :: 0 <= k < |units| ==> units[k] < 0x1_0000
    ensures c as int < 0x1_0000 ==> units == [c as int]
  {
    var v := c as int;
    if v < 0x1_0000 then [v]
    else [0xD800 + (v - 0x1_0000) / 0x400, 0xDC00 + (v - 0x1_0000) % 0x400]
  }

  /** `id.split('')` read by `charCodeAt(0)`: the code units of the string, in order. */
  function CodeUnits(id: string): seq<nat> {
    if id == [] then [] else CodeUnits(id[..|id| - 1]) + Utf16(id[|id| - 1])
  }

  /** `reduce((sum, c) => sum + c, 0)`, adding from the left. */
  function Sum(xs: seq<nat>): nat {
    if xs == [] then 0 else Sum(xs[..|xs| - 1]) + xs[|xs| - 1]
  }

  /** `Math.abs`. */
  function Abs(x: int): nat {
    if x < 0 then -x else x
  }

  /** One gradient: its start and end colour. */
  datatype Gradient = Gradient(start: string, end: string)

  /** The `gradients` table (InterviewCard.tsx lines 14-20). */
  const Gradients: seq<Gradient> := [
    Gradient("#B3EEE3", "#E5F9F4"),
    Gradient("#C7E3F7", "#FFFFFF"),
    Gradient("#87B2FF", "#6288CE"),
    Gradient("#18326F", "#87B2FF"),
    Gradient("#E5F9F4", "#C7E3F7")
  ]

  /**
   * The table index of a card (lines 29-31). `Math.abs` never changes the
   * sum, which is not negative, so the index is the sum modulo 5 and always
   * inside the table.
   */
  function GradientIndex(id: string): (i: nat)
    ensures i < |Gradients| == 5
    ensures i == Sum(CodeUnits(id)) % 5
  {
    Abs(Sum(CodeUnits(id))) % |Gradients|
  }

  /** The colours of a card's header (line 32). */
  function CardGradient(id: string): (g: Gradient)
    ensures g in Gradients
  {
    Gradients[GradientIndex(id)]
  }

  lemma {:induction false} SumAppend(xs: seq<nat>, ys: seq<nat>)
    ensures Sum(xs + ys) == Sum(xs) + Sum(ys)
    decreases |ys|
  {
    if ys == [] {
      assert xs + ys == xs;
    } else {
      var n := |ys| - 1;
      assert (xs + ys)[..|xs + ys| - 1] == xs + ys[..n];
      assert (xs + ys)[|xs + ys| - 1] == ys[n];
      SumAppend(xs, ys[..n]);
    }
  }

  lemma SumSingle(x: nat)
    ensures Sum([x]) == x
  {
    assert [x][..0] == [];
  }

  /** The code units one character contributes to the sum. */
  function Weight(c: char): nat {
    Sum(Utf16(c))
  }

  /** The weights of the elements added up, from the left. */
  function SumBy<T>(xs: seq<T>, w: T -> nat): nat {
    if xs == [] then 0 else SumBy(xs[..|xs| - 1], w) + w(xs[|xs| - 1])
  }

  /** Adding up the code units is adding up each character's units. */
  lemma {:induction false} SumOfCodeUnits(id: string)
    ensures Sum(CodeUnits(id)) == SumBy(id, Weight)
  {
    if id != [] {
      var n := |id| - 1;
      SumOfCodeUnits(id[..n]);
      SumAppend(CodeUnits(id[..n]), Utf16(id[n]));
    }
  }

  lemma {:induction false} SumByAppend<T>(a: seq<T>, b: seq<T>, w: T -> nat)
    ensures SumBy(a + b, w) == SumBy(a, w) + SumBy(b, w)
    decreases |b|
  {
    if b == [] {
      assert a + b == a;
    } else {
      var n := |b| - 1;
      assert (a + b)[..|a + b| - 1] == a + b[..n];
      assert (a + b)[|a + b| - 1] == b[n];
      SumByAppend(a, b[..n], w);
    }
  }

  /** Removing one element takes exactly its weight off the sum. */
  lemma SumByRemove<T>(b: seq<T>, j: nat, w: T -> nat)
    requires j < |b|
    ensures SumBy(b, w) == SumBy(b[..j] + b[j + 1..], w) + w(b[j])
  {
    var left, right := b[..j], b[j + 1..];
    var x := b[j];
    assert SumBy([x], w) == w(x) by { assert [x][..0] == []; }
    calc {
      SumBy(b, w);
      { assert b == (left + [x]) + right; }
      SumBy((left + [x]) + right, w);
      { SumByAppend(left + [x], right, w); }
      SumBy(left + [x], w) + SumBy(right, w);
      { SumByAppend(left, [x], w); }
      SumBy(left, w) + w(x) + SumBy(right, w);
      { SumByAppend(left, right, w); }
      SumBy(left + right, w) + w(x);
    }
  }

  lemma MultisetRemove<T>(s: seq<T>, j: nat)
    requires j < |s|
    ensures multiset(s[..j] + s[j + 1..]) == multiset(s) - multiset{s[j]}
  {
    assert s == s[..j] + [s[j]] + s[j + 1..];
  }

  /** The sum depends only on which elements occur, not on their order. */
  lemma {:induction false} SumByPermutation<T>(a: seq<T>, b: seq<T>, w: T -> nat)
    requires multiset(a) == multiset(b)
    ensures SumBy(a, w) == SumBy(b, w)
    decreases |a|
  {
    if a == [] {
      assert |b| == |multiset(b)| == 0;
    } else {
      var n := |a| - 1;
      var c := a[n];
      assert c in multiset(b);
      var j :| 0 <= j < |b| && b[j] == c;
      MultisetRemove(b, j);
      MultisetRemove(a, n);
      assert a[..n] + a[n + 1..] == a[..n];
      SumByPermutation(a[..n], b[..j] + b[j + 1..], w);
      SumByRemove(b, j, w);
    }
  }

  /** Permuting the characters of an id leaves its gradient unchanged. */
  lemma IndexPermutation(a: string, b: string)
    requires multiset(a) == multiset(b)
    ensures GradientIndex(a) == GradientIndex(b)
  {
    SumOfCodeUnits(a);
    SumOfCodeUnits(b);
    SumByPermutation(a, b, Weight);
  }

  lemma ModAdd(t: nat, w: nat)
    ensures (t + w) % 5 == (t % 5 + w) % 5
  {
    var q := t / 5;
    assert t == 5 * q + t % 5;
    assert t + w == 5 * q + (t % 5 + w);
  }

  /** The empty id takes the first gradient. */
  lemma EmptyIndex()
    ensures GradientIndex("") == 0 && CardGradient("") == Gradient("#B3EEE3", "#E5F9F4")
  {
  }

  /** Appending a character adds its code units to the index, modulo 5. */
  lemma IndexAppend(id: string, c: char)
    ensures GradientIndex(id + [c]) == (GradientIndex(id) + Weight(c)) % 5
    ensures c as int < 0x1_0000 ==> GradientIndex(id + [c]) == (GradientIndex(id) + c as int) % 5
  {
    var s := id + [c];
    assert s[..|s| - 1] == id && s[|s| - 1] == c;
    assert CodeUnits(s) == CodeUnits(id) + Utf16(c);
    SumAppend(CodeUnits(id), Utf16(c));
    ModAdd(Sum(CodeUnits(id)), Weight(c));
    if c as int < 0x1_0000 {
      SumSingle(c as int);
    }
  }
}
