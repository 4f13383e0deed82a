/**
 * The sample conversion of the transcription client's audio paths: a
 * floating-point sample is clamped to [-1, 1], scaled by 0x8000 when negative
 * and by 0x7FFF otherwise, and stored into an `Int16Array`; the array's buffer
 * is then read as bytes, low byte first.
 */
module Pcm16 {
  import opened Base64

  /** An IEEE-754 sample as the audio graph delivers it; rounding is not modelled. */
  datatype Float = Finite(r: real) | PosInf | NegInf | NaN

  /** `Math.max(-1, Math.min(1, x))`; both functions give NaN for NaN. */
  function Clamp(x: Float): (y: Float)
    ensures y.NaN? <==> x.NaN?
    ensures y.Finite? ==> -1.0 <= y.r <= 1.0
  {
    match x
    case NaN => NaN
    case PosInf => Finite(1.0)
    case NegInf => Finite(-1.0)
    case Finite(r) => Finite(if r < -1.0 then -1.0 else if r > 1.0 then 1.0 else r)
  }

  /** `sample < 0 ? sample * 0x8000 : sample * 0x7FFF`, for a clamped sample. */
  function Scale(x: Float): Float {
    match x
    case Finite(r) => Finite(if r < 0.0 then r * 32768.0 else r * 32767.0)
    case _ => x
  }

  /** Rounding toward zero, the first step of ECMAScript's ToInt16. */
  function Trunc(r: real): int {
    if r >= 0.0 then r.Floor else -((-r).Floor)
  }

  /** The integer `n` reduced modulo 2^16 into [-32768, 32767], the second step of ToInt16. */
  function Wrap16(n: int): (w: int)
    ensures -32768 <= w <= 32767
    ensures (w - n) % 65536 == 0
  {
    (n + 32768) % 65536 - 32768
  }

  /** ECMAScript's ToInt16, applied when a number is stored into an `Int16Array`. */
  function ToInt16(x: Float): int {
    match x
    case Finite(r) => Wrap16(Trunc(r))
    case _ => 0
  }

  /** The PCM16 value of one sample (Gpt4oRealtimeClient.ts lines 199-200 and 266-267). */
  function Convert(x: Float): (v: int)
    ensures -32768 <= v <= 32767
    ensures x.NaN? ==> v == 0
  {
    ToInt16(Scale(Clamp(x)))
  }

  predicate IsInt16(v: int) {
    -32768 <= v <= 32767
  }

  /** The conversion of a whole channel buffer, element by element. */
  function ConvertAll(xs: seq<Float>): (ys: seq<int>)
    ensures |ys| == |xs|
    ensures forall i :: 0 <= i < |xs| ==> ys[i] == Convert(xs[i])
  {
    seq(|xs|, i requires 0 <= i < |xs| => Convert(xs[i]))
  }

  lemma TruncBounds(r: real)
    ensures r >= 0.0 ==> 0 <= Trunc(r) && Trunc(r) as real <= r
    ensures r < 0.0 ==> Trunc(r) <= 0 && r <= Trunc(r) as real
  {
  }

  lemma TruncMonotonic(r: real, s: real)
    requires r <= s
    ensures Trunc(r) <= Trunc(s)
  {
    if r < 0.0 && s < 0.0 {
      assert (-s).Floor <= (-r).Floor;
    }
  }

  /**
   * After clamping and scaling, truncation already lands in the 16-bit range,
   * so the wrap-around of ToInt16 never takes effect: the value is the scaled
   * sample rounded toward zero, and NaN becomes 0.
   */
  lemma ConvertNoWrap(x: Float)
    ensures x.NaN? ==> Convert(x) == 0
    ensures !x.NaN? ==> Scale(Clamp(x)).Finite? && Convert(x) == Trunc(Scale(Clamp(x)).r)
    ensures IsInt16(Convert(x))
  {
    var c := Clamp(x);
    if c.Finite? {
      var s := Scale(c).r;
      TruncBounds(s);
      if c.r < 0.0 {
        assert -32768.0 <= s < 0.0;
        TruncMonotonic(-32768.0, s);
        assert Trunc(-32768.0) == -32768;
      } else {
        assert 0.0 <= s <= 32767.0;
        TruncMonotonic(s, 32767.0);
        assert Trunc(32767.0) == 32767;
      }
      var t := Trunc(s);
      assert -32768 <= t <= 32767;
      assert (t + 32768) % 65536 == t + 32768;
    }
  }

  /** Full scale maps to the ends of the 16-bit range and silence to zero. */
  lemma ConvertReferencePoints()
    ensures Convert(Finite(1.0)) == 32767
    ensures Convert(Finite(-1.0)) == -32768
    ensures Convert(Finite(0.0)) == 0
    ensures Convert(PosInf) == 32767 && Convert(NegInf) == -32768
  {
    ConvertNoWrap(Finite(1.0));
    ConvertNoWrap(Finite(-1.0));
    ConvertNoWrap(Finite(0.0));
    ConvertNoWrap(PosInf);
    ConvertNoWrap(NegInf);
  }

  /** A louder finite sample never gives a smaller PCM16 value. */
  lemma ConvertMonotonic(r: real, s: real)
    requires r <= s
    ensures Convert(Finite(r)) <= Convert(Finite(s))
  {
    ConvertNoWrap(Finite(r));
    ConvertNoWrap(Finite(s));
    var cr, cs := Clamp(Finite(r)).r, Clamp(Finite(s)).r;
    assert cr <= cs;
    var sr, ss := Scale(Finite(cr)).r, Scale(Finite(cs)).r;
    if cr < 0.0 && cs < 0.0 {
      assert sr <= ss;
    } else if cr < 0.0 {
      assert sr < 0.0 <= ss;
    } else {
      assert sr <= ss;
    }
    TruncMonotonic(sr, ss);
  }

  /** The two bytes of a 16-bit value, low byte first (a little-endian host). */
  function LeBytesOf(v: int): seq<byte>
    requires IsInt16(v)
  {
    var u := v % 65536;
    [(u % 256) as byte, (u / 256) as byte]
  }

  /** The bytes of an `Int16Array`'s buffer. */
  function LeBytes(vs: seq<int>): (bs: seq<byte>)
    requires forall i :: 0 <= i < |vs| ==> IsInt16(vs[i])
    ensures |bs| == 2 * |vs|
  {
    if vs == [] then [] else LeBytes(vs[..|vs| - 1]) + LeBytesOf(vs[|vs| - 1])
  }

  /** Reading the bytes back as signed 16-bit values, low byte first. */
  function FromLeBytes(bs: seq<byte>): seq<int>
    requires |bs| % 2 == 0
  {
    if bs == [] then []
    else
      FromLeBytes(bs[..|bs| - 2]) + [FromPair(bs[|bs| - 2], bs[|bs| - 1])]
  }

  /** The signed value of a low byte and a high byte. */
  function FromPair(lo: byte, hi: byte): int {
    var u := hi as int * 256 + lo as int;
    if u >= 32768 then u - 65536 else u
  }

  lemma PairRoundTrip(v: int)
    requires IsInt16(v)
    ensures FromPair(LeBytesOf(v)[0], LeBytesOf(v)[1]) == v
  {
    var u := v % 65536;
    assert u == if v >= 0 then v else v + 65536;
    assert (u / 256) * 256 + u % 256 == u;
  }

  /** Appending the two bytes of `v` appends `v` to what the bytes read back as. */
  lemma FromLeBytesSnoc(bs: seq<byte>, v: int)
    requires |bs| % 2 == 0 && IsInt16(v)
    ensures FromLeBytes(bs + LeBytesOf(v)) == FromLeBytes(bs) + [v]
  {
    var pair := LeBytesOf(v);
    var t := bs + pair;
    assert t[..|t| - 2] == bs;
    assert t[|t| - 2] == pair[0] && t[|t| - 1] == pair[1];
    PairRoundTrip(v);
  }

  lemma LeBytesSnoc(init: seq<int>, v: int)
    requires forall i :: 0 <= i < |init| ==> IsInt16(init[i])
    requires IsInt16(v)
    ensures LeBytes(init + [v]) == LeBytes(init) + LeBytesOf(v)
  {
    var vs := init + [v];
    assert vs[..|vs| - 1] == init;
  }

  /** The byte view of the samples loses nothing: read back, it gives the samples. */
  lemma {:induction false} LeBytesRoundTrip(vs: seq<int>)
    requires forall i :: 0 <= i < |vs| ==> IsInt16(vs[i])
    ensures FromLeBytes(LeBytes(vs)) == vs
  {
    if vs != [] {
      var init, v := vs[..|vs| - 1], vs[|vs| - 1];
      assert vs == init + [v];
      LeBytesRoundTrip(init);
      LeBytesSnoc(init, v);
      FromLeBytesSnoc(LeBytes(init), v);
    }
  }

  /** The bytes that one audio frame carries. */
  function FrameBytes(xs: seq<Float>): (bs: seq<byte>)
    ensures |bs| == 2 * |xs|
  {
    var ys := ConvertAll(xs);
    forall i | 0 <= i < |ys| ensures IsInt16(ys[i]) { ConvertNoWrap(xs[i]); }
    LeBytes(ys)
  }

  /** The bytes of a frame read back as 16-bit values are exactly the converted samples. */
  lemma FrameBytesRoundTrip(xs: seq<Float>)
    ensures FromLeBytes(FrameBytes(xs)) == ConvertAll(xs)
  {
    var ys := ConvertAll(xs);
    forall i | 0 <= i < |ys| ensures IsInt16(ys[i]) { ConvertNoWrap(xs[i]); }
    assert FrameBytes(xs) == LeBytes(ys);
    LeBytesRoundTrip(ys);
  }

  /** Fills a fresh `Int16Array` with the converted samples, as both audio paths do. */
  method ConvertSamples(channel: array<Float>) returns (out: array<int>)
    ensures out.Length == channel.Length
    ensures out[..] == ConvertAll(channel[..])
    ensures forall i :: 0 <= i < out.Length ==> IsInt16(out[i])
  {
    out := new int[channel.Length];
    var i := 0;
    while i < channel.Length
      invariant 0 <= i <= channel.Length
      invariant forall k :: 0 <= k < i ==> out[k] == Convert(channel[k])
    {
      out[i] := Convert(channel[i]);
      i := i + 1;
    }
    forall k | 0 <= k < out.Length ensures IsInt16(out[k]) { ConvertNoWrap(channel[k]); }
  }
}
