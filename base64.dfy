/**
 * Base 64 encoding with the standard alphabet and `=` padding, section 4 of
 * RFC 4648 ("A"–"Z", "a"–"z", "0"–"9", "+", "/"). `btoa` in the audio path
 * applies it to a "binary string", one character per byte.
 */
module Base64 {
  import opened Wrappers

  newtype byte = x: int | 0 <= x < 256

  /** The character for the 6-bit value `v` (the table in section 4 of RFC 4648). */
  function CharOf(v: int): (c: char)
    requires 0 <= v < 64
    ensures IsAlphabet(c)
  {
    if v < 26 then ('A' as int + v) as char
    else if v < 52 then ('a' as int + (v - 26)) as char
    else if v < 62 then ('0' as int + (v - 52)) as char
    else if v == 62 then '+'
    else '/'
  }

  predicate IsAlphabet(c: char) {
    ('A' <= c <= 'Z') || ('a' <= c <= 'z') || ('0' <= c <= '9') || c == '+' || c == '/'
  }

  /** The 6-bit value of an alphabet character; `None` for any other character, `=` included. */
  function ValueOf(c: char): (r: Option<int>)
    ensures r.Some? <==> IsAlphabet(c)
    ensures r.Some? ==> 0 <= r.value < 64
  {
    if 'A' <= c <= 'Z' then Some(c as int - 'A' as int)
    else if 'a' <= c <= 'z' then Some(c as int - 'a' as int + 26)
    else if '0' <= c <= '9' then Some(c as int - '0' as int + 52)
    else if c == '+' then Some(62)
    else if c == '/' then Some(63)
    else None
  }

  lemma ValueOfCharOf(v: int)
    requires 0 <= v < 64
    ensures ValueOf(CharOf(v)) == Some(v)
  {
  }

  /** Three bytes (24 bits) as four 6-bit values, most significant bits first. */
  function Sextets(a: byte, b: byte, c: byte): (v: seq<int>)
    ensures |v| == 4 && forall i :: 0 <= i < 4 ==> 0 <= v[i] < 64
  {
    [a as int / 4, a as int % 4 * 16 + b as int / 16, b as int % 16 * 4 + c as int / 64, c as int % 64]
  }

  /** The three bytes that four 6-bit values hold. */
  function Octets(v0: int, v1: int, v2: int, v3: int): seq<byte>
    requires 0 <= v0 < 64 && 0 <= v1 < 64 && 0 <= v2 < 64 && 0 <= v3 < 64
  {
    [(v0 * 4 + v1 / 16) as byte, (v1 % 16 * 16 + v2 / 4) as byte, (v2 % 4 * 64 + v3) as byte]
  }

  lemma OctetsSextets(a: byte, b: byte, c: byte)
    ensures var v := Sextets(a, b, c); Octets(v[0], v[1], v[2], v[3]) == [a, b, c]
  {
    var a1, a2 := a as int / 4, a as int % 4;
    var b1, b2 := b as int / 16, b as int % 16;
    var c1, c2 := c as int / 64, c as int % 64;
    var v1, v2 := a2 * 16 + b1, b2 * 4 + c1;
    assert v1 / 16 == a2 && v1 % 16 == b1;
    assert v2 / 4 == b2 && v2 % 4 == c1;
  }

  /** Three bytes as four characters. */
  function EncodeBlock(a: byte, b: byte, c: byte): string {
    var v := Sextets(a, b, c);
    [CharOf(v[0]), CharOf(v[1]), CharOf(v[2]), CharOf(v[3])]
  }

  /** The final quantum of two bytes: three characters and one `=` (the missing byte counts as zero). */
  function EncodeTwo(a: byte, b: byte): string {
    var v := Sextets(a, b, 0);
    [CharOf(v[0]), CharOf(v[1]), CharOf(v[2]), '=']
  }

  /** The final quantum of one byte: two characters and `==`. */
  function EncodeOne(a: byte): string {
    var v := Sextets(a, 0, 0);
    [CharOf(v[0]), CharOf(v[1]), '=', '=']
  }

  /** The encoding of a byte string, section 4 of RFC 4648. */
  function Encode(b: seq<byte>): (s: string)
    ensures |s| % 4 == 0
    ensures s == "" <==> |b| == 0
    decreases |b|
  {
    if |b| == 0 then ""
    else if |b| == 1 then EncodeOne(b[0])
    else if |b| == 2 then EncodeTwo(b[0], b[1])
    else EncodeBlock(b[0], b[1], b[2]) + Encode(b[3..])
  }

  /** Four characters without padding as three bytes. */
  function DecodeBlock(q: string): (r: Option<seq<byte>>)
    requires |q| == 4
    ensures r.Some? ==> |r.value| == 3
  {
    var v0, v1, v2, v3 := ValueOf(q[0]), ValueOf(q[1]), ValueOf(q[2]), ValueOf(q[3]);
    if v0.None? || v1.None? || v2.None? || v3.None? then None
    else Some(Octets(v0.value, v1.value, v2.value, v3.value))
  }

  /** The last quantum, which may end in `=` or `==`. */
  function DecodeLast(q: string): (r: Option<seq<byte>>)
    requires |q| == 4
  {
    if q[2] == '=' && q[3] == '=' then
      var v0, v1 := ValueOf(q[0]), ValueOf(q[1]);
      if v0.None? || v1.None? then None
      else Some(Octets(v0.value, v1.value, 0, 0)[..1])
    else if q[3] == '=' then
      var v0, v1, v2 := ValueOf(q[0]), ValueOf(q[1]), ValueOf(q[2]);
      if v0.None? || v1.None? || v2.None? then None
      else Some(Octets(v0.value, v1.value, v2.value, 0)[..2])
    else DecodeBlock(q)
  }

  /** Decoding: the inverse of `Encode`; `None` for a string that is not a padded encoding. */
  function Decode(s: string): Option<seq<byte>>
    decreases |s|
  {
    if |s| == 0 then Some([])
    else if |s| < 4 then None
    else if |s| == 4 then DecodeLast(s)
    else
      match DecodeBlock(s[..4])
      case None => None
      case Some(head) =>
        match Decode(s[4..])
        case None => None
        case Some(tail) => Some(head + tail)
  }

  /** The characters of `EncodeBlock` decode to the values they were made from. */
  lemma ValuesOfBlock(a: byte, b: byte, c: byte)
    ensures var q, v := EncodeBlock(a, b, c), Sextets(a, b, c);
      forall i :: 0 <= i < 4 ==> ValueOf(q[i]) == Some(v[i])
  {
    var q, v := EncodeBlock(a, b, c), Sextets(a, b, c);
    forall i | 0 <= i < 4 ensures ValueOf(q[i]) == Some(v[i]) {
      ValueOfCharOf(v[i]);
    }
  }

  lemma BlockRoundTrip(a: byte, b: byte, c: byte)
    ensures DecodeBlock(EncodeBlock(a, b, c)) == Some([a, b, c])
    ensures DecodeLast(EncodeBlock(a, b, c)) == Some([a, b, c])
  {
    var q, v := EncodeBlock(a, b, c), Sextets(a, b, c);
    ValuesOfBlock(a, b, c);
    assert ValueOf(q[0]) == Some(v[0]) && ValueOf(q[1]) == Some(v[1]);
    assert ValueOf(q[2]) == Some(v[2]) && ValueOf(q[3]) == Some(v[3]);
    assert DecodeBlock(q) == Some(Octets(v[0], v[1], v[2], v[3]));
    OctetsSextets(a, b, c);
    assert q[3] != '=';
  }

  lemma OneRoundTrip(a: byte)
    ensures DecodeLast(EncodeOne(a)) == Some([a])
  {
    var v := Sextets(a, 0, 0);
    var c0, c1 := CharOf(v[0]), CharOf(v[1]);
    var q := EncodeOne(a);
    assert q == [c0, c1, '=', '='];
    ValueOfCharOf(v[0]);
    ValueOfCharOf(v[1]);
    var x := Octets(v[0], v[1], 0, 0);
    assert DecodeLast(q) == Some(x[..1]);
    OctetsSextets(a, 0, 0);
    assert v[2] == 0 && v[3] == 0;
    assert x == [a, 0, 0];
    assert x[..1] == [a];
  }

  lemma TwoRoundTrip(a: byte, b: byte)
    ensures DecodeLast(EncodeTwo(a, b)) == Some([a, b])
  {
    var v := Sextets(a, b, 0);
    var c0, c1, c2 := CharOf(v[0]), CharOf(v[1]), CharOf(v[2]);
    var q := EncodeTwo(a, b);
    assert q == [c0, c1, c2, '='];
    assert c2 != '=' by { assert IsAlphabet(c2); }
    ValueOfCharOf(v[0]);
    ValueOfCharOf(v[1]);
    ValueOfCharOf(v[2]);
    var x := Octets(v[0], v[1], v[2], 0);
    assert DecodeLast(q) == Some(x[..2]);
    OctetsSextets(a, b, 0);
    assert v[3] == 0;
    assert x == [a, b, 0];
    assert x[..2] == [a, b];
  }

  /** A full block in front of a non-empty decodable string. */
  lemma DecodeCons(q: string, rest: string, x: seq<byte>, y: seq<byte>)
    requires |q| == 4 && |rest| > 0
    requires DecodeBlock(q) == Some(x) && Decode(rest) == Some(y)
    ensures Decode(q + rest) == Some(x + y)
  {
    var s := q + rest;
    assert s[..4] == q && s[4..] == rest;
  }

  /** A string of four characters decodes as its last quantum. */
  lemma DecodeFour(q: string)
    requires |q| == 4
    ensures Decode(q) == DecodeLast(q)
  {
  }

  /** The encodings of one and of two bytes. */
  lemma EncodeShort(b: seq<byte>)
    ensures |b| == 1 ==> Encode(b) == EncodeOne(b[0])
    ensures |b| == 2 ==> Encode(b) == EncodeTwo(b[0], b[1])
  {
  }

  lemma RoundTrip1(b: seq<byte>)
    requires |b| == 1
    ensures Decode(Encode(b)) == Some([b[0]])
  {
    EncodeShort(b);
    OneRoundTrip(b[0]);
    DecodeFour(EncodeOne(b[0]));
  }

  lemma RoundTrip2(b: seq<byte>)
    requires |b| == 2
    ensures Decode(Encode(b)) == Some([b[0], b[1]])
  {
    EncodeShort(b);
    TwoRoundTrip(b[0], b[1]);
    DecodeFour(EncodeTwo(b[0], b[1]));
  }

  lemma RoundTrip3(b: seq<byte>)
    requires |b| == 3
    ensures Decode(Encode(b)) == Some([b[0], b[1], b[2]])
  {
    var q := EncodeBlock(b[0], b[1], b[2]);
    EncodeCons(b);
    assert b[3..] == [];
    BlockRoundTrip(b[0], b[1], b[2]);
    DecodeFour(q);
  }

  /** A byte string written out by its first elements. */
  lemma Spelled(b: seq<byte>)
    ensures |b| == 1 ==> b == [b[0]]
    ensures |b| == 2 ==> b == [b[0], b[1]]
    ensures |b| == 3 ==> b == [b[0], b[1], b[2]]
    ensures |b| >= 3 ==> b == [b[0], b[1], b[2]] + b[3..]
  {
  }

  /** A string of at least three bytes encodes as its first block followed by the rest. */
  lemma EncodeCons(b: seq<byte>)
    requires |b| >= 3
    ensures Encode(b) == EncodeBlock(b[0], b[1], b[2]) + Encode(b[3..])
  {
  }

  /** Decoding the encoding of any byte string gives that byte string back. */
  lemma {:induction false} DecodeEncode(b: seq<byte>)
    ensures Decode(Encode(b)) == Some(b)
    decreases |b|
  {
    Spelled(b);
    if |b| == 1 {
      RoundTrip1(b);
    } else if |b| == 2 {
      RoundTrip2(b);
    } else if |b| == 3 {
      RoundTrip3(b);
    } else if |b| > 3 {
      var x, y := [b[0], b[1], b[2]], b[3..];
      var q, r := EncodeBlock(b[0], b[1], b[2]), Encode(y);
      EncodeCons(b);
      DecodeEncode(y);
      EncodeLength(y);
      BlockRoundTrip(b[0], b[1], b[2]);
      DecodeCons(q, r, x, y);
    }
  }

  /** The encoding has four characters for every started group of three bytes. */
  lemma {:induction false} EncodeLength(b: seq<byte>)
    ensures |Encode(b)| == 4 * ((|b| + 2) / 3)
    decreases |b|
  {
    if |b| > 2 {
      var n := |b[3..]|;
      EncodeLength(b[3..]);
      EncodeCons(b);
      assert |EncodeBlock(b[0], b[1], b[2])| == 4;
      assert |b| + 2 == (n + 2) + 3;
      assert (|b| + 2) / 3 == (n + 2) / 3 + 1;
    }
  }

  /** Every character of an encoding is in the alphabet or is the pad character. */
  lemma {:induction false} EncodeAlphabet(b: seq<byte>)
    ensures forall i :: 0 <= i < |Encode(b)| ==> IsAlphabet(Encode(b)[i]) || Encode(b)[i] == '='
    decreases |b|
  {
    if |b| > 2 {
      EncodeAlphabet(b[3..]);
      var s := Encode(b);
      assert s == EncodeBlock(b[0], b[1], b[2]) + Encode(b[3..]);
      forall i | 0 <= i < |s| ensures IsAlphabet(s[i]) || s[i] == '=' {
        if i >= 4 { assert s[i] == Encode(b[3..])[i - 4]; }
      }
    }
  }

  /** The "binary string" of the bytes: one character per byte, with that byte as its code. */
  function Latin1(b: seq<byte>): (s: string)
    ensures |s| == |b|
    ensures forall i :: 0 <= i < |b| ==> s[i] as int == b[i] as int
  {
    seq(|b|, i requires 0 <= i < |b| => (b[i] as int) as char)
  }

  /**
   * The browser's `btoa`: a string whose characters all have codes below 256
   * is read as bytes and encoded; any other string raises
   * InvalidCharacterError, here `None`.
   */
  function Btoa(s: string): (r: Option<string>)
    ensures r.Some? <==> forall i :: 0 <= i < |s| ==> s[i] as int < 256
  {
    if forall i :: 0 <= i < |s| ==> s[i] as int < 256 then
      Some(Encode(seq(|s|, i requires 0 <= i < |s| && s[i] as int < 256 => s[i] as int as byte)))
    else None
  }

  /** `btoa` of a binary string is the encoding of the bytes it was built from. */
  lemma BtoaLatin1(b: seq<byte>)
    ensures Btoa(Latin1(b)) == Some(Encode(b))
  {
    var s := Latin1(b);
    assert seq(|s|, i requires 0 <= i < |s| && s[i] as int < 256 => s[i] as int as byte) == b;
  }
}
