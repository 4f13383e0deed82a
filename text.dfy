/**
 * The JavaScript string operations the catalogue handler and the interviews
 * page use: `trim`, the `\s` character class, `toLowerCase`/`toUpperCase`
 * (ASCII letters only), the `/\s+/g` → `-` replacement and `includes`.
 */
module Text {

  /** `\s` in a JavaScript regular expression, which is also what `trim` strips:
      the WhiteSpace and LineTerminator code points of ECMAScript. */
  predicate IsSpace(c: char) {
    || c == '\t' || c == '\n' || c == '\U{000B}' || c == '\U{000C}' || c == '\r' || c == ' '
    || c == '\U{00A0}' || c == '\U{1680}' || ('\U{2000}' <= c <= '\U{200A}')
    || c == '\U{2028}' || c == '\U{2029}' || c == '\U{202F}' || c == '\U{205F}'
    || c == '\U{3000}' || c == '\U{FEFF}'
  }

  predicate NoSpace(s: string) {
    forall i :: 0 <= i < |s| ==> !IsSpace(s[i])
  }

  /** `s.trimStart()`. */
  function TrimStart(s: string): (r: string)
    ensures |r| <= |s| && r == s[|s| - |r|..]
    ensures r == [] || !IsSpace(r[0])
    ensures forall i :: 0 <= i < |s| - |r| ==> IsSpace(s[i])
  {
    if s != [] && IsSpace(s[0]) then TrimStart(s[1..]) else s
  }

  /** `s.trimEnd()`. */
  function TrimEnd(s: string): (r: string)
    ensures |r| <= |s| && r == s[..|r|]
    ensures r == [] || !IsSpace(r[|r| - 1])
    ensures forall i :: |r| <= i < |s| ==> IsSpace(s[i])
  {
    if s != [] && IsSpace(s[|s| - 1]) then TrimEnd(s[..|s| - 1]) else s
  }

  /** `s.trim()`: the string without its leading and trailing white space. */
  function Trim(s: string): string {
    TrimEnd(TrimStart(s))
  }

  /** `toLowerCase` on one character, for the ASCII letters. */
  function LowerChar(c: char): char {
    if 'A' <= c <= 'Z' then (c as int - 'A' as int + 'a' as int) as char else c
  }

  /** `toUpperCase` on one character, for the ASCII letters. */
  function UpperChar(c: char): char {
    if 'a' <= c <= 'z' then (c as int - 'a' as int + 'A' as int) as char else c
  }

  /** `s.toLowerCase()`. */
  function Lower(s: string): (r: string)
    ensures |r| == |s|
    ensures forall i :: 0 <= i < |s| ==> r[i] == LowerChar(s[i])
  {
    seq(|s|, i requires 0 <= i < |s| => LowerChar(s[i]))
  }

  /** The leading run of white space removed (the part a `\s+` match consumes). */
  function DropSpaces(s: string): (r: string)
    ensures |r| <= |s| && r == s[|s| - |r|..]
    ensures r == [] || !IsSpace(r[0])
  {
    if s != [] && IsSpace(s[0]) then DropSpaces(s[1..]) else s
  }

  /** `s.replace(/\s+/g, '-')`: every maximal run of white space becomes one `-`. */
  function DashSpaces(s: string): string
    decreases |s|
  {
    if s == [] then []
    else if IsSpace(s[0]) then "-" + DashSpaces(DropSpaces(s))
    else [s[0]] + DashSpaces(s[1..])
  }

  /** `s.includes(q)`: `q` occurs in `s` as a contiguous substring. */
  predicate Contains(s: string, q: string) {
    exists i :: 0 <= i <= |s| - |q| && OccursAt(s, q, i)
  }

  /** `q` occurs in `s` starting at index `i`. */
  predicate OccursAt(s: string, q: string, i: int)
    requires 0 <= i <= |s| - |q|
  {
    s[i..i + |q|] == q
  }

  /** `s.charAt(0).toUpperCase() + s.slice(1)`. */
  function Capitalize(s: string): string {
    if s == [] then [] else [UpperChar(s[0])] + s[1..]
  }

  /** A character that `toLowerCase` leaves alone. */
  predicate IsLowered(c: char) {
    LowerChar(c) == c
  }

  predicate AllLowered(s: string) {
    forall i :: 0 <= i < |s| ==> IsLowered(s[i])
  }

  /** Lower-casing twice is lower-casing once. */
  lemma LowerLowered(s: string)
    ensures AllLowered(Lower(s))
  {
  }

  lemma LowerOfLowered(s: string)
    requires AllLowered(s)
    ensures Lower(s) == s
  {
  }

  /** Trimming a string without white space changes nothing. */
  lemma TrimOfNoSpace(s: string)
    requires NoSpace(s)
    ensures Trim(s) == s
  {
    assert TrimStart(s) == s;
  }

  lemma AllLoweredSuffix(s: string, k: nat)
    requires AllLowered(s) && k <= |s|
    ensures AllLowered(s[k..])
  {
    assert forall i :: 0 <= i < |s| - k ==> s[k..][i] == s[k + i];
  }

  lemma ConsShape(c: char, x: string)
    requires !IsSpace(c) && IsLowered(c) && NoSpace(x) && AllLowered(x)
    ensures NoSpace([c] + x) && AllLowered([c] + x)
  {
    assert forall i :: 1 <= i < |x| + 1 ==> ([c] + x)[i] == x[i - 1];
  }

  /** Replacing white-space runs in a lower-case string leaves a lower-case string without white space. */
  lemma {:induction false} DashSpacesShape(s: string)
    requires AllLowered(s)
    ensures NoSpace(DashSpaces(s)) && AllLowered(DashSpaces(s))
    decreases |s|
  {
    if s != [] {
      if IsSpace(s[0]) {
        var rest := DropSpaces(s);
        AllLoweredSuffix(s, |s| - |rest|);
        DashSpacesShape(rest);
        ConsShape('-', DashSpaces(rest));
      } else {
        AllLoweredSuffix(s, 1);
        DashSpacesShape(s[1..]);
        ConsShape(s[0], DashSpaces(s[1..]));
      }
    }
  }

  /** A string without white space is its own replacement. */
  lemma {:induction false} DashSpacesOfNoSpace(s: string)
    requires NoSpace(s)
    ensures DashSpaces(s) == s
    decreases |s|
  {
    if s != [] {
      DashSpacesOfNoSpace(s[1..]);
      assert [s[0]] + s[1..] == s;
    }
  }

  /** Capitalizing changes only the case of the first character. */
  lemma CapitalizeKeepsLetters(s: string)
    ensures |Capitalize(s)| == |s|
    ensures s != [] ==> Capitalize(s)[0] == UpperChar(s[0]) && Capitalize(s)[1..] == s[1..]
    ensures Lower(Capitalize(s)) == Lower(s)
  {
    if s != [] {
      assert LowerChar(UpperChar(s[0])) == LowerChar(s[0]);
      assert Lower(Capitalize(s))[0] == Lower(s)[0];
      assert forall i :: 1 <= i < |s| ==> Capitalize(s)[i] == s[i];
    }
  }

  lemma LowerAppend(a: string, b: string)
    ensures Lower(a + b) == Lower(a) + Lower(b)
  {
  }

  /** A leading single space before a word becomes a dash. */
  lemma DashLeadingSpace(b: string)
    requires NoSpace(b)
    ensures DashSpaces(" " + b) == "-" + b
  {
    var s := " " + b;
    assert DropSpaces(s) == DropSpaces(b) by { assert s[1..] == b; }
    assert DropSpaces(b) == b;
    DashSpacesOfNoSpace(b);
  }

  lemma DashSpacesCons(c: char, t: string)
    requires !IsSpace(c)
    ensures DashSpaces([c] + t) == [c] + DashSpaces(t)
  {
    assert ([c] + t)[1..] == t;
  }

  /** Replacing runs of white space never lengthens a string, and leaves only the empty string empty. */
  lemma {:induction false} DashSpacesLength(s: string)
    ensures |DashSpaces(s)| <= |s|
    ensures DashSpaces(s) == [] <==> s == []
    decreases |s|
  {
    if s != [] {
      if IsSpace(s[0]) {
        DashSpacesLength(DropSpaces(s));
      } else {
        DashSpacesLength(s[1..]);
      }
    }
  }

  /** A prefix without white space is kept as it is. */
  lemma {:induction false} DashSpacesPrefix(a: string, t: string)
    requires NoSpace(a)
    ensures DashSpaces(a + t) == a + DashSpaces(t)
    decreases |a|
  {
    if a == [] {
      assert a + t == t;
    } else {
      var c, rest := a[0], a[1..];
      assert !IsSpace(c);
      assert NoSpace(rest) by { assert forall i :: 0 <= i < |rest| ==> rest[i] == a[i + 1]; }
      calc {
        DashSpaces(a + t);
        { assert a + t == [c] + (rest + t); }
        DashSpaces([c] + (rest + t));
        { DashSpacesCons(c, rest + t); }
        [c] + DashSpaces(rest + t);
        { DashSpacesPrefix(rest, t); }
        [c] + (rest + DashSpaces(t));
        { assert [c] + rest == a; }
        a + DashSpaces(t);
      }
    }
  }
}
