/**
 * JavaScript strings are sequences of UTF-16 code units: `length` counts
 * them and `substring` cuts between them. A `string` here is a sequence of
 * Unicode scalar values, so a character at U+10000 or above is one element
 * here and two code units (a surrogate pair) there. `Encode` gives the
 * code units of a string and `Decode` reads them back.
 */
module Utf16 {
  import opened Wrappers

  /** One UTF-16 code unit. */
  type CodeUnit = u: int | 0 <= u < 0x1_0000

  predicate IsHighSurrogate(u: int) { 0xD800 <= u < 0xDC00 }

  predicate IsLowSurrogate(u: int) { 0xDC00 <= u < 0xE000 }

  /** Whether a character needs a surrogate pair. */
  predicate IsAstral(c: char) { c as int >= 0x1_0000 }

  /** The code units of one character: itself below U+10000, else a high and a low surrogate. */
  function CharUnits(c: char): (r: seq<CodeUnit>)
    ensures !IsAstral(c) ==> r == [c as int] && !IsHighSurrogate(r[0]) && !IsLowSurrogate(r[0])
    ensures IsAstral(c) ==> |r| == 2 && IsHighSurrogate(r[0]) && IsLowSurrogate(r[1])
    ensures IsAstral(c) ==> 0x1_0000 + (r[0] as int - 0xD800) * 0x400 + (r[1] as int - 0xDC00) == c as int
  {
    if !IsAstral(c) then [c as int]
    else
      var v := c as int - 0x1_0000;
      [0xD800 + v / 0x400, 0xDC00 + v % 0x400]
  }

  /** The code units of a string, in order. */
  function Encode(s: string): (r: seq<CodeUnit>)
    ensures |s| <= |r| <= 2 * |s|
  {
    if s == [] then [] else CharUnits(s[0]) + Encode(s[1..])
  }

  /** Reads code units back into characters; a surrogate without its partner is an error. */
  function Decode(u: seq<CodeUnit>): (r: Option<string>)
    ensures r.Some? ==> |r.value| <= |u|
    decreases |u|
  {
    if u == [] then Some([])
    else if IsHighSurrogate(u[0]) then
      if |u| >= 2 && IsLowSurrogate(u[1]) then
        var c := (0x1_0000 + (u[0] as int - 0xD800) * 0x400 + (u[1] as int - 0xDC00)) as char;
        match Decode(u[2..])
        case None => None
        case Some(rest) => Some([c] + rest)
      else None
    else if IsLowSurrogate(u[0]) then None
    else
      match Decode(u[1..])
      case None => None
      case Some(rest) => Some([u[0] as char] + rest)
  }

  /** Decoding the encoding of a string gives the string back. */
  lemma {:induction false} EncodeRoundTrip(s: string)
    ensures Decode(Encode(s)) == Some(s)
  {
    if s != [] {
      var head := CharUnits(s[0]);
      EncodeRoundTrip(s[1..]);
      assert Encode(s) == head + Encode(s[1..]);
      if IsAstral(s[0]) {
        assert (head + Encode(s[1..]))[2..] == Encode(s[1..]);
      } else {
        assert (head + Encode(s[1..]))[1..] == Encode(s[1..]);
      }
      assert [s[0]] + s[1..] == s;
    }
  }

  /** The encoding of a concatenation is the concatenation of the encodings. */
  lemma {:induction false} EncodeAppend(a: string, b: string)
    ensures Encode(a + b) == Encode(a) + Encode(b)
  {
    if a != [] {
      assert (a + b)[0] == a[0] && (a + b)[1..] == a[1..] + b;
      EncodeAppend(a[1..], b);
      assert Encode(a + b) == CharUnits(a[0]) + (Encode(a[1..]) + Encode(b));
    } else {
      assert a + b == b;
    }
  }

  /** Without astral characters, code units and characters coincide one for one. */
  lemma {:induction false} EncodeBasic(s: string)
    requires forall i :: 0 <= i < |s| ==> !IsAstral(s[i])
    ensures |Encode(s)| == |s|
    ensures forall i :: 0 <= i < |s| ==> Encode(s)[i] == s[i] as int
  {
    if s != [] {
      EncodeBasic(s[1..]);
    }
  }

  /** A string made only of astral characters takes two code units per character. */
  lemma {:induction false} EncodeAstral(s: string)
    requires forall i :: 0 <= i < |s| ==> IsAstral(s[i])
    ensures |Encode(s)| == 2 * |s|
  {
    if s != [] {
      EncodeAstral(s[1..]);
    }
  }
}
