/**
 * Base64 text encoding as section 4 of RFC 4648 defines it: the standard
 * alphabet, `=` padding to a multiple of four characters, no line breaks.
 * Android's `Base64.encodeToString(bytes, Base64.NO_WRAP)` and iOS's
 * `Data.base64EncodedString()` both produce this text for the inline payload.
 */
module Base64 {
  import opened Wrappers

  type byte = x: int | 0 <= x < 256

  /** A six-bit value: what one character of the encoding carries. */
  type sextet = x: int | 0 <= x < 64

  const Pad: char := '='

  /** The character that encodes sextet `v` (table 1 of RFC 4648). */
  function CharOf(v: sextet): (c: char)
    ensures c != Pad
  {
    if v < 26 then ('A' as int + v) as char
    else if v < 52 then ('a' as int + (v - 26)) as char
    else if v < 62 then ('0' as int + (v - 52)) as char
    else if v == 62 then '+'
    else '/'
  }

  /** What a character of encoded text stands for. */
  datatype Digit = Value(v: sextet) | PadMark | Invalid

  function DigitOf(c: char): (d: Digit)
    ensures d.Value? ==> CharOf(d.v) == c
    ensures d.PadMark? <==> c == Pad
  {
    if c == Pad then PadMark
    else if 'A' <= c <= 'Z' then Value(c as int - 'A' as int)
    else if 'a' <= c <= 'z' then Value(c as int - 'a' as int + 26)
    else if '0' <= c <= '9' then Value(c as int - '0' as int + 52)
    else if c == '+' then Value(62)
    else if c == '/' then Value(63)
    else Invalid
  }

  /** Every sextet has its own character, and reading the character gives the sextet back. */
  lemma DigitOfCharOf(v: sextet)
    ensures DigitOf(CharOf(v)) == Value(v)
  {
  }

  /** The four sextets that carry three bytes, most significant bits first. */
  function Sextets(b0: byte, b1: byte, b2: byte): (s: seq<sextet>)
    ensures |s| == 4
  {
    [b0 / 4, (b0 % 4) * 16 + b1 / 16, (b1 % 16) * 4 + b2 / 64, b2 % 64]
  }

  function Chars(s: seq<sextet>): (t: string)
    ensures |t| == |s|
    ensures forall i :: 0 <= i < |s| ==> t[i] == CharOf(s[i])
  {
    seq(|s|, i requires 0 <= i < |s| => CharOf(s[i]))
  }

  /** Three bytes become four characters. */
  function EncodeTriple(b0: byte, b1: byte, b2: byte): string
  {
    Chars(Sextets(b0, b1, b2))
  }

  /** A final two bytes become three characters and one pad (their missing third byte counts as zero). */
  function EncodePair(b0: byte, b1: byte): string
  {
    Chars(Sextets(b0, b1, 0)[..3]) + [Pad]
  }

  /** A final single byte becomes two characters and two pads. */
  function EncodeSingle(b0: byte): string
  {
    Chars(Sextets(b0, 0, 0)[..2]) + [Pad, Pad]
  }

  function Encode(b: seq<byte>): (t: string)
    ensures |t| == 4 * ((|b| + 2) / 3)
    decreases |b|
  {
    if |b| == 0 then []
    else if |b| == 1 then EncodeSingle(b[0])
    else if |b| == 2 then EncodePair(b[0], b[1])
    else EncodeTriple(b[0], b[1], b[2]) + Encode(b[3..])
  }

  /** Decodes one group of four digits; `last` says whether padding may appear. */
  function DecodeQuad(d0: Digit, d1: Digit, d2: Digit, d3: Digit, last: bool): Option<seq<byte>>
  {
    match (d0, d1, d2, d3)
    case (Value(v0), Value(v1), Value(v2), Value(v3)) =>
      Some([v0 * 4 + v1 / 16, (v1 % 16) * 16 + v2 / 4, (v2 % 4) * 64 + v3])
    case (Value(v0), Value(v1), Value(v2), PadMark) =>
      // two bytes; the two unused low bits must be zero (canonical form)
      if last && v2 % 4 == 0 then Some([v0 * 4 + v1 / 16, (v1 % 16) * 16 + v2 / 4]) else None
    case (Value(v0), Value(v1), PadMark, PadMark) =>
      // one byte; the four unused low bits must be zero
      if last && v1 % 16 == 0 then Some([v0 * 4 + v1 / 16]) else None
    case _ => None
  }

  /** The inverse of Encode: None for text that Encode cannot produce. */
  function Decode(t: string): Option<seq<byte>>
    decreases |t|
  {
    if |t| == 0 then Some([])
    else if |t| < 4 then None
    else
      match DecodeQuad(DigitOf(t[0]), DigitOf(t[1]), DigitOf(t[2]), DigitOf(t[3]), |t| == 4)
      case None => None
      case Some(head) =>
        match Decode(t[4..])
        case None => None
        case Some(tail) => Some(head + tail)
  }

  /** Decode reads the text four characters at a time. */
  lemma DecodeStep(q: string, rest: string, head: seq<byte>, tail: seq<byte>)
    requires |q| == 4
    requires DecodeQuad(DigitOf(q[0]), DigitOf(q[1]), DigitOf(q[2]), DigitOf(q[3]), rest == []) == Some(head)
    requires Decode(rest) == Some(tail)
    ensures Decode(q + rest) == Some(head + tail)
  {
    var t := q + rest;
    assert t[0] == q[0] && t[1] == q[1] && t[2] == q[2] && t[3] == q[3];
    assert t[4..] == rest;
  }

  lemma TripleArith(b0: byte, b1: byte, b2: byte)
    ensures var s := Sextets(b0, b1, b2);
      && s[0] as int * 4 + s[1] / 16 == b0
      && (s[1] % 16) as int * 16 + s[2] / 4 == b1
      && (s[2] % 4) as int * 64 + s[3] == b2
      && (b2 == 0 ==> s[2] % 4 == 0)
      && (b1 == 0 && b2 == 0 ==> s[1] % 16 == 0)
  {
  }

  /** The digits read back from an encoded group are the sextets it was made of. */
  lemma DigitsOfChars(s: seq<sextet>, i: nat)
    requires i < |s|
    ensures DigitOf(Chars(s)[i]) == Value(s[i])
  {
    DigitOfCharOf(s[i]);
  }

  lemma TripleRoundTrip(b0: byte, b1: byte, b2: byte, last: bool)
    ensures var e := EncodeTriple(b0, b1, b2);
      DecodeQuad(DigitOf(e[0]), DigitOf(e[1]), DigitOf(e[2]), DigitOf(e[3]), last) == Some([b0, b1, b2])
  {
    var s := Sextets(b0, b1, b2);
    DigitsOfChars(s, 0);
    DigitsOfChars(s, 1);
    DigitsOfChars(s, 2);
    DigitsOfChars(s, 3);
    TripleArith(b0, b1, b2);
  }

  lemma PairRoundTrip(b0: byte, b1: byte)
    ensures var e := EncodePair(b0, b1);
      DecodeQuad(DigitOf(e[0]), DigitOf(e[1]), DigitOf(e[2]), DigitOf(e[3]), true) == Some([b0, b1])
  {
    var s := Sextets(b0, b1, 0)[..3];
    DigitsOfChars(s, 0);
    DigitsOfChars(s, 1);
    DigitsOfChars(s, 2);
    TripleArith(b0, b1, 0);
  }

  lemma SingleRoundTrip(b0: byte)
    ensures var e := EncodeSingle(b0);
      DecodeQuad(DigitOf(e[0]), DigitOf(e[1]), DigitOf(e[2]), DigitOf(e[3]), true) == Some([b0])
  {
    var s := Sextets(b0, 0, 0)[..2];
    DigitsOfChars(s, 0);
    DigitsOfChars(s, 1);
    TripleArith(b0, 0, 0);
  }

  /** Decoding the encoding of any byte string gives that byte string back. */
  lemma {:induction false} DecodeEncode(b: seq<byte>)
    ensures Decode(Encode(b)) == Some(b)
    decreases |b|
  {
    if |b| == 1 || |b| == 2 {
      DecodeEncodeLast(b);
    } else if |b| >= 3 {
      DecodeEncode(b[3..]);
      DecodeEncodeTriple(b);
    }
  }

  lemma DecodeEncodeLast(b: seq<byte>)
    requires |b| == 1 || |b| == 2
    ensures Decode(Encode(b)) == Some(b)
  {
    if |b| == 1 {
      SingleRoundTrip(b[0]);
      DecodeLastQuad(EncodeSingle(b[0]), [b[0]]);
      SplitShort(b);
    } else {
      PairRoundTrip(b[0], b[1]);
      DecodeLastQuad(EncodePair(b[0], b[1]), [b[0], b[1]]);
      SplitShort(b);
    }
  }

  lemma SplitShort(b: seq<byte>)
    requires |b| == 1 || |b| == 2
    ensures |b| == 1 ==> b == [b[0]]
    ensures |b| == 2 ==> b == [b[0], b[1]]
  {
  }

  /** The last group alone decodes as Decode sees it. */
  lemma DecodeLastQuad(q: string, head: seq<byte>)
    requires |q| == 4
    requires DecodeQuad(DigitOf(q[0]), DigitOf(q[1]), DigitOf(q[2]), DigitOf(q[3]), true) == Some(head)
    ensures Decode(q) == Some(head)
  {
    assert q[4..] == [];
    assert head + [] == head;
  }

  lemma DecodeEncodeTriple(b: seq<byte>)
    requires |b| >= 3 && Decode(Encode(b[3..])) == Some(b[3..])
    ensures Decode(Encode(b)) == Some(b)
  {
    var q, rest := EncodeTriple(b[0], b[1], b[2]), Encode(b[3..]);
    TripleRoundTrip(b[0], b[1], b[2], rest == []);
    SplitThree(b);
    DecodeStep(q, rest, [b[0], b[1], b[2]], b[3..]);
  }

  lemma SplitThree(b: seq<byte>)
    requires |b| >= 3
    ensures b == [b[0], b[1], b[2]] + b[3..]
  {
  }

  /** Inverse arithmetic: the bytes a group decodes to re-encode to the same sextets. */
  lemma SextetArith(v0: sextet, v1: sextet, v2: sextet, v3: sextet)
    ensures var b0, b1, b2 := v0 * 4 + v1 / 16, (v1 % 16) * 16 + v2 / 4, (v2 % 4) * 64 + v3;
      && 0 <= b0 < 256 && 0 <= b1 < 256 && 0 <= b2 < 256
      && b0 / 4 == v0 && (b0 % 4) * 16 + b1 / 16 == v1
      && (b1 % 16) * 4 + b2 / 64 == v2 && b2 % 64 == v3
      && (v2 % 4 == 0 ==> (b1 % 16) * 4 == v2)
      && (v1 % 16 == 0 ==> (b0 % 4) * 16 == v1)
  {
  }

  lemma CharsOfDigits(q: string, s: seq<sextet>)
    requires |s| <= |q|
    requires forall i :: 0 <= i < |s| ==> DigitOf(q[i]) == Value(s[i])
    ensures Chars(s) == q[..|s|]
  {
  }

  lemma QuadInverse(q: string, last: bool)
    requires |q| == 4
    requires DecodeQuad(DigitOf(q[0]), DigitOf(q[1]), DigitOf(q[2]), DigitOf(q[3]), last).Some?
    ensures var h := DecodeQuad(DigitOf(q[0]), DigitOf(q[1]), DigitOf(q[2]), DigitOf(q[3]), last).value;
      && 1 <= |h| <= 3
      && (|h| == 3 ==> EncodeTriple(h[0], h[1], h[2]) == q)
      && (|h| == 2 ==> last && EncodePair(h[0], h[1]) == q)
      && (|h| == 1 ==> last && EncodeSingle(h[0]) == q)
  {
    var d2, d3 := DigitOf(q[2]), DigitOf(q[3]);
    if d3.Value? {
      FullQuadInverse(q, last);
    } else if d2.Value? {
      PairQuadInverse(q, last);
    } else {
      SingleQuadInverse(q, last);
    }
  }

  lemma FullQuadInverse(q: string, last: bool)
    requires |q| == 4
    requires DigitOf(q[0]).Value? && DigitOf(q[1]).Value? && DigitOf(q[2]).Value? && DigitOf(q[3]).Value?
    ensures var h := DecodeQuad(DigitOf(q[0]), DigitOf(q[1]), DigitOf(q[2]), DigitOf(q[3]), last).value;
      |h| == 3 && EncodeTriple(h[0], h[1], h[2]) == q
  {
    var v0, v1, v2, v3 := DigitOf(q[0]).v, DigitOf(q[1]).v, DigitOf(q[2]).v, DigitOf(q[3]).v;
    var h := DecodeQuad(DigitOf(q[0]), DigitOf(q[1]), DigitOf(q[2]), DigitOf(q[3]), last).value;
    SextetArith(v0, v1, v2, v3);
    assert Sextets(h[0], h[1], h[2]) == [v0, v1, v2, v3];
    CharsOfDigits(q, [v0, v1, v2, v3]);
    assert q[..4] == q;
  }

  lemma PairQuadInverse(q: string, last: bool)
    requires |q| == 4
    requires DigitOf(q[0]).Value? && DigitOf(q[1]).Value? && DigitOf(q[2]).Value? && DigitOf(q[3]).PadMark?
    requires DecodeQuad(DigitOf(q[0]), DigitOf(q[1]), DigitOf(q[2]), DigitOf(q[3]), last).Some?
    ensures var h := DecodeQuad(DigitOf(q[0]), DigitOf(q[1]), DigitOf(q[2]), DigitOf(q[3]), last).value;
      |h| == 2 && last && EncodePair(h[0], h[1]) == q
  {
    var v0, v1, v2 := DigitOf(q[0]).v, DigitOf(q[1]).v, DigitOf(q[2]).v;
    SextetArith(v0, v1, v2, 0);
    CharsOfDigits(q, [v0, v1, v2]);
    assert q == q[..3] + [Pad];
  }

  lemma SingleQuadInverse(q: string, last: bool)
    requires |q| == 4
    requires DecodeQuad(DigitOf(q[0]), DigitOf(q[1]), DigitOf(q[2]), DigitOf(q[3]), last).Some?
    requires !DigitOf(q[2]).Value?
    ensures var h := DecodeQuad(DigitOf(q[0]), DigitOf(q[1]), DigitOf(q[2]), DigitOf(q[3]), last).value;
      |h| == 1 && last && EncodeSingle(h[0]) == q
  {
    var v0, v1 := DigitOf(q[0]).v, DigitOf(q[1]).v;
    SextetArith(v0, v1, 0, 0);
    CharsOfDigits(q, [v0, v1]);
    assert q == q[..2] + [Pad, Pad];
  }

  /** Text that decodes is exactly the encoding of what it decodes to: the encoding is canonical. */
  lemma {:induction false} EncodeDecode(t: string)
    requires Decode(t).Some?
    ensures Encode(Decode(t).value) == t
    decreases |t|
  {
    if |t| > 0 {
      var q, rest := t[..4], t[4..];
      assert t == q + rest;
      assert q[0] == t[0] && q[1] == t[1] && q[2] == t[2] && q[3] == t[3];
      var head := DecodeQuad(DigitOf(q[0]), DigitOf(q[1]), DigitOf(q[2]), DigitOf(q[3]), rest == []).value;
      var tail := Decode(rest).value;
      EncodeDecode(rest);
      QuadInverse(q, rest == []);
      if |head| == 3 {
        EncodeThreeThenRest(head, tail);
      } else {
        assert head + tail == head;
      }
    }
  }

  lemma EncodeThreeThenRest(head: seq<byte>, tail: seq<byte>)
    requires |head| == 3
    ensures Encode(head + tail) == EncodeTriple(head[0], head[1], head[2]) + Encode(tail)
  {
    var b := head + tail;
    assert b[3..] == tail;
  }

  /** Encoded text uses only the alphabet and the pad character. */
  lemma {:induction false} EncodeAlphabet(b: seq<byte>)
    ensures forall i :: 0 <= i < |Encode(b)| ==> DigitOf(Encode(b)[i]) != Invalid
    decreases |b|
  {
    if |b| >= 3 {
      EncodeAlphabet(b[3..]);
      var q := EncodeTriple(b[0], b[1], b[2]);
      forall i | 0 <= i < 4 ensures DigitOf(q[i]) != Invalid {
        DigitsOfChars(Sextets(b[0], b[1], b[2]), i);
      }
    } else if |b| == 2 {
      forall i | 0 <= i < 3 ensures DigitOf(EncodePair(b[0], b[1])[i]) != Invalid {
        DigitsOfChars(Sextets(b[0], b[1], 0)[..3], i);
      }
    } else if |b| == 1 {
      forall i | 0 <= i < 2 ensures DigitOf(EncodeSingle(b[0])[i]) != Invalid {
        DigitsOfChars(Sextets(b[0], 0, 0)[..2], i);
      }
    }
  }
}
