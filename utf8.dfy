/**
 * UTF-8 as defined in section 4 of RFC 3629: the validation and decoding that turns
 * the raw launch-configuration bytes into text, and the encoding that turns the
 * domain separator back into the bytes fed to HKDF.
 */
module Utf8 {
  import opened Bytes
  import opened Wrappers
  import opened Radix

  predicate IsTail(b: byte) {
    0x80 <= b <= 0xBF
  }

  /** A Unicode scalar value: a code point that is not a surrogate. */
  predicate IsScalar(cp: int) {
    (0 <= cp < 0xD800) || (0xE000 <= cp < 0x11_0000)
  }

  /**
   * The length of the well-formed sequence (the UTF8-1 .. UTF8-4 rules of RFC 3629)
   * that starts at s[0], or 0 when s does not start with one.
   */
  function SequenceLength(s: seq<byte>): (n: nat)
    ensures n <= 4 && n <= |s|
  {
    if |s| == 0 then 0
    else if s[0] <= 0x7F then 1
    else if 0xC2 <= s[0] <= 0xDF then
      if |s| >= 2 && IsTail(s[1]) then 2 else 0
    else if s[0] == 0xE0 then
      if |s| >= 3 && 0xA0 <= s[1] <= 0xBF && IsTail(s[2]) then 3 else 0
    else if (0xE1 <= s[0] <= 0xEC) || (0xEE <= s[0] <= 0xEF) then
      if |s| >= 3 && IsTail(s[1]) && IsTail(s[2]) then 3 else 0
    else if s[0] == 0xED then
      if |s| >= 3 && 0x80 <= s[1] <= 0x9F && IsTail(s[2]) then 3 else 0
    else if s[0] == 0xF0 then
      if |s| >= 4 && 0x90 <= s[1] <= 0xBF && IsTail(s[2]) && IsTail(s[3]) then 4 else 0
    else if 0xF1 <= s[0] <= 0xF3 then
      if |s| >= 4 && IsTail(s[1]) && IsTail(s[2]) && IsTail(s[3]) then 4 else 0
    else if s[0] == 0xF4 then
      if |s| >= 4 && 0x80 <= s[1] <= 0x8F && IsTail(s[2]) && IsTail(s[3]) then 4 else 0
    else 0
  }

  /** The code point carried by the well-formed sequence at the start of s. */
  function CodePoint(s: seq<byte>): (cp: int)
    requires SequenceLength(s) > 0
    ensures IsScalar(cp)
    ensures SequenceLength(s) == 1 <==> cp < 0x80
    ensures SequenceLength(s) == 2 <==> 0x80 <= cp < 0x800
    ensures SequenceLength(s) == 3 <==> 0x800 <= cp < 0x1_0000
    ensures SequenceLength(s) == 4 <==> 0x1_0000 <= cp
  {
    var n := SequenceLength(s);
    if n == 1 then s[0] as int
    else if n == 2 then (s[0] as int - 0xC0) * 0x40 + (s[1] as int - 0x80)
    else if n == 3 then
      (s[0] as int - 0xE0) * 0x1000 + (s[1] as int - 0x80) * 0x40 + (s[2] as int - 0x80)
    else
      (s[0] as int - 0xF0) * 0x4_0000 + (s[1] as int - 0x80) * 0x1000
        + (s[2] as int - 0x80) * 0x40 + (s[3] as int - 0x80)
  }

  /** Decoding of a byte string, None when it is not well-formed UTF-8 (std::str::from_utf8). */
  function Decode(s: seq<byte>): (r: Option<string>)
    decreases |s|
  {
    if s == [] then Some([])
    else
      var n := SequenceLength(s);
      if n == 0 then None
      else
        match Decode(s[n..])
        case None => None
        case Some(rest) => Some([CodePoint(s) as char] + rest)
  }

  /** The encoding of one scalar value: the shortest form, as RFC 3629 demands. */
  function EncodeChar(c: char): (b: seq<byte>)
    ensures 1 <= |b| <= 4
  {
    var cp := c as int;
    if cp < 0x80 then [cp as byte]
    else if cp < 0x800 then [(0xC0 + cp / 0x40) as byte, (0x80 + cp % 0x40) as byte]
    else if cp < 0x1_0000 then
      [(0xE0 + cp / 0x1000) as byte, (0x80 + (cp / 0x40) % 0x40) as byte, (0x80 + cp % 0x40) as byte]
    else
      [(0xF0 + cp / 0x4_0000) as byte, (0x80 + (cp / 0x1000) % 0x40) as byte,
       (0x80 + (cp / 0x40) % 0x40) as byte, (0x80 + cp % 0x40) as byte]
  }

  /** The bytes of a string (str::as_bytes). */
  function Encode(s: string): (b: seq<byte>)
  {
    if s == [] then [] else EncodeChar(s[0]) + Encode(s[1..])
  }

  lemma EncodeChar3Decodes(c: char, t: seq<byte>)
    requires 0x800 <= c as int < 0x1_0000
    ensures SequenceLength(EncodeChar(c) + t) == 3
    ensures CodePoint(EncodeChar(c) + t) == c as int
  {
    var cp := c as int;
    var s := EncodeChar(c) + t;
    Digits3(cp);
    assert s[0] as int == 0xE0 + cp / 0x1000;
    assert s[1] as int == 0x80 + (cp / 0x40) % 0x40;
    assert s[2] as int == 0x80 + cp % 0x40;
  }

  lemma EncodeChar4Decodes(c: char, t: seq<byte>)
    requires 0x1_0000 <= c as int
    ensures SequenceLength(EncodeChar(c) + t) == 4
    ensures CodePoint(EncodeChar(c) + t) == c as int
  {
    var cp := c as int;
    var s := EncodeChar(c) + t;
    Digits4(cp);
    assert s[0] as int == 0xF0 + cp / 0x4_0000;
    assert s[1] as int == 0x80 + (cp / 0x1000) % 0x40;
    assert s[2] as int == 0x80 + (cp / 0x40) % 0x40;
    assert s[3] as int == 0x80 + cp % 0x40;
  }

  /** The encoding of c, followed by anything, decodes its first sequence back to c. */
  lemma EncodeCharDecodes(c: char, t: seq<byte>)
    ensures SequenceLength(EncodeChar(c) + t) == |EncodeChar(c)|
    ensures CodePoint(EncodeChar(c) + t) == c as int
  {
    var cp := c as int;
    var s := EncodeChar(c) + t;
    if cp < 0x80 {
    } else if cp < 0x800 {
      assert s[0] as int == 0xC0 + cp / 0x40 && s[1] as int == 0x80 + cp % 0x40;
    } else if cp < 0x1_0000 {
      EncodeChar3Decodes(c, t);
    } else {
      EncodeChar4Decodes(c, t);
    }
  }

  lemma DecodedChar3Encodes(s: seq<byte>)
    requires SequenceLength(s) == 3
    ensures EncodeChar(CodePoint(s) as char) == s[..3]
  {
    Groups3(s[0] as int - 0xE0, s[1] as int - 0x80, s[2] as int - 0x80);
  }

  lemma DecodedChar4Encodes(s: seq<byte>)
    requires SequenceLength(s) == 4
    ensures EncodeChar(CodePoint(s) as char) == s[..4]
  {
    Groups4(s[0] as int - 0xF0, s[1] as int - 0x80, s[2] as int - 0x80, s[3] as int - 0x80);
  }

  /** A well-formed sequence re-encodes to exactly its own bytes. */
  lemma DecodedCharEncodes(s: seq<byte>)
    requires SequenceLength(s) > 0
    ensures EncodeChar(CodePoint(s) as char) == s[..SequenceLength(s)]
  {
    var n := SequenceLength(s);
    var cp := CodePoint(s);
    if n == 2 {
      assert cp / 0x40 == s[0] as int - 0xC0 && cp % 0x40 == s[1] as int - 0x80;
    } else if n == 3 {
      DecodedChar3Encodes(s);
    } else if n == 4 {
      DecodedChar4Encodes(s);
    }
  }

  /** Decoding undoes encoding: every string's bytes are well-formed UTF-8. */
  lemma {:induction false} DecodeEncode(s: string)
    ensures Decode(Encode(s)) == Some(s)
  {
    if s != [] {
      var e := EncodeChar(s[0]);
      var b := Encode(s);
      assert b == e + Encode(s[1..]);
      EncodeCharDecodes(s[0], Encode(s[1..]));
      assert b[|e|..] == Encode(s[1..]);
      DecodeEncode(s[1..]);
      assert CodePoint(b) as char == s[0];
      assert Decode(b) == Some([s[0]] + s[1..]);
      assert [s[0]] + s[1..] == s;
    }
  }

  /** One step of a successful decoding: a well-formed sequence, then a decodable rest. */
  lemma DecodeStep(b: seq<byte>)
    requires b != [] && Decode(b).Some?
    ensures 0 < SequenceLength(b) <= |b|
    ensures Decode(b[SequenceLength(b)..]).Some?
    ensures Decode(b).value == [CodePoint(b) as char] + Decode(b[SequenceLength(b)..]).value
  {
  }

  /** A sequence and the rest after it, re-encoded, give back the whole byte string. */
  lemma EncodeCons(b: seq<byte>, n: nat, c: char, rest: string)
    requires n <= |b| && EncodeChar(c) == b[..n] && Encode(rest) == b[n..]
    ensures Encode([c] + rest) == b
  {
    var s := [c] + rest;
    assert s[0] == c && s[1..] == rest;
    assert b[..n] + b[n..] == b;
  }

  /** Encoding undoes decoding: a byte string accepted as UTF-8 is the encoding of its text. */
  lemma EncodeDecode(b: seq<byte>)
    requires Decode(b).Some?
    ensures Encode(Decode(b).value) == b
  {
    EncodeDecoded(b, Decode(b).value);
  }

  lemma {:induction false} EncodeDecoded(b: seq<byte>, s: string)
    requires Decode(b) == Some(s)
    ensures Encode(s) == b
    decreases |b|
  {
    if b != [] {
      DecodeStep(b);
      var n := SequenceLength(b);
      var rest := Decode(b[n..]).value;
      EncodeDecoded(b[n..], rest);
      DecodedCharEncodes(b);
      EncodeCons(b, n, CodePoint(b) as char, rest);
    }
  }

  /** Distinct strings have distinct bytes. */
  lemma EncodeInjective(s1: string, s2: string)
    requires Encode(s1) == Encode(s2)
    ensures s1 == s2
  {
    DecodeEncode(s1);
    DecodeEncode(s2);
  }

  /** A string of ASCII characters is encoded one byte per character, each its code. */
  lemma {:induction false} EncodeAscii(s: string)
    requires forall i :: 0 <= i < |s| ==> s[i] as int < 0x80
    ensures |Encode(s)| == |s|
    ensures forall i :: 0 <= i < |s| ==> Encode(s)[i] as int == s[i] as int
  {
    if s != [] {
      EncodeAscii(s[1..]);
      assert Encode(s) == [s[0] as int as byte] + Encode(s[1..]);
    }
  }
}
