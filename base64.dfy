/**
 * The base 64 encoding of section 4 of RFC 4648: the standard alphabet of Table 1,
 * with '=' padding of the final quantum. Three octets are read as four 6-bit groups,
 * most significant bits first.
 */
module Base64 {
  import opened Bytes
  import opened Wrappers

  predicate IsAlphabetChar(c: char) {
    ('A' <= c <= 'Z') || ('a' <= c <= 'z') || ('0' <= c <= '9') || c == '+' || c == '/'
  }

  /** The character that encodes the 6-bit value v (Table 1). */
  function Char(v: int): (c: char)
    requires 0 <= v < 0x40
    ensures IsAlphabetChar(c)
  {
    if v < 26 then ('A' as int + v) as char
    else if v < 52 then ('a' as int + (v - 26)) as char
    else if v < 62 then ('0' as int + (v - 52)) as char
    else if v == 62 then '+'
    else '/'
  }

  /** The 6-bit value a character encodes, None for a character outside the alphabet. */
  function Value(c: char): (r: Option<int>)
    ensures r.Some? <==> IsAlphabetChar(c)
    ensures r.Some? ==> 0 <= r.value < 0x40 && Char(r.value) == c
  {
    if 'A' <= c <= 'Z' then Some(c as int - 'A' as int)
    else if 'a' <= c <= 'z' then Some(c as int - 'a' as int + 26)
    else if '0' <= c <= '9' then Some(c as int - '0' as int + 52)
    else if c == '+' then Some(62)
    else if c == '/' then Some(63)
    else None
  }

  /** Char and Value are inverse: the alphabet is a bijection onto 0..63. */
  lemma ValueChar(v: int)
    requires 0 <= v < 0x40
    ensures Value(Char(v)) == Some(v)
  {
  }

  /** The four characters of the 24-bit group b0 b1 b2. */
  function Quantum(b0: byte, b1: byte, b2: byte): (s: string)
    ensures |s| == 4
  {
    [Char(b0 as int / 4), Char((b0 as int % 4) * 16 + b1 as int / 16),
     Char((b1 as int % 16) * 4 + b2 as int / 64), Char(b2 as int % 64)]
  }

  /** Encoding: full quanta of three octets, then a padded final quantum of one or two. */
  function Encode(b: seq<byte>): (s: string)
    decreases |b|
  {
    if |b| >= 3 then Quantum(b[0], b[1], b[2]) + Encode(b[3..])
    else if |b| == 2 then Quantum(b[0], b[1], 0)[..3] + "="
    else if |b| == 1 then Quantum(b[0], 0, 0)[..2] + "=="
    else []
  }

  /** The three octets carried by four 6-bit values. */
  function Octets(v0: int, v1: int, v2: int, v3: int): (b: seq<byte>)
    requires 0 <= v0 < 0x40 && 0 <= v1 < 0x40 && 0 <= v2 < 0x40 && 0 <= v3 < 0x40
    ensures |b| == 3
  {
    [(v0 * 4 + v1 / 16) as byte, ((v1 % 16) * 16 + v2 / 4) as byte, ((v2 % 4) * 64 + v3) as byte]
  }

  /** The octets of a full quantum, None if a character is outside the alphabet. */
  function Group(s: string): (r: Option<seq<byte>>)
    requires |s| == 4
  {
    match (Value(s[0]), Value(s[1]), Value(s[2]), Value(s[3]))
    case (Some(v0), Some(v1), Some(v2), Some(v3)) => Some(Octets(v0, v1, v2, v3))
    case _ => None
  }

  /**
   * The octets of a final quantum: four characters, or three and "=", or two and "==".
   * Bits that padding leaves over must be zero, so that every octet string has one spelling.
   */
  function Final(s: string): (r: Option<seq<byte>>)
    requires |s| == 4
  {
    if s[2] == '=' && s[3] == '=' then
      match (Value(s[0]), Value(s[1]))
      case (Some(v0), Some(v1)) => if v1 % 16 == 0 then Some(Octets(v0, v1, 0, 0)[..1]) else None
      case _ => None
    else if s[3] == '=' then
      match (Value(s[0]), Value(s[1]), Value(s[2]))
      case (Some(v0), Some(v1), Some(v2)) => if v2 % 4 == 0 then Some(Octets(v0, v1, v2, 0)[..2]) else None
      case _ => None
    else Group(s)
  }

  /** Decoding, None for a string that is not the canonical encoding of some octets. */
  function Decode(s: string): (r: Option<seq<byte>>)
    decreases |s|
  {
    if s == [] then Some([])
    else if |s| < 4 then None
    else if |s| == 4 then Final(s)
    else
      match Group(s[..4])
      case None => None
      case Some(g) =>
        match Decode(s[4..])
        case None => None
        case Some(rest) => Some(g + rest)
  }

  /** Splitting three octets into sextets and joining them again gives the octets back. */
  lemma OctetsOfQuantum(b0: byte, b1: byte, b2: byte)
    ensures Octets(b0 as int / 4, (b0 as int % 4) * 16 + b1 as int / 16,
                   (b1 as int % 16) * 4 + b2 as int / 64, b2 as int % 64) == [b0, b1, b2]
  {
    var v1 := (b0 as int % 4) * 16 + b1 as int / 16;
    var v2 := (b1 as int % 16) * 4 + b2 as int / 64;
    assert v1 / 16 == b0 as int % 4 && v1 % 16 == b1 as int / 16;
    assert v2 / 4 == b1 as int % 16 && v2 % 4 == b2 as int / 64;
  }

  lemma GroupQuantum(b0: byte, b1: byte, b2: byte)
    ensures Group(Quantum(b0, b1, b2)) == Some([b0, b1, b2])
  {
    var q := Quantum(b0, b1, b2);
    ValueChar(b0 as int / 4);
    ValueChar((b0 as int % 4) * 16 + b1 as int / 16);
    ValueChar((b1 as int % 16) * 4 + b2 as int / 64);
    ValueChar(b2 as int % 64);
    OctetsOfQuantum(b0, b1, b2);
  }

  lemma FinalOfTwo(b0: byte, b1: byte)
    ensures Final(Quantum(b0, b1, 0)[..3] + "=") == Some([b0, b1])
  {
    var s := Quantum(b0, b1, 0)[..3] + "=";
    var v0 := b0 as int / 4;
    var v1 := (b0 as int % 4) * 16 + b1 as int / 16;
    var v2 := (b1 as int % 16) * 4;
    ValueChar(v0);
    ValueChar(v1);
    ValueChar(v2);
    assert s == [Char(v0), Char(v1), Char(v2), '='];
    assert v2 % 4 == 0;
    OctetsOfQuantum(b0, b1, 0);
    assert Octets(v0, v1, v2, 0) == [b0, b1, 0];
    assert Final(s) == Some(Octets(v0, v1, v2, 0)[..2]);
    assert [b0, b1, 0][..2] == [b0, b1];
  }

  lemma FinalOfOne(b0: byte)
    ensures Final(Quantum(b0, 0, 0)[..2] + "==") == Some([b0])
  {
    var s := Quantum(b0, 0, 0)[..2] + "==";
    var v0 := b0 as int / 4;
    var v1 := (b0 as int % 4) * 16;
    ValueChar(v0);
    ValueChar(v1);
    assert s == [Char(v0), Char(v1), '=', '='];
    assert v1 % 16 == 0;
    OctetsOfQuantum(b0, 0, 0);
    assert Octets(v0, v1, 0, 0) == [b0, 0, 0];
    assert Final(s) == Some(Octets(v0, v1, 0, 0)[..1]);
    assert [b0, 0, 0][..1] == [b0];
  }

  /** The length of the encoding of n octets: four characters per started group of three. */
  function EncodedLength(n: nat): nat {
    4 * ((n + 2) / 3)
  }

  lemma EncodedLengthStep(n: nat)
    requires n >= 3
    ensures EncodedLength(n) == 4 + EncodedLength(n - 3)
  {
    assert (n + 2) / 3 == 1 + (n - 1) / 3;
  }

  lemma {:induction false} EncodeLength(b: seq<byte>)
    ensures |Encode(b)| == EncodedLength(|b|)
    decreases |b|
  {
    if |b| >= 3 {
      assert |Encode(b)| == 4 + |Encode(b[3..])|;
      EncodeLength(b[3..]);
      EncodedLengthStep(|b|);
    } else if |b| == 2 {
      assert EncodedLength(2) == 4;
    } else if |b| == 1 {
      assert EncodedLength(1) == 4;
    }
  }

  /** Decoding undoes encoding. */
  lemma {:induction false} DecodeEncode(b: seq<byte>)
    ensures Decode(Encode(b)) == Some(b)
    decreases |b|
  {
    if |b| >= 3 {
      DecodeEncodeQuantum(b);
    } else if |b| == 2 {
      FinalOfTwo(b[0], b[1]);
      assert b == [b[0], b[1]];
    } else if |b| == 1 {
      FinalOfOne(b[0]);
      assert b == [b[0]];
    }
  }

  /** A full quantum in front of a non-empty decodable rest decodes to its octets and the rest's. */
  lemma DecodeCons(q: string, rest: string, g: seq<byte>, r: seq<byte>)
    requires |q| == 4 && rest != [] && Group(q) == Some(g) && Decode(rest) == Some(r)
    ensures Decode(q + rest) == Some(g + r)
  {
    var s := q + rest;
    assert s[..4] == q && s[4..] == rest;
  }

  /** A lone full quantum decodes to its three octets. */
  lemma DecodeQuantum(b0: byte, b1: byte, b2: byte)
    ensures Decode(Quantum(b0, b1, b2)) == Some([b0, b1, b2])
  {
    var q := Quantum(b0, b1, b2);
    GroupQuantum(b0, b1, b2);
    assert q[3] != '=';
    assert Decode(q) == Final(q) == Group(q);
  }

  /** The inductive step of DecodeEncode: one full quantum in front of the rest. */
  lemma {:induction false} DecodeEncodeQuantum(b: seq<byte>)
    requires |b| >= 3
    ensures Decode(Encode(b)) == Some(b)
    decreases |b|, 0
  {
    var q := Quantum(b[0], b[1], b[2]);
    var rest := Encode(b[3..]);
    assert Encode(b) == q + rest;
    assert b == [b[0], b[1], b[2]] + b[3..];
    if |b| == 3 {
      DecodeQuantum(b[0], b[1], b[2]);
      assert b[3..] == [] && rest == [];
      assert b == [b[0], b[1], b[2]] && Encode(b) == q;
    } else {
      GroupQuantum(b[0], b[1], b[2]);
      EncodeLength(b[3..]);
      DecodeEncode(b[3..]);
      DecodeCons(q, rest, [b[0], b[1], b[2]], b[3..]);
    }
  }

  /** The number of '=' characters that pad the encoding of n octets. */
  function Padding(n: nat): nat {
    if n % 3 == 0 then 0 else 3 - n % 3
  }

  /** s is alphabet characters followed by exactly p '=' characters. */
  predicate PaddedWith(s: string, p: nat) {
    && p <= |s|
    && (forall i :: 0 <= i < |s| - p ==> IsAlphabetChar(s[i]))
    && (forall i :: |s| - p <= i < |s| ==> s[i] == '=')
  }

  lemma QuantumPadded(b0: byte, b1: byte, b2: byte, rest: string, p: nat)
    requires PaddedWith(rest, p)
    ensures PaddedWith(Quantum(b0, b1, b2) + rest, p)
  {
    var q := Quantum(b0, b1, b2);
    var s := q + rest;
    forall i | 0 <= i < |s| - p
      ensures IsAlphabetChar(s[i])
    {
      if i >= 4 {
        assert s[i] == rest[i - 4];
      }
    }
    forall i | |s| - p <= i < |s|
      ensures s[i] == '='
    {
      assert s[i] == rest[i - 4];
    }
  }

  /** The encoding is alphabet characters followed by exactly Padding(|b|) '=' characters. */
  lemma {:induction false} EncodeCharacters(b: seq<byte>)
    ensures PaddedWith(Encode(b), Padding(|b|))
    decreases |b|
  {
    if |b| >= 3 {
      EncodeCharacters(b[3..]);
      assert Encode(b) == Quantum(b[0], b[1], b[2]) + Encode(b[3..]);
      assert Padding(|b|) == Padding(|b| - 3);
      QuantumPadded(b[0], b[1], b[2], Encode(b[3..]), Padding(|b| - 3));
    }
  }
}
