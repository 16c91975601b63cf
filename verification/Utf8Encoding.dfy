/** Valid text is exactly what sequences of Unicode scalar values encode to, as sections 3
    and 4 of RFC 3629 say. */
module Utf8Encoding {
  import opened Utf8

  /** A code point that is not a surrogate. */
  predicate IsScalar(c: int) {
    0 <= c < 0xD800 || 0xE000 <= c <= 0x10FFFF
  }

  function Encode(c: int): (s: seq<byte>)
    requires IsScalar(c)
  {
    if c < 0x80 then [c]
    else if c < 0x800 then [0xC0 + c / 64, 0x80 + c % 64]
    else if c < 0x10000 then [0xE0 + c / 4096, 0x80 + c / 64 % 64, 0x80 + c % 64]
    else [0xF0 + c / 262144, 0x80 + c / 4096 % 64, 0x80 + c / 64 % 64, 0x80 + c % 64]
  }

  function EncodeAll(cs: seq<int>): (s: seq<byte>)
    requires forall i :: 0 <= i < |cs| ==> IsScalar(cs[i])
  {
    if cs == [] then [] else Encode(cs[0]) + EncodeAll(cs[1..])
  }

  lemma EncodedAlone(c: int)
    requires IsScalar(c)
    ensures RuneLength(Encode(c)) == |Encode(c)| > 0
  {
    if c >= 0x10000 {
      LongestAlone(c);
    }
  }

  lemma LongestAlone(c: int)
    requires 0x10000 <= c <= 0x10FFFF
    ensures RuneLength(Encode(c)) == 4
  {
    var s := Encode(c);
    assert 0 <= c / 262144 <= 4;
    assert c / 262144 == 0 ==> c / 4096 % 64 >= 16;
    assert c / 262144 == 4 ==> c / 4096 % 64 < 16;
    assert SecondByte(s[0], s[1]);
  }

  /** The encoding of a scalar value is one rune, whatever follows. */
  lemma EncodedIsARune(c: int, rest: seq<byte>)
    requires IsScalar(c)
    ensures RuneLength(Encode(c) + rest) == |Encode(c)| > 0
  {
    hide Encode, RuneLength;
    EncodedAlone(c);
    var s := Encode(c) + rest;
    assert s[..|Encode(c)|] == Encode(c);
    RuneLengthOfPrefix(s, |Encode(c)|);
  }

  /** Six more bits. */
  function Shift(high: int, b: int): (c: int) {
    high * 64 + (b - 0x80)
  }

  lemma ShiftParts(high: int, b: int)
    requires 0x80 <= b <= 0xBF
    ensures Shift(high, b) / 64 == high && 0x80 + Shift(high, b) % 64 == b
  {
  }

  lemma Nested(c: int)
    ensures c / 64 / 64 == c / 4096 && c / 64 / 64 / 64 == c / 262144
  {
  }

  /** The scalar value of the rune at the front. */
  function Decode(s: seq<byte>): (c: int)
    requires RuneLength(s) > 0
  {
    var lead := s[0] as int;
    match RuneLength(s)
    case 1 => lead
    case 2 => Shift(lead - 0xC0, s[1])
    case 3 => Shift(Shift(lead - 0xE0, s[1]), s[2])
    case _ => Shift(Shift(Shift(lead - 0xF0, s[1]), s[2]), s[3])
  }

  lemma TwoBytes(s: seq<byte>)
    requires RuneLength(s) == 2
    ensures IsScalar(Decode(s)) && Encode(Decode(s)) == s[..2]
  {
    ShiftParts(s[0] as int - 0xC0, s[1]);
    assert s[..2] == [s[0], s[1]];
  }

  lemma ThreeBytes(s: seq<byte>)
    requires RuneLength(s) == 3
    ensures IsScalar(Decode(s)) && Encode(Decode(s)) == s[..3]
  {
    var high := Shift(s[0] as int - 0xE0, s[1]);
    var c := Decode(s);
    ShiftParts(s[0] as int - 0xE0, s[1]);
    ShiftParts(high, s[2]);
    Nested(c);
    assert c == Shift(high, s[2]);
    assert 0x800 <= c < 0x10000 && IsScalar(c);
    assert s[..3] == [s[0], s[1], s[2]];
  }

  lemma FourBytes(s: seq<byte>)
    requires RuneLength(s) == 4
    ensures IsScalar(Decode(s)) && Encode(Decode(s)) == s[..4]
  {
    var high := Shift(s[0] as int - 0xF0, s[1]);
    var middle := Shift(high, s[2]);
    var c := Decode(s);
    ShiftParts(s[0] as int - 0xF0, s[1]);
    ShiftParts(high, s[2]);
    ShiftParts(middle, s[3]);
    Nested(c);
    assert c == Shift(middle, s[3]);
    assert 0x10000 <= c <= 0x10FFFF;
    assert s[..4] == [s[0], s[1], s[2], s[3]];
  }

  lemma RuneIsEncoded(s: seq<byte>)
    requires RuneLength(s) > 0
    ensures IsScalar(Decode(s)) && Encode(Decode(s)) == s[..RuneLength(s)]
  {
    hide Encode;
    if RuneLength(s) == 1 {
      OneByte(s);
    } else if RuneLength(s) == 2 {
      TwoBytes(s);
    } else if RuneLength(s) == 3 {
      ThreeBytes(s);
    } else {
      FourBytes(s);
    }
  }

  lemma OneByte(s: seq<byte>)
    requires RuneLength(s) == 1
    ensures IsScalar(Decode(s)) && Encode(Decode(s)) == s[..1]
  {
    assert s[..1] == [s[0]];
  }

  lemma {:induction false} EncodedIsValid(cs: seq<int>)
    requires forall i :: 0 <= i < |cs| ==> IsScalar(cs[i])
    ensures Valid(EncodeAll(cs))
  {
    hide Encode, RuneLength, IsScalar;
    if cs != [] {
      EncodedIsValid(cs[1..]);
      EncodedIsARune(cs[0], EncodeAll(cs[1..]));
      assert EncodeAll(cs)[|Encode(cs[0])|..] == EncodeAll(cs[1..]);
    }
  }

  lemma {:induction false} ValidIsEncoded(s: seq<byte>) returns (cs: seq<int>)
    requires Valid(s)
    ensures (forall i :: 0 <= i < |cs| ==> IsScalar(cs[i])) && EncodeAll(cs) == s
  {
    hide Encode, Decode, RuneLength, IsScalar;
    if s == [] {
      cs := [];
    } else {
      var n := RuneLength(s);
      var rest := ValidIsEncoded(s[n..]);
      RuneIsEncoded(s);
      cs := [Decode(s)] + rest;
      assert cs[1..] == rest;
      assert s == s[..n] + s[n..];
    }
  }

  /** Valid text is exactly the encodings. */
  lemma ValidExactlyWhenEncoded(s: seq<byte>)
    ensures Valid(s) <==> exists cs :: (forall i :: 0 <= i < |cs| ==> IsScalar(cs[i])) && EncodeAll(cs) == s
  {
    if Valid(s) {
      var cs := ValidIsEncoded(s);
    }
    if cs :| (forall i :: 0 <= i < |cs| ==> IsScalar(cs[i])) && EncodeAll(cs) == s {
      EncodedIsValid(cs);
    }
  }
}
