/** The check on stored text against what it stands for: UTF-8 is what encodes a sequence of Unicode
    scalar values (section 3 of RFC 3629). */
module Utf8Text {
  import opened BridgeTypes
  import opened RequestCodec

  /** A code point that is no surrogate. */
  type Scalar = c: int | 0 <= c < 0x11_0000 && !(0xD800 <= c < 0xE000)

  /** A code point in one to four bytes, as few as will do: a lead byte, and six bits in each other. */
  function EncodeChar(c: Scalar): Text {
    if c < 0x80 then [c]
    else if c < 0x800 then [0xC0 + c / 64, 0x80 + c % 64]
    else if c < 0x1_0000 then [0xE0 + c / 4096, 0x80 + c / 64 % 64, 0x80 + c % 64]
    else [0xF0 + c / 0x4_0000, 0x80 + c / 4096 % 64, 0x80 + c / 64 % 64, 0x80 + c % 64]
  }

  function EncodeText(chars: seq<Scalar>): Text {
    if chars == [] then [] else EncodeChar(chars[0]) + EncodeText(chars[1..])
  }

  lemma OneByte(c: Scalar, rest: Text)
    requires c < 0x80
    ensures ValidUtf8(EncodeChar(c) + rest) <==> ValidUtf8(rest)
  {
    assert (EncodeChar(c) + rest)[1..] == rest;
  }

  lemma TwoBytes(c: Scalar, rest: Text)
    requires 0x80 <= c < 0x800
    ensures ValidUtf8(EncodeChar(c) + rest) <==> ValidUtf8(rest)
  {
    assert (EncodeChar(c) + rest)[2..] == rest;
  }

  lemma ThreeBytes(c: Scalar, rest: Text)
    requires 0x800 <= c < 0x1_0000
    ensures ValidUtf8(EncodeChar(c) + rest) <==> ValidUtf8(rest)
  {
    assert (EncodeChar(c) + rest)[3..] == rest;
  }

  lemma FourBytesOfText(c: Scalar, rest: Text)
    requires 0x1_0000 <= c
    ensures ValidUtf8(EncodeChar(c) + rest) <==> ValidUtf8(rest)
  {
    assert (EncodeChar(c) + rest)[4..] == rest;
  }

  lemma {:induction false} EncodedIsValid(chars: seq<Scalar>)
    ensures ValidUtf8(EncodeText(chars))
  {
    if chars == [] {
    } else {
      var c, rest := chars[0], EncodeText(chars[1..]);
      EncodedIsValid(chars[1..]);
      if c < 0x80 {
        OneByte(c, rest);
      } else if c < 0x800 {
        TwoBytes(c, rest);
      } else if c < 0x1_0000 {
        ThreeBytes(c, rest);
      } else {
        FourBytesOfText(c, rest);
      }
    }
  }

  /** How many bytes the first character takes, by its lead byte. */
  function Width(s: Text): nat
    requires s != []
  {
    if s[0] < 0x80 then 1 else if s[0] < 0xE0 then 2 else if s[0] < 0xF0 then 3 else 4
  }

  /** The bits so far and six more. */
  function SixMore(bits: nat, b: byte): (r: nat)
    requires Continuation(b)
    ensures r / 64 == bits && r % 64 == b - 0x80
  {
    bits * 64 + (b - 0x80)
  }

  lemma DivideTwice(x: nat)
    ensures x / 64 / 64 == x / 4096 && x / 4096 / 64 == x / 0x4_0000
  {
  }

  lemma ReadTwo(s: Text) returns (c: Scalar)
    requires s != [] && ValidUtf8(s) && Width(s) == 2
    ensures |s| >= 2 && EncodeChar(c) == s[..2] && ValidUtf8(s[2..])
  {
    var x: nat := SixMore(s[0] - 0xC0, s[1]);
    assert x / 64 == s[0] - 0xC0 && x % 64 == s[1] - 0x80 && 0x80 <= x < 0x800;
    c := x;
    assert EncodeChar(c) == [s[0], s[1]];
  }

  lemma ReadThree(s: Text) returns (c: Scalar)
    requires s != [] && ValidUtf8(s) && Width(s) == 3
    ensures |s| >= 3 && EncodeChar(c) == s[..3] && ValidUtf8(s[3..])
  {
    var x: nat := SixMore(SixMore(s[0] - 0xE0, s[1]), s[2]);
    DivideTwice(x);
    c := x;
    assert EncodeChar(c) == [s[0], s[1], s[2]];
  }

  /** The parts of the number made of a lead and three bytes. */
  lemma FourParts(lead: nat, b1: byte, b2: byte, b3: byte, c: nat)
    requires Continuation(b1) && Continuation(b2) && Continuation(b3)
    requires c == SixMore(SixMore(SixMore(lead, b1), b2), b3)
    ensures c / 0x4_0000 == lead && c / 4096 % 64 == b1 - 0x80 && c / 64 % 64 == b2 - 0x80 && c % 64 == b3 - 0x80
  {
    DivideTwice(c);
  }

  lemma FourInRange(lead: nat, b1: byte, b2: byte, b3: byte, c: nat)
    requires Continuation(b1) && Continuation(b2) && Continuation(b3) && lead <= 4
    requires (lead == 0 ==> b1 >= 0x90) && (lead == 4 ==> b1 <= 0x8F)
    requires c == SixMore(SixMore(SixMore(lead, b1), b2), b3)
    ensures 0x1_0000 <= c < 0x11_0000
  {
    FourParts(lead, b1, b2, b3, c);
  }

  lemma ReadFour(s: Text) returns (c: Scalar)
    requires s != [] && ValidUtf8(s) && Width(s) == 4
    ensures |s| >= 4 && EncodeChar(c) == s[..4] && ValidUtf8(s[4..])
  {
    var x: nat := SixMore(SixMore(SixMore(s[0] - 0xF0, s[1]), s[2]), s[3]);
    FourParts(s[0] - 0xF0, s[1], s[2], s[3], x);
    FourInRange(s[0] - 0xF0, s[1], s[2], s[3], x);
    c := x;
    assert EncodeChar(c) == [s[0], s[1], s[2], s[3]];
  }

  lemma ReadFirst(s: Text) returns (c: Scalar)
    requires s != [] && ValidUtf8(s)
    ensures Width(s) <= |s| && EncodeChar(c) == s[..Width(s)] && ValidUtf8(s[Width(s)..])
  {
    if Width(s) == 1 {
      c := s[0];
    } else if Width(s) == 2 {
      c := ReadTwo(s);
    } else if Width(s) == 3 {
      c := ReadThree(s);
    } else {
      c := ReadFour(s);
    }
  }

  lemma {:induction false} ValidIsEncoded(s: Text) returns (chars: seq<Scalar>)
    requires ValidUtf8(s)
    ensures EncodeText(chars) == s
  {
    if s == [] {
      chars := [];
    } else {
      var c := ReadFirst(s);
      var rest := ValidIsEncoded(s[Width(s)..]);
      chars := [c] + rest;
      assert chars[1..] == rest;
      assert s[..Width(s)] + s[Width(s)..] == s;
    }
  }

  /** Bytes pass the check exactly if they encode some text. */
  lemma ValidExactly(s: Text)
    ensures ValidUtf8(s) <==> exists chars: seq<Scalar> :: EncodeText(chars) == s
  {
    if ValidUtf8(s) {
      var chars := ValidIsEncoded(s);
      assert EncodeText(chars) == s;
    }
    if exists chars: seq<Scalar> :: EncodeText(chars) == s {
      var chars: seq<Scalar> :| EncodeText(chars) == s;
      EncodedIsValid(chars);
    }
  }
}
