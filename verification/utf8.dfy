/** UTF-8 as defined in section 3 of RFC 3629: the bytes of a text determine the text. */
module Utf8 {
  type Byte = x: int | 0 <= x < 256

  function EncodeRune(c: char): (bytes: seq<Byte>)
    ensures 1 <= |bytes| <= 4
  {
    var u := c as int;
    if u < 0x80 then [u]
    else if u < 0x800 then [0xC0 + u / 64, 0x80 + u % 64]
    else if u < 0x10000 then [0xE0 + u / 4096, 0x80 + u / 64 % 64, 0x80 + u % 64]
    else [0xF0 + u / 262144, 0x80 + u / 4096 % 64, 0x80 + u / 64 % 64, 0x80 + u % 64]
  }

  function Encode(s: string): seq<Byte> {
    if s == "" then [] else EncodeRune(s[0]) + Encode(s[1..])
  }

  /** How many bytes a rune takes, read from its first byte. */
  function Width(first: Byte): nat {
    if first < 0x80 then 1 else if first < 0xE0 then 2 else if first < 0xF0 then 3 else 4
  }

  lemma WidthOfRune(c: char)
    ensures |EncodeRune(c)| == Width(EncodeRune(c)[0])
  {}

  /** A number in base 64. */
  function Digits(digits: seq<int>): int {
    if digits == [] then 0 else Digits(digits[..|digits| - 1]) * 64 + digits[|digits| - 1]
  }

  lemma TwoDigits(u: nat)
    ensures Digits([u / 64, u % 64]) == u
  {
    assert [u / 64, u % 64][..1] == [u / 64] && [u / 64][..0] == [];
    assert Digits([u / 64]) == u / 64;
  }

  lemma ThreeDigits(u: nat)
    ensures Digits([u / 4096, u / 64 % 64, u % 64]) == u
  {
    var digits := [u / 4096, u / 64 % 64, u % 64];
    assert u / 64 / 64 == u / 4096;
    TwoDigits(u / 64);
    assert digits[..2] == [u / 64 / 64, u / 64 % 64];
  }

  lemma FourDigits(u: nat)
    ensures Digits([u / 262144, u / 4096 % 64, u / 64 % 64, u % 64]) == u
  {
    var digits := [u / 262144, u / 4096 % 64, u / 64 % 64, u % 64];
    assert u / 64 / 4096 == u / 262144 && u / 64 / 64 == u / 4096;
    ThreeDigits(u / 64);
    assert digits[..3] == [u / 64 / 4096, u / 64 / 64 % 64, u / 64 % 64];
  }

  /** The payload of a continuation byte. */
  function Low(b: int): int { b - 0x80 }

  /** The code point, read from the bytes. */
  function Decoded(bytes: seq<Byte>): int
    requires 1 <= |bytes| <= 4
  {
    var lead: int := bytes[0];
    if |bytes| == 1 then lead
    else if |bytes| == 2 then Digits([lead - 0xC0, Low(bytes[1])])
    else if |bytes| == 3 then Digits([lead - 0xE0, Low(bytes[1]), Low(bytes[2])])
    else Digits([lead - 0xF0, Low(bytes[1]), Low(bytes[2]), Low(bytes[3])])
  }

  lemma RuneRoundTrip(c: char)
    ensures Decoded(EncodeRune(c)) == c as int
  {
    TwoDigits(c as int);
    ThreeDigits(c as int);
    FourDigits(c as int);
    hide Digits;
  }

  lemma SameHead(a: seq<Byte>, x: seq<Byte>, b: seq<Byte>, y: seq<Byte>)
    requires a + x == b + y && |a| == |b|
    ensures a == b && x == y
  {
    assert a == (a + x)[..|a|] && b == (b + y)[..|b|];
    assert x == (a + x)[|a|..] && y == (b + y)[|b|..];
  }

  /** Two texts with the same bytes are the same text. */
  lemma {:induction false} EncodeIsInjective(s: string, t: string)
    requires Encode(s) == Encode(t)
    ensures s == t
    decreases |s|
  {
    if s != "" && t != "" {
      var a, b := EncodeRune(s[0]), EncodeRune(t[0]);
      assert a[0] == Encode(s)[0] && b[0] == Encode(t)[0];
      WidthOfRune(s[0]);
      WidthOfRune(t[0]);
      SameHead(a, Encode(s[1..]), b, Encode(t[1..]));
      RuneRoundTrip(s[0]);
      RuneRoundTrip(t[0]);
      EncodeIsInjective(s[1..], t[1..]);
      assert s == [s[0]] + s[1..] && t == [t[0]] + t[1..];
    }
  }
}
