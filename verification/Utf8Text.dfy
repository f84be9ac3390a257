/** The byte automaton of the tail accepts exactly the UTF-8 encodings of texts (section 4 of RFC 3629). */
module Utf8Text {
  import opened Common
  import opened JsonlTail

  /** A Unicode scalar value: no surrogates, nothing above U+10FFFF. */
  predicate Scalar(c: int) {
    0 <= c < 0xD800 || 0xE000 <= c < 0x11_0000
  }

  function Byte(x: int): byte
    requires 0 <= x < 256
  {
    x as byte
  }

  function Encode(c: int): (s: seq<byte>)
    requires Scalar(c)
    ensures s != []
  {
    if c < 0x80 then [Byte(c)]
    else if c < 0x800 then [Byte(0xC0 + c / 64), Byte(0x80 + c % 64)]
    else if c < 0x1_0000 then [Byte(0xE0 + c / 4096), Byte(0x80 + c / 64 % 64), Byte(0x80 + c % 64)]
    else [Byte(0xF0 + c / 262144), Byte(0x80 + c / 4096 % 64), Byte(0x80 + c / 64 % 64), Byte(0x80 + c % 64)]
  }

  predicate Scalars(text: seq<int>) {
    forall i :: 0 <= i < |text| ==> Scalar(text[i])
  }

  function EncodeAll(text: seq<int>): seq<byte>
    requires Scalars(text)
  {
    if text == [] then [] else Encode(text[0]) + EncodeAll(text[1..])
  }

  // ---- The automaton, byte by byte from the front ----

  lemma FromFront(q: Utf8State, b: byte, rest: seq<byte>)
    ensures Utf8From(q, [b] + rest) == Utf8From(Utf8Step(q, b), rest)
  {
    Utf8Joins(q, [b], rest);
    assert [b][..0] == [];
    assert Utf8From(q, [b]) == Utf8Step(Utf8From(q, []), b);
    hide Utf8Step;
  }

  lemma {:induction false} BadStays(s: seq<byte>)
    ensures Utf8From(Bad, s) == Bad
    decreases |s|
  {
    if s != [] {
      BadStays(s[..|s| - 1]);
    }
  }

  lemma OneByte(a: byte)
    ensures Utf8From(Ready, [a]) == Utf8Step(Ready, a)
  {
    FromFront(Ready, a, []);
    assert [a] + [] == [a];
    hide Utf8Step;
  }

  lemma TwoBytes(a: byte, b: byte)
    ensures Utf8From(Ready, [a, b]) == Utf8Step(Utf8Step(Ready, a), b)
  {
    FromFront(Ready, a, [b]);
    FromFront(Utf8Step(Ready, a), b, []);
    assert [a] + [b] == [a, b] && [b] + [] == [b];
    hide Utf8Step;
  }

  lemma ThreeBytes(a: byte, b: byte, c: byte)
    ensures Utf8From(Ready, [a, b, c]) == Utf8Step(Utf8Step(Utf8Step(Ready, a), b), c)
  {
    TwoBytes(a, b);
    assert [a, b, c][..2] == [a, b];
    hide Utf8Step;
  }

  lemma FourBytes(a: byte, b: byte, c: byte, d: byte)
    ensures Utf8From(Ready, [a, b, c, d]) == Utf8Step(Utf8Step(Utf8Step(Utf8Step(Ready, a), b), c), d)
  {
    ThreeBytes(a, b, c);
    assert [a, b, c, d][..3] == [a, b, c];
    hide Utf8Step;
  }

  // ---- Encodings are accepted ----

  /** Digits of a number in base 64, and back. */
  lemma Digits(h: int, m: int, l: int)
    requires 0 <= h && 0 <= m < 64 && 0 <= l < 64
    ensures var c := h * 4096 + m * 64 + l;
            c % 64 == l && c / 64 == h * 64 + m && c / 64 % 64 == m && c / 4096 == h
  {
    var c := h * 4096 + m * 64 + l;
    assert c == (h * 64 + m) * 64 + l;
    assert c / 64 == h * 64 + m;
  }

  lemma Digits4(g: int, h: int, m: int, l: int)
    requires 0 <= g && 0 <= h < 64 && 0 <= m < 64 && 0 <= l < 64
    ensures var c := g * 262144 + h * 4096 + m * 64 + l;
            c % 64 == l && c / 64 % 64 == m && c / 4096 % 64 == h && c / 262144 == g
  {
    var c := g * 262144 + h * 4096 + m * 64 + l;
    Digits(g * 64 + h, m, l);
    assert c / 4096 == g * 64 + h;
  }

  lemma EncodedTwo(c: int)
    requires 0x80 <= c < 0x800
    ensures Utf8From(Ready, Encode(c)) == Ready
  {
    TwoBytes(Encode(c)[0], Encode(c)[1]);
    hide Utf8From;
  }

  lemma EncodedThree(c: int)
    requires 0x800 <= c < 0x1_0000 && Scalar(c)
    ensures Utf8From(Ready, Encode(c)) == Ready
  {
    var h, m := c / 4096, c / 64 % 64;
    Digits(h, m, c % 64);
    assert c == h * 4096 + m * 64 + c % 64;
    var s := Encode(c);
    ThreeBytes(s[0], s[1], s[2]);
    assert s[0] as int == 0xE0 + h && s[1] as int == 0x80 + m;
    assert h == 0 ==> m >= 32;
    assert h == 13 ==> m < 32;
    hide Utf8From, Encode;
  }

  lemma EncodedFour(c: int)
    requires 0x1_0000 <= c < 0x11_0000
    ensures Utf8From(Ready, Encode(c)) == Ready
  {
    var g, h := c / 262144, c / 4096 % 64;
    Digits4(g, h, c / 64 % 64, c % 64);
    var s := Encode(c);
    FourBytes(s[0], s[1], s[2], s[3]);
    assert c / 4096 == g * 64 + h;
    assert g == 0 ==> h >= 16;
    assert g == 4 ==> h < 16;
    assert s[0] as int == 0xF0 + g && s[1] as int == 0x80 + h;
    hide Utf8From, Encode;
  }

  lemma EncodedIsReady(c: int)
    requires Scalar(c)
    ensures Utf8From(Ready, Encode(c)) == Ready
  {
    if c < 0x80 {
      OneByte(Encode(c)[0]);
    } else if c < 0x800 {
      EncodedTwo(c);
    } else if c < 0x1_0000 {
      EncodedThree(c);
    } else {
      EncodedFour(c);
    }
  }

  lemma {:induction false} EncodingsAreUtf8(text: seq<int>)
    requires Scalars(text)
    ensures Utf8(EncodeAll(text))
  {
    if text != [] {
      EncodingsAreUtf8(text[1..]);
      EncodedIsReady(text[0]);
      Utf8Joins(Ready, Encode(text[0]), EncodeAll(text[1..]));
      hide Encode;
    }
  }

  // ---- What is accepted is an encoding ----

  /** The first character of an accepted text. */
  lemma FirstCharacter(s: seq<byte>) returns (c: int, rest: seq<byte>)
    requires Utf8(s) && s != []
    ensures Scalar(c) && s == Encode(c) + rest && Utf8(rest)
  {
    var a := s[0];
    assert s == [a] + s[1..];
    FromFront(Ready, a, s[1..]);
    if a < 0x80 {
      c, rest := a as int, s[1..];
    } else {
      var q := Utf8Step(Ready, a);
      BadStays(s[1..]);
      assert s[1..] != [];
      c, rest := Continued(a, s[1..]);
    }
  }

  lemma Continued(a: byte, s: seq<byte>) returns (c: int, rest: seq<byte>)
    requires a >= 0x80 && s != [] && Utf8From(Utf8Step(Ready, a), s) == Ready
    ensures Scalar(c) && [a] + s == Encode(c) + rest && Utf8(rest)
  {
    var q, b := Utf8Step(Ready, a), s[0];
    assert s == [b] + s[1..];
    FromFront(q, b, s[1..]);
    BadStays(s[1..]);
    BadStays(s);
    if a < 0xE0 {
      c, rest := (a as int - 0xC0) * 64 + (b as int - 0x80), s[1..];
      assert Encode(c) == [a, b];
      assert [a] + s == [a, b] + rest;
    } else {
      assert s[1..] != [];
      c, rest := ContinuedMore(a, b, s[1..]);
      assert [a] + s == [a, b] + s[1..];
    }
  }

  /** Three bytes the automaton takes back to its start are an encoding. */
  lemma ThreeEncode(a: byte, b: byte, d: byte) returns (c: int)
    requires 0xE0 <= a < 0xF0 && Utf8Step(Utf8Step(Utf8Step(Ready, a), b), d) == Ready
    ensures Scalar(c) && Encode(c) == [a, b, d]
  {
    var h, m, l := a as int - 0xE0, b as int - 0x80, d as int - 0x80;
    assert 0 <= m < 64 && 0 <= l < 64 && (h == 0 ==> m >= 32) && (h == 13 ==> m < 32);
    hide Utf8Step;
    Digits(h, m, l);
    c := h * 4096 + m * 64 + l;
  }

  lemma FourEncode(a: byte, b: byte, d: byte, e: byte) returns (c: int)
    requires 0xF0 <= a && Utf8Step(Utf8Step(Utf8Step(Utf8Step(Ready, a), b), d), e) == Ready
    ensures Scalar(c) && Encode(c) == [a, b, d, e]
  {
    var g, h, m, l := a as int - 0xF0, b as int - 0x80, d as int - 0x80, e as int - 0x80;
    assert g <= 4 && 0 <= h < 64 && 0 <= m < 64 && 0 <= l < 64 && (g == 0 ==> h >= 16) && (g == 4 ==> h < 16);
    hide Utf8Step;
    Digits4(g, h, m, l);
    c := g * 262144 + h * 4096 + m * 64 + l;
  }

  /** After a first byte above 0xDF, a third; above 0xEF, a fourth. */
  lemma LongSteps(a: byte, b: byte, d: byte)
    requires a >= 0xE0
    ensures Utf8Step(Utf8Step(Ready, a), b) != Ready
    ensures Utf8Step(Utf8Step(Utf8Step(Ready, a), b), d) in {Ready, Bad} || a >= 0xF0
    ensures a >= 0xF0 ==> Utf8Step(Utf8Step(Utf8Step(Ready, a), b), d) in {One, Bad}
  {
  }

  lemma OneSteps(e: byte)
    ensures Utf8Step(One, e) in {Ready, Bad}
  {
  }

  lemma ContinuedMore(a: byte, b: byte, s: seq<byte>) returns (c: int, rest: seq<byte>)
    requires a >= 0xE0 && s != [] && Utf8From(Utf8Step(Utf8Step(Ready, a), b), s) == Ready
    ensures Scalar(c) && [a, b] + s == Encode(c) + rest && Utf8(rest)
  {
    hide Utf8Step, Encode, Scalar;
    var q, d := Utf8Step(Utf8Step(Ready, a), b), s[0];
    assert s == [d] + s[1..];
    FromFront(q, d, s[1..]);
    BadStays(s[1..]);
    LongSteps(a, b, d);
    if a < 0xF0 {
      c := ThreeEncode(a, b, d);
      rest := s[1..];
      assert [a, b] + s == [a, b, d] + rest;
    } else {
      assert Utf8From(One, []) == One;
      assert s[1..] != [];
      var e := s[1];
      assert s[1..] == [e] + s[2..];
      FromFront(One, e, s[2..]);
      OneSteps(e);
      BadStays(s[2..]);
      c := FourEncode(a, b, d, e);
      rest := s[2..];
      assert [a, b] + s == [a, b, d, e] + rest;
    }
  }

  lemma {:induction false} Decoded(s: seq<byte>) returns (text: seq<int>)
    requires Utf8(s)
    ensures Scalars(text) && s == EncodeAll(text)
    decreases |s|
  {
    if s == [] {
      text := [];
    } else {
      var c, rest := FirstCharacter(s);
      var more := Decoded(rest);
      text := [c] + more;
      assert text[1..] == more;
    }
  }

  /** Bytes pass as text if and only if they encode some sequence of Unicode scalar values. */
  lemma Utf8Iff(s: seq<byte>)
    ensures Utf8(s) <==> exists text: seq<int> :: Scalars(text) && s == EncodeAll(text)
  {
    if Utf8(s) {
      var text := Decoded(s);
    }
    if text: seq<int> :| Scalars(text) && s == EncodeAll(text) {
      EncodingsAreUtf8(text);
    }
  }
}
