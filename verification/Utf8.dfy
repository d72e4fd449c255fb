/** UTF-8 (RFC 3629): the bytes of a text, and strict decoding. */
module Utf8 {
  import opened Wrappers
  import opened Bytes

  function EncodeChar(c: char): (r: seq<Byte>)
    ensures 1 <= |r| <= 4
  {
    var n := c as int;
    if n < 0x80 then [n]
    else if n < 0x800 then [0xC0 + n / 0x40, 0x80 + n % 0x40]
    else if n < 0x1_0000 then [0xE0 + n / 0x1000, 0x80 + n / 0x40 % 0x40, 0x80 + n % 0x40]
    else [0xF0 + n / 0x4_0000, 0x80 + n / 0x1000 % 0x40, 0x80 + n / 0x40 % 0x40, 0x80 + n % 0x40]
  }

  function Encode(text: string): seq<Byte> {
    if text == "" then [] else EncodeChar(text[0]) + Encode(text[1..])
  }

  function Continuation(b: Byte): int {
    b - 0x80
  }

  predicate IsScalar(n: int) {
    0 <= n < 0xD800 || 0xE000 <= n < 0x11_0000
  }

  /** The scalar a lead byte and its continuation bytes would spell; its length is `Width`. */
  function Width(lead: Byte): nat {
    if lead < 0xC0 then 1 else if lead < 0xE0 then 2 else if lead < 0xF0 then 3 else 4
  }

  function Scalar(b: seq<Byte>): int
    requires b != [] && Width(b[0]) <= |b|
  {
    if b[0] < 0xC0 then b[0]
    else if b[0] < 0xE0 then (b[0] - 0xC0) * 0x40 + Continuation(b[1])
    else if b[0] < 0xF0 then ((b[0] - 0xE0) * 0x40 + Continuation(b[1])) * 0x40 + Continuation(b[2])
    else (((b[0] - 0xF0) * 0x40 + Continuation(b[1])) * 0x40 + Continuation(b[2])) * 0x40 + Continuation(b[3])
  }

  /** Strict decoding of one group: it counts only if it is the encoding of the scalar it spells. */
  function DecodeChar(b: seq<Byte>): (r: Option<char>)
    requires b != []
    ensures r.Some? ==> EncodeChar(r.value) <= b
  {
    var w := Width(b[0]);
    if |b| < w || !IsScalar(Scalar(b)) || EncodeChar(Scalar(b) as char) != b[..w] then None
    else Some(Scalar(b) as char)
  }

  function Decode(b: seq<Byte>): Option<string> {
    if b == [] then Some("")
    else
      match DecodeChar(b)
      case None => None
      case Some(c) =>
        match Decode(b[|EncodeChar(c)|..])
        case None => None
        case Some(rest) => Some([c] + rest)
  }

  /** The scalar of a multi-byte group, put back together from its six-bit pieces. */
  lemma Reassemble(n: nat)
    requires n < 0x11_0000
    ensures n == n / 0x40 * 0x40 + n % 0x40
    ensures n == (n / 0x1000 * 0x40 + n / 0x40 % 0x40) * 0x40 + n % 0x40
    ensures n == ((n / 0x4_0000 * 0x40 + n / 0x1000 % 0x40) * 0x40 + n / 0x40 % 0x40) * 0x40 + n % 0x40
  {
    assert n / 0x1000 == n / 0x40 / 0x40;
    assert n / 0x4_0000 == n / 0x1000 / 0x40;
  }

  lemma ScalarOfChar(c: char)
    ensures Width(EncodeChar(c)[0]) == |EncodeChar(c)|
    ensures Scalar(EncodeChar(c)) == c as int
  {
    Reassemble(c as int);
  }

  lemma FirstChar(c: char, rest: seq<Byte>)
    ensures DecodeChar(EncodeChar(c) + rest) == Some(c)
  {
    ScalarOfChar(c);
    var e := EncodeChar(c);
    assert IsScalar(c as int);
    assert (e + rest)[..|e|] == e;
  }

  lemma DecodeStep(c: char, rest: seq<Byte>)
    requires Decode(rest).Some?
    ensures Decode(EncodeChar(c) + rest) == Some([c] + Decode(rest).value)
  {
    FirstChar(c, rest);
    assert (EncodeChar(c) + rest)[|EncodeChar(c)|..] == rest;
  }

  lemma {:induction false} DecodeInvertsEncode(text: string)
    ensures Decode(Encode(text)) == Some(text)
  {
    if text != "" {
      DecodeInvertsEncode(text[1..]);
      DecodeStep(text[0], Encode(text[1..]));
      assert text == [text[0]] + text[1..];
    }
  }

  lemma {:induction false} EncodeConcat(a: string, b: string)
    ensures Encode(a + b) == Encode(a) + Encode(b)
  {
    if a == "" {
      assert a + b == b;
    } else {
      assert (a + b)[1..] == a[1..] + b;
      EncodeConcat(a[1..], b);
    }
  }

  /** Section 3 of RFC 3629: how many octets a character takes, and in which ranges they lie. */
  lemma OctetsOf(c: char)
    ensures var n, b := c as int, EncodeChar(c);
      && (n <= 0x7F <==> b == [n])
      && (0x80 <= n <= 0x7FF <==> |b| == 2) && (0x800 <= n <= 0xFFFF <==> |b| == 3) && (0x1_0000 <= n <==> |b| == 4)
      && (|b| == 2 ==> 0xC2 <= b[0] <= 0xDF) && (|b| == 3 ==> 0xE0 <= b[0] <= 0xEF)
      && (|b| == 4 ==> 0xF0 <= b[0] <= 0xF4)
      && (forall i :: 1 <= i < |b| ==> 0x80 <= b[i] <= 0xBF)
  {
  }

  /** Examples of section 7 of RFC 3629, and what strict decoding refuses: an octet alone that starts a
      longer group, an overlong form, a surrogate. */
  lemma Examples()
    ensures Encode("\U{2262}") == [0xE2, 0x89, 0xA2] && Encode("\U{233B4}") == [0xF0, 0xA3, 0x8E, 0xB4]
    ensures Decode([0xE2, 0x89]) == None && Decode([0xC0, 0xAF]) == None && Decode([0xED, 0xA0, 0x80]) == None
  {
    assert "\U{2262}"[1..] == "" && "\U{233B4}"[1..] == "";
  }
}
