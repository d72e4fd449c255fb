/** The padding-tolerant Base64 decoder used for certificate thumbprints, and the encoding it
    inverts: section 4 of RFC 4648. */
module Base64 {
  import opened Wrappers
  import opened Bytes

  type Sextet = x: int | 0 <= x < 64

  // ---- The encoding, group by group as section 4 of RFC 4648 defines it -------------------

  /** Table 1 of RFC 4648. */
  function AlphabetChar(v: Sextet): (c: Byte)
    ensures c < 128
  {
    if v < 26 then 65 + v
    else if v < 52 then 97 + (v - 26)
    else if v < 62 then 48 + (v - 52)
    else if v == 62 then 43 else 47
  }

  const PAD: Byte := 61

  function EncodeSextets(data: seq<Byte>): seq<Sextet> {
    if |data| == 0 then []
    else if |data| == 1 then [data[0] / 4, data[0] % 4 * 16]
    else if |data| == 2 then [data[0] / 4, data[0] % 4 * 16 + data[1] / 16, data[1] % 16 * 4]
    else ([data[0] / 4, data[0] % 4 * 16 + data[1] / 16, data[1] % 16 * 4 + data[2] / 64, data[2] % 64]
          + EncodeSextets(data[3..]))
  }

  function Spell(v: seq<Sextet>): seq<Byte> {
    seq(|v|, i requires 0 <= i < |v| => AlphabetChar(v[i]))
  }

  function Encode(data: seq<Byte>): seq<Byte> {
    Spell(EncodeSextets(data)) + Padding(|data|)
  }

  function Padding(n: nat): seq<Byte> {
    if n % 3 == 0 then [] else if n % 3 == 1 then [PAD, PAD] else [PAD]
  }

  // ---- What the decoder accepts -----------------------------------------------------------

  predicate Skipped(c: Byte) {
    c == PAD || c == 13 || c == 10 || c == 32
  }

  /** The position of a character in the alphabet, or -1. */
  function SextetOf(c: Byte): (v: int)
    ensures -1 <= v < 64
    ensures v >= 0 ==> AlphabetChar(v) == c
  {
    if 65 <= c < 91 then c - 65
    else if 97 <= c < 123 then c - 97 + 26
    else if 48 <= c < 58 then c - 48 + 52
    else if c == 43 then 62
    else if c == 47 then 63
    else -1
  }

  predicate Legal(c: Byte) {
    Skipped(c) || SextetOf(c) >= 0
  }

  predicate AllLegal(text: seq<Byte>) {
    forall i :: 0 <= i < |text| ==> Legal(text[i])
  }

  /** The sextets of the alphabet characters of a text, whatever else is in it. */
  function Sextets(text: seq<Byte>): seq<Sextet> {
    if text == [] then []
    else
      var v := SextetOf(text[|text| - 1]);
      if v >= 0 then Sextets(text[..|text| - 1]) + [v] else Sextets(text[..|text| - 1])
  }

  function SextetBits(v: seq<Sextet>): (r: seq<bool>)
    ensures |r| == 6 * |v|
  {
    if v == [] then [] else SextetBits(v[..|v| - 1]) + Bits(v[|v| - 1], 6)
  }

  /** What decoding means: the octets of the concatenated six-bit groups. */
  function Decode(text: seq<Byte>): Result<seq<Byte>, string> {
    if AllLegal(text) then Ok(Octets(SextetBits(Sextets(text)))) else Err("invalid base64 char")
  }

  // ---- The source's loops ------------------------------------------------------------------

  method BuildTable() returns (table: seq<int>)
    ensures |table| == 128
    ensures forall c: Byte :: c < 128 ==> table[c] == SextetOf(c)
  {
    var t := new int[128](_ => -1);
    var i := 0;
    while i < 26
      invariant 0 <= i <= 26
      invariant forall c :: 0 <= c < 128 ==>
        t[c] == if 65 <= c < 65 + i then c - 65 else if 97 <= c < 97 + i then c - 97 + 26 else -1
    {
      t[65 + i] := i;
      t[97 + i] := i + 26;
      i := i + 1;
    }
    i := 0;
    while i < 10
      invariant 0 <= i <= 10
      invariant forall c :: 0 <= c < 128 ==>
        t[c] == if 65 <= c < 91 then c - 65 else if 97 <= c < 123 then c - 97 + 26
                else if 48 <= c < 48 + i then c - 48 + 52 else -1
    {
      t[48 + i] := i + 52;
      i := i + 1;
    }
    t[43] := 62;
    t[47] := 63;
    table := t[..];
  }

  const U32: nat := 0x1_0000_0000

  /** The shift buffer and its bit count. Between characters `bits` is 0, 2, 4 or 6, which is
      why the 32-bit shift never loses a bit. */
  ghost predicate BufferHolds(buf: nat, bits: nat) {
    bits < 8 && bits % 2 == 0 && buf < Pow2(bits)
  }

  /** The bits of the text up to position `i`. */
  function BitsUpTo(input: seq<Byte>, i: nat): seq<bool>
    requires i <= |input|
  {
    SextetBits(Sextets(input[..i]))
  }

  lemma OneMore(input: seq<Byte>, i: nat)
    requires i < |input|
    ensures SextetOf(input[i]) < 0 ==> BitsUpTo(input, i + 1) == BitsUpTo(input, i)
    ensures SextetOf(input[i]) >= 0 ==> BitsUpTo(input, i + 1) == BitsUpTo(input, i) + Bits(SextetOf(input[i]), 6)
    ensures AllLegal(input[..i]) && Legal(input[i]) ==> AllLegal(input[..i + 1])
    ensures !Legal(input[i]) ==> !AllLegal(input)
  {
    assert input[..i + 1][..i] == input[..i];
  }

  /** The loop's state after `i` characters: the octets out and the buffer spell what was read. */
  ghost predicate Holds(input: seq<Byte>, i: nat, buf: nat, bits: nat, out: seq<Byte>) {
    && i <= |input| && AllLegal(input[..i])
    && BufferHolds(buf, bits)
    && BitsUpTo(input, i) == ByteBits(out) + Bits(buf, bits)
  }

  method DecodeB64(input: seq<Byte>) returns (r: Result<seq<Byte>, string>)
    ensures r == Decode(input)
  {
    var table := BuildTable();
    var buf: nat, bits: nat := 0, 0;
    var out: seq<Byte> := [];
    assert input[..0] == [];
    for i := 0 to |input|
      invariant Holds(input, i, buf, bits, out)
    {
      var c := input[i];
      if c == PAD || c == 13 || c == 10 || c == 32 {
        SkipOne(input, i, buf, bits, out);
        continue;
      }
      if c >= |table| {
        OneMore(input, i);
        return Err("invalid base64 char");
      }
      var v := table[c];
      if v < 0 {
        OneMore(input, i);
        return Err("invalid base64 char");
      }
      var shifted := (buf * 64 + v) % U32;
      TakeOne(input, i, buf, bits, out, v, shifted, bits + 6);
      buf := shifted;
      bits := bits + 6;
      if bits >= 8 {
        bits := bits - 8;
        out := out + [buf / Pow2(bits) % 256];
        buf := buf % Pow2(bits);
      }
    }
    assert input[..|input|] == input;
    OctetsOfByteBits(out, Bits(buf, bits));
    return Ok(out);
  }

  lemma SkipOne(input: seq<Byte>, i: nat, buf: nat, bits: nat, out: seq<Byte>)
    requires i < |input| && Holds(input, i, buf, bits, out) && Skipped(input[i])
    ensures Holds(input, i + 1, buf, bits, out)
  {
    OneMore(input, i);
  }

  /** The buffer after a shift holds the new sextet behind what it held. */
  lemma Shifted(input: seq<Byte>, i: nat, buf: nat, bits: nat, out: seq<Byte>, v: Sextet, x: nat)
    requires i < |input| && Holds(input, i, buf, bits, out) && v == SextetOf(input[i]) && x == (buf * 64 + v) % U32
    ensures AllLegal(input[..i + 1]) && x < Pow2(bits + 6)
    ensures BitsUpTo(input, i + 1) == ByteBits(out) + Bits(x, bits + 6)
  {
    OneMore(input, i);
    ShiftIn(buf, bits, v);
    AssocBits(ByteBits(out), Bits(buf, bits), Bits(v, 6));
  }

  /** Once an octet has left the buffer, if it is full, everything is in its place. */
  ghost predicate Settled(input: seq<Byte>, i: nat, x: nat, n: nat, out: seq<Byte>) {
    && (n < 8 ==> Holds(input, i, x, n, out))
    && (n >= 8 ==> i <= |input| && AllLegal(input[..i]) && Drained(x, n - 8, out, BitsUpTo(input, i)))
  }

  lemma TakeOne(input: seq<Byte>, i: nat, buf: nat, bits: nat, out: seq<Byte>, v: Sextet, x: nat, n: nat)
    requires i < |input| && Holds(input, i, buf, bits, out) && v == SextetOf(input[i])
    requires x == (buf * 64 + v) % U32 && n == bits + 6
    ensures Settled(input, i + 1, x, n, out)
  {
    Shifted(input, i, buf, bits, out, v, x);
    Settle(input, i + 1, x, n, out);
  }

  /** With eight bits or more in the buffer, the first eight leave it. */
  lemma Settle(input: seq<Byte>, i: nat, x: nat, n: nat, out: seq<Byte>)
    requires i <= |input| && AllLegal(input[..i]) && BitsUpTo(input, i) == ByteBits(out) + Bits(x, n)
    requires n < 14 && n % 2 == 0 && x < Pow2(n)
    ensures Settled(input, i, x, n, out)
  {
    if n >= 8 {
      OctetLeaves(x, n, n - 8, out, BitsUpTo(input, i));
    }
  }

  lemma OctetLeaves(x: nat, n: nat, rest: nat, out: seq<Byte>, all: seq<bool>)
    requires n == rest + 8 && rest < 6 && rest % 2 == 0 && x < Pow2(n) && all == ByteBits(out) + Bits(x, n)
    ensures Drained(x, rest, out, all)
  {
    ShiftOut(x, rest, out);
  }

  /** Once the top octet of `x` is out, `rest` bits remain and still spell `all`. */
  ghost predicate Drained(x: nat, rest: nat, out: seq<Byte>, all: seq<bool>) {
    var p := Pow2(rest);
    BufferHolds(x % p, rest) && all == ByteBits(out + [x / p % 256]) + Bits(x % p, rest)
  }

  lemma Pow2Six(n: nat)
    ensures Pow2(n + 6) == 64 * Pow2(n)
  {
    assert Pow2(n + 2) == 4 * Pow2(n);
    assert Pow2(n + 4) == 16 * Pow2(n);
  }

  lemma Pow2Small(bits: nat)
    requires bits < 8 && bits % 2 == 0
    ensures Pow2(bits) in {1, 4, 16, 64}
  {
    Pow2Eight();
    assert bits in {0, 2, 4, 6};
  }

  lemma ShiftIn(buf: nat, bits: nat, v: Sextet)
    requires BufferHolds(buf, bits)
    ensures (buf * 64 + v) % U32 < Pow2(bits + 6)
    ensures Bits((buf * 64 + v) % U32, bits + 6) == Bits(buf, bits) + Bits(v, 6)
  {
    Pow2Eight();
    Pow2Six(bits);
    Pow2Small(bits);
    Fits(buf * 64 + v);
    BitsJoin(buf, v, bits, 6, 64);
  }

  lemma Fits(x: nat)
    requires x < 64 * 64
    ensures x % U32 == x
  {
  }

  lemma Divide(x: nat, p: nat)
    requires p in {1, 4, 16, 64} && x < 256 * p
    ensures 0 <= x / p % 256 == x / p < 256 && 0 <= x % p < p && x == x / p * p + x % p
  {
    if p == 1 {
    } else if p == 4 {
    } else if p == 16 {
    } else {
    }
  }

  /** Eight full bits leave the buffer as one octet; the rest stays. */
  lemma ShiftOut(x: nat, rest: nat, out: seq<Byte>)
    requires rest < 8 && rest % 2 == 0 && x < Pow2(rest + 8)
    ensures Drained(x, rest, out, ByteBits(out) + Bits(x, rest + 8))
  {
    var p := Pow2(rest);
    Pow2Six(rest);
    assert Pow2(rest + 8) == 256 * p;
    Pow2Small(rest);
    Divide(x, p);
    OctetOut(x, x / p % 256, x % p, rest, p, out);
  }

  lemma OctetOut(x: nat, hi: Byte, lo: nat, rest: nat, p: nat, out: seq<Byte>)
    requires lo < p == Pow2(rest) && x == hi * p + lo
    ensures ByteBits(out) + Bits(x, rest + 8) == ByteBits(out + [hi]) + Bits(lo, rest)
  {
    BitsJoin(hi, lo, 8, rest, p);
    AppendOctet(out, hi, Bits(lo, rest));
  }

  lemma AppendOctet(out: seq<Byte>, b: Byte, rest: seq<bool>)
    ensures ByteBits(out) + (Bits(b, 8) + rest) == ByteBits(out + [b]) + rest
  {
    assert (out + [b])[..|out|] == out;
    AssocBits(ByteBits(out), Bits(b, 8), rest);
  }

  // ---- Decoding inverts encoding ------------------------------------------------------------

  lemma {:induction false} SextetBitsConcat(a: seq<Sextet>, b: seq<Sextet>)
    ensures SextetBits(a + b) == SextetBits(a) + SextetBits(b)
  {
    if b == [] {
      assert a + b == a;
    } else {
      assert (a + b)[..|a + b| - 1] == a + b[..|b| - 1];
      SextetBitsConcat(a, b[..|b| - 1]);
      AssocBits(SextetBits(a), SextetBits(b[..|b| - 1]), Bits(b[|b| - 1], 6));
    }
  }

  lemma SextetBitsOne(v: Sextet)
    ensures SextetBits([v]) == Bits(v, 6)
  {
    assert [v][..0] == [];
  }

  lemma ByteBitsOne(b: Byte)
    ensures ByteBits([b]) == Bits(b, 8)
  {
    assert [b][..0] == [];
  }

  // Splitting an octet splits its bits there.

  lemma SplitSixTwo(b: Byte)
    ensures Bits(b, 8) == Bits(b / 4, 6) + Bits(b % 4, 2)
  {
    Pow2Eight();
    BitsJoin(b / 4, b % 4, 6, 2, 4);
  }

  lemma SplitFourFour(b: Byte)
    ensures Bits(b, 8) == Bits(b / 16, 4) + Bits(b % 16, 4)
  {
    Pow2Eight();
    BitsJoin(b / 16, b % 16, 4, 4, 16);
  }

  lemma SplitTwoSix(b: Byte)
    ensures Bits(b, 8) == Bits(b / 64, 2) + Bits(b % 64, 6)
  {
    Pow2Eight();
    BitsJoin(b / 64, b % 64, 2, 6, 64);
  }

  /** A sextet made of the low bits of one octet and the high bits of the next. */
  lemma JoinTwoFour(hi: nat, lo: nat)
    requires hi < 4 && lo < 16
    ensures Bits(hi * 16 + lo, 6) == Bits(hi, 2) + Bits(lo, 4)
  {
    Pow2Eight();
    BitsJoin(hi, lo, 2, 4, 16);
  }

  lemma JoinFourTwo(hi: nat, lo: nat)
    requires hi < 16 && lo < 4
    ensures Bits(hi * 4 + lo, 6) == Bits(hi, 4) + Bits(lo, 2)
  {
    Pow2Eight();
    BitsJoin(hi, lo, 4, 2, 4);
  }

  lemma TwoSextets(v: Sextet, w: Sextet)
    ensures SextetBits([v, w]) == Bits(v, 6) + Bits(w, 6)
  {
    SextetBitsOne(v);
    SextetBitsOne(w);
    SextetBitsConcat([v], [w]);
    assert [v] + [w] == [v, w];
  }

  lemma FourSextets(s: Sextet, t: Sextet, u: Sextet, v: Sextet)
    ensures SextetBits([s, t, u]) == (Bits(s, 6) + Bits(t, 6)) + Bits(u, 6)
    ensures SextetBits([s, t, u, v]) == (Bits(s, 6) + Bits(t, 6)) + (Bits(u, 6) + Bits(v, 6))
  {
    TwoSextets(s, t);
    TwoSextets(u, v);
    SextetBitsOne(u);
    SextetBitsConcat([s, t], [u, v]);
    SextetBitsConcat([s, t], [u]);
    assert [s, t] + [u, v] == [s, t, u, v] && [s, t] + [u] == [s, t, u];
  }

  lemma ThreeBytes(a: Byte, b: Byte, c: Byte)
    ensures ByteBits([a, b]) == Bits(a, 8) + Bits(b, 8)
    ensures ByteBits([a, b, c]) == (Bits(a, 8) + Bits(b, 8)) + Bits(c, 8)
  {
    ByteBitsOne(a);
    ByteBitsOne(b);
    ByteBitsOne(c);
    ByteBitsConcat([a], [b]);
    ByteBitsConcat([a, b], [c]);
    assert [a] + [b] == [a, b] && [a, b] + [c] == [a, b, c];
  }

  /** The same six pieces, cut into four sextets or into three octets. */
  lemma Recut(a: seq<bool>, b: seq<bool>, c: seq<bool>, d: seq<bool>, e: seq<bool>, f: seq<bool>)
    ensures (a + (b + c)) + ((d + e) + f) == ((a + b) + (c + d)) + (e + f)
    ensures (a + (b + c)) + (d + e) == ((a + b) + (c + d)) + e
  {
  }

  lemma LastTwo(a: Byte, b: Byte)
    ensures SextetBits([a / 4, a % 4 * 16 + b / 16, b % 16 * 4]) == ByteBits([a, b]) + Bits(0, 2)
  {
    SplitSixTwo(a);
    SplitFourFour(b);
    JoinTwoFour(a % 4, b / 16);
    JoinFourTwo(b % 16, 0);
    CutTwoOrThree(a / 4, a % 4 * 16 + b / 16, b % 16 * 4, a, b,
                  Bits(a / 4, 6), Bits(a % 4, 2), Bits(b / 16, 4), Bits(b % 16, 4), Bits(0, 2));
  }

  lemma CutTwoOrThree(s: Sextet, t: Sextet, u: Sextet, x: Byte, y: Byte,
                      p: seq<bool>, q: seq<bool>, r: seq<bool>, k: seq<bool>, pad: seq<bool>)
    requires Bits(s, 6) == p && Bits(t, 6) == q + r && Bits(u, 6) == k + pad
    requires Bits(x, 8) == p + q && Bits(y, 8) == r + k
    ensures SextetBits([s, t, u]) == ByteBits([x, y]) + pad
  {
    FourSextets(s, t, u, 0);
    ThreeBytes(x, y, 0);
    Recut(p, q, r, k, pad, []);
  }

  lemma CutThreeOrFour(s: Sextet, t: Sextet, u: Sextet, v: Sextet, x: Byte, y: Byte, z: Byte,
                       p: seq<bool>, q: seq<bool>, r: seq<bool>, k: seq<bool>, l: seq<bool>)
    requires Bits(s, 6) == p && Bits(t, 6) == q + r && Bits(u, 6) == k + l
    requires Bits(x, 8) == p + q && Bits(y, 8) == r + k && Bits(z, 8) == l + Bits(v, 6)
    ensures SextetBits([s, t, u, v]) == ByteBits([x, y, z])
  {
    FourSextets(s, t, u, v);
    ThreeBytes(x, y, z);
    Recut(p, q, r, k, l, Bits(v, 6));
  }

  lemma GroupBits(a: Byte, b: Byte, c: Byte)
    ensures SextetBits([a / 4, a % 4 * 16 + b / 16, b % 16 * 4 + c / 64, c % 64]) == ByteBits([a, b, c])
  {
    SplitSixTwo(a);
    SplitFourFour(b);
    SplitTwoSix(c);
    JoinTwoFour(a % 4, b / 16);
    JoinFourTwo(b % 16, c / 64);
    CutThreeOrFour(a / 4, a % 4 * 16 + b / 16, b % 16 * 4 + c / 64, c % 64, a, b, c,
                   Bits(a / 4, 6), Bits(a % 4, 2), Bits(b / 16, 4), Bits(b % 16, 4), Bits(c / 64, 2));
  }

  function PadBits(n: nat): (k: nat) {
    if n % 3 == 0 then 0 else if n % 3 == 1 then 4 else 2
  }

  lemma PadBitsPeriodic(n: nat)
    ensures PadBits(n + 3) == PadBits(n)
  {
  }

  /** The encoding spells the octets' bits, followed by fewer than six zero bits. */
  lemma {:induction false} EncodedBits(data: seq<Byte>)
    ensures SextetBits(EncodeSextets(data)) == ByteBits(data) + Bits(0, PadBits(|data|))
  {
    if |data| == 0 {
    } else if |data| == 1 {
      SpelledBits(data[0], 0);
      assert data == [data[0]] && EncodeSextets(data) == [data[0] / 4, data[0] % 4 * 16];
    } else if |data| == 2 {
      LastTwo(data[0], data[1]);
      assert data == [data[0], data[1]];
      assert EncodeSextets(data) == [data[0] / 4, data[0] % 4 * 16 + data[1] / 16, data[1] % 16 * 4];
    } else {
      EncodedBits(data[3..]);
      FirstGroup(data);
    }
  }

  lemma FirstGroup(data: seq<Byte>)
    requires |data| >= 3
    requires SextetBits(EncodeSextets(data[3..])) == ByteBits(data[3..]) + Bits(0, PadBits(|data[3..]|))
    ensures SextetBits(EncodeSextets(data)) == ByteBits(data) + Bits(0, PadBits(|data|))
  {
    var a, b, c, tail := data[0], data[1], data[2], data[3..];
    var group: seq<Sextet> := [a / 4, a % 4 * 16 + b / 16, b % 16 * 4 + c / 64, c % 64];
    GroupBits(a, b, c);
    assert data == [a, b, c] + tail && EncodeSextets(data) == group + EncodeSextets(tail);
    PadBitsPeriodic(|tail|);
    OneMoreGroup([a, b, c], tail, group, EncodeSextets(tail), PadBits(|tail|));
  }

  lemma OneMoreGroup(head: seq<Byte>, tail: seq<Byte>, group: seq<Sextet>, rest: seq<Sextet>, pad: nat)
    requires SextetBits(group) == ByteBits(head)
    requires SextetBits(rest) == ByteBits(tail) + Bits(0, pad)
    ensures SextetBits(group + rest) == ByteBits(head + tail) + Bits(0, pad)
  {
    SextetBitsConcat(group, rest);
    ByteBitsConcat(head, tail);
    AssocBits(ByteBits(head), ByteBits(tail), Bits(0, pad));
  }

  lemma SextetOfAlphabetChar(v: Sextet)
    ensures SextetOf(AlphabetChar(v)) == v && !Skipped(AlphabetChar(v))
  {
  }

  lemma {:induction false} SextetsConcat(a: seq<Byte>, b: seq<Byte>)
    ensures Sextets(a + b) == Sextets(a) + Sextets(b)
  {
    if b == [] {
      assert a + b == a;
    } else {
      assert (a + b)[..|a + b| - 1] == a + b[..|b| - 1];
      SextetsConcat(a, b[..|b| - 1]);
    }
  }

  lemma {:induction false} SextetsOfSpelling(v: seq<Sextet>)
    ensures AllLegal(Spell(v)) && Sextets(Spell(v)) == v
  {
    if v != [] {
      var w := v[..|v| - 1];
      SextetsOfSpelling(w);
      SextetOfAlphabetChar(v[|v| - 1]);
      assert Spell(v)[..|v| - 1] == Spell(w);
      assert forall i :: 0 <= i < |v| - 1 ==> Spell(v)[i] == Spell(w)[i];
    }
  }

  lemma SextetsOfEncoding(data: seq<Byte>)
    ensures AllLegal(Encode(data)) && Sextets(Encode(data)) == EncodeSextets(data)
  {
    SextetsOfSpelling(EncodeSextets(data));
    var letters, pad := Spell(EncodeSextets(data)), Padding(|data|);
    NoiseHasNoSextets(pad);
    SextetsConcat(letters, pad);
    LegalConcat(letters, pad);
    assert Sextets(letters) + [] == Sextets(letters);
  }

  /** Decoding any text that spells the encoding of `data`, with padding or without it and with
      CR, LF, space or `=` anywhere in it, gives `data` back. */
  lemma DecodeInvertsEncode(data: seq<Byte>, text: seq<Byte>)
    requires AllLegal(text) && Sextets(text) == Sextets(Encode(data))
    ensures Decode(text) == Ok(data)
  {
    SextetsOfEncoding(data);
    EncodedBits(data);
    OctetsOfByteBits(data, Bits(0, PadBits(|data|)));
  }

  /** Inserting skipped characters at any position of a text changes nothing. */
  lemma InsertSkipped(before: seq<Byte>, noise: seq<Byte>, after: seq<Byte>)
    requires forall i :: 0 <= i < |noise| ==> Skipped(noise[i])
    ensures Decode(before + noise + after) == Decode(before + after)
  {
    NoiseHasNoSextets(noise);
    SextetsConcat(before + noise, after);
    SextetsConcat(before, noise);
    SextetsConcat(before, after);
    assert Sextets(before) + [] == Sextets(before);
    LegalConcat(before + noise, after);
    LegalConcat(before, noise);
    LegalConcat(before, after);
  }

  lemma LegalConcat(a: seq<Byte>, b: seq<Byte>)
    ensures AllLegal(a + b) <==> AllLegal(a) && AllLegal(b)
  {
    if AllLegal(a + b) {
      assert forall i :: 0 <= i < |a| ==> a[i] == (a + b)[i];
      assert forall i :: 0 <= i < |b| ==> b[i] == (a + b)[|a| + i];
    }
  }

  lemma {:induction false} NoiseHasNoSextets(noise: seq<Byte>)
    requires forall i :: 0 <= i < |noise| ==> Skipped(noise[i])
    ensures AllLegal(noise) && Sextets(noise) == []
  {
    if noise != [] {
      NoiseHasNoSextets(noise[..|noise| - 1]);
    }
  }

  /** `n` alphabet characters decode to floor(6n/8) octets; the error comes exactly from a
      character that is neither in the alphabet nor skipped. */
  lemma DecodedLength(text: seq<Byte>)
    ensures Decode(text).Err? <==> exists i :: 0 <= i < |text| && !Skipped(text[i]) && SextetOf(text[i]) < 0
    ensures Decode(text).Ok? ==> |Decode(text).value| == 6 * |Sextets(text)| / 8
  {
    ByteBitsOfOctets(SextetBits(Sextets(text)));
    if Decode(text).Err? {
      var i :| 0 <= i < |text| && !Legal(text[i]);
    }
  }

  lemma SameSplit(a: seq<bool>, x: seq<bool>, b: seq<bool>, y: seq<bool>)
    requires |a| == |b| && a + x == b + y
    ensures a == b && x == y
  {
    assert a == (a + x)[..|a|] && b == (b + y)[..|a|];
    assert x == (a + x)[|a|..] && y == (b + y)[|a|..];
  }

  lemma {:induction false} SextetBitsInjective(v: seq<Sextet>, w: seq<Sextet>)
    requires SextetBits(v) == SextetBits(w)
    ensures v == w
  {
    assert 6 * |v| == 6 * |w|;
    if v != [] {
      var n := |v| - 1;
      SameSplit(SextetBits(v[..n]), Bits(v[n], 6), SextetBits(w[..n]), Bits(w[n], 6));
      SextetBitsInjective(v[..n], w[..n]);
      Pow2Eight();
      ValueOfBits(v[n], 6);
      ValueOfBits(w[n], 6);
    }
  }

  /** The bits after the last whole octet. */
  function Leftover(text: seq<Byte>): seq<bool> {
    var bits := SextetBits(Sextets(text));
    bits[8 * (|bits| / 8)..]
  }

  lemma {:induction false} ZeroBits(n: nat)
    ensures Bits(0, n) == seq(n, _ => false)
  {
    if n > 0 {
      ZeroBits(n - 1);
    }
  }

  /** The decoder is more liberal than the encoding. A text it accepts is the encoding of what it
      returns, up to skipped characters, if and only if the number of alphabet characters is not
      one more than a multiple of four and the bits left over at the end are all zero. */
  lemma ReencodesIffCanonical(text: seq<Byte>)
    requires AllLegal(text)
    ensures EncodeSextets(Decode(text).value) == Sextets(text)
      <==> |Sextets(text)| % 4 != 1 && Leftover(text) == seq(|Leftover(text)|, _ => false)
  {
    var v := Sextets(text);
    var bits := SextetBits(v);
    var data := Octets(bits);
    var w := EncodeSextets(data);
    ByteBitsOfOctets(bits);
    EncodedBits(data);
    ZeroBits(PadBits(|data|));
    var zeros := Bits(0, PadBits(|data|));
    var k := 8 * (|bits| / 8);
    assert bits == ByteBits(data) + Leftover(text);
    PadMatches(|v|, |data|);
    if w == v {
      assert SextetBits(w)[k..] == zeros;
    }
    if |v| % 4 != 1 && Leftover(text) == seq(|Leftover(text)|, _ => false) {
      assert |Leftover(text)| == |zeros|;
      SextetBitsInjective(w, v);
    }
  }

  lemma PadMatches(n: nat, m: nat)
    requires m == 6 * n / 8
    ensures n % 4 != 1 <==> 6 * n - 8 * m == PadBits(m)
    ensures n % 4 == 1 ==> 6 * n - 8 * m == 6
  {
    var q, r := n / 4, n % 4;
    assert n == 4 * q + r;
    assert m == 3 * q + 6 * r / 8;
  }

  /** Every octet has sixteen two-character spellings: the low four bits of the second character
      are ignored. `QQ==` and `QR==` both decode to the octet 65. */
  lemma SixteenSpellings(c: Byte, d: Byte, b: Byte, low: nat)
    requires low < 16 && SextetOf(c) == b / 4 && SextetOf(d) == b % 4 * 16 + low
    ensures Decode([c, d, PAD, PAD]) == Ok([b])
  {
    TwoSpelled(c, d);
    SpelledBits(b, low);
    OctetsOfByteBits([b], Bits(low, 4));
  }

  lemma SpelledBits(b: Byte, low: nat)
    requires low < 16
    ensures SextetBits([b / 4, b % 4 * 16 + low]) == ByteBits([b]) + Bits(low, 4)
  {
    TwoSextets(b / 4, b % 4 * 16 + low);
    SplitSixTwo(b);
    JoinTwoFour(b % 4, low);
    ByteBitsOne(b);
    AssocBits(Bits(b / 4, 6), Bits(b % 4, 2), Bits(low, 4));
  }

  lemma TwoSpelled(c: Byte, d: Byte)
    requires SextetOf(c) >= 0 && SextetOf(d) >= 0
    ensures AllLegal([c, d, PAD, PAD]) && Sextets([c, d, PAD, PAD]) == [SextetOf(c), SextetOf(d)]
  {
    var pad: seq<Byte> := [PAD, PAD];
    assert [c, d, PAD, PAD] == [c] + [d] + pad;
    NoiseHasNoSextets(pad);
    SextetsConcat([c] + [d], pad);
    SextetsConcat([c], [d]);
    assert [c][..0] == [] && [d][..0] == [];
  }

  // ---- The standard's own words ---------------------------------------------------------------------------

  const ALPHABET := UPPER + LOWER + "0123456789+/"
  const UPPER := "ABCDEFGHIJKLMNOPQRSTUVWXYZ"
  const LOWER := "abcdefghijklmnopqrstuvwxyz"

  /** Table 1 of RFC 4648, written out, read both ways. */
  lemma AlphabetIs(v: Sextet)
    ensures |ALPHABET| == 64 && AlphabetChar(v) == ALPHABET[v] as int && SextetOf(ALPHABET[v] as int) == v
  {
    if v < 26 {
      assert ALPHABET[v] == UPPER[v];
      UpperIs(v);
    } else if v < 52 {
      assert ALPHABET[v] == LOWER[v - 26];
      LowerIs(v - 26);
    } else {
      assert ALPHABET[v] == "0123456789+/"[v - 52];
    }
  }

  lemma UpperIs(i: nat)
    requires i < 26
    ensures |UPPER| == 26 && UPPER[i] as int == 65 + i
  {
  }

  lemma LowerIs(i: nat)
    requires i < 26
    ensures |LOWER| == 26 && LOWER[i] as int == 97 + i
  {
  }

  /** Test vectors of section 10 of RFC 4648: `f`, `fo` and `foobar`. */
  lemma TestVectors()
    ensures Encode([102]) == [90, 103, 61, 61]
    ensures Encode([102, 111]) == [90, 109, 56, 61]
    ensures Encode([102, 111, 111, 98, 97, 114]) == [90, 109, 57, 118, 89, 109, 70, 121]
  {
    assert [102, 111, 111, 98, 97, 114][3..] == [98, 97, 114] && [98, 97, 114][3..] == [];
    assert EncodeSextets([98, 97, 114]) == [24, 38, 5, 50];
    assert EncodeSextets([102, 111, 111, 98, 97, 114]) == [25, 38, 61, 47, 24, 38, 5, 50];
  }
}
