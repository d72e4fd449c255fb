/** Bytes and bit strings, shared by the codecs. */
module Bytes {
  type Byte = x: int | 0 <= x < 256

  function Pow2(n: nat): (r: nat)
    ensures r > 0
  {
    if n == 0 then 1 else 2 * Pow2(n - 1)
  }

  /** The `n` low bits of `x`, most significant first. */
  function Bits(x: nat, n: nat): (r: seq<bool>)
    ensures |r| == n
  {
    if n == 0 then [] else Bits(x / 2, n - 1) + [x % 2 == 1]
  }

  function Value(bits: seq<bool>): nat {
    if bits == [] then 0 else 2 * Value(bits[..|bits| - 1]) + (if bits[|bits| - 1] then 1 else 0)
  }

  lemma {:induction false} ValueOfBits(x: nat, n: nat)
    requires x < Pow2(n)
    ensures Value(Bits(x, n)) == x
  {
    if n > 0 {
      ValueOfBits(x / 2, n - 1);
      assert Bits(x, n)[..n - 1] == Bits(x / 2, n - 1);
    }
  }

  lemma {:induction false} BitsOfValue(bits: seq<bool>)
    ensures Value(bits) < Pow2(|bits|)
    ensures Bits(Value(bits), |bits|) == bits
  {
    if bits != [] {
      BitsOfValue(bits[..|bits| - 1]);
    }
  }

  /** Shifting left by `k` and filling the low end concatenates the bit strings. */
  lemma {:induction false} BitsJoin(hi: nat, lo: nat, n: nat, k: nat, p: nat)
    requires lo < p == Pow2(k)
    ensures Bits(hi * p + lo, n + k) == Bits(hi, n) + Bits(lo, k)
  {
    if k == 0 {
      assert Bits(hi, n) + Bits(lo, 0) == Bits(hi, n);
    } else {
      var q := Pow2(k - 1);
      assert hi * p == 2 * (hi * q);
      var x := hi * p + lo;
      assert x / 2 == hi * q + lo / 2 && x % 2 == lo % 2;
      BitsJoin(hi, lo / 2, n, k - 1, q);
      assert Bits(hi, n) + (Bits(lo / 2, k - 1) + [lo % 2 == 1]) == Bits(hi, n) + Bits(lo / 2, k - 1) + [lo % 2 == 1];
    }
  }

  /** The octets of a bit string; up to seven bits left over at the end are dropped. */
  function Octets(bits: seq<bool>): seq<Byte>
    decreases |bits|
  {
    if |bits| < 8 then [] else OctetsStep(bits)
  }

  function OctetsStep(bits: seq<bool>): seq<Byte>
    requires |bits| >= 8
    decreases |bits|, 0
  {
    BitsOfValue(bits[..8]);
    Pow2Eight();
    [Value(bits[..8])] + Octets(bits[8..])
  }

  lemma Pow2Eight()
    ensures Pow2(2) == 4 && Pow2(4) == 16 && Pow2(6) == 64 && Pow2(8) == 256
  {
    assert Pow2(4) == 16;
    assert Pow2(6) == 64;
  }

  function ByteBits(bytes: seq<Byte>): (r: seq<bool>)
    ensures |r| == 8 * |bytes|
  {
    if bytes == [] then [] else ByteBits(bytes[..|bytes| - 1]) + Bits(bytes[|bytes| - 1], 8)
  }

  lemma {:induction false} ByteBitsConcat(a: seq<Byte>, b: seq<Byte>)
    ensures ByteBits(a + b) == ByteBits(a) + ByteBits(b)
  {
    if b == [] {
      assert a + b == a;
      assert ByteBits(a) + [] == ByteBits(a);
    } else {
      assert (a + b)[..|a + b| - 1] == a + b[..|b| - 1];
      ByteBitsConcat(a, b[..|b| - 1]);
    }
  }

  lemma OctetsCons(b: Byte, bits: seq<bool>)
    ensures Octets(Bits(b, 8) + bits) == [b] + Octets(bits)
  {
    var all := Bits(b, 8) + bits;
    assert all[..8] == Bits(b, 8) && all[8..] == bits;
    Pow2Eight();
    ValueOfBits(b, 8);
  }

  lemma ByteBitsCons(b: Byte, bytes: seq<Byte>)
    ensures ByteBits([b] + bytes) == Bits(b, 8) + ByteBits(bytes)
  {
    ByteBitsConcat([b], bytes);
    assert [b][..0] == [];
    assert ByteBits([b]) == Bits(b, 8);
  }

  lemma AssocBits(a: seq<bool>, b: seq<bool>, c: seq<bool>)
    ensures (a + b) + c == a + (b + c)
  {
  }

  lemma {:induction false} OctetsOfByteBits(bytes: seq<Byte>, rest: seq<bool>)
    requires |rest| < 8
    ensures Octets(ByteBits(bytes) + rest) == bytes
  {
    if bytes == [] {
      assert ByteBits(bytes) + rest == rest;
    } else {
      OctetsOfByteBits(bytes[1..], rest);
      ByteBitsCons(bytes[0], bytes[1..]);
      assert bytes == [bytes[0]] + bytes[1..];
      OctetsCons(bytes[0], ByteBits(bytes[1..]) + rest);
      AssocBits(Bits(bytes[0], 8), ByteBits(bytes[1..]), rest);
    }
  }

  lemma {:induction false} ByteBitsOfOctets(bits: seq<bool>)
    ensures |Octets(bits)| == |bits| / 8
    ensures ByteBits(Octets(bits)) == bits[..8 * (|bits| / 8)]
    decreases |bits|
  {
    if |bits| >= 8 {
      ByteBitsOfOctets(bits[8..]);
      Pow2Eight();
      BitsOfValue(bits[..8]);
      ByteBitsCons(Value(bits[..8]), Octets(bits[8..]));
      TakeEight(bits, 8 * (|bits[8..]| / 8));
    }
  }

  lemma TakeEight(bits: seq<bool>, n: nat)
    requires n + 8 <= |bits|
    ensures bits[..8] + bits[8..][..n] == bits[..n + 8]
  {
  }
}
