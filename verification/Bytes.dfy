/** Bytes, big-endian integers and the positional keystream shared by every cipher of the program. */
module Bytes {

  type Byte = x: int | 0 <= x < 256

  const U32_LIMIT := 0x1_0000_0000
  const U64_LIMIT := 0x1_0000_0000_0000_0000

  /** Exclusive or of the low `bits` bits of two bytes, least significant bit first. */
  function XorBits(a: nat, b: nat, bits: nat): nat {
    if bits == 0 then 0
    else (if a % 2 == b % 2 then 0 else 1) + 2 * XorBits(a / 2, b / 2, bits - 1)
  }

  function Pow2(n: nat): (r: nat)
    ensures r > 0
  {
    if n == 0 then 1 else 2 * Pow2(n - 1)
  }

  lemma {:induction false} MultiplyMore(d: nat, a: nat, b: nat)
    requires a < b
    ensures d * a + d <= d * b
    decreases b
  {
    if a + 1 < b {
      MultiplyMore(d, a, b - 1);
    }
    Distribute(d, b - 1);
  }

  lemma Distribute(d: nat, a: nat)
    ensures d * (a + 1) == d * a + d
  {
  }

  lemma Quotient(n: nat, d: nat, q: nat, r: nat)
    requires r < d && n == d * q + r
    ensures n / d == q
  {
    var k := n / d;
    if k < q {
      MultiplyMore(d, k, q);
    } else if k > q {
      MultiplyMore(d, q, k);
    }
  }

  lemma Regroup(d: nat, p: nat, q: nat, r: nat)
    ensures d * (p * q + r) == (d * p) * q + d * r
  {
  }

  lemma Product(d: nat, p: nat)
    requires d > 0 && p > 0
    ensures d * p > 0
  {
  }

  lemma DivisionParts(n: nat, d: nat)
    requires d > 0
    ensures n == d * (n / d) + n % d
  {
  }

  /** The quotient and the remainder of a division by a product, from those of the divisions by its factors. */
  lemma TwoParts(n: nat, d: nat, p: nat, part: nat, rest: nat, q: nat, r: nat)
    requires n == d * part + rest && part == p * q + r && rest < d && r < p
    ensures n == (d * p) * q + (d * r + rest) && d * r + rest < d * p
  {
    Regroup(d, p, q, r);
    MultiplyMore(d, r, p);
  }

  /** Dividing by a product is dividing by its factors one after the other. */
  lemma DivideTwice(n: nat, d: nat, p: nat)
    requires d > 0 && p > 0
    ensures d * p > 0 && n / (d * p) == n / d / p
  {
    var part := n / d;
    Product(d, p);
    DivisionParts(n, d);
    DivisionParts(part, p);
    TwoParts(n, d, p, part, n % d, part / p, part % p);
    Quotient(n, d * p, part / p, d * (part % p) + n % d);
  }

  lemma {:induction false} XorBitsRange(a: nat, b: nat, bits: nat)
    ensures XorBits(a, b, bits) < Pow2(bits)
  {
    if bits > 0 {
      XorBitsRange(a / 2, b / 2, bits - 1);
    }
  }

  lemma Halves(low: nat, high: nat)
    requires low < 2
    ensures (low + 2 * high) % 2 == low && (low + 2 * high) / 2 == high
  {
  }

  lemma XorHalves(a: nat, b: nat, bits: nat)
    requires bits > 0
    ensures XorBits(a, b, bits) % 2 == (if a % 2 == b % 2 then 0 else 1)
    ensures XorBits(a, b, bits) / 2 == XorBits(a / 2, b / 2, bits - 1)
  {
    Halves(if a % 2 == b % 2 then 0 else 1, XorBits(a / 2, b / 2, bits - 1));
  }

  lemma {:induction false} XorBitsCancel(a: nat, b: nat, bits: nat)
    requires a < Pow2(bits)
    ensures XorBits(XorBits(a, b, bits), b, bits) == a
  {
    if bits > 0 {
      XorHalves(a, b, bits);
      XorBitsCancel(a / 2, b / 2, bits - 1);
    }
  }

  lemma {:induction false} XorBitsInjective(a: nat, b: nat, c: nat, bits: nat)
    requires a < Pow2(bits) && b < Pow2(bits) && c < Pow2(bits)
    requires XorBits(a, b, bits) == XorBits(a, c, bits)
    ensures b == c
  {
    if bits > 0 {
      XorHalves(a, b, bits);
      XorHalves(a, c, bits);
      XorBitsInjective(a / 2, b / 2, c / 2, bits - 1);
    }
  }

  lemma Pow2Of8()
    ensures Pow2(8) == 256
  {
    assert Pow2(4) == 16;
    assert Pow2(8) == 2 * Pow2(7) == 4 * Pow2(6) == 8 * Pow2(5) == 16 * Pow2(4);
  }

  function Xor(a: Byte, b: Byte): Byte {
    XorBitsRange(a, b, 8);
    Pow2Of8();
    XorBits(a, b, 8)
  }

  lemma XorCancel(a: Byte, b: Byte)
    ensures Xor(Xor(a, b), b) == a
  {
    Pow2Of8();
    XorBitsCancel(a, b, 8);
  }

  lemma XorInjective(a: Byte, b: Byte, c: Byte)
    requires Xor(a, b) == Xor(a, c)
    ensures b == c
  {
    Pow2Of8();
    XorBitsInjective(a, b, c, 8);
  }

  lemma {:induction false} XorBitsBit(a: nat, b: nat, bits: nat, i: nat)
    requires i < bits
    ensures XorBits(a, b, bits) / Pow2(i) % 2 != a / Pow2(i) % 2 <==> b / Pow2(i) % 2 == 1
  {
    hide XorBits;
    XorHalves(a, b, bits);
    if i > 0 {
      XorBitsBit(a / 2, b / 2, bits - 1, i - 1);
      HigherBit(XorBits(a, b, bits), i);
      HigherBit(a, i);
      HigherBit(b, i);
    }
  }

  lemma HigherBit(n: nat, i: nat)
    requires i > 0
    ensures n / Pow2(i) == n / 2 / Pow2(i - 1)
  {
    DivideTwice(n, 2, Pow2(i - 1));
  }

  /** Bit `i` of the result differs from bit `i` of the one byte exactly where the other has a 1. */
  lemma XorBit(a: Byte, b: Byte, i: nat)
    requires i < 8
    ensures Xor(a, b) / Pow2(i) % 2 != a / Pow2(i) % 2 <==> b / Pow2(i) % 2 == 1
  {
    XorBitsBit(a, b, 8, i);
  }

  lemma {:induction false} XorBitsZero(a: nat, bits: nat)
    requires a < Pow2(bits)
    ensures XorBits(a, 0, bits) == a
  {
    if bits > 0 {
      XorBitsZero(a / 2, bits - 1);
    }
  }

  // ---- the keystream ----

  /** `ks(p)` is the keystream byte at absolute position `p`; the constant zero keystream is the NONE cipher. */
  type Keystream = nat -> Byte

  /** Applying a keystream that stands at position `pos`: the same operation encrypts and decrypts. */
  function Crypt(data: seq<Byte>, pos: nat, ks: Keystream): (r: seq<Byte>)
    ensures |r| == |data|
  {
    seq(|data|, i requires 0 <= i < |data| => Xor(data[i], ks(pos + i)))
  }

  predicate SilentAt(ks: Keystream, p: nat, i: nat) {
    ks(p + i) == 0
  }

  /** A keystream of zeros changes nothing, and one that is not zero somewhere changes every text there. */
  lemma PlainCrypt(data: seq<Byte>, pos: nat, ks: Keystream)
    ensures Crypt(data, pos, ks) == data <==> forall i | 0 <= i < |data| :: SilentAt(ks, pos, i)
  {
    Pow2Of8();
    forall i | 0 <= i < |data|
      ensures Crypt(data, pos, ks)[i] == data[i] <==> SilentAt(ks, pos, i)
    {
      XorBitsZero(data[i], 8);
      if Crypt(data, pos, ks)[i] == data[i] {
        XorInjective(data[i], ks(pos + i), 0);
      }
    }
  }

  predicate SameKeyAt(ks: Keystream, p: nat, q: nat, i: nat) {
    ks(p + i) == ks(q + i)
  }

  predicate SameKeys(ks: Keystream, p: nat, q: nat, n: nat) {
    forall i | 0 <= i < n :: SameKeyAt(ks, p, q, i)
  }

  lemma CryptTwiceSameKeys(data: seq<Byte>, p: nat, q: nat, ks: Keystream)
    requires SameKeys(ks, p, q, |data|)
    ensures Crypt(Crypt(data, p, ks), q, ks) == data
  {
    forall i | 0 <= i < |data|
      ensures Crypt(Crypt(data, p, ks), q, ks)[i] == data[i]
    {
      assert SameKeyAt(ks, p, q, i);
      XorCancel(data[i], ks(p + i));
    }
  }

  lemma TextRevealsKeys(data: seq<Byte>, p: nat, q: nat, ks: Keystream)
    requires Crypt(Crypt(data, p, ks), q, ks) == data
    ensures SameKeys(ks, p, q, |data|)
  {
    var once := Crypt(data, p, ks);
    forall i | 0 <= i < |data|
      ensures SameKeyAt(ks, p, q, i)
    {
      assert Crypt(once, q, ks)[i] == data[i];
      XorCancel(data[i], ks(p + i));
      XorInjective(once[i], ks(p + i), ks(q + i));
    }
  }

  /** What was encrypted at `p` and is decrypted at `q` comes back for every text of length `n`
      exactly when the keystream does not tell the two positions apart. */
  lemma CryptTwicePositions(n: nat, p: nat, q: nat, ks: Keystream)
    ensures (forall data: seq<Byte> | |data| == n :: Crypt(Crypt(data, p, ks), q, ks) == data)
       <==> SameKeys(ks, p, q, n)
  {
    hide Crypt, SameKeys;
    if SameKeys(ks, p, q, n) {
      forall data: seq<Byte> | |data| == n
        ensures Crypt(Crypt(data, p, ks), q, ks) == data
      {
        CryptTwiceSameKeys(data, p, q, ks);
      }
    }
    if forall data: seq<Byte> | |data| == n :: Crypt(Crypt(data, p, ks), q, ks) == data {
      var zeros: seq<Byte> := seq(n, _ => 0);
      assert Crypt(Crypt(zeros, p, ks), q, ks) == zeros;
      TextRevealsKeys(zeros, p, q, ks);
    }
  }

  lemma CryptTwice(data: seq<Byte>, pos: nat, ks: Keystream)
    ensures Crypt(Crypt(data, pos, ks), pos, ks) == data
  {
    CryptTwiceSameKeys(data, pos, pos, ks);
  }

  lemma CryptConcat(a: seq<Byte>, b: seq<Byte>, pos: nat, ks: Keystream)
    ensures Crypt(a + b, pos, ks) == Crypt(a, pos, ks) + Crypt(b, pos + |a|, ks)
  {
    forall i | 0 <= i < |a + b|
      ensures Crypt(a + b, pos, ks)[i] == (Crypt(a, pos, ks) + Crypt(b, pos + |a|, ks))[i]
    {
      if i >= |a| {
        assert (a + b)[i] == b[i - |a|];
      }
    }
  }

  // ---- big-endian integers ----

  function Pow256(n: nat): (r: nat)
    ensures r > 0
  {
    if n == 0 then 1 else 256 * Pow256(n - 1)
  }

  lemma Pow256Widths()
    ensures Pow256(4) == U32_LIMIT && Pow256(8) == U64_LIMIT
  {
    assert Pow256(2) == 0x1_0000;
    assert Pow256(4) == 256 * Pow256(3) == 0x1_0000 * Pow256(2);
    assert Pow256(6) == 256 * Pow256(5) == 0x1_0000 * Pow256(4);
    assert Pow256(8) == 256 * Pow256(7) == 0x1_0000 * Pow256(6);
  }

  /** The `width` low bytes of `n`, most significant first. */
  function ToBE(n: nat, width: nat): (r: seq<Byte>)
    ensures |r| == width
  {
    if width == 0 then [] else ToBE(n / 256, width - 1) + [n % 256]
  }

  function FromBE(b: seq<Byte>): nat {
    if |b| == 0 then 0 else 256 * FromBE(b[..|b| - 1]) + b[|b| - 1]
  }

  /** Byte `i` stands for the multiples of a power of 256 that is larger the earlier it comes. */
  lemma {:induction false} BigEndian(n: nat, width: nat, i: nat)
    requires i < width
    ensures ToBE(n, width)[i] == n / Pow256(width - 1 - i) % 256
  {
    if i < width - 1 {
      BigEndian(n / 256, width - 1, i);
      DivideTwice(n, 256, Pow256(width - 2 - i));
    }
  }

  lemma {:induction false} FromToBE(n: nat, width: nat)
    requires n < Pow256(width)
    ensures FromBE(ToBE(n, width)) == n
  {
    if width > 0 {
      FromToBE(n / 256, width - 1);
      var r := ToBE(n, width);
      assert r[..|r| - 1] == ToBE(n / 256, width - 1);
    }
  }

  lemma LastDigit(high: nat, low: Byte)
    ensures (256 * high + low) / 256 == high && (256 * high + low) % 256 == low
  {
  }

  lemma {:induction false} ToFromBE(b: seq<Byte>)
    ensures FromBE(b) < Pow256(|b|)
    ensures ToBE(FromBE(b), |b|) == b
  {
    if |b| > 0 {
      var front, last := b[..|b| - 1], b[|b| - 1];
      ToFromBE(front);
      LastDigit(FromBE(front), last);
      assert b == front + [last];
    }
  }
}
