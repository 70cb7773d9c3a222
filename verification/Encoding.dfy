/** Fixed-width integers as bytes, and hexadecimal text. */
module Encoding {
  import opened Products
  import opened Words

  type Bytes = seq<byte>

  function Pow256(k: nat): (p: nat)
    ensures p > 0
  {
    if k == 0 then 1 else 256 * Pow256(k - 1)
  }

  lemma WordSizes()
    ensures Pow256(8) == U64_MODULUS
    ensures Pow256(32) == U256_MODULUS
  {
    assert Pow256(4) == 0x1_0000_0000;
    assert Pow256(8) == 0x1_0000_0000_0000_0000;
    Pow256Sum(8, 8);
    Pow256Sum(16, 16);
  }

  lemma {:induction false} Pow256Sum(a: nat, b: nat)
    ensures Pow256(a + b) == Pow256(a) * Pow256(b)
  {
    if a > 0 {
      Pow256Sum(a - 1, b);
    }
  }

  // Little endian

  function ToLittleEndian(n: nat, len: nat): (b: Bytes)
    ensures |b| == len
  {
    if len == 0 then [] else [n % 256] + ToLittleEndian(n / 256, len - 1)
  }

  function FromLittleEndian(b: Bytes): nat {
    if b == [] then 0 else b[0] + 256 * FromLittleEndian(b[1..])
  }

  lemma {:induction false} LittleEndianDecodes(n: nat, len: nat)
    requires n < Pow256(len)
    ensures FromLittleEndian(ToLittleEndian(n, len)) == n
  {
    if len > 0 {
      LittleEndianDecodes(n / 256, len - 1);
    }
  }

  lemma {:induction false} LittleEndianEncodes(b: Bytes)
    ensures FromLittleEndian(b) < Pow256(|b|)
    ensures ToLittleEndian(FromLittleEndian(b), |b|) == b
  {
    if b != [] {
      LittleEndianEncodes(b[1..]);
      assert b == [b[0]] + b[1..];
    }
  }

  // Big endian

  function ToBigEndian(n: nat, len: nat): (b: Bytes)
    ensures |b| == len
  {
    if len == 0 then [] else ToBigEndian(n / 256, len - 1) + [n % 256]
  }

  function FromBigEndian(b: Bytes): nat {
    if b == [] then 0 else 256 * FromBigEndian(b[..|b| - 1]) + b[|b| - 1]
  }

  lemma {:induction false} BigEndianDecodes(n: nat, len: nat)
    requires n < Pow256(len)
    ensures FromBigEndian(ToBigEndian(n, len)) == n
  {
    if len > 0 {
      BigEndianDecodes(n / 256, len - 1);
      assert ToBigEndian(n, len)[..len - 1] == ToBigEndian(n / 256, len - 1);
    }
  }

  lemma {:induction false} BigEndianEncodes(b: Bytes)
    ensures FromBigEndian(b) < Pow256(|b|)
    ensures ToBigEndian(FromBigEndian(b), |b|) == b
  {
    if b != [] {
      BigEndianEncodes(b[..|b| - 1]);
      assert b == b[..|b| - 1] + [b[|b| - 1]];
    }
  }

  // Digits

  lemma QuotientIs(n: nat, d: nat, q: nat, r: nat)
    requires n == d * q + r && r < d
    ensures n / d == q
  {
    if n / d < q {
      ProductMonotone(d, n / d + 1, q);
      Distribute(d, n / d, 1);
    } else if n / d > q {
      ProductMonotone(d, q + 1, n / d);
      Distribute(d, q, 1);
    }
  }

  lemma DivideTwice(n: nat, b: nat)
    requires b > 0
    ensures n / 256 / b == n / (256 * b)
  {
    var m := n / 256;
    var q, s := m / b, m % b;
    assert 256 * (b * q + s) == 256 * b * q + 256 * s;
    QuotientIs(n, 256 * b, q, 256 * s + n % 256);
  }

  /** The byte at place `i` of a little-endian word is its digit of 256 to the `i`. */
  lemma {:induction false} LittleEndianDigit(n: nat, len: nat, i: nat)
    requires i < len
    ensures ToLittleEndian(n, len)[i] == n / Pow256(i) % 256
  {
    if i > 0 {
      LittleEndianDigit(n / 256, len - 1, i - 1);
      DivideTwice(n, Pow256(i - 1));
    }
  }

  /** A big-endian word is the little-endian one backwards. */
  lemma {:induction false} BigEndianMirrors(n: nat, len: nat, i: nat)
    requires i < len
    ensures ToBigEndian(n, len)[i] == ToLittleEndian(n, len)[len - 1 - i]
  {
    if i < len - 1 {
      BigEndianMirrors(n / 256, len - 1, i);
    }
  }

  // Signed 64-bit integers are stored in two's complement

  function TwosComplement(x: i64): (u: u64)
    ensures u % U64_MODULUS == x % U64_MODULUS
  {
    if x < 0 then x + U64_MODULUS else x
  }

  function FromTwosComplement(u: u64): (x: i64)
    ensures TwosComplement(x) == u
  {
    if u < 0x8000_0000_0000_0000 then u else u - U64_MODULUS
  }

  // Hexadecimal, as produced by `hex::encode`

  const HEX_DIGITS := "0123456789abcdef"

  function HexEncode(b: Bytes): (s: string)
    ensures |s| == 2 * |b|
  {
    if b == [] then "" else [HEX_DIGITS[b[0] / 16], HEX_DIGITS[b[0] % 16]] + HexEncode(b[1..])
  }

  /** Two digits a byte, the high one first. */
  lemma {:induction false} HexDigit(b: Bytes, i: nat)
    requires i < |b|
    ensures HexEncode(b)[2 * i] == "0123456789abcdef"[b[i] / 16]
    ensures HexEncode(b)[2 * i + 1] == "0123456789abcdef"[b[i] % 16]
  {
    if i > 0 {
      HexDigit(b[1..], i - 1);
    }
  }

  lemma HexDigitsDistinct(i: nat, j: nat)
    requires i < 16 && j < 16 && HEX_DIGITS[i] == HEX_DIGITS[j]
    ensures i == j
  {
  }

  lemma {:induction false} HexInjective(a: Bytes, b: Bytes)
    requires |a| == |b| && HexEncode(a) == HexEncode(b)
    ensures a == b
  {
    if a != [] {
      var x, y := HexEncode(a), HexEncode(b);
      assert x[0] == y[0] && x[1] == y[1];
      HexDigitsDistinct(a[0] / 16, b[0] / 16);
      HexDigitsDistinct(a[0] % 16, b[0] % 16);
      assert x[2..] == HexEncode(a[1..]) && y[2..] == HexEncode(b[1..]);
      HexInjective(a[1..], b[1..]);
      assert a == [a[0]] + a[1..] && b == [b[0]] + b[1..];
    }
  }
}
