/**
 * Bit and byte views of unsigned integers: the big-endian bit string that
 * `BitIterator` walks over a field element's representation, its
 * least-significant-first reversal, and big-endian byte strings.
 */
module Bits {
  import opened Field

  function Pow2(n: nat): (r: nat)
    ensures r > 0
  {
    if n == 0 then 1 else 2 * Pow2(n - 1)
  }

  lemma {:induction false} Pow2Add(a: nat, b: nat)
    ensures Pow2(a + b) == Pow2(a) * Pow2(b)
  {
    if a > 0 {
      Pow2Add(a - 1, b);
    }
  }

  lemma {:induction false} Pow2Monotone(a: nat, b: nat)
    requires a <= b
    ensures Pow2(a) <= Pow2(b)
  {
    if a < b {
      Pow2Monotone(a, b - 1);
    }
  }

  /** The powers of two the prover's bit widths rely on. */
  lemma Pow2Values()
    ensures Pow2(32) == 0x1_0000_0000
    ensures Pow2(248) == 0x100_0000_0000_0000_0000_0000_0000_0000_0000_0000_0000_0000_0000_0000_0000_0000
    ensures Pow2(253) == 0x2000_0000_0000_0000_0000_0000_0000_0000_0000_0000_0000_0000_0000_0000_0000_0000
    ensures Pow2(256) == 0x1_0000_0000_0000_0000_0000_0000_0000_0000_0000_0000_0000_0000_0000_0000_0000_0000
  {
    assert Pow2(8) == 256;
    Pow2Add(8, 8);
    assert Pow2(16) == 0x1_0000;
    Pow2Add(16, 16);
    assert Pow2(32) == 0x1_0000_0000;
    Pow2Add(32, 32);
    assert Pow2(64) == 0x1_0000_0000_0000_0000;
    Pow2Add(64, 64);
    assert Pow2(128) == 0x1_0000_0000_0000_0000_0000_0000_0000_0000;
    Pow2Add(16, 8);
    assert Pow2(24) == 0x100_0000;
    Pow2Add(32, 24);
    assert Pow2(56) == 0x100_0000_0000_0000;
    Pow2Add(64, 56);
    assert Pow2(120) == 0x100_0000_0000_0000_0000_0000_0000_0000;
    Pow2Add(128, 120);
    Pow2Add(248, 5);
    assert Pow2(5) == 32;
    Pow2Add(253, 3);
    assert Pow2(3) == 8;
  }

  /** Every field element fits in 253 bits' worth of headroom below 2^256, and 2^253 is below P. */
  lemma FieldWidth()
    ensures Pow2(253) < P < Pow2(256)
  {
    Pow2Values();
  }

  lemma MulAtLeast(d: int, m: int)
    requires d > 0 && m >= 1
    ensures d * m >= d
  {
  }

  /** Euclidean division is unique: any quotient/remainder pair is THE pair. */
  lemma DivModUnique(x: int, d: int, q: int, r: int)
    requires d > 0 && 0 <= r < d && x == d * q + r
    ensures x / d == q && x % d == r
  {
    var q', r' := x / d, x % d;
    assert d * (q - q') == r' - r;
    if q > q' {
      MulAtLeast(d, q - q');
    } else if q < q' {
      MulAtLeast(d, q' - q);
    }
  }

  /** The remainder modulo 2q, split into the lowest bit and the remainder of the rest. */
  lemma ModDouble(x: nat, q: nat)
    requires q > 0
    ensures x % (2 * q) == x % 2 + 2 * ((x / 2) % q)
  {
    var h := x / 2;
    assert x == 2 * h + x % 2;
    assert h == q * (h / q) + h % q;
    assert x == (2 * q) * (h / q) + (x % 2 + 2 * (h % q));
    DivModUnique(x, 2 * q, h / q, x % 2 + 2 * (h % q));
  }

  // ---------------------------------------------------------------- bits

  /** The n-bit binary representation of x, most significant bit first. */
  function BitsBE(x: nat, n: nat): (bits: seq<bool>)
    ensures |bits| == n
  {
    if n == 0 then [] else BitsBE(x / 2, n - 1) + [x % 2 == 1]
  }

  /**
   * `BitIterator::new(x.into_repr())`: the representation of an `Fr` is four
   * 64-bit limbs, walked from the top bit of the top limb down, so 256 bits.
   */
  function ReprBits(x: Fr): (bits: seq<bool>)
    ensures |bits| == 256
  {
    BitsBE(x, 256)
  }

  /** The number a big-endian bit string denotes. */
  function ValueBE(bits: seq<bool>): nat
  {
    if bits == [] then 0
    else 2 * ValueBE(bits[..|bits| - 1]) + (if bits[|bits| - 1] then 1 else 0)
  }

  /** The n-bit binary representation of x, least significant bit first. */
  function BitsLE(x: nat, n: nat): (bits: seq<bool>)
    ensures |bits| == n
  {
    if n == 0 then [] else [x % 2 == 1] + BitsLE(x / 2, n - 1)
  }

  /** The number a least-significant-first bit string denotes, read from its last bit. */
  function ValueLE(bits: seq<bool>): nat
  {
    if bits == [] then 0
    else ValueLE(bits[..|bits| - 1]) + (if bits[|bits| - 1] then Pow2(|bits| - 1) else 0)
  }

  /** `Vec::reverse` */
  function Reverse<T>(s: seq<T>): (r: seq<T>)
    ensures |r| == |s|
  {
    if s == [] then [] else [s[|s| - 1]] + Reverse(s[..|s| - 1])
  }

  /** The n-bit big-endian representation of x denotes x mod 2^n. */
  lemma {:induction false} ValueBitsBE(x: nat, n: nat)
    ensures ValueBE(BitsBE(x, n)) == x % Pow2(n)
  {
    if n > 0 {
      var bits := BitsBE(x, n);
      assert bits[..n - 1] == BitsBE(x / 2, n - 1);
      ValueBitsBE(x / 2, n - 1);
      ModDouble(x, Pow2(n - 1));
    }
  }

  /** Reading back the representation recovers the number, when it fits in n bits. */
  lemma BitsBERoundTrip(x: nat, n: nat)
    requires x < Pow2(n)
    ensures ValueBE(BitsBE(x, n)) == x
  {
    ValueBitsBE(x, n);
  }

  /** The last m bits of the n-bit representation are the m-bit representation. */
  lemma {:induction false} BitsBESuffix(x: nat, n: nat, m: nat)
    requires m <= n
    ensures BitsBE(x, n)[n - m..] == BitsBE(x, m)
  {
    if m > 0 {
      BitsBESuffix(x / 2, n - 1, m - 1);
      assert BitsBE(x, n)[n - m..] == BitsBE(x / 2, n - 1)[n - m..] + [x % 2 == 1];
    }
  }

  /** Reversing the big-endian representation gives the least-significant-first one. */
  lemma {:induction false} ReverseBitsBE(x: nat, n: nat)
    ensures Reverse(BitsBE(x, n)) == BitsLE(x, n)
  {
    if n > 0 {
      var bits := BitsBE(x, n);
      assert bits[..n - 1] == BitsBE(x / 2, n - 1);
      ReverseBitsBE(x / 2, n - 1);
    }
  }

  /** Truncating the least-significant-first representation keeps the low bits. */
  lemma {:induction false} BitsLEPrefix(x: nat, n: nat, m: nat)
    requires m <= n
    ensures BitsLE(x, n)[..m] == BitsLE(x, m)
  {
    if m > 0 {
      BitsLEPrefix(x / 2, n - 1, m - 1);
    }
  }

  /** Reading a least-significant-first string from its first bit. */
  lemma {:induction false} ValueLECons(b: bool, s: seq<bool>)
    ensures ValueLE([b] + s) == (if b then 1 else 0) + 2 * ValueLE(s)
    decreases |s|
  {
    if s != [] {
      var t := [b] + s;
      assert t[..|t| - 1] == [b] + s[..|s| - 1];
      ValueLECons(b, s[..|s| - 1]);
    }
  }

  /** The first m least-significant bits of x denote x mod 2^m. */
  lemma {:induction false} ValueBitsLE(x: nat, m: nat)
    ensures ValueLE(BitsLE(x, m)) == x % Pow2(m)
  {
    if m > 0 {
      ValueLECons(x % 2 == 1, BitsLE(x / 2, m - 1));
      ValueBitsLE(x / 2, m - 1);
      ModDouble(x, Pow2(m - 1));
    }
  }

  // ---------------------------------------------------------------- bytes

  /** The number a big-endian byte string denotes (`read_be`). */
  function ReadBE(bytes: seq<bv8>): nat
  {
    if bytes == [] then 0
    else (bytes[0] as nat) * Pow2(8 * (|bytes| - 1)) + ReadBE(bytes[1..])
  }

  lemma MulMonotone(a: nat, b: nat, w: nat)
    requires a <= b
    ensures a * w <= b * w
  {
  }

  lemma {:induction false} ReadBEBound(bytes: seq<bv8>)
    ensures ReadBE(bytes) < Pow2(8 * |bytes|)
  {
    if bytes != [] {
      var n := |bytes|;
      var w := Pow2(8 * (n - 1));
      var b := bytes[0] as nat;
      ReadBEBound(bytes[1..]);
      assert ReadBE(bytes) == b * w + ReadBE(bytes[1..]);
      MulMonotone(b, 255, w);
      Pow2Add(8, 8 * (n - 1));
      assert Pow2(8) == 256;
      assert 8 + 8 * (n - 1) == 8 * n;
      assert Pow2(8 * n) == 256 * w;
    }
  }
}
