/** Recovering an account index from the low bits of a field element. */
module AccountIndex {
  import opened Field
  import opened Bits

  /** The account index a `from`/`to` field names: the element modulo 2^32. */
  function LowU32(x: Fr): U32
  {
    x % 0x1_0000_0000
  }

  /**
   * `field_element_to_u32`: walk the 256-bit representation least significant
   * bit first, keep 32 bits, and sum the powers of two of the set ones into a
   * `u32`, doubling `base` (itself a `u32`) after every bit.
   */
  method FieldElementToU32(fr: Fr) returns (res: U32)
    ensures res == fr % 0x1_0000_0000
    ensures res == ValueBE(ReprBits(fr)[224..])
  {
    var bits := ReprBits(fr);
    bits := Reverse(bits);
    bits := bits[..32];
    res := 0;
    var base: U32 := 1;
    Pow2Values();
    var i := 0;
    while i < |bits|
      invariant 0 <= i <= 32
      invariant base == if i < 32 then Pow2(i) else 0
      invariant res == ValueLE(bits[..i])
      invariant res < Pow2(i)
    {
      Pow2Monotone(i, 31);
      assert Pow2(32) == 2 * Pow2(31);
      if i + 1 < 32 {
        Pow2Monotone(i + 1, 31);
      }
      assert bits[..i + 1][..i] == bits[..i];
      if bits[i] {
        // `res += base` stays within u32: res < 2^i == base <= 2^31
        res := res + base;
      }
      // `base << 1` drops the bit shifted out of the u32
      base := (base * 2) % 0x1_0000_0000;
      i := i + 1;
    }
    assert bits[..32] == bits;
    ReverseBitsBE(fr, 256);
    BitsLEPrefix(fr, 256, 32);
    ValueBitsLE(fr, 32);
    BitsBESuffix(fr, 256, 32);
    ValueBitsBE(fr, 32);
  }
}
