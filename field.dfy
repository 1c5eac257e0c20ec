/**
 * The BN254 scalar field `Fr` that every balance, nonce, fee and root lives in,
 * and the fixed-width unsigned integers the prover converts to and from.
 */
module Field {
  /** The modulus of the BN254 scalar field. */
  const P: nat := 21888242871839275222246405745257275088548364400416034343698204186575808495617

  /** A field element in canonical form (what `into_repr` exposes). */
  type Fr = x: int | 0 <= x < P

  /** Rust's `u32`, the type of account indices. */
  type U32 = x: int | 0 <= x < 0x1_0000_0000

  /** Rust's `u128`, what the fixed-point decoder returns. */
  type U128 = x: int | 0 <= x < 0x1_0000_0000_0000_0000_0000_0000_0000_0000

  /** x and y denote the same field element. */
  predicate Congruent(x: int, y: int) {
    (x - y) % P == 0
  }

  /** `add_assign` on field elements. */
  function Add(a: Fr, b: Fr): Fr
  {
    if a + b < P then a + b else a + b - P
  }

  /** `sub_assign` on field elements: wraps around instead of going negative. */
  function Sub(a: Fr, b: Fr): Fr
  {
    if b <= a then a - b else a - b + P
  }

  /** Field addition agrees with integer addition modulo P. */
  lemma AddCongruent(a: Fr, b: Fr)
    ensures Congruent(Add(a, b), a + b)
    ensures Add(a, b) == (a + b) % P
  {
  }

  /** Field subtraction agrees with integer subtraction modulo P. */
  lemma SubCongruent(a: Fr, b: Fr)
    ensures Congruent(Sub(a, b), a - b)
    ensures Sub(a, b) == (a - b) % P
  {
  }

  /**
   * `Fr::from_str(&n.to_string())`: a decimal string is read digit by digit
   * with field multiplication and addition, so the value is reduced modulo P.
   */
  function FromStr(n: nat): (r: Fr)
    ensures Congruent(r, n)
    ensures n < P ==> r == n
  {
    n % P
  }

  lemma CongruentSum(x: int, y: int, u: int, v: int)
    requires Congruent(x, y) && Congruent(u, v)
    ensures Congruent(x + u, y + v)
  {
  }

  lemma CongruentTrans(x: int, y: int, z: int)
    requires Congruent(x, y) && Congruent(y, z)
    ensures Congruent(x, z)
  {
  }

  /** Reducing a canonical element leaves it alone. */
  lemma ModCanonical(a: Fr)
    ensures a % P == a
  {
  }

  /** The canonical element that denotes x. */
  lemma CongruentMod(r: Fr, x: int)
    requires Congruent(r, x)
    ensures r == x % P
  {
  }

  /**
   * `Fr::from_str(&v.to_string())` for a `u128`: every u128 is below P, so
   * the decimal round trip yields v itself.
   */
  function FromU128(v: U128): (r: Fr)
    ensures r == FromStr(v)
  {
    v
  }

  /** Two canonical elements that denote the same field element are equal. */
  lemma CongruentCanonical(a: Fr, b: Fr)
    requires Congruent(a, b)
    ensures a == b
  {
  }
}
