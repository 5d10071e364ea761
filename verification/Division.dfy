/** Facts about products and quotients that the arithmetic engines share. */
module Division {

  lemma MulIsMonotone(x: int, y: int, z: nat)
    requires x <= y
    ensures x * z <= y * z
  {
  }

  lemma LessCancels(a: int, b: int, den: nat)
    requires a * den < b * den
    ensures a < b
  {
    if b <= a {
      MulIsMonotone(b, a, den);
    }
  }

  /** `q <= y / den` exactly when `q * den <= y`. */
  lemma DivBounds(y: int, q: int, den: int)
    requires 0 < den
    ensures q * den <= y ==> q <= y / den
    ensures y < (q + 1) * den ==> y / den <= q
  {
    var k := y / den;
    assert y == k * den + y % den && (k + 1) * den == k * den + den && (q + 1) * den == q * den + den;
    if q * den <= y {
      LessCancels(q, k + 1, den);
    }
    if y < (q + 1) * den {
      LessCancels(k, q + 1, den);
    }
  }

  /** The quotient of a division. */
  lemma Quotient(x: nat, den: int)
    requires den > 0
    ensures x / den * den <= x < (x / den + 1) * den
    ensures x / den >= 0 && (x / den >= 1 <==> den <= x)
  {
    assert x == x / den * den + x % den;
    DivBounds(x, 0, den);
    DivBounds(x, 1, den);
  }

  lemma DivIsMonotone(x: int, y: int, den: int)
    requires 0 <= x <= y && 0 < den
    ensures 0 <= x / den <= y / den
  {
    assert x == x / den * den + x % den;
    DivBounds(x, 0, den);
    DivBounds(y, x / den, den);
  }
}
