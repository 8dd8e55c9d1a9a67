/** Java's 32-bit `int`: its range, two's-complement wrap-around and truncating division. */
module JavaInt {

  const MIN: int := -0x8000_0000
  const MAX: int := 0x7FFF_FFFF
  const MODULUS: int := 0x1_0000_0000

  predicate IsInt(x: int) {
    MIN <= x <= MAX
  }

  /** The value a Java `int` expression holds when the exact result is `x`. */
  function Wrap(x: int): (r: int)
    ensures IsInt(r)
    ensures (x - r) % MODULUS == 0
    ensures IsInt(x) ==> r == x
  {
    if IsInt(x) then x else (x - MIN) % MODULUS + MIN
  }

  /** Java's `/` on `int`, which rounds toward zero (Dafny's `/` is Euclidean). */
  function Div(a: int, b: int): (q: int)
    requires b > 0
    ensures 0 <= a ==> 0 <= q && q * b <= a < q * b + b
    ensures a < 0 ==> q <= 0 && q * b - b < a <= q * b
  {
    if a >= 0 then a / b else -((-a) / b)
  }

  /** Halving an int stays within half the int range, and agrees with `/` on non-negative values. */
  lemma HalfRange(a: int)
    requires IsInt(a)
    ensures -0x4000_0000 <= Div(a, 2) <= 0x3FFF_FFFF
    ensures 0 <= a ==> Div(a, 2) == a / 2
  {
  }

  /** A positive `t` times a non-zero integer is at least `t` away from 0. */
  lemma ScaledAway(t: int, k: int)
    requires t > 0
    ensures k >= 1 ==> t * k >= t
    ensures k <= -1 ==> t * k <= -t
  {
    if k >= 1 {
      assert t * k == t * (k - 1) + t;
    } else if k <= -1 {
      assert t * k == t * (k + 1) - t;
    }
  }

  /** Quotient and remainder are unique: q * t + r with 0 <= r < t divides back to q and r. */
  lemma DivModUnique(a: int, t: int, q: int, r: int)
    requires t > 0 && 0 <= r < t && a == q * t + r
    ensures a / t == q && a % t == r
  {
    var q', r' := a / t, a % t;
    assert a == t * q' + r' && 0 <= r' < t;
    assert t * (q - q') == r' - r;
    ScaledAway(t, q - q');
  }

  /** An index below t * n lies in row k / t < n, column k % t < t, of a t-wide grid. */
  lemma DivBelow(k: int, t: int, n: int)
    requires t > 0 && 0 <= k < t * n
    ensures 0 <= k / t < n && 0 <= k % t < t
  {
    var q, r := k / t, k % t;
    assert k == t * q + r && 0 <= r < t;
    ScaledAway(t, q - n);
    ScaledAway(t, q);
    assert t * (q - n) == t * q - t * n;
  }
}
