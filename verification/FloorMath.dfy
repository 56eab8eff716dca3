/**
 Integer arithmetic as the contracts use it: floored and ceiled `a * b / d` on unsigned values, and the
 few multiplication facts the proofs need. Everything non-linear in the project is settled here.
 */
module FloorMath {

  const BPS: nat := 10_000

  function Min(a: nat, b: nat): nat {
    if a < b then a else b
  }

  /** `q` is `n / d` rounded down, said by the two inequalities that make it so. */
  ghost predicate IsFloor(q: int, n: int, d: int) {
    q * d <= n < q * d + d
  }

  /** floor(a * b / d), the checked `a * b / d` and `Math.mulDiv`. */
  function MulDiv(a: nat, b: nat, d: nat): (q: nat)
    requires d > 0
    ensures q * d <= a * b < q * d + d
  {
    DivBounds(a * b, d);
    a * b / d
  }

  /** ceil(a * b / d), `Math.mulDiv` with `Rounding.Ceil`. */
  function MulDivUp(a: nat, b: nat, d: nat): (q: nat)
    requires d > 0
    ensures q * d >= a * b
    ensures q * d < a * b + d
  {
    var q := MulDiv(a, b, d);
    if q * d == a * b then q else q + 1
  }

  lemma DivBounds(n: nat, d: nat)
    requires d > 0
    ensures 0 <= n / d
    ensures n / d * d <= n < n / d * d + d
  {
    assert n == d * (n / d) + n % d;
  }

  /** a * c <= b * c gives a <= b, and the strict form. */
  lemma CancelLe(a: int, b: int, c: int)
    requires c > 0 && a * c <= b * c
    ensures a <= b
  {
    if a > b {
      MulLe(b + 1, a, c);
    }
  }

  lemma CancelLt(a: int, b: int, c: int)
    requires c > 0 && a * c < b * c
    ensures a < b
  {
    if a >= b {
      MulLe(b, a, c);
    }
  }

  lemma MulLe(a: int, b: int, c: int)
    requires a <= b && 0 <= c
    ensures a * c <= b * c
  {
    assert (b - a) * c >= 0;
  }

  lemma Distribute(a: int, b: int, c: int)
    ensures (a + b) * c == a * c + b * c
    ensures (a - b) * c == a * c - b * c
    ensures c * (a + b) == c * a + c * b
    ensures c * (a - b) == c * a - c * b
  {
  }

  /** A floored quotient is the only integer between its two bounds. */
  lemma MulDivUnique(a: nat, b: nat, d: nat, q: nat)
    requires d > 0 && q * d <= a * b < q * d + d
    ensures MulDiv(a, b, d) == q
  {
    var p := MulDiv(a, b, d);
    CancelLt(p, q + 1, d);
    CancelLt(q, p + 1, d);
  }

  lemma MulDivMonotone(a: nat, a': nat, b: nat, d: nat)
    requires d > 0 && a <= a'
    ensures MulDiv(a, b, d) <= MulDiv(a', b, d)
  {
    MulLe(a, a', b);
    CancelLt(MulDiv(a, b, d), MulDiv(a', b, d) + 1, d);
  }

  /** b <= d keeps the share at or below the whole; b < d and a > 0 keep it strictly below. */
  lemma ShareOfWhole(a: nat, b: nat, d: nat)
    requires d > 0 && b <= d
    ensures MulDiv(a, b, d) <= a
    ensures 0 < a && b < d ==> MulDiv(a, b, d) < a
  {
    MulLe(b, d, a);
    CancelLe(MulDiv(a, b, d), a, d);
    if 0 < a && b < d {
      assert a * b < a * d;
      CancelLt(MulDiv(a, b, d), a, d);
    }
  }

  /** Two floors fall short of the floor of the sum by at most one. */
  lemma FloorOfSum(a: nat, a': nat, b: nat, d: nat)
    requires d > 0
    ensures MulDiv(a, b, d) + MulDiv(a', b, d) <= MulDiv(a + a', b, d) <= MulDiv(a, b, d) + MulDiv(a', b, d) + 1
  {
    var p, q, r := MulDiv(a, b, d), MulDiv(a', b, d), MulDiv(a + a', b, d);
    Distribute(a, a', b);
    Distribute(p, q, d);
    Distribute(p + q, 2, d);
    Distribute(r, 1, d);
    CancelLt(p + q, r + 1, d);
    CancelLt(r, p + q + 2, d);
  }

  /** A constant-product swap pays out less than the whole reserve and never lowers the product. */
  lemma SwapKeepsProduct(x: nat, y: nat, dx: nat)
    requires x + dx > 0
    ensures var dy := MulDiv(y, dx, x + dx);
            dy <= y && (0 < x && 0 < y ==> dy < y) && (x + dx) * (y - dy) >= x * y
  {
    var dy := MulDiv(y, dx, x + dx);
    ShareOfWhole(y, dx, x + dx);
    assert (x + dx) * (y - dy) == (x + dx) * y - dy * (x + dx);
    assert (x + dx) * y == x * y + y * dx;
  }

  /** If x * t is at least v * t0 and t does not exceed t0, then x is at least v. */
  lemma ProductFloor(x: nat, t: nat, v: nat, t0: nat)
    requires 0 < t <= t0 && x * t >= v * t0
    ensures x >= v
  {
    MulLe(t, t0, v);
    CancelLe(v, x, t);
  }
}
