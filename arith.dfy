/** Small facts about multiplication and division that the solver does not find on its own. */
module Arith {
  lemma MulAtLeastOnce(m: int, k: int)
    requires 0 < m && 1 <= k
    ensures m <= m * k
  {
    assert m * k == m * (k - 1) + m;
    assert 0 <= m * (k - 1);
  }

  /** Euclidean division by a positive divisor is determined by quotient and remainder. */
  lemma DivModUnique(a: int, m: int, q: int, r: int)
    requires 0 < m && a == m * q + r && 0 <= r < m
    ensures a / m == q && a % m == r
  {
    var q0, r0 := a / m, a % m;
    assert a == m * q0 + r0;
    assert m * (q0 - q) == r - r0 by {
      assert m * (q0 - q) == m * q0 - m * q;
    }
    if q0 > q {
      MulAtLeastOnce(m, q0 - q);
    } else if q0 < q {
      MulAtLeastOnce(m, q - q0);
    }
  }

  lemma DivModParts(a: int, m: int)
    requires 0 < m
    ensures a == m * (a / m) + a % m && 0 <= a % m < m
  {
  }

  lemma MulDistrib(a: int, b: int, c: int)
    ensures a * (b + c) == a * b + a * c
  {
  }

  lemma MulAssoc(a: int, b: int, c: int)
    ensures a * (b * c) == (a * b) * c
  {
  }

  lemma MulNonneg(a: int, b: int)
    requires 0 <= a && 0 <= b
    ensures 0 <= a * b
  {
  }

  /** Dividing by `s` twice is dividing by `s * s`, and the two remainders rebuild the dividend. */
  lemma DivDiv(i: nat, s: nat)
    requires 1 <= s
    ensures (i / s) / s == i / (s * s)
    ensures i == i % s + s * ((i / s) % s) + s * s * ((i / s) / s)
  {
    var q, r := i / s, i % s;
    var q2, r2 := q / s, q % s;
    var ss := s * s;
    DivModParts(i, s);
    DivModParts(q, s);
    var sr := s * r2;
    MulDistrib(s, s * q2, r2);
    MulAssoc(s, s, q2);
    assert s * q == ss * q2 + sr;
    MulDistrib(s, s - 1, -r2);
    MulDistrib(s, s, -1);
    MulNonneg(s, s - 1 - r2);
    assert sr <= ss - s;
    assert i == ss * q2 + (sr + r);
    DivModUnique(i, ss, q2, sr + r);
  }

  lemma MulLe(a: real, b: real, e: real)
    requires a <= b && 0.0 <= e
    ensures a * e <= b * e && e * a <= e * b
  {
    assert b * e - a * e == (b - a) * e;
    assert 0.0 <= (b - a) * e;
  }

  lemma MulLt(a: real, b: real, e: real)
    requires a < b && 0.0 < e
    ensures a * e < b * e && e * a < e * b
  {
    assert b * e - a * e == (b - a) * e;
    assert 0.0 < (b - a) * e;
  }

  lemma MulUnitInterval(a: real, b: real)
    requires 0.0 <= a <= 1.0 && 0.0 <= b <= 1.0
    ensures 0.0 <= a * b <= 1.0
  {
    MulLe(0.0, a, b);
    MulLe(a, 1.0, b);
    assert a * b <= 1.0 * b;
    assert 1.0 * b == b;
  }

  /** A product with a positive factor has the sign of the other factor. */
  lemma SignOfFactor(x: real, n: real)
    requires 0.0 < n
    ensures 0.0 <= x * n ==> 0.0 <= x
    ensures 0.0 < x * n ==> 0.0 < x
  {
    if x < 0.0 {
      MulLt(x, 0.0, n);
    } else if x == 0.0 {
      assert x * n == 0.0;
    }
  }

  /** Division by a positive number keeps order, and `b / n < 1` when `b < n`. */
  lemma DivMono(a: real, b: real, n: real)
    requires a <= b && 0.0 < n
    ensures a / n <= b / n
    ensures b < n ==> b / n < 1.0
  {
    assert (b / n - a / n) * n == b - a;
    SignOfFactor(b / n - a / n, n);
    assert (1.0 - b / n) * n == n - b;
    SignOfFactor(1.0 - b / n, n);
  }

  /** Dividing a positive number by at least 1 gives a positive number no larger. */
  lemma QuotientBelow(a: real, d: real)
    requires 0.0 < a && 1.0 <= d
    ensures 0.0 < a / d <= a
  {
    assert (a - a / d) * d == a * d - a;
    MulLe(1.0, d, a);
    SignOfFactor(a - a / d, d);
    assert a / d * d == a;
    SignOfFactor(a / d, d);
  }

  lemma SquareNonneg(x: real)
    ensures 0.0 <= x * x
  {
    if 0.0 <= x {
      MulLe(0.0, x, x);
    } else {
      MulLe(x, 0.0, -x);
      assert x * -x == -(x * x);
    }
  }

  /** For a non-negative root `d` of `sq`: `d < l` exactly when `l` is positive and `sq < l * l`. */
  lemma RootBelow(d: real, sq: real, l: real)
    requires 0.0 <= d && d * d == sq
    ensures d < l <==> 0.0 < l && sq < l * l
  {
    var dd, dl, ll := d * d, d * l, l * l;
    if d < l {
      assert dd <= dl by { assert dl - dd == d * (l - d); }
      assert dl < ll by { assert ll - dl == l * (l - d); }
    } else if 0.0 < l {
      assert ll <= dl by { assert dl - ll == l * (d - l); }
      assert dl <= dd by { assert dd - dl == d * (d - l); }
    }
  }
}
