/**
 The two conversions of Rust's `f64` that the altitude rules rely on, over exact reals:
 the cast `r as i64` and the method `a.div_euclid(c)`. Saturation at the `i64` range,
 NaN and IEEE-754 rounding are not modelled.
 */
module RustNumeric {

  /** `r as i64`: rounds toward zero, so it differs from `Floor` on negative non-integers. */
  function Trunc(r: real): (t: int)
    ensures 0.0 <= r ==> 0 <= t && t as real <= r < t as real + 1.0
    ensures r < 0.0 ==> t <= 0 && t as real - 1.0 < r <= t as real
  {
    if r >= 0.0 then r.Floor else -((-r).Floor)
  }

  /**
   `a % c` on `f64` for a positive divisor: the remainder of the truncating division,
   carrying the sign of `a`. RemMultiple and RemNegativeExactly pin down its value.
   */
  function Rem(a: real, c: real): (m: real)
    requires c > 0.0
    ensures 0.0 <= a ==> 0.0 <= m < c
    ensures a < 0.0 ==> -c < m <= 0.0
  {
    var t := Trunc(a / c) as real;
    TruncQuotientBand(a, c, t);
    a - c * t
  }

  /** `a` minus its remainder is a whole number of divisors. */
  lemma RemMultiple(a: real, c: real)
    requires c > 0.0
    ensures ((a - Rem(a, c)) / c).Floor as real == (a - Rem(a, c)) / c
  {
    var t := Trunc(a / c) as real;
    assert a - Rem(a, c) == c * t;
    assert (c * t) / c == t;
  }

  /**
   The remainder is negative exactly when `a` is negative and not a whole multiple of `c`:
   the only case in which `div_euclid` steps below the truncated quotient.
   */
  lemma RemNegativeExactly(a: real, c: real)
    requires c > 0.0
    ensures Rem(a, c) < 0.0 <==> a < 0.0 && (a / c).Floor as real != a / c
  {
    var y := a / c;
    var t := Trunc(y) as real;
    MulDivCancel(a, c);
    assert Rem(a, c) == c * (y - t) by {
      calc { Rem(a, c); == a - c * t; == y * c - c * t; == c * (y - t); }
    }
    MulSign(c, y - t);
    MulSign(c, y);
    TruncAboveExactly(y);
  }

  /** Truncation lands above its input exactly for negative non-integers. */
  lemma TruncAboveExactly(y: real)
    ensures y < Trunc(y) as real <==> y < 0.0 && y.Floor as real != y
  {
    if y < 0.0 {
      WholeNegation(y);
    }
  }

  /** `y` is a whole number exactly when `-y` is. */
  lemma WholeNegation(y: real)
    ensures y.Floor as real == y <==> (-y).Floor as real == -y
  {
    if y.Floor as real == y {
      var n := y.Floor;
      var m: int := -n;
      assert -y == m as real;
      assert (m as real).Floor == m;
    }
    if (-y).Floor as real == -y {
      var n := (-y).Floor;
      var m: int := -n;
      assert y == m as real;
      assert (m as real).Floor == m;
    }
  }

  lemma MulSign(c: real, d: real)
    requires c > 0.0
    ensures c * d < 0.0 <==> d < 0.0
  {
    if d < 0.0 { MulMono(d, 0.0, c); } else { MulMono(0.0, d, c); }
  }

  /**
   `a.div_euclid(c)` for a positive divisor, computed the way Rust's standard library does:
   truncate the quotient, then step down by one when the truncated remainder is negative.
   The result is the unique integer band `q` with `q * c <= a < (q + 1) * c`.
   */
  function DivEuclid(a: real, c: real): (q: int)
    requires c > 0.0
    ensures q as real * c <= a < (q as real + 1.0) * c
  {
    var t := Trunc(a / c);
    TruncQuotientBand(a, c, t as real);
    if Rem(a, c) < 0.0 then t - 1 else t
  }

  /** The truncated quotient brackets `a` from below when `a >= 0` and from above otherwise. */
  lemma TruncQuotientBand(a: real, c: real, t: real)
    requires c > 0.0 && t == Trunc(a / c) as real
    ensures 0.0 <= a ==> t * c <= a < (t + 1.0) * c
    ensures a < 0.0 ==> (t - 1.0) * c < a <= t * c
  {
    var y := a / c;
    MulDivCancel(a, c);
    assert y * c == a;
    assert 0.0 <= a <==> 0.0 <= y by {
      if 0.0 <= y { MulMono(0.0, y, c); } else { MulMono(y, 0.0, c); }
    }
    if 0.0 <= y {
      MulMono(t, y, c);
      MulMono(y, t + 1.0, c);
      calc { a; == y * c; < (t + 1.0) * c; }
    } else {
      MulMono(t - 1.0, y, c);
      MulMono(y, t, c);
      calc { (t - 1.0) * c; < y * c; == a; }
    }
  }

  /** Euclidean division by a positive divisor is the floor of the exact quotient. */
  lemma DivEuclidIsFloor(a: real, c: real)
    requires c > 0.0
    ensures DivEuclid(a, c) == (a / c).Floor
  {
    FloorBand(a, c);
    BandUnique(a, c, DivEuclid(a, c), (a / c).Floor);
  }

  /** The floor of the exact quotient is a band that contains `a`. */
  lemma FloorBand(a: real, c: real)
    requires c > 0.0
    ensures (a / c).Floor as real * c <= a < ((a / c).Floor as real + 1.0) * c
  {
    var y := a / c;
    var f := y.Floor as real;
    MulDivCancel(a, c);
    MulMono(f, y, c);
    MulMono(y, f + 1.0, c);
    calc { f * c; <= y * c; == a; }
    calc { a; == y * c; < (f + 1.0) * c; }
  }

  /** Two integer bands that both contain `a` are the same band. */
  lemma BandUnique(a: real, c: real, p: int, q: int)
    requires c > 0.0
    requires p as real * c <= a < (p as real + 1.0) * c
    requires q as real * c <= a < (q as real + 1.0) * c
    ensures p == q
  {
    if p < q {
      MulMono(p as real + 1.0, q as real, c);
      calc {
        (p as real + 1.0) * c;
      <= q as real * c;
      <= a;
      < (p as real + 1.0) * c;
      }
    } else if q < p {
      MulMono(q as real + 1.0, p as real, c);
      calc {
        (q as real + 1.0) * c;
      <= p as real * c;
      <= a;
      < (q as real + 1.0) * c;
      }
    }
  }

  /** Euclidean division by a positive divisor is nondecreasing in the dividend. */
  lemma DivEuclidMonotone(a: real, b: real, c: real)
    requires c > 0.0 && a <= b
    ensures DivEuclid(a, c) <= DivEuclid(b, c)
  {
    DivEuclidIsFloor(a, c);
    DivEuclidIsFloor(b, c);
    FloorBand(a, c);
    FloorBand(b, c);
    BandMonotone(a, b, c, (a / c).Floor, (b / c).Floor);
  }

  /** A band reaching down to `a` lies no higher than a band reaching up past `b >= a`. */
  lemma BandMonotone(a: real, b: real, c: real, p: int, q: int)
    requires c > 0.0 && a <= b
    requires p as real * c <= a && b < (q as real + 1.0) * c
    ensures p <= q
  {
    if q < p {
      MulMono(q as real + 1.0, p as real, c);
      calc {
        (q as real + 1.0) * c;
      <= p as real * c;
      <= a;
      <= b;
      < (q as real + 1.0) * c;
      }
    }
  }

  lemma MulDivCancel(a: real, c: real)
    requires c != 0.0
    ensures (a / c) * c == a
  {
  }

  lemma MulMono(u: real, v: real, c: real)
    requires c > 0.0
    ensures u <= v ==> u * c <= v * c
    ensures u < v ==> u * c < v * c
  {
  }
}
