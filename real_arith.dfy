/** Facts about multiplication and division of reals that the proofs about
    range mapping and clamping rely on. Every product and quotient in them is
    taken between plain variables, so that a caller can apply them to
    function applications without the solver having to rewrite a factor. */
module RealArith {

  /** `v` lies in the closed interval spanned by `a` and `b`, in either order. */
  predicate Between(v: real, a: real, b: real) {
    if a <= b then a <= v <= b else b <= v <= a
  }

  /** The signed distance from `lo` to `hi`. */
  function Span(lo: real, hi: real): real {
    hi - lo
  }

  lemma DivMul(d: real, w: real)
    requires w != 0.0
    ensures d / w * w == d
  {
  }

  lemma Cancel(p: real, q: real, w: real)
    requires w != 0.0 && p * w == q * w
    ensures p == q
  {
  }

  lemma ZeroDiv(d: real, w: real)
    requires d == 0.0 && w != 0.0
    ensures d / w == 0.0
  {
  }

  lemma SelfDiv(d: real, w: real)
    requires d == w && w != 0.0
    ensures d / w == 1.0
  {
  }

  lemma DivOne(d: real, w: real)
    requires w == 1.0
    ensures d / w == d
  {
  }

  lemma ZeroFactor(a: real, c: real)
    requires a == 0.0
    ensures a * c == 0.0
  {
  }

  lemma UnitFactor(a: real, c: real)
    requires a == 1.0
    ensures a * c == c
  {
  }

  lemma HalfFactor(a: real, c: real)
    requires a == 0.5
    ensures a * c == c / 2.0
  {
  }

  /** Multiplying by a non-negative factor keeps the order. */
  lemma MulMonotone(a: real, b: real, c: real)
    requires a <= b && c >= 0.0
    ensures a * c <= b * c
  {
  }

  /** A factor of at least one does not shrink a non-negative product. */
  lemma AtLeastUnit(a: real, c: real)
    requires a >= 1.0 && c >= 0.0
    ensures a * c >= c
  {
    MulMonotone(1.0, a, c);
  }

  /** A non-positive factor makes a product with a non-negative `c`
      non-positive. */
  lemma NonPositiveFactor(a: real, c: real)
    requires a <= 0.0 && c >= 0.0
    ensures a * c <= 0.0
  {
    MulMonotone(a, 0.0, c);
  }

  /** A factor of at most minus one turns a non-negative `c` into at most `-c`. */
  lemma AtMostMinusUnit(a: real, c: real)
    requires a <= -1.0 && c >= 0.0
    ensures a * c <= -c
  {
    MulMonotone(a, -1.0, c);
  }

  /** Products with a common positive factor keep the order of the other
      factors. */
  lemma FactorMonotone(a: real, b: real, w: real)
    requires w > 0.0 && a * w <= b * w
    ensures a <= b
  {
  }

  /** If `t * w == d` and `d` lies between 0 and `w`, then `t` lies in [0, 1]. */
  lemma FactorInUnit(t: real, w: real, d: real)
    requires w != 0.0 && t * w == d && Between(d, 0.0, w)
    ensures 0.0 <= t <= 1.0
  {
  }

  /** A factor in [0, 1] keeps a product between 0 and the other factor. */
  lemma ProductBetween(t: real, c: real)
    requires 0.0 <= t <= 1.0
    ensures Between(t * c, 0.0, c)
  {
    if c >= 0.0 {
      MulMonotone(0.0, t, c);
      MulMonotone(t, 1.0, c);
    } else {
      MulMonotone(0.0, t, -c);
      MulMonotone(t, 1.0, -c);
    }
  }

  lemma Rearrange(a: real, b: real, c: real)
    ensures (a * b) * c == (a * c) * b
  {
  }

  /** `d * s / w` is `d / w` scaled by `s`. */
  lemma MulDivAssoc(d: real, s: real, w: real)
    requires w != 0.0
    ensures d * s / w == d / w * s
  {
    DivMul(d, w);
    DivMul(d * s, w);
    Rearrange(d / w, s, w);
    Cancel(d * s / w, d / w * s, w);
  }

  /** Measured from the other end of an interval of width `w`, a point whose
      fraction is `t` has fraction `1 - t`: `d` and `e` are its distances from
      the two ends, and `v == -w` is the width seen from the far end. */
  lemma Complement(t: real, u: real, w: real, v: real, d: real, e: real)
    requires w != 0.0 && v == -w && d - e == w
    requires t * w == d && u * v == e
    ensures u == 1.0 - t
  {
    assert u * v == -(u * w);
    assert (u + t) * w == u * w + t * w;
    Cancel(u + t, 1.0, w);
  }

  /** Scaling `1 - t` along the reversed range reaches the same point as
      scaling `t` along the range. */
  lemma ReverseScale(t: real, u: real, s: real, v: real, lo: real, hi: real)
    requires u == 1.0 - t && s == hi - lo && v == -s
    ensures u * v + hi == t * s + lo
  {
    assert u * v == -(u * s);
    assert (1.0 - t) * s == s - t * s;
  }

  /** Multiplying `q < r + 1` by a positive `f`, written without a compound
      factor. */
  lemma MulStrictShift(q: real, r: real, f: real)
    requires q < r + 1.0 && f > 0.0
    ensures q * f < r * f + f
  {
    assert (r + 1.0) * f == r * f + f;
  }

  /** The reciprocal reverses the order of positive reals. */
  lemma ReciprocalAntitone(a: real, b: real)
    requires 0.0 < a <= b
    ensures 0.0 < 1.0 / b <= 1.0 / a
  {
    DivMul(1.0, a);
    DivMul(1.0, b);
    MulMonotone(a, b, 1.0 / a);
    Rearrange(1.0 / a, a, b);
    FactorMonotone(1.0 / b, 1.0 / a, b);
  }
}
