/**
 Signs and bounds of products and quotients of reals.  Each lemma hands back the
 value of the product, so that its callers reason linearly.
 */
module Reals {

  lemma Positive(u: real, v: real) returns (s: real)
    requires u > 0.0 && v > 0.0
    ensures s == u * v && s > 0.0
  {
    s := u * v;
  }

  lemma NonNegative(u: real, v: real) returns (s: real)
    requires u >= 0.0 && v >= 0.0
    ensures s == u * v && s >= 0.0
  {
    if u == 0.0 || v == 0.0 {
      s := 0.0;
    } else {
      s := Positive(u, v);
    }
  }

  lemma NonPositive(u: real, v: real) returns (s: real)
    requires u >= 0.0 && v <= 0.0
    ensures s == u * v && s <= 0.0
  {
    var t := NonNegative(u, -v);
    s := -t;
  }

  lemma Square(w: real) returns (s: real)
    ensures s == w * w && s >= 0.0 && (w != 0.0 ==> s > 0.0)
  {
    if w > 0.0 {
      s := Positive(w, w);
    } else if w < 0.0 {
      s := Positive(-w, -w);
    } else {
      s := 0.0;
    }
  }

  lemma Quotient(u: real, d: real) returns (s: real)
    requires d > 0.0
    ensures s == u / d && s * d == u
    ensures u >= 0.0 ==> s >= 0.0
  {
    s := u / d;
    if u >= 0.0 && s < 0.0 {
      var _ := Positive(-s, d);
    }
  }

  /** A bound on a quotient is a bound on its numerator. */
  lemma QuotientBounds(u: real, d: real, low: real, high: real)
    requires d > 0.0
    ensures low <= u / d <= high <==> low * d <= u <= high * d
  {
    var s := Quotient(u, d);
    OrderScaled(d, low, s);
    OrderScaled(d, s, high);
  }

  /** Multiplying by a positive number keeps an order and reflects it. */
  lemma OrderScaled(d: real, p: real, q: real)
    requires d > 0.0
    ensures p <= q <==> p * d <= q * d
  {
    if p <= q {
      var s := NonNegative(q - p, d);
      Difference(p, q, d, s);
    } else {
      var s := Positive(p - q, d);
      Difference(q, p, d, s);
    }
  }

  lemma QuotientMonotone(u: real, v: real, d: real)
    requires d > 0.0 && u <= v
    ensures u / d <= v / d
  {
    var s := Quotient(u, d);
    var t := Quotient(v, d);
    OrderScaled(d, s, t);
  }

  lemma Difference(p: real, q: real, d: real, s: real)
    requires s == (q - p) * d
    ensures s == q * d - p * d
  {
  }

  /** Equal multiples of a positive number are multiples by equal factors. */
  lemma Cancel(x: real, y: real, d: real)
    requires d > 0.0 && x * d == y * d
    ensures x == y
  {
    OrderScaled(d, x, y);
    OrderScaled(d, y, x);
  }

  /** A divisor may change its factor. */
  lemma QuotientMoves(u: real, v: real, d: real)
    requires d > 0.0
    ensures u * (v / d) == u / d * v
  {
    var s := Quotient(u, d);
    var t := Quotient(v, d);
    Regroup(s, d, t);
    assert u * t == s * d * t && s * v == s * (t * d);
  }

  lemma Regroup(s: real, d: real, t: real)
    ensures s * d * t == s * (t * d)
  {
  }

  /** A fraction of a length lies within the length. */
  lemma Fraction(last: real, p: real)
    requires last >= 0.0 && 0.0 <= p <= 1.0
    ensures 0.0 <= last * p <= last
  {
    var s := NonNegative(last, p);
    var t := NonNegative(last, 1.0 - p);
    assert t == last - s;
  }

  /** One more term keeps the bounds on a sum of k terms. */
  lemma AddTerm(low: real, high: real, k: real, v: real, total: real)
    requires low <= v <= high && low * k <= total <= high * k
    ensures low * (k + 1.0) <= v + total <= high * (k + 1.0)
  {
    assert low * (k + 1.0) == low * k + low && high * (k + 1.0) == high * k + high;
  }

  lemma QuotientOfDifference(a: real, b: real, n: real)
    requires n > 0.0
    ensures (a - b) / n == a / n - b / n
  {
  }
}
