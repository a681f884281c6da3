/** Interval estimates and interpolated quantiles, over the reals. */
module Statistics {
  import opened Wrappers
  import opened Reals

  // ---------------------------------------------------------------- the Wilson score interval

  datatype Interval = Interval(lower: real, upper: real)

  /** The observed rate p. */
  function Rate(successes: nat, count: nat): real
    requires count >= 1
  {
    successes as real / count as real
  }

  /** The weight of the prior spread, z*z/n. */
  function Weight(count: nat, z: real): (a: real)
    requires count >= 1
    ensures a >= 0.0
  {
    SquareOverPositive(z, count as real);
    z * z / count as real
  }

  /** The number under the square root. */
  function Radicand(successes: nat, count: nat, z: real): real
    requires count >= 1
  {
    var n, p := count as real, Rate(successes, count);
    p * (1.0 - p) / n + z * z / (4.0 * n * n)
  }

  /** The bounds before they are clamped to the unit interval; `root` is the square root of the radicand. */
  function RawWilson(successes: nat, count: nat, z: real, root: real): Interval
    requires count >= 1
  {
    var n, p := count as real, Rate(successes, count);
    var d := 1.0 + Weight(count, z);
    var center := (p + z * z / (2.0 * n)) / d;
    var margin := z * root / d;
    Interval(center - margin, center + margin)
  }

  lemma SquareOverPositive(z: real, n: real)
    requires n > 0.0
    ensures z * z / n >= 0.0
  {
    var q := Square(z);
    var s := Quotient(q, n);
  }

  function Wilson(successes: nat, count: nat, z: real, root: real): Option<Interval> {
    if count == 0 then None
    else
      var raw := RawWilson(successes, count, z, root);
      Some(Interval(if raw.lower > 0.0 then raw.lower else 0.0, if raw.upper < 1.0 then raw.upper else 1.0))
  }

  predicate ScoreOk(p: real, a: real, x: real) {
    (p - x) * (p - x) <= a * (x * (1.0 - x))
  }

  /** A rate x is consistent with the observed rate: its score statistic is at most z. */
  predicate Consistent(successes: nat, count: nat, z: real, x: real)
    requires count >= 1
  {
    ScoreOk(Rate(successes, count), Weight(count, z), x)
  }

  /** With a = z*z/n and m = z*root: the algebra behind the interval. */
  lemma ScoreAlgebra(p: real, a: real, m: real, x: real)
    requires a >= 0.0 && IsMargin(p, a, m)
    ensures p + a / 2.0 - m <= x * (1.0 + a) <= p + a / 2.0 + m <==> ScoreOk(p, a, x)
  {
    var d, t := 1.0 + a, x * (1.0 + a) - (p + a / 2.0);
    assert t * t - m * m == d * ((p - x) * (p - x) - a * (x * (1.0 - x))) by {
      calc {
        t * t - m * m;
        x * d * (x * d) - 2.0 * (x * d) * (p + a / 2.0) + (p + a / 2.0) * (p + a / 2.0) - (a * p * (1.0 - p) + a * a / 4.0);
        { assert (p + a / 2.0) * (p + a / 2.0) == p * p + p * a + a * a / 4.0; }
        x * d * (x * d) - 2.0 * (x * d) * (p + a / 2.0) + p * p * d;
        d * (x * x * d - 2.0 * x * (p + a / 2.0) + p * p);
        d * ((p - x) * (p - x) - a * (x * (1.0 - x)));
      }
    }
    SquareBound(t, m);
    SignOfProduct(d, (p - x) * (p - x) - a * (x * (1.0 - x)));
  }

  lemma SquareBound(t: real, m: real)
    requires m >= 0.0
    ensures -m <= t <= m <==> t * t - m * m <= 0.0
  {
    if t > m {
      var s := Positive(t - m, t + m);
      assert s == t * t - m * m;
    } else if t < -m {
      var s := Positive(m - t, -m - t);
      assert s == t * t - m * m;
    } else {
      var s := NonNegative(m - t, m + t);
      assert s == m * m - t * t;
    }
  }

  lemma SignOfProduct(d: real, y: real)
    requires d > 0.0
    ensures d * y <= 0.0 <==> y <= 0.0
  {
    if y > 0.0 {
      var s := Positive(d, y);
    } else {
      var s := NonPositive(d, y);
    }
  }

  /** The raw interval is exactly the set of rates consistent with the observation. */
  lemma WilsonIsTheScoreInterval(successes: nat, count: nat, z: real, root: real, x: real)
    requires successes <= count && count >= 1 && z >= 0.0 && root >= 0.0
    requires root * root == Radicand(successes, count, z)
    ensures var raw := RawWilson(successes, count, z, root);
      raw.lower <= x <= raw.upper <==> Consistent(successes, count, z, x)
  {
    var m := RawBounds(successes, count, z, root);
    hide RawWilson, Radicand, Rate, Weight, ScoreOk;
    BoundsAreScores(Rate(successes, count), Weight(count, z), m, RawWilson(successes, count, z, root), x);
  }

  /** The bounds in terms of the rate p, the weight a and the scaled root m. */
  ghost predicate HasBounds(raw: Interval, p: real, a: real, m: real) {
    1.0 + a > 0.0 && raw == Interval((p + a / 2.0) / (1.0 + a) - m / (1.0 + a), (p + a / 2.0) / (1.0 + a) + m / (1.0 + a))
  }

  ghost predicate IsMargin(p: real, a: real, m: real) {
    m >= 0.0 && m * m == a * p * (1.0 - p) + a * a / 4.0
  }

  lemma RawBounds(successes: nat, count: nat, z: real, root: real) returns (m: real)
    requires count >= 1 && z >= 0.0 && root >= 0.0
    requires root * root == Radicand(successes, count, z)
    ensures IsMargin(Rate(successes, count), Weight(count, z), m)
    ensures HasBounds(RawWilson(successes, count, z, root), Rate(successes, count), Weight(count, z), m)
  {
    m := NonNegative(z, root);
    HalfOfQuotient(z * z, count as real);
    MarginSquared(Rate(successes, count), count as real, z, root);
  }

  lemma BoundsAreScores(p: real, a: real, m: real, raw: Interval, x: real)
    requires a >= 0.0 && IsMargin(p, a, m) && HasBounds(raw, p, a, m)
    ensures raw.lower <= x <= raw.upper <==> ScoreOk(p, a, x)
  {
    hide ScoreOk, IsMargin;
    ScoreAlgebra(p, a, m, x);
    DividedBounds(p + a / 2.0, m, 1.0 + a, x);
  }

  lemma HalfOfQuotient(q: real, n: real)
    requires n > 0.0
    ensures q / (2.0 * n) == q / n / 2.0
  {
    var h := q / (2.0 * n);
    assert h * (2.0 * n) == q;
    assert 2.0 * h * n == q;
  }

  lemma DividedBounds(c: real, m: real, d: real, x: real)
    requires d > 0.0
    ensures c / d - m / d <= x <= c / d + m / d <==> c - m <= x * d <= c + m
  {
    var u := Quotient(c, d);
    var v := Quotient(m, d);
    OrderScaled(d, u - v, x);
    OrderScaled(d, x, u + v);
    assert (u - v) * d == c - m && (u + v) * d == c + m;
  }

  lemma MarginSquared(p: real, n: real, z: real, root: real)
    requires n > 0.0 && root * root == p * (1.0 - p) / n + z * z / (4.0 * n * n)
    ensures var a, m := z * z / n, z * root; m * m == a * p * (1.0 - p) + a * a / 4.0
  {
    var q, v := z * z, p * (1.0 - p);
    var spread, correction := v / n, q / (4.0 * n * n);
    QuotientMoves(q, v, n);
    QuarterOfSquare(q, n);
    MarginParts(z, root, spread, correction);
    ThreeFactors(q / n, p, 1.0 - p);
  }

  lemma MarginParts(z: real, root: real, spread: real, correction: real)
    requires root * root == spread + correction
    ensures z * root * (z * root) == z * z * spread + z * z * correction
  {
    assert z * root * (z * root) == z * z * (root * root);
  }

  lemma ThreeFactors(a: real, p: real, r: real)
    ensures a * (p * r) == a * p * r
  {
  }

  /** With a = q/n, the product of q and q/(4*n*n) is a quarter of a squared. */
  lemma QuarterOfSquare(q: real, n: real)
    requires n > 0.0
    ensures q * (q / (4.0 * n * n)) == q / n * (q / n) / 4.0
  {
    var a := Quotient(q, n);
    var square := Positive(n, n);
    var f := Quotient(q, 4.0 * square);
    Regrouped(f, n, square);
    assert f * (4.0 * square) == a * n;
    Cancel(4.0 * (f * n), a, n);
    assert 4.0 * n * n == 4.0 * square;
    SwapFactors(a, n, f);
  }

  lemma Regrouped(f: real, n: real, square: real)
    requires square == n * n
    ensures f * (4.0 * square) == 4.0 * (f * n) * n
  {
    assert f * square == f * n * n;
  }

  lemma SwapFactors(a: real, n: real, f: real)
    ensures a * n * f == a * (f * n)
  {
  }

  /** The bounds lie in the unit interval and enclose the observed rate before any clamping, so clamping changes nothing. */
  lemma ClampingNeverMatters(successes: nat, count: nat, z: real, root: real)
    requires successes <= count && count >= 1 && z >= 0.0 && root >= 0.0
    requires root * root == Radicand(successes, count, z)
    ensures var raw := RawWilson(successes, count, z, root);
      && 0.0 <= raw.lower <= Rate(successes, count) <= raw.upper <= 1.0
      && Wilson(successes, count, z, root) == Some(raw)
  {
    hide RawWilson, Radicand, Rate, Consistent;
    var raw := RawWilson(successes, count, z, root);
    RateIsConsistent(successes, count, z);
    WilsonIsTheScoreInterval(successes, count, z, root, Rate(successes, count));
    WilsonIsTheScoreInterval(successes, count, z, root, raw.lower);
    WilsonIsTheScoreInterval(successes, count, z, root, raw.upper);
    ConsistentRatesAreRates(successes, count, z, raw.lower);
    ConsistentRatesAreRates(successes, count, z, raw.upper);
  }

  lemma RateInUnit(successes: nat, count: nat)
    requires successes <= count && count >= 1
    ensures 0.0 <= Rate(successes, count) <= 1.0
  {
    QuotientBounds(successes as real, count as real, 0.0, 1.0);
  }

  lemma RateIsConsistent(successes: nat, count: nat, z: real)
    requires successes <= count && count >= 1
    ensures Consistent(successes, count, z, Rate(successes, count))
  {
    RateInUnit(successes, count);
    hide Rate, Weight;
    OwnScore(Rate(successes, count), Weight(count, z));
  }

  lemma OwnScore(p: real, a: real)
    requires a >= 0.0 && 0.0 <= p <= 1.0
    ensures ScoreOk(p, a, p)
  {
    var s := NonNegative(p, 1.0 - p);
    var t := NonNegative(a, s);
    assert t == a * (p * (1.0 - p)) && (p - p) * (p - p) == 0.0;
  }

  lemma ConsistentRatesAreRates(successes: nat, count: nat, z: real, x: real)
    requires successes <= count && count >= 1 && Consistent(successes, count, z, x)
    ensures 0.0 <= x <= 1.0
  {
    RateInUnit(successes, count);
    hide Rate, Weight, ScoreOk;
    if x < 0.0 || x > 1.0 {
      OutsideIsInconsistent(Rate(successes, count), Weight(count, z), x);
    }
  }

  lemma OutsideIsInconsistent(p: real, a: real, x: real)
    requires a >= 0.0 && 0.0 <= p <= 1.0 && (x < 0.0 || x > 1.0)
    ensures !ScoreOk(p, a, x)
  {
    var w := Square(p - x);
    var y := NonPositive(if x < 0.0 then 1.0 - x else x, if x < 0.0 then x else 1.0 - x);
    assert y == x * (1.0 - x);
    var t := NonPositive(a, y);
  }

  // ---------------------------------------------------------------- sorting

  predicate Ordered(s: seq<real>) {
    forall i, j :: 0 <= i < j < |s| ==> s[i] <= s[j]
  }

  function Insert(x: real, s: seq<real>): seq<real> {
    if s == [] || x <= s[0] then [x] + s else [s[0]] + Insert(x, s[1..])
  }

  /** The values in ascending order. */
  function Sorted(values: seq<real>): seq<real> {
    if values == [] then [] else Insert(values[0], Sorted(values[1..]))
  }

  lemma {:induction false} InsertElements(x: real, s: seq<real>)
    ensures multiset(Insert(x, s)) == multiset(s) + multiset{x} && |Insert(x, s)| == |s| + 1
  {
    if s != [] && x > s[0] {
      InsertElements(x, s[1..]);
      assert s == [s[0]] + s[1..];
    }
  }

  lemma {:induction false} InsertOrdered(x: real, s: seq<real>)
    requires Ordered(s)
    ensures Ordered(Insert(x, s))
  {
    if s != [] && x > s[0] {
      var rest := Insert(x, s[1..]);
      InsertOrdered(x, s[1..]);
      InsertElements(x, s[1..]);
      forall i | 0 <= i < |rest| ensures s[0] <= rest[i] {
        InsertedElement(x, s[1..], i);
        if rest[i] != x { var k :| 0 <= k < |s[1..]| && s[1..][k] == rest[i]; }
      }
      hide Insert;
      OrderedCons(s[0], rest);
    }
  }

  lemma {:induction false} OrderedCons(a: real, rest: seq<real>)
    requires Ordered(rest) && forall i :: 0 <= i < |rest| ==> a <= rest[i]
    ensures Ordered([a] + rest)
  {
  }

  lemma {:induction false} InsertedElement(x: real, s: seq<real>, i: nat)
    requires i < |Insert(x, s)|
    ensures Insert(x, s)[i] == x || Insert(x, s)[i] in s
  {
    InsertElements(x, s);
    assert Insert(x, s)[i] in multiset(Insert(x, s));
  }

  lemma {:induction false} SortedElements(values: seq<real>)
    ensures multiset(Sorted(values)) == multiset(values) && |Sorted(values)| == |values|
  {
    if values != [] {
      SortedElements(values[1..]);
      InsertElements(values[0], Sorted(values[1..]));
      assert values == [values[0]] + values[1..];
    }
  }

  lemma {:induction false} SortedIsOrdered(values: seq<real>)
    ensures Ordered(Sorted(values))
  {
    if values != [] {
      SortedIsOrdered(values[1..]);
      InsertOrdered(values[0], Sorted(values[1..]));
    }
  }

  lemma {:induction false} SortedElement(values: seq<real>, i: nat)
    requires i < |Sorted(values)|
    ensures Sorted(values)[i] in values
  {
    SortedElements(values);
    assert Sorted(values)[i] in multiset(Sorted(values));
  }

  lemma {:induction false} SameHead(a: seq<real>, b: seq<real>)
    requires Ordered(a) && Ordered(b) && multiset(a) == multiset(b) && a != []
    ensures b != [] && a[0] == b[0]
  {
    assert a[0] in multiset(a);
    var k :| 0 <= k < |b| && b[k] == a[0];
    assert b[0] in multiset(b);
    var m :| 0 <= m < |a| && a[m] == b[0];
  }

  lemma {:induction false} RestElements(a: seq<real>)
    requires a != []
    ensures multiset(a[1..]) == multiset(a) - multiset{a[0]}
  {
    assert a == [a[0]] + a[1..];
  }

  /** An ordered sequence is determined by its elements. */
  lemma {:induction false} OrderedIsUnique(a: seq<real>, b: seq<real>)
    requires Ordered(a) && Ordered(b) && multiset(a) == multiset(b)
    ensures a == b
  {
    if a == [] {
      assert |multiset(b)| == 0;
    } else {
      SameHead(a, b);
      RestElements(a);
      RestElements(b);
      assert Ordered(a[1..]) && Ordered(b[1..]);
      OrderedIsUnique(a[1..], b[1..]);
      assert a == [a[0]] + a[1..] && b == [b[0]] + b[1..];
    }
  }

  // ---------------------------------------------------------------- quantiles

  /** Linear interpolation of an ordered sequence at a real position. */
  function Interpolated(s: seq<real>, position: real): real
    requires 0.0 <= position <= (|s| - 1) as real
  {
    var lower := position.Floor;
    if lower as real == position then s[lower]
    else s[lower] * (1.0 - (position - lower as real)) + s[lower + 1] * (position - lower as real)
  }

  predicate IsProbability(p: real) {
    0.0 <= p <= 1.0
  }

  /** The smallest integer that is not below x. */
  function Ceil(x: real): (r: int)
    ensures r as real - 1.0 < x <= r as real
  {
    -((-x).Floor)
  }

  /** Where a quantile falls between the first and the last of n ordered values. */
  function Position(n: nat, probability: real): real
    requires n >= 1
  {
    (n - 1) as real * probability
  }

  lemma PositionInRange(n: nat, probability: real)
    requires n >= 1 && IsProbability(probability)
    ensures var position := Position(n, probability);
      0.0 <= position <= (n - 1) as real && 0 <= position.Floor <= Ceil(position) <= n - 1
  {
    PositionBounds(n, probability);
    hide Position;
    FloorInRange(n, Position(n, probability));
  }

  lemma PositionBounds(n: nat, probability: real)
    requires n >= 1 && IsProbability(probability)
    ensures 0.0 <= Position(n, probability) <= (n - 1) as real
  {
    Fraction((n - 1) as real, probability);
  }

  lemma FloorInRange(n: nat, position: real)
    requires n >= 1 && 0.0 <= position <= (n - 1) as real
    ensures 0 <= position.Floor <= Ceil(position) <= n - 1
  {
  }

  function Quantile(values: seq<real>, probability: real): Option<real>
    requires IsProbability(probability)
  {
    if values == [] then None
    else
      SortedElements(values);
      Some(QuantileOfOrdered(Sorted(values), probability))
  }

  function QuantileOfOrdered(ordered: seq<real>, probability: real): real
    requires ordered != [] && IsProbability(probability)
  {
    if |ordered| == 1 then ordered[0]
    else
      PositionInRange(|ordered|, probability);
      var position := Position(|ordered|, probability);
      var lower, upper := position.Floor, Ceil(position);
      if lower == upper then ordered[lower]
      else
        var weight := position - lower as real;
        ordered[lower] * (1.0 - weight) + ordered[upper] * weight
  }

  /** The evaluator's own percentile, over values that are sorted already. */
  function Percentile(sorted: seq<real>, probability: real): Option<real>
    requires IsProbability(probability)
  {
    if sorted == [] then None
    else
      PositionInRange(|sorted|, probability);
      var position := Position(|sorted|, probability);
      var lower, upper := position.Floor, Ceil(position);
      if lower == upper then Some(sorted[lower])
      else
        var fraction := position - lower as real;
        Some(sorted[lower] * (1.0 - fraction) + sorted[upper] * fraction)
  }

  lemma FloorAndCeil(x: real)
    ensures if x.Floor as real == x then Ceil(x) == x.Floor else Ceil(x) == x.Floor + 1
  {
  }

  lemma OnlyPosition(probability: real)
    ensures Position(1, probability) == 0.0
  {
  }

  lemma {:induction false} OrderedQuantileIsAt(s: seq<real>, probability: real)
    requires s != [] && IsProbability(probability)
    ensures 0.0 <= Position(|s|, probability) <= (|s| - 1) as real
    ensures QuantileOfOrdered(s, probability) == Interpolated(s, Position(|s|, probability))
    ensures Percentile(s, probability) == Some(Interpolated(s, Position(|s|, probability)))
  {
    hide Position, Ceil;
    PositionInRange(|s|, probability);
    FloorAndCeil(Position(|s|, probability));
    if |s| == 1 { OnlyPosition(probability); }
  }

  lemma {:induction false} QuantileIsInterpolation(values: seq<real>, probability: real)
    requires values != [] && IsProbability(probability)
    ensures |Sorted(values)| == |values| && Ordered(Sorted(values))
    ensures 0.0 <= Position(|values|, probability) <= (|values| - 1) as real
    ensures Quantile(values, probability) == Some(Interpolated(Sorted(values), Position(|values|, probability)))
  {
    hide Sorted, QuantileOfOrdered, Interpolated, Ordered, Percentile, Position;
    SortedIsOrdered(values);
    SortedElements(values);
    OrderedQuantileIsAt(Sorted(values), probability);
  }

  /** An interpolated value lies between its two neighbours. */
  lemma {:induction false} AtBetweenNeighbours(s: seq<real>, x: real)
    requires Ordered(s) && 0.0 <= x <= (|s| - 1) as real
    ensures s[x.Floor] <= Interpolated(s, x)
    ensures x.Floor + 1 < |s| ==> Interpolated(s, x) <= s[x.Floor + 1]
  {
    var k := x.Floor;
    if k as real != x {
      Blend(s[k], s[k + 1], x - k as real);
    }
  }

  lemma Blend(a: real, b: real, w: real)
    requires a <= b && 0.0 <= w <= 1.0
    ensures a * (1.0 - w) + b * w == a + (b - a) * w
    ensures a <= a * (1.0 - w) + b * w <= b
  {
    var s := NonNegative(b - a, w);
    var t := NonNegative(b - a, 1.0 - w);
    assert s == b * w - a * w && t == b - a - s;
  }

  lemma BlendMonotone(a: real, b: real, v: real, w: real)
    requires a <= b && v <= w
    ensures a * (1.0 - v) + b * v <= a * (1.0 - w) + b * w
  {
    var s := NonNegative(b - a, w - v);
    assert s == (b * w - a * w) - (b * v - a * v);
  }

  lemma {:induction false} AtMonotone(s: seq<real>, x: real, y: real)
    requires Ordered(s) && 0.0 <= x <= y <= (|s| - 1) as real
    ensures Interpolated(s, x) <= Interpolated(s, y)
  {
    var j, k := x.Floor, y.Floor;
    AtBetweenNeighbours(s, x);
    AtBetweenNeighbours(s, y);
    if j == k {
      if j + 1 < |s| { BlendMonotone(s[j], s[j + 1], x - j as real, y - j as real); }
    } else {
      assert j + 1 <= k;
    }
  }

  /** All values lie in the given range. */
  ghost predicate Within(values: seq<real>, low: real, high: real) {
    forall i :: 0 <= i < |values| ==> low <= values[i] <= high
  }

  lemma {:induction false} SortedWithin(values: seq<real>, low: real, high: real)
    requires Within(values, low, high)
    ensures Within(Sorted(values), low, high)
  {
    hide Sorted;
    forall i | 0 <= i < |Sorted(values)| ensures low <= Sorted(values)[i] <= high {
      SortedElement(values, i);
    }
  }

  /** A quantile lies between the smallest and the largest value. */
  lemma {:induction false} QuantileWithinRange(values: seq<real>, probability: real, low: real, high: real)
    requires values != [] && IsProbability(probability) && Within(values, low, high)
    ensures Quantile(values, probability).Some? && low <= Quantile(values, probability).value <= high
  {
    hide Sorted, Quantile, Ordered, IsProbability, Position;
    QuantileIsInterpolation(values, probability);
    SortedWithin(values, low, high);
    var s, x, last := Sorted(values), Position(|values|, probability), (|values| - 1) as real;
    AtMonotone(s, 0.0, x);
    AtMonotone(s, x, last);
    assert Interpolated(s, 0.0) == s[0] && Interpolated(s, last) == s[|s| - 1];
  }

  lemma PositionMonotone(n: nat, p: real, q: real)
    requires n >= 1 && p <= q
    ensures Position(n, p) <= Position(n, q)
  {
    var last := (n - 1) as real;
    var d := NonNegative(last, q - p);
    assert Position(n, q) == Position(n, p) + d;
  }

  lemma {:induction false} QuantileMonotone(values: seq<real>, p: real, q: real)
    requires values != [] && IsProbability(p) && IsProbability(q) && p <= q
    ensures Quantile(values, p).Some? && Quantile(values, q).Some? && Quantile(values, p).value <= Quantile(values, q).value
  {
    hide Sorted, Quantile, Ordered, Interpolated, Position;
    QuantileIsInterpolation(values, p);
    QuantileIsInterpolation(values, q);
    PositionMonotone(|values|, p, q);
    AtMonotone(Sorted(values), Position(|values|, p), Position(|values|, q));
  }

  /** The order of the input does not matter. */
  lemma {:induction false} QuantileIgnoresOrder(a: seq<real>, b: seq<real>, probability: real)
    requires IsProbability(probability) && multiset(a) == multiset(b)
    ensures Quantile(a, probability) == Quantile(b, probability)
  {
    hide Sorted, QuantileOfOrdered, Ordered;
    SortedIsOrdered(a);
    SortedIsOrdered(b);
    SortedElements(a);
    SortedElements(b);
    OrderedIsUnique(Sorted(a), Sorted(b));
  }

  /** The two independently written quantiles agree on sorted data. */
  lemma {:induction false} QuantileIsPercentileOfSorted(values: seq<real>, probability: real)
    requires IsProbability(probability)
    ensures Quantile(values, probability) == Percentile(Sorted(values), probability)
    ensures Ordered(values) ==> Quantile(values, probability) == Percentile(values, probability)
  {
    hide QuantileOfOrdered, Ordered, Interpolated, Position;
    if values != [] {
      SortedIsOrdered(values);
      SortedElements(values);
      if Ordered(values) { OrderedIsUnique(Sorted(values), values); }
      OrderedQuantileIsAt(Sorted(values), probability);
    }
  }

  // ---------------------------------------------------------------- bootstrap intervals

  function Sum(values: seq<real>): real {
    if values == [] then 0.0 else values[0] + Sum(values[1..])
  }

  function Mean(values: seq<real>): real
    requires values != []
  {
    Sum(values) / |values| as real
  }

  lemma {:induction false} SumWithin(values: seq<real>, low: real, high: real)
    requires Within(values, low, high)
    ensures low * |values| as real <= Sum(values) <= high * |values| as real
  {
    if values != [] {
      var k := (|values| - 1) as real;
      SumWithin(values[1..], low, high);
      AddTerm(low, high, k, values[0], Sum(values[1..]));
      assert |values| as real == k + 1.0;
    }
  }

  lemma {:induction false} MeanWithin(values: seq<real>, low: real, high: real)
    requires values != [] && Within(values, low, high)
    ensures low <= Mean(values) <= high
  {
    SumWithin(values, low, high);
    QuotientBounds(Sum(values), |values| as real, low, high);
  }

  /** One resample: the values at the drawn positions. */
  function Resample(values: seq<real>, draw: seq<nat>): (r: seq<real>)
    requires forall i :: 0 <= i < |draw| ==> draw[i] < |values|
    ensures |r| == |draw| && forall i :: 0 <= i < |r| ==> r[i] in values
  {
    seq(|draw|, i requires 0 <= i < |draw| => values[draw[i]])
  }

  /** A generator's choices: one draw of as many positions as there are values, for every resample. */
  ghost predicate Draws(draws: seq<seq<nat>>, n: nat) {
    forall k :: 0 <= k < |draws| ==> |draws[k]| == n && forall i :: 0 <= i < n ==> draws[k][i] < n
  }

  method BootstrapMeans(values: seq<real>, draws: seq<seq<nat>>) returns (means: seq<real>)
    requires values != [] && Draws(draws, |values|)
    ensures |means| == |draws|
    ensures forall k :: 0 <= k < |draws| ==> means[k] == Mean(Resample(values, draws[k]))
  {
    means := [];
    for k := 0 to |draws|
      invariant |means| == k && forall m :: 0 <= m < k ==> means[m] == Mean(Resample(values, draws[m]))
    {
      means := means + [Mean(Resample(values, draws[k]))];
    }
  }

  /** The bootstrap interval of the mean, for whatever positions the generator draws. */
  method BootstrapMeanInterval(values: seq<real>, draws: seq<seq<nat>>, ghost low: real, ghost high: real)
    returns (r: Option<Interval>)
    requires Draws(draws, |values|) && draws != [] && Within(values, low, high)
    ensures r.None? <==> values == []
    ensures r.Some? ==> low <= r.value.lower <= r.value.upper <= high
    ensures |values| == 1 ==> r == Some(Interval(values[0], values[0]))
  {
    if values == [] { return None; }
    if |values| == 1 { return Some(Interval(values[0], values[0])); }
    var means := BootstrapMeans(values, draws);
    forall k | 0 <= k < |means| ensures low <= means[k] <= high {
      var sample := Resample(values, draws[k]);
      assert Within(sample, low, high);
      MeanWithin(sample, low, high);
    }
    QuantileWithinRange(means, 0.025, low, high);
    QuantileWithinRange(means, 0.975, low, high);
    QuantileMonotone(means, 0.025, 0.975);
    r := Some(Interval(Quantile(means, 0.025).value, Quantile(means, 0.975).value));
  }

  // ---------------------------------------------------------------- paired samples

  datatype SampleError = BadSamples | TooFewIterations

  function Deltas(baseline: seq<real>, candidate: seq<real>): (deltas: seq<real>)
    requires |baseline| == |candidate|
    ensures |deltas| == |baseline| && forall i :: 0 <= i < |deltas| ==> deltas[i] == candidate[i] - baseline[i]
  {
    seq(|baseline|, i requires 0 <= i < |baseline| => candidate[i] - baseline[i])
  }

  lemma {:induction false} SumOfDeltas(baseline: seq<real>, candidate: seq<real>)
    requires |baseline| == |candidate|
    ensures Sum(Deltas(baseline, candidate)) == Sum(candidate) - Sum(baseline)
  {
    if baseline != [] {
      SumOfDeltas(baseline[1..], candidate[1..]);
      assert Deltas(baseline, candidate)[1..] == Deltas(baseline[1..], candidate[1..]);
    }
  }

  /** The mean of the differences is the difference of the means. */
  lemma {:induction false} MeanOfDeltas(baseline: seq<real>, candidate: seq<real>)
    requires |baseline| == |candidate| && baseline != []
    ensures Mean(Deltas(baseline, candidate)) == Mean(candidate) - Mean(baseline)
  {
    SumOfDeltas(baseline, candidate);
    QuotientOfDifference(Sum(candidate), Sum(baseline), |baseline| as real);
  }

  /** Resampling differences is resampling both sides at the same positions. */
  lemma {:induction false} ResampleOfDeltas(baseline: seq<real>, candidate: seq<real>, draw: seq<nat>)
    requires |baseline| == |candidate| && forall i :: 0 <= i < |draw| ==> draw[i] < |baseline|
    ensures Resample(Deltas(baseline, candidate), draw) == Deltas(Resample(baseline, draw), Resample(candidate, draw))
  {
  }

  /**
   The paired bootstrap: every resampled value is the difference of the two means
   over the same drawn pairs.
   */
  method PairedBootstrapDelta(baseline: seq<real>, candidate: seq<real>, draws: seq<seq<nat>>)
    returns (r: Result<seq<real>, SampleError>)
    requires Draws(draws, |baseline|)
    ensures r.Success? <==> baseline != [] && |baseline| == |candidate| && |draws| >= 100
    ensures r.Success? ==> |r.value| == |draws|
    ensures r.Success? ==> forall k :: 0 <= k < |draws| ==>
      r.value[k] == Mean(Resample(candidate, draws[k])) - Mean(Resample(baseline, draws[k]))
  {
    if baseline == [] || |baseline| != |candidate| { return Failure(BadSamples); }
    if |draws| < 100 { return Failure(TooFewIterations); }
    var deltas: seq<real> := [];
    for i := 0 to |baseline|
      invariant |deltas| == i && forall k :: 0 <= k < i ==> deltas[k] == candidate[k] - baseline[k]
    {
      deltas := deltas + [candidate[i] - baseline[i]];
    }
    assert deltas == Deltas(baseline, candidate);
    var means := BootstrapMeans(deltas, draws);
    forall k | 0 <= k < |draws|
      ensures means[k] == Mean(Resample(candidate, draws[k])) - Mean(Resample(baseline, draws[k]))
    {
      ResampleOfDeltas(baseline, candidate, draws[k]);
      MeanOfDeltas(Resample(baseline, draws[k]), Resample(candidate, draws[k]));
    }
    r := Success(means);
  }

  /** The resampled differences of the two means, in the order of the draws. */
  ghost function ResampledDeltas(baseline: seq<real>, candidate: seq<real>, draws: seq<seq<nat>>): (deltas: seq<real>)
    requires baseline != [] && |baseline| == |candidate| && Draws(draws, |baseline|)
    ensures |deltas| == |draws|
  {
    seq(|draws|, k requires 0 <= k < |draws| => Mean(Resample(candidate, draws[k])) - Mean(Resample(baseline, draws[k])))
  }

  /** Every resampled difference stays in the range of the differences. */
  lemma {:induction false} ResampledDeltasWithin(baseline: seq<real>, candidate: seq<real>, draws: seq<seq<nat>>, low: real, high: real)
    requires baseline != [] && |baseline| == |candidate| && Draws(draws, |baseline|) && Within(Deltas(baseline, candidate), low, high)
    ensures Within(ResampledDeltas(baseline, candidate, draws), low, high)
  {
    hide Mean, Resample, Deltas;
    forall k | 0 <= k < |draws| ensures low <= ResampledDeltas(baseline, candidate, draws)[k] <= high {
      ResampledDeltaWithin(baseline, candidate, draws[k], low, high);
    }
  }

  lemma {:induction false} ResampledDeltaWithin(baseline: seq<real>, candidate: seq<real>, draw: seq<nat>, low: real, high: real)
    requires baseline != [] && |baseline| == |candidate| == |draw| && forall i :: 0 <= i < |draw| ==> draw[i] < |baseline|
    requires Within(Deltas(baseline, candidate), low, high)
    ensures low <= Mean(Resample(candidate, draw)) - Mean(Resample(baseline, draw)) <= high
  {
    hide Mean, Deltas;
    var deltas := Deltas(baseline, candidate);
    assert Within(Resample(deltas, draw), low, high);
    MeanWithin(Resample(deltas, draw), low, high);
    ResampleOfDeltas(baseline, candidate, draw);
    MeanOfDeltas(Resample(baseline, draw), Resample(candidate, draw));
  }

  /** The interval between two quantiles is ordered and inside the range of the values. */
  lemma {:induction false} QuantileInterval(values: seq<real>, p: real, q: real, low: real, high: real)
    requires values != [] && IsProbability(p) && IsProbability(q) && p <= q && Within(values, low, high)
    ensures Quantile(values, p).Some? && Quantile(values, q).Some?
    ensures low <= Quantile(values, p).value <= Quantile(values, q).value <= high
  {
    hide Quantile, Within, IsProbability;
    QuantileWithinRange(values, p, low, high);
    QuantileWithinRange(values, q, low, high);
    QuantileMonotone(values, p, q);
  }

  // ---------------------------------------------------------------- the evaluation of a paired metric

  datatype Direction = HigherBetter | LowerBetter

  datatype Evaluation = Evaluation(baselineMean: real, candidateMean: real, meanDelta: real, relativeDelta: real, interval: Interval, passed: bool)

  function Abs(x: real): (a: real)
    ensures a >= 0.0 && (a == 0.0 <==> x == 0.0)
  {
    if x < 0.0 then -x else x
  }

  /** A threshold on the relative change, multiplied out. */
  lemma RelativeThreshold(delta: real, base: real, threshold: real)
    requires base != 0.0
    ensures delta / Abs(base) <= threshold <==> delta <= threshold * Abs(base)
  {
    var s := Quotient(delta, Abs(base));
    OrderScaled(Abs(base), s, threshold);
  }

  /**
   The paired evaluation: for whatever pairs are drawn, the percentile interval of
   the resampled differences is ordered and, like the mean difference, inside the
   range of the differences.
   */
  method EvaluatePairedMetric(baseline: seq<real>, candidate: seq<real>, direction: Direction, threshold: real, draws: seq<seq<nat>>,
    ghost low: real, ghost high: real) returns (r: Result<Evaluation, SampleError>)
    requires Draws(draws, |baseline|)
    requires |baseline| == |candidate| ==> Within(Deltas(baseline, candidate), low, high)
    ensures r.Success? <==> baseline != [] && |baseline| == |candidate| && |draws| >= 100
    ensures r.Success? ==>
      && low <= r.value.interval.lower <= r.value.interval.upper <= high
      && low <= r.value.meanDelta <= high
      && r.value.meanDelta == r.value.candidateMean - r.value.baselineMean == Mean(Deltas(baseline, candidate))
    ensures r.Success? ==>
      var resampled := ResampledDeltas(baseline, candidate, draws);
      r.value.interval == Interval(Quantile(resampled, 0.025).value, Quantile(resampled, 0.975).value)
    ensures r.Success? ==> (r.value.passed <==>
      match direction
      case HigherBetter => r.value.candidateMean >= threshold
      case LowerBetter =>
        if r.value.baselineMean == 0.0 then threshold >= 0.0 else r.value.meanDelta <= threshold * Abs(r.value.baselineMean))
  {
    hide Mean, Deltas, Within, Quantile, Percentile, Sorted, Resample, Abs;
    var samples :- PairedBootstrapDelta(baseline, candidate, draws);
    assert samples == ResampledDeltas(baseline, candidate, draws);
    ResampledDeltasWithin(baseline, candidate, draws, low, high);
    QuantileInterval(samples, 0.025, 0.975, low, high);
    QuantileIsPercentileOfSorted(samples, 0.025);
    QuantileIsPercentileOfSorted(samples, 0.975);
    MeanWithin(Deltas(baseline, candidate), low, high);
    MeanOfDeltas(baseline, candidate);
    var sorted := Sorted(samples);
    var base, mean := Mean(baseline), Mean(candidate);
    var delta := mean - base;
    if base != 0.0 { RelativeThreshold(delta, base, threshold); }
    var relative := if base != 0.0 then delta / Abs(base) else 0.0;
    var passed := match direction
      case HigherBetter => mean >= threshold
      case LowerBetter => relative <= threshold;
    var interval := Interval(Percentile(sorted, 0.025).value, Percentile(sorted, 0.975).value);
    r := Success(Evaluation(base, mean, delta, relative, interval, passed));
  }
}
