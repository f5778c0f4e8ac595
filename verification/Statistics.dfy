/** Means, variances and a one-sided tail bound, in exact reals. The algebra is in lemmas over plain
    numbers; the lemmas over sequences pass their sums to them as parameters. */
module Statistics {

  function Square(x: real): real { x * x }

  function Sum(v: seq<real>): real { if v == [] then 0.0 else Sum(v[..|v| - 1]) + v[|v| - 1] }

  function SumOfSquares(v: seq<real>): real {
    if v == [] then 0.0 else SumOfSquares(v[..|v| - 1]) + Square(v[|v| - 1])
  }

  /** Squared distances from a. */
  function SumAround(v: seq<real>, a: real): real {
    if v == [] then 0.0 else SumAround(v[..|v| - 1], a) + Square(v[|v| - 1] - a)
  }

  function Size(v: seq<real>): real { |v| as real }

  /** How many values exceed t. */
  function CountAbove(v: seq<real>, t: real): nat {
    if v == [] then 0 else CountAbove(v[..|v| - 1], t) + if v[|v| - 1] > t then 1 else 0
  }

  // ---------- algebra ----------

  lemma SquareNonnegative(x: real)
    ensures Square(x) >= 0.0
  {
    var y := -x;
    if x >= 0.0 { assert x * x >= 0.0; } else { assert y * y >= 0.0 && x * x == y * y; }
  }

  lemma NonzeroSquare(x: real)
    requires x != 0.0
    ensures Square(x) > 0.0
  {
    assert Square(x) / x == x;
  }

  lemma ExpandStep(q0: real, s0: real, n0: real, f0: real, a: real, x: real, q: real, s: real, n: real, f: real)
    requires f0 == q0 - 2.0 * a * s0 + n0 * a * a
    requires q == q0 + Square(x) && s == s0 + x && n == n0 + 1.0 && f == f0 + Square(x - a)
    ensures f == q - 2.0 * a * s + n * a * a
  {}

  lemma OnePassAlgebra(q: real, s: real, n: real, m: real, around: real, onePass: real)
    requires n > 0.0 && m * n == s && around == q - 2.0 * m * s + n * m * m && onePass == q / n - m * m
    ensures onePass * n == around
  {
    assert q / n * n == q;
    assert m * m * n == m * s;
  }

  lemma PointAlgebra(q: real, s: real, n: real, m: real, a: real, variance: real, aroundM: real, aroundA: real, w: real, spread: real)
    requires spread == variance + w && w == Square(m - a) && aroundA == q - 2.0 * a * s + n * a * a && aroundM == q - 2.0 * m * s + n * m * m
    requires m * n == s && variance * n == aroundM
    ensures aroundA == n * spread
  {
    assert w == m * m - 2.0 * a * m + a * a;
    assert n * (m * m - 2.0 * a * m + a * a) == m * s - 2.0 * a * s + n * a * a;
    assert n * m * m == m * s;
  }

  lemma CancelPositive(x: real, y: real, s: real)
    requires s > 0.0 && x * s < y * s
    ensures x < y
  {}

  lemma NonnegativeFactor(x: real, n: real)
    requires n > 0.0 && x * n >= 0.0
    ensures x >= 0.0
  {}

  lemma TailDistances(m: real, variance: real, std: real, a: real, t: real, sq: real, w: real)
    requires std > 0.0 && std * std == variance && a == m - 2.0 / 3.0 * std && t == m + 1.5 * std
    requires sq == Square(t - a) && w == Square(m - a)
    ensures sq == 169.0 / 36.0 * variance && w == 4.0 / 9.0 * variance
  {
    assert t - a == 13.0 / 6.0 * std && m - a == 2.0 / 3.0 * std;
  }

  lemma TailAlgebra(f: real, n: real, variance: real, sq: real, w: real, around: real, spread: real)
    requires variance > 0.0 && sq == 169.0 / 36.0 * variance && w == 4.0 / 9.0 * variance
    requires f * sq < around && around == n * spread && spread == variance + w
    ensures 13.0 * f < 4.0 * n
  {
    assert f * sq == (f * variance) * (169.0 / 36.0);
    assert n * spread == (n * variance) * (13.0 / 9.0);
    CancelPositive(13.0 * f, 4.0 * n, variance);
  }

  // ---------- variance ----------

  lemma {:induction false} SumAroundExpands(v: seq<real>, a: real, q: real, s: real, n: real, around: real)
    requires q == SumOfSquares(v) && s == Sum(v) && n == Size(v) && around == SumAround(v, a)
    ensures around == q - 2.0 * a * s + n * a * a
  {
    if v != [] {
      var front, x := v[..|v| - 1], v[|v| - 1];
      var q0, s0, n0, f0 := SumOfSquares(front), Sum(front), Size(front), SumAround(front, a);
      SumAroundExpands(front, a, q0, s0, n0, f0);
      assert q == q0 + Square(x) && s == s0 + x && n == n0 + 1.0 && around == f0 + Square(x - a);
      ExpandStep(q0, s0, n0, f0, a, x, q, s, n, around);
    }
  }

  lemma {:induction false} SumAroundNonnegative(v: seq<real>, a: real)
    ensures SumAround(v, a) >= 0.0
  {
    if v != [] {
      SumAroundNonnegative(v[..|v| - 1], a);
      SquareNonnegative(v[|v| - 1] - a);
    }
  }

  /** The one-pass formula is the textbook variance (n times it is the sum of squares around the mean); it
      is never negative, so clamping it at 0 does nothing. */
  lemma OnePassVariance(v: seq<real>, m: real, q: real, s: real, n: real, onePass: real)
    requires v != [] && q == SumOfSquares(v) && s == Sum(v) && n == Size(v)
    requires m * n == s && onePass == q / n - m * m
    ensures onePass * n == SumAround(v, m)
    ensures onePass >= 0.0
  {
    var around := SumAround(v, m);
    SumAroundExpands(v, m, q, s, n, around);
    OnePassAlgebra(q, s, n, m, around, onePass);
    SumAroundNonnegative(v, m);
    NonnegativeFactor(onePass, n);
  }

  /** Squared distances from any point: the variance plus the squared distance of that point from the mean. */
  lemma AroundPoint(v: seq<real>, m: real, variance: real, a: real, n: real, aroundM: real, aroundA: real, w: real, spread: real)
    requires spread == variance + w && w == Square(m - a) && n == Size(v) && aroundM == SumAround(v, m) && aroundA == SumAround(v, a)
    requires m * n == Sum(v) && variance * n == aroundM
    ensures aroundA == n * spread
  {
    var q, s := SumOfSquares(v), Sum(v);
    SumAroundExpands(v, a, q, s, n, aroundA);
    SumAroundExpands(v, m, q, s, n, aroundM);
    PointAlgebra(q, s, n, m, a, variance, aroundM, aroundA, w, spread);
  }

  // ---------- the tail ----------

  lemma TailStep(f: nat, d: real, x: real, a: real, around0: real, around: real, sq: real)
    requires sq == Square(d) && 0.0 < d < x - a && around == around0 + Square(x - a) && f as real * sq <= around0
    ensures (f + 1) as real * sq < around
  {
    var y := x - a;
    assert y * y > y * d;
    assert y * d > d * d;
    assert (f + 1) as real * sq == f as real * sq + sq;
  }

  /** Each value above t > a is more than t - a away from a. */
  lemma {:induction false} TailSquares(v: seq<real>, a: real, t: real, f: nat, around: real, sq: real)
    requires t > a && sq == Square(t - a) && f == CountAbove(v, t) && around == SumAround(v, a)
    ensures f as real * sq <= around
    ensures f > 0 ==> f as real * sq < around
  {
    if v != [] {
      var front, x := v[..|v| - 1], v[|v| - 1];
      var f0, around0 := CountAbove(front, t), SumAround(front, a);
      TailSquares(front, a, t, f0, around0, sq);
      SquareNonnegative(x - a);
      assert around == around0 + Square(x - a);
      if x > t {
        TailStep(f0, t - a, x, a, around0, around, sq);
      }
    }
  }

  lemma SpreadOfTail(v: seq<real>, m: real, variance: real, a: real, t: real, f: nat, n: real, aroundM: real, sq: real, w: real, spread: real)
      returns (around: real)
    requires n == Size(v) && m * n == Sum(v) && aroundM == SumAround(v, m) && variance * n == aroundM
    requires t > a && f == CountAbove(v, t) && sq == Square(t - a) && w == Square(m - a)
    requires spread == variance + w
    ensures f > 0 ==> f as real * sq < around
    ensures around == n * spread
  {
    around := SumAround(v, a);
    TailSquares(v, a, t, f, around, sq);
    AroundPoint(v, m, variance, a, n, aroundM, around, w, spread);
  }

  /** Fewer than 4 in 13 values lie more than one and a half standard deviations above the mean. */
  lemma FewAbove(v: seq<real>, m: real, variance: real, std: real, t: real, f: nat, n: real, aroundM: real)
    requires n == Size(v) && m * n == Sum(v) && aroundM == SumAround(v, m) && variance * n == aroundM
    requires std > 0.0 && std * std == variance && t == m + 1.5 * std && f == CountAbove(v, t)
    ensures f > 0 ==> 13.0 * f as real < 4.0 * n
  {
    var a := m - 2.0 / 3.0 * std;
    var sq, w := Square(t - a), Square(m - a);
    var spread := variance + w;
    var around := SpreadOfTail(v, m, variance, a, t, f, n, aroundM, sq, w, spread);
    TailDistances(m, variance, std, a, t, sq, w);
    if f > 0 { TailShare(f as real, n, variance, std, sq, w, around, spread); }
  }

  lemma TailShare(f: real, n: real, variance: real, std: real, sq: real, w: real, around: real, spread: real)
    requires std > 0.0 && std * std == variance && sq == 169.0 / 36.0 * variance && w == 4.0 / 9.0 * variance
    requires f * sq < around && around == n * spread && spread == variance + w
    ensures 13.0 * f < 4.0 * n
  {
    NonzeroSquare(std);
    TailAlgebra(f, n, variance, sq, w, around, spread);
  }

  /** With variance 0 every value is the mean. */
  lemma {:induction false} NoSpread(v: seq<real>, a: real, i: nat)
    requires SumAround(v, a) == 0.0 && i < |v|
    ensures v[i] == a
  {
    var front, x := v[..|v| - 1], v[|v| - 1];
    SumAroundNonnegative(front, a);
    SquareNonnegative(x - a);
    if i < |front| {
      NoSpread(front, a, i);
    } else if x != a {
      NonzeroSquare(x - a);
    }
  }

  lemma {:induction false} NoneAbove(v: seq<real>, t: real)
    requires forall i :: 0 <= i < |v| ==> v[i] <= t
    ensures CountAbove(v, t) == 0
  {
    if v != [] {
      NoneAbove(v[..|v| - 1], t);
    }
  }

  // ---------- as the code computes them ----------

  ghost predicate IsSquareRoot(sqrt: real -> real) {
    forall x :: x >= 0.0 ==> sqrt(x) >= 0.0 && sqrt(x) * sqrt(x) == x
  }

  function Mean(v: seq<real>): real
    requires v != []
  {
    Sum(v) / Size(v)
  }

  /** The mean squared distance from the mean, in two passes. */
  function Variance(v: seq<real>): real
    requires v != []
  {
    SumAround(v, Mean(v)) / Size(v)
  }

  lemma Quotient(x: real, n: real, y: real)
    requires n > 0.0 && y == x / n
    ensures y * n == x
  {}

  lemma SameQuotient(x: real, y: real, n: real)
    requires n > 0.0 && x * n == y
    ensures x == y / n
  {}

  /** What one pass over a sum and a sum of squares computes is the two-pass variance, never negative: so
      the clamp at 0 changes nothing. */
  lemma OnePassIsVariance(v: seq<real>, m: real, q: real, n: real, onePass: real)
    requires v != [] && q == SumOfSquares(v) && n == Size(v)
    requires m == Mean(v) && onePass == q / n - m * m
    ensures onePass == Variance(v) && onePass >= 0.0
  {
    var s := Sum(v);
    Quotient(s, n, m);
    OnePassVariance(v, m, q, s, n, onePass);
    SameQuotient(onePass, SumAround(v, m), n);
  }

  lemma {:induction false} SumUpdate(v: seq<real>, w: seq<real>, j: nat, x: real)
    requires j < |v| == |w| && w == v[j := v[j] + x]
    ensures Sum(w) == Sum(v) + x
  {
    var k := |v| - 1;
    if j < k {
      SumUpdate(v[..k], w[..k], j, x);
    } else {
      assert w[..k] == v[..k];
    }
  }

  // ---------- two levels ----------

  /** n values, of which the first f are 2 and the others 1. */
  function TwoLevels(n: nat, f: nat): seq<real> { seq(n, i => if i < f then 2.0 else 1.0) }

  lemma LevelsPrefix(n: nat, f: nat)
    requires 0 < n
    ensures TwoLevels(n, f)[..n - 1] == TwoLevels(n - 1, f)
    ensures f >= n ==> TwoLevels(n - 1, f) == TwoLevels(n - 1, n - 1)
  {}

  lemma {:induction false} SumOfLevels(n: nat, f: nat)
    requires f <= n
    ensures Sum(TwoLevels(n, f)) == n as real + f as real
  {
    if n > 0 {
      LevelsPrefix(n, f);
      SumOfLevels(n - 1, if f < n then f else n - 1);
    }
  }

  lemma {:induction false} SumAroundLevels(n: nat, f: nat, a: real, around: real, high: real, low: real)
    requires f <= n && around == SumAround(TwoLevels(n, f), a) && high == Square(2.0 - a) && low == Square(1.0 - a)
    ensures around == f as real * high + (n - f) as real * low
  {
    if n > 0 {
      LevelsPrefix(n, f);
      var g := if f < n then f else n - 1;
      var around0 := SumAround(TwoLevels(n - 1, g), a);
      SumAroundLevels(n - 1, g, a, around0, high, low);
      assert around == around0 + if f < n then low else high;
      OneMore(f as real, (n - 1 - g) as real, high, low);
      OneMore(g as real, (n - f) as real, high, low);
    }
  }

  lemma OneMore(x: real, y: real, high: real, low: real)
    ensures x * high + (y + 1.0) * low == x * high + y * low + low
    ensures (x + 1.0) * high + y * low == x * high + y * low + high
  {}

  lemma {:induction false} AboveBetween(n: nat, f: nat, t: real)
    requires f <= n && 1.0 <= t < 2.0
    ensures CountAbove(TwoLevels(n, f), t) == f
  {
    if n > 0 {
      LevelsPrefix(n, f);
      AboveBetween(n - 1, if f < n then f else n - 1, t);
    }
  }

  /** With a share p of twos the mean is 1 + p and the variance p (1 - p). */
  lemma LevelsSpread(n: real, f: real, m: real, variance: real, around: real, high: real, low: real)
    requires n > 0.0 && m * n == n + f && around == f * high + (n - f) * low && variance * n == around
    requires high == Square(2.0 - m) && low == Square(1.0 - m)
    ensures variance == (m - 1.0) * (2.0 - m)
  {
    var p := m - 1.0;
    assert f == p * n;
    assert high == (1.0 - p) * (1.0 - p) && low == p * p;
    ShareAlgebra(n, p, variance);
  }

  lemma ShareAlgebra(n: real, p: real, variance: real)
    requires n > 0.0 && variance * n == (p * n) * ((1.0 - p) * (1.0 - p)) + (n - p * n) * (p * p)
    ensures variance == p * (1.0 - p)
  {
    assert (p * n) * ((1.0 - p) * (1.0 - p)) + (n - p * n) * (p * p) == (p * (1.0 - p)) * n;
    SameFactor(variance, p * (1.0 - p), n);
  }

  lemma SameFactor(x: real, y: real, n: real)
    requires n > 0.0 && x * n == y * n
    ensures x == y
  {}

  lemma HighAbove(n: real, f: real, m: real, variance: real, std: real)
    requires n > 0.0 && f > 0.0 && 13.0 * f < 4.0 * n && m * n == n + f
    requires variance == (m - 1.0) * (2.0 - m) && std >= 0.0 && std * std == variance
    ensures std > 0.0 && 1.0 <= m + 1.5 * std < 2.0
  {
    var p, q := m - 1.0, 2.0 - m;
    assert p * n == f;
    ShareBetween(n, f, p);
    assert variance > 0.0 by { assert p * q > 0.0; }
    var y := 1.5 * std;
    assert y * y == (2.25 * p) * q;
    assert (2.25 * p) * q < q * q;
    SmallerRoot(y, q);
  }

  lemma SmallerRoot(y: real, q: real)
    requires 0.0 <= y && 0.0 <= q && y * y < q * q
    ensures y < q
  {}

  lemma ShareBetween(n: real, f: real, p: real)
    requires n > 0.0 && f > 0.0 && 13.0 * f < 4.0 * n && p * n == f
    ensures 0.0 < p && 13.0 * p < 4.0
  {
    CancelPositive(13.0 * p, 4.0, n);
    CancelPositive(0.0, p, n);
  }
}
