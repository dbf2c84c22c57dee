/** Products and quotients of reals. Every nonlinear shape the models use has a name here, and every fact about one
    is stated on bare variables, so that callers reason with equalities of named terms only. */
module Arithmetic {

  lemma Scale(a: real, x: real, y: real)
    requires a >= 0.0 && x <= y
    ensures a * x <= a * y
  {
    assert a * (y - x) >= 0.0;
  }

  lemma ScaleStrict(a: real, x: real, y: real)
    requires a > 0.0 && x < y
    ensures a * x < a * y
  {
    assert a * (y - x) > 0.0;
  }

  lemma Quotient(x: real, n: real)
    requires n > 0.0
    ensures (x / n) * n == x
  {
  }

  function Times(a: real, b: real): real {
    a * b
  }

  function Ratio(x: real, n: real): real
    requires n != 0.0
  {
    x / n
  }

  function Average(sum: real, n: nat): real
    requires n >= 1
  {
    sum / (n as real)
  }

  lemma QuotientInRange(x: real, n: real, lo: real, hi: real)
    requires n > 0.0 && n * lo <= x <= n * hi
    ensures lo <= x / n <= hi
  {
    var q := x / n;
    Quotient(x, n);
    if q < lo {
      ScaleStrict(n, q, lo);
    } else if q > hi {
      ScaleStrict(n, hi, q);
    }
  }

  /** Weighted average of two values. */
  function Blend(a: real, x: real, y: real): real {
    a * x + (1.0 - a) * y
  }

  lemma BlendBelow(a: real, b: real, x: real, y: real, hi: real)
    requires a >= 0.0 && b >= 0.0 && a + b == 1.0 && x <= hi && y <= hi
    ensures a * x + b * y <= hi
  {
    calc {
      a * x + b * y;
    <=  { Scale(a, x, hi); }
      a * hi + b * y;
    <=  { Scale(b, y, hi); }
      a * hi + b * hi;
    ==
      (a + b) * hi;
    ==
      hi;
    }
  }

  lemma BlendInRange(a: real, x: real, y: real, lo: real, hi: real)
    requires 0.0 <= a <= 1.0 && lo <= x <= hi && lo <= y <= hi
    ensures lo <= Blend(a, x, y) <= hi
  {
    BlendBelow(a, 1.0 - a, x, y, hi);
    BlendBelow(a, 1.0 - a, -x, -y, -lo);
    assert a * (-x) + (1.0 - a) * (-y) == -(a * x + (1.0 - a) * y);
  }

  /** One step of Wilder smoothing over n periods. */
  function Smooth(prev: real, x: real, n: real): real
    requires n != 0.0
  {
    (prev * (n - 1.0) + x) / n
  }

  lemma SmoothInRange(prev: real, x: real, n: real, lo: real, hi: real)
    requires n >= 1.0 && lo <= prev <= hi && lo <= x <= hi
    ensures lo <= Smooth(prev, x, n) <= hi
  {
    var m := n - 1.0;
    calc {
      n * lo;
    ==
      m * lo + lo;
    <=  { Scale(m, lo, prev); }
      m * prev + lo;
    <=
      m * prev + x;
    }
    calc {
      m * prev + x;
    <=
      m * prev + hi;
    <=  { Scale(m, prev, hi); }
      m * hi + hi;
    ==
      n * hi;
    }
    QuotientInRange(m * prev + x, n, lo, hi);
    assert prev * (n - 1.0) == m * prev;
  }

  /** Adding one weighted price to a weighted sum that respects an upper bound keeps the bound. */
  lemma WeightedBelow(sum: real, weight: real, p: real, v: real, hi: real)
    requires sum <= Times(weight, hi) && v >= 0.0 && (v > 0.0 ==> p <= hi)
    ensures sum + Times(p, v) <= Times(weight + v, hi)
  {
    calc {
      sum + p * v;
    <=
      weight * hi + p * v;
    <=  { if v > 0.0 { Scale(v, p, hi); } }
      weight * hi + v * hi;
    ==
      (weight + v) * hi;
    }
  }

  lemma TimesOneMore(n: real, x: real)
    ensures Times(n + 1.0, x) == Times(n, x) + x
  {
  }

  lemma TimesNegated(p: real, v: real)
    ensures Times(-p, v) == -Times(p, v) && Times(v, -p) == -Times(v, p)
  {
  }

  function Square(x: real): real {
    x * x
  }

  function Gap(x: real, m: real): real {
    (x - m) * (x - m)
  }

  lemma GapNonNegative(x: real, m: real)
    ensures Gap(x, m) >= 0.0
  {
    if x >= m {
      Scale(x - m, 0.0, x - m);
    } else {
      Scale(m - x, 0.0, m - x);
      assert (x - m) * (x - m) == (m - x) * (m - x);
    }
  }

  /** A sum of n squared deviations from m, in terms of the sum of squares and the sum. */
  function Expanded(sq: real, sum: real, n: real, m: real): real {
    sq - 2.0 * m * sum + n * m * m
  }

  lemma ExpandedGrows(sq: real, sum: real, n: real, x: real, m: real)
    ensures Expanded(sq, sum, n, m) + Gap(x, m) == Expanded(sq + Square(x), sum + x, n + 1.0, m)
  {
    var twice, sq', sum' := 2.0 * m, sq + x * x, sum + x;
    calc {
      Expanded(sq, sum, n, m) + Gap(x, m);
    ==
      sq - twice * sum + n * m * m + (x - m) * (x - m);
    ==  { assert (x - m) * (x - m) == x * x - twice * x + m * m; }
      sq' - (twice * sum + twice * x) + (n * m * m + m * m);
    ==  { assert twice * sum + twice * x == twice * sum'; }
      sq' - twice * sum' + (n * m * m + m * m);
    ==  { assert n * m * m + m * m == (n + 1.0) * m * m; }
      sq' - twice * sum' + (n + 1.0) * m * m;
    }
  }

  function RunningVariance(sq: real, n: real, mean: real): real
    requires n != 0.0
  {
    sq / n - Square(mean)
  }

  /** At the mean, dividing the expanded form by n gives the textbook running-sum variance. */
  lemma ExpandedAtMean(sq: real, sum: real, n: real, mean: real)
    requires n > 0.0 && mean == sum / n
    ensures Expanded(sq, sum, n, mean) / n == RunningVariance(sq, n, mean)
  {
    Quotient(sum, n);
    var v := mean * mean;
    calc {
      Expanded(sq, sum, n, mean);
    ==  { assert sum == mean * n; }
      sq - 2.0 * mean * (mean * n) + n * mean * mean;
    ==  { assert 2.0 * mean * (mean * n) == 2.0 * (n * v) && n * mean * mean == n * v; }
      sq - n * v;
    }
    calc {
      (sq - n * v) / n;
    ==
      sq / n - (n * v) / n;
    ==
      sq / n - v;
    }
  }

  // ---------------------------------------------------------------- What the averages mean

  /** A weighted average moves by the weight towards the new value. */
  lemma BlendMoves(a: real, x: real, y: real)
    ensures Blend(a, x, y) - y == Times(a, x - y)
  {
  }

  /** Wilder smoothing moves by the n-th part towards the new value. */
  lemma SmoothMoves(prev: real, x: real, n: real)
    requires n > 0.0
    ensures Times(n, Smooth(prev, x, n) - prev) == x - prev
  {
    var m := n - 1.0;
    var y := prev * m + x;
    var q := y / n;
    Quotient(y, n);
    assert q * n == y;
    assert prev * m == n * prev - prev;
    assert n * (q - prev) == q * n - n * prev;
    assert Smooth(prev, x, n) == q;
  }

  lemma AverageExactly(sum: real, n: nat)
    requires n >= 1
    ensures Times(n as real, Average(sum, n)) == sum
  {
    Quotient(sum, n as real);
  }

  lemma TimesSplits(a: real, d: real, g: real)
    ensures Times(a + d, g) == Times(a, g) + Times(d, g)
  {
  }

  lemma TimesSign(d: real, g: real)
    requires d >= 0.0 && g >= 0.0
    ensures Times(d, g) >= 0.0 && (d > 0.0 && g > 0.0 ==> Times(d, g) > 0.0)
  {
  }

  lemma TimesOrders(a: real, b: real, g: real)
    requires a <= b && g >= 0.0
    ensures Times(a, g) <= Times(b, g) && (a < b && g > 0.0 ==> Times(a, g) < Times(b, g))
  {
    hide Times;
    var d := b - a;
    assert a + d == b;
    TimesSplits(a, d, g);
    TimesSign(d, g);
  }

  lemma BlendOrders(a: real, x: real, s: real, f: real)
    requires a <= 1.0 && s <= f
    ensures Blend(a, x, s) <= Blend(a, x, f)
  {
    var b := 1.0 - a;
    Scale(b, s, f);
    assert Blend(a, x, s) == a * x + b * s && Blend(a, x, f) == a * x + b * f;
  }

  /** Of two averages that lag behind a rising value, the one with the larger weight stays ahead. */
  lemma BlendOrder(fast: real, slow: real, x: real, f: real, s: real)
    requires 0.0 < slow <= fast <= 1.0 && s <= f <= x
    ensures Blend(slow, x, s) <= Blend(fast, x, f) <= x
    ensures slow < fast && f < x ==> Blend(slow, x, s) < Blend(fast, x, f)
  {
    var g := x - f;
    assert Times(1.0, g) == g;
    hide Blend, Times;
    BlendOrders(slow, x, s, f);
    BlendMoves(slow, x, f);
    BlendMoves(fast, x, f);
    TimesOrders(slow, fast, g);
    TimesOrders(fast, 1.0, g);
  }

  lemma QuotientOrders(c: real, f: real, s: real)
    requires c > 0.0 && 0.0 < f <= s
    ensures Ratio(c, s) <= Ratio(c, f) && (f < s ==> Ratio(c, s) < Ratio(c, f))
  {
    var a, b := c / f, c / s;
    Quotient(c, f);
    Quotient(c, s);
    PositiveFactor(a, f, c);
    PositiveFactor(b, s, c);
    ProductsOrder(a, f, b, s);
  }

  lemma PositiveFactor(a: real, f: real, c: real)
    requires a * f == c && f > 0.0 && c > 0.0
    ensures a > 0.0
  {
    if a <= 0.0 {
      Scale(f, a, 0.0);
    }
  }

  lemma ProductsOrder(a: real, f: real, b: real, s: real)
    requires a * f == b * s && 0.0 < f <= s && a > 0.0 && b > 0.0
    ensures b <= a && (f < s ==> b < a)
  {
    if b > a {
      ScaleStrict(f, a, b);
      Scale(b, f, s);
    } else if f < s && b == a {
      ScaleStrict(a, f, s);
    }
  }

  lemma BlendNegated(a: real, x: real, y: real)
    ensures Blend(a, -x, -y) == -Blend(a, x, y)
  {
  }
}
