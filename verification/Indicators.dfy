/** Incremental indicators. Every object keeps counters, running sums and bounded buffers; the ghost field `seen`
    is the whole input history, and each Update is proved to return what a plain recomputation over that history
    returns. The functions named `...Of` are those recomputations. */
module Indicators {
  import opened Trading
  import opened Arithmetic

  function Front<T>(s: seq<T>): seq<T>
    requires s != []
  {
    s[..|s| - 1]
  }

  function Last<T>(s: seq<T>): T
    requires s != []
  {
    s[|s| - 1]
  }

  /** The window a bounded buffer must hold: the last n elements. */
  function LastN<T>(s: seq<T>, n: nat): seq<T> {
    if |s| <= n then s else s[|s| - n..]
  }

  function SumBy<T>(f: T -> real, s: seq<T>): real {
    if s == [] then 0.0 else SumBy(f, Front(s)) + f(Last(s))
  }

  function Itself(x: real): real { x }

  function Sum(s: seq<real>): real { SumBy(Itself, s) }

  lemma SumAppend<T>(f: T -> real, s: seq<T>, x: T)
    ensures SumBy(f, s + [x]) == SumBy(f, s) + f(x)
  {
    assert Front(s + [x]) == s;
  }

  lemma {:induction false} SumSplitsHead<T>(f: T -> real, s: seq<T>)
    requires s != []
    ensures SumBy(f, s) == f(s[0]) + SumBy(f, s[1..])
  {
    if |s| == 1 {
      assert s[1..] == [] && Front(s) == [];
    } else {
      SumSplitsHead(f, Front(s));
      assert Front(s)[1..] == Front(s[1..]);
    }
  }

  /** Append, then drop the oldest element when the buffer overflows: the buffer is again the window. */
  lemma WindowSlides<T>(seen: seq<T>, x: T, n: nat)
    requires n >= 1
    ensures LastN(seen + [x], n) ==
            var grown := LastN(seen, n) + [x]; if |grown| > n then grown[1..] else grown
  {
  }

  /** The running sum after an append and an overflow drop is the sum over the new window. */
  lemma SumSlides<T>(f: T -> real, seen: seq<T>, x: T, n: nat)
    requires n >= 1
    ensures var grown := LastN(seen, n) + [x];
            SumBy(f, LastN(seen + [x], n)) ==
            SumBy(f, LastN(seen, n)) + f(x) - (if |grown| > n then f(grown[0]) else 0.0)
  {
    var grown := LastN(seen, n) + [x];
    WindowSlides(seen, x, n);
    SumAppend(f, LastN(seen, n), x);
    SumSplitsHead(f, grown);
  }

  // ---------------------------------------------------------------- EMA

  function EmaOf(alpha: real, h: seq<real>): real {
    if h == [] then 0.0
    else if |h| == 1 then h[0]
    else Blend(alpha, Last(h), EmaOf(alpha, Front(h)))
  }

  function Alpha(period: int): (a: real)
    ensures 0.0 < a <= 1.0
  {
    Ratio(2.0, (MaxInt(1, period) as real) + 1.0)
  }

  ghost predicate Within(lo: real, s: seq<real>, hi: real) {
    forall i :: 0 <= i < |s| ==> lo <= s[i] <= hi
  }

  /** An EMA never leaves the range of the inputs it has seen. */
  lemma {:induction false} EmaInRange(alpha: real, h: seq<real>, lo: real, hi: real)
    requires 0.0 < alpha <= 1.0 && h != [] && Within(lo, h, hi)
    ensures lo <= EmaOf(alpha, h) <= hi
  {
    if |h| > 1 {
      EmaInRange(alpha, Front(h), lo, hi);
      BlendInRange(alpha, Last(h), EmaOf(alpha, Front(h)), lo, hi);
    }
  }

  /** An EMA starts at the first price, and every further price moves it by alpha of the way towards that price. */
  lemma EmaMoves(alpha: real, h: seq<real>, x: real)
    ensures EmaOf(alpha, [x]) == x
    ensures h != [] ==> EmaOf(alpha, h + [x]) - EmaOf(alpha, h) == Times(alpha, x - EmaOf(alpha, h))
  {
    if h != [] {
      assert Front(h + [x]) == h;
      BlendMoves(alpha, x, EmaOf(alpha, h));
      hide Blend, Times;
      assert EmaOf(alpha, h + [x]) == Blend(alpha, x, EmaOf(alpha, h));
    }
  }

  /** A shorter period means a larger alpha. */
  lemma AlphaOrders(fast: int, slow: int)
    requires 1 <= fast <= slow
    ensures Alpha(slow) <= Alpha(fast) && (fast < slow ==> Alpha(slow) < Alpha(fast))
  {
    QuotientOrders(2.0, (fast as real) + 1.0, (slow as real) + 1.0);
  }

  class EMA {
    const alpha: real
    var value: real
    var count: int
    ghost var seen: seq<real>

    ghost predicate Valid()
      reads this
    {
      0.0 < alpha <= 1.0 && count == |seen| && value == EmaOf(alpha, seen)
    }

    constructor (period: int)
      ensures Valid() && seen == [] && alpha == Alpha(period)
    {
      alpha := Alpha(period);
      value, count, seen := 0.0, 0, [];
    }

    method Update(price: real) returns (r: real)
      requires Valid()
      modifies this
      ensures Valid() && seen == old(seen) + [price] && count == |seen|
      ensures r == EmaOf(alpha, seen)
    {
      hide Blend;
      count := count + 1;
      seen := seen + [price];
      assert Front(seen) == old(seen);
      if count == 1 {
        value := price;
      } else {
        value := Blend(alpha, price, value);
      }
      r := value;
    }
  }

  // ---------------------------------------------------------------- RMA

  function RmaOf(n: nat, h: seq<real>): (r: Option<real>)
    requires n >= 1
    ensures r.Some? <==> |h| >= n
  {
    if |h| < n then None
    else if |h| == n then Some(Average(Sum(h), n))
    else Some(Smooth(RmaOf(n, Front(h)).value, Last(h), n as real))
  }

  lemma {:induction false} SumInRange(s: seq<real>, lo: real, hi: real)
    requires Within(lo, s, hi)
    ensures Times(|s| as real, lo) <= Sum(s) <= Times(|s| as real, hi)
  {
    if s == [] {
      assert Times(0.0, lo) == 0.0 && Times(0.0, hi) == 0.0;
    } else {
      hide Times;
      SumInRange(Front(s), lo, hi);
      var n := |Front(s)| as real;
      assert (|s| as real) == n + 1.0;
      TimesOneMore(n, lo);
      TimesOneMore(n, hi);
    }
  }

  /** A seeded RMA never leaves the range of the inputs it has seen. */
  lemma {:induction false} RmaInRange(n: nat, h: seq<real>, lo: real, hi: real)
    requires n >= 1 && |h| >= n && Within(lo, h, hi)
    ensures lo <= RmaOf(n, h).value <= hi
  {
    if |h| == n {
      SumInRange(h, lo, hi);
      QuotientInRange(Sum(h), n as real, lo, hi);
    } else {
      RmaInRange(n, Front(h), lo, hi);
      SmoothInRange(RmaOf(n, Front(h)).value, Last(h), n as real, lo, hi);
    }
  }

  /** An RMA starts at the mean of its first n inputs, and every further input moves it by the n-th part of the way.
      */
  lemma RmaMoves(n: nat, h: seq<real>, x: real)
    requires n >= 1
    ensures |h| == n ==> Times(n as real, RmaOf(n, h).value) == Sum(h)
    ensures |h| >= n ==> Times(n as real, RmaOf(n, h + [x]).value - RmaOf(n, h).value) == x - RmaOf(n, h).value
  {
    if |h| >= n {
      assert Front(h + [x]) == h;
      SmoothMoves(RmaOf(n, h).value, x, n as real);
      AverageExactly(Sum(h), n);
      hide Smooth, Average, Times;
    }
  }

  class RMA {
    const period: nat
    var value: real
    var count: int
    var sum: real
    ghost var seen: seq<real>

    ghost predicate Valid()
      reads this
    {
      && period >= 1
      && count == |seen|
      && (count <= period ==> sum == Sum(seen))
      && (count >= period ==> value == RmaOf(period, seen).value)
    }

    constructor (period: int)
      ensures Valid() && seen == [] && this.period == MaxInt(1, period)
    {
      this.period := MaxInt(1, period);
      value, count, sum, seen := 0.0, 0, 0.0, [];
    }

    method Update(x: real) returns (r: Option<real>)
      requires Valid()
      modifies this
      ensures Valid() && seen == old(seen) + [x]
      ensures r == RmaOf(period, seen)
    {
      hide Average, Smooth;
      SumAppend(Itself, seen, x);
      count := count + 1;
      seen := seen + [x];
      assert Front(seen) == old(seen);
      if count <= period {
        sum := sum + x;
        if count < period {
          return None;
        }
        value := Average(sum, period);
        return Some(value);
      }
      value := Smooth(value, x, period as real);
      r := Some(value);
    }
  }

  // ---------------------------------------------------------------- Rolling means

  function Positive(x: real): real { Max(0.0, x) }

  function MeanOf(n: nat, h: seq<real>): Option<real>
    requires n >= 1
  {
    if |h| < n then None else Some(Average(SumBy(Positive, LastN(h, n)), n))
  }

  function Traded(t: (real, real)): real { Positive(t.1) }

  function Turnover(t: (real, real)): real { Times(t.0, Positive(t.1)) }

  /** Volume-weighted price of the last n (price, volume) pairs; negative volumes count as none. */
  function VwapOf(n: nat, h: seq<(real, real)>): Option<real> {
    var w := LastN(h, n);
    if SumBy(Traded, w) <= 0.0 then None else Some(Ratio(SumBy(Turnover, w), SumBy(Traded, w)))
  }

  lemma {:induction false} VolumeSign(s: seq<(real, real)>)
    ensures SumBy(Traded, s) >= 0.0
    ensures SumBy(Traded, s) == 0.0 <==> forall t :: t in s ==> t.1 <= 0.0
  {
    if s != [] {
      VolumeSign(Front(s));
      assert s == Front(s) + [Last(s)];
    }
  }

  lemma {:induction false} TurnoverInRange(s: seq<(real, real)>, lo: real, hi: real)
    requires forall t :: t in s && t.1 > 0.0 ==> lo <= t.0 <= hi
    ensures Times(SumBy(Traded, s), lo) <= SumBy(Turnover, s) <= Times(SumBy(Traded, s), hi)
  {
    if s != [] {
      hide Times;
      TurnoverInRange(Front(s), lo, hi);
      var t := Last(s);
      assert t in s;
      TimesNegated(t.0, Traded(t));
      TimesNegated(lo, SumBy(Traded, Front(s)));
      TimesNegated(lo, SumBy(Traded, s));
      WeightedBelow(SumBy(Turnover, Front(s)), SumBy(Traded, Front(s)), t.0, Traded(t), hi);
      WeightedBelow(-SumBy(Turnover, Front(s)), SumBy(Traded, Front(s)), -t.0, Traded(t), -lo);
    }
  }

  /** The VWAP exists exactly when the window holds volume, and then lies within the prices that traded. */
  lemma VwapWithinTradedPrices(n: nat, h: seq<(real, real)>, lo: real, hi: real)
    requires forall t :: t in LastN(h, n) && t.1 > 0.0 ==> lo <= t.0 <= hi
    ensures VwapOf(n, h).Some? <==> exists t :: t in LastN(h, n) && t.1 > 0.0
    ensures VwapOf(n, h).Some? ==> lo <= VwapOf(n, h).value <= hi
  {
    var w := LastN(h, n);
    VolumeSign(w);
    TurnoverInRange(w, lo, hi);
    if SumBy(Traded, w) > 0.0 {
      QuotientInRange(SumBy(Turnover, w), SumBy(Traded, w), lo, hi);
    }
  }

  /** The turnover and the volume of each trade, as the buffer keeps them. */
  function Weighted(w: seq<(real, real)>): (r: seq<(real, real)>)
    ensures |r| == |w|
  {
    seq(|w|, i requires 0 <= i < |w| => (Turnover(w[i]), Traded(w[i])))
  }

  lemma WeightedSlides(seen: seq<(real, real)>, x: (real, real), n: nat)
    requires n >= 1
    ensures var w := LastN(seen, n); var grown := Weighted(w) + [(Turnover(x), Traded(x))];
            && Weighted(LastN(seen + [x], n)) == (if |w| + 1 > n then grown[1..] else grown)
            && grown[0] == (Turnover((w + [x])[0]), Traded((w + [x])[0]))
  {
    hide Turnover, Traded;
    WindowSlides(seen, x, n);
  }

  class RollingVWAP {
    const window: nat
    var buf: seq<(real, real)>
    var sumPv: real
    var sumV: real
    ghost var seen: seq<(real, real)>

    ghost predicate Valid()
      reads this
    {
      && window >= 2
      && buf == Weighted(LastN(seen, window))
      && sumPv == SumBy(Turnover, LastN(seen, window))
      && sumV == SumBy(Traded, LastN(seen, window))
    }

    constructor (window: int)
      ensures Valid() && seen == [] && this.window == MaxInt(2, window)
    {
      this.window := MaxInt(2, window);
      buf, sumPv, sumV, seen := [], 0.0, 0.0, [];
    }

    method Update(price: real, volume: real) returns (r: Option<real>)
      requires Valid()
      modifies this
      ensures Valid() && seen == old(seen) + [(price, volume)]
      ensures r == VwapOf(window, seen)
    {
      hide Turnover, Traded, SumBy, Ratio, LastN, Weighted;
      WeightedSlides(seen, (price, volume), window);
      SumSlides(Turnover, seen, (price, volume), window);
      SumSlides(Traded, seen, (price, volume), window);
      seen := seen + [(price, volume)];
      var v := Traded((price, volume));
      var pv := Turnover((price, volume));
      buf := buf + [(pv, v)];
      sumPv := sumPv + pv;
      sumV := sumV + v;
      if |buf| > window {
        var oldest := buf[0];
        buf := buf[1..];
        sumPv := sumPv - oldest.0;
        sumV := sumV - oldest.1;
      }
      if sumV <= 0.0 {
        return None;
      }
      r := Some(Ratio(sumPv, sumV));
    }
  }

  class RollingMean {
    const window: nat
    var buf: seq<real>
    var total: real
    ghost var seen: seq<real>

    ghost predicate Valid()
      reads this
    {
      && window >= 2
      && |buf| == |LastN(seen, window)|
      && (forall i :: 0 <= i < |buf| ==> buf[i] == Positive(LastN(seen, window)[i]))
      && total == SumBy(Positive, LastN(seen, window))
    }

    constructor (window: int)
      ensures Valid() && seen == [] && this.window == MaxInt(2, window)
    {
      this.window := MaxInt(2, window);
      buf, total, seen := [], 0.0, [];
    }

    method Update(value: real) returns (r: Option<real>)
      requires Valid()
      modifies this
      ensures Valid() && seen == old(seen) + [value]
      ensures r == MeanOf(window, seen)
    {
      hide Average, SumBy;
      WindowSlides(seen, value, window);
      SumSlides(Positive, seen, value, window);
      seen := seen + [value];
      var v := Max(0.0, value);
      buf := buf + [v];
      total := total + v;
      if |buf| > window {
        total := total - buf[0];
        buf := buf[1..];
      }
      if |buf| < window {
        return None;
      }
      r := Some(Average(total, |buf|));
    }
  }

  // ---------------------------------------------------------------- Bollinger bands

  /** Sum of squared deviations from m, written without any running sum. */
  function Deviation(s: seq<real>, m: real): real {
    if s == [] then 0.0 else Deviation(Front(s), m) + Gap(Last(s), m)
  }

  lemma {:induction false} DeviationExpands(s: seq<real>, m: real)
    ensures Deviation(s, m) == Expanded(SumBy(Square, s), Sum(s), |s| as real, m)
    ensures Deviation(s, m) >= 0.0
  {
    if s != [] {
      hide Gap, Expanded, Square;
      DeviationExpands(Front(s), m);
      GapNonNegative(Last(s), m);
      var sq, sum, n := SumBy(Square, Front(s)), Sum(Front(s)), |Front(s)| as real;
      ExpandedGrows(sq, sum, n, Last(s), m);
      assert SumBy(Square, s) == sq + Square(Last(s)) && Sum(s) == sum + Last(s) && (|s| as real) == n + 1.0;
    }
  }

  /** The running-sum form of the variance is the mean squared deviation, so the clamp at zero never acts. */
  lemma VarianceFromSums(s: seq<real>)
    requires s != []
    ensures var mean := Average(Sum(s), |s|);
            RunningVariance(SumBy(Square, s), |s| as real, mean) == Average(Deviation(s, mean), |s|) >= 0.0
  {
    var n := |s| as real;
    var mean := Sum(s) / n;
    DeviationExpands(s, mean);
    ExpandedAtMean(SumBy(Square, s), Sum(s), n, mean);
  }

  datatype Bands = Bands(lower: real, mean: real, upper: real)

  function BandsAround(mean: real, width: real): Bands { Bands(mean - width, mean, mean + width) }

  /** The bands of the last n prices, from their mean squared deviation; `root` stands for the square root. */
  function BollingerOf(n: nat, mult: real, root: real -> real, h: seq<real>): Option<Bands>
    requires n >= 1
  {
    if |h| < n then None
    else
      var w := LastN(h, n);
      var mean := Average(Sum(w), n);
      Some(BandsAround(mean, Times(mult, root(Average(Deviation(w, mean), n)))))
  }

  predicate IsRootOf(r: real, v: real) { r >= 0.0 && Square(r) == v }

  lemma SquareOfTimes(a: real, b: real)
    ensures Square(Times(a, b)) == Times(Square(a), Square(b))
    ensures a >= 0.0 && b >= 0.0 ==> Times(a, b) >= 0.0
  {
    calc {
      (a * b) * (a * b);
    ==
      a * (b * (a * b));
    ==  { assert b * (a * b) == a * (b * b); }
      a * (a * (b * b));
    ==
      (a * a) * (b * b);
    }
    if a >= 0.0 && b >= 0.0 {
      Scale(a, 0.0, b);
    }
  }

  /** Where `root` is a square root, the bands lie `mult` standard deviations on either side of the mean. */
  lemma BandsAreDeviations(n: nat, mult: real, root: real -> real, h: seq<real>)
    requires n >= 1 && |h| >= n && mult >= 0.0
    requires forall v: real :: v >= 0.0 ==> IsRootOf(root(v), v)
    ensures var b := BollingerOf(n, mult, root, h).value; var w := LastN(h, n); var mean := Average(Sum(w), n);
            && b.mean == mean && b.lower <= mean <= b.upper && b.upper - mean == mean - b.lower
            && Square(b.upper - mean) == Times(Square(mult), Average(Deviation(w, mean), n))
  {
    var w := LastN(h, n);
    VarianceFromSums(w);
    var mean := Average(Sum(w), n);
    var variance := Average(Deviation(w, mean), n);
    hide Average, Deviation, Square, Times, SumBy, RunningVariance;
    assert IsRootOf(root(variance), variance);
    SquareOfTimes(mult, root(variance));
  }

  class BollingerBands {
    const window: nat
    const stdMult: real
    const root: real -> real
    var buf: seq<real>
    var sum: real
    var sumSq: real
    ghost var seen: seq<real>

    ghost predicate Valid()
      reads this
    {
      && window >= 2
      && buf == LastN(seen, window)
      && sum == Sum(buf)
      && sumSq == SumBy(Square, buf)
    }

    constructor (window: int, stdMult: real, root: real -> real)
      ensures Valid() && seen == [] && this.window == MaxInt(2, window) && this.stdMult == stdMult && this.root == root
    {
      this.window, this.stdMult, this.root := MaxInt(2, window), stdMult, root;
      buf, sum, sumSq, seen := [], 0.0, 0.0, [];
    }

    method Update(price: real) returns (r: Option<Bands>)
      requires Valid()
      modifies this
      ensures Valid() && seen == old(seen) + [price]
      ensures r == BollingerOf(window, stdMult, root, seen)
    {
      hide Average, Square, RunningVariance, SumBy, Deviation, Times;
      WindowSlides(seen, price, window);
      SumSlides(Itself, seen, price, window);
      SumSlides(Square, seen, price, window);
      seen := seen + [price];
      buf := buf + [price];
      sum := sum + price;
      sumSq := sumSq + Square(price);
      if |buf| > window {
        var oldest := buf[0];
        buf := buf[1..];
        sum := sum - oldest;
        sumSq := sumSq - Square(oldest);
      }
      if |buf| < window {
        return None;
      }
      var n := |buf| as real;
      var mean := Average(sum, |buf|);
      var variance := Max(RunningVariance(sumSq, n, mean), 0.0);
      VarianceFromSums(buf);
      var width := Times(stdMult, root(variance));
      r := Some(Bands(mean - width, mean, mean + width));
    }
  }
}
