/** Indicators composed from others: MACD with its sticky cross flags, ATR, RSI and the stochastic oscillator. */
module Oscillators {
  import opened Trading
  import opened Arithmetic
  import opened Indicators

  // ---------------------------------------------------------------- MACD

  datatype MacdParams = MacdParams(fast: real, slow: real, signal: real)

  function MacdParamsOf(fast: int, slow: int, signal: int): MacdParams {
    MacdParams(Alpha(fast), Alpha(slow), Alpha(signal))
  }

  function MacdLine(m: MacdParams, h: seq<real>): real {
    EmaOf(m.fast, h) - EmaOf(m.slow, h)
  }

  /** The MACD line after each prefix of the price history. */
  function MacdLines(m: MacdParams, h: seq<real>): seq<real> {
    if h == [] then [] else MacdLines(m, Front(h)) + [MacdLine(m, h)]
  }

  /** Line minus signal after the whole history. */
  function MacdDiff(m: MacdParams, h: seq<real>): real {
    MacdLine(m, h) - EmaOf(m.signal, MacdLines(m, h))
  }

  /** Sign of the most recent non-zero line-minus-signal difference; 0 if there has been none. */
  function Trend(m: MacdParams, h: seq<real>): (t: int)
    ensures -1 <= t <= 1
  {
    if h == [] then 0
    else if MacdDiff(m, h) > 0.0 then 1
    else if MacdDiff(m, h) < 0.0 then -1
    else Trend(m, Front(h))
  }

  predicate CrossedUp(m: MacdParams, h: seq<real>) { Trend(m, h) == 1 }

  predicate CrossedDown(m: MacdParams, h: seq<real>) { Trend(m, h) == -1 }

  /** Between a moment when one flag is set and a later one when the other is, the difference really changed sign:
      some later price made it positive for the up flag, negative for the down flag. */
  lemma {:induction false} FlagFlipNeedsCross(m: MacdParams, h: seq<real>, j: nat, up: bool)
    requires j <= |h|
    requires if up then CrossedDown(m, h[..j]) && CrossedUp(m, h) else CrossedUp(m, h[..j]) && CrossedDown(m, h)
    ensures exists k :: j < k <= |h| && if up then MacdDiff(m, h[..k]) > 0.0 else MacdDiff(m, h[..k]) < 0.0
  {
    hide MacdDiff;
    assert h[..|h|] == h;
    if MacdDiff(m, h) == 0.0 {
      assert Front(h)[..j] == h[..j];
      FlagFlipNeedsCross(m, Front(h), j, up);
      var k :| j < k <= |Front(h)|
               && if up then MacdDiff(m, Front(h)[..k]) > 0.0 else MacdDiff(m, Front(h)[..k]) < 0.0;
      assert Front(h)[..k] == h[..k];
    }
  }

  lemma TrendGrows(m: MacdParams, h: seq<real>, x: real)
    ensures var d := MacdDiff(m, h + [x]);
            Trend(m, h + [x]) == if d > 0.0 then 1 else if d < 0.0 then -1 else Trend(m, h)
    ensures MacdLines(m, h + [x]) == MacdLines(m, h) + [MacdLine(m, h + [x])]
    ensures h == [] ==> Trend(m, h) == 0
    ensures h != [] && MacdDiff(m, h) > 0.0 ==> Trend(m, h) == 1
    ensures h != [] && MacdDiff(m, h) < 0.0 ==> Trend(m, h) == -1
  {
    assert Front(h + [x]) == h;
  }

  ghost predicate Rising(h: seq<real>) {
    forall i, j :: 0 <= i < j < |h| ==> h[i] <= h[j]
  }

  ghost predicate Falling(h: seq<real>) {
    forall i, j :: 0 <= i < j < |h| ==> h[i] >= h[j]
  }

  /** While prices have never fallen, the faster EMA is not below the slower one, so the MACD line is not negative,
      and it is positive right after a rise. */
  lemma {:induction false} MacdFollowsRise(m: MacdParams, h: seq<real>)
    requires 0.0 < m.slow <= m.fast <= 1.0 && h != [] && Rising(h)
    ensures EmaOf(m.slow, h) <= EmaOf(m.fast, h) <= Last(h) && MacdLine(m, h) >= 0.0
    ensures m.slow < m.fast && |h| >= 2 && h[|h| - 2] < h[|h| - 1] ==> MacdLine(m, h) > 0.0
  {
    if |h| > 1 {
      hide Blend;
      MacdFollowsRise(m, Front(h));
      BlendOrder(m.fast, m.slow, Last(h), EmaOf(m.fast, Front(h)), EmaOf(m.slow, Front(h)));
    }
  }

  lemma {:induction false} MacdFollowsFall(m: MacdParams, h: seq<real>)
    requires 0.0 < m.slow <= m.fast <= 1.0 && h != [] && Falling(h)
    ensures EmaOf(m.slow, h) >= EmaOf(m.fast, h) >= Last(h) && MacdLine(m, h) <= 0.0
    ensures m.slow < m.fast && |h| >= 2 && h[|h| - 2] > h[|h| - 1] ==> MacdLine(m, h) < 0.0
  {
    if |h| > 1 {
      hide Blend;
      MacdFollowsFall(m, Front(h));
      var x, f, s := Last(h), EmaOf(m.fast, Front(h)), EmaOf(m.slow, Front(h));
      BlendOrder(m.fast, m.slow, -x, -f, -s);
      BlendNegated(m.fast, x, f);
      BlendNegated(m.slow, x, s);
    }
  }

  class MACD {
    const emaFast: EMA
    const emaSlow: EMA
    const emaSignal: EMA
    const params: MacdParams
    var prevDiff: Option<real>
    var count: int
    var crossedUpActive: bool
    var crossedDownActive: bool
    ghost var seen: seq<real>

    ghost predicate Valid()
      reads this, emaFast, emaSlow, emaSignal
    {
      && emaFast != emaSlow && emaFast != emaSignal && emaSlow != emaSignal
      && emaFast.Valid() && emaSlow.Valid() && emaSignal.Valid()
      && params == MacdParams(emaFast.alpha, emaSlow.alpha, emaSignal.alpha)
      && emaFast.seen == seen && emaSlow.seen == seen && emaSignal.seen == MacdLines(params, seen)
      && count == |seen|
      && prevDiff == (if seen == [] then None else Some(MacdDiff(params, seen)))
      && crossedUpActive == CrossedUp(params, seen)
      && crossedDownActive == CrossedDown(params, seen)
    }

    constructor (fast: int, slow: int, signal: int)
      ensures Valid() && seen == [] && params == MacdParamsOf(fast, slow, signal)
      ensures fresh(emaFast) && fresh(emaSlow) && fresh(emaSignal)
    {
      emaFast := new EMA(fast);
      emaSlow := new EMA(slow);
      emaSignal := new EMA(signal);
      params := MacdParamsOf(fast, slow, signal);
      prevDiff, count, crossedUpActive, crossedDownActive, seen := None, 0, false, false, [];
    }

    /** The returned flags are the sign of the most recent non-zero difference, so they are never both set. */
    method Update(price: real) returns (line: real, signal: real, up: bool, down: bool)
      requires Valid()
      modifies this, emaFast, emaSlow, emaSignal
      ensures Valid() && seen == old(seen) + [price] && count == |seen|
      ensures line == MacdLine(params, seen) && line - signal == MacdDiff(params, seen)
      ensures up == CrossedUp(params, seen) && down == CrossedDown(params, seen) && !(up && down)
    {
      hide Blend, EmaOf, Trend, MacdLines;
      count := count + 1;
      seen := seen + [price];
      var fast := emaFast.Update(price);
      var slow := emaSlow.Update(price);
      line := fast - slow;
      signal := emaSignal.Update(line);
      TrendGrows(params, old(seen), price);
      Cross(line - signal);
      up, down := crossedUpActive, crossedDownActive;
    }

    /** The flag logic of Update: a flag flips when the difference leaves or crosses zero, and is sticky otherwise. */
    method Cross(diff: real)
      modifies this`prevDiff, this`crossedUpActive, this`crossedDownActive
      requires crossedUpActive ==> prevDiff.Some? && !crossedDownActive
      requires prevDiff.Some? && prevDiff.value > 0.0 ==> crossedUpActive
      requires prevDiff.Some? && prevDiff.value < 0.0 ==> crossedDownActive
      ensures prevDiff == Some(diff)
      ensures crossedUpActive == (diff > 0.0 || (diff == 0.0 && old(crossedUpActive) && old(prevDiff).Some?))
      ensures crossedDownActive == (diff < 0.0 || (diff == 0.0 && old(crossedDownActive) && old(prevDiff).Some?))
    {
      if prevDiff.Some? {
        if prevDiff.value <= 0.0 && diff > 0.0 {
          crossedUpActive := true;
          crossedDownActive := false;
        } else if prevDiff.value >= 0.0 && diff < 0.0 {
          crossedUpActive := false;
          crossedDownActive := true;
        }
      } else {
        crossedUpActive := diff > 0.0;
        crossedDownActive := diff < 0.0;
      }
      prevDiff := Some(diff);
    }
  }

  // ---------------------------------------------------------------- ATR

  /** High, low and close of one bar. */
  datatype Hlc = Hlc(high: real, low: real, close: real)

  function Abs(x: real): real { if x >= 0.0 then x else -x }

  function TrueRange(prevClose: Option<real>, b: Hlc): real {
    if prevClose.None? then b.high - b.low
    else Max(Max(b.high - b.low, Abs(b.high - prevClose.value)), Abs(b.low - prevClose.value))
  }

  function CloseBefore(h: seq<Hlc>): Option<real> {
    if h == [] then None else Some(Last(h).close)
  }

  function TrueRanges(h: seq<Hlc>): (t: seq<real>)
    ensures |t| == |h|
  {
    if h == [] then [] else TrueRanges(Front(h)) + [TrueRange(CloseBefore(Front(h)), Last(h))]
  }

  function AtrOf(n: nat, h: seq<Hlc>): Option<real>
    requires n >= 1
  {
    RmaOf(n, TrueRanges(h))
  }

  /** The true range is the largest of the bar's range and its two distances from the close before. */
  lemma TrueRangeExactly(prev: real, b: Hlc)
    ensures var t := TrueRange(Some(prev), b);
            var far := if b.high >= prev then b.high - prev else prev - b.high;
            var near := if b.low >= prev then b.low - prev else prev - b.low;
            t >= b.high - b.low && t >= far && t >= near && (t == b.high - b.low || t == far || t == near)
    ensures TrueRange(None, b) == b.high - b.low
  {
  }

  lemma {:induction false} TrueRangesNonNegative(h: seq<Hlc>)
    requires forall i :: 0 <= i < |h| ==> h[i].low <= h[i].high
    ensures forall i :: 0 <= i < |h| ==> TrueRanges(h)[i] >= 0.0
  {
    if h != [] {
      TrueRangesNonNegative(Front(h));
    }
  }

  lemma {:induction false} SumNonNegative(s: seq<real>)
    requires forall i :: 0 <= i < |s| ==> s[i] >= 0.0
    ensures Sum(s) >= 0.0
  {
    if s != [] { SumNonNegative(Front(s)); }
  }

  lemma SmoothNonNegative(prev: real, x: real, n: real)
    requires prev >= 0.0 && x >= 0.0 && n >= 1.0
    ensures Smooth(prev, x, n) >= 0.0
  {
    var hi := Max(prev, x);
    SmoothInRange(prev, x, n, 0.0, hi);
  }

  lemma {:induction false} RmaNonNegative(n: nat, h: seq<real>)
    requires n >= 1 && |h| >= n && forall i :: 0 <= i < |h| ==> h[i] >= 0.0
    ensures RmaOf(n, h).value >= 0.0
  {
    if |h| == n {
      SumNonNegative(h);
    } else {
      RmaNonNegative(n, Front(h));
      SmoothNonNegative(RmaOf(n, Front(h)).value, Last(h), n as real);
    }
  }

  lemma AtrNonNegative(n: nat, h: seq<Hlc>)
    requires n >= 1 && forall i :: 0 <= i < |h| ==> h[i].low <= h[i].high
    ensures AtrOf(n, h).Some? ==> AtrOf(n, h).value >= 0.0
  {
    TrueRangesNonNegative(h);
    if |h| >= n { RmaNonNegative(n, TrueRanges(h)); }
  }

  class ATR {
    const n: nat
    const rma: RMA
    var prevClose: Option<real>
    ghost var seen: seq<Hlc>

    ghost predicate Valid()
      reads this, rma
    {
      && rma.Valid() && rma.period == n && rma.seen == TrueRanges(seen)
      && prevClose == CloseBefore(seen)
    }

    constructor (n: int)
      ensures Valid() && seen == [] && this.n == MaxInt(1, n) && fresh(rma)
    {
      this.n := MaxInt(1, n);
      rma := new RMA(n);
      prevClose, seen := None, [];
    }

    method Update(high: real, low: real, close: real) returns (r: Option<real>)
      requires Valid()
      modifies this, rma
      ensures Valid() && seen == old(seen) + [Hlc(high, low, close)]
      ensures n >= 1 && r == AtrOf(n, seen)
    {
      hide Smooth, Average;
      seen := seen + [Hlc(high, low, close)];
      assert Front(seen) == old(seen);
      var tr;
      if prevClose.None? {
        tr := high - low;
      } else {
        tr := Max(Max(high - low, Abs(high - prevClose.value)), Abs(low - prevClose.value));
      }
      prevClose := Some(close);
      r := rma.Update(tr);
    }
  }

  // ---------------------------------------------------------------- RSI

  /** The price changes of a history, one per price after the first. */
  function Deltas(h: seq<real>): seq<real> {
    if |h| <= 1 then [] else Deltas(Front(h)) + [Last(h) - Last(Front(h))]
  }

  function Gains(d: seq<real>): (g: seq<real>)
    ensures |g| == |d| && forall i :: 0 <= i < |g| ==> g[i] >= 0.0
  {
    if d == [] then [] else Gains(Front(d)) + [Max(Last(d), 0.0)]
  }

  function Losses(d: seq<real>): (l: seq<real>)
    ensures |l| == |d| && forall i :: 0 <= i < |l| ==> l[i] >= 0.0
  {
    if d == [] then [] else Losses(Front(d)) + [Max(-Last(d), 0.0)]
  }

  /** Relative strength of two averages as an index. */
  function StrengthIndex(gain: real, loss: real): real
    requires gain >= 0.0 && loss >= 0.0
  {
    if loss == 0.0 then 100.0
    else if gain == 0.0 then 0.0
    else
      var rs := gain / loss;
      assert rs > 0.0;
      100.0 - 100.0 / (1.0 + rs)
  }

  lemma StrengthIndexInRange(gain: real, loss: real)
    requires gain >= 0.0 && loss >= 0.0
    ensures 0.0 <= StrengthIndex(gain, loss) <= 100.0
  {
    if loss > 0.0 && gain > 0.0 {
      var rs := gain / loss;
      assert rs > 0.0;
      var q := 100.0 / (1.0 + rs);
      assert q > 0.0;
      Quotient(100.0, 1.0 + rs);
      if q > 100.0 { ScaleStrict(1.0 + rs, 100.0, q); }
    }
  }

  /** The index is the share of the gains in all movement, in percent; without losses it is 100. */
  lemma StrengthExactly(gain: real, loss: real)
    requires gain >= 0.0 && loss >= 0.0
    ensures loss == 0.0 ==> StrengthIndex(gain, loss) == 100.0
    ensures loss > 0.0 ==> Times(StrengthIndex(gain, loss), gain + loss) == Times(100.0, gain)
  {
    if loss > 0.0 && gain > 0.0 {
      var rs := gain / loss;
      Quotient(gain, loss);
      assert rs > 0.0;
      var q := 100.0 / (1.0 + rs);
      Quotient(100.0, 1.0 + rs);
      calc {
        q * (gain + loss);
      ==  { assert gain + loss == (1.0 + rs) * loss; }
        q * ((1.0 + rs) * loss);
      ==
        (q * (1.0 + rs)) * loss;
      ==
        100.0 * loss;
      }
      assert (100.0 - q) * (gain + loss) == 100.0 * (gain + loss) - q * (gain + loss);
    }
  }

  function RsiOf(n: nat, h: seq<real>): Option<real>
    requires n >= 1
  {
    var gains, losses := Gains(Deltas(h)), Losses(Deltas(h));
    if |gains| < n then None
    else
      RmaNonNegative(n, gains);
      RmaNonNegative(n, losses);
      Some(StrengthIndex(RmaOf(n, gains).value, RmaOf(n, losses).value))
  }

  lemma RsiInRange(n: nat, h: seq<real>)
    requires n >= 1
    ensures RsiOf(n, h).Some? ==> 0.0 <= RsiOf(n, h).value <= 100.0
  {
    var g, l := Gains(Deltas(h)), Losses(Deltas(h));
    if |Deltas(h)| >= n {
      RmaNonNegative(n, g);
      RmaNonNegative(n, l);
      StrengthIndexInRange(RmaOf(n, g).value, RmaOf(n, l).value);
    }
  }

  /** The RSI is the share of the average gain in the average movement, in percent. */
  lemma RsiExactly(n: nat, h: seq<real>)
    requires n >= 1 && RsiOf(n, h).Some?
    ensures var gain, loss := RmaOf(n, Gains(Deltas(h))), RmaOf(n, Losses(Deltas(h)));
            && gain.Some? && loss.Some? && gain.value >= 0.0 && loss.value >= 0.0
            && (if loss.value == 0.0 then RsiOf(n, h).value == 100.0
                else Times(RsiOf(n, h).value, gain.value + loss.value) == Times(100.0, gain.value))
  {
    var g, l := Gains(Deltas(h)), Losses(Deltas(h));
    RmaNonNegative(n, g);
    RmaNonNegative(n, l);
    StrengthExactly(RmaOf(n, g).value, RmaOf(n, l).value);
    hide StrengthIndex, Times;
  }

  lemma {:induction false} DeltasExactly(h: seq<real>)
    ensures |Deltas(h)| == (if |h| == 0 then 0 else |h| - 1)
    ensures forall i :: 0 <= i < |Deltas(h)| ==> Deltas(h)[i] == h[i + 1] - h[i]
  {
    if |h| > 1 {
      DeltasExactly(Front(h));
      assert Deltas(h) == Deltas(Front(h)) + [Last(h) - Last(Front(h))];
      hide Deltas;
    }
  }

  /** Gains and losses are the upward and downward parts of the changes. */
  lemma {:induction false} SplitExactly(d: seq<real>)
    ensures forall i :: 0 <= i < |d| ==>
              Gains(d)[i] - Losses(d)[i] == d[i] && (Gains(d)[i] == 0.0 || Losses(d)[i] == 0.0)
  {
    if d != [] {
      SplitExactly(Front(d));
    }
  }

  lemma MovesGrow(d: seq<real>, delta: real)
    ensures Gains(d + [delta]) == Gains(d) + [Max(delta, 0.0)]
    ensures Losses(d + [delta]) == Losses(d) + [Max(-delta, 0.0)]
  {
    assert Front(d + [delta]) == d;
  }

  lemma {:induction false} DeltasGrow(h: seq<real>, x: real)
    requires h != []
    ensures Deltas(h + [x]) == Deltas(h) + [x - Last(h)]
  {
    assert Front(h + [x]) == h;
  }

  class RSI {
    const period: nat
    const gainRma: RMA
    const lossRma: RMA
    var prevClose: Option<real>
    ghost var seen: seq<real>

    ghost predicate Valid()
      reads this, gainRma, lossRma
    {
      && gainRma != lossRma && gainRma.Valid() && lossRma.Valid()
      && gainRma.period == period && lossRma.period == period
      && gainRma.seen == Gains(Deltas(seen)) && lossRma.seen == Losses(Deltas(seen))
      && prevClose == (if seen == [] then None else Some(Last(seen)))
    }

    constructor (period: int)
      ensures Valid() && seen == [] && this.period == MaxInt(2, period) && fresh(gainRma) && fresh(lossRma)
    {
      this.period := MaxInt(2, period);
      gainRma := new RMA(MaxInt(2, period));
      lossRma := new RMA(MaxInt(2, period));
      prevClose, seen := None, [];
    }

    method Update(close: real) returns (r: Option<real>)
      requires Valid()
      modifies this, gainRma, lossRma
      ensures Valid() && seen == old(seen) + [close]
      ensures period >= 1 && r == RsiOf(period, seen)
    {
      hide StrengthIndex, Average, Smooth;
      seen := seen + [close];
      r := None;
      if prevClose.None? {
        prevClose := Some(close);
        return;
      }
      var delta := close - prevClose.value;
      prevClose := Some(close);
      DeltasGrow(old(seen), close);
      MovesGrow(Deltas(old(seen)), delta);
      var avgGain := gainRma.Update(Max(delta, 0.0));
      var avgLoss := lossRma.Update(Max(-delta, 0.0));
      if avgGain.Some? && avgLoss.Some? {
        RmaNonNegative(period, gainRma.seen);
        RmaNonNegative(period, lossRma.seen);
        r := Some(StrengthIndex(avgGain.value, avgLoss.value));
      }
    }
  }

  // ---------------------------------------------------------------- Stochastic

  function HighestHigh(w: seq<Hlc>): real
    requires w != []
  {
    if |w| == 1 then w[0].high else Max(HighestHigh(Front(w)), Last(w).high)
  }

  function LowestLow(w: seq<Hlc>): real
    requires w != []
  {
    if |w| == 1 then w[0].low else Min(LowestLow(Front(w)), Last(w).low)
  }

  /** Where the close stands between the extremes, in percent; undefined on an empty range. */
  function Position(close: real, lo: real, hi: real): Option<real> {
    if hi - lo <= 0.0 then None else Some(((close - lo) / (hi - lo)) * 100.0)
  }

  lemma PositionExactly(close: real, lo: real, hi: real)
    requires lo < hi
    ensures Times(Position(close, lo, hi).value, hi - lo) == Times(100.0, close - lo)
  {
    Quotient(close - lo, hi - lo);
    var q := (close - lo) / (hi - lo);
    assert (q * 100.0) * (hi - lo) == 100.0 * (q * (hi - lo));
  }

  lemma PositionInRange(close: real, lo: real, hi: real)
    requires lo <= close <= hi && lo < hi
    ensures 0.0 <= Position(close, lo, hi).value <= 100.0
  {
    QuotientInRange(close - lo, hi - lo, 0.0, 1.0);
  }

  function PercentK(k: nat, h: seq<Hlc>): Option<real>
    requires k >= 1
  {
    if |h| < k then None
    else
      var w := LastN(h, k);
      Position(Last(h).close, LowestLow(w), HighestHigh(w))
  }

  /** Every %K value the history has produced, in order. */
  function PercentKs(k: nat, h: seq<Hlc>): seq<real>
    requires k >= 1
  {
    if h == [] then []
    else PercentKs(k, Front(h)) + (if PercentK(k, h).Some? then [PercentK(k, h).value] else [])
  }

  function PercentD(k: nat, d: nat, h: seq<Hlc>): Option<real>
    requires k >= 1 && d >= 1
  {
    if PercentK(k, h).None? || |PercentKs(k, h)| < d then None
    else Some(Average(Sum(LastN(PercentKs(k, h), d)), d))
  }

  lemma WindowCoversLast(w: seq<Hlc>)
    requires w != []
    ensures LowestLow(w) <= Last(w).low && Last(w).high <= HighestHigh(w)
  {
  }

  ghost predicate Sane(h: seq<Hlc>) {
    forall i :: 0 <= i < |h| ==> h[i].low <= h[i].close <= h[i].high
  }

  lemma PercentKInRange(k: nat, h: seq<Hlc>)
    requires k >= 1 && Sane(h)
    ensures PercentK(k, h).Some? ==> 0.0 <= PercentK(k, h).value <= 100.0
  {
    if PercentK(k, h).Some? {
      var w := LastN(h, k);
      WindowCoversLast(w);
      assert Last(w) == Last(h);
      PositionInRange(Last(h).close, LowestLow(w), HighestHigh(w));
    }
  }

  lemma {:induction false} PercentKsInRange(k: nat, h: seq<Hlc>)
    requires k >= 1 && Sane(h)
    ensures Within(0.0, PercentKs(k, h), 100.0)
  {
    if h != [] {
      PercentKsInRange(k, Front(h));
      PercentKInRange(k, h);
    }
  }

  /** On candles whose close lies between low and high, both lines stay within [0, 100] for ever. */
  lemma StochasticInRange(k: nat, d: nat, h: seq<Hlc>)
    requires k >= 1 && d >= 1 && Sane(h)
    ensures PercentK(k, h).Some? ==> 0.0 <= PercentK(k, h).value <= 100.0
    ensures PercentD(k, d, h).Some? ==> 0.0 <= PercentD(k, d, h).value <= 100.0
  {
    PercentKInRange(k, h);
    PercentKsInRange(k, h);
    var ks := LastN(PercentKs(k, h), d);
    if |ks| == d {
      SumInRange(ks, 0.0, 100.0);
      QuotientInRange(Sum(ks), d as real, 0.0, 100.0);
    }
  }

  function Highs(w: seq<Hlc>): (s: seq<real>)
    ensures |s| == |w| && forall i :: 0 <= i < |w| ==> s[i] == w[i].high
  {
    seq(|w|, i requires 0 <= i < |w| => w[i].high)
  }

  function Lows(w: seq<Hlc>): (s: seq<real>)
    ensures |s| == |w| && forall i :: 0 <= i < |w| ==> s[i] == w[i].low
  {
    seq(|w|, i requires 0 <= i < |w| => w[i].low)
  }

  /** Python's built-in max over a buffer, as a scan. */
  method Largest(s: seq<real>) returns (m: real)
    requires s != []
    ensures m in s && forall i :: 0 <= i < |s| ==> s[i] <= m
  {
    m := s[0];
    for i := 1 to |s|
      invariant m in s && forall j :: 0 <= j < i ==> s[j] <= m
    {
      m := Max(m, s[i]);
    }
  }

  /** Python's built-in min over a buffer, as a scan. */
  method Smallest(s: seq<real>) returns (m: real)
    requires s != []
    ensures m in s && forall i :: 0 <= i < |s| ==> m <= s[i]
  {
    m := s[0];
    for i := 1 to |s|
      invariant m in s && forall j :: 0 <= j < i ==> m <= s[j]
    {
      m := Min(m, s[i]);
    }
  }

  lemma {:induction false} ExtremesBound(w: seq<Hlc>)
    requires w != []
    ensures HighestHigh(w) in Highs(w) && forall i :: 0 <= i < |w| ==> w[i].high <= HighestHigh(w)
    ensures LowestLow(w) in Lows(w) && forall i :: 0 <= i < |w| ==> LowestLow(w) <= w[i].low
  {
    if |w| == 1 {
      assert Highs(w)[0] == w[0].high && Lows(w)[0] == w[0].low;
    } else {
      var f := Front(w);
      ExtremesBound(f);
      var i :| 0 <= i < |f| && Highs(f)[i] == HighestHigh(f);
      var j :| 0 <= j < |f| && Lows(f)[j] == LowestLow(f);
      assert Highs(w)[i] == HighestHigh(f) && Lows(w)[j] == LowestLow(f);
      assert Highs(w)[|w| - 1] == Last(w).high && Lows(w)[|w| - 1] == Last(w).low;
    }
  }

  /** %K is where the close stands between the lowest low and the highest high of the window, in percent, and is
      missing exactly when the window is short or has no range. */
  lemma PercentKExactly(k: nat, h: seq<Hlc>)
    requires k >= 1 && |h| >= k
    ensures var w := LastN(h, k); var hi, lo := HighestHigh(w), LowestLow(w);
            && hi in Highs(w) && (forall i :: 0 <= i < |w| ==> w[i].high <= hi)
            && lo in Lows(w) && (forall i :: 0 <= i < |w| ==> lo <= w[i].low)
            && (PercentK(k, h).Some? <==> lo < hi)
            && (lo < hi ==> Times(PercentK(k, h).value, hi - lo) == Times(100.0, Last(h).close - lo))
  {
    var w := LastN(h, k);
    ExtremesBound(w);
    if LowestLow(w) < HighestHigh(w) {
      PositionExactly(Last(h).close, LowestLow(w), HighestHigh(w));
    }
    hide Times, Position;
    assert PercentK(k, h) == Position(Last(h).close, LowestLow(w), HighestHigh(w));
  }

  /** Append to a bounded buffer, dropping the oldest element when it overflows. */
  function Push(buf: seq<real>, x: real, n: nat): seq<real> {
    if |buf| + 1 > n then (buf + [x])[1..] else buf + [x]
  }

  lemma BuffersSlide(seen: seq<Hlc>, b: Hlc, n: nat)
    requires n >= 1
    ensures Push(Highs(LastN(seen, n)), b.high, n) == Highs(LastN(seen + [b], n))
    ensures Push(Lows(LastN(seen, n)), b.low, n) == Lows(LastN(seen + [b], n))
  {
    WindowSlides(seen, b, n);
    var w := LastN(seen, n);
    assert Highs(w + [b]) == Highs(w) + [b.high] && Lows(w + [b]) == Lows(w) + [b.low];
    if |w| + 1 > n {
      assert Highs((w + [b])[1..]) == Highs(w + [b])[1..] && Lows((w + [b])[1..]) == Lows(w + [b])[1..];
    }
  }

  lemma KsSlide(seen: seq<Hlc>, b: Hlc, n: nat, d: nat)
    requires n >= 1 && d >= 1
    ensures LastN(PercentKs(n, seen + [b]), d) ==
            var k := PercentK(n, seen + [b]);
            if k.None? then LastN(PercentKs(n, seen), d) else Push(LastN(PercentKs(n, seen), d), k.value, d)
  {
    assert Front(seen + [b]) == seen;
    var k := PercentK(n, seen + [b]);
    if k.None? {
      assert PercentKs(n, seen + [b]) == PercentKs(n, seen);
    } else {
      WindowSlides(PercentKs(n, seen), k.value, d);
    }
  }

  class Stochastic {
    const kPeriod: nat
    const dPeriod: nat
    var highBuf: seq<real>
    var lowBuf: seq<real>
    var kBuf: seq<real>
    ghost var seen: seq<Hlc>

    ghost predicate Valid()
      reads this
    {
      && kPeriod >= 2 && dPeriod >= 1
      && highBuf == Highs(LastN(seen, kPeriod))
      && lowBuf == Lows(LastN(seen, kPeriod))
      && kBuf == LastN(PercentKs(kPeriod, seen), dPeriod)
    }

    constructor (kPeriod: int, dPeriod: int)
      ensures Valid() && seen == [] && this.kPeriod == MaxInt(2, kPeriod) && this.dPeriod == MaxInt(1, dPeriod)
    {
      this.kPeriod := MaxInt(2, kPeriod);
      this.dPeriod := MaxInt(1, dPeriod);
      highBuf, lowBuf, kBuf, seen := [], [], [], [];
    }

    method Update(high: real, low: real, close: real) returns (k: Option<real>, d: Option<real>)
      requires Valid()
      modifies this
      ensures Valid() && seen == old(seen) + [Hlc(high, low, close)]
      ensures k == PercentK(kPeriod, seen) && d == PercentD(kPeriod, dPeriod, seen)
    {
      hide Position, Average;
      BuffersSlide(seen, Hlc(high, low, close), kPeriod);
      KsSlide(seen, Hlc(high, low, close), kPeriod, dPeriod);
      seen := seen + [Hlc(high, low, close)];
      highBuf := Push(highBuf, high, kPeriod);
      lowBuf := Push(lowBuf, low, kPeriod);
      d := None;
      k := Measure(close);
      if k.None? {
        return;
      }
      kBuf := Push(kBuf, k.value, dPeriod);
      if |kBuf| == dPeriod {
        d := Some(Average(Sum(kBuf), dPeriod));
      }
    }

    /** The part of Update that only reads the two price buffers. */
    method Measure(close: real) returns (k: Option<real>)
      requires kPeriod >= 2 && seen != [] && Last(seen).close == close
      requires highBuf == Highs(LastN(seen, kPeriod)) && lowBuf == Lows(LastN(seen, kPeriod))
      ensures k == PercentK(kPeriod, seen)
    {
      hide Position;
      if |highBuf| < kPeriod || |lowBuf| < kPeriod {
        return None;
      }
      ghost var w := LastN(seen, kPeriod);
      ExtremesBound(w);
      var periodHigh := Largest(highBuf);
      var periodLow := Smallest(lowBuf);
      assert periodHigh == HighestHigh(w) && periodLow == LowestLow(w);
      k := Position(close, periodLow, periodHigh);
    }
  }
}
