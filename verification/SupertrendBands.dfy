/** The supertrend indicator: two bands around the bar that ratchet towards the price, and a line that follows one of
    them according to the trend. */
module SupertrendBands {
  import opened Trading
  import opened Arithmetic
  import opened Indicators
  import opened Oscillators

  /** `Some(Long)` is an up trend, `Some(Short)` a down trend; there is no trend until the ATR is ready. */
  datatype Channel = Channel(prevClose: Option<real>, upper: Option<real>, lower: Option<real>, line: Option<real>,
                         trend: Option<Side>)

  const NEW_CHANNEL := Channel(None, None, None, None, None)

  datatype Params = Params(atrPeriod: int, multiplier: real) {
    function Period(): nat { MaxInt(1, atrPeriod) }
    function Factor(): real { Max(0.1, multiplier) }
  }

  function BasicUpper(factor: real, atr: real, b: Hlc): real {
    (b.high + b.low) / 2.0 + Times(factor, atr)
  }

  function BasicLower(factor: real, atr: real, b: Hlc): real {
    (b.high + b.low) / 2.0 - Times(factor, atr)
  }

  /** The upper band comes down, and goes up only after a close above it. */
  function NextUpper(p: Channel, basic: real): real {
    if p.upper.None? || p.lower.None? || p.prevClose.None? then basic
    else if basic < p.upper.value || p.prevClose.value > p.upper.value then basic
    else p.upper.value
  }

  /** The lower band goes up, and comes down only after a close below it. */
  function NextLower(p: Channel, basic: real): real {
    if p.upper.None? || p.lower.None? || p.prevClose.None? then basic
    else if basic > p.lower.value || p.prevClose.value < p.lower.value then basic
    else p.lower.value
  }

  /** Each band hugs the price: the upper one is never looser than the basic band, it is the lower of the two until a
      close breaks through it, and only then can it rise; the lower band is its mirror image. */
  lemma BandsRatchet(p: Channel, basicUpper: real, basicLower: real)
    requires p.upper.Some? && p.lower.Some? && p.prevClose.Some?
    ensures var u, v, close := p.upper.value, NextUpper(p, basicUpper), p.prevClose.value;
            && v <= basicUpper && (close <= u ==> v == Min(basicUpper, u)) && (v > u <==> close > u && basicUpper > u)
    ensures var l, v, close := p.lower.value, NextLower(p, basicLower), p.prevClose.value;
            && v >= basicLower && (close >= l ==> v == Max(basicLower, l)) && (v < l <==> close < l && basicLower < l)
  {
  }

  function NextTrend(p: Channel, upper: real, lower: real, close: real): Side {
    if p.line.None? || p.line == p.upper then (if close <= upper then Short else Long)
    else (if close >= lower then Long else Short)
  }

  function Advance(factor: real, p: Channel, atr: Option<real>, b: Hlc): Channel {
    if atr.None? then p.(prevClose := Some(b.close))
    else
      var upper := NextUpper(p, BasicUpper(factor, atr.value, b));
      var lower := NextLower(p, BasicLower(factor, atr.value, b));
      var trend := NextTrend(p, upper, lower, b.close);
      Channel(Some(b.close), Some(upper), Some(lower), Some(if trend == Long then lower else upper), Some(trend))
  }

  /** The bands after a whole history of bars. */
  function BandsOf(q: Params, h: seq<Hlc>): Channel {
    if h == [] then NEW_CHANNEL
    else Advance(q.Factor(), BandsOf(q, Front(h)), AtrOf(q.Period(), h), Last(h))
  }

  /** The line is the band that the trend names; there are bands exactly when there is a trend. */
  predicate Consistent(p: Channel) {
    && (p.line.Some? <==> p.trend.Some?) && (p.upper.Some? <==> p.trend.Some?) && (p.lower.Some? <==> p.trend.Some?)
    && (p.trend.Some? ==> p.prevClose.Some? && p.line == if p.trend.value == Long then p.lower else p.upper)
  }

  lemma AdvanceConsistent(factor: real, p: Channel, atr: Option<real>, b: Hlc)
    requires Consistent(p) && (p.trend.Some? ==> atr.Some?)
    ensures Consistent(Advance(factor, p, atr, b))
    ensures Advance(factor, p, atr, b).trend.Some? <==> atr.Some?
  {
    hide BasicUpper, BasicLower;
  }

  lemma {:induction false} BandsConsistent(q: Params, h: seq<Hlc>)
    ensures Consistent(BandsOf(q, h))
    ensures BandsOf(q, h).trend.Some? <==> |h| >= q.Period()
  {
    if h != [] {
      hide Advance;
      BandsConsistent(q, Front(h));
      AdvanceConsistent(q.Factor(), BandsOf(q, Front(h)), AtrOf(q.Period(), h), Last(h));
    }
  }

  // ---------------------------------------------------------------- One bar to the next

  /** The close has not gone beyond the line it is measured against. */
  predicate Settled(p: Channel) {
    p.trend.Some? && p.line.Some? && p.prevClose.Some?
    && match p.trend.value
       case Short => p.prevClose.value <= p.line.value
       case Long => p.prevClose.value >= p.line.value
  }

  function Basic(side: Side, factor: real, atr: real, b: Hlc): real {
    match side case Long => BasicLower(factor, atr, b) case Short => BasicUpper(factor, atr, b)
  }

  /** Does the line move away from the price, against the trend? */
  predicate Loosens(side: Side, before: real, after: real) {
    match side case Long => after < before case Short => after > before
  }

  /** When a trend goes on, its line loosens exactly if the last close was beyond it and the new basic band is
      looser. */
  lemma LineLoosensExactly(factor: real, p: Channel, atr: real, b: Hlc)
    requires Consistent(p) && p.trend.Some? && Advance(factor, p, Some(atr), b).trend == p.trend
    ensures var side := p.trend.value;
            Loosens(side, p.line.value, Advance(factor, p, Some(atr), b).line.value)
            <==> !Settled(p) && Loosens(side, p.line.value, Basic(side, factor, atr, b))
  {
    hide BasicUpper, BasicLower;
  }

  /** When the trend turns: a down trend exactly on a close above the new upper band, an up trend exactly on a close
      below the new lower band, as long as its bands are distinct. The line is then the band on the other side. */
  lemma TurnsExactly(factor: real, p: Channel, atr: real, b: Hlc)
    requires Consistent(p)
    ensures var p' := Advance(factor, p, Some(atr), b);
            && p'.prevClose == Some(b.close) && p'.upper.Some? && p'.lower.Some? && p'.trend.Some?
            && (p.trend != Some(Long) || p.upper == p.lower ==>
                  (p'.trend == Some(Long) <==> b.close > p'.upper.value))
            && (p.trend == Some(Long) && p.upper != p.lower ==>
                  (p'.trend == Some(Short) <==> b.close < p'.lower.value))
            && p'.line == if p'.trend == Some(Long) then p'.lower else p'.upper
  {
    hide BasicUpper, BasicLower;
  }

  /** The first bands lie around the middle of the bar, the configured multiple of the ATR (but at least a tenth of
      it) on either side. */
  lemma FirstBandsExactly(q: Params, h: seq<Hlc>)
    requires |h| == q.Period()
    ensures var p, atr := BandsOf(q, h), AtrOf(q.Period(), h);
            var multiple := if q.multiplier > 0.1 then q.multiplier else 0.1;
            && atr.Some? && p.upper.Some? && p.lower.Some?
            && p.upper.value + p.lower.value == Last(h).high + Last(h).low
            && p.upper.value - p.lower.value == Times(multiple, atr.value) + Times(multiple, atr.value)
  {
    BandsConsistent(q, Front(h));
    hide AtrOf, Times;
  }

  /** A trend that goes on settles its close; an up trend needs the bands it started from to be distinct. */
  lemma ContinuedTrendSettles(factor: real, p: Channel, atr: real, b: Hlc)
    requires Consistent(p) && p.trend.Some? && Advance(factor, p, Some(atr), b).trend == p.trend
    requires p.trend == Some(Short) || p.upper != p.lower
    ensures Settled(Advance(factor, p, Some(atr), b))
  {
    hide BasicUpper, BasicLower;
  }

  // ---------------------------------------------------------------- Whole histories

  function TrendAt(q: Params, h: seq<Hlc>, k: nat): Option<Side>
    requires k <= |h|
  {
    BandsOf(q, h[..k]).trend
  }

  function LineAt(q: Params, h: seq<Hlc>, k: nat): real
    requires k <= |h|
  {
    var line := BandsOf(q, h[..k]).line;
    if line.Some? then line.value else 0.0
  }

  predicate DistinctAt(q: Params, h: seq<Hlc>, k: nat)
    requires k <= |h|
  {
    BandsOf(q, h[..k]).upper != BandsOf(q, h[..k]).lower
  }

  lemma BandsStep(q: Params, h: seq<Hlc>, k: nat)
    requires k < |h|
    ensures BandsOf(q, h[..k + 1]) == Advance(q.Factor(), BandsOf(q, h[..k]), AtrOf(q.Period(), h[..k + 1]), h[k])
  {
    var g := h[..k + 1];
    assert Front(g) == h[..k] && Last(g) == h[k];
  }

  /** Three bars of one trend in a row: the line does not loosen over the last two. */
  lemma ThirdBarKeepsLine(q: Params, h: seq<Hlc>, k: nat, side: Side)
    requires k + 2 <= |h|
    requires TrendAt(q, h, k) == TrendAt(q, h, k + 1) == TrendAt(q, h, k + 2) == Some(side)
    requires side == Short || DistinctAt(q, h, k)
    ensures !Loosens(side, LineAt(q, h, k + 1), LineAt(q, h, k + 2))
  {
    BandsStep(q, h, k);
    BandsStep(q, h, k + 1);
    BandsConsistent(q, h[..k]);
    BandsConsistent(q, h[..k + 1]);
    BandsConsistent(q, h[..k + 2]);
    var first, second := AtrOf(q.Period(), h[..k + 1]), AtrOf(q.Period(), h[..k + 2]);
    assert first.Some? && second.Some?;
    hide Advance, BasicLower, BasicUpper, BandsOf;
    ContinuedTrendSettles(q.Factor(), BandsOf(q, h[..k]), first.value, h[k]);
    LineLoosensExactly(q.Factor(), BandsOf(q, h[..k + 1]), second.value, h[k + 1]);
  }

  /** From the second bar of any down run the line never rises, and of any up run it never falls while the bands are
      distinct: `a` counts the bars up to the first of the run, `b` up to the last. */
  lemma {:induction false} LineOnlyTightens(q: Params, h: seq<Hlc>, a: nat, b: nat, side: Side, i: nat, j: nat)
    requires a < i <= j <= b <= |h|
    requires forall k :: a <= k <= b ==> TrendAt(q, h, k) == Some(side)
    requires side == Short || forall k :: a <= k < b ==> DistinctAt(q, h, k)
    ensures if side == Long then LineAt(q, h, i) <= LineAt(q, h, j) else LineAt(q, h, i) >= LineAt(q, h, j)
    decreases j
  {
    hide TrendAt, LineAt, DistinctAt;
    if i < j {
      LineOnlyTightens(q, h, a, b, side, i, j - 1);
      ThirdBarKeepsLine(q, h, j - 2, side);
    }
  }

  // ---------------------------------------------------------------- Where the conditions are needed

  const NARROW := Params(1, 0.1)

  lemma NarrowAtr(h: seq<Hlc>)
    requires h != []
    ensures AtrOf(1, h) == Some(TrueRange(CloseBefore(Front(h)), Last(h)))
  {
    var t := TrueRanges(h);
    assert Last(t) == TrueRange(CloseBefore(Front(h)), Last(h));
    if |h| == 1 {
      SumAppend(Itself, [], Last(t));
      assert t == [] + [Last(t)];
    }
  }

  function NarrowNext(p: Channel, b: Hlc): Channel {
    Advance(0.1, p, Some(TrueRange(p.prevClose, b)), b)
  }

  lemma NarrowStep(h: seq<Hlc>, b: Hlc, p: Channel)
    requires BandsOf(NARROW, h) == p
    ensures BandsOf(NARROW, h + [b]) == NarrowNext(p, b)
  {
    var g := h + [b];
    assert Front(g) == h && Last(g) == b;
    assert p.prevClose == CloseBefore(h);
    NarrowAtr(g);
  }

  const WIDE_BAR := Hlc(100.0, 90.0, 100.0)
  const AFTER_WIDE := Channel(Some(100.0), Some(96.0), Some(94.0), Some(94.0), Some(Long))

  lemma AfterWideBar()
    ensures BandsOf(NARROW, [WIDE_BAR]) == AFTER_WIDE
  {
    assert [] + [WIDE_BAR] == [WIDE_BAR] && BandsOf(NARROW, []) == NEW_CHANNEL;
    NarrowStep([], WIDE_BAR, NEW_CHANNEL);
  }

  /** On the first two bars of a down run the line can rise: the flip bar may close above the upper band. */
  lemma FirstDownBarCanRise()
    ensures exists h: seq<Hlc> ::
              && |h| == 3 && TrendAt(NARROW, h, 2) == TrendAt(NARROW, h, 3) == Some(Short)
              && LineAt(NARROW, h, 2) < LineAt(NARROW, h, 3)
  {
    var x, y, z := WIDE_BAR, Hlc(90.0, 80.0, 90.0), Hlc(95.0, 89.0, 92.0);
    var p, q := Channel(Some(90.0), Some(87.0), Some(94.0), Some(87.0), Some(Short)),
                Channel(Some(92.0), Some(92.6), Some(91.4), Some(92.6), Some(Short));
    assert NarrowNext(AFTER_WIDE, y) == p && NarrowNext(p, z) == q;
    hide BandsOf, NarrowNext;
    var h := [x, y, z];
    assert [x] + [y] == [x, y] && [x, y] + [z] == h;
    AfterWideBar();
    NarrowStep([x], y, AFTER_WIDE);
    NarrowStep([x, y], z, p);
    assert h[..2] == [x, y] && h[..3] == h;
    assert TrendAt(NARROW, h, 2) == Some(Short);
  }

  const EQUAL_BANDS := Channel(Some(94.0), Some(94.0), Some(94.0), Some(94.0), Some(Long))
  const CROSSED_BANDS := Channel(Some(100.0), Some(94.0), Some(177.0), Some(177.0), Some(Long))

  lemma EqualisingBar()
    ensures NarrowNext(AFTER_WIDE, Hlc(96.0, 90.0, 94.0)) == EQUAL_BANDS
  {
  }

  lemma JumpingBar()
    ensures NarrowNext(EQUAL_BANDS, Hlc(294.0, 100.0, 100.0)) == CROSSED_BANDS
  {
  }

  lemma FallingBar()
    ensures NarrowNext(CROSSED_BANDS, Hlc(110.0, 105.0, 110.0))
            == Channel(Some(110.0), Some(108.5), Some(106.5), Some(106.5), Some(Long))
  {
  }

  /** Equal bands make the code read an up trend as a down trend, and later in that up run the line can fall. */
  lemma EqualBandsLetLineFall()
    ensures exists h: seq<Hlc> ::
              && |h| == 4 && TrendAt(NARROW, h, 2) == TrendAt(NARROW, h, 3) == TrendAt(NARROW, h, 4) == Some(Long)
              && !DistinctAt(NARROW, h, 2) && LineAt(NARROW, h, 4) < LineAt(NARROW, h, 3)
  {
    hide BandsOf, NarrowNext;
    var x, y, z, u := WIDE_BAR, Hlc(96.0, 90.0, 94.0), Hlc(294.0, 100.0, 100.0), Hlc(110.0, 105.0, 110.0);
    EqualisingBar();
    JumpingBar();
    FallingBar();
    var h := [x, y, z, u];
    assert [x] + [y] == [x, y] && [x, y] + [z] == [x, y, z] && [x, y, z] + [u] == h;
    AfterWideBar();
    NarrowStep([x], y, AFTER_WIDE);
    NarrowStep([x, y], z, EQUAL_BANDS);
    NarrowStep([x, y, z], u, CROSSED_BANDS);
    assert h[..2] == [x, y] && h[..3] == [x, y, z] && h[..4] == h;
    assert TrendAt(NARROW, h, 2) == Some(Long);
  }
}
