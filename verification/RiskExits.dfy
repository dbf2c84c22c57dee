/** The risk section every position goes through on a price: track the extreme, arm the trail, then stop loss, take
    profit and trailing stop in that order. It is stated once for both sides: the stop of one side is a target of the
    other. The strategies' four hand-written copies of this code are proved against RiskStep. */
module RiskExits {
  import opened Trading
  import opened Arithmetic

  datatype Risk = Risk(stopLoss: real, takeProfit: real, trail: real, trigger: real)

  datatype Position = Position(side: Option<Side>, entry: Option<real>, highest: Option<real>, lowest: Option<real>,
                               armed: bool)

  const FLAT := Position(None, None, None, None, false)

  predicate Open(p: Position) { p.side.Some? && p.entry.Some? }

  /** The prices `pct` percent above and below `base`. */
  function Above(base: real, pct: real): real { base * (1.0 + Fraction(pct)) }

  function Below(base: real, pct: real): real { base * (1.0 - Fraction(pct)) }

  /** The price `pct` percent away from `base` in the favourable direction of `side`. */
  function Level(side: Side, base: real, pct: real): real {
    match side
    case Long => Above(base, pct)
    case Short => Below(base, pct)
  }

  /** Has x got at least as far as `level` in the favourable direction of `side`? */
  predicate Reached(side: Side, x: real, level: real) {
    match side case Long => x >= level case Short => x <= level
  }

  function Better(side: Side, x: real, y: real): real {
    match side case Long => Max(x, y) case Short => Min(x, y)
  }

  /** The best and the worst price of a candle for a holder of `side`. */
  function Favourable(side: Side, c: Candle): real {
    match side case Long => c.High() case Short => c.Low()
  }

  function Adverse(side: Side, c: Candle): real { Favourable(Opposite(side), c) }

  function Extreme(p: Position): Option<real>
    requires p.side.Some?
  {
    match p.side.value case Long => p.highest case Short => p.lowest
  }

  function SetExtreme(p: Position, x: real): Position
    requires p.side.Some?
  {
    match p.side.value case Long => p.(highest := Some(x)) case Short => p.(lowest := Some(x))
  }

  function StopLevel(r: Risk, p: Position): real
    requires Open(p)
  {
    Level(Opposite(p.side.value), p.entry.value, r.stopLoss)
  }

  function TargetLevel(r: Risk, p: Position): real
    requires Open(p)
  {
    Level(p.side.value, p.entry.value, r.takeProfit)
  }

  function TriggerLevel(r: Risk, p: Position): real
    requires Open(p)
  {
    Level(p.side.value, p.entry.value, Max(0.0, r.trigger))
  }

  function TrailLevel(r: Risk, p: Position): real
    requires p.side.Some? && Extreme(p).Some?
  {
    Level(Opposite(p.side.value), Extreme(p).value, r.trail)
  }

  /** Advance the extreme and arm the trail; no decision yet. */
  function Track(r: Risk, p: Position, c: Candle): (t: Position)
    requires Open(p)
    ensures t.side == p.side && t.entry == p.entry && Extreme(t).Some?
  {
    var side := p.side.value;
    var fav := Favourable(side, c);
    var arm := r.trigger <= 0.0 || Reached(side, fav, TriggerLevel(r, p));
    SetExtreme(p, Better(side, OrElse(Extreme(p), fav), fav)).(armed := p.armed || arm)
  }

  datatype Decision = Hold | Leave(condition: Condition, price: real)

  function Decide(r: Risk, t: Position, c: Candle): Decision
    requires Open(t) && Extreme(t).Some?
  {
    var side := t.side.value;
    var against := Opposite(side);
    if r.stopLoss > 0.0 && Reached(against, Adverse(side, c), StopLevel(r, t)) then
      Leave(StopLoss, Better(against, c.close, StopLevel(r, t)))
    else if r.takeProfit > 0.0 && Reached(side, Favourable(side, c), TargetLevel(r, t)) then
      Leave(TakeProfit, Better(side, c.close, TargetLevel(r, t)))
    else if r.trail > 0.0 && t.armed && Reached(against, Adverse(side, c), TrailLevel(r, t)) then
      Leave(TrailingStop, Better(against, c.close, TrailLevel(r, t)))
    else Hold
  }

  function RiskStep(r: Risk, p: Position, c: Candle): (Position, Decision) {
    if !Open(p) then (p, Hold)
    else
      var t := Track(r, p, c);
      var d := Decide(r, t, c);
      (if d.Hold? then t else FLAT, d)
  }

  lemma NoSideNoRisk(r: Risk, p: Position, c: Candle)
    ensures p.side.None? ==> RiskStep(r, p, c) == (p, Hold)
  {
  }

  // ---------------------------------------------------------------- One update

  lemma LevelMoves(side: Side, base: real, pct: real)
    requires base > 0.0 && pct > 0.0
    ensures side.Long? ==> Level(side, base, pct) > base
    ensures side.Short? ==> Level(side, base, pct) < base
  {
    assert base * Fraction(pct) > 0.0;
  }

  /** A protective stop can only be priced on the losing side of the entry, a target on the winning side, and a
      trailing exit no better than the trail level. */
  lemma ExitPricing(r: Risk, p: Position, c: Candle)
    requires Open(p) && p.entry.value > 0.0
    ensures var d := RiskStep(r, p, c).1; var entry := p.entry.value;
            && (d.Leave? && d.condition == StopLoss ==>
                  if p.side == Some(Long) then d.price < entry else d.price > entry)
            && (d.Leave? && d.condition == TakeProfit ==>
                  if p.side == Some(Long) then d.price > entry else d.price < entry)
            && (d.Leave? && d.condition == TrailingStop ==>
                  Reached(Opposite(p.side.value), d.price, TrailLevel(r, Track(r, p, c))))
            && (d.Leave? ==> d.condition !in {Entry, Exit})
  {
    if r.stopLoss > 0.0 { LevelMoves(Opposite(p.side.value), p.entry.value, r.stopLoss); }
    if r.takeProfit > 0.0 { LevelMoves(p.side.value, p.entry.value, r.takeProfit); }
    hide Above, Below;
  }

  /** Strictly inside every active level, written out for each side. */
  ghost predicate Inside(r: Risk, t: Position, c: Candle)
    requires Open(t) && Extreme(t).Some?
  {
    var entry := t.entry.value;
    match t.side.value
    case Long =>
      && (r.stopLoss > 0.0 ==> c.Low() > Below(entry, r.stopLoss))
      && (r.takeProfit > 0.0 ==> c.High() < Above(entry, r.takeProfit))
      && (r.trail > 0.0 && t.armed ==> c.Low() > Below(t.highest.value, r.trail))
    case Short =>
      && (r.stopLoss > 0.0 ==> c.High() < Above(entry, r.stopLoss))
      && (r.takeProfit > 0.0 ==> c.Low() > Below(entry, r.takeProfit))
      && (r.trail > 0.0 && t.armed ==> c.High() < Above(t.lowest.value, r.trail))
  }

  /** A position is left open exactly when the candle stayed strictly inside all active levels. */
  lemma HeldExactlyInside(r: Risk, p: Position, c: Candle)
    requires Open(p)
    ensures RiskStep(r, p, c).1.Hold? <==> Inside(r, Track(r, p, c), c)
    ensures RiskStep(r, p, c).1.Hold? <==> Open(RiskStep(r, p, c).0)
  {
    hide Above, Below;
  }

  /** Python's `max(x or y, y)` and `min(x or y, y)`: the best price so far, where zero stands for none. */
  function HighestSoFar(seen: Option<real>, high: real): real {
    if seen.None? || seen.value == 0.0 || seen.value < high then high else seen.value
  }

  function LowestSoFar(seen: Option<real>, low: real): real {
    if seen.None? || seen.value == 0.0 || seen.value > low then low else seen.value
  }

  /** What an update does to a LONG, given its levels: the stop loss comes first, then the take profit, then the
      trailing stop, each at the worse or better of the close and its level. */
  ghost predicate LongCase(r: Risk, p: Position, c: Candle, stop: real, target: real, trigger: real, best: real,
                           trail: real, p': Position, d: Decision)
  {
    var armed := p.armed || r.trigger <= 0.0 || c.High() >= trigger;
    if r.stopLoss > 0.0 && c.Low() <= stop then
      d == Leave(StopLoss, if c.close < stop then c.close else stop) && p' == FLAT
    else if r.takeProfit > 0.0 && c.High() >= target then
      d == Leave(TakeProfit, if c.close > target then c.close else target) && p' == FLAT
    else if r.trail > 0.0 && armed && c.Low() <= trail then
      d == Leave(TrailingStop, if c.close < trail then c.close else trail) && p' == FLAT
    else d == Hold && p' == p.(highest := Some(best), armed := armed)
  }

  /** The same for a SHORT. */
  ghost predicate ShortCase(r: Risk, p: Position, c: Candle, stop: real, target: real, trigger: real, best: real,
                            trail: real, p': Position, d: Decision)
  {
    var armed := p.armed || r.trigger <= 0.0 || c.Low() <= trigger;
    if r.stopLoss > 0.0 && c.High() >= stop then
      d == Leave(StopLoss, if c.close > stop then c.close else stop) && p' == FLAT
    else if r.takeProfit > 0.0 && c.Low() <= target then
      d == Leave(TakeProfit, if c.close < target then c.close else target) && p' == FLAT
    else if r.trail > 0.0 && armed && c.High() >= trail then
      d == Leave(TrailingStop, if c.close > trail then c.close else trail) && p' == FLAT
    else d == Hold && p' == p.(lowest := Some(best), armed := armed)
  }

  /** The outcome for either side, with its levels taken from the position and the candle. */
  ghost predicate Outcome(r: Risk, p: Position, c: Candle, p': Position, d: Decision)
    requires Open(p)
  {
    var entry := p.entry.value;
    match p.side.value
    case Long =>
      var best := HighestSoFar(p.highest, c.High());
      LongCase(r, p, c, Below(entry, r.stopLoss), Above(entry, r.takeProfit), Above(entry, r.trigger), best,
               Below(best, r.trail), p', d)
    case Short =>
      var best := LowestSoFar(p.lowest, c.Low());
      ShortCase(r, p, c, Above(entry, r.stopLoss), Below(entry, r.takeProfit), Below(entry, r.trigger), best,
                Above(best, r.trail), p', d)
  }

  /** The levels lie the given part of the base away from it, on either side. */
  lemma LevelsExactly(base: real, pct: real)
    ensures Times(100.0, Above(base, pct) - base) == Times(base, pct)
    ensures Times(100.0, base - Below(base, pct)) == Times(base, pct)
  {
    calc {
      100.0 * (base * (1.0 + pct / 100.0) - base);
    ==
      100.0 * (base * (pct / 100.0));
    ==
      base * (100.0 * (pct / 100.0));
    ==
      base * pct;
    }
    assert base - Below(base, pct) == Above(base, pct) - base;
  }

  /** The shared decision, its price and the tracked position are exactly those written out for each side. */
  lemma DecisionExactly(r: Risk, p: Position, c: Candle)
    requires Open(p)
    ensures var (p', d) := RiskStep(r, p, c); Outcome(r, p, c, p', d)
  {
    hide Above, Below;
  }

  lemma TrackTwice(r: Risk, p: Position, c: Candle)
    requires Open(p)
    ensures Track(r, Track(r, p, c), c) == Track(r, p, c)
  {
    hide Above, Below;
  }

  /** A redelivered update changes nothing and raises no second signal. */
  lemma RiskStepTwice(r: Risk, p: Position, c: Candle)
    ensures var once := RiskStep(r, p, c).0; RiskStep(r, once, c) == (once, Hold)
  {
    hide Above, Below;
    if Open(p) {
      TrackTwice(r, p, c);
    }
  }

  // ---------------------------------------------------------------- Runs within one position

  function RiskRun(r: Risk, p: Position, cs: seq<Candle>): Position {
    if cs == [] then p else RiskStep(r, RiskRun(r, p, cs[..|cs| - 1]), cs[|cs| - 1]).0
  }

  ghost predicate PositivePrices(cs: seq<Candle>) {
    forall i :: 0 <= i < |cs| ==> cs[i].Low() > 0.0 && cs[i].High() > 0.0
  }

  /** An open position whose tracked extreme is a real price. */
  ghost predicate Tracked(p: Position) {
    Open(p) && Extreme(p).Some? && Extreme(p).value > 0.0
  }

  /** For a LONG the trail follows the high only while it lies at most 100 percent below it. */
  predicate TrailFollows(r: Risk, side: Side) {
    side.Long? ==> r.trail <= 100.0
  }

  lemma TrailMonotone(side: Side, x: real, y: real, pct: real)
    requires Reached(side, y, x) && (side.Short? ==> pct >= -100.0) && (side.Long? ==> pct <= 100.0)
    ensures Reached(side, Level(Opposite(side), y, pct), Level(Opposite(side), x, pct))
  {
    match side {
      case Long => Scale(1.0 - Fraction(pct), x, y);
      case Short => Scale(1.0 + Fraction(pct), y, x);
    }
  }

  lemma TrackAdvances(r: Risk, p: Position, c: Candle)
    requires Tracked(p) && c.Low() > 0.0 && c.High() > 0.0
    ensures var t := Track(r, p, c);
            && Tracked(t) && t.side == p.side && t.entry == p.entry
            && (p.armed ==> t.armed)
            && Reached(p.side.value, Extreme(t).value, Extreme(p).value)
  {
    hide Above, Below;
  }

  /** While a position stays open over any run of positive prices, the trail stays armed once armed, and its level
      never loosens. */
  lemma {:induction false} TrailRatchets(r: Risk, p: Position, cs: seq<Candle>)
    requires Tracked(p) && PositivePrices(cs) && r.trail >= 0.0 && TrailFollows(r, p.side.value)
    requires Open(RiskRun(r, p, cs))
    ensures var q := RiskRun(r, p, cs);
            && Tracked(q) && q.side == p.side && q.entry == p.entry
            && (p.armed ==> q.armed)
            && Reached(p.side.value, TrailLevel(r, q), TrailLevel(r, p))
    decreases |cs|
  {
    if cs != [] {
      hide Above, Below, Track, Decide;
      var before, c := cs[..|cs| - 1], cs[|cs| - 1];
      var m := RiskRun(r, p, before);
      assert PositivePrices(before);
      assert Open(m);
      TrailRatchets(r, p, before);
      TrackAdvances(r, m, c);
      TrailMonotone(p.side.value, Extreme(m).value, Extreme(Track(r, m, c)).value, r.trail);
    }
  }

  /** Does the candle take the position as far as the trigger? */
  predicate Triggers(r: Risk, p: Position, c: Candle)
    requires Open(p)
  {
    r.trigger <= 0.0
    || match p.side.value
       case Long => c.High() >= Above(p.entry.value, r.trigger)
       case Short => c.Low() <= Below(p.entry.value, r.trigger)
  }

  predicate AsGood(p: Position, x: real, y: real)
    requires Open(p)
  {
    match p.side.value case Long => x >= y case Short => x <= y
  }

  lemma OneUpdate(r: Risk, p: Position, c: Candle)
    requires Tracked(p) && c.Low() > 0.0 && c.High() > 0.0 && RiskStep(r, p, c).1.Hold?
    ensures var q := RiskStep(r, p, c).0;
            && Tracked(q) && q.side == p.side && q.entry == p.entry
            && (q.armed <==> p.armed || Triggers(r, p, c))
            && AsGood(p, Extreme(q).value, Favourable(p.side.value, c)) && AsGood(p, Extreme(q).value, Extreme(p).value)
            && (Extreme(q) == Extreme(p) || Extreme(q).value == Favourable(p.side.value, c))
  {
    DecisionExactly(r, p, c);
    hide RiskStep, Above, Below;
  }

  /** Over any run of updates that leaves the position open: the tracked extreme is the best price seen since it was
      opened, and the trail is armed exactly if it was before or some candle reached the trigger. */
  lemma {:induction false} TrackedExactly(r: Risk, p: Position, cs: seq<Candle>)
    requires Tracked(p) && PositivePrices(cs) && Open(RiskRun(r, p, cs))
    ensures var q := RiskRun(r, p, cs);
            && Tracked(q) && q.side == p.side && q.entry == p.entry
            && (q.armed <==> p.armed || exists i :: 0 <= i < |cs| && Triggers(r, p, cs[i]))
            && AsGood(p, Extreme(q).value, Extreme(p).value)
            && (forall i :: 0 <= i < |cs| ==> AsGood(p, Extreme(q).value, Favourable(p.side.value, cs[i])))
            && (Extreme(q) == Extreme(p)
                || exists i :: 0 <= i < |cs| && Extreme(q).value == Favourable(p.side.value, cs[i]))
    decreases |cs|
  {
    if cs != [] {
      var before, c := cs[..|cs| - 1], cs[|cs| - 1];
      var m := RiskRun(r, p, before);
      assert PositivePrices(before);
      StaysShut(r, m, c);
      hide RiskStep, Triggers;
      TrackedExactly(r, p, before);
      OneUpdate(r, m, c);
      SameTrigger(r, p, m, c);
      assert forall i :: 0 <= i < |before| ==> before[i] == cs[i];
    }
  }

  lemma StaysShut(r: Risk, p: Position, c: Candle)
    requires Open(RiskStep(r, p, c).0)
    ensures Open(p) && RiskStep(r, p, c).1.Hold?
  {
    hide Above, Below;
  }

  lemma SameTrigger(r: Risk, p: Position, q: Position, c: Candle)
    requires Open(p) && q.side == p.side && q.entry == p.entry
    ensures Triggers(r, q, c) <==> Triggers(r, p, c)
  {
  }

  /** Does one held update of any LONG at positive prices keep the trail from loosening? */
  ghost predicate LongTrailRatchets(r: Risk) {
    forall p: Position, c: Candle {:trigger Track(r, p, c)} ::
      Tracked(p) && p.side == Some(Long) && p.armed && c.Low() > 0.0 && c.High() > 0.0 && RiskStep(r, p, c).1.Hold?
      ==> TrailLevel(r, Track(r, p, c)) >= TrailLevel(r, p)
  }

  /** A concrete LONG and candle on which a trail wider than 100 percent loosens. */
  lemma WideTrailLoosens(r: Risk) returns (p: Position, c: Candle)
    requires r.trail > 100.0
    ensures Tracked(p) && p.side == Some(Long) && p.armed && c.Low() > 0.0 && c.High() > 0.0
    ensures RiskStep(r, p, c).1.Hold? && TrailLevel(r, Track(r, p, c)) < TrailLevel(r, p)
  {
    var gain := if 0.0 < r.takeProfit < 2.0 then r.takeProfit / 2.0 else 1.0;
    var high := 100.0 + gain;
    p := Position(Some(Long), Some(100.0), Some(100.0), Some(100.0), true);
    c := Candle(1, 100.0, 0.0, Some(high), Some(100.0));
    var t := Track(r, p, c);
    assert t.highest == Some(high) && t.armed;
    assert TargetLevel(r, t) == 100.0 + r.takeProfit;
    assert StopLevel(r, t) == 100.0 - r.stopLoss;
    assert TrailLevel(r, t) == high * (1.0 - r.trail / 100.0) && TrailLevel(r, p) == 100.0 * (1.0 - r.trail / 100.0);
    ScaleStrict(r.trail / 100.0 - 1.0, 100.0, high);
    assert high * (1.0 - r.trail / 100.0) == -((r.trail / 100.0 - 1.0) * high);
    assert 100.0 * (1.0 - r.trail / 100.0) == -((r.trail / 100.0 - 1.0) * 100.0);
  }

  /** The ratchet holds for LONG positions exactly when the trail is at most 100 percent. */
  lemma LongTrailRatchetsExactly(r: Risk)
    ensures LongTrailRatchets(r) <==> r.trail <= 100.0
  {
    if r.trail > 100.0 {
      var p, c := WideTrailLoosens(r);
      assert !(TrailLevel(r, Track(r, p, c)) >= TrailLevel(r, p));
    } else {
      forall p: Position, c: Candle | Tracked(p) && p.side == Some(Long) && c.Low() > 0.0 && c.High() > 0.0
        ensures TrailLevel(r, Track(r, p, c)) >= TrailLevel(r, p)
      {
        TrackAdvances(r, p, c);
        TrailMonotone(Long, Extreme(p).value, Extreme(Track(r, p, c)).value, r.trail);
      }
    }
  }
}
