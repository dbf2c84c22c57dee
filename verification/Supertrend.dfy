/** The supertrend strategy: always on the side of the trend, except after a close from outside, when it waits for
    the trend to turn. */
module Supertrend {
  import opened Trading
  import opened Arithmetic
  import opened Indicators
  import opened Oscillators
  import opened SupertrendBands
  import opened StrategyModel

  datatype Holding = Holding(side: Option<Side>, entry: Option<real>, lock: Option<Side>)

  const EMPTY := Holding(None, None, None)

  /** Close time of the newest candle, the bars seen, and the position. */
  datatype State = State(last: int, bars: seq<Hlc>, pos: Holding)

  function Unlock(h: Holding, trend: Side): Holding {
    if h.lock == Some(Opposite(trend)) then h.(lock := None) else h
  }

  function ExitOf(side: Side, price: real): Signal { Signal(Opening(Opposite(side)), price, Exit) }

  function EntryOf(side: Side, price: real): Signal { Signal(Opening(side), price, Entry) }

  /** Enter on the trend's side unless already there or locked, closing an opposite position first. */
  function Follow(h: Holding, trend: Side, price: real): (Holding, seq<Signal>) {
    var h := Unlock(h, trend);
    if h.lock != Some(trend) && (h.side != Some(trend) || h.entry.None?) then
      (h.(side := Some(trend), entry := Some(price)),
       (if h.side == Some(Opposite(trend)) && h.entry.Some? then [ExitOf(Opposite(trend), price)] else [])
       + [EntryOf(trend, price)])
    else (h, [])
  }

  function OnClosed(q: Params, s: State, c: Candle, warmup: bool): (State, seq<Signal>) {
    if c.closeTime <= s.last then (s, [])
    else
      var bars := s.bars + [Hlc(c.High(), c.Low(), c.close)];
      var trend := BandsOf(q, bars).trend;
      if trend.None? || warmup then (State(c.closeTime, bars, s.pos), [])
      else
        var (h, signals) := Follow(s.pos, trend.value, c.close);
        (State(c.closeTime, bars, h), signals)
  }

  function CloseFromOutside(h: Holding): Holding {
    Holding(None, None, if h.side.Some? then h.side else h.lock)
  }

  /** The strategy does not act on price updates. */
  function Step(q: Params, s: State, e: Event): (State, seq<Signal>) {
    match e
    case ClosedCandle(c) => OnClosed(q, s, c, false)
    case PriceUpdate(_) => (s, [])
    case ExternalClose => (s.(pos := CloseFromOutside(s.pos)), [])
  }

  // ---------------------------------------------------------------- The mutable strategy

  lemma NextBands(q: Params, seen: seq<Hlc>, b: Hlc)
    ensures var atr := AtrOf(q.Period(), seen + [b]);
            && BandsOf(q, seen + [b]) == Advance(q.Factor(), BandsOf(q, seen), atr, b)
            && (atr.None? ==> BandsOf(q, seen).trend.None?)
  {
    hide Advance, Consistent;
    assert Front(seen + [b]) == seen;
    BandsConsistent(q, seen);
  }

  class SupertrendStrategy {
    const q: Params
    const atr: ATR
    var lastCloseTime: int
    var prevClose: Option<real>
    var prevFinalUpper: Option<real>
    var prevFinalLower: Option<real>
    var prevSupertrend: Option<real>
    var trend: Option<Side>
    var positionSide: Option<Side>
    var entryPrice: Option<real>
    var reentryLockSide: Option<Side>

    function Bands(): Channel
      reads this
    {
      Channel(prevClose, prevFinalUpper, prevFinalLower, prevSupertrend, trend)
    }

    function Position(): Holding
      reads this
    {
      Holding(positionSide, entryPrice, reentryLockSide)
    }

    /** The incrementally kept bands are those recomputed from all bars seen. */
    ghost predicate Valid()
      reads this, atr, atr.rma
    {
      atr.Valid() && atr.n == q.Period() && Bands() == BandsOf(q, atr.seen)
    }

    ghost function Value(): State
      reads this, atr
    {
      State(lastCloseTime, atr.seen, Position())
    }

    constructor (q: Params)
      ensures Valid() && this.q == q && Value() == State(0, [], EMPTY) && fresh(atr) && fresh(atr.rma)
    {
      this.q := q;
      atr := new ATR(q.atrPeriod);
      lastCloseTime, prevClose, prevFinalUpper, prevFinalLower, prevSupertrend := 0, None, None, None, None;
      trend, positionSide, entryPrice, reentryLockSide := None, None, None, None;
    }

    method FinalBands(basicUpper: real, basicLower: real) returns (finalUpper: real, finalLower: real)
      ensures finalUpper == NextUpper(Bands(), basicUpper) && finalLower == NextLower(Bands(), basicLower)
    {
      finalUpper, finalLower := basicUpper, basicLower;
      if prevFinalUpper.Some? && prevFinalLower.Some? && prevClose.Some? {
        if !(basicUpper < prevFinalUpper.value || prevClose.value > prevFinalUpper.value) {
          finalUpper := prevFinalUpper.value;
        }
        if !(basicLower > prevFinalLower.value || prevClose.value < prevFinalLower.value) {
          finalLower := prevFinalLower.value;
        }
      }
    }

    method PickTrend(finalUpper: real, finalLower: real, closePx: real) returns (next: Side)
      ensures next == NextTrend(Bands(), finalUpper, finalLower, closePx)
    {
      if prevSupertrend.None? || prevSupertrend == prevFinalUpper {
        next := if closePx <= finalUpper then Short else Long;
      } else {
        next := if closePx >= finalLower then Long else Short;
      }
    }

    method UpdateSupertrend(highPx: real, lowPx: real, closePx: real) returns (r: Option<Side>)
      requires Valid()
      modifies this`prevClose, this`prevFinalUpper, this`prevFinalLower, this`prevSupertrend, this`trend, atr, atr.rma
      ensures Valid() && atr.seen == old(atr.seen) + [Hlc(highPx, lowPx, closePx)]
      ensures r == BandsOf(q, atr.seen).trend
    {
      hide Times;
      ghost var b, before := Hlc(highPx, lowPx, closePx), Bands();
      NextBands(q, atr.seen, b);
      var atrValue := atr.Update(highPx, lowPx, closePx);
      hide BandsOf, AtrOf, NextUpper, NextLower, NextTrend;
      if atrValue.None? {
        prevClose := Some(closePx);
        return None;
      }
      var hl2 := (highPx + lowPx) / 2.0;
      var basicUpper := hl2 + Times(q.Factor(), atrValue.value);
      var basicLower := hl2 - Times(q.Factor(), atrValue.value);
      var finalUpper, finalLower := FinalBands(basicUpper, basicLower);
      var next := PickTrend(finalUpper, finalLower, closePx);
      var supertrend := if next == Long then finalLower else finalUpper;
      prevFinalUpper := Some(finalUpper);
      prevFinalLower := Some(finalLower);
      prevSupertrend := Some(supertrend);
      prevClose := Some(closePx);
      trend := Some(next);
      r := Some(next);
    }

    method Enter(side: Side, price: real) returns (sig: Signal)
      modifies this`positionSide, this`entryPrice
      ensures Position() == old(Position()).(side := Some(side), entry := Some(price)) && sig == EntryOf(side, price)
    {
      positionSide := Some(side);
      entryPrice := Some(price);
      sig := Signal(if side == Long then BUY else SELL, price, Entry);
    }

    method OnClosedCandle(c: Candle, warmup: bool) returns (signals: seq<Signal>)
      requires Valid()
      modifies this, atr, atr.rma
      ensures Valid() && (Value(), signals) == OnClosed(q, old(Value()), c, warmup)
    {
      hide BandsOf, AtrOf;
      signals := [];
      if c.closeTime <= lastCloseTime {
        return;
      }
      lastCloseTime := c.closeTime;
      var t := UpdateSupertrend(c.High(), c.Low(), c.close);
      if t.None? || warmup {
        return;
      }
      signals := FollowTrend(t.value, c.close);
    }

    method FollowTrend(t: Side, price: real) returns (signals: seq<Signal>)
      modifies this`positionSide, this`entryPrice, this`reentryLockSide
      ensures (Position(), signals) == Follow(old(Position()), t, price)
    {
      signals := [];
      if (reentryLockSide == Some(Long) && t == Short) || (reentryLockSide == Some(Short) && t == Long) {
        reentryLockSide := None;
      }
      var tracked := entryPrice.Some?;
      if t == Long && reentryLockSide != Some(Long) && (positionSide != Some(Long) || !tracked) {
        if positionSide == Some(Short) && tracked {
          signals := [Signal(BUY, price, Exit)];
        }
        var entry := Enter(Long, price);
        signals := signals + [entry];
      } else if t == Short && reentryLockSide != Some(Short) && (positionSide != Some(Short) || !tracked) {
        if positionSide == Some(Long) && tracked {
          signals := [Signal(SELL, price, Exit)];
        }
        var entry := Enter(Short, price);
        signals := signals + [entry];
      }
    }

    method OnExternalClose()
      modifies this`positionSide, this`entryPrice, this`reentryLockSide
      ensures Position() == CloseFromOutside(old(Position()))
    {
      var exited := positionSide;
      positionSide, entryPrice := None, None;
      if exited.Some? {
        reentryLockSide := exited;
      }
    }
  }

  // ---------------------------------------------------------------- Single steps

  /** A side exactly when an entry price, and no position while a lock is set. */
  predicate Sound(h: Holding) {
    && (h.side.Some? <==> h.entry.Some?)
    && (h.lock.Some? ==> h.side.None?)
  }

  lemma OneOfTwo(o: Option<Side>, side: Side)
    ensures o == None || o == Some(side) || o == Some(Opposite(side))
  {
    if o.Some? {
      match (o.value, side) {
        case (Long, Long) =>
        case (Long, Short) =>
        case (Short, _) =>
      }
    }
  }

  /** After a live bar with a trend the position is on the trend's side, unless the lock forbids exactly that side. */
  lemma FollowKeeps(h: Holding, trend: Side, price: real)
    requires Sound(h)
    ensures var (h', signals) := Follow(h, trend, price);
            && Sound(h')
            && ((h'.side == Some(trend) && h'.lock.None?) || (h'.side.None? && h'.lock == Some(trend)))
            && (signals != [] ==> h'.side == Some(trend))
            && Alternates(h.side, signals) && h'.side == SideAfter(h.side, signals)
            && (forall i :: 0 <= i < |signals| ==> signals[i].price == price)
            && (signals != [] ==> h'.entry == Some(price)) && (signals == [] ==> h'.entry == h.entry)
  {
    OneOfTwo(h.lock, trend);
    OneOfTwo(h.side, trend);
    var signals := Follow(h, trend, price).1;
    if |signals| == 1 {
      assert signals[1..] == [];
    } else if |signals| == 2 {
      assert signals[1..] == [signals[1]] && signals[1..][1..] == [];
      assert SideAfter(Moved(signals[0]), signals[1..]) == Moved(signals[1]);
    }
  }

  // ---------------------------------------------------------------- The strategy as the runner sees it

  function Warmed(q: Params, history: seq<Candle>): State {
    if history == [] then State(0, [], EMPTY)
    else OnClosed(q, Warmed(q, Front(history)), Last(history), true).0
  }

  lemma {:induction false} WarmedIsFlat(q: Params, history: seq<Candle>)
    ensures Warmed(q, history).pos == EMPTY
  {
    if history != [] {
      WarmedIsFlat(q, Front(history));
    }
  }

  function Model(q: Params, history: seq<Candle>): Strategy<State> {
    Strategy(Warmed(q, history), (s: State, e: Event) => Step(q, s, e), (s: State) => s.pos.side,
             (s: State) => s.last)
  }

  lemma ModelIsSinglePosition(q: Params, history: seq<Candle>)
    ensures SinglePosition(Model(q, history), (s: State) => Sound(s.pos))
  {
    hide BandsOf, Follow, Alternates;
    WarmedIsFlat(q, history);
    forall s: State, e: Event | Sound(s.pos)
      ensures Sound(Step(q, s, e).0.pos)
      ensures Accounts(e, s.pos.side, Step(q, s, e).1, Step(q, s, e).0.pos.side)
    {
      StepKeeps(q, s, e);
    }
  }

  lemma StepKeeps(q: Params, s: State, e: Event)
    requires Sound(s.pos)
    ensures var (s', signals) := Step(q, s, e);
            Sound(s'.pos) && Accounts(e, s.pos.side, signals, s'.pos.side)
  {
    hide BandsOf, Follow;
    if e.ClosedCandle? && e.candle.closeTime > s.last {
      var c := e.candle;
      var trend := BandsOf(q, s.bars + [Hlc(c.High(), c.Low(), c.close)]).trend;
      if trend.Some? {
        FollowKeeps(s.pos, trend.value, c.close);
      }
    }
  }

  lemma ModelIsGated(q: Params, history: seq<Candle>)
    ensures GatedByCloseTime(Model(q, history))
  {
    hide BandsOf, Follow;
  }

  // ---------------------------------------------------------------- Whole runs

  ghost predicate IsRun(q: Params, states: seq<State>, events: seq<Event>) {
    && |states| == |events| + 1 && states[0].pos == EMPTY
    && forall i :: 0 <= i < |events| ==> states[i + 1] == Step(q, states[i], events[i]).0
  }

  /** The trend a live bar showed, if the event was a new closed candle with a trend. */
  function TrendShown(q: Params, s: State, e: Event): Option<Side> {
    if e.ClosedCandle? && e.candle.closeTime > s.last
    then BandsOf(q, s.bars + [Hlc(e.candle.High(), e.candle.Low(), e.candle.close)]).trend
    else None
  }

  /** In every run: a lock implies no position, and after each live bar with a trend the position is on the trend's
      side unless a lock holds that side shut. */
  lemma {:induction false} RunFollowsTrend(q: Params, states: seq<State>, events: seq<Event>, n: nat)
    requires IsRun(q, states, events) && n <= |events|
    ensures Sound(states[n].pos)
    ensures n < |events| && TrendShown(q, states[n], events[n]).Some? ==>
              var trend := TrendShown(q, states[n], events[n]); var h := states[n + 1].pos;
              (h.side == trend && h.lock.None?) || (h.side.None? && h.lock == trend)
    decreases n
  {
    hide BandsOf, Follow;
    if n > 0 {
      RunFollowsTrend(q, states, events, n - 1);
      StepKeeps(q, states[n - 1], events[n - 1]);
    }
    if n < |events| && TrendShown(q, states[n], events[n]).Some? {
      FollowKeeps(states[n].pos, TrendShown(q, states[n], events[n]).value, events[n].candle.close);
    }
  }

  /** The signals of a live bar, written out: none while on the trend's side or locked out of it, else an entry, after
      the exit of an opposite position; the lock survives exactly while the trend stays on its side. */
  lemma LiveSignalsExactly(h: Holding, trend: Side, price: real)
    requires Sound(h)
    ensures var (h', signals) := Follow(h, trend, price);
            var up := trend == Long;
            var entry := Signal(if up then BUY else SELL, price, Entry);
            var exit := Signal(if up then BUY else SELL, price, Exit);
            && (h'.lock == if h.lock == Some(trend) then h.lock else None)
            && signals == if h.side == Some(trend) || h.lock == Some(trend) then []
                          else if h.side.Some? then [exit, entry] else [entry]
  {
    OneOfTwo(h.lock, trend);
    OneOfTwo(h.side, trend);
  }

  // ---------------------------------------------------------------- Re-entry after an outside close

  ghost predicate TurnSeen(q: Params, states: seq<State>, events: seq<Event>, lo: nat, hi: nat, side: Side)
    requires hi <= |events| && hi <= |states|
  {
    exists j :: lo <= j < hi && TrendShown(q, states[j], events[j]) == Some(Opposite(side))
  }

  lemma {:induction false} LockIsHeld(q: Params, states: seq<State>, events: seq<Event>, i: nat, m: nat, side: Side)
    requires IsRun(q, states, events) && i < m <= |events|
    requires events[i].ExternalClose? && states[i].pos.side == Some(side)
    ensures TurnSeen(q, states, events, i + 1, m, side) || states[m].pos == Holding(None, None, Some(side))
    decreases m
  {
    hide BandsOf;
    if m > i + 1 {
      LockIsHeld(q, states, events, i, m - 1, side);
      if TurnSeen(q, states, events, i + 1, m - 1, side) {
        var j :| i + 1 <= j < m - 1 && TrendShown(q, states[j], events[j]) == Some(Opposite(side));
        assert TrendShown(q, states[j], events[j]) == Some(Opposite(side));
      } else {
        assert TrendShown(q, states[m - 1], events[m - 1]) != Some(Opposite(side))
               || TurnSeen(q, states, events, i + 1, m, side);
      }
    }
  }

  /** After a position was closed from outside, its side is entered again only once the trend has turned against it
      on a bar in between. */
  lemma ReentryNeedsTurn(q: Params, states: seq<State>, events: seq<Event>, i: nat, k: nat, side: Side)
    requires IsRun(q, states, events) && i < k < |events|
    requires events[i].ExternalClose? && states[i].pos.side == Some(side)
    requires states[k].pos.side.None? && states[k + 1].pos.side == Some(side)
    ensures TurnSeen(q, states, events, i + 1, k, side)
  {
    hide BandsOf;
    LockIsHeld(q, states, events, i, k, side);
  }
}
