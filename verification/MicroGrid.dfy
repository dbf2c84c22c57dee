/** The micro-grid strategy: buy one step below the anchor, sell the oldest buy one step above it. */
module MicroGrid {
  import opened Trading
  import opened Arithmetic
  import opened Indicators
  import opened RiskExits

  datatype Config = Config(gridStepPct: real, cooldownBars: int, trendPeriod: int)

  type Id = nat

  datatype Lot = Lot(id: Id, price: real)

  datatype Order = GridBuy(entry: Lot) | GridSell(entry: Lot, exitPrice: real)

  /** Close time of the newest candle, the closes fed to the trend EMA, the anchor, the cooldown and the open buys. */
  datatype State = State(last: int, closes: seq<real>, anchor: Option<real>, cooldown: int, open: seq<Lot>)

  const START := State(0, [], None, 0, [])

  datatype Crossing = Down | Up | Stay

  function Cross(cfg: Config, anchor: real, close: real): Crossing {
    if close <= Below(anchor, cfg.gridStepPct) then Down
    else if close >= Above(anchor, cfg.gridStepPct) then Up
    else Stay
  }

  function Trade(cfg: Config, s: State, anchor: real, close: real, newId: Id): (State, Option<Order>) {
    var moved := s.(anchor := Some(close));
    match Cross(cfg, anchor, close)
    case Stay => (s, None)
    case Down =>
      if |s.closes| < cfg.trendPeriod || close < EmaOf(Alpha(cfg.trendPeriod), s.closes) then (moved, None)
      else
        var entry := Lot(newId, close);
        (moved.(cooldown := cfg.cooldownBars, open := s.open + [entry]), Some(GridBuy(entry)))
    case Up =>
      var cooled := moved.(cooldown := cfg.cooldownBars);
      if s.open == [] then (cooled, None)
      else (cooled.(open := s.open[1..]), Some(GridSell(s.open[0], close)))
  }

  function OnClosed(cfg: Config, s: State, c: Candle, warmup: bool, newId: Id): (State, Option<Order>) {
    if c.closeTime <= s.last then (s, None)
    else
      var fed := s.(last := c.closeTime, closes := s.closes + [c.close]);
      if warmup || s.anchor.None? then (fed.(anchor := Some(c.close)), None)
      else if s.cooldown > 0 then (fed.(cooldown := s.cooldown - 1), None)
      else Trade(cfg, fed, s.anchor.value, c.close, newId)
  }

  // ---------------------------------------------------------------- The mutable strategy

  class MicroGridStrategy {
    const cfg: Config
    const trendEma: EMA
    var lastCloseTime: int
    var anchorPrice: Option<real>
    var cooldown: int
    var openEntries: seq<Lot>

    ghost predicate Valid()
      reads this, trendEma
    {
      trendEma.Valid() && trendEma.alpha == Alpha(cfg.trendPeriod)
    }

    ghost function Value(): State
      reads this, trendEma
    {
      State(lastCloseTime, trendEma.seen, anchorPrice, cooldown, openEntries)
    }

    constructor (cfg: Config)
      ensures Valid() && this.cfg == cfg && Value() == START && fresh(trendEma)
    {
      this.cfg := cfg;
      trendEma := new EMA(cfg.trendPeriod);
      lastCloseTime, anchorPrice, cooldown, openEntries := 0, None, 0, [];
    }

    method OnClosedCandle(c: Candle, warmup: bool, newId: Id) returns (order: Option<Order>)
      requires Valid()
      modifies this, trendEma
      ensures Valid() && (Value(), order) == OnClosed(cfg, old(Value()), c, warmup, newId)
    {
      hide Above, Below, Blend, EmaOf;
      order := None;
      if c.closeTime <= lastCloseTime {
        return;
      }
      lastCloseTime := c.closeTime;
      var trendPx := trendEma.Update(c.close);
      if warmup || anchorPrice.None? {
        anchorPrice := Some(c.close);
        return;
      }
      if cooldown > 0 {
        cooldown := cooldown - 1;
        return;
      }
      var lower := Below(anchorPrice.value, cfg.gridStepPct);
      var upper := Above(anchorPrice.value, cfg.gridStepPct);
      if c.close <= lower {
        if trendEma.count < cfg.trendPeriod || c.close < trendPx {
          anchorPrice := Some(c.close);
          return;
        }
        openEntries := openEntries + [Lot(newId, c.close)];
        anchorPrice := Some(c.close);
        cooldown := cfg.cooldownBars;
        return Some(GridBuy(Lot(newId, c.close)));
      }
      if c.close >= upper {
        anchorPrice := Some(c.close);
        cooldown := cfg.cooldownBars;
        if openEntries == [] {
          return;
        }
        var entry := openEntries[0];
        openEntries := openEntries[1..];
        return Some(GridSell(entry, c.close));
      }
    }
  }

  // ---------------------------------------------------------------- Runs

  /** A close from outside only touches the cooldown here. */
  datatype Event = Bar(candle: Candle, warmup: bool, newId: Id) | ExternalClose

  function Step(cfg: Config, s: State, e: Event): (State, Option<Order>) {
    match e
    case Bar(c, warmup, newId) => OnClosed(cfg, s, c, warmup, newId)
    case ExternalClose => (s.(cooldown := MaxInt(s.cooldown, cfg.cooldownBars)), None)
  }

  ghost predicate IsRun(cfg: Config, states: seq<State>, events: seq<Event>) {
    && |states| == |events| + 1 && states[0] == START
    && forall i :: 0 <= i < |events| ==> states[i + 1] == Step(cfg, states[i], events[i]).0
  }

  function Orders(cfg: Config, states: seq<State>, events: seq<Event>, n: nat): seq<Order>
    requires n <= |events| && n <= |states|
  {
    if n == 0 then []
    else
      var order := Step(cfg, states[n - 1], events[n - 1]).1;
      Orders(cfg, states, events, n - 1) + (if order.Some? then [order.value] else [])
  }

  function Bought(orders: seq<Order>): seq<Lot> {
    if orders == [] then []
    else Bought(Front(orders)) + (if Last(orders).GridBuy? then [Last(orders).entry] else [])
  }

  function Sold(orders: seq<Order>): seq<Lot> {
    if orders == [] then []
    else Sold(Front(orders)) + (if Last(orders).GridSell? then [Last(orders).entry] else [])
  }

  lemma OrdersGrow(orders: seq<Order>, o: Order)
    ensures Bought(orders + [o]) == Bought(orders) + (if o.GridBuy? then [o.entry] else [])
    ensures Sold(orders + [o]) == Sold(orders) + (if o.GridSell? then [o.entry] else [])
  {
    assert Front(orders + [o]) == orders;
  }

  /** What a step does to the queue of open buys. */
  lemma StepIsFifo(cfg: Config, s: State, e: Event)
    ensures var (s', order) := Step(cfg, s, e);
            && (order.None? ==> s'.open == s.open)
            && (order.Some? && order.value.GridBuy? ==> s'.open == s.open + [order.value.entry])
            && (order.Some? && order.value.GridSell? ==> s.open == [order.value.entry] + s'.open)
  {
    hide Above, Below, EmaOf;
  }

  /** First in, first out, in every run: the entries sold so far, followed by the open ones, are the entries bought.
      So the sold ids are a prefix of the bought ids and the open entries are exactly the rest. */
  lemma {:induction false} GridIsFifo(cfg: Config, states: seq<State>, events: seq<Event>, n: nat)
    requires IsRun(cfg, states, events) && n <= |events|
    ensures var orders := Orders(cfg, states, events, n); Bought(orders) == Sold(orders) + states[n].open
    decreases n
  {
    hide Step;
    if n > 0 {
      GridIsFifo(cfg, states, events, n - 1);
      StepIsFifo(cfg, states[n - 1], events[n - 1]);
      var orders, order := Orders(cfg, states, events, n - 1), Step(cfg, states[n - 1], events[n - 1]).1;
      if order.Some? {
        OrdersGrow(orders, order.value);
      } else {
        assert Orders(cfg, states, events, n) == orders;
      }
    }
  }

  ghost predicate DistinctIds(entries: seq<Lot>) {
    forall i, j :: 0 <= i < j < |entries| ==> entries[i].id != entries[j].id
  }

  /** When buy ids are fresh, no id is sold twice and no id is both sold and still open. */
  lemma NoDoubleSale(cfg: Config, states: seq<State>, events: seq<Event>, n: nat)
    requires IsRun(cfg, states, events) && n <= |events|
    requires DistinctIds(Bought(Orders(cfg, states, events, n)))
    ensures var sold := Sold(Orders(cfg, states, events, n));
            && DistinctIds(sold)
            && forall i, j :: 0 <= i < |sold| && 0 <= j < |states[n].open| ==> sold[i].id != states[n].open[j].id
  {
    hide Step, IsRun, Orders;
    assert |states| == |events| + 1 by { RunLength(cfg, states, events); }
    GridIsFifo(cfg, states, events, n);
    var orders := Orders(cfg, states, events, n);
    var bought, sold := Bought(orders), Sold(orders);
    forall i, j | 0 <= i < |sold| && 0 <= j < |states[n].open| ensures sold[i].id != states[n].open[j].id {
      assert bought[i] == sold[i] && bought[|sold| + j] == states[n].open[j];
    }
    forall i, j | 0 <= i < j < |sold| ensures sold[i].id != sold[j].id {
      assert bought[i] == sold[i] && bought[j] == sold[j];
    }
  }

  lemma RunLength(cfg: Config, states: seq<State>, events: seq<Event>)
    requires IsRun(cfg, states, events)
    ensures |states| == |events| + 1
  {
  }

  /** A live bar, written out. While cooling only the cooldown is counted down. Otherwise the strategy buys exactly at
      or below the lower grid line with the trend known and not above the price, and sells the oldest buy exactly at
      or above the upper line if there is one; crossing a line moves the anchor to the close, and an order or an
      upward crossing starts the cooldown. */
  lemma LiveBarExactly(cfg: Config, s: State, c: Candle, newId: Id)
    requires c.closeTime > s.last && s.anchor.Some?
    ensures var (s', order) := OnClosed(cfg, s, c, false, newId);
            var closes := s.closes + [c.close];
            var trending := |closes| >= cfg.trendPeriod && c.close >= EmaOf(Alpha(cfg.trendPeriod), closes);
            var low := c.close <= Below(s.anchor.value, cfg.gridStepPct);
            var high := !low && c.close >= Above(s.anchor.value, cfg.gridStepPct);
            && s'.last == c.closeTime && s'.closes == closes
            && if s.cooldown > 0 then order.None? && s' == s.(last := c.closeTime, closes := closes,
                                                              cooldown := s.cooldown - 1)
               else
                 && order == (if low && trending then Some(GridBuy(Lot(newId, c.close)))
                              else if high && s.open != [] then Some(GridSell(s.open[0], c.close))
                              else None)
                 && s'.anchor == (if low || high then Some(c.close) else s.anchor)
                 && s'.cooldown == (if (low && trending) || high then cfg.cooldownBars else s.cooldown)
  {
    hide Above, Below, EmaOf;
  }

  /** A stale bar changes nothing; a warm-up bar, or the very first, only sets the anchor. */
  lemma QuietBarExactly(cfg: Config, s: State, c: Candle, warmup: bool, newId: Id)
    requires c.closeTime <= s.last || warmup || s.anchor.None?
    ensures OnClosed(cfg, s, c, warmup, newId)
            == (if c.closeTime <= s.last then s
                else State(c.closeTime, s.closes + [c.close], Some(c.close), s.cooldown, s.open), None)
  {
  }

  // ---------------------------------------------------------------- How far the anchor has moved

  /** The grid line crossed by an event, if it was a bar that the strategy traded on. */
  function Crossed(cfg: Config, s: State, e: Event): Crossing {
    if e.Bar? && e.candle.closeTime > s.last && !e.warmup && s.anchor.Some? && s.cooldown <= 0
    then Cross(cfg, s.anchor.value, e.candle.close)
    else Stay
  }

  function Count(cfg: Config, states: seq<State>, events: seq<Event>, way: Crossing, lo: nat, hi: nat): nat
    requires hi <= |events| && hi <= |states|
  {
    if hi <= lo then 0
    else Count(cfg, states, events, way, lo, hi - 1)
         + (if Crossed(cfg, states[hi - 1], events[hi - 1]) == way then 1 else 0)
  }

  function Power(x: real, k: nat): real {
    if k == 0 then 1.0 else Times(Power(x, k - 1), x)
  }

  lemma CompoundDown(a: real, p: real, f: real, x: real, y: real)
    requires f >= 0.0 && x <= Times(a, p) && y <= Times(x, f)
    ensures y <= Times(a, Times(p, f))
  {
    Scale(f, x, a * p);
    assert f * (a * p) == a * (p * f);
  }

  lemma CompoundUp(a: real, p: real, f: real, x: real, y: real)
    requires f >= 0.0 && x >= Times(a, p) && y >= Times(x, f)
    ensures y >= Times(a, Times(p, f))
  {
    Scale(f, a * p, x);
    assert f * (a * p) == a * (p * f);
  }

  function DownFactor(cfg: Config): real { 1.0 - Fraction(cfg.gridStepPct) }

  function UpFactor(cfg: Config): real { 1.0 + Fraction(cfg.gridStepPct) }

  /** A live step moves the anchor exactly when it crosses a grid line, and then by at least one grid step. */
  lemma StepMovesAnchor(cfg: Config, s: State, e: Event)
    requires s.anchor.Some? && (e.Bar? ==> !e.warmup)
    ensures var s' := Step(cfg, s, e).0;
            && s'.anchor.Some?
            && (match Crossed(cfg, s, e)
                case Stay => s'.anchor == s.anchor
                case Down => s'.anchor.value <= Times(s.anchor.value, DownFactor(cfg))
                case Up => s'.anchor.value >= Times(s.anchor.value, UpFactor(cfg)))
  {
    hide EmaOf;
  }

  ghost predicate LiveBetween(events: seq<Event>, lo: nat, hi: nat)
    requires hi <= |events|
  {
    forall i :: lo <= i < hi ==> (events[i].Bar? ==> !events[i].warmup)
  }

  /** After k downward crossings and no upward one, the anchor is at most a0 (1 - step)^k. */
  lemma {:induction false} AnchorFalls(cfg: Config, states: seq<State>, events: seq<Event>, lo: nat, hi: nat)
    requires IsRun(cfg, states, events) && lo <= hi <= |events| && 0.0 < cfg.gridStepPct < 100.0
    requires states[lo].anchor.Some? && LiveBetween(events, lo, hi)
    requires Count(cfg, states, events, Up, lo, hi) == 0
    ensures states[hi].anchor.Some?
    ensures states[hi].anchor.value
            <= Times(states[lo].anchor.value, Power(DownFactor(cfg), Count(cfg, states, events, Down, lo, hi)))
    decreases hi
  {
    hide Step, Times, Crossed;
    if lo == hi {
      TimesOne(states[lo].anchor.value);
    } else {
      AnchorFalls(cfg, states, events, lo, hi - 1);
      StepMovesAnchor(cfg, states[hi - 1], events[hi - 1]);
      if Crossed(cfg, states[hi - 1], events[hi - 1]) == Down {
        CompoundDown(states[lo].anchor.value, Power(DownFactor(cfg), Count(cfg, states, events, Down, lo, hi - 1)),
                     DownFactor(cfg), states[hi - 1].anchor.value, states[hi].anchor.value);
      }
    }
  }

  /** After k upward crossings and no downward one, the anchor is at least a0 (1 + step)^k. */
  lemma {:induction false} AnchorRises(cfg: Config, states: seq<State>, events: seq<Event>, lo: nat, hi: nat)
    requires IsRun(cfg, states, events) && lo <= hi <= |events| && 0.0 < cfg.gridStepPct < 100.0
    requires states[lo].anchor.Some? && LiveBetween(events, lo, hi)
    requires Count(cfg, states, events, Down, lo, hi) == 0
    ensures states[hi].anchor.Some?
    ensures states[hi].anchor.value
            >= Times(states[lo].anchor.value, Power(UpFactor(cfg), Count(cfg, states, events, Up, lo, hi)))
    decreases hi
  {
    hide Step, Times, Crossed;
    if lo == hi {
      TimesOne(states[lo].anchor.value);
    } else {
      AnchorRises(cfg, states, events, lo, hi - 1);
      StepMovesAnchor(cfg, states[hi - 1], events[hi - 1]);
      if Crossed(cfg, states[hi - 1], events[hi - 1]) == Up {
        CompoundUp(states[lo].anchor.value, Power(UpFactor(cfg), Count(cfg, states, events, Up, lo, hi - 1)),
                   UpFactor(cfg), states[hi - 1].anchor.value, states[hi].anchor.value);
      }
    }
  }

  lemma TimesOne(a: real)
    ensures Times(a, 1.0) == a
  {
  }
}
