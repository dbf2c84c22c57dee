/** The capital-guard strategy: trend, momentum and volume filters in front of a guarded single position. */
module CapitalGuard {
  import opened Trading
  import opened Arithmetic
  import opened Indicators
  import opened Oscillators
  import opened Feeds
  import opened RiskExits
  import opened Books
  import opened SymbolStates
  import opened Runs
  import opened StrategyModel

  datatype Config = Config(
    risk: Risk, limits: Limits,
    emaFast: int, emaSlow: int, emaTrend: int, vwapWindow: int, volumeWindow: int, volumeMult: real,
    atrN: int, atrMinPct: real, atrMaxPct: real, maxBarRangePct: real,
    rsiPeriod: int, rsiLongMin: real, rsiLongMax: real, rsiShortMin: real, rsiShortMax: real,
    macdFast: int, macdSlow: int, macdSignal: int, macdReadyMin: int, warmupMin: int)

  function MacdOf(cfg: Config): MacdParams { MacdParamsOf(cfg.macdFast, cfg.macdSlow, cfg.macdSignal) }

  /** What the indicators say after being fed the candles; the numbers matter only when `ready`. */
  datatype Readings = Readings(ready: bool, up: bool, down: bool, emaFast: real, emaSlow: real, emaTrend: real,
                               vwap: real, volumeAvg: real, atrPct: real, rangePct: real, rsi: real)

  /** One value of every indicator, after n candles of which the last is c. */
  datatype Values = Values(n: nat, c: Candle, emaFast: real, emaSlow: real, emaTrend: real, vwap: Option<real>,
                           volume: Option<real>, atr: Option<real>, rsi: Option<real>, up: bool, down: bool)

  function Interpret(cfg: Config, v: Values): Readings {
    var ready := v.n >= cfg.warmupMin && v.vwap.Some? && v.volume.Some? && v.atr.Some? && v.c.close > 0.0 && v.rsi.Some?
                 && v.n >= cfg.macdReadyMin;
    Readings(ready, v.up, v.down, v.emaFast, v.emaSlow, v.emaTrend,
             if ready then v.vwap.value else 0.0, if ready then v.volume.value else 0.0,
             if ready then PctOf(v.atr.value, v.c.close) else 0.0,
             if ready then PctOf(v.c.High() - v.c.Low(), v.c.close) else 0.0,
             if ready then v.rsi.value else 0.0)
  }

  function ValuesOf(cfg: Config, fed: seq<Candle>): Values
    requires fed != []
  {
    var closes := Closes(fed);
    Values(|fed|, Last(fed),
           EmaOf(Alpha(cfg.emaFast), closes), EmaOf(Alpha(cfg.emaSlow), closes), EmaOf(Alpha(cfg.emaTrend), closes),
           VwapOf(MaxInt(2, cfg.vwapWindow), Trades(fed)), MeanOf(MaxInt(2, cfg.volumeWindow), Volumes(fed)),
           AtrOf(MaxInt(1, cfg.atrN), Bars(fed)), RsiOf(MaxInt(2, cfg.rsiPeriod), closes),
           CrossedUp(MacdOf(cfg), closes), CrossedDown(MacdOf(cfg), closes))
  }

  function Read(cfg: Config, fed: seq<Candle>): Readings
    requires fed != []
  {
    Interpret(cfg, ValuesOf(cfg, fed))
  }

  /** The protective exit: the trend that justified the side is gone. */
  predicate Broken(side: Side, c: Candle, rd: Readings) {
    match side
    case Long => rd.down || c.close < rd.vwap || rd.emaFast < rd.emaSlow
    case Short => rd.up || c.close > rd.vwap || rd.emaFast > rd.emaSlow
  }

  predicate Calm(cfg: Config, c: Candle, rd: Readings) {
    && c.volume >= Times(rd.volumeAvg, cfg.volumeMult)
    && cfg.atrMinPct <= rd.atrPct <= cfg.atrMaxPct
    && rd.rangePct <= cfg.maxBarRangePct
  }

  predicate Setup(cfg: Config, side: Side, c: Candle, rd: Readings) {
    match side
    case Long => c.close > rd.vwap && rd.emaFast > rd.emaSlow > rd.emaTrend
                 && rd.up && cfg.rsiLongMin <= rd.rsi <= cfg.rsiLongMax
    case Short => c.close < rd.vwap && rd.emaFast < rd.emaSlow < rd.emaTrend
                  && rd.down && cfg.rsiShortMin <= rd.rsi <= cfg.rsiShortMax
  }

  function Manage(cfg: Config, b: Book, c: Candle, rd: Readings): (Book, Option<Signal>)
    requires Open(b.pos)
  {
    var side := b.pos.side.value;
    var held := b.(bars := b.bars + 1);
    if (cfg.limits.maxHoldBars > 0 && held.bars >= cfg.limits.maxHoldBars) || Broken(side, c, rd) then
      (Reset(cfg.limits, held, Exit, Some(side)), Some(ExitSignal(side, c.close, Exit)))
    else (held, None)
  }

  function Seek(cfg: Config, b: Book, c: Candle, rd: Readings): (Book, Option<Signal>) {
    if b.pause > 0 then (b.(pause := b.pause - 1), None)
    else if b.cooldown > 0 then (b.(cooldown := b.cooldown - 1), None)
    else if Calm(cfg, c, rd) && Setup(cfg, Long, c, rd) && b.lock != Some(Long) then
      (Enter(cfg.limits, b, Long, c), Some(Signal(BUY, c.close, Entry)))
    else if Calm(cfg, c, rd) && Setup(cfg, Short, c, rd) && b.lock != Some(Short) then
      (Enter(cfg.limits, b, Short, c), Some(Signal(SELL, c.close, Entry)))
    else (b, None)
  }

  /** The effect of a fresh closed candle on the record, given what the indicators say. */
  function OnReadings(cfg: Config, b: Book, c: Candle, rd: Readings, warmup: bool): (Book, Option<Signal>) {
    var freed := Release(b, rd.up, rd.down);
    if !rd.ready || warmup then (freed, None)
    else
      var (risked, exit) := RiskOnBook(cfg.risk, cfg.limits, freed, c, true);
      if exit.Some? then (risked, exit)
      else if Open(risked.pos) then Manage(cfg, risked, c, rd)
      else Seek(cfg, risked, c, rd)
  }

  function OnClosed(cfg: Config, s: State, c: Candle, warmup: bool): (State, Option<Signal>) {
    if c.closeTime <= s.last then (s, None)
    else
      var fed := s.fed + [c];
      var (b, sig) := OnReadings(cfg, s.book, c, Read(cfg, fed), warmup);
      (State(c.closeTime, fed, b), sig)
  }

  function OnPrice(cfg: Config, s: State, c: Candle): (State, Option<Signal>) {
    var (b, sig) := RiskOnBook(cfg.risk, cfg.limits, s.book, c, true);
    (s.(book := b), sig)
  }

  function Step(cfg: Config, s: State, e: Event): (State, Option<Signal>) {
    match e
    case ClosedCandle(c) => OnClosed(cfg, s, c, false)
    case PriceUpdate(c) => OnPrice(cfg, s, c)
    case ExternalClose => (s.(book := CloseFromOutside(cfg.limits, s.book, true)), None)
  }

  // ---------------------------------------------------------------- The mutable strategy

  /** The indicator objects that follow the close: three EMAs and the MACD. */
  class TrendPanel {
    const cfg: Config
    const emaFast: EMA
    const emaSlow: EMA
    const emaTrend: EMA
    const macd: MACD
    ghost var seen: seq<real>

    ghost function Repr(): set<object> {
      {this, emaFast, emaSlow, emaTrend, macd, macd.emaFast, macd.emaSlow, macd.emaSignal}
    }

    ghost predicate Valid()
      reads Repr()
    {
      && emaFast !in {emaSlow, emaTrend, macd.emaFast, macd.emaSlow, macd.emaSignal}
      && emaSlow !in {emaTrend, macd.emaFast, macd.emaSlow, macd.emaSignal}
      && emaTrend !in {macd.emaFast, macd.emaSlow, macd.emaSignal}
      && emaFast.Valid() && emaFast.alpha == Alpha(cfg.emaFast) && emaFast.seen == seen
      && emaSlow.Valid() && emaSlow.alpha == Alpha(cfg.emaSlow) && emaSlow.seen == seen
      && emaTrend.Valid() && emaTrend.alpha == Alpha(cfg.emaTrend) && emaTrend.seen == seen
      && macd.Valid() && macd.params == MacdOf(cfg) && macd.seen == seen
    }

    constructor (cfg: Config)
      ensures Valid() && this.cfg == cfg && seen == [] && fresh(Repr())
    {
      hide EMA.Valid, MACD.Valid;
      this.cfg := cfg;
      emaFast := new EMA(cfg.emaFast);
      emaSlow := new EMA(cfg.emaSlow);
      emaTrend := new EMA(cfg.emaTrend);
      macd := new MACD(cfg.macdFast, cfg.macdSlow, cfg.macdSignal);
      seen := [];
    }

    method Update(close: real) returns (fast: real, slow: real, trend: real, up: bool, down: bool, count: nat)
      requires Valid()
      modifies Repr()
      ensures Valid() && seen == old(seen) + [close] && count == |seen|
      ensures fast == EmaOf(Alpha(cfg.emaFast), seen) && slow == EmaOf(Alpha(cfg.emaSlow), seen)
      ensures trend == EmaOf(Alpha(cfg.emaTrend), seen)
      ensures up == CrossedUp(MacdOf(cfg), seen) && down == CrossedDown(MacdOf(cfg), seen)
    {
      hide EMA.Valid, MACD.Valid, EmaOf, CrossedUp, CrossedDown, MacdDiff, MacdLines;
      seen := seen + [close];
      fast := emaFast.Update(close);
      slow := emaSlow.Update(close);
      trend := emaTrend.Update(close);
      var line, signal;
      line, signal, up, down := macd.Update(close);
      count := emaTrend.count;
    }
  }

  /** All indicator objects of one symbol. What they report after a candle is what the whole feed says. */
  class Panel {
    const cfg: Config
    const trend: TrendPanel
    const vwap: RollingVWAP
    const volMean: RollingMean
    const atr: ATR
    const rsi: RSI
    ghost var fed: seq<Candle>

    ghost function Repr(): set<object> {
      trend.Repr() + {this, vwap, volMean, atr, atr.rma, rsi, rsi.gainRma, rsi.lossRma}
    }

    ghost predicate Valid()
      reads Repr()
    {
      && trend.Repr() !! {this, vwap, volMean, atr, atr.rma, rsi, rsi.gainRma, rsi.lossRma}
      && atr.rma !in {rsi.gainRma, rsi.lossRma}
      && trend.Valid() && trend.cfg == cfg && trend.seen == Closes(fed)
      && vwap.Valid() && vwap.window == MaxInt(2, cfg.vwapWindow) && vwap.seen == Trades(fed)
      && volMean.Valid() && volMean.window == MaxInt(2, cfg.volumeWindow) && volMean.seen == Volumes(fed)
      && atr.Valid() && atr.n == MaxInt(1, cfg.atrN) && atr.seen == Bars(fed)
      && rsi.Valid() && rsi.period == MaxInt(2, cfg.rsiPeriod) && rsi.seen == Closes(fed)
    }

    constructor (cfg: Config)
      ensures Valid() && this.cfg == cfg && fed == [] && fresh(Repr())
    {
      hide TrendPanel.Valid, RollingVWAP.Valid, RollingMean.Valid, ATR.Valid, RSI.Valid;
      NoColumns();
      hide Closes, Volumes, Trades, Bars;
      this.cfg := cfg;
      vwap := new RollingVWAP(cfg.vwapWindow);
      volMean := new RollingMean(cfg.volumeWindow);
      atr := new ATR(cfg.atrN);
      rsi := new RSI(cfg.rsiPeriod);
      trend := new TrendPanel(cfg);
      fed := [];
    }

    method Update(c: Candle) returns (rd: Readings)
      requires Valid()
      modifies Repr()
      ensures Valid() && fed == old(fed) + [c] && rd == Read(cfg, fed)
    {
      hide TrendPanel.Valid, RollingVWAP.Valid, RollingMean.Valid, ATR.Valid, RSI.Valid;
      hide VwapOf, MeanOf, EmaOf, AtrOf, RsiOf, CrossedUp, CrossedDown, Interpret;
      ColumnsGrow(fed, c);
      hide Closes, Volumes, Trades, Bars;
      fed := fed + [c];
      var fast, slow, long, up, down, count := trend.Update(c.close);
      var vwapPx := vwap.Update(c.close, c.volume);
      var volAvg := volMean.Update(c.volume);
      var atrValue := atr.Update(c.High(), c.Low(), c.close);
      var rsiValue := rsi.Update(c.close);
      rd := Interpret(cfg, Values(count, c, fast, slow, long, vwapPx, volAvg, atrValue, rsiValue, up, down));
    }
  }

  class CapitalGuardStrategy {
    const cfg: Config
    const state: SymbolState
    const panel: Panel
    var lastCloseTime: int

    ghost predicate Valid()
      reads this, panel.Repr()
    {
      panel.Valid() && panel.cfg == cfg && this !in panel.Repr() && state !in panel.Repr()
    }

    ghost function Value(): State
      reads this, state, panel
    {
      State(lastCloseTime, panel.fed, state.Record())
    }

    constructor (cfg: Config)
      ensures Valid() && this.cfg == cfg && Value() == State(0, [], NEW_BOOK) && fresh(state) && fresh(panel.Repr())
    {
      hide Panel.Valid;
      this.cfg := cfg;
      state := new SymbolState();
      panel := new Panel(cfg);
      lastCloseTime := 0;
    }

    method RiskExit(c: Candle) returns (sig: Option<Signal>)
      modifies state
      ensures (state.Record(), sig) == RiskOnBook(cfg.risk, cfg.limits, old(state.Record()), c, true)
    {
      hide Above, Below;
      if state.positionSide.None? || state.entryPrice.None? {
        return None;
      }
      match state.positionSide.value {
        case Long => sig := RiskExitLong(c);
        case Short => sig := RiskExitShort(c);
      }
    }

    method RiskExitLong(c: Candle) returns (sig: Option<Signal>)
      requires state.positionSide == Some(Long) && state.entryPrice.Some?
      modifies state
      ensures (state.Record(), sig) == RiskOnBook(cfg.risk, cfg.limits, old(state.Record()), c, true)
    {
      hide Above, Below;
      var highPx, lowPx, entry := c.High(), c.Low(), state.entryPrice.value;
      state.highestSinceEntry := Some(Max(OrElse(state.highestSinceEntry, highPx), highPx));
      var slPx := Below(entry, cfg.risk.stopLoss);
      var tpPx := Above(entry, cfg.risk.takeProfit);
      var triggerPx := Above(entry, Max(0.0, cfg.risk.trigger));
      if cfg.risk.trigger <= 0.0 || highPx >= triggerPx {
        state.trailArmed := true;
      }
      var trailPx := None;
      if cfg.risk.trail > 0.0 && state.trailArmed {
        trailPx := Some(Below(OrElse(state.highestSinceEntry, highPx), cfg.risk.trail));
      }
      if cfg.risk.stopLoss > 0.0 && lowPx <= slPx {
        state.ResetPosition(cfg.limits, StopLoss, Some(Long));
        return Some(Signal(SELL, Min(c.close, slPx), StopLoss));
      }
      if cfg.risk.takeProfit > 0.0 && highPx >= tpPx {
        state.ResetPosition(cfg.limits, TakeProfit, Some(Long));
        return Some(Signal(SELL, Max(c.close, tpPx), TakeProfit));
      }
      if trailPx.Some? && lowPx <= trailPx.value {
        state.ResetPosition(cfg.limits, TrailingStop, Some(Long));
        return Some(Signal(SELL, Min(c.close, trailPx.value), TrailingStop));
      }
      sig := None;
    }

    method RiskExitShort(c: Candle) returns (sig: Option<Signal>)
      requires state.positionSide == Some(Short) && state.entryPrice.Some?
      modifies state
      ensures (state.Record(), sig) == RiskOnBook(cfg.risk, cfg.limits, old(state.Record()), c, true)
    {
      hide Above, Below;
      var highPx, lowPx, entry := c.High(), c.Low(), state.entryPrice.value;
      state.lowestSinceEntry := Some(Min(OrElse(state.lowestSinceEntry, lowPx), lowPx));
      var slPx := Above(entry, cfg.risk.stopLoss);
      var tpPx := Below(entry, cfg.risk.takeProfit);
      var triggerPx := Below(entry, Max(0.0, cfg.risk.trigger));
      if cfg.risk.trigger <= 0.0 || lowPx <= triggerPx {
        state.trailArmed := true;
      }
      var trailPx := None;
      if cfg.risk.trail > 0.0 && state.trailArmed {
        trailPx := Some(Above(OrElse(state.lowestSinceEntry, lowPx), cfg.risk.trail));
      }
      if cfg.risk.stopLoss > 0.0 && highPx >= slPx {
        state.ResetPosition(cfg.limits, StopLoss, Some(Short));
        return Some(Signal(BUY, Max(c.close, slPx), StopLoss));
      }
      if cfg.risk.takeProfit > 0.0 && lowPx <= tpPx {
        state.ResetPosition(cfg.limits, TakeProfit, Some(Short));
        return Some(Signal(BUY, Min(c.close, tpPx), TakeProfit));
      }
      if trailPx.Some? && highPx >= trailPx.value {
        state.ResetPosition(cfg.limits, TrailingStop, Some(Short));
        return Some(Signal(BUY, Max(c.close, trailPx.value), TrailingStop));
      }
      sig := None;
    }

    method OnPriceUpdate(c: Candle) returns (sig: Option<Signal>)
      modifies state
      ensures (Value(), sig) == OnPrice(cfg, old(Value()), c)
    {
      hide RiskOnBook;
      sig := RiskExit(c);
    }

    method OnClosedCandle(c: Candle, warmup: bool) returns (sig: Option<Signal>)
      requires Valid()
      modifies this`lastCloseTime, state, panel.Repr()
      ensures Valid() && (Value(), sig) == OnClosed(cfg, old(Value()), c, warmup)
    {
      hide OnReadings, Read, Panel.Valid;
      if c.closeTime <= lastCloseTime {
        return None;
      }
      lastCloseTime := c.closeTime;
      var rd := panel.Update(c);
      sig := OnPanel(c, rd, warmup);
    }

    method OnPanel(c: Candle, rd: Readings, warmup: bool) returns (sig: Option<Signal>)
      modifies state
      ensures (state.Record(), sig) == OnReadings(cfg, old(state.Record()), c, rd, warmup)
    {
      hide RiskOnBook, Release, Reset, Enter;
      state.UpdateReentryLock(rd.up, rd.down);
      if !rd.ready || warmup {
        return None;
      }
      sig := RiskExit(c);
      if sig.Some? {
        return;
      }
      if state.positionSide.Some? && state.entryPrice.Some? {
        sig := ManagePosition(c, rd);
      } else {
        sig := SeekEntry(c, rd);
      }
    }

    method ManagePosition(c: Candle, rd: Readings) returns (sig: Option<Signal>)
      requires state.positionSide.Some? && state.entryPrice.Some?
      modifies state
      ensures (state.Record(), sig) == Manage(cfg, old(state.Record()), c, rd)
    {
      hide Reset;
      state.barsInPos := state.barsInPos + 1;
      if cfg.limits.maxHoldBars > 0 && state.barsInPos >= cfg.limits.maxHoldBars {
        var side := state.positionSide;
        state.ResetPosition(cfg.limits, Exit, side);
        if side == Some(Long) {
          return Some(Signal(SELL, c.close, Exit));
        }
        return Some(Signal(BUY, c.close, Exit));
      }
      if state.positionSide == Some(Long) && (rd.down || c.close < rd.vwap || rd.emaFast < rd.emaSlow) {
        state.ResetPosition(cfg.limits, Exit, Some(Long));
        return Some(Signal(SELL, c.close, Exit));
      }
      if state.positionSide == Some(Short) && (rd.up || c.close > rd.vwap || rd.emaFast > rd.emaSlow) {
        state.ResetPosition(cfg.limits, Exit, Some(Short));
        return Some(Signal(BUY, c.close, Exit));
      }
      sig := None;
    }

    method SeekEntry(c: Candle, rd: Readings) returns (sig: Option<Signal>)
      modifies state
      ensures (state.Record(), sig) == Seek(cfg, old(state.Record()), c, rd)
    {
      hide Enter, Times;
      if state.pauseBars > 0 {
        state.pauseBars := state.pauseBars - 1;
        return None;
      }
      if state.cooldown > 0 {
        state.cooldown := state.cooldown - 1;
        return None;
      }
      var volOk := c.volume >= Times(rd.volumeAvg, cfg.volumeMult);
      var atrOk := cfg.atrMinPct <= rd.atrPct <= cfg.atrMaxPct;
      var rangeOk := rd.rangePct <= cfg.maxBarRangePct;
      var longTrend := c.close > rd.vwap && rd.emaFast > rd.emaSlow > rd.emaTrend;
      var shortTrend := c.close < rd.vwap && rd.emaFast < rd.emaSlow < rd.emaTrend;
      var longMomentum := rd.up && cfg.rsiLongMin <= rd.rsi <= cfg.rsiLongMax;
      var shortMomentum := rd.down && cfg.rsiShortMin <= rd.rsi <= cfg.rsiShortMax;
      if volOk && atrOk && rangeOk && longTrend && longMomentum && state.reentryLockSide != Some(Long) {
        state.OpenPosition(cfg.limits, Long, c);
        return Some(Signal(BUY, c.close, Entry));
      }
      if volOk && atrOk && rangeOk && shortTrend && shortMomentum && state.reentryLockSide != Some(Short) {
        state.OpenPosition(cfg.limits, Short, c);
        return Some(Signal(SELL, c.close, Entry));
      }
      sig := None;
    }
  }

  // ---------------------------------------------------------------- Single steps

  lemma SeekObeys(cfg: Config, b: Book, c: Candle, rd: Readings)
    requires Sound(cfg.limits, b) && IsFlat(b) && !(rd.up && rd.down)
    requires b.lock == Some(Long) ==> !rd.down
    requires b.lock == Some(Short) ==> !rd.up
    ensures var (b', sig) := Seek(cfg, b, c, rd);
            && Obeys(cfg.limits, b, b', sig, Seen(b, b', sig, true, rd.up, rd.down), true)
            && (sig.None? ==> IsFlat(b') && b'.cooldown <= b.cooldown)
            && (sig.Some? ==> Priced(ClosedCandle(c), sig.value, b'))
  {
    hide Times;
  }

  lemma ManageObeys(cfg: Config, b: Book, c: Candle, rd: Readings)
    requires Sound(cfg.limits, b) && !IsFlat(b) && !(rd.up && rd.down)
    ensures var (b', sig) := Manage(cfg, b, c, rd);
            && Obeys(cfg.limits, b, b', sig, Seen(b, b', sig, true, rd.up, rd.down), true)
            && (sig.None? ==> b'.pos.side == b.pos.side && b'.cooldown <= b.cooldown)
            && (sig.Some? ==> Priced(ClosedCandle(c), sig.value, b'))
  {
    ResetSound(cfg.limits, b, Exit, b.pos.side);
  }

  lemma OnReadingsObeys(cfg: Config, b: Book, c: Candle, rd: Readings, warmup: bool)
    requires Sound(cfg.limits, b) && !(rd.up && rd.down)
    ensures var (b', sig) := OnReadings(cfg, b, c, rd, warmup);
            && Obeys(cfg.limits, b, b', sig, Seen(b, b', sig, true, rd.up, rd.down), true)
            && (warmup ==> b'.pos.side == b.pos.side && sig.None?)
            && (sig.None? ==> b'.pos.side == b.pos.side && b'.cooldown <= b.cooldown)
            && (sig.Some? ==> Priced(ClosedCandle(c), sig.value, b'))
  {
    hide RiskOnBook, RiskStep, Seek, Manage, Charged;
    var freed := Release(b, rd.up, rd.down);
    NothingCharged(cfg.limits, b, freed);
    RiskObeys(cfg.risk, cfg.limits, freed, c, true, true, rd.up, rd.down);
    RiskOnBookFacts(cfg.risk, cfg.limits, freed, c, true);
    var (risked, exit) := RiskOnBook(cfg.risk, cfg.limits, freed, c, true);
    if rd.ready && !warmup && exit.None? {
      if IsFlat(risked) {
        SeekObeys(cfg, risked, c, rd);
      } else {
        ManageObeys(cfg, risked, c, rd);
      }
    }
    var (b', sig) := OnReadings(cfg, b, c, rd, warmup);
    ChargedAlike(cfg.limits, b, freed, sig, b');
    if exit.None? {
      ChargedAlike(cfg.limits, b, risked, sig, b');
    }
  }

  lemma ReadFlags(cfg: Config, fed: seq<Candle>)
    requires fed != []
    ensures var rd := Read(cfg, fed);
            && rd.up == CrossedUp(MacdOf(cfg), Closes(fed)) && rd.down == CrossedDown(MacdOf(cfg), Closes(fed))
            && !(rd.up && rd.down)
  {
    hide MacdOf, VwapOf, MeanOf, AtrOf, RsiOf, EmaOf, PctOf;
  }

  // ---------------------------------------------------------------- The signals, written out

  /** When the indicators are ready, and what their percentages mean. */
  lemma ReadingsExactly(cfg: Config, v: Values)
    ensures var rd := Interpret(cfg, v);
            && (rd.ready <==> v.n >= cfg.warmupMin && v.n >= cfg.macdReadyMin && v.c.close > 0.0
                              && v.vwap.Some? && v.volume.Some? && v.atr.Some? && v.rsi.Some?)
            && rd.up == v.up && rd.down == v.down
            && rd.emaFast == v.emaFast && rd.emaSlow == v.emaSlow && rd.emaTrend == v.emaTrend
            && (rd.ready ==>
                  && Some(rd.vwap) == v.vwap && Some(rd.volumeAvg) == v.volume && Some(rd.rsi) == v.rsi
                  && Times(rd.atrPct, v.c.close) == Times(100.0, v.atr.value)
                  && Times(rd.rangePct, v.c.close) == Times(100.0, v.c.High() - v.c.Low()))
  {
    hide PctOf, Times;
    if Interpret(cfg, v).ready {
      PctExactly(v.atr.value, v.c.close);
      PctExactly(v.c.High() - v.c.Low(), v.c.close);
    }
  }

  /** The signal of a live candle on an open position: the risk decision comes first, then the holding limit and the
      protective exit; otherwise the bar is counted. */
  lemma HeldSignalExactly(cfg: Config, b: Book, c: Candle, rd: Readings)
    requires Sound(cfg.limits, b) && rd.ready && b.pos.side.Some?
    ensures var (b', sig) := OnReadings(cfg, b, c, rd, false);
            var d := RiskStep(cfg.risk, b.pos, c).1;
            var long := b.pos.side == Some(Long);
            var closing := if long then SELL else BUY;
            var expired := cfg.limits.maxHoldBars > 0 && b.bars + 1 >= cfg.limits.maxHoldBars;
            var broken := if long then rd.down || c.close < rd.vwap || rd.emaFast < rd.emaSlow
                          else rd.up || c.close > rd.vwap || rd.emaFast > rd.emaSlow;
            if d.Leave? then sig == Some(Signal(closing, d.price, d.condition))
            else if expired || broken then sig == Some(Signal(closing, c.close, Exit))
            else sig.None? && b'.bars == b.bars + 1 && b'.pos == RiskStep(cfg.risk, b.pos, c).0
  {
    hide RiskOnBook, RiskStep;
    var freed := Release(b, rd.up, rd.down);
    RiskOnBookFacts(cfg.risk, cfg.limits, freed, c, true);
    var (risked, exit) := RiskOnBook(cfg.risk, cfg.limits, freed, c, true);
    assert freed.pos == b.pos;
    NoSideNoRisk(cfg.risk, b.pos, c);
  }

  /** The signal of a live candle without a position: nothing while pausing or cooling, else an entry exactly when all
      filters agree on a side that is not locked. */
  lemma EntrySignalExactly(cfg: Config, b: Book, c: Candle, rd: Readings)
    requires Sound(cfg.limits, b) && rd.ready && b.pos.side.None?
    ensures var (b', sig) := OnReadings(cfg, b, c, rd, false);
            var calm := c.volume >= Times(rd.volumeAvg, cfg.volumeMult) && cfg.atrMinPct <= rd.atrPct
                        && rd.atrPct <= cfg.atrMaxPct && rd.rangePct <= cfg.maxBarRangePct;
            var goLong := calm && rd.up && c.close > rd.vwap && rd.emaFast > rd.emaSlow && rd.emaSlow > rd.emaTrend
                          && cfg.rsiLongMin <= rd.rsi && rd.rsi <= cfg.rsiLongMax
                          && (b.lock == Some(Long) ==> rd.down);
            var goShort := calm && rd.down && c.close < rd.vwap && rd.emaFast < rd.emaSlow && rd.emaSlow < rd.emaTrend
                           && cfg.rsiShortMin <= rd.rsi && rd.rsi <= cfg.rsiShortMax
                           && (b.lock == Some(Short) ==> rd.up);
            if b.pause > 0 then sig.None? && b'.pause == b.pause - 1 && b'.cooldown == b.cooldown
            else if b.cooldown > 0 then sig.None? && b'.cooldown == b.cooldown - 1 && b'.pause == b.pause
            else if goLong then sig == Some(Signal(BUY, c.close, Entry))
            else if goShort then sig == Some(Signal(SELL, c.close, Entry))
            else sig.None?
  {
    hide RiskOnBook, RiskStep, Times;
    var freed := Release(b, rd.up, rd.down);
    RiskOnBookFacts(cfg.risk, cfg.limits, freed, c, true);
    var (risked, exit) := RiskOnBook(cfg.risk, cfg.limits, freed, c, true);
  }

  /** The lock after a fresh candle, ready or not: an exit locks the side it leaves; otherwise the lock goes exactly
      when the flag stands against its side. */
  lemma LockExactly(cfg: Config, b: Book, c: Candle, rd: Readings, warmup: bool)
    requires Sound(cfg.limits, b)
    ensures var (b', sig) := OnReadings(cfg, b, c, rd, warmup);
            b'.lock == if sig.Some? && sig.value.condition != Entry then b.pos.side
                       else if (b.lock == Some(Long) && rd.down) || (b.lock == Some(Short) && rd.up) then None
                       else b.lock
  {
    hide RiskOnBook, RiskStep;
    var freed := Release(b, rd.up, rd.down);
    RiskOnBookFacts(cfg.risk, cfg.limits, freed, c, true);
    var (risked, exit) := RiskOnBook(cfg.risk, cfg.limits, freed, c, true);
  }

  // ---------------------------------------------------------------- The strategy as the runner sees it

  /** The state after feeding historical candles in warm-up mode to a new strategy. */
  function Warmed(cfg: Config, history: seq<Candle>): State {
    if history == [] then State(0, [], NEW_BOOK)
    else OnClosed(cfg, Warmed(cfg, Front(history)), Last(history), true).0
  }

  lemma {:induction false} WarmedIsFlat(cfg: Config, history: seq<Candle>)
    ensures Sound(cfg.limits, Warmed(cfg, history).book) && IsFlat(Warmed(cfg, history).book)
  {
    NewBookSound(cfg.limits);
    hide OnReadings, Read, MacdOf, CrossedUp, CrossedDown, Sound, Charged, CoolOffStep, LockStep, Priced;
    if history != [] {
      var s, c := Warmed(cfg, Front(history)), Last(history);
      WarmedIsFlat(cfg, Front(history));
      ReadFlags(cfg, s.fed + [c]);
      OnReadingsObeys(cfg, s.book, c, Read(cfg, s.fed + [c]), true);
    }
  }

  function Model(cfg: Config, history: seq<Candle>): Strategy<State> {
    Strategy(Warmed(cfg, history),
             (s: State, e: Event) => (Step(cfg, s, e).0, ToSeq(Step(cfg, s, e).1)),
             (s: State) => s.book.pos.side,
             (s: State) => s.last)
  }

  function RulesOf(cfg: Config): Rules { Rules(cfg.limits, Some(MacdOf(cfg))) }

  lemma StepIsGuarded(cfg: Config, history: seq<Candle>, s: State, e: Event)
    requires Sound(cfg.limits, s.book)
    ensures GuardedStep(Model(cfg, history), RulesOf(cfg), s, e)
  {
    hide OnReadings, RiskOnBook, Read, MacdOf, CrossedUp, CrossedDown;
    match e {
      case ClosedCandle(c) =>
        if c.closeTime > s.last {
          ReadFlags(cfg, s.fed + [c]);
          OnReadingsObeys(cfg, s.book, c, Read(cfg, s.fed + [c]), false);
        }
      case PriceUpdate(c) =>
        RiskObeys(cfg.risk, cfg.limits, s.book, c, true, false, false, false);
        RiskOnBookFacts(cfg.risk, cfg.limits, s.book, c, true);
      case ExternalClose =>
    }
  }

  /** Capital guard is a guarded strategy, so every run theorem of Runs holds for it. */
  lemma ModelIsGuarded(cfg: Config, history: seq<Candle>)
    ensures Guarded(Model(cfg, history), RulesOf(cfg))
  {
    WarmedIsFlat(cfg, history);
    hide Sound, Step, GuardedStep;
    forall s: State, e: Event | Sound(cfg.limits, s.book)
      ensures GuardedStep(Model(cfg, history), RulesOf(cfg), s, e)
    {
      StepIsGuarded(cfg, history, s, e);
    }
  }

  lemma ModelIsGated(cfg: Config, history: seq<Candle>)
    ensures GatedByCloseTime(Model(cfg, history))
  {
    hide OnReadings, RiskOnBook, Read;
  }
}
