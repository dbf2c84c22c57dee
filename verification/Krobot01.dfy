/** The krobot01 strategy: EMA, VWAP and MACD agree on a side; risk exits both intrabar and on the closed candle. */
module Krobot01 {
  import opened Trading
  import opened Arithmetic
  import opened Indicators
  import opened Oscillators
  import opened Feeds
  import opened RiskExits
  import opened Books
  import opened SymbolStates
  import opened Runs
  import opened StrategyModel

  datatype Config = Config(risk: Risk, limits: Limits, emaPeriod: int, vwapWindow: int,
                           macdFast: int, macdSlow: int, macdSignal: int, macdReadyMin: int)

  function MacdOf(cfg: Config): MacdParams { MacdParamsOf(cfg.macdFast, cfg.macdSlow, cfg.macdSignal) }

  datatype Readings = Readings(ready: bool, up: bool, down: bool, ema: real, vwap: real)

  function Read(cfg: Config, fed: seq<Candle>): Readings {
    var closes := Closes(fed);
    var vwap := VwapOf(MaxInt(2, cfg.vwapWindow), Trades(fed));
    Readings(|fed| >= cfg.emaPeriod && vwap.Some? && |fed| >= cfg.macdReadyMin,
             CrossedUp(MacdOf(cfg), closes), CrossedDown(MacdOf(cfg), closes),
             EmaOf(Alpha(cfg.emaPeriod), closes), if vwap.Some? then vwap.value else 0.0)
  }

  predicate Setup(side: Side, c: Candle, rd: Readings) {
    match side
    case Long => c.close > rd.ema && c.close > rd.vwap && rd.up
    case Short => c.close < rd.ema && c.close < rd.vwap && rd.down
  }

  /** Pause and cooldown run down on every live candle, whether or not a position is held. */
  function Seek(cfg: Config, b: Book, c: Candle, rd: Readings): (Book, Option<Signal>) {
    if b.pause > 0 then (b.(pause := b.pause - 1), None)
    else if b.cooldown > 0 then (b.(cooldown := b.cooldown - 1), None)
    else if !IsFlat(b) then (b, None)
    else if Setup(Long, c, rd) && b.lock != Some(Long) then
      (Enter(cfg.limits, b, Long, c), Some(Signal(BUY, c.close, Entry)))
    else if Setup(Short, c, rd) && b.lock != Some(Short) then
      (Enter(cfg.limits, b, Short, c), Some(Signal(SELL, c.close, Entry)))
    else (b, None)
  }

  function OnReadings(cfg: Config, b: Book, c: Candle, rd: Readings, warmup: bool): (Book, Option<Signal>) {
    var freed := Release(b, rd.up, rd.down);
    if !rd.ready || warmup then (freed, None)
    else
      var (risked, exit) := RiskOnBook(cfg.risk, cfg.limits, freed, c, true);
      if exit.Some? then (risked, exit) else Seek(cfg, risked, c, rd)
  }

  function OnClosed(cfg: Config, s: State, c: Candle, warmup: bool): (State, Option<Signal>) {
    if c.closeTime <= s.last then (s, None)
    else
      var fed := s.fed + [c];
      var (b, sig) := OnReadings(cfg, s.book, c, Read(cfg, fed), warmup);
      (State(c.closeTime, fed, b), sig)
  }

  function Step(cfg: Config, s: State, e: Event): (State, Option<Signal>) {
    match e
    case ClosedCandle(c) => OnClosed(cfg, s, c, false)
    case PriceUpdate(c) =>
      var (b, sig) := RiskOnBook(cfg.risk, cfg.limits, s.book, c, true);
      (s.(book := b), sig)
    case ExternalClose => (s.(book := CloseFromOutside(cfg.limits, s.book, true)), None)
  }

  // ---------------------------------------------------------------- The mutable strategy

  /** The indicator objects of one symbol. What they report after a candle is what the whole feed says. */
  class Panel {
    const cfg: Config
    const ema: EMA
    const vwap: RollingVWAP
    const macd: MACD
    ghost var fed: seq<Candle>

    ghost function Repr(): set<object> {
      {this, ema, vwap, macd, macd.emaFast, macd.emaSlow, macd.emaSignal}
    }

    ghost predicate Valid()
      reads Repr()
    {
      && ema != macd.emaFast && ema != macd.emaSlow && ema != macd.emaSignal
      && ema.Valid() && ema.alpha == Alpha(cfg.emaPeriod) && ema.seen == Closes(fed)
      && vwap.Valid() && vwap.window == MaxInt(2, cfg.vwapWindow) && vwap.seen == Trades(fed)
      && macd.Valid() && macd.params == MacdOf(cfg) && macd.seen == Closes(fed)
    }

    constructor (cfg: Config)
      ensures Valid() && this.cfg == cfg && fed == [] && fresh(Repr())
    {
      hide VwapOf, EmaOf, Trend, MacdDiff, MacdLines;
      NoColumns();
      hide Closes, Volumes, Trades, Bars;
      this.cfg := cfg;
      ema := new EMA(cfg.emaPeriod);
      vwap := new RollingVWAP(cfg.vwapWindow);
      macd := new MACD(cfg.macdFast, cfg.macdSlow, cfg.macdSignal);
      fed := [];
    }

    method Update(c: Candle) returns (rd: Readings)
      requires Valid()
      modifies Repr()
      ensures Valid() && fed == old(fed) + [c] && rd == Read(cfg, fed)
    {
      hide VwapOf, EmaOf, Trend, MacdDiff, MacdLines;
      ColumnsGrow(fed, c);
      hide Closes, Volumes, Trades, Bars;
      fed := fed + [c];
      var emaPx := ema.Update(c.close);
      var vwapPx := vwap.Update(c.close, c.volume);
      var line, signal, up, down := macd.Update(c.close);
      var ready := ema.count >= cfg.emaPeriod && vwapPx.Some? && macd.count >= cfg.macdReadyMin;
      rd := Readings(ready, up, down, emaPx, if vwapPx.Some? then vwapPx.value else 0.0);
    }
  }

  class Krobot01Strategy {
    const cfg: Config
    const state: SymbolState
    const panel: Panel
    var lastCloseTime: int

    ghost predicate Valid()
      reads this, panel.Repr()
    {
      panel.Valid() && panel.cfg == cfg && this !in panel.Repr() && state !in panel.Repr()
    }

    ghost function Value(): State
      reads this, state, panel
    {
      State(lastCloseTime, panel.fed, state.Record())
    }

    constructor (cfg: Config)
      ensures Valid() && this.cfg == cfg && Value() == State(0, [], NEW_BOOK) && fresh(state) && fresh(panel.Repr())
    {
      this.cfg := cfg;
      state := new SymbolState();
      panel := new Panel(cfg);
      lastCloseTime := 0;
    }

    method OnPriceUpdate(c: Candle) returns (sig: Option<Signal>)
      modifies state
      ensures (state.Record(), sig) == RiskOnBook(cfg.risk, cfg.limits, old(state.Record()), c, true)
    {
      hide Above, Below;
      if state.positionSide.None? || state.entryPrice.None? {
        return None;
      }
      match state.positionSide.value {
        case Long => sig := IntrabarLong(c);
        case Short => sig := IntrabarShort(c);
      }
    }

    method IntrabarLong(c: Candle) returns (sig: Option<Signal>)
      requires state.positionSide == Some(Long) && state.entryPrice.Some?
      modifies state
      ensures (state.Record(), sig) == RiskOnBook(cfg.risk, cfg.limits, old(state.Record()), c, true)
    {
      hide Above, Below;
      var highPx, lowPx := c.High(), c.Low();
      state.highestSinceEntry := Some(Max(OrElse(state.highestSinceEntry, highPx), highPx));
      var entryPrice := state.entryPrice.value;
      var slPx := Below(entryPrice, cfg.risk.stopLoss);
      var tpPx := Above(entryPrice, cfg.risk.takeProfit);
      var trailingTriggerPct := Max(0.0, cfg.risk.trigger);
      var trailingTriggerPx := Above(entryPrice, trailingTriggerPct);
      if trailingTriggerPct <= 0.0 || highPx >= trailingTriggerPx {
        state.trailArmed := true;
      }
      var trailPx := None;
      if cfg.risk.trail > 0.0 && state.trailArmed {
        trailPx := Some(Below(OrElse(state.highestSinceEntry, highPx), cfg.risk.trail));
      }
      if cfg.risk.stopLoss > 0.0 && lowPx <= slPx {
        state.ResetPosition(cfg.limits, StopLoss, Some(Long));
        var exitPx := Min(c.close, slPx);
        return Some(Signal(SELL, exitPx, StopLoss));
      }
      if cfg.risk.takeProfit > 0.0 && highPx >= tpPx {
        state.ResetPosition(cfg.limits, TakeProfit, Some(Long));
        var exitPx := Max(c.close, tpPx);
        return Some(Signal(SELL, exitPx, TakeProfit));
      }
      if trailPx.Some? && lowPx <= trailPx.value {
        state.ResetPosition(cfg.limits, TrailingStop, Some(Long));
        var exitPx := Min(c.close, trailPx.value);
        return Some(Signal(SELL, exitPx, TrailingStop));
      }
      sig := None;
    }

    method IntrabarShort(c: Candle) returns (sig: Option<Signal>)
      requires state.positionSide == Some(Short) && state.entryPrice.Some?
      modifies state
      ensures (state.Record(), sig) == RiskOnBook(cfg.risk, cfg.limits, old(state.Record()), c, true)
    {
      hide Above, Below;
      var highPx, lowPx := c.High(), c.Low();
      state.lowestSinceEntry := Some(Min(OrElse(state.lowestSinceEntry, lowPx), lowPx));
      var entryPrice := state.entryPrice.value;
      var slPx := Above(entryPrice, cfg.risk.stopLoss);
      var tpPx := Below(entryPrice, cfg.risk.takeProfit);
      var trailingTriggerPct := Max(0.0, cfg.risk.trigger);
      var trailingTriggerPx := Below(entryPrice, trailingTriggerPct);
      if trailingTriggerPct <= 0.0 || lowPx <= trailingTriggerPx {
        state.trailArmed := true;
      }
      var trailPx := None;
      if cfg.risk.trail > 0.0 && state.trailArmed {
        trailPx := Some(Above(OrElse(state.lowestSinceEntry, lowPx), cfg.risk.trail));
      }
      if cfg.risk.stopLoss > 0.0 && highPx >= slPx {
        state.ResetPosition(cfg.limits, StopLoss, Some(Short));
        var exitPx := Max(c.close, slPx);
        return Some(Signal(BUY, exitPx, StopLoss));
      }
      if cfg.risk.takeProfit > 0.0 && lowPx <= tpPx {
        state.ResetPosition(cfg.limits, TakeProfit, Some(Short));
        var exitPx := Min(c.close, tpPx);
        return Some(Signal(BUY, exitPx, TakeProfit));
      }
      if trailPx.Some? && highPx >= trailPx.value {
        state.ResetPosition(cfg.limits, TrailingStop, Some(Short));
        var exitPx := Max(c.close, trailPx.value);
        return Some(Signal(BUY, exitPx, TrailingStop));
      }
      sig := None;
    }

    /** The risk section written out a second time inside the closed-candle handler. */
    method ClosedCandleRisk(c: Candle) returns (sig: Option<Signal>)
      modifies state
      ensures (state.Record(), sig) == RiskOnBook(cfg.risk, cfg.limits, old(state.Record()), c, true)
    {
      hide Above, Below;
      sig := None;
      if state.positionSide == Some(Long) && state.entryPrice.Some? {
        sig := ClosedLong(c);
      } else if state.positionSide == Some(Short) && state.entryPrice.Some? {
        sig := ClosedShort(c);
      }
    }

    method ClosedLong(c: Candle) returns (sig: Option<Signal>)
      requires state.positionSide == Some(Long) && state.entryPrice.Some?
      modifies state
      ensures (state.Record(), sig) == RiskOnBook(cfg.risk, cfg.limits, old(state.Record()), c, true)
    {
      hide Above, Below;
      var highPx, lowPx := c.High(), c.Low();
      state.highestSinceEntry := Some(Max(OrElse(state.highestSinceEntry, highPx), highPx));
      var entryPrice := state.entryPrice.value;
      var slPx := Below(entryPrice, cfg.risk.stopLoss);
      var tpPx := Above(entryPrice, cfg.risk.takeProfit);
      var trailingTriggerPct := Max(0.0, cfg.risk.trigger);
      var trailingTriggerPx := Above(entryPrice, trailingTriggerPct);
      if trailingTriggerPct <= 0.0 || highPx >= trailingTriggerPx {
        state.trailArmed := true;
      }
      var trailPx := None;
      if cfg.risk.trail > 0.0 && state.trailArmed {
        trailPx := Some(Below(OrElse(state.highestSinceEntry, highPx), cfg.risk.trail));
      }
      if cfg.risk.stopLoss > 0.0 && lowPx <= slPx {
        state.ResetPosition(cfg.limits, StopLoss, Some(Long));
        var exitPx := Min(c.close, slPx);
        return Some(Signal(SELL, exitPx, StopLoss));
      }
      if cfg.risk.takeProfit > 0.0 && highPx >= tpPx {
        state.ResetPosition(cfg.limits, TakeProfit, Some(Long));
        var exitPx := Max(c.close, tpPx);
        return Some(Signal(SELL, exitPx, TakeProfit));
      }
      if trailPx.Some? && lowPx <= trailPx.value {
        state.ResetPosition(cfg.limits, TrailingStop, Some(Long));
        var exitPx := Min(c.close, trailPx.value);
        return Some(Signal(SELL, exitPx, TrailingStop));
      }
      sig := None;
    }

    method ClosedShort(c: Candle) returns (sig: Option<Signal>)
      requires state.positionSide == Some(Short) && state.entryPrice.Some?
      modifies state
      ensures (state.Record(), sig) == RiskOnBook(cfg.risk, cfg.limits, old(state.Record()), c, true)
    {
      hide Above, Below;
      var highPx, lowPx := c.High(), c.Low();
      state.lowestSinceEntry := Some(Min(OrElse(state.lowestSinceEntry, lowPx), lowPx));
      var entryPrice := state.entryPrice.value;
      var slPx := Above(entryPrice, cfg.risk.stopLoss);
      var tpPx := Below(entryPrice, cfg.risk.takeProfit);
      var trailingTriggerPct := Max(0.0, cfg.risk.trigger);
      var trailingTriggerPx := Below(entryPrice, trailingTriggerPct);
      if trailingTriggerPct <= 0.0 || lowPx <= trailingTriggerPx {
        state.trailArmed := true;
      }
      var trailPx := None;
      if cfg.risk.trail > 0.0 && state.trailArmed {
        trailPx := Some(Above(OrElse(state.lowestSinceEntry, lowPx), cfg.risk.trail));
      }
      if cfg.risk.stopLoss > 0.0 && highPx >= slPx {
        state.ResetPosition(cfg.limits, StopLoss, Some(Short));
        var exitPx := Max(c.close, slPx);
        return Some(Signal(BUY, exitPx, StopLoss));
      }
      if cfg.risk.takeProfit > 0.0 && lowPx <= tpPx {
        state.ResetPosition(cfg.limits, TakeProfit, Some(Short));
        var exitPx := Min(c.close, tpPx);
        return Some(Signal(BUY, exitPx, TakeProfit));
      }
      if trailPx.Some? && highPx >= trailPx.value {
        state.ResetPosition(cfg.limits, TrailingStop, Some(Short));
        var exitPx := Max(c.close, trailPx.value);
        return Some(Signal(BUY, exitPx, TrailingStop));
      }
      sig := None;
    }

    method OnClosedCandle(c: Candle, warmup: bool) returns (sig: Option<Signal>)
      requires Valid()
      modifies this`lastCloseTime, state, panel.Repr()
      ensures Valid() && (Value(), sig) == OnClosed(cfg, old(Value()), c, warmup)
    {
      hide OnReadings, Read, Panel.Valid;
      if c.closeTime <= lastCloseTime {
        return None;
      }
      lastCloseTime := c.closeTime;
      var rd := panel.Update(c);
      sig := OnPanel(c, rd, warmup);
    }

    method OnPanel(c: Candle, rd: Readings, warmup: bool) returns (sig: Option<Signal>)
      modifies state
      ensures (state.Record(), sig) == OnReadings(cfg, old(state.Record()), c, rd, warmup)
    {
      hide RiskOnBook, Release, Enter;
      state.UpdateReentryLock(rd.up, rd.down);
      if !rd.ready {
        return None;
      }
      if warmup {
        return None;
      }
      sig := ClosedCandleRisk(c);
      if sig.Some? {
        return;
      }
      sig := SeekEntry(c, rd);
    }

    method SeekEntry(c: Candle, rd: Readings) returns (sig: Option<Signal>)
      modifies state
      ensures (state.Record(), sig) == Seek(cfg, old(state.Record()), c, rd)
    {
      hide Enter;
      sig := None;
      if state.pauseBars > 0 {
        state.pauseBars := state.pauseBars - 1;
        return;
      }
      if state.cooldown > 0 {
        state.cooldown := state.cooldown - 1;
        return;
      }
      if state.positionSide.Some? {
        return;
      }
      var longCond := c.close > rd.ema && c.close > rd.vwap && rd.up;
      var shortCond := c.close < rd.ema && c.close < rd.vwap && rd.down;
      if longCond {
        if state.reentryLockSide == Some(Long) {
          return;
        }
        state.OpenPosition(cfg.limits, Long, c);
        return Some(Signal(BUY, c.close, Entry));
      }
      if shortCond {
        if state.reentryLockSide == Some(Short) {
          return;
        }
        state.OpenPosition(cfg.limits, Short, c);
        return Some(Signal(SELL, c.close, Entry));
      }
    }
  }

  // ---------------------------------------------------------------- Single steps

  lemma SeekObeys(cfg: Config, b: Book, c: Candle, rd: Readings)
    requires Sound(cfg.limits, b) && !(rd.up && rd.down)
    requires b.lock == Some(Long) ==> !rd.down
    requires b.lock == Some(Short) ==> !rd.up
    ensures var (b', sig) := Seek(cfg, b, c, rd);
            && Obeys(cfg.limits, b, b', sig, Seen(b, b', sig, true, rd.up, rd.down), true)
            && (sig.None? ==> b'.pos.side == b.pos.side && b'.cooldown <= b.cooldown)
            && (sig.Some? ==> Priced(ClosedCandle(c), sig.value, b'))
  {
  }

  lemma OnReadingsObeys(cfg: Config, b: Book, c: Candle, rd: Readings, warmup: bool)
    requires Sound(cfg.limits, b) && !(rd.up && rd.down)
    ensures var (b', sig) := OnReadings(cfg, b, c, rd, warmup);
            && Obeys(cfg.limits, b, b', sig, Seen(b, b', sig, true, rd.up, rd.down), true)
            && (warmup ==> b'.pos.side == b.pos.side && sig.None?)
            && (sig.None? ==> b'.pos.side == b.pos.side && b'.cooldown <= b.cooldown)
            && (sig.Some? ==> Priced(ClosedCandle(c), sig.value, b'))
  {
    hide RiskOnBook, RiskStep, Seek, Charged;
    var freed := Release(b, rd.up, rd.down);
    NothingCharged(cfg.limits, b, freed);
    RiskObeys(cfg.risk, cfg.limits, freed, c, true, true, rd.up, rd.down);
    RiskOnBookFacts(cfg.risk, cfg.limits, freed, c, true);
    var (risked, exit) := RiskOnBook(cfg.risk, cfg.limits, freed, c, true);
    if rd.ready && !warmup && exit.None? {
      SeekObeys(cfg, risked, c, rd);
    }
    var (b', sig) := OnReadings(cfg, b, c, rd, warmup);
    ChargedAlike(cfg.limits, b, freed, sig, b');
    if exit.None? {
      ChargedAlike(cfg.limits, b, risked, sig, b');
    }
  }

  lemma ReadFlags(cfg: Config, fed: seq<Candle>)
    ensures var rd := Read(cfg, fed);
            && rd.up == CrossedUp(MacdOf(cfg), Closes(fed)) && rd.down == CrossedDown(MacdOf(cfg), Closes(fed))
            && !(rd.up && rd.down)
  {
    hide MacdOf, VwapOf, EmaOf;
  }

  // ---------------------------------------------------------------- The signals, written out

  /** The signal of a live candle: the risk decision on an open position comes first; otherwise pause, then cooldown,
      are counted down; then a flat record enters exactly when price, EMA, VWAP and MACD agree on a side that is not
      locked. */
  lemma LiveSignalExactly(cfg: Config, b: Book, c: Candle, rd: Readings)
    requires Sound(cfg.limits, b) && rd.ready
    ensures var (b', sig) := OnReadings(cfg, b, c, rd, false);
            var d := RiskStep(cfg.risk, b.pos, c).1;
            var goLong := rd.up && c.close > rd.ema && c.close > rd.vwap && (b.lock == Some(Long) ==> rd.down);
            var goShort := rd.down && c.close < rd.ema && c.close < rd.vwap && (b.lock == Some(Short) ==> rd.up);
            if d.Leave? then sig == Some(Signal(if b.pos.side == Some(Long) then SELL else BUY, d.price, d.condition))
            else if b.pause > 0 then sig.None? && b'.pause == b.pause - 1 && b'.cooldown == b.cooldown
            else if b.cooldown > 0 then sig.None? && b'.cooldown == b.cooldown - 1 && b'.pause == b.pause
            else if b.pos.side.Some? then sig.None? && b'.pos == RiskStep(cfg.risk, b.pos, c).0
            else if goLong then sig == Some(Signal(BUY, c.close, Entry))
            else if goShort then sig == Some(Signal(SELL, c.close, Entry))
            else sig.None?
  {
    hide RiskOnBook, RiskStep;
    var freed := Release(b, rd.up, rd.down);
    RiskOnBookFacts(cfg.risk, cfg.limits, freed, c, true);
    var (risked, exit) := RiskOnBook(cfg.risk, cfg.limits, freed, c, true);
    assert freed.pos == b.pos;
    NoSideNoRisk(cfg.risk, b.pos, c);
  }

  /** The lock after a fresh candle, ready or not: an exit locks the side it leaves; otherwise the lock goes exactly
      when the flag stands against its side. */
  lemma LockExactly(cfg: Config, b: Book, c: Candle, rd: Readings, warmup: bool)
    requires Sound(cfg.limits, b)
    ensures var (b', sig) := OnReadings(cfg, b, c, rd, warmup);
            b'.lock == if sig.Some? && sig.value.condition != Entry then b.pos.side
                       else if (b.lock == Some(Long) && rd.down) || (b.lock == Some(Short) && rd.up) then None
                       else b.lock
  {
    hide RiskOnBook, RiskStep;
    var freed := Release(b, rd.up, rd.down);
    RiskOnBookFacts(cfg.risk, cfg.limits, freed, c, true);
    var (risked, exit) := RiskOnBook(cfg.risk, cfg.limits, freed, c, true);
  }

  // ---------------------------------------------------------------- The strategy as the runner sees it

  function Warmed(cfg: Config, history: seq<Candle>): State {
    if history == [] then State(0, [], NEW_BOOK)
    else OnClosed(cfg, Warmed(cfg, Front(history)), Last(history), true).0
  }

  lemma {:induction false} WarmedIsFlat(cfg: Config, history: seq<Candle>)
    ensures Sound(cfg.limits, Warmed(cfg, history).book) && IsFlat(Warmed(cfg, history).book)
  {
    NewBookSound(cfg.limits);
    hide OnReadings, Read, MacdOf, CrossedUp, CrossedDown, Sound, Charged, CoolOffStep, LockStep, Priced;
    if history != [] {
      var s, c := Warmed(cfg, Front(history)), Last(history);
      WarmedIsFlat(cfg, Front(history));
      ReadFlags(cfg, s.fed + [c]);
      OnReadingsObeys(cfg, s.book, c, Read(cfg, s.fed + [c]), true);
    }
  }

  function Model(cfg: Config, history: seq<Candle>): Strategy<State> {
    Strategy(Warmed(cfg, history),
             (s: State, e: Event) => (Step(cfg, s, e).0, ToSeq(Step(cfg, s, e).1)),
             (s: State) => s.book.pos.side,
             (s: State) => s.last)
  }

  function RulesOf(cfg: Config): Rules { Rules(cfg.limits, Some(MacdOf(cfg))) }

  lemma StepIsGuarded(cfg: Config, history: seq<Candle>, s: State, e: Event)
    requires Sound(cfg.limits, s.book)
    ensures GuardedStep(Model(cfg, history), RulesOf(cfg), s, e)
  {
    hide OnReadings, RiskOnBook, Read, MacdOf, CrossedUp, CrossedDown;
    match e {
      case ClosedCandle(c) =>
        if c.closeTime > s.last {
          ReadFlags(cfg, s.fed + [c]);
          OnReadingsObeys(cfg, s.book, c, Read(cfg, s.fed + [c]), false);
        }
      case PriceUpdate(c) =>
        RiskObeys(cfg.risk, cfg.limits, s.book, c, true, false, false, false);
        RiskOnBookFacts(cfg.risk, cfg.limits, s.book, c, true);
      case ExternalClose =>
    }
  }

  /** Krobot01 is a guarded strategy, so every run theorem of Runs holds for it. */
  lemma ModelIsGuarded(cfg: Config, history: seq<Candle>)
    ensures Guarded(Model(cfg, history), RulesOf(cfg))
  {
    WarmedIsFlat(cfg, history);
    hide Sound, Step, GuardedStep;
    forall s: State, e: Event | Sound(cfg.limits, s.book)
      ensures GuardedStep(Model(cfg, history), RulesOf(cfg), s, e)
    {
      StepIsGuarded(cfg, history, s, e);
    }
  }

  lemma ModelIsGated(cfg: Config, history: seq<Candle>)
    ensures GatedByCloseTime(Model(cfg, history))
  {
    hide OnReadings, RiskOnBook, Read;
  }
}
