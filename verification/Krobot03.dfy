/** The krobot03 strategy: EMA crossings filtered by Bollinger bands, RSI or stochastic, and ATR; risk exits only
    intrabar; it keeps no re-entry lock, and while paused it does not even feed its indicators. */
module Krobot03 {
  import opened Trading
  import opened Arithmetic
  import opened Indicators
  import opened Oscillators
  import opened Feeds
  import opened RiskExits
  import opened Books
  import opened SymbolStates
  import opened Runs
  import opened StrategyModel

  /** `root` stands for the square root that turns the variance into a band width. */
  datatype Config = Config(
    risk: Risk, limits: Limits, emaFast: int, emaSlow: int,
    useBollinger: bool, bbWindow: int, bbStdMult: real, root: real -> real,
    useAtrFilter: bool, atrN: int, atrMinPct: real,
    useStochastic: bool, stochK: int, stochD: int, stochLow: real, stochHigh: real,
    rsiPeriod: int, rsiBuyMin: real, rsiSellMax: real)

  datatype Readings = Readings(ready: bool, up: bool, down: bool, longOk: bool, shortOk: bool)

  function Spread(cfg: Config, closes: seq<real>): real {
    EmaOf(Alpha(cfg.emaFast), closes) - EmaOf(Alpha(cfg.emaSlow), closes)
  }

  predicate MomentumOk(cfg: Config, side: Side, rsi: Option<real>, k: Option<real>, d: Option<real>) {
    if cfg.useStochastic then
      k.Some? && d.Some? && (match side
                             case Long => k.value > d.value && k.value > cfg.stochLow
                             case Short => k.value < d.value && k.value < cfg.stochHigh)
    else
      rsi.Some? && (match side case Long => rsi.value >= cfg.rsiBuyMin case Short => rsi.value <= cfg.rsiSellMax)
  }

  predicate VolatilityOk(cfg: Config, atrPct: Option<real>) {
    !cfg.useAtrFilter || (atrPct.Some? && atrPct.value >= cfg.atrMinPct)
  }

  predicate BandsOk(cfg: Config, side: Side, close: real, bb: Option<Bands>) {
    cfg.useBollinger && bb.Some? ==>
      match side
      case Long => bb.value.mean < close < bb.value.upper
      case Short => bb.value.lower < close < bb.value.mean
  }

  /** One value of every indicator, after n candles of which the last closed at `close`. */
  datatype Values = Values(n: nat, close: real, before: Option<real>, now: real, bb: Option<Bands>, atr: Option<real>,
                           rsi: Option<real>, k: Option<real>, d: Option<real>)

  function Interpret(cfg: Config, v: Values): Readings {
    var atrPct := if v.atr.Some? && v.close > 0.0 then Some(PctOf(v.atr.value, v.close)) else None;
    var ready := v.n >= cfg.emaSlow && (cfg.useBollinger ==> v.bb.Some?)
                 && (if cfg.useStochastic then v.k.Some? && v.d.Some? else v.rsi.Some?)
                 && (cfg.useAtrFilter ==> atrPct.Some?);
    var volOk := VolatilityOk(cfg, atrPct);
    Readings(ready,
             v.before.Some? && v.before.value <= 0.0 && v.now > 0.0,
             v.before.Some? && v.before.value >= 0.0 && v.now < 0.0,
             MomentumOk(cfg, Long, v.rsi, v.k, v.d) && volOk && BandsOk(cfg, Long, v.close, v.bb),
             MomentumOk(cfg, Short, v.rsi, v.k, v.d) && volOk && BandsOk(cfg, Short, v.close, v.bb))
  }

  /** The spread of the two EMAs after a feed, if there was any. */
  function SpreadOf(cfg: Config, fed: seq<Candle>): Option<real> {
    if fed == [] then None else Some(Spread(cfg, Closes(fed)))
  }

  function ValuesOf(cfg: Config, fed: seq<Candle>): Values
    requires fed != []
  {
    var closes, bars := Closes(fed), Bars(fed);
    var kN, dN := MaxInt(2, cfg.stochK), MaxInt(1, cfg.stochD);
    Values(|fed|, Last(fed).close, SpreadOf(cfg, Front(fed)), Spread(cfg, closes),
           BollingerOf(MaxInt(2, cfg.bbWindow), cfg.bbStdMult, cfg.root, closes), AtrOf(MaxInt(1, cfg.atrN), bars),
           RsiOf(MaxInt(2, cfg.rsiPeriod), closes), PercentK(kN, bars), PercentD(kN, dN, bars))
  }

  function Read(cfg: Config, fed: seq<Candle>): Readings
    requires fed != []
  {
    Interpret(cfg, ValuesOf(cfg, fed))
  }

  predicate TimedOut(cfg: Config, b: Book) {
    Open(b.pos) && cfg.limits.maxHoldBars > 0 && b.bars >= cfg.limits.maxHoldBars
  }

  predicate Crossed(side: Side, rd: Readings) {
    match side case Long => rd.down case Short => rd.up
  }

  /** A live candle: time out, exit on the opposite crossing, or enter unless the candle was still cooling. */
  function OnReadings(cfg: Config, b: Book, c: Candle, rd: Readings, cooling: bool, warmup: bool)
    : (Book, Option<Signal>)
  {
    var held := if Open(b.pos) then b.(bars := b.bars + 1) else b;
    if !rd.ready || warmup then (b, None)
    else if !IsFlat(b) && (TimedOut(cfg, held) || Crossed(b.pos.side.value, rd)) then
      (Reset(cfg.limits, held, Exit, None), Some(ExitSignal(b.pos.side.value, c.close, Exit)))
    else if cooling || !IsFlat(b) then (held, None)
    else if rd.up && rd.longOk then (Enter(cfg.limits, b, Long, c), Some(Signal(BUY, c.close, Entry)))
    else if rd.down && rd.shortOk then (Enter(cfg.limits, b, Short, c), Some(Signal(SELL, c.close, Entry)))
    else (held, None)
  }

  function OnClosed(cfg: Config, s: State, c: Candle, warmup: bool): (State, Option<Signal>) {
    if c.closeTime <= s.last then (s, None)
    else if s.book.pause > 0 then (State(c.closeTime, s.fed, s.book.(pause := s.book.pause - 1)), None)
    else
      var cooling := s.book.cooldown > 0;
      var waited := if cooling then s.book.(cooldown := s.book.cooldown - 1) else s.book;
      var fed := s.fed + [c];
      var (b, sig) := OnReadings(cfg, waited, c, Read(cfg, fed), cooling, warmup);
      (State(c.closeTime, fed, b), sig)
  }

  function Step(cfg: Config, s: State, e: Event): (State, Option<Signal>) {
    match e
    case ClosedCandle(c) => OnClosed(cfg, s, c, false)
    case PriceUpdate(c) =>
      var (b, sig) := RiskOnBook(cfg.risk, cfg.limits, s.book, c, false);
      (s.(book := b), sig)
    case ExternalClose => (s.(book := CloseFromOutside(cfg.limits, s.book, false)), None)
  }

  // ---------------------------------------------------------------- The mutable strategy

  /** The indicator objects of one symbol. What they report after a candle is what the whole feed says. */
  class Panel {
    const cfg: Config
    const emaFast: EMA
    const emaSlow: EMA
    const bb: BollingerBands
    const atr: ATR
    const rsi: RSI
    const stoch: Stochastic
    var prevEmaSpread: Option<real>
    ghost var fed: seq<Candle>

    ghost function Repr(): set<object> {
      {this, emaFast, emaSlow, bb, atr, atr.rma, rsi, rsi.gainRma, rsi.lossRma, stoch}
    }

    ghost predicate Valid()
      reads Repr()
    {
      && emaFast != emaSlow && atr.rma !in {rsi.gainRma, rsi.lossRma}
      && emaFast.Valid() && emaFast.alpha == Alpha(cfg.emaFast) && emaFast.seen == Closes(fed)
      && emaSlow.Valid() && emaSlow.alpha == Alpha(cfg.emaSlow) && emaSlow.seen == Closes(fed)
      && bb.Valid() && bb.window == MaxInt(2, cfg.bbWindow) && bb.stdMult == cfg.bbStdMult && bb.root == cfg.root
      && bb.seen == Closes(fed)
      && atr.Valid() && atr.n == MaxInt(1, cfg.atrN) && atr.seen == Bars(fed)
      && rsi.Valid() && rsi.period == MaxInt(2, cfg.rsiPeriod) && rsi.seen == Closes(fed)
      && stoch.Valid() && stoch.kPeriod == MaxInt(2, cfg.stochK) && stoch.dPeriod == MaxInt(1, cfg.stochD)
      && stoch.seen == Bars(fed)
      && prevEmaSpread == SpreadOf(cfg, fed)
    }

    constructor (cfg: Config)
      ensures Valid() && this.cfg == cfg && fed == [] && fresh(Repr())
    {
      hide EMA.Valid, BollingerBands.Valid, ATR.Valid, RSI.Valid, Stochastic.Valid;
      hide BollingerOf, EmaOf, AtrOf, RsiOf, PercentK, PercentD;
      NoColumns();
      hide Closes, Volumes, Trades, Bars;
      this.cfg := cfg;
      emaFast := new EMA(cfg.emaFast);
      emaSlow := new EMA(cfg.emaSlow);
      bb := new BollingerBands(cfg.bbWindow, cfg.bbStdMult, cfg.root);
      atr := new ATR(cfg.atrN);
      rsi := new RSI(cfg.rsiPeriod);
      stoch := new Stochastic(cfg.stochK, cfg.stochD);
      prevEmaSpread, fed := None, [];
    }

    method Update(c: Candle) returns (rd: Readings)
      requires Valid()
      modifies Repr()
      ensures Valid() && fed == old(fed) + [c] && rd == Read(cfg, fed)
    {
      hide Valid, ValuesOf, Interpret;
      var v := Measure(c);
      rd := Report(v);
    }

    method Measure(c: Candle) returns (v: Values)
      requires Valid()
      modifies Repr()
      ensures Valid() && fed == old(fed) + [c] && v == ValuesOf(cfg, fed)
    {
      hide EMA.Valid, BollingerBands.Valid, ATR.Valid, RSI.Valid, Stochastic.Valid;
      hide BollingerOf, EmaOf, AtrOf, RsiOf, PercentK, PercentD;
      ColumnsGrow(fed, c);
      hide Closes, Volumes, Trades, Bars;
      assert Front(fed + [c]) == fed;
      fed := fed + [c];
      var fast := emaFast.Update(c.close);
      var slow := emaSlow.Update(c.close);
      var bands := bb.Update(c.close);
      var atrValue := atr.Update(c.High(), c.Low(), c.close);
      var rsiValue := rsi.Update(c.close);
      var k, d := stoch.Update(c.High(), c.Low(), c.close);
      v := Values(emaSlow.count, c.close, prevEmaSpread, fast - slow, bands, atrValue, rsiValue, k, d);
      prevEmaSpread := Some(fast - slow);
    }

    method Report(v: Values) returns (rd: Readings)
      ensures rd == Interpret(cfg, v)
    {
      hide PctOf, MomentumOk, VolatilityOk, BandsOk;
      var atrPct := if v.atr.Some? && v.close > 0.0 then Some(PctOf(v.atr.value, v.close)) else None;
      var crossedUp := v.before.Some? && v.before.value <= 0.0 && v.now > 0.0;
      var crossedDown := v.before.Some? && v.before.value >= 0.0 && v.now < 0.0;
      var ready := v.n >= cfg.emaSlow;
      if cfg.useBollinger && v.bb.None? {
        ready := false;
      }
      if v.rsi.None? && !cfg.useStochastic {
        ready := false;
      }
      if cfg.useStochastic && (v.k.None? || v.d.None?) {
        ready := false;
      }
      if cfg.useAtrFilter && atrPct.None? {
        ready := false;
      }
      var volOk := VolatilityOk(cfg, atrPct);
      rd := Readings(ready, crossedUp, crossedDown,
                     MomentumOk(cfg, Long, v.rsi, v.k, v.d) && volOk && BandsOk(cfg, Long, v.close, v.bb),
                     MomentumOk(cfg, Short, v.rsi, v.k, v.d) && volOk && BandsOk(cfg, Short, v.close, v.bb));
    }
  }

  class Krobot03Strategy {
    const cfg: Config
    const state: SymbolState
    const panel: Panel
    var lastCloseTime: int

    ghost predicate Valid()
      reads this, panel.Repr()
    {
      panel.Valid() && panel.cfg == cfg && this !in panel.Repr() && state !in panel.Repr()
    }

    ghost function Value(): State
      reads this, state, panel
    {
      State(lastCloseTime, panel.fed, state.Record())
    }

    constructor (cfg: Config)
      ensures Valid() && this.cfg == cfg && Value() == State(0, [], NEW_BOOK) && fresh(state) && fresh(panel.Repr())
    {
      hide Panel.Valid;
      this.cfg := cfg;
      state := new SymbolState();
      panel := new Panel(cfg);
      lastCloseTime := 0;
    }

    method OnPriceUpdate(c: Candle) returns (sig: Option<Signal>)
      modifies state
      ensures (state.Record(), sig) == RiskOnBook(cfg.risk, cfg.limits, old(state.Record()), c, false)
    {
      hide Above, Below;
      if state.positionSide.None? || state.entryPrice.None? {
        return None;
      }
      match state.positionSide.value {
        case Long => sig := IntrabarLong(c);
        case Short => sig := IntrabarShort(c);
      }
    }

    method IntrabarLong(c: Candle) returns (sig: Option<Signal>)
      requires state.positionSide == Some(Long) && state.entryPrice.Some?
      modifies state
      ensures (state.Record(), sig) == RiskOnBook(cfg.risk, cfg.limits, old(state.Record()), c, false)
    {
      hide Above, Below;
      var highPx, lowPx := c.High(), c.Low();
      state.highestSinceEntry := Some(Max(OrElse(state.highestSinceEntry, highPx), highPx));
      var entryPrice := state.entryPrice.value;
      var slPx := Below(entryPrice, cfg.risk.stopLoss);
      var tpPx := Above(entryPrice, cfg.risk.takeProfit);
      var trailingTriggerPct := Max(0.0, cfg.risk.trigger);
      var trailingTriggerPx := Above(entryPrice, trailingTriggerPct);
      if trailingTriggerPct <= 0.0 || highPx >= trailingTriggerPx {
        state.trailArmed := true;
      }
      var trailPx := None;
      if cfg.risk.trail > 0.0 && state.trailArmed {
        trailPx := Some(Below(OrElse(state.highestSinceEntry, highPx), cfg.risk.trail));
      }
      if cfg.risk.stopLoss > 0.0 && lowPx <= slPx {
        state.ResetPosition(cfg.limits, StopLoss, None);
        var exitPx := Min(c.close, slPx);
        return Some(Signal(SELL, exitPx, StopLoss));
      }
      if cfg.risk.takeProfit > 0.0 && highPx >= tpPx {
        state.ResetPosition(cfg.limits, TakeProfit, None);
        var exitPx := Max(c.close, tpPx);
        return Some(Signal(SELL, exitPx, TakeProfit));
      }
      if trailPx.Some? && lowPx <= trailPx.value {
        state.ResetPosition(cfg.limits, TrailingStop, None);
        var exitPx := Min(c.close, trailPx.value);
        return Some(Signal(SELL, exitPx, TrailingStop));
      }
      sig := None;
    }

    method IntrabarShort(c: Candle) returns (sig: Option<Signal>)
      requires state.positionSide == Some(Short) && state.entryPrice.Some?
      modifies state
      ensures (state.Record(), sig) == RiskOnBook(cfg.risk, cfg.limits, old(state.Record()), c, false)
    {
      hide Above, Below;
      var highPx, lowPx := c.High(), c.Low();
      state.lowestSinceEntry := Some(Min(OrElse(state.lowestSinceEntry, lowPx), lowPx));
      var entryPrice := state.entryPrice.value;
      var slPx := Above(entryPrice, cfg.risk.stopLoss);
      var tpPx := Below(entryPrice, cfg.risk.takeProfit);
      var trailingTriggerPct := Max(0.0, cfg.risk.trigger);
      var trailingTriggerPx := Below(entryPrice, trailingTriggerPct);
      if trailingTriggerPct <= 0.0 || lowPx <= trailingTriggerPx {
        state.trailArmed := true;
      }
      var trailPx := None;
      if cfg.risk.trail > 0.0 && state.trailArmed {
        trailPx := Some(Above(OrElse(state.lowestSinceEntry, lowPx), cfg.risk.trail));
      }
      if cfg.risk.stopLoss > 0.0 && highPx >= slPx {
        state.ResetPosition(cfg.limits, StopLoss, None);
        var exitPx := Max(c.close, slPx);
        return Some(Signal(BUY, exitPx, StopLoss));
      }
      if cfg.risk.takeProfit > 0.0 && lowPx <= tpPx {
        state.ResetPosition(cfg.limits, TakeProfit, None);
        var exitPx := Min(c.close, tpPx);
        return Some(Signal(BUY, exitPx, TakeProfit));
      }
      if trailPx.Some? && highPx >= trailPx.value {
        state.ResetPosition(cfg.limits, TrailingStop, None);
        var exitPx := Max(c.close, trailPx.value);
        return Some(Signal(BUY, exitPx, TrailingStop));
      }
      sig := None;
    }

    method OnClosedCandle(c: Candle, warmup: bool) returns (sig: Option<Signal>)
      requires Valid()
      modifies this`lastCloseTime, state, panel.Repr()
      ensures Valid() && (Value(), sig) == OnClosed(cfg, old(Value()), c, warmup)
    {
      hide Reset, Enter, Read, Panel.Valid;
      sig := None;
      if c.closeTime <= lastCloseTime {
        return;
      }
      lastCloseTime := c.closeTime;
      if state.pauseBars > 0 {
        state.pauseBars := state.pauseBars - 1;
        return;
      }
      var entryCooldownActive := state.cooldown > 0;
      if entryCooldownActive {
        state.cooldown := state.cooldown - 1;
      }
      var rd := panel.Update(c);
      if !rd.ready || warmup {
        return;
      }
      sig := Live(c, rd, entryCooldownActive);
    }

    method Live(c: Candle, rd: Readings, entryCooldownActive: bool) returns (sig: Option<Signal>)
      requires rd.ready
      modifies state
      ensures (state.Record(), sig) == OnReadings(cfg, old(state.Record()), c, rd, entryCooldownActive, false)
    {
      hide Reset, Enter;
      sig := None;
      if state.positionSide.Some? && state.entryPrice.Some? {
        state.barsInPos := state.barsInPos + 1;
        if cfg.limits.maxHoldBars > 0 && state.barsInPos >= cfg.limits.maxHoldBars {
          var entrySide := state.positionSide;
          state.ResetPosition(cfg.limits, Exit, None);
          if entrySide == Some(Long) {
            return Some(Signal(SELL, c.close, Exit));
          }
          return Some(Signal(BUY, c.close, Exit));
        }
      }
      if state.positionSide == Some(Long) && rd.down {
        state.ResetPosition(cfg.limits, Exit, None);
        return Some(Signal(SELL, c.close, Exit));
      }
      if state.positionSide == Some(Short) && rd.up {
        state.ResetPosition(cfg.limits, Exit, None);
        return Some(Signal(BUY, c.close, Exit));
      }
      if entryCooldownActive {
        return;
      }
      if state.positionSide.Some? {
        return;
      }
      if rd.up && rd.longOk {
        state.OpenPosition(cfg.limits, Long, c);
        return Some(Signal(BUY, c.close, Entry));
      }
      if rd.down && rd.shortOk {
        state.OpenPosition(cfg.limits, Short, c);
        return Some(Signal(SELL, c.close, Entry));
      }
    }
  }

  // ---------------------------------------------------------------- Single steps

  lemma OnReadingsObeys(cfg: Config, b: Book, c: Candle, rd: Readings, cooling: bool, warmup: bool)
    requires Sound(cfg.limits, b) && b.pause <= 0
    ensures var (b', sig) := OnReadings(cfg, b, c, rd, cooling, warmup);
            && Sound(cfg.limits, b')
            && (sig.Some? ==> Fits(b.pos.side, sig.value) && b'.pos.side == Moved(sig.value))
            && (sig.Some? ==> Priced(ClosedCandle(c), sig.value, b') && sig.value.condition in {Entry, Exit})
            && (sig.Some? ==> Charged(cfg.limits, b, sig, b')) && (sig.None? ==> b'.streak == b.streak)
            && (sig.Some? && IsFlat(b) ==> !cooling)
            && (sig.None? ==> b'.pos.side == b.pos.side && b'.pause == b.pause && b'.cooldown == b.cooldown)
            && (warmup ==> sig.None?)
  {
    ResetSound(cfg.limits, b, Exit, None);
  }

  lemma OnClosedObeys(cfg: Config, s: State, c: Candle, warmup: bool)
    requires Sound(cfg.limits, s.book)
    ensures var (s', sig) := OnClosed(cfg, s, c, warmup);
            && Obeys(cfg.limits, s.book, s'.book, sig, Seen(s.book, s'.book, sig, c.closeTime > s.last, false, false),
                     false)
            && (sig.None? ==> s'.book.pos.side == s.book.pos.side && s'.book.cooldown <= s.book.cooldown)
            && (sig.Some? ==> Priced(ClosedCandle(c), sig.value, s'.book))
            && (warmup ==> sig.None?)
  {
    hide OnReadings, Read;
    if c.closeTime > s.last && s.book.pause <= 0 {
      var cooling := s.book.cooldown > 0;
      var waited := if cooling then s.book.(cooldown := s.book.cooldown - 1) else s.book;
      OnReadingsObeys(cfg, waited, c, Read(cfg, s.fed + [c]), cooling, warmup);
    }
  }

  // ---------------------------------------------------------------- The signals, written out

  /** The crossings, the readiness and the two entry filters, written out from the indicator values. */
  lemma ReadingsExactly(cfg: Config, v: Values)
    ensures var rd := Interpret(cfg, v);
            var atrKnown := v.atr.Some? && v.close > 0.0;
            var quiet := cfg.useAtrFilter && (!atrKnown || PctOf(v.atr.value, v.close) < cfg.atrMinPct);
            var measured := if cfg.useStochastic then v.k.Some? && v.d.Some? else v.rsi.Some?;
            var banded := cfg.useBollinger && v.bb.Some?;
            && (rd.ready <==> v.n >= cfg.emaSlow && measured && (cfg.useBollinger ==> v.bb.Some?)
                              && (cfg.useAtrFilter ==> atrKnown))
            && (rd.up <==> v.before.Some? && v.before.value <= 0.0 && 0.0 < v.now)
            && (rd.down <==> v.before.Some? && v.before.value >= 0.0 && 0.0 > v.now)
            && (rd.longOk <==>
                  && measured && !quiet
                  && (if cfg.useStochastic then v.k.value > v.d.value && v.k.value > cfg.stochLow
                      else v.rsi.value >= cfg.rsiBuyMin)
                  && (banded ==> v.close > v.bb.value.mean && v.close < v.bb.value.upper))
            && (rd.shortOk <==>
                  && measured && !quiet
                  && (if cfg.useStochastic then v.k.value < v.d.value && v.k.value < cfg.stochHigh
                      else v.rsi.value <= cfg.rsiSellMax)
                  && (banded ==> v.close < v.bb.value.mean && v.close > v.bb.value.lower))
  {
    hide PctOf;
  }

  /** The signal of a fresh candle: while pausing only the pause is counted down; an open position leaves on its
      holding limit or on the opposite crossing; a flat one enters on a crossing that passes its filter, unless the
      candle was still cooling. */
  lemma LiveSignalExactly(cfg: Config, s: State, c: Candle)
    requires Sound(cfg.limits, s.book) && c.closeTime > s.last
    ensures var (s', sig) := OnClosed(cfg, s, c, false);
            var b, b', rd := s.book, s'.book, Read(cfg, s.fed + [c]);
            var long := b.pos.side == Some(Long);
            var expired := cfg.limits.maxHoldBars > 0 && b.bars + 1 >= cfg.limits.maxHoldBars;
            && s'.last == c.closeTime && s'.fed == (if b.pause > 0 then s.fed else s.fed + [c])
            && if b.pause > 0 then sig.None? && b' == b.(pause := b.pause - 1)
               else if !rd.ready then
                 sig.None? && b' == b.(cooldown := if b.cooldown > 0 then b.cooldown - 1 else b.cooldown)
               else if b.pos.side.Some? then
                 if expired || (if long then rd.down else rd.up)
                 then sig == Some(Signal(if long then SELL else BUY, c.close, Exit))
                 else sig.None? && b'.bars == b.bars + 1 && b'.pos == b.pos
               else if b.cooldown > 0 then sig.None? && b' == b.(cooldown := b.cooldown - 1)
               else if rd.up && rd.longOk then sig == Some(Signal(BUY, c.close, Entry))
               else if rd.down && rd.shortOk then sig == Some(Signal(SELL, c.close, Entry))
               else sig.None?
  {
    hide Read;
  }

  // ---------------------------------------------------------------- The strategy as the runner sees it

  function Warmed(cfg: Config, history: seq<Candle>): State {
    if history == [] then State(0, [], NEW_BOOK)
    else OnClosed(cfg, Warmed(cfg, Front(history)), Last(history), true).0
  }

  lemma {:induction false} WarmedIsFlat(cfg: Config, history: seq<Candle>)
    ensures Sound(cfg.limits, Warmed(cfg, history).book) && IsFlat(Warmed(cfg, history).book)
  {
    if history != [] {
      hide OnClosed;
      WarmedIsFlat(cfg, Front(history));
      OnClosedObeys(cfg, Warmed(cfg, Front(history)), Last(history), true);
    }
  }

  function Model(cfg: Config, history: seq<Candle>): Strategy<State> {
    Strategy(Warmed(cfg, history),
             (s: State, e: Event) => (Step(cfg, s, e).0, ToSeq(Step(cfg, s, e).1)),
             (s: State) => s.book.pos.side,
             (s: State) => s.last)
  }

  function RulesOf(cfg: Config): Rules { Rules(cfg.limits, None) }

  lemma StepIsGuarded(cfg: Config, history: seq<Candle>, s: State, e: Event)
    requires Sound(cfg.limits, s.book)
    ensures GuardedStep(Model(cfg, history), RulesOf(cfg), s, e)
  {
    hide OnClosed, RiskOnBook;
    match e {
      case ClosedCandle(c) =>
        OnClosedObeys(cfg, s, c, false);
      case PriceUpdate(c) =>
        RiskObeys(cfg.risk, cfg.limits, s.book, c, false, false, false, false);
        RiskOnBookFacts(cfg.risk, cfg.limits, s.book, c, false);
      case ExternalClose =>
    }
  }

  /** Krobot03 is a guarded strategy, so every run theorem that does not need a lock of Runs holds for it. */
  lemma ModelIsGuarded(cfg: Config, history: seq<Candle>)
    ensures Guarded(Model(cfg, history), RulesOf(cfg))
  {
    WarmedIsFlat(cfg, history);
    hide Sound, Step, GuardedStep;
    forall s: State, e: Event | Sound(cfg.limits, s.book)
      ensures GuardedStep(Model(cfg, history), RulesOf(cfg), s, e)
    {
      StepIsGuarded(cfg, history, s, e);
    }
  }

  lemma ModelIsGated(cfg: Config, history: seq<Candle>)
    ensures GatedByCloseTime(Model(cfg, history))
  {
    hide OnReadings, RiskOnBook, Read;
  }
}
