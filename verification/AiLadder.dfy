/** The take-profit ladder of the AI strategy: when a target is reached and the position may be kept, the target rolls
    on to the next rung instead of closing the position. What the language model decides is an input here. */
module AiLadder {
  import opened Trading
  import opened Arithmetic
  import opened Indicators
  import opened RiskExits
  import opened Books
  import opened SymbolStates

  /** Configured percentages; the active ones in the state may be replaced while a position is open. */
  datatype Config = Config(risk: Risk, limits: Limits)

  datatype State = State(book: Book, anchor: Option<real>, steps: int, takeProfit: real, stopLoss: real, trail: real)

  /** A closing resets the ladder and puts the configured percentages back. */
  function Closed(cfg: Config, book: Book): State {
    State(book, None, 0, cfg.risk.takeProfit, cfg.risk.stopLoss, cfg.risk.trail)
  }

  function Close(cfg: Config, s: State, condition: Condition): State {
    Closed(cfg, Reset(cfg.limits, s.book, condition, None))
  }

  /** The next rung, or the entry itself when no positive step is active. */
  function Target(side: Side, entry: real, anchor: real, takeProfit: real): real {
    if takeProfit > 0.0 then Level(side, anchor, takeProfit) else entry
  }

  function Trail(side: Side, armed: bool, extreme: real, trail: real): Option<real> {
    if trail > 0.0 && armed then Some(Level(Opposite(side), extreme, trail)) else None
  }

  function Observed(cfg: Config, s: State, c: Candle, advanceBar: bool): State
    requires Open(s.book.pos)
  {
    s.(book := s.book.(pos := Track(cfg.risk, s.book.pos, c),
                       bars := if advanceBar then s.book.bars + 1 else s.book.bars),
       anchor := if s.anchor.None? then s.book.pos.entry else s.anchor)
  }

  function Judge(cfg: Config, t: State, c: Candle, mayRoll: bool, advanceBar: bool): (State, Option<Signal>)
    requires Open(t.book.pos) && Extreme(t.book.pos).Some? && t.anchor.Some?
  {
    var p := t.book.pos;
    var side, entry := p.side.value, p.entry.value;
    var against := Opposite(side);
    var target := Target(side, entry, t.anchor.value, t.takeProfit);
    var stop := Level(against, entry, Max(0.0, t.stopLoss));
    var trail := Trail(side, p.armed, Extreme(p).value, t.trail);
    var guard := if trail.Some? then Better(side, stop, trail.value) else stop;
    if Reached(side, Favourable(side, c), target) then
      if mayRoll && t.takeProfit > 0.0 then
        (t.(anchor := Some(target), steps := t.steps + 1, stopLoss := 0.0), None)
      else
        (Close(cfg, t, TakeProfit), Some(ExitSignal(side, Better(side, c.close, target), TakeProfit)))
    else if Reached(against, Adverse(side, c), guard) then
      var condition := if trail.Some? && Reached(side, trail.value, stop) then TrailingStop else StopLoss;
      (Close(cfg, t, condition), Some(ExitSignal(side, Better(against, c.close, guard), condition)))
    else if advanceBar && t.book.bars >= cfg.limits.maxHoldBars then
      (Close(cfg, t, Exit), Some(ExitSignal(side, c.close, Exit)))
    else (t, None)
  }

  function RiskExit(cfg: Config, s: State, c: Candle, mayRoll: bool, advanceBar: bool): (State, Option<Signal>) {
    if !Open(s.book.pos) then (s, None) else Judge(cfg, Observed(cfg, s, c, advanceBar), c, mayRoll, advanceBar)
  }

  /** The trade condition written into an order: that of the exit, or HOLD where a roll of the same candle had already
      tagged the candle's metadata. */
  datatype Tag = Tagged(condition: Condition) | TaggedHold

  /** A closed candle on which the language model may ask to leave: risk first, then the request. */
  function OnCandle(cfg: Config, s: State, c: Candle, mayRoll: bool, wantsOut: bool): (State, Option<(Signal, Tag)>) {
    var (t, sig) := RiskExit(cfg, s, c, mayRoll, true);
    if sig.Some? then (t, Some((sig.value, Tagged(sig.value.condition))))
    else if t.book.cooldown == 0 && wantsOut && t.book.pos.side.Some? then
      (Close(cfg, t, Exit),
       Some((ExitSignal(t.book.pos.side.value, c.close, Exit), if t.steps > s.steps then TaggedHold else Tagged(Exit))))
    else (t, None)
  }

  // ---------------------------------------------------------------- The mutable strategy

  class AiPosition {
    const cfg: Config
    const slots: SymbolState
    var tpAnchorPrice: Option<real>
    var tpLadderSteps: int
    var activeTakeProfitPct: real
    var activeStopLossPct: real
    var activeTrailingStopPct: real

    function Value(): State
      reads this, slots
    {
      State(slots.Record(), tpAnchorPrice, tpLadderSteps, activeTakeProfitPct, activeStopLossPct, activeTrailingStopPct)
    }

    constructor (cfg: Config)
      ensures this.cfg == cfg && Value() == Closed(cfg, NEW_BOOK) && fresh(slots)
    {
      this.cfg := cfg;
      slots := new SymbolState();
      tpAnchorPrice, tpLadderSteps := None, 0;
      activeTakeProfitPct, activeStopLossPct, activeTrailingStopPct :=
        cfg.risk.takeProfit, cfg.risk.stopLoss, cfg.risk.trail;
    }

    method CloseLong(price: real, condition: Condition, held: bool) returns (sig: Option<Signal>, tag: Tag)
      modifies this, slots
      ensures Value() == Close(cfg, old(Value()), condition) && sig == Some(Signal(SELL, price, condition))
      ensures tag == if held then TaggedHold else Tagged(condition)
    {
      slots.ResetPosition(cfg.limits, condition, None);
      tpAnchorPrice, tpLadderSteps := None, 0;
      activeTakeProfitPct, activeStopLossPct, activeTrailingStopPct :=
        cfg.risk.takeProfit, cfg.risk.stopLoss, cfg.risk.trail;
      sig, tag := Some(Signal(SELL, price, condition)), if held then TaggedHold else Tagged(condition);
    }

    method CloseShort(price: real, condition: Condition, held: bool) returns (sig: Option<Signal>, tag: Tag)
      modifies this, slots
      ensures Value() == Close(cfg, old(Value()), condition) && sig == Some(Signal(BUY, price, condition))
      ensures tag == if held then TaggedHold else Tagged(condition)
    {
      slots.ResetPosition(cfg.limits, condition, None);
      tpAnchorPrice, tpLadderSteps := None, 0;
      activeTakeProfitPct, activeStopLossPct, activeTrailingStopPct :=
        cfg.risk.takeProfit, cfg.risk.stopLoss, cfg.risk.trail;
      sig, tag := Some(Signal(BUY, price, condition)), if held then TaggedHold else Tagged(condition);
    }

    method PositionRiskExit(c: Candle, mayRoll: bool, advanceBar: bool) returns (sig: Option<Signal>)
      modifies this, slots
      ensures (Value(), sig) == RiskExit(cfg, old(Value()), c, mayRoll, advanceBar)
    {
      hide Judge, Observed;
      if slots.positionSide.None? || slots.entryPrice.None? {
        return None;
      }
      match slots.positionSide.value {
        case Long =>
          TrackLong(c, advanceBar);
          sig := JudgeLong(c, mayRoll, advanceBar);
        case Short =>
          TrackShort(c, advanceBar);
          sig := JudgeShort(c, mayRoll, advanceBar);
      }
    }

    /** The part of the closed-candle handler that deals with an open position. */
    method OnClosedCandle(c: Candle, mayRoll: bool, wantsOut: bool) returns (order: Option<(Signal, Tag)>)
      modifies this, slots
      ensures (Value(), order) == OnCandle(cfg, old(Value()), c, mayRoll, wantsOut)
    {
      hide RiskExit, Close;
      var stepsBefore := tpLadderSteps;
      var sig := PositionRiskExit(c, mayRoll, true);
      if sig.Some? {
        return Some((sig.value, Tagged(sig.value.condition)));
      }
      var rolled := tpLadderSteps > stepsBefore;
      order := None;
      if slots.cooldown == 0 && wantsOut && slots.positionSide.Some? {
        var tag;
        match slots.positionSide.value {
          case Long => sig, tag := CloseLong(c.close, Exit, rolled);
          case Short => sig, tag := CloseShort(c.close, Exit, rolled);
        }
        order := Some((sig.value, tag));
      }
    }

    method TrackLong(c: Candle, advanceBar: bool)
      requires slots.positionSide == Some(Long) && slots.entryPrice.Some?
      modifies this, slots
      ensures Value() == Observed(cfg, old(Value()), c, advanceBar)
      ensures slots.positionSide == Some(Long) && slots.entryPrice.Some?
      ensures slots.highestSinceEntry.Some? && tpAnchorPrice.Some?
      ensures OrElse(slots.highestSinceEntry, c.High()) == slots.highestSinceEntry.value
    {
      hide Above, Below;
      if advanceBar {
        slots.barsInPos := slots.barsInPos + 1;
      }
      var highPx := c.High();
      slots.highestSinceEntry := Some(Max(OrElse(slots.highestSinceEntry, highPx), highPx));
      if tpAnchorPrice.None? {
        tpAnchorPrice := slots.entryPrice;
      }
      var triggerPct := Max(0.0, cfg.risk.trigger);
      if triggerPct <= 0.0 || highPx >= Above(slots.entryPrice.value, triggerPct) {
        slots.trailArmed := true;
      }
    }

    method TrackShort(c: Candle, advanceBar: bool)
      requires slots.positionSide == Some(Short) && slots.entryPrice.Some?
      modifies this, slots
      ensures Value() == Observed(cfg, old(Value()), c, advanceBar)
      ensures slots.positionSide == Some(Short) && slots.entryPrice.Some?
      ensures slots.lowestSinceEntry.Some? && tpAnchorPrice.Some?
      ensures OrElse(slots.lowestSinceEntry, c.Low()) == slots.lowestSinceEntry.value
    {
      hide Above, Below;
      if advanceBar {
        slots.barsInPos := slots.barsInPos + 1;
      }
      var lowPx := c.Low();
      slots.lowestSinceEntry := Some(Min(OrElse(slots.lowestSinceEntry, lowPx), lowPx));
      if tpAnchorPrice.None? {
        tpAnchorPrice := slots.entryPrice;
      }
      var triggerPct := Max(0.0, cfg.risk.trigger);
      if triggerPct <= 0.0 || lowPx <= Below(slots.entryPrice.value, triggerPct) {
        slots.trailArmed := true;
      }
    }

    method JudgeLong(c: Candle, mayRoll: bool, advanceBar: bool) returns (sig: Option<Signal>)
      requires slots.positionSide == Some(Long) && slots.entryPrice.Some?
      requires slots.highestSinceEntry.Some? && tpAnchorPrice.Some?
      requires OrElse(slots.highestSinceEntry, c.High()) == slots.highestSinceEntry.value
      modifies this, slots
      ensures (Value(), sig) == Judge(cfg, old(Value()), c, mayRoll, advanceBar)
    {
      hide Above, Below, Close;
      var entryPrice, tpStepPct := slots.entryPrice.value, Max(0.0, activeTakeProfitPct);
      var tpPx := if tpStepPct > 0.0 then Above(tpAnchorPrice.value, tpStepPct) else entryPrice;
      var slPx := Below(entryPrice, Max(0.0, activeStopLossPct));
      var trailPx := None;
      if Max(0.0, activeTrailingStopPct) > 0.0 && slots.trailArmed {
        trailPx := Some(Below(OrElse(slots.highestSinceEntry, c.High()), Max(0.0, activeTrailingStopPct)));
      }
      var stopPx := if trailPx.Some? then Max(slPx, trailPx.value) else slPx;
      sig := None;
      var tag;
      if c.High() >= tpPx {
        if mayRoll && tpStepPct > 0.0 {
          tpAnchorPrice := Some(tpPx);
          tpLadderSteps := tpLadderSteps + 1;
          activeStopLossPct := 0.0;
          return;
        }
        sig, tag := CloseLong(Max(c.close, tpPx), TakeProfit, false);
      } else if c.Low() <= stopPx {
        var condition := if trailPx.Some? && trailPx.value >= slPx then TrailingStop else StopLoss;
        sig, tag := CloseLong(Min(c.close, stopPx), condition, false);
      } else if advanceBar && slots.barsInPos >= cfg.limits.maxHoldBars {
        sig, tag := CloseLong(c.close, Exit, false);
      }
    }

    method JudgeShort(c: Candle, mayRoll: bool, advanceBar: bool) returns (sig: Option<Signal>)
      requires slots.positionSide == Some(Short) && slots.entryPrice.Some?
      requires slots.lowestSinceEntry.Some? && tpAnchorPrice.Some?
      requires OrElse(slots.lowestSinceEntry, c.Low()) == slots.lowestSinceEntry.value
      modifies this, slots
      ensures (Value(), sig) == Judge(cfg, old(Value()), c, mayRoll, advanceBar)
    {
      hide Above, Below, Close;
      var entryPrice, tpStepPct := slots.entryPrice.value, Max(0.0, activeTakeProfitPct);
      var tpPx := if tpStepPct > 0.0 then Below(tpAnchorPrice.value, tpStepPct) else entryPrice;
      var slPx := Above(entryPrice, Max(0.0, activeStopLossPct));
      var trailPx := None;
      if Max(0.0, activeTrailingStopPct) > 0.0 && slots.trailArmed {
        trailPx := Some(Above(OrElse(slots.lowestSinceEntry, c.Low()), Max(0.0, activeTrailingStopPct)));
      }
      var stopPx := if trailPx.Some? then Min(slPx, trailPx.value) else slPx;
      sig := None;
      var tag;
      if c.Low() <= tpPx {
        if mayRoll && tpStepPct > 0.0 {
          tpAnchorPrice := Some(tpPx);
          tpLadderSteps := tpLadderSteps + 1;
          activeStopLossPct := 0.0;
          return;
        }
        sig, tag := CloseShort(Min(c.close, tpPx), TakeProfit, false);
      } else if c.High() >= stopPx {
        var condition := if trailPx.Some? && trailPx.value <= slPx then TrailingStop else StopLoss;
        sig, tag := CloseShort(Max(c.close, stopPx), condition, false);
      } else if advanceBar && slots.barsInPos >= cfg.limits.maxHoldBars {
        sig, tag := CloseShort(c.close, Exit, false);
      }
    }
  }

  // ---------------------------------------------------------------- Everything that can happen to a position

  datatype Event =
    | Price(candle: Candle, mayRoll: bool, advanceBar: bool)
    | Override(takeProfit: real, stopLoss: real, trail: real)
    | EnterAt(side: Side, price: real)
    | Leave
    | ExternalClose

  function Enter(cfg: Config, s: State, side: Side, price: real): State {
    if s.book.pos.side.Some? then s
    else
      State(s.book.(pos := Position(Some(side), Some(price), Some(price), Some(price), false),
                    bars := 0, cooldown := cfg.limits.cooldownBars),
            Some(price), 0, cfg.risk.takeProfit, cfg.risk.stopLoss, cfg.risk.trail)
  }

  /** The language model may replace the active percentages, enter when flat and leave when open, at any time. */
  function Step(cfg: Config, s: State, e: Event): State {
    match e
    case Price(c, mayRoll, advanceBar) => RiskExit(cfg, s, c, mayRoll, advanceBar).0
    case Override(tp, sl, tr) => s.(takeProfit := tp, stopLoss := sl, trail := tr)
    case EnterAt(side, price) => Enter(cfg, s, side, price)
    case Leave => if s.book.pos.side.Some? then Close(cfg, s, Exit) else s
    case ExternalClose => Closed(cfg, CloseFromOutside(cfg.limits, s.book, false))
  }

  /** Prices are positive; nothing else is asked of them, nor of the percentages. */
  predicate Positive(e: Event) {
    match e
    case Price(c, _, _) => c.close > 0.0 && c.High() > 0.0 && c.Low() > 0.0
    case EnterAt(_, price) => price > 0.0
    case _ => true
  }

  // ---------------------------------------------------------------- The ladder

  /** What one rung multiplies the anchor by. */
  function Factor(side: Side, pct: real): real {
    match side case Long => 1.0 + Fraction(pct) case Short => 1.0 - Fraction(pct)
  }

  /** The rungs climbed in the open position: each roll adds its factor, a closing forgets them. */
  function Rungs(s: State, s': State, rungs: seq<real>): seq<real> {
    if s'.book.pos.side.None? || s.book.pos.side.None? then []
    else if s'.steps > s.steps then rungs + [Factor(s.book.pos.side.value, s.takeProfit)]
    else rungs
  }

  function Climb(entry: real, rungs: seq<real>): real {
    if rungs == [] then entry else Times(Climb(entry, Front(rungs)), Last(rungs))
  }

  predicate Strictly(side: Side, x: real, y: real) {
    match side case Long => x > y case Short => x < y
  }

  /** The ladder of an open position: the anchor lies between the entry and the best price seen, it is the entry times
      the product of the rungs, there are as many rungs as counted, and none exactly when the anchor is the entry. */
  ghost predicate Ladder(s: State, rungs: seq<real>) {
    var p := s.book.pos;
    if p.side.None? then p.entry.None? && s.anchor.None? && s.steps == 0 && rungs == []
    else
      && p.entry.Some? && s.anchor.Some? && Extreme(p).Some?
      && p.entry.value > 0.0 && s.anchor.value > 0.0 && Extreme(p).value > 0.0
      && Reached(p.side.value, s.anchor.value, p.entry.value)
      && Reached(p.side.value, Extreme(p).value, s.anchor.value)
      && s.anchor.value == Climb(p.entry.value, rungs)
      && s.steps == |rungs|
      && (s.steps == 0 <==> s.anchor == p.entry)
  }

  lemma ClimbGrows(entry: real, rungs: seq<real>, f: real)
    ensures Climb(entry, rungs + [f]) == Times(Climb(entry, rungs), f)
  {
    assert Front(rungs + [f]) == rungs;
  }

  lemma LevelIsRung(side: Side, base: real, pct: real)
    ensures Level(side, base, pct) == Times(base, Factor(side, pct))
  {
  }

  lemma TrackKeeps(cfg: Config, s: State, c: Candle, advanceBar: bool, rungs: seq<real>)
    requires Ladder(s, rungs) && Open(s.book.pos) && c.High() > 0.0 && c.Low() > 0.0
    ensures Ladder(Observed(cfg, s, c, advanceBar), rungs)
    ensures var t := Observed(cfg, s, c, advanceBar); var side := s.book.pos.side.value;
            && t.anchor == s.anchor && t.steps == s.steps && t.book.pos.side == s.book.pos.side
            && t.takeProfit == s.takeProfit
            && Reached(side, Extreme(t.book.pos).value, Favourable(side, c))
  {
    hide Level, Climb;
  }

  lemma JudgeKeeps(cfg: Config, t: State, c: Candle, mayRoll: bool, advanceBar: bool, rungs: seq<real>)
    requires Ladder(t, rungs) && Open(t.book.pos) && c.High() > 0.0 && c.Low() > 0.0
    requires Reached(t.book.pos.side.value, Extreme(t.book.pos).value, Favourable(t.book.pos.side.value, c))
    ensures var (t', _) := Judge(cfg, t, c, mayRoll, advanceBar);
            && Ladder(t', Rungs(t, t', rungs))
            && (t'.book.pos.side.None? || t'.book.pos.side == t.book.pos.side)
            && (t'.steps > t.steps ==> Strictly(t.book.pos.side.value, t'.anchor.value, t.anchor.value))
            && (t'.book.pos.side.Some? && t'.steps <= t.steps ==> t'.anchor == t.anchor && t'.steps == t.steps)
  {
    var side, anchor := t.book.pos.side.value, t.anchor.value;
    ClimbGrows(t.book.pos.entry.value, rungs, Factor(side, t.takeProfit));
    LevelIsRung(side, anchor, t.takeProfit);
    if t.takeProfit > 0.0 {
      LevelMoves(side, anchor, t.takeProfit);
    }
    hide Level, Climb, Times, Factor;
  }

  /** One event keeps the ladder; a roll moves the anchor strictly on, and nothing else moves it. */
  lemma StepKeeps(cfg: Config, s: State, e: Event, rungs: seq<real>)
    requires Ladder(s, rungs) && Positive(e)
    ensures var s' := Step(cfg, s, e);
            && Ladder(s', Rungs(s, s', rungs))
            && (s.book.pos.side.Some? && s'.book.pos.side.Some? ==>
                  && s'.book.pos.side == s.book.pos.side
                  && (if s'.steps > s.steps then Strictly(s.book.pos.side.value, s'.anchor.value, s.anchor.value)
                      else s'.anchor == s.anchor && s'.steps == s.steps))
  {
    hide Judge, Observed, Climb;
    match e {
      case Price(c, mayRoll, advanceBar) =>
        if Open(s.book.pos) {
          TrackKeeps(cfg, s, c, advanceBar, rungs);
          JudgeKeeps(cfg, Observed(cfg, s, c, advanceBar), c, mayRoll, advanceBar, rungs);
        }
      case EnterAt(side, price) => assert Climb(price, []) == price by { ClimbNone(price); }
      case _ =>
    }
  }

  lemma ClimbNone(entry: real)
    ensures Climb(entry, []) == entry
  {
  }

  ghost predicate IsRun(cfg: Config, states: seq<State>, events: seq<Event>) {
    && |states| == |events| + 1 && states[0] == Closed(cfg, NEW_BOOK)
    && (forall i :: 0 <= i < |events| ==> Positive(events[i]))
    && forall i :: 0 <= i < |events| ==> states[i + 1] == Step(cfg, states[i], events[i])
  }

  /** The rungs of the position open after n events. */
  function RungsOf(states: seq<State>, n: nat): seq<real>
    requires n < |states|
  {
    if n == 0 then [] else Rungs(states[n - 1], states[n], RungsOf(states, n - 1))
  }

  /** Throughout every run, whatever the language model does to the percentages: the ladder of the open position is
      intact, and the anchor moves strictly on exactly when the ladder count rises. */
  lemma {:induction false} LadderHolds(cfg: Config, states: seq<State>, events: seq<Event>, n: nat)
    requires IsRun(cfg, states, events) && n <= |events|
    ensures Ladder(states[n], RungsOf(states, n))
    ensures n < |events| && states[n].book.pos.side.Some? && states[n + 1].book.pos.side.Some? ==>
              var side := states[n].book.pos.side.value;
              && states[n + 1].book.pos.side == Some(side)
              && states[n].anchor.Some? && states[n + 1].anchor.Some?
              && (if states[n + 1].steps > states[n].steps
                  then Strictly(side, states[n + 1].anchor.value, states[n].anchor.value)
                  else states[n + 1].anchor == states[n].anchor)
    decreases n
  {
    hide Step, Climb;
    if n > 0 {
      LadderHolds(cfg, states, events, n - 1);
      StepKeeps(cfg, states[n - 1], events[n - 1], RungsOf(states, n - 1));
    }
    if n < |events| {
      StepKeeps(cfg, states[n], events[n], RungsOf(states, n));
    }
  }

  // ---------------------------------------------------------------- The decision, written out

  /** What happens to a position, given its levels: reaching the target rolls it on or closes the position; then the
      tighter of stop and trail closes it, under the name of the trail if that is at least as tight; then the holding
      limit does. `reached` and `hit` say whether the candle got as far as the target and the guard. */
  ghost predicate Judged(cfg: Config, s: State, c: Candle, mayRoll: bool, advanceBar: bool, tracked: Position,
                         target: real, reached: bool, guard: real, hit: bool, trailed: bool,
                         s': State, sig: Option<Signal>)
    requires s.book.pos.side.Some?
  {
    var long := s.book.pos.side == Some(Long);
    var closing := if long then SELL else BUY;
    var best := if (if long then c.close > target else c.close < target) then c.close else target;
    var worst := if (if long then c.close < guard else c.close > guard) then c.close else guard;
    var bars := if advanceBar then s.book.bars + 1 else s.book.bars;
    if reached && mayRoll && s.takeProfit > 0.0 then
      && sig.None? && s'.anchor == Some(target) && s'.steps == s.steps + 1 && s'.stopLoss == 0.0
      && s'.takeProfit == s.takeProfit && s'.trail == s.trail && s'.book == s.book.(pos := tracked, bars := bars)
    else if reached then sig == Some(Signal(closing, best, TakeProfit)) && Shut(cfg, s, TakeProfit, s')
    else if hit then
      var condition := if trailed then TrailingStop else StopLoss;
      sig == Some(Signal(closing, worst, condition)) && Shut(cfg, s, condition, s')
    else if advanceBar && bars >= cfg.limits.maxHoldBars then
      sig == Some(Signal(closing, c.close, Exit)) && Shut(cfg, s, Exit, s')
    else
      && sig.None? && s'.book == s.book.(pos := tracked, bars := bars)
      && s' == s.(book := s'.book, anchor := s'.anchor)
      && s'.anchor == if s.anchor.None? then s.book.pos.entry else s.anchor
  }

  ghost predicate Shut(cfg: Config, s: State, condition: Condition, s': State) {
    && s'.book.pos == FLAT && s'.book.bars == 0 && ExitCharged(cfg.limits, s.book, condition, s'.book)
    && s'.anchor.None? && s'.steps == 0
    && s'.takeProfit == cfg.risk.takeProfit && s'.stopLoss == cfg.risk.stopLoss && s'.trail == cfg.risk.trail
  }

  function NotNegative(pct: real): real { if pct < 0.0 then 0.0 else pct }

  /** The decision on a LONG, from the position, the percentages and the candle alone. */
  lemma LongDecisionExactly(cfg: Config, s: State, c: Candle, mayRoll: bool, advanceBar: bool)
    requires Open(s.book.pos) && s.book.pos.side == Some(Long)
    ensures var (s', sig) := RiskExit(cfg, s, c, mayRoll, advanceBar);
            var entry := s.book.pos.entry.value;
            var best := HighestSoFar(s.book.pos.highest, c.High());
            var armed := s.book.pos.armed || cfg.risk.trigger <= 0.0 || c.High() >= Above(entry, cfg.risk.trigger);
            var anchor := if s.anchor.Some? then s.anchor.value else entry;
            var target := if s.takeProfit > 0.0 then Above(anchor, s.takeProfit) else entry;
            var stop, trail := Below(entry, NotNegative(s.stopLoss)), Below(best, s.trail);
            var trailed := s.trail > 0.0 && armed && trail >= stop;
            var guard := if trailed then trail else stop;
            Judged(cfg, s, c, mayRoll, advanceBar, s.book.pos.(highest := Some(best), armed := armed),
                   target, c.High() >= target, guard, c.Low() <= guard, trailed, s', sig)
  {
    hide Above, Below;
  }

  /** The same for a SHORT. */
  lemma ShortDecisionExactly(cfg: Config, s: State, c: Candle, mayRoll: bool, advanceBar: bool)
    requires Open(s.book.pos) && s.book.pos.side == Some(Short)
    ensures var (s', sig) := RiskExit(cfg, s, c, mayRoll, advanceBar);
            var entry := s.book.pos.entry.value;
            var best := LowestSoFar(s.book.pos.lowest, c.Low());
            var armed := s.book.pos.armed || cfg.risk.trigger <= 0.0 || c.Low() <= Below(entry, cfg.risk.trigger);
            var anchor := if s.anchor.Some? then s.anchor.value else entry;
            var target := if s.takeProfit > 0.0 then Below(anchor, s.takeProfit) else entry;
            var stop, trail := Above(entry, NotNegative(s.stopLoss)), Above(best, s.trail);
            var trailed := s.trail > 0.0 && armed && trail <= stop;
            var guard := if trailed then trail else stop;
            Judged(cfg, s, c, mayRoll, advanceBar, s.book.pos.(lowest := Some(best), armed := armed),
                   target, c.Low() <= target, guard, c.High() >= guard, trailed, s', sig)
  {
    hide Above, Below;
  }

  // ---------------------------------------------------------------- Tags

  /** Does this candle roll the target of the open position? */
  predicate Rolls(cfg: Config, s: State, c: Candle, mayRoll: bool) {
    && Open(s.book.pos) && mayRoll && s.takeProfit > 0.0
    && var side := s.book.pos.side.value;
       var anchor := if s.anchor.Some? then s.anchor.value else s.book.pos.entry.value;
       Reached(side, Favourable(side, c), Level(side, anchor, s.takeProfit))
  }

  /** An order that closes the position is tagged as an exit exactly unless the same candle rolled the target before
      the language model asked to leave: then it is tagged HOLD, which the runner does not take for an exit. */
  lemma MistaggedExactly(cfg: Config, s: State, c: Candle, mayRoll: bool, wantsOut: bool)
    ensures var (s', order) := OnCandle(cfg, s, c, mayRoll, wantsOut);
            && (order.Some? && order.value.1.TaggedHold?
                <==> Rolls(cfg, s, c, mayRoll) && s.book.cooldown == 0 && wantsOut)
            && (order.Some? ==> s'.book.pos.side.None? && order.value.0.condition != Entry)
            && (order.Some? && order.value.1.Tagged? ==> order.value.1.condition == order.value.0.condition)
  {
    hide Level;
  }
}
