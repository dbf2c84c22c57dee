/** The mutable per-symbol record the strategies update in place. */
module SymbolStates {
  import opened Trading
  import opened RiskExits
  import opened Books

  class SymbolState {
    var positionSide: Option<Side>
    var entryPrice: Option<real>
    var highestSinceEntry: Option<real>
    var lowestSinceEntry: Option<real>
    var trailArmed: bool
    var barsInPos: int
    var cooldown: int
    var pauseBars: int
    var stopLossStreak: int
    var reentryLockSide: Option<Side>

    function Record(): Book
      reads this
    {
      Book(Position(positionSide, entryPrice, highestSinceEntry, lowestSinceEntry, trailArmed),
           barsInPos, cooldown, pauseBars, stopLossStreak, reentryLockSide)
    }

    constructor ()
      ensures Record() == NEW_BOOK
    {
      positionSide, entryPrice, highestSinceEntry, lowestSinceEntry, trailArmed := None, None, None, None, false;
      barsInPos, cooldown, pauseBars, stopLossStreak, reentryLockSide := 0, 0, 0, 0, None;
    }

    /** Strategies without a re-entry lock pass no exited side. */
    method ResetPosition(l: Limits, condition: Condition, exitedSide: Option<Side>)
      modifies this
      ensures Record() == Reset(l, old(Record()), condition, exitedSide)
    {
      positionSide := None;
      entryPrice := None;
      highestSinceEntry := None;
      lowestSinceEntry := None;
      trailArmed := false;
      barsInPos := 0;
      if exitedSide.Some? {
        reentryLockSide := exitedSide;
      }
      if condition == StopLoss {
        stopLossStreak := stopLossStreak + 1;
        cooldown := MaxInt(l.cooldownBars, l.slCooldownBars);
        if l.maxStopLosses > 0 && stopLossStreak >= l.maxStopLosses && l.slPauseBars > 0 {
          pauseBars := MaxInt(pauseBars, l.slPauseBars);
          stopLossStreak := 0;
        }
        return;
      }
      cooldown := l.cooldownBars;
      stopLossStreak := 0;
    }

    method UpdateReentryLock(crossedUp: bool, crossedDown: bool)
      modifies this
      ensures Record() == Release(old(Record()), crossedUp, crossedDown)
    {
      if reentryLockSide == Some(Long) && crossedDown {
        reentryLockSide := None;
      } else if reentryLockSide == Some(Short) && crossedUp {
        reentryLockSide := None;
      }
    }

    method OpenPosition(l: Limits, side: Side, c: Candle)
      modifies this
      ensures Record() == Enter(l, old(Record()), side, c)
    {
      positionSide := Some(side);
      entryPrice := Some(c.close);
      highestSinceEntry := Some(c.High());
      lowestSinceEntry := Some(c.Low());
      trailArmed := false;
      barsInPos := 0;
      cooldown := l.cooldownBars;
    }

    method OnExternalClose(l: Limits, keepsLock: bool)
      modifies this
      ensures Record() == CloseFromOutside(l, old(Record()), keepsLock)
    {
      var exited := positionSide;
      positionSide := None;
      entryPrice := None;
      highestSinceEntry := None;
      lowestSinceEntry := None;
      trailArmed := false;
      barsInPos := 0;
      cooldown := MaxInt(cooldown, l.cooldownBars);
      if keepsLock && exited.Some? {
        reentryLockSide := exited;
      }
    }
  }
}
