/** Vocabulary shared by the strategies, the runner and the order engine. */
module Trading {

  datatype Option<+T> = None | Some(value: T)

  datatype Side = Long | Short

  datatype Action = BUY | SELL

  /** The trade condition an order carries; every one except Entry closes a position. */
  datatype Condition = Entry | Exit | TakeProfit | StopLoss | TrailingStop

  datatype Signal = Signal(action: Action, price: real, condition: Condition)

  datatype Candle = Candle(closeTime: int, close: real, volume: real, high: Option<real>, low: Option<real>) {
    function High(): real {
      if high.Some? then high.value else close
    }

    function Low(): real {
      if low.Some? then low.value else close
    }
  }

  function Opposite(side: Side): Side {
    match side case Long => Short case Short => Long
  }

  /** The order that opens a position on the given side. */
  function Opening(side: Side): Action {
    match side case Long => BUY case Short => SELL
  }

  function Max(a: real, b: real): real {
    if a >= b then a else b
  }

  function Min(a: real, b: real): real {
    if a <= b then a else b
  }

  function MaxInt(a: int, b: int): int {
    if a >= b then a else b
  }

  function Fraction(pct: real): real {
    pct / 100.0
  }

  /** Python's `x or d`: a missing value and zero both fall back to `d`. */
  function OrElse(x: Option<real>, d: real): real {
    if x.None? || x.value == 0.0 then d else x.value
  }
}
