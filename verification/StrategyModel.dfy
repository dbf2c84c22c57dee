/** What the runner knows about a strategy: a state, a step for each kind of event, and two observations. */
module StrategyModel {
  import opened Trading

  datatype Event = ClosedCandle(candle: Candle) | PriceUpdate(candle: Candle) | ExternalClose

  datatype Strategy<!S> = Strategy(init: S, step: (S, Event) -> (S, seq<Signal>), side: S -> Option<Side>,
                                   lastClose: S -> int)

  function ToSeq(s: Option<Signal>): seq<Signal> {
    if s.Some? then [s.value] else []
  }

  /** The side a position is on after an order has opened it. */
  function SideOf(action: Action): Side {
    match action case BUY => Long case SELL => Short
  }

  /** From flat only an entry makes sense; from a position only an exit, by the opposite order. */
  predicate Fits(side: Option<Side>, sig: Signal) {
    if side.None? then sig.condition == Entry
    else sig.condition != Entry && sig.action == Opening(Opposite(side.value))
  }

  function Moved(sig: Signal): Option<Side> {
    if sig.condition == Entry then Some(SideOf(sig.action)) else None
  }

  /** Entries and exits alternate from the given position on, each exit by the order opposite to its entry. */
  predicate Alternates(side: Option<Side>, signals: seq<Signal>)
    decreases |signals|
  {
    signals == [] || (Fits(side, signals[0]) && Alternates(Moved(signals[0]), signals[1..]))
  }

  function SideAfter(side: Option<Side>, signals: seq<Signal>): Option<Side>
    decreases |signals|
  {
    if signals == [] then side else SideAfter(Moved(signals[0]), signals[1..])
  }

  /** The signals of a step alternate and account exactly for the change of position; an outside close raises
      nothing and leaves no position. */
  predicate Accounts(e: Event, side: Option<Side>, signals: seq<Signal>, side': Option<Side>) {
    if e.ExternalClose? then signals == [] && side'.None?
    else Alternates(side, signals) && side' == SideAfter(side, signals)
  }

  lemma OneSignalAccounts(e: Event, side: Option<Side>, sig: Option<Signal>, side': Option<Side>)
    requires !e.ExternalClose?
    requires sig.Some? ==> Fits(side, sig.value) && side' == Moved(sig.value)
    requires sig.None? ==> side' == side
    ensures Accounts(e, side, ToSeq(sig), side')
  {
    if sig.Some? {
      assert ToSeq(sig)[1..] == [];
    }
  }

  /** A strategy that holds at most one position, under an invariant of its state. */
  ghost predicate SinglePosition<S(!new)>(st: Strategy<S>, inv: S -> bool) {
    && inv(st.init) && st.side(st.init).None?
    && (forall s: S, e: Event {:trigger st.step(s, e)} :: inv(s) ==>
          && inv(st.step(s, e).0)
          && Accounts(e, st.side(s), st.step(s, e).1, st.side(st.step(s, e).0)))
  }

  /** Closed candles are gated by close time: a stale one changes nothing, a newer one is remembered. */
  ghost predicate GatedByCloseTime<S(!new)>(st: Strategy<S>) {
    forall s: S, e: Event {:trigger st.step(s, e)} ::
      if e.ClosedCandle? && e.candle.closeTime <= st.lastClose(s) then st.step(s, e) == (s, [])
      else if e.ClosedCandle? then st.lastClose(st.step(s, e).0) == e.candle.closeTime
      else st.lastClose(st.step(s, e).0) == st.lastClose(s)
  }

  /** A run: any events from the initial state. */
  ghost predicate IsStrategyRun<S>(st: Strategy<S>, states: seq<S>, events: seq<Event>) {
    && |states| == |events| + 1 && states[0] == st.init
    && forall i :: 0 <= i < |events| ==> states[i + 1] == st.step(states[i], events[i]).0
  }
}
