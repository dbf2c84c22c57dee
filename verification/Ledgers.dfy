/** The account behind a single-position strategy, kept from its orders alone: every BUY adds one unit, every SELL
    takes one, and a close from outside leaves none. */
module Ledgers {
  import opened Trading
  import opened Indicators
  import opened StrategyModel

  /** What happens to the account: an order fills, or the exchange closes the position from outside. */
  datatype Fill = Filled(signal: Signal) | ClosedOutside

  function FillsOf(e: Event, signals: seq<Signal>): seq<Fill> {
    if e.ExternalClose? then [ClosedOutside] else seq(|signals|, i requires 0 <= i < |signals| => Filled(signals[i]))
  }

  function Fills<S>(st: Strategy<S>, states: seq<S>, events: seq<Event>, n: nat): seq<Fill>
    requires n <= |events| && n <= |states|
  {
    if n == 0 then []
    else Fills(st, states, events, n - 1) + FillsOf(events[n - 1], st.step(states[n - 1], events[n - 1]).1)
  }

  /** The signed position after the fills. */
  function Balance(fills: seq<Fill>): int {
    if fills == [] then 0
    else match Last(fills)
      case ClosedOutside => 0
      case Filled(sig) => Balance(Front(fills)) + (if sig.action == BUY then 1 else -1)
  }

  function Signed(side: Option<Side>): int {
    if side.None? then 0 else if side.value == Long then 1 else -1
  }

  /** A BUY or SELL of one unit, an entry only from flat and an exit only to flat. */
  predicate Orderly(before: int, f: Fill, after: int) {
    && -1 <= after <= 1
    && (f.Filled? ==> if f.signal.condition == Entry then before == 0 && after != 0 else before != 0 && after == 0)
  }

  ghost predicate AllOrderly(fills: seq<Fill>) {
    forall k :: 0 <= k < |fills| ==> Orderly(Balance(fills[..k]), fills[k], Balance(fills[..k + 1]))
  }

  lemma OrderlyGrows(fills: seq<Fill>, f: Fill)
    requires AllOrderly(fills) && Orderly(Balance(fills), f, Balance(fills + [f]))
    ensures AllOrderly(fills + [f])
  {
    var g := fills + [f];
    forall k | 0 <= k < |g| ensures Orderly(Balance(g[..k]), g[k], Balance(g[..k + 1])) {
      if k < |fills| {
        assert g[..k] == fills[..k] && g[..k + 1] == fills[..k + 1];
      } else {
        assert g[..k] == fills && g[..k + 1] == g;
      }
    }
  }

  lemma BalanceGrows(fills: seq<Fill>, f: Fill)
    ensures Balance(fills + [f])
            == match f case ClosedOutside => 0 case Filled(sig) => Balance(fills) + if sig.action == BUY then 1 else -1
  {
    assert Front(fills + [f]) == fills;
  }

  /** The account is in order and stands where the strategy thinks it does. */
  ghost predicate Agrees(fills: seq<Fill>, side: Option<Side>) {
    Balance(fills) == Signed(side) && AllOrderly(fills)
  }

  lemma FillAgrees(fills: seq<Fill>, side: Option<Side>, sig: Signal)
    requires Agrees(fills, side) && Fits(side, sig)
    ensures Agrees(fills + [Filled(sig)], Moved(sig))
  {
    hide AllOrderly, Balance;
    BalanceGrows(fills, Filled(sig));
    OrderlyGrows(fills, Filled(sig));
  }

  lemma {:induction false} SignalsAgree(fills: seq<Fill>, side: Option<Side>, signals: seq<Signal>, e: Event)
    requires Agrees(fills, side) && Alternates(side, signals) && !e.ExternalClose?
    ensures Agrees(fills + FillsOf(e, signals), SideAfter(side, signals))
    decreases |signals|
  {
    hide Agrees;
    if signals == [] {
      assert fills + FillsOf(e, signals) == fills;
    } else {
      FillAgrees(fills, side, signals[0]);
      SignalsAgree(fills + [Filled(signals[0])], Moved(signals[0]), signals[1..], e);
      assert fills + FillsOf(e, signals) == fills + [Filled(signals[0])] + FillsOf(e, signals[1..]);
    }
  }

  lemma StepAgrees(fills: seq<Fill>, e: Event, side: Option<Side>, signals: seq<Signal>, side': Option<Side>)
    requires Agrees(fills, side) && Accounts(e, side, signals, side')
    ensures Agrees(fills + FillsOf(e, signals), side')
  {
    if e.ExternalClose? {
      hide AllOrderly, Balance;
      BalanceGrows(fills, ClosedOutside);
      OrderlyGrows(fills, ClosedOutside);
    } else {
      hide Agrees;
      SignalsAgree(fills, side, signals, e);
    }
  }

  lemma {:induction false} RunStays<S(!new)>(st: Strategy<S>, inv: S -> bool, states: seq<S>, events: seq<Event>,
                                             n: nat)
    requires SinglePosition(st, inv) && IsStrategyRun(st, states, events) && n <= |events|
    ensures inv(states[n])
    ensures n < |events| ==>
              Accounts(events[n], st.side(states[n]), st.step(states[n], events[n]).1, st.side(states[n + 1]))
    decreases n
  {
    hide Accounts;
    if n > 0 {
      RunStays(st, inv, states, events, n - 1);
    }
    assert n < |events| ==> states[n + 1] == st.step(states[n], events[n]).0;
  }

  lemma StartAgrees<S(!new)>(st: Strategy<S>, inv: S -> bool, states: seq<S>, events: seq<Event>)
    requires SinglePosition(st, inv) && IsStrategyRun(st, states, events)
    ensures Agrees(Fills(st, states, events, 0), st.side(states[0]))
  {
    hide Accounts;
    assert AllOrderly([]);
  }

  lemma {:induction false} RunAgrees<S(!new)>(st: Strategy<S>, inv: S -> bool, states: seq<S>, events: seq<Event>,
                                              n: nat)
    requires |states| == |events| + 1 && n <= |events| && SinglePosition(st, inv) && IsStrategyRun(st, states, events)
    ensures Agrees(Fills(st, states, events, n), st.side(states[n]))
    decreases n
  {
    hide SinglePosition, IsStrategyRun, Agrees, Accounts, FillsOf;
    if n == 0 {
      StartAgrees(st, inv, states, events);
    } else {
      RunStays(st, inv, states, events, n - 1);
      RunAgrees(st, inv, states, events, n - 1);
      StepAgrees(Fills(st, states, events, n - 1), events[n - 1], st.side(states[n - 1]),
                 st.step(states[n - 1], events[n - 1]).1, st.side(states[n]));
    }
  }

  /** The signed position of a whole run, counted from its orders one at a time: it is always -1, 0 or +1, an entry is
      only ever sent from flat and an exit only ever closes, and the count agrees with the strategy's own record. */
  lemma PositionIsOneUnit<S(!new)>(st: Strategy<S>, inv: S -> bool, states: seq<S>, events: seq<Event>, n: nat)
    requires |states| == |events| + 1 && n <= |events| && SinglePosition(st, inv) && IsStrategyRun(st, states, events)
    ensures AllOrderly(Fills(st, states, events, n))
    ensures Balance(Fills(st, states, events, n)) == Signed(st.side(states[n]))
  {
    RunAgrees(st, inv, states, events, n);
    hide SinglePosition, IsStrategyRun, Fills;
  }
}
