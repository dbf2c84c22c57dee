/** The gate every closed candle passes before a strategy sees it: per symbol, close times must strictly increase. */
module CandleGate {
  import opened Indicators

  /** A symbol is trimmed and in upper case; a candle without one is gated by a slot of its own. */
  datatype Arrival = Arrival(symbol: string, closeTime: int)

  datatype Gate = Gate(last: int, bySymbol: map<string, int>) {
    function Newest(symbol: string): int {
      if symbol == "" then last else if symbol in bySymbol then bySymbol[symbol] else 0
    }
  }

  const OPEN := Gate(0, map[])

  function Pass(g: Gate, a: Arrival): (Gate, bool) {
    if a.closeTime <= g.Newest(a.symbol) then (g, false)
    else if a.symbol == "" then (g.(last := a.closeTime), true)
    else (g.(bySymbol := g.bySymbol[a.symbol := a.closeTime]), true)
  }

  class StrategyBase {
    var lastCloseTimeMs: int
    var lastCloseTimeMsBySymbol: map<string, int>

    function Value(): Gate
      reads this
    {
      Gate(lastCloseTimeMs, lastCloseTimeMsBySymbol)
    }

    constructor ()
      ensures Value() == OPEN
    {
      lastCloseTimeMs, lastCloseTimeMsBySymbol := 0, map[];
    }

    method AllowNewCandle(a: Arrival) returns (ok: bool)
      modifies this
      ensures (Value(), ok) == Pass(old(Value()), a)
    {
      if a.symbol != "" {
        var prev := if a.symbol in lastCloseTimeMsBySymbol then lastCloseTimeMsBySymbol[a.symbol] else 0;
        if a.closeTime <= prev {
          return false;
        }
        lastCloseTimeMsBySymbol := lastCloseTimeMsBySymbol[a.symbol := a.closeTime];
        return true;
      }
      if a.closeTime <= lastCloseTimeMs {
        return false;
      }
      lastCloseTimeMs := a.closeTime;
      return true;
    }
  }

  function After(arrivals: seq<Arrival>): Gate {
    if arrivals == [] then OPEN else Pass(After(Front(arrivals)), Last(arrivals)).0
  }

  predicate Admitted(arrivals: seq<Arrival>, n: nat)
    requires n < |arrivals|
  {
    Pass(After(arrivals[..n]), arrivals[n]).1
  }

  /** The gate remembers, per symbol, the newest close time that has arrived at all. */
  lemma {:induction false} RemembersNewest(arrivals: seq<Arrival>, symbol: string)
    ensures var newest := After(arrivals).Newest(symbol);
            && newest >= 0
            && (forall i :: 0 <= i < |arrivals| && arrivals[i].symbol == symbol ==> arrivals[i].closeTime <= newest)
            && (newest == 0 || exists i :: 0 <= i < |arrivals| && arrivals[i].symbol == symbol
                                           && arrivals[i].closeTime == newest)
  {
    if arrivals != [] {
      var front := Front(arrivals);
      RemembersNewest(front, symbol);
      assert forall i :: 0 <= i < |front| ==> front[i] == arrivals[i];
      var newest, was := After(arrivals).Newest(symbol), After(front).Newest(symbol);
      if newest == was && was != 0 {
        var i :| 0 <= i < |front| && front[i].symbol == symbol && front[i].closeTime == was;
        assert arrivals[i].symbol == symbol && arrivals[i].closeTime == was;
      } else if newest != was {
        assert arrivals[|arrivals| - 1].symbol == symbol && arrivals[|arrivals| - 1].closeTime == newest;
      }
    }
  }

  /** A candle is admitted exactly if its close time is positive and newer than every earlier arrival of its symbol,
      admitted or not. */
  lemma AdmittedExactly(arrivals: seq<Arrival>, n: nat)
    requires n < |arrivals|
    ensures Admitted(arrivals, n) <==>
              && arrivals[n].closeTime > 0
              && (forall i :: 0 <= i < n && arrivals[i].symbol == arrivals[n].symbol
                    ==> arrivals[i].closeTime < arrivals[n].closeTime)
  {
    var before := arrivals[..n];
    RemembersNewest(before, arrivals[n].symbol);
    hide After;
    assert forall i :: 0 <= i < n ==> before[i] == arrivals[i];
    var newest := After(before).Newest(arrivals[n].symbol);
    if newest != 0 {
      var i :| 0 <= i < |before| && before[i].symbol == arrivals[n].symbol && before[i].closeTime == newest;
      assert arrivals[i].closeTime == newest;
    }
  }
}
