/** The four single-position strategies run by the runner: each of its guarantees holds for each of them. */
module Deployments {
  import Trading
  import opened StrategyModel
  import opened Runner
  import opened Books
  import Runs
  import CapitalGuard
  import Krobot01
  import Krobot03
  import Supertrend
  import SupertrendBands
  import opened Ledgers

  /** After n steps of a run: the store is recoverable, the next step handles a position-closed event rightly, and if
      no crash happened the orders are paired. */
  ghost predicate Dependable<S>(st: Strategy<S>, ws: seq<World<S>>, acts: seq<Action>, n: nat)
    requires n <= |acts| < |ws|
  {
    && Recoverable(st, ws[n])
    && (n < |acts| ==> CloseHandled(st, ws, acts, n))
    && (CrashFree(acts) ==> OrdersPaired(st, ws[n]))
  }

  lemma DependableRun<S(!new)>(st: Strategy<S>, inv: S -> bool, ws: seq<World<S>>, acts: seq<Action>, n: nat)
    requires |ws| == |acts| + 1 && n <= |acts| && IsRun(st, ws, acts)
    requires SinglePosition(st, inv) && GatedByCloseTime(st)
    ensures Dependable(st, ws, acts, n)
  {
    hide IsRun, SinglePosition, GatedByCloseTime, Recoverable, CloseHandled, OrdersPaired;
    CrashRecovery(st, ws, acts, n);
    if n < |acts| {
      CloseEvents(st, inv, ws, acts, n);
    }
    if CrashFree(acts) {
      OrderPairing(st, inv, ws, acts, n);
    }
  }

  lemma GuardedRun(st: Strategy<Runs.State>, r: Runs.Rules, ws: seq<World<Runs.State>>, acts: seq<Action>, n: nat)
    requires |ws| == |acts| + 1 && n <= |acts| && IsRun(st, ws, acts)
    requires Runs.Guarded(st, r) && GatedByCloseTime(st)
    ensures Dependable(st, ws, acts, n)
  {
    hide IsRun, GatedByCloseTime, Dependable, Runs.Guarded;
    Runs.GuardedIsSinglePosition(st, r);
    hide SinglePosition;
    DependableRun(st, (s: Runs.State) => Sound(r.limits, s.book), ws, acts, n);
  }

  lemma CapitalGuardDependable(cfg: CapitalGuard.Config, history: seq<Trading.Candle>, ws: seq<World<Runs.State>>,
                               acts: seq<Action>, n: nat)
    requires |ws| == |acts| + 1 && n <= |acts| && IsRun(CapitalGuard.Model(cfg, history), ws, acts)
    ensures Dependable(CapitalGuard.Model(cfg, history), ws, acts, n)
  {
    hide IsRun, GatedByCloseTime, Dependable, Runs.Guarded, CapitalGuard.Model;
    CapitalGuard.ModelIsGuarded(cfg, history);
    CapitalGuard.ModelIsGated(cfg, history);
    GuardedRun(CapitalGuard.Model(cfg, history), CapitalGuard.RulesOf(cfg), ws, acts, n);
  }

  lemma Krobot01Dependable(cfg: Krobot01.Config, history: seq<Trading.Candle>, ws: seq<World<Runs.State>>,
                           acts: seq<Action>, n: nat)
    requires |ws| == |acts| + 1 && n <= |acts| && IsRun(Krobot01.Model(cfg, history), ws, acts)
    ensures Dependable(Krobot01.Model(cfg, history), ws, acts, n)
  {
    hide IsRun, GatedByCloseTime, Dependable, Runs.Guarded, Krobot01.Model;
    Krobot01.ModelIsGuarded(cfg, history);
    Krobot01.ModelIsGated(cfg, history);
    GuardedRun(Krobot01.Model(cfg, history), Krobot01.RulesOf(cfg), ws, acts, n);
  }

  lemma Krobot03Dependable(cfg: Krobot03.Config, history: seq<Trading.Candle>, ws: seq<World<Runs.State>>,
                           acts: seq<Action>, n: nat)
    requires |ws| == |acts| + 1 && n <= |acts| && IsRun(Krobot03.Model(cfg, history), ws, acts)
    ensures Dependable(Krobot03.Model(cfg, history), ws, acts, n)
  {
    hide IsRun, GatedByCloseTime, Dependable, Runs.Guarded, Krobot03.Model;
    Krobot03.ModelIsGuarded(cfg, history);
    Krobot03.ModelIsGated(cfg, history);
    GuardedRun(Krobot03.Model(cfg, history), Krobot03.RulesOf(cfg), ws, acts, n);
  }

  lemma SupertrendDependable(q: SupertrendBands.Params, history: seq<Trading.Candle>, ws: seq<World<Supertrend.State>>,
                             acts: seq<Action>, n: nat)
    requires |ws| == |acts| + 1 && n <= |acts| && IsRun(Supertrend.Model(q, history), ws, acts)
    ensures Dependable(Supertrend.Model(q, history), ws, acts, n)
  {
    hide IsRun, GatedByCloseTime, Dependable, SinglePosition, Supertrend.Model;
    Supertrend.ModelIsSinglePosition(q, history);
    Supertrend.ModelIsGated(q, history);
    DependableRun(Supertrend.Model(q, history), (s: Supertrend.State) => Supertrend.Sound(s.pos), ws, acts, n);
  }

  // ---------------------------------------------------------------- The account

  /** After n events the account, kept order by order, has always stood at -1, 0 or +1, with entries only from flat
      and exits only to flat, and now stands where the strategy's record says. */
  ghost predicate OneUnit<S>(st: Strategy<S>, states: seq<S>, events: seq<Event>, n: nat)
    requires n <= |events| < |states|
  {
    AllOrderly(Fills(st, states, events, n)) && Balance(Fills(st, states, events, n)) == Signed(st.side(states[n]))
  }

  lemma GuardedIsOneUnit(st: Strategy<Runs.State>, r: Runs.Rules, states: seq<Runs.State>, events: seq<Event>, n: nat)
    requires |states| == |events| + 1 && n <= |events| && IsStrategyRun(st, states, events) && Runs.Guarded(st, r)
    ensures OneUnit(st, states, events, n)
  {
    hide IsStrategyRun, AllOrderly, Balance, Fills, Runs.Guarded;
    Runs.GuardedIsSinglePosition(st, r);
    hide SinglePosition;
    PositionIsOneUnit(st, (s: Runs.State) => Sound(r.limits, s.book), states, events, n);
  }

  lemma CapitalGuardIsOneUnit(cfg: CapitalGuard.Config, history: seq<Trading.Candle>, states: seq<Runs.State>,
                              events: seq<Event>, n: nat)
    requires |states| == |events| + 1 && n <= |events|
    requires IsStrategyRun(CapitalGuard.Model(cfg, history), states, events)
    ensures OneUnit(CapitalGuard.Model(cfg, history), states, events, n)
  {
    hide IsStrategyRun, OneUnit, Runs.Guarded, CapitalGuard.Model;
    CapitalGuard.ModelIsGuarded(cfg, history);
    GuardedIsOneUnit(CapitalGuard.Model(cfg, history), CapitalGuard.RulesOf(cfg), states, events, n);
  }

  lemma Krobot01IsOneUnit(cfg: Krobot01.Config, history: seq<Trading.Candle>, states: seq<Runs.State>,
                          events: seq<Event>, n: nat)
    requires |states| == |events| + 1 && n <= |events|
    requires IsStrategyRun(Krobot01.Model(cfg, history), states, events)
    ensures OneUnit(Krobot01.Model(cfg, history), states, events, n)
  {
    hide IsStrategyRun, OneUnit, Runs.Guarded, Krobot01.Model;
    Krobot01.ModelIsGuarded(cfg, history);
    GuardedIsOneUnit(Krobot01.Model(cfg, history), Krobot01.RulesOf(cfg), states, events, n);
  }

  lemma Krobot03IsOneUnit(cfg: Krobot03.Config, history: seq<Trading.Candle>, states: seq<Runs.State>,
                          events: seq<Event>, n: nat)
    requires |states| == |events| + 1 && n <= |events|
    requires IsStrategyRun(Krobot03.Model(cfg, history), states, events)
    ensures OneUnit(Krobot03.Model(cfg, history), states, events, n)
  {
    hide IsStrategyRun, OneUnit, Runs.Guarded, Krobot03.Model;
    Krobot03.ModelIsGuarded(cfg, history);
    GuardedIsOneUnit(Krobot03.Model(cfg, history), Krobot03.RulesOf(cfg), states, events, n);
  }

  lemma SupertrendIsOneUnit(q: SupertrendBands.Params, history: seq<Trading.Candle>, states: seq<Supertrend.State>,
                            events: seq<Event>, n: nat)
    requires |states| == |events| + 1 && n <= |events|
    requires IsStrategyRun(Supertrend.Model(q, history), states, events)
    ensures OneUnit(Supertrend.Model(q, history), states, events, n)
  {
    hide IsStrategyRun, AllOrderly, Balance, Fills, SinglePosition, Supertrend.Model;
    Supertrend.ModelIsSinglePosition(q, history);
    PositionIsOneUnit(Supertrend.Model(q, history), (s: Supertrend.State) => Supertrend.Sound(s.pos), states, events,
                      n);
  }
}
