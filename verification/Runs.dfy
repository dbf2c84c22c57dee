/** Whole runs of a guarded single-position strategy: any strategy each of whose steps obeys the rules of Books. */
module Runs {
  import opened Trading
  import opened Indicators
  import opened Oscillators
  import opened Feeds
  import opened RiskExits
  import opened Books
  import opened StrategyModel

  /** Close time of the newest candle, the candles the indicators were fed, and the record. */
  datatype State = State(last: int, fed: seq<Candle>, book: Book)

  /** A fresh candle is fed to the indicators and its flags are the MACD's; nothing else feeds them. */
  ghost predicate FedBy(m: MacdParams, s: State, o: Obs, s': State) {
    if o.isNew then
      && |s'.fed| == |s.fed| + 1 && s'.fed[..|s.fed|] == s.fed
      && o.up == CrossedUp(m, Closes(s'.fed)) && o.down == CrossedDown(m, Closes(s'.fed))
    else s'.fed == s.fed && !o.up && !o.down
  }

  /** The limits a strategy is configured with, and the MACD that its re-entry lock watches, if it keeps one. */
  datatype Rules = Rules(limits: Limits, watched: Option<MacdParams>)

  function FirstOf(signals: seq<Signal>): Option<Signal> {
    if signals == [] then None else Some(signals[0])
  }

  /** What the outside sees of one event. */
  function Observe(st: Strategy<State>, r: Rules, s: State, e: Event): Obs {
    var (s', signals) := st.step(s, e);
    var isNew := e.ClosedCandle? && e.candle.closeTime > s.last;
    Seen(s.book, s'.book, FirstOf(signals), isNew,
         r.watched.Some? && isNew && CrossedUp(r.watched.value, Closes(s'.fed)),
         r.watched.Some? && isNew && CrossedDown(r.watched.value, Closes(s'.fed)))
  }

  /** Entries and the strategy's own exits happen on closed candles, at the close; a new position remembers the candle
      it was entered on. */
  ghost predicate Priced(e: Event, sig: Signal, b': Book) {
    && (sig.condition == Entry || sig.condition == Exit ==> e.ClosedCandle? && sig.price == e.candle.close)
    && (sig.condition == Entry && e.ClosedCandle? ==>
          && b'.pos.entry == Some(e.candle.close) && b'.pos.highest == Some(e.candle.High())
          && b'.pos.lowest == Some(e.candle.Low()) && !b'.pos.armed && b'.bars == 0)
  }

  ghost predicate GuardedStep(st: Strategy<State>, r: Rules, s: State, e: Event) {
    var (s', signals) := st.step(s, e);
    var o := Observe(st, r, s, e);
    && |signals| <= 1
    && Obeys(r.limits, s.book, s'.book, FirstOf(signals), o, r.watched.Some?)
    && (signals == [] && !e.ExternalClose? ==> s.book.pos.side == s'.book.pos.side)
    && (e.ExternalClose? ==> signals == [] && IsFlat(s'.book))
    && (signals == [] && !e.ExternalClose? ==> s'.book.cooldown <= s.book.cooldown)
    && (signals != [] ==> Priced(e, signals[0], s'.book))
    && (r.watched.Some? ==> FedBy(r.watched.value, s, o, s'))
  }

  /** A guarded strategy starts flat and sound, and every step from a sound record obeys the rules. */
  ghost predicate Guarded(st: Strategy<State>, r: Rules) {
    && Sound(r.limits, st.init.book) && IsFlat(st.init.book)
    && (forall s: State :: st.side(s) == s.book.pos.side)
    && (forall s: State, e: Event {:trigger st.step(s, e)} :: Sound(r.limits, s.book) ==> GuardedStep(st, r, s, e))
  }

  lemma GuardedIsSinglePosition(st: Strategy<State>, r: Rules)
    requires Guarded(st, r)
    ensures SinglePosition(st, (s: State) => Sound(r.limits, s.book))
  {
    hide Sound, CoolOffStep, LockStep, FedBy;
    forall s: State, e: Event | Sound(r.limits, s.book)
      ensures Sound(r.limits, st.step(s, e).0.book)
      ensures Accounts(e, st.side(s), st.step(s, e).1, st.side(st.step(s, e).0))
    {
      assert GuardedStep(st, r, s, e);
      var (s', signals) := st.step(s, e);
      if !e.ExternalClose? {
        assert ToSeq(FirstOf(signals)) == signals;
        OneSignalAccounts(e, st.side(s), FirstOf(signals), st.side(s'));
      }
    }
  }

  // ---------------------------------------------------------------- Runs

  function Observations(st: Strategy<State>, r: Rules, states: seq<State>, events: seq<Event>): seq<Obs>
    requires |states| == |events| + 1
  {
    seq(|events|, i requires 0 <= i < |events| => Observe(st, r, states[i], events[i]))
  }

  function Records(states: seq<State>): seq<Book> {
    seq(|states|, i requires 0 <= i < |states| => states[i].book)
  }

  /** Every state of a run is sound: no pause while a position is open, the stop-loss streak below its limit and the
      holding time below its limit. */
  lemma {:induction false} RunIsSound(st: Strategy<State>, r: Rules, states: seq<State>, events: seq<Event>, n: nat)
    requires Guarded(st, r) && IsStrategyRun(st, states, events) && n <= |events|
    ensures Sound(r.limits, states[n].book)
    ensures n < |events| ==> GuardedStep(st, r, states[n], events[n])
    decreases n
  {
    hide Sound, CoolOffStep, LockStep, FedBy;
    if n > 0 {
      RunIsSound(st, r, states, events, n - 1);
    }
  }

  /** Stop-loss cool-off: between a stop loss and any later entry of a run lie at least as many fresh closed candles
      as the stop loss charged. */
  lemma StopLossCoolOff(st: Strategy<State>, r: Rules, states: seq<State>, events: seq<Event>, i: nat, k: nat)
    requires Guarded(st, r) && IsStrategyRun(st, states, events) && i < k < |events|
    requires var sig := FirstOf(st.step(states[i], events[i]).1); sig.Some? && sig.value.condition == StopLoss
    requires var sig := FirstOf(st.step(states[k], events[k]).1); sig.Some? && sig.value.condition == Entry
    ensures FreshCount(Observations(st, r, states, events), i + 1, k) >= StopLossDebt(r.limits, states[i].book.streak)
  {
    hide Sound, LockStep, FedBy, StopLossDebt, FreshCount, CoolOffStep;
    var obs := Observations(st, r, states, events);
    forall j | 0 <= j < |events|
      ensures CoolOffStep(r.limits, Records(states)[j], obs[j], Records(states)[j + 1])
    {
      RunIsSound(st, r, states, events, j);
    }
    RunIsSound(st, r, states, events, i);
    RunIsSound(st, r, states, events, k);
    CoolOff(r.limits, Records(states), obs, i, k);
  }

  ghost predicate WatchedRun(m: MacdParams, states: seq<State>, obs: seq<Obs>) {
    && |states| == |obs| + 1
    && LockRun(Records(states), obs)
    && forall i :: 0 <= i < |obs| ==> FedBy(m, states[i], obs[i], states[i + 1])
  }

  lemma {:induction false} FedGrows(m: MacdParams, states: seq<State>, obs: seq<Obs>, a: nat, b: nat)
    requires WatchedRun(m, states, obs) && a <= b <= |obs|
    ensures |states[a].fed| <= |states[b].fed| && states[b].fed[..|states[a].fed|] == states[a].fed
    decreases b - a
  {
    hide CoolOffStep, LockStep;
    if a < b {
      FedGrows(m, states, obs, a, b - 1);
      var x, y, z := states[a].fed, states[b - 1].fed, states[b].fed;
      assert FedBy(m, states[b - 1], obs[b - 1], states[b]);
      assert z[..|y|] == y;
      assert z[..|x|] == y[..|x|];
    }
  }

  predicate StoodAgainst(m: MacdParams, closes: seq<real>, side: Side) {
    match side case Long => CrossedDown(m, closes) case Short => CrossedUp(m, closes)
  }

  predicate TurnedTowards(m: MacdParams, closes: seq<real>, side: Side) {
    match side case Long => MacdDiff(m, closes) > 0.0 case Short => MacdDiff(m, closes) < 0.0
  }

  /** Later than the first `from` prices the flag stood against `side`, and later still the difference turned its
      way. */
  ghost predicate CrossedAfresh(m: MacdParams, closes: seq<real>, from: nat, side: Side) {
    exists n, k :: from < n < k <= |closes| && StoodAgainst(m, closes[..n], side) && TurnedTowards(m, closes[..k], side)
  }

  lemma FlagIsMacds(m: MacdParams, states: seq<State>, obs: seq<Obs>, j: nat, side: Side)
    requires WatchedRun(m, states, obs) && j < |obs| && obs[j].isNew && Flag(obs[j], side)
    ensures |states[j + 1].fed| == |states[j].fed| + 1 && StoodAgainst(m, Closes(states[j + 1].fed), Opposite(side))
  {
    hide CoolOffStep, LockStep, Trend;
    assert FedBy(m, states[j], obs[j], states[j + 1]);
  }

  lemma EntryFollowsFlag(m: MacdParams, states: seq<State>, obs: seq<Obs>, k: nat)
    requires WatchedRun(m, states, obs) && k < |obs| && obs[k].entered.Some?
    ensures obs[k].isNew && Flag(obs[k], obs[k].entered.value)
  {
    hide CoolOffStep, FedBy;
    assert LockStep(Records(states)[k], obs[k], Records(states)[k + 1]);
  }

  lemma WatchedReentry(m: MacdParams, states: seq<State>, obs: seq<Obs>, i: nat, k: nat, side: Side)
    requires WatchedRun(m, states, obs) && i < k < |obs|
    requires obs[i].left == Some(side) && obs[k].entered == Some(side)
    ensures CrossedAfresh(m, Closes(states[k + 1].fed), |states[i + 1].fed|, side)
  {
    hide CoolOffStep, LockStep, FedBy, MacdDiff, Trend, StoodAgainst, CrossedAfresh;
    ReentryNeedsOpposingFlag(Records(states), obs, i, k, side);
    var j :| i + 1 <= j < k && obs[j].isNew && Flag(obs[j], Opposite(side));
    FlagIsMacds(m, states, obs, j, Opposite(side));
    EntryFollowsFlag(m, states, obs, k);
    FlagIsMacds(m, states, obs, k, side);
    FedGrows(m, states, obs, i + 1, j);
    FedGrows(m, states, obs, j + 1, k + 1);
    assert Closes(states[k + 1].fed)[..|states[j + 1].fed|] == Closes(states[j + 1].fed);
    ThenCrossed(m, Closes(states[k + 1].fed), Closes(states[j + 1].fed), |states[i + 1].fed|, side);
  }

  lemma ThenCrossed(m: MacdParams, closes: seq<real>, earlier: seq<real>, from: nat, side: Side)
    requires from < |earlier| <= |closes| && closes[..|earlier|] == earlier
    requires StoodAgainst(m, earlier, side) && StoodAgainst(m, closes, Opposite(side))
    ensures CrossedAfresh(m, closes, from, side)
  {
    hide MacdDiff, Trend;
    FlagFlipNeedsCross(m, closes, |earlier|, side == Long);
    var k :| |earlier| < k <= |closes|
             && if side == Long then MacdDiff(m, closes[..k]) > 0.0 else MacdDiff(m, closes[..k]) < 0.0;
    assert StoodAgainst(m, closes[..|earlier|], side) && TurnedTowards(m, closes[..k], side);
  }

  /** Same-side re-entry, down to the MACD itself: after leaving a side, by an exit of its own or from outside, a
      lock-keeping strategy enters that side again only after the flag stood against it on a later candle and the
      line then crossed the signal afresh. */
  lemma ReentryNeedsFreshCross(st: Strategy<State>, r: Rules, states: seq<State>, events: seq<Event>, i: nat, k: nat,
                               side: Side)
    requires Guarded(st, r) && r.watched.Some? && IsStrategyRun(st, states, events) && i < k < |events|
    requires states[i].book.pos.side == Some(side) && IsFlat(states[i + 1].book)
    requires IsFlat(states[k].book) && states[k + 1].book.pos.side == Some(side)
    ensures CrossedAfresh(r.watched.value, Closes(states[k + 1].fed), |states[i + 1].fed|, side)
  {
    hide Sound, LockStep, FedBy, CoolOffStep, CrossedAfresh;
    var obs := Observations(st, r, states, events);
    forall j | 0 <= j < |events|
      ensures LockStep(Records(states)[j], obs[j], Records(states)[j + 1])
      ensures FedBy(r.watched.value, states[j], obs[j], states[j + 1])
    {
      RunIsSound(st, r, states, events, j);
    }
    RunIsSound(st, r, states, events, i);
    RunIsSound(st, r, states, events, k);
    WatchedReentry(r.watched.value, states, obs, i, k, side);
  }
}
