/** The per-symbol record of the single-position strategies, and what every step of such a strategy must respect.
    The run theorems here are about any sequence of records whose steps respect those rules; the strategy modules
    prove that their own steps do. */
module Books {
  import opened Trading
  import opened RiskExits
  import opened StrategyModel

  datatype Limits = Limits(cooldownBars: int, slCooldownBars: int, maxStopLosses: int, slPauseBars: int,
                           maxHoldBars: int)

  datatype Book = Book(pos: Position, bars: int, cooldown: int, pause: int, streak: int, lock: Option<Side>)

  const NEW_BOOK := Book(FLAT, 0, 0, 0, 0, None)

  predicate IsFlat(b: Book) { b.pos.side.None? }

  /** Does one more stop loss on this streak start the long pause? */
  predicate PauseDue(l: Limits, streak: int) {
    l.maxStopLosses > 0 && streak + 1 >= l.maxStopLosses && l.slPauseBars > 0
  }

  /** Close the position and charge the cool-off; `exited` is the side to lock, if this strategy keeps a lock. */
  function Reset(l: Limits, b: Book, condition: Condition, exited: Option<Side>): Book {
    var shut := b.(pos := FLAT, bars := 0, lock := if exited.Some? then exited else b.lock);
    if condition != StopLoss then shut.(cooldown := l.cooldownBars, streak := 0)
    else
      var charged := shut.(cooldown := MaxInt(l.cooldownBars, l.slCooldownBars));
      if PauseDue(l, b.streak) then charged.(pause := MaxInt(b.pause, l.slPauseBars), streak := 0)
      else charged.(streak := b.streak + 1)
  }

  /** A position closed from outside: flatten, lock the side that was held, never shorten a running cooldown. */
  function CloseFromOutside(l: Limits, b: Book, keepsLock: bool): Book {
    b.(pos := FLAT, bars := 0, cooldown := MaxInt(b.cooldown, l.cooldownBars),
       lock := if keepsLock && b.pos.side.Some? then b.pos.side else b.lock)
  }

  function Release(b: Book, up: bool, down: bool): Book {
    if (b.lock == Some(Long) && down) || (b.lock == Some(Short) && up) then b.(lock := None) else b
  }

  function Enter(l: Limits, b: Book, side: Side, c: Candle): Book {
    b.(pos := Position(Some(side), Some(c.close), Some(c.High()), Some(c.Low()), false),
       bars := 0, cooldown := l.cooldownBars)
  }

  function ExitSignal(side: Side, price: real, condition: Condition): Signal {
    Signal(Opening(Opposite(side)), price, condition)
  }

  /** The shared risk section applied to a record. */
  function RiskOnBook(r: Risk, l: Limits, b: Book, c: Candle, keepsLock: bool): (Book, Option<Signal>) {
    var (p, d) := RiskStep(r, b.pos, c);
    if d.Hold? then (b.(pos := p), None)
    else
      (Reset(l, b, d.condition, if keepsLock then b.pos.side else None),
       if b.pos.side.Some? then Some(ExitSignal(b.pos.side.value, d.price, d.condition)) else None)
  }

  // ---------------------------------------------------------------- What holds after every step

  /** The invariant of a record: a side exactly when an entry price, no pause while a position is open, a stop-loss
      streak below its limit, and a holding time below its limit. */
  predicate Sound(l: Limits, b: Book) {
    && (b.pos.side.Some? <==> b.pos.entry.Some?)
    && (b.pos.side.Some? ==> b.pause == 0)
    && b.pause >= 0
    && b.streak >= 0
    && (l.maxStopLosses > 0 && l.slPauseBars > 0 ==> b.streak < l.maxStopLosses)
    && (l.maxHoldBars > 0 ==> 0 <= b.bars < l.maxHoldBars)
  }

  lemma NewBookSound(l: Limits)
    ensures Sound(l, NEW_BOOK) && IsFlat(NEW_BOOK)
  {
  }

  lemma ResetSound(l: Limits, b: Book, condition: Condition, exited: Option<Side>)
    requires Sound(l, b)
    ensures Sound(l, Reset(l, b, condition, exited)) && IsFlat(Reset(l, b, condition, exited))
  {
  }

  /** What a risk section does to a sound record: it stays sound, and a signal is raised exactly when it is shut. */
  lemma RiskOnBookFacts(r: Risk, l: Limits, b: Book, c: Candle, keepsLock: bool)
    requires Sound(l, b)
    ensures var (b', s) := RiskOnBook(r, l, b, c, keepsLock);
            && Sound(l, b')
            && (s.Some? <==> !IsFlat(b) && IsFlat(b'))
            && (s.Some? ==> s.value.condition !in {Entry, Exit} && b' == Reset(l, b, s.value.condition,
                                                                  if keepsLock then b.pos.side else None))
            && (s.Some? ==> RiskStep(r, b.pos, c).1 == Leave(s.value.condition, s.value.price)
                            && Fits(b.pos.side, s.value))
            && (s.None? ==> RiskStep(r, b.pos, c) == (b'.pos, Hold) && b' == b.(pos := b'.pos)
                            && b'.pos.side == b.pos.side)
            && (IsFlat(b) ==> b' == b)
  {
    hide Above, Below;
    if !IsFlat(b) {
      var (p, d) := RiskStep(r, b.pos, c);
      assert d.Leave? ==> d.condition in {StopLoss, TakeProfit, TrailingStop};
      ResetSound(l, b, StopLoss, if keepsLock then b.pos.side else None);
      ResetSound(l, b, TakeProfit, if keepsLock then b.pos.side else None);
      ResetSound(l, b, TrailingStop, if keepsLock then b.pos.side else None);
    }
  }

  // ---------------------------------------------------------------- One observed step

  /** What one event did: was it a fresh closed candle, with which cross flags, and what was entered or left. */
  datatype Obs = Obs(isNew: bool, up: bool, down: bool, entered: Option<Side>, left: Option<Side>, stopLoss: bool)

  /** Candles still to wait before an entry is possible. */
  function Debt(b: Book): nat { MaxInt(0, b.pause) + MaxInt(0, b.cooldown) }

  /** What a stop loss charges, given the streak it ended on. */
  function StopLossDebt(l: Limits, streak: int): nat {
    MaxInt(0, MaxInt(l.cooldownBars, l.slCooldownBars)) + (if PauseDue(l, streak) then MaxInt(0, l.slPauseBars) else 0)
  }

  ghost predicate CoolOffStep(l: Limits, b: Book, o: Obs, b': Book) {
    && (o.entered.Some? ==> o.isNew && IsFlat(b) && Debt(b) == 0)
    && (o.left.Some? && o.stopLoss ==> IsFlat(b') && Debt(b') >= StopLossDebt(l, b.streak))
    && (IsFlat(b) && o.entered.None? ==> IsFlat(b') && Debt(b') >= Debt(b) - (if o.isNew then 1 else 0))
  }

  /** The cross flag that speaks for a side. */
  function Flag(o: Obs, side: Side): bool {
    match side case Long => o.up case Short => o.down
  }

  ghost predicate LockStep(b: Book, o: Obs, b': Book) {
    && !(o.up && o.down)
    && (o.left.Some? ==> IsFlat(b') && b'.lock == o.left)
    && (o.entered.Some? ==> o.isNew && IsFlat(b) && Flag(o, o.entered.value))
    && (forall side: Side :: IsFlat(b) && b.lock == Some(side) && !(o.isNew && Flag(o, Opposite(side)))
          ==> o.entered.None? && IsFlat(b') && b'.lock == Some(side))
  }

  /** What the outside sees of a step from b to b' that raised `sig`. */
  function Seen(b: Book, b': Book, sig: Option<Signal>, isNew: bool, up: bool, down: bool): Obs {
    Obs(isNew, up, down,
        if sig.Some? && sig.value.condition == Entry then b'.pos.side else None,
        if !IsFlat(b) && IsFlat(b') then b.pos.side else None,
        sig.Some? && sig.value.condition == StopLoss)
  }

  /** The counters after an exit, exactly: a stop loss takes the longer cooldown and lengthens the streak, until the
      streak reaches its limit and turns into a pause; any other exit ends the streak. */
  ghost predicate ExitCharged(l: Limits, b: Book, condition: Condition, b': Book) {
    var longer := if l.slCooldownBars > l.cooldownBars then l.slCooldownBars else l.cooldownBars;
    if condition == StopLoss then
      && b'.cooldown == longer
      && (if l.maxStopLosses > 0 && l.slPauseBars > 0 && b.streak + 1 >= l.maxStopLosses
          then b'.streak == 0 && b'.pause == if b.pause > l.slPauseBars then b.pause else l.slPauseBars
          else b'.streak == b.streak + 1 && b'.pause == b.pause)
    else b'.cooldown == l.cooldownBars && b'.pause == b.pause && b'.streak == 0
  }

  /** The counters after a step, exactly. An entry starts the cooldown; an exit is charged as above; a close from
      outside never shortens the cooldown; nothing else touches them, except that a candle may count one of them
      down. */
  ghost predicate Charged(l: Limits, b: Book, sig: Option<Signal>, b': Book) {
    if sig.Some? && sig.value.condition == Entry then
      b'.cooldown == l.cooldownBars && b'.pause == b.pause && b'.streak == b.streak
    else if sig.Some? then ExitCharged(l, b, sig.value.condition, b')
    else
      && b'.streak == b.streak
      && (if !IsFlat(b) && IsFlat(b') then
            b'.pause == b.pause && b'.cooldown == if b.cooldown > l.cooldownBars then b.cooldown else l.cooldownBars
          else
            || (b'.pause == b.pause && b'.cooldown == b.cooldown)
            || (b'.pause == b.pause - 1 >= 0 && b'.cooldown == b.cooldown)
            || (b'.pause == b.pause && b'.cooldown == b.cooldown - 1 >= 0)
            || (IsFlat(b) && b'.pause == b.pause && b'.cooldown == l.cooldownBars > b.cooldown))
  }

  /** One rule book for a step: soundness is kept, the one possible signal fits the position and moves it, the
      counters are charged exactly, and the cool-off and lock rules hold (the latter for a strategy that keeps a
      lock). */
  ghost predicate Obeys(l: Limits, b: Book, b': Book, sig: Option<Signal>, o: Obs, keepsLock: bool) {
    && Sound(l, b')
    && (sig.Some? ==> Fits(b.pos.side, sig.value) && b'.pos.side == Moved(sig.value))
    && Charged(l, b, sig, b')
    && CoolOffStep(l, b, o, b')
    && (keepsLock ==> LockStep(b, o, b'))
  }

  lemma ResetCharges(l: Limits, b: Book, sig: Signal, exited: Option<Side>)
    requires Sound(l, b) && !IsFlat(b) && sig.condition != Entry
    ensures Charged(l, b, Some(sig), Reset(l, b, sig.condition, exited))
  {
  }

  lemma NothingCharged(l: Limits, b: Book, b': Book)
    requires b' == b.(pos := b'.pos, bars := b'.bars, lock := b'.lock) && (IsFlat(b') ==> IsFlat(b))
    ensures Charged(l, b, None, b')
  {
  }

  lemma ChargedAlike(l: Limits, a: Book, b: Book, sig: Option<Signal>, b': Book)
    requires a.pos.side == b.pos.side && a.pause == b.pause && a.cooldown == b.cooldown && a.streak == b.streak
    ensures Charged(l, a, sig, b') <==> Charged(l, b, sig, b')
  {
  }

  lemma RiskObeys(r: Risk, l: Limits, b: Book, c: Candle, keepsLock: bool, isNew: bool, up: bool, down: bool)
    requires Sound(l, b) && !(up && down)
    ensures var (b', sig) := RiskOnBook(r, l, b, c, keepsLock);
            && Obeys(l, b, b', sig, Seen(b, b', sig, isNew, up, down), keepsLock)
            && (sig.None? ==> b'.pos.side == b.pos.side)
  {
    hide RiskOnBook, RiskStep, Charged;
    RiskOnBookFacts(r, l, b, c, keepsLock);
    var (b', sig) := RiskOnBook(r, l, b, c, keepsLock);
    if sig.Some? {
      ResetCharges(l, b, sig.value, if keepsLock then b.pos.side else None);
    } else {
      NothingCharged(l, b, b');
    }
  }

  // ---------------------------------------------------------------- Runs

  ghost predicate CoolOffRun(l: Limits, books: seq<Book>, obs: seq<Obs>) {
    |books| == |obs| + 1 && forall i :: 0 <= i < |obs| ==> CoolOffStep(l, books[i], obs[i], books[i + 1])
  }

  ghost predicate LockRun(books: seq<Book>, obs: seq<Obs>) {
    |books| == |obs| + 1 && forall i :: 0 <= i < |obs| ==> LockStep(books[i], obs[i], books[i + 1])
  }

  /** Fresh closed candles among the steps lo, ..., hi - 1. */
  function FreshCount(obs: seq<Obs>, lo: nat, hi: nat): (n: nat)
    requires hi <= |obs|
  {
    if hi <= lo then 0 else FreshCount(obs, lo, hi - 1) + (if obs[hi - 1].isNew then 1 else 0)
  }

  lemma {:induction false} DebtIsWorkedOff(l: Limits, books: seq<Book>, obs: seq<Obs>, i: nat, m: nat)
    requires CoolOffRun(l, books, obs) && i < m <= |obs| && obs[i].left.Some? && obs[i].stopLoss
    ensures var due := StopLossDebt(l, books[i].streak); var waited := FreshCount(obs, i + 1, m);
            waited >= due || (IsFlat(books[m]) && Debt(books[m]) >= due - waited)
    decreases m
  {
    assert CoolOffStep(l, books[m - 1], obs[m - 1], books[m]);
    if m > i + 1 {
      DebtIsWorkedOff(l, books, obs, i, m - 1);
    }
  }

  /** Stop-loss cool-off: between a stop loss and any later entry lie at least as many fresh closed candles as the
      stop loss charged. */
  lemma CoolOff(l: Limits, books: seq<Book>, obs: seq<Obs>, i: nat, k: nat)
    requires CoolOffRun(l, books, obs) && i < k < |obs|
    requires obs[i].left.Some? && obs[i].stopLoss && obs[k].entered.Some?
    ensures FreshCount(obs, i + 1, k) >= StopLossDebt(l, books[i].streak)
  {
    DebtIsWorkedOff(l, books, obs, i, k);
    assert CoolOffStep(l, books[k], obs[k], books[k + 1]);
  }

  ghost predicate OpposingFlagSeen(obs: seq<Obs>, lo: nat, hi: nat, side: Side)
    requires hi <= |obs|
  {
    exists j :: lo <= j < hi && obs[j].isNew && Flag(obs[j], Opposite(side))
  }

  lemma {:induction false} LockIsHeld(books: seq<Book>, obs: seq<Obs>, i: nat, m: nat, side: Side)
    requires LockRun(books, obs) && i < m <= |obs| && obs[i].left == Some(side)
    ensures OpposingFlagSeen(obs, i + 1, m, side) || (IsFlat(books[m]) && books[m].lock == Some(side))
    decreases m
  {
    assert LockStep(books[m - 1], obs[m - 1], books[m]);
    if m > i + 1 {
      LockIsHeld(books, obs, i, m - 1, side);
      if OpposingFlagSeen(obs, i + 1, m - 1, side) {
        var j :| i + 1 <= j < m - 1 && obs[j].isNew && Flag(obs[j], Opposite(side));
        assert obs[j].isNew && Flag(obs[j], Opposite(side));
      }
    }
  }

  /** Same-side re-entry: after leaving a side, by its own exit or from outside, that side is entered again only
      after some closed candle strictly in between showed the opposite cross flag. */
  lemma ReentryNeedsOpposingFlag(books: seq<Book>, obs: seq<Obs>, i: nat, k: nat, side: Side)
    requires LockRun(books, obs) && i < k < |obs|
    requires obs[i].left == Some(side) && obs[k].entered == Some(side)
    ensures OpposingFlagSeen(obs, i + 1, k, side)
  {
    LockIsHeld(books, obs, i, k, side);
    assert LockStep(books[k], obs[k], books[k + 1]);
  }
}
