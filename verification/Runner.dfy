/** The strategy runner for one pair, as a state machine: candle and price messages are delivered at least once and in
    any order, a message is computed, its orders are published, the state is saved, the message is acknowledged; a
    crash can happen between any two of these, and a restart continues from the store. Computing, publishing and
    saving hold the pair's lock; the acknowledgement does not, so position-closed events, which take the same lock,
    arrive whenever it is free: between messages and between the save and the acknowledgement of one, any number of
    times, for any id. A pair can be removed between messages and added again; while it is removed, messages are
    acknowledged unseen. */
module Runner {
  import opened Trading
  import opened StrategyModel

  type Id = nat

  /** A delivery from the candle stream; the same message may be delivered again at any time. */
  datatype Message = Message(number: nat, event: Event)

  /** An order on the bus: the index-th signal of a message, with the id of the entry it opens or closes. */
  datatype Order = Order(signal: Signal, entryId: Option<Id>, source: Message, index: nat)

  /** What the store keeps for the pair. */
  datatype Stored<S> = Stored(state: S, entryId: Option<Id>)

  /** While a close is being saved, the acknowledgement of the message before it may still be owed. */
  datatype Phase =
    | Down
    | Removed
    | Idle
    | Publishing(msg: Message, signals: seq<Signal>, done: nat, entryBefore: Option<Id>)
    | Acking(msg: Message)
    | SavingClose(id: Id, owed: Option<Message>)

  /** One entry of the history of effects the store has taken. */
  datatype Effect = Applied(msg: Message) | ClosedOutside(id: Id)

  /** `strategy` and `held` are memory, lost in a crash; `store` survives; the rest is history. `dropped` are the
      messages acknowledged while the pair was removed. */
  datatype World<S> = World(
    phase: Phase, strategy: S, held: Stored<S>, store: Stored<S>,
    used: set<Id>, published: seq<Order>, acked: set<Message>, dropped: set<Message>, log: seq<Effect>)

  datatype Action =
    | Deliver(msg: Message)
    | Publish(newId: Id)
    | Save
    | SkipSave
    | Ack
    | Crash
    | Restart
    | Remove
    | DropRemoved(msg: Message)
    | DeliverClose(id: Id)
    | SaveClose

  ghost predicate Init<S>(st: Strategy<S>, w: World<S>) {
    && w.phase == Idle && w.strategy == st.init && w.held == w.store == Stored(st.init, None)
    && w.published == [] && w.acked == {} && w.dropped == {} && w.log == []
  }

  ghost predicate Can<S>(w: World<S>, a: Action) {
    match a
    case Deliver(msg) => w.phase.Idle? && !msg.event.ExternalClose?
    case Publish(id) => w.phase.Publishing? && w.phase.done < |w.phase.signals| && id !in w.used
    case Save => w.phase.Publishing? && w.phase.done == |w.phase.signals|
    case SkipSave => w.phase.Publishing? && w.phase.done == |w.phase.signals|
                     && w.strategy == w.held.state && w.held.entryId == w.phase.entryBefore
    case Ack => w.phase.Acking? || (w.phase.SavingClose? && w.phase.owed.Some?)
    case Crash => true
    case Restart => w.phase.Down? || w.phase.Removed?
    case Remove => w.phase.Idle? || w.phase.Acking?
    case DropRemoved(_) => w.phase.Removed?
    case DeliverClose(_) => w.phase.Idle? || w.phase.Acking?
    case SaveClose => w.phase.SavingClose?
  }

  /** An entry is published under a new id, which is remembered; an exit is published under the remembered id, which
      is then forgotten. */
  function PublishNext<S>(w: World<S>, id: Id): World<S>
    requires w.phase.Publishing? && w.phase.done < |w.phase.signals|
  {
    var sig := w.phase.signals[w.phase.done];
    var isEntry := sig.condition == Entry;
    var entryId := if isEntry then Some(id) else w.held.entryId;
    w.(published := w.published + [Order(sig, entryId, w.phase.msg, w.phase.done)],
       used := if isEntry then w.used + {id} else w.used,
       held := w.held.(entryId := if isEntry then entryId else None),
       phase := w.phase.(done := w.phase.done + 1))
  }

  /** The phase after the worker's acknowledgement, or before it if one is owed. */
  function Acknowledging(owed: Option<Message>): Phase {
    if owed.Some? then Acking(owed.value) else Idle
  }

  ghost function Do<S>(st: Strategy<S>, w: World<S>, a: Action): World<S>
    requires Can(w, a)
  {
    match a
    case Deliver(msg) =>
      var (s, signals) := st.step(w.strategy, msg.event);
      w.(strategy := s, phase := Publishing(msg, signals, 0, w.held.entryId))
    case Publish(id) => PublishNext(w, id)
    case Save =>
      var saved := Stored(w.strategy, w.held.entryId);
      w.(held := saved, store := saved, log := w.log + [Applied(w.phase.msg)], phase := Acking(w.phase.msg))
    case SkipSave => w.(log := w.log + [Applied(w.phase.msg)], phase := Acking(w.phase.msg))
    case Ack =>
      if w.phase.Acking? then w.(acked := w.acked + {w.phase.msg}, phase := Idle)
      else w.(acked := w.acked + {w.phase.owed.value}, phase := w.phase.(owed := None))
    case Crash => w.(phase := Down)
    case Restart => w.(strategy := w.store.state, held := w.store, phase := Idle)
    case Remove => w.(store := Stored(w.strategy, w.held.entryId), phase := Removed)
    case DropRemoved(msg) => w.(acked := w.acked + {msg}, dropped := w.dropped + {msg})
    case DeliverClose(id) =>
      if w.held.entryId != Some(id) then w
      else
        var s := st.step(w.held.state, ExternalClose).0;
        var owed := if w.phase.Acking? then Some(w.phase.msg) else None;
        w.(strategy := s, held := Stored(s, None), phase := SavingClose(id, owed))
    case SaveClose =>
      w.(store := w.held, log := w.log + [ClosedOutside(w.phase.id)], phase := Acknowledging(w.phase.owed))
  }

  ghost predicate IsRun<S>(st: Strategy<S>, ws: seq<World<S>>, acts: seq<Action>) {
    && |ws| == |acts| + 1 && Init(st, ws[0])
    && forall i :: 0 <= i < |acts| ==> Can(ws[i], acts[i]) && ws[i + 1] == Do(st, ws[i], acts[i])
  }

  // ---------------------------------------------------------------- What the store means

  function EventOf(x: Effect): Event {
    match x case Applied(msg) => msg.event case ClosedOutside(_) => ExternalClose
  }

  /** The strategy folded over a history of effects, starting from scratch. */
  function Replay<S>(st: Strategy<S>, log: seq<Effect>): S {
    if log == [] then st.init else st.step(Replay(st, log[..|log| - 1]), EventOf(log[|log| - 1])).0
  }

  lemma ReplayGrows<S>(st: Strategy<S>, log: seq<Effect>, x: Effect)
    ensures Replay(st, log + [x]) == st.step(Replay(st, log), EventOf(x)).0
  {
    assert (log + [x])[..|log|] == log;
  }

  ghost predicate IsPublished(published: seq<Order>, msg: Message, index: nat, sig: Signal) {
    exists i :: 0 <= i < |published| && published[i].source == msg && published[i].index == index
                && published[i].signal == sig
  }

  ghost predicate AllPublished(published: seq<Order>, msg: Message, signals: seq<Signal>, n: nat)
    requires n <= |signals|
  {
    forall j :: 0 <= j < n ==> IsPublished(published, msg, j, signals[j])
  }

  /** Every signal of the n-th effect of the history is on the bus. */
  ghost predicate EffectPublished<S>(st: Strategy<S>, log: seq<Effect>, published: seq<Order>, n: nat)
    requires n < |log|
  {
    log[n].Applied? ==>
      var signals := st.step(Replay(st, log[..n]), log[n].msg.event).1;
      AllPublished(published, log[n].msg, signals, |signals|)
  }

  ghost predicate IdsKept<S>(w: World<S>) {
    && (w.store.entryId.Some? ==> w.store.entryId.value in w.used && ClosedOutside(w.store.entryId.value) !in w.log)
    && (!w.phase.Down? && !w.phase.Removed? && w.held.entryId.Some? ==>
          w.held.entryId.value in w.used && ClosedOutside(w.held.entryId.value) !in w.log)
    && (forall id :: ClosedOutside(id) in w.log ==> id in w.used)
  }

  ghost predicate PhaseKept<S>(st: Strategy<S>, w: World<S>) {
    match w.phase
    case Down => true
    case Removed => true
    case Idle => w.held == w.store && w.strategy == w.store.state
    case Acking(msg) => w.held == w.store && w.strategy == w.store.state && Applied(msg) in w.log
    case Publishing(msg, signals, done, entryBefore) =>
      && w.held.state == w.store.state && entryBefore == w.store.entryId && !msg.event.ExternalClose?
      && (w.strategy, signals) == st.step(w.store.state, msg.event)
      && done <= |signals| && AllPublished(w.published, msg, signals, done)
    case SavingClose(id, owed) =>
      && w.store.entryId == Some(id) && w.strategy == w.held.state
      && (owed.Some? ==> Applied(owed.value) in w.log)
      && w.held == Stored(st.step(w.store.state, ExternalClose).0, None)
  }

  ghost predicate Inv<S>(st: Strategy<S>, w: World<S>) {
    && w.store.state == Replay(st, w.log)
    && PhaseKept(st, w)
    && IdsKept(w)
    && (forall msg :: msg in w.acked ==> Applied(msg) in w.log || msg in w.dropped)
    && (forall n :: 0 <= n < |w.log| ==> EffectPublished(st, w.log, w.published, n))
  }

  lemma PublishedGrows(published: seq<Order>, o: Order, msg: Message, signals: seq<Signal>, n: nat)
    requires n <= |signals| && AllPublished(published, msg, signals, n)
    ensures AllPublished(published + [o], msg, signals, n)
    ensures n < |signals| && o.source == msg && o.index == n && o.signal == signals[n]
            ==> AllPublished(published + [o], msg, signals, n + 1)
  {
    var p := published + [o];
    forall j | 0 <= j < n ensures IsPublished(p, msg, j, signals[j]) {
      assert IsPublished(published, msg, j, signals[j]);
      var i :| 0 <= i < |published| && published[i].source == msg && published[i].index == j
               && published[i].signal == signals[j];
      assert p[i] == published[i];
    }
    assert p[|published|] == o;
  }

  /** Appending a published message to the history keeps every earlier effect published. */
  lemma LogGrows<S>(st: Strategy<S>, log: seq<Effect>, published: seq<Order>, x: Effect)
    requires forall n :: 0 <= n < |log| ==> EffectPublished(st, log, published, n)
    requires x.Applied? ==> var signals := st.step(Replay(st, log), x.msg.event).1;
                            AllPublished(published, x.msg, signals, |signals|)
    ensures forall n :: 0 <= n < |log| + 1 ==> EffectPublished(st, log + [x], published, n)
  {
    forall n | 0 <= n < |log| + 1 ensures EffectPublished(st, log + [x], published, n) {
      if n < |log| {
        assert EffectPublished(st, log, published, n);
        assert (log + [x])[..n] == log[..n];
      } else {
        assert (log + [x])[..n] == log;
      }
    }
  }

  lemma PublishKeeps<S>(st: Strategy<S>, w: World<S>, id: Id)
    requires Inv(st, w) && Can(w, Publish(id))
    ensures Inv(st, Do(st, w, Publish(id)))
  {
    var w' := Do(st, w, Publish(id));
    var o := w'.published[|w.published|];
    PublishedGrows(w.published, o, w.phase.msg, w.phase.signals, w.phase.done);
    forall n | 0 <= n < |w'.log| ensures EffectPublished(st, w'.log, w'.published, n) {
      assert EffectPublished(st, w.log, w.published, n);
      if w.log[n].Applied? {
        var signals := st.step(Replay(st, w.log[..n]), w.log[n].msg.event).1;
        PublishedGrows(w.published, o, w.log[n].msg, signals, |signals|);
      }
    }
  }

  lemma MemberOfGrown(log: seq<Effect>, x: Effect)
    ensures forall y :: y in log + [x] <==> y in log || y == x
  {
  }

  lemma SaveKeeps<S>(st: Strategy<S>, w: World<S>, a: Action)
    requires Inv(st, w) && Can(w, a) && (a.Save? || a.SkipSave?)
    ensures Inv(st, Do(st, w, a))
  {
    hide EffectPublished, AllPublished, Replay;
    var x := Applied(w.phase.msg);
    ReplayGrows(st, w.log, x);
    LogGrows(st, w.log, w.published, x);
    MemberOfGrown(w.log, x);
  }

  lemma SaveCloseKeeps<S>(st: Strategy<S>, w: World<S>)
    requires Inv(st, w) && Can(w, SaveClose)
    ensures Inv(st, Do(st, w, SaveClose))
  {
    hide EffectPublished, AllPublished, Replay;
    var x := ClosedOutside(w.phase.id);
    ReplayGrows(st, w.log, x);
    LogGrows(st, w.log, w.published, x);
    MemberOfGrown(w.log, x);
  }

  lemma StepKeeps<S>(st: Strategy<S>, w: World<S>, a: Action)
    requires Inv(st, w) && Can(w, a)
    ensures Inv(st, Do(st, w, a))
  {
    if a.Publish? {
      PublishKeeps(st, w, a.newId);
    } else if a.Save? || a.SkipSave? {
      SaveKeeps(st, w, a);
    } else if a.SaveClose? {
      SaveCloseKeeps(st, w);
    } else {
      hide EffectPublished, Replay;
    }
  }

  lemma {:induction false} RunKeeps<S>(st: Strategy<S>, ws: seq<World<S>>, acts: seq<Action>, n: nat)
    requires IsRun(st, ws, acts) && n <= |acts|
    ensures Inv(st, ws[n])
    decreases n
  {
    if n > 0 {
      hide Inv, Do;
      RunKeeps(st, ws, acts, n - 1);
      StepKeeps(st, ws[n - 1], acts[n - 1]);
    } else {
      hide Do;
    }
  }

  // ---------------------------------------------------------------- Crash recovery

  /** Did the n-th effect of the history let a newer closed candle in? */
  ghost predicate TookEffect<S>(st: Strategy<S>, log: seq<Effect>, n: nat)
    requires n < |log|
  {
    EventOf(log[n]).ClosedCandle? && EventOf(log[n]).candle.closeTime > st.lastClose(Replay(st, log[..n]))
  }

  lemma {:induction false} LastCloseGrows<S(!new)>(st: Strategy<S>, log: seq<Effect>, n: nat)
    requires GatedByCloseTime(st) && n <= |log|
    ensures st.lastClose(Replay(st, log[..n])) <= st.lastClose(Replay(st, log))
    decreases |log|
  {
    if n == |log| {
      assert log[..n] == log;
    } else {
      var front, x := log[..|log| - 1], log[|log| - 1];
      LastCloseGrows(st, front, n);
      assert front[..n] == log[..n];
      assert log == front + [x];
      ReplayGrows(st, front, x);
      var s := Replay(st, front);
      assert st.lastClose(s) <= st.lastClose(st.step(s, EventOf(x)).0);
    }
  }

  lemma EffectsIncrease<S(!new)>(st: Strategy<S>, log: seq<Effect>, n: nat, m: nat)
    requires GatedByCloseTime(st) && n < m < |log| && TookEffect(st, log, n) && TookEffect(st, log, m)
    ensures EventOf(log[n]).candle.closeTime < EventOf(log[m]).candle.closeTime
  {
    var upTo := log[..m];
    assert upTo[..n] == log[..n] && upTo[..n + 1] == log[..n] + [log[n]];
    ReplayGrows(st, log[..n], log[n]);
    LastCloseGrows(st, upTo, n + 1);
    var s := Replay(st, log[..n]);
    assert st.lastClose(st.step(s, EventOf(log[n])).0) == EventOf(log[n]).candle.closeTime;
  }

  /** The stored state is the strategy folded over a history of effects; in that history each closed candle took
      effect at most once, at strictly increasing close times; every acknowledged message is in the history or came
      while the pair was removed; and every signal of every effect in the history was published. */
  ghost predicate Recoverable<S>(st: Strategy<S>, w: World<S>) {
    && w.store.state == Replay(st, w.log)
    && (forall n, m :: 0 <= n < m < |w.log| && TookEffect(st, w.log, n) && TookEffect(st, w.log, m)
          ==> EventOf(w.log[n]).candle.closeTime < EventOf(w.log[m]).candle.closeTime)
    && (forall msg :: msg in w.acked ==> Applied(msg) in w.log || msg in w.dropped)
    && (forall n :: 0 <= n < |w.log| ==> EffectPublished(st, w.log, w.published, n))
  }

  /** Crash recovery: the store is recoverable after any run of deliveries, redeliveries, crashes, restarts, removals
      and position-closed events. */
  lemma CrashRecovery<S(!new)>(st: Strategy<S>, ws: seq<World<S>>, acts: seq<Action>, k: nat)
    requires IsRun(st, ws, acts) && k <= |acts| && GatedByCloseTime(st)
    ensures Recoverable(st, ws[k])
  {
    RunKeeps(st, ws, acts, k);
    var log := ws[k].log;
    hide TookEffect, EffectPublished, GatedByCloseTime, Replay;
    forall n, m | 0 <= n < m < |log| && TookEffect(st, log, n) && TookEffect(st, log, m)
      ensures EventOf(log[n]).ClosedCandle? && EventOf(log[m]).ClosedCandle?
      ensures EventOf(log[n]).candle.closeTime < EventOf(log[m]).candle.closeTime
    {
      TookEffectIsCandle(st, log, n);
      TookEffectIsCandle(st, log, m);
      EffectsIncrease(st, log, n, m);
    }
  }

  /** A message is dropped only by arriving while the pair is removed. */
  lemma {:induction false} DroppedOnlyWhileRemoved<S>(st: Strategy<S>, ws: seq<World<S>>, acts: seq<Action>, k: nat,
                                                      msg: Message)
    requires IsRun(st, ws, acts) && k <= |acts|
    ensures msg in ws[k].dropped <==> exists i :: 0 <= i < k && ws[i].phase.Removed? && acts[i] == DropRemoved(msg)
    decreases k
  {
    if k > 0 {
      DroppedOnlyWhileRemoved(st, ws, acts, k - 1, msg);
      assert Can(ws[k - 1], acts[k - 1]) && ws[k] == Do(st, ws[k - 1], acts[k - 1]);
      if acts[k - 1] == DropRemoved(msg) {
        assert ws[k - 1].phase.Removed?;
      }
    }
  }

  /** The drop loses candles: for every strategy and message there is a run that acknowledges the message and in which
      it never takes effect, although the pair is back. */
  lemma RemovalLosesMessage<S>(st: Strategy<S>, msg: Message) returns (ws: seq<World<S>>, acts: seq<Action>)
    ensures IsRun(st, ws, acts) && |acts| == 3
    ensures msg in ws[3].acked && ws[3].log == [] && ws[3].phase.Idle?
  {
    var stored := Stored(st.init, None);
    var w := World(Idle, st.init, stored, stored, {}, [], {}, {}, []);
    var w1 := Do(st, w, Remove);
    var w2 := Do(st, w1, DropRemoved(msg));
    var w3 := Do(st, w2, Restart);
    ws, acts := [w, w1, w2, w3], [Remove, DropRemoved(msg), Restart];
  }

  lemma TookEffectIsCandle<S>(st: Strategy<S>, log: seq<Effect>, n: nat)
    requires n < |log| && TookEffect(st, log, n)
    ensures EventOf(log[n]).ClosedCandle?
  {
  }

  // ---------------------------------------------------------------- Position-closed events

  lemma {:induction false} ReplayKeeps<S(!new)>(st: Strategy<S>, inv: S -> bool, log: seq<Effect>)
    requires SinglePosition(st, inv)
    ensures inv(Replay(st, log))
  {
    if log != [] {
      ReplayKeeps(st, inv, log[..|log| - 1]);
    }
  }

  lemma {:induction false} LogOnlyGrows<S>(st: Strategy<S>, ws: seq<World<S>>, acts: seq<Action>, n: nat, m: nat)
    requires IsRun(st, ws, acts) && n <= m <= |acts|
    ensures |ws[n].log| <= |ws[m].log| && ws[m].log[..|ws[n].log|] == ws[n].log
    decreases m - n
  {
    if n < m {
      LogOnlyGrows(st, ws, acts, n, m - 1);
      var x, y, z := ws[n].log, ws[m - 1].log, ws[m].log;
      assert |y| <= |z| && z[..|y|] == y;
      assert z[..|x|] == y[..|x|];
    }
  }

  /** Does the n-th step start the closing of `id` from outside? */
  ghost predicate StartsClose<S>(st: Strategy<S>, ws: seq<World<S>>, n: nat, id: Id)
    requires n + 1 < |ws|
  {
    && ws[n + 1].phase.SavingClose? && ws[n + 1].phase.id == id
    && ws[n + 1].held.entryId.None? && st.side(ws[n + 1].strategy).None? && ws[n + 1].held.state == ws[n + 1].strategy
  }

  /** What the n-th step of a run does if it is about a position-closed event. The event starts a closing if and only
      if its id is the stored open entry, and otherwise changes nothing at all. Saving it stores the flat state
      without an id and enters it into the history, where no id ever comes twice. */
  ghost predicate CloseHandled<S>(st: Strategy<S>, ws: seq<World<S>>, acts: seq<Action>, n: nat)
    requires n < |acts| < |ws|
  {
    && (acts[n].DeliverClose? ==>
          if ws[n].store.entryId == Some(acts[n].id) then StartsClose(st, ws, n, acts[n].id) else ws[n + 1] == ws[n])
    && (acts[n].SaveClose? ==>
          && ws[n].phase.SavingClose? && ws[n].store.entryId == Some(ws[n].phase.id)
          && ws[n + 1].store == ws[n].held && ws[n + 1].store.entryId.None? && st.side(ws[n + 1].store.state).None?
          && ws[n + 1].log == ws[n].log + [ClosedOutside(ws[n].phase.id)]
          && ClosedOutside(ws[n].phase.id) !in ws[n].log)
  }

  /** However often and whenever position-closed events are delivered, crashes and owed acknowledgements included,
      each is handled rightly. */
  lemma CloseEvents<S(!new)>(st: Strategy<S>, inv: S -> bool, ws: seq<World<S>>, acts: seq<Action>, n: nat)
    requires IsRun(st, ws, acts) && n < |acts| && SinglePosition(st, inv)
    ensures CloseHandled(st, ws, acts, n)
  {
    RunKeeps(st, ws, acts, n);
    ReplayKeeps(st, inv, ws[n].log);
    assert Can(ws[n], acts[n]) && ws[n + 1] == Do(st, ws[n], acts[n]);
    var s := ws[n].store.state;
    assert Accounts(ExternalClose, st.side(s), st.step(s, ExternalClose).1, st.side(st.step(s, ExternalClose).0));
  }

  ghost predicate AtMostOnce(log: seq<Effect>) {
    forall i, j :: 0 <= i < j < |log| && log[i].ClosedOutside? ==> log[i] != log[j]
  }

  /** In the history of every run no id is closed from outside twice. */
  lemma {:induction false} ClosedOnce<S>(st: Strategy<S>, ws: seq<World<S>>, acts: seq<Action>, k: nat)
    requires IsRun(st, ws, acts) && k <= |acts|
    ensures AtMostOnce(ws[k].log)
    decreases k
  {
    if k > 0 {
      hide Inv, Do, Can;
      ClosedOnce(st, ws, acts, k - 1);
      RunKeeps(st, ws, acts, k - 1);
      LogStep(st, ws[k - 1], acts[k - 1]);
    }
  }

  lemma LogStep<S>(st: Strategy<S>, w: World<S>, a: Action)
    requires Inv(st, w) && Can(w, a)
    ensures AtMostOnce(w.log) ==> AtMostOnce(Do(st, w, a).log)
  {
    hide EffectPublished, Replay;
    assert a.SaveClose? ==> ClosedOutside(w.phase.id) !in w.log;
  }

  // ---------------------------------------------------------------- A message gets through

  /** Steps from any world, not only from the start. */
  ghost predicate IsPath<S>(st: Strategy<S>, ws: seq<World<S>>, acts: seq<Action>) {
    && |ws| == |acts| + 1
    && forall i :: 0 <= i < |acts| ==> Can(ws[i], acts[i]) && ws[i + 1] == Do(st, ws[i], acts[i])
  }

  lemma PathGrows<S>(st: Strategy<S>, ws: seq<World<S>>, acts: seq<Action>, a: Action)
    requires IsPath(st, ws, acts) && Can(ws[|acts|], a)
    ensures IsPath(st, ws + [Do(st, ws[|acts|], a)], acts + [a])
  {
    hide Do, Can;
  }

  function Signals(orders: seq<Order>): seq<Signal> {
    seq(|orders|, i requires 0 <= i < |orders| => orders[i].signal)
  }

  lemma {:induction false} PublishAll<S>(st: Strategy<S>, w: World<S>) returns (ws: seq<World<S>>, acts: seq<Action>)
    requires w.phase.Publishing? && w.phase.done <= |w.phase.signals|
    ensures IsPath(st, ws, acts) && ws[0] == w && (forall i :: 0 <= i < |acts| ==> acts[i].Publish?)
    ensures var w' := ws[|acts|];
            && w'.phase == w.phase.(done := |w.phase.signals|)
            && w'.strategy == w.strategy && w'.store == w.store && w'.log == w.log && w'.acked == w.acked
            && Signals(w'.published) == Signals(w.published) + w.phase.signals[w.phase.done..]
            && w'.held.state == w.held.state
    decreases |w.phase.signals| - w.phase.done
  {
    if w.phase.done == |w.phase.signals| {
      ws, acts := [w], [];
      assert w.phase.signals[w.phase.done..] == [];
    } else {
      var id := Unused(w.used);
      var next := Do(st, w, Publish(id));
      var ws', acts' := PublishAll(st, next);
      ws, acts := [w] + ws', [Publish(id)] + acts';
      var w' := ws[|acts|];
      assert w' == ws'[|acts'|];
      var rest := w.phase.signals[w.phase.done..];
      assert rest == [rest[0]] + next.phase.signals[next.phase.done..];
      assert Signals(next.published) == Signals(w.published) + [rest[0]];
      forall i | 0 <= i < |acts|
        ensures Can(ws[i], acts[i]) && ws[i + 1] == Do(st, ws[i], acts[i]) && acts[i].Publish?
      {
        if i > 0 {
          assert ws[i] == ws'[i - 1] && acts[i] == acts'[i - 1] && ws[i + 1] == ws'[i];
        }
      }
    }
  }

  /** There is always another id. */
  lemma {:induction false} Unused(used: set<Id>) returns (id: Id)
    ensures id !in used
  {
    id := Above(used);
  }

  lemma {:induction false} Above(used: set<Id>) returns (bound: Id)
    ensures forall x :: x in used ==> x < bound
  {
    if used == {} {
      bound := 0;
    } else {
      var x :| x in used;
      var rest := Above(used - {x});
      bound := if x < rest then rest else x + 1;
      forall y | y in used ensures y < bound {
        if y != x {
          assert y in used - {x};
        }
      }
    }
  }

  /** Whenever the pair is idle, a delivered message can be carried through: it is computed on the stored state,
      exactly its signals are published, in order, the new state is stored, and the message is in the history and
      acknowledged. */
  lemma MessageGetsThrough<S>(st: Strategy<S>, w: World<S>, msg: Message) returns (ws: seq<World<S>>, acts: seq<Action>)
    requires Inv(st, w) && w.phase.Idle? && !msg.event.ExternalClose?
    ensures IsPath(st, ws, acts) && ws[0] == w && acts != [] && acts[0] == Deliver(msg) && CrashFree(acts)
    ensures var w' := ws[|acts|]; var (s, signals) := st.step(w.store.state, msg.event);
            && w'.phase.Idle? && w'.store.state == s && w'.log == w.log + [Applied(msg)] && msg in w'.acked
            && Signals(w'.published) == Signals(w.published) + signals
  {
    var start := Do(st, w, Deliver(msg));
    var ws', acts' := PublishAll(st, start);
    assert start.phase.signals[0..] == start.phase.signals;
    ws, acts := [w] + ws', [Deliver(msg)] + acts';
    assert IsPath(st, ws, acts) by {
      forall i | 0 <= i < |acts| ensures Can(ws[i], acts[i]) && ws[i + 1] == Do(st, ws[i], acts[i]) {
        if i > 0 {
          assert ws[i] == ws'[i - 1] && acts[i] == acts'[i - 1] && ws[i + 1] == ws'[i];
        }
      }
    }
    assert forall i :: 0 <= i < |acts| ==> !acts[i].Crash?;
    PathGrows(st, ws, acts, Save);
    ws, acts := ws + [Do(st, ws[|acts|], Save)], acts + [Save];
    PathGrows(st, ws, acts, Ack);
    ws, acts := ws + [Do(st, ws[|acts|], Ack)], acts + [Ack];
  }

  // ---------------------------------------------------------------- Order pairing

  predicate IsEntry(o: Order) { o.signal.condition == Entry }

  predicate Ended(log: seq<Effect>, id: Option<Id>) { id.Some? && ClosedOutside(id.value) in log }

  /** Is the second order the exit of the first: under its id, and the opposite of it? */
  predicate Closes(entry: Order, exit: Order) {
    IsEntry(entry) && exit.entryId == entry.entryId && exit.signal.action != entry.signal.action
  }

  /** Every order carries an id and every entry one of its own; every exit follows its entry at once, under the same
      id, which was never closed from outside; and where an entry follows an entry, the first was closed from outside.
      */
  ghost predicate Paired(p: seq<Order>, log: seq<Effect>) {
    && (forall i :: 0 <= i < |p| ==> p[i].entryId.Some?)
    && (forall i, j :: 0 <= i < j < |p| && IsEntry(p[i]) && IsEntry(p[j]) ==> p[i].entryId != p[j].entryId)
    && (forall i :: 0 <= i < |p| && !IsEntry(p[i]) ==> i > 0 && Closes(p[i - 1], p[i]) && !Ended(log, p[i].entryId))
    && (forall i :: 0 < i < |p| && IsEntry(p[i]) && IsEntry(p[i - 1]) ==> Ended(log, p[i - 1].entryId))
  }

  /** The id of the entry that neither an exit nor an outside close has ended. */
  function OpenId(p: seq<Order>, log: seq<Effect>): Option<Id> {
    if p != [] && IsEntry(p[|p| - 1]) && !Ended(log, p[|p| - 1].entryId) then p[|p| - 1].entryId else None
  }

  /** The side of the entry that is still open. */
  function OpenSide(p: seq<Order>, log: seq<Effect>): Option<Side> {
    if OpenId(p, log).Some? then Some(SideOf(p[|p| - 1].signal.action)) else None
  }

  ghost predicate NoOutsideClose(log: seq<Effect>) {
    forall i :: 0 <= i < |log| ==> log[i].Applied?
  }

  /** Without outside closes the orders strictly alternate: entry, exit, entry, ... */
  lemma {:induction false} PairedAlternates(p: seq<Order>, log: seq<Effect>, i: nat)
    requires Paired(p, log) && NoOutsideClose(log) && i < |p|
    ensures IsEntry(p[i]) <==> i % 2 == 0
    ensures i % 2 == 1 ==> Closes(p[i - 1], p[i])
    decreases i
  {
    if i > 0 {
      PairedAlternates(p, log, i - 1);
    }
  }

  ghost predicate CrashFree(acts: seq<Action>) {
    forall i :: 0 <= i < |acts| ==> !acts[i].Crash?
  }

  ghost predicate PhasePaired<S>(st: Strategy<S>, inv: S -> bool, w: World<S>) {
    var open, side := OpenId(w.published, w.log), OpenSide(w.published, w.log);
    match w.phase
    case Down => false
    case Publishing(_, signals, done, _) =>
      && done <= |signals| && inv(w.strategy) && open == w.held.entryId
      && Alternates(side, signals[done..])
      && st.side(w.strategy) == SideAfter(side, signals[done..])
    case SavingClose(id, _) => open == Some(id) && inv(w.held.state) && st.side(w.held.state).None?
    case _ => open == w.store.entryId && st.side(w.store.state) == side
  }

  ghost predicate PairInv<S>(st: Strategy<S>, inv: S -> bool, w: World<S>) {
    && inv(w.store.state)
    && Paired(w.published, w.log)
    && (forall i :: 0 <= i < |w.published| ==> w.published[i].entryId.Some? && w.published[i].entryId.value in w.used)
    && PhasePaired(st, inv, w)
  }

  lemma DeliverPairs<S(!new)>(st: Strategy<S>, inv: S -> bool, w: World<S>, msg: Message)
    requires SinglePosition(st, inv) && PhaseKept(st, w) && PairInv(st, inv, w) && Can(w, Deliver(msg))
    ensures PairInv(st, inv, Do(st, w, Deliver(msg)))
  {
    hide Paired, OpenId, OpenSide;
    var (s, signals) := st.step(w.strategy, msg.event);
    assert inv(s) && Accounts(msg.event, st.side(w.strategy), signals, st.side(s));
    assert signals[0..] == signals;
  }

  /** An entry with a new id may be added when nothing is open, an exit when its entry is. */
  lemma PairedGrows(p: seq<Order>, o: Order, used: set<Id>, log: seq<Effect>)
    requires Paired(p, log) && o.entryId.Some?
    requires forall i :: 0 <= i < |p| ==> p[i].entryId.Some? && p[i].entryId.value in used
    requires if IsEntry(o) then OpenId(p, log).None? && o.entryId.value !in used
             else OpenId(p, log).Some? && o.entryId == OpenId(p, log)
                  && o.signal.action == Opening(Opposite(OpenSide(p, log).value))
    ensures Paired(p + [o], log)
  {
  }

  lemma PublishPairs<S(!new)>(st: Strategy<S>, inv: S -> bool, w: World<S>, id: Id)
    requires PairInv(st, inv, w) && IdsKept(w) && Can(w, Publish(id))
    ensures PairInv(st, inv, Do(st, w, Publish(id)))
  {
    var rest := w.phase.signals[w.phase.done..];
    var w' := Do(st, w, Publish(id));
    var o := w'.published[|w.published|];
    assert rest[1..] == w'.phase.signals[w'.phase.done..];
    assert rest[0] == w.phase.signals[w.phase.done];
    assert OpenId(w'.published, w'.log) == w'.held.entryId && OpenSide(w'.published, w'.log) == Moved(o.signal);
    assert OpenSide(w.published, w.log).Some? <==> OpenId(w.published, w.log).Some?;
    hide Paired, OpenId, OpenSide;
    PairedGrows(w.published, o, w.used, w.log);
  }

  /** Closing the open entry from outside, or applying a message, keeps the orders paired. */
  lemma LogKeepsPairs(p: seq<Order>, log: seq<Effect>, x: Effect)
    requires Paired(p, log) && (x.ClosedOutside? ==> OpenId(p, log) == Some(x.id))
    ensures Paired(p, log + [x])
    ensures OpenId(p, log + [x]) == if x.ClosedOutside? then None else OpenId(p, log)
    ensures OpenSide(p, log + [x]) == if x.ClosedOutside? then None else OpenSide(p, log)
  {
    MemberOfGrown(log, x);
    forall i | 0 <= i < |p| && !IsEntry(p[i])
      ensures i > 0 && Closes(p[i - 1], p[i]) && !Ended(log + [x], p[i].entryId)
    {
      assert i > 0 && Closes(p[i - 1], p[i]) && !Ended(log, p[i].entryId);
    }
  }

  lemma SavePairs<S(!new)>(st: Strategy<S>, inv: S -> bool, w: World<S>, a: Action)
    requires PhaseKept(st, w) && PairInv(st, inv, w) && Can(w, a) && (a.Save? || a.SkipSave? || a.SaveClose?)
    ensures PairInv(st, inv, Do(st, w, a))
  {
    hide Paired, AllPublished, OpenId, OpenSide;
    LogKeepsPairs(w.published, w.log, if a.SaveClose? then ClosedOutside(w.phase.id) else Applied(w.phase.msg));
  }

  lemma OtherPairs<S(!new)>(st: Strategy<S>, inv: S -> bool, w: World<S>, a: Action)
    requires SinglePosition(st, inv) && PhaseKept(st, w) && PairInv(st, inv, w) && Can(w, a)
    requires a.Ack? || a.Restart? || a.Remove? || a.DropRemoved? || a.DeliverClose?
    ensures PairInv(st, inv, Do(st, w, a))
  {
    hide Paired, AllPublished, OpenId, OpenSide;
    assert Accounts(ExternalClose, st.side(w.held.state), st.step(w.held.state, ExternalClose).1,
                    st.side(st.step(w.held.state, ExternalClose).0)) || !inv(w.held.state);
  }

  lemma {:induction false} RunPairs<S(!new)>(st: Strategy<S>, inv: S -> bool, ws: seq<World<S>>, acts: seq<Action>,
                                             n: nat)
    requires SinglePosition(st, inv) && IsRun(st, ws, acts) && n <= |acts| && CrashFree(acts)
    ensures PairInv(st, inv, ws[n])
    decreases n
  {
    if n > 0 {
      var w, a := ws[n - 1], acts[n - 1];
      assert Can(w, a) && ws[n] == Do(st, w, a);
      RunPairs(st, inv, ws, acts, n - 1);
      RunKeeps(st, ws, acts, n - 1);
      hide PairInv, Do, SinglePosition, IsRun;
      match a {
        case Deliver(msg) => DeliverPairs(st, inv, w, msg);
        case Publish(id) => PublishPairs(st, inv, w, id);
        case Save => SavePairs(st, inv, w, a);
        case SkipSave => SavePairs(st, inv, w, a);
        case SaveClose => SavePairs(st, inv, w, a);
        case _ => OtherPairs(st, inv, w, a);
      }
    }
  }

  /** The orders are paired, and whenever no message is in progress the position is open exactly when an entry id is
      stored, which is then that of the entry still open, on the side that entry opened. */
  ghost predicate OrdersPaired<S>(st: Strategy<S>, w: World<S>) {
    && Paired(w.published, w.log)
    && (w.phase.Idle? || w.phase.Acking? || w.phase.Removed? ==>
          && st.side(w.store.state).Some? == w.store.entryId.Some?
          && w.store.entryId == OpenId(w.published, w.log)
          && st.side(w.store.state) == OpenSide(w.published, w.log))
    && (NoOutsideClose(w.log) ==> forall i :: 0 <= i < |w.published| ==> (IsEntry(w.published[i]) <==> i % 2 == 0))
  }

  /** Order pairing. In every crash-free run, with pairs removed and added again and positions closed from outside:
      each exit carries the id of the entry just before it, and after each completed message the position is open
      exactly when an entry id is stored. Without outside closes entries and exits alternate. */
  lemma OrderPairing<S(!new)>(st: Strategy<S>, inv: S -> bool, ws: seq<World<S>>, acts: seq<Action>, n: nat)
    requires SinglePosition(st, inv) && IsRun(st, ws, acts) && n <= |acts| && CrashFree(acts)
    ensures OrdersPaired(st, ws[n])
  {
    RunPairs(st, inv, ws, acts, n);
    var p, log := ws[n].published, ws[n].log;
    hide SinglePosition, IsRun;
    if NoOutsideClose(log) {
      forall i | 0 <= i < |p| ensures IsEntry(p[i]) <==> i % 2 == 0 {
        PairedAlternates(p, log, i);
      }
    }
  }
}
