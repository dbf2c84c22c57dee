/** The order engine: place-order messages delivered at least once, made idempotent by request id. The exchange, the
    database and the bus are oracles that may fail on every call; handlings of messages do not overlap. */
module OrderEngine {
  import opened Trading

  type Id = nat

  /** A place-order request after its text fields have been normalised; `entryId` is missing when it is blank both in
      the request and in its internal payload. */
  datatype Request = Request(requestId: Id, entryId: Option<Id>, sideValid: bool, exchangeKnown: bool, paper: bool,
                             manualClose: bool)

  /** A message on the queue; no request when its payload does not decode. */
  datatype Message = Message(number: nat, request: Option<Request>)

  /** A row of the order history. */
  datatype Row = Row(requestId: Id, entryId: Id, filled: bool, manualClose: bool)

  datatype Insert = Inserted | NotInserted | InsertedButReportedFailed

  /** What the outside world answers during one handling. */
  datatype Answers = Answers(cancelled: bool, expired: bool, lookupOk: bool, accepted: bool, filled: bool,
                             insert: Insert, closePublished: bool, notified: bool, timedOut: bool)

  datatype Error =
    | NoError | Undecodable | OrderExpired | ContextCancelled | InvalidSide | InvalidEntryOrderId | ExchangeNotFound
    | LookupFailed | DuplicateOrder | PlaceOrderFailed | CreateOrderHistoryFailed | ClosePublishFailed
    | NotificationFailed

  /** The database table, and the history of accepted submissions and of published close events: each such event names
      the entry of the row it was published for. */
  datatype Engine = Engine(rows: seq<Row>, submissions: seq<Message>, closes: seq<Row>)

  const EMPTY := Engine([], [], [])

  // ---------------------------------------------------------------- Specification of one handling

  ghost predicate HasRow(rows: seq<Row>, id: Id) {
    exists i :: 0 <= i < |rows| && rows[i].requestId == id
  }

  /** The first row with the request id. */
  function Find(rows: seq<Row>, id: Id): (r: Option<Row>)
    ensures r.Some? <==> HasRow(rows, id)
    ensures r.Some? ==> r.value.requestId == id && r.value in rows
  {
    if rows == [] then None
    else if rows[0].requestId == id then
      assert HasRow(rows, id);
      Some(rows[0])
    else
      var r := Find(rows[1..], id);
      assert HasRow(rows[1..], id) <==> HasRow(rows, id) by { TailHasRow(rows, id); }
      r
  }

  lemma TailHasRow(rows: seq<Row>, id: Id)
    requires rows != [] && rows[0].requestId != id
    ensures HasRow(rows[1..], id) <==> HasRow(rows, id)
  {
    if HasRow(rows, id) {
      var i :| 0 <= i < |rows| && rows[i].requestId == id;
      assert rows[1..][i - 1].requestId == id;
    }
    if HasRow(rows[1..], id) {
      var i :| 0 <= i < |rows[1..]| && rows[1..][i].requestId == id;
      assert rows[i + 1].requestId == id;
    }
  }

  /** Only a filled manual close announces that the position is closed. */
  function PublishClose(e: Engine, r: Row, ok: bool): (Engine, Error) {
    if !r.filled || !r.manualClose then (e, NoError)
    else if ok then (e.(closes := e.closes + [r]), NoError)
    else (e, ClosePublishFailed)
  }

  /** Insert the row, announce a close, notify. */
  function Record(e: Engine, r: Row, a: Answers): (Engine, Error) {
    match a.insert
    case NotInserted => (e, CreateOrderHistoryFailed)
    case InsertedButReportedFailed => (e.(rows := e.rows + [r]), CreateOrderHistoryFailed)
    case Inserted =>
      var (e', err) := PublishClose(e.(rows := e.rows + [r]), r, a.closePublished);
      if err != NoError then (e', err) else (e', if a.notified then NoError else NotificationFailed)
  }

  /** A paper order counts as filled without the exchange. */
  function PlaceOrder(e: Engine, m: Message, q: Request, a: Answers): (Engine, Error) {
    if a.cancelled then (e, ContextCancelled)
    else if !q.sideValid then (e, InvalidSide)
    else if q.entryId.None? then (e, InvalidEntryOrderId)
    else if !q.exchangeKnown then (e, ExchangeNotFound)
    else if !a.lookupOk then (e, LookupFailed)
    else if Find(e.rows, q.requestId).Some? then
      var (e', err) := PublishClose(e, Find(e.rows, q.requestId).value, a.closePublished);
      (e', if err != NoError then err else DuplicateOrder)
    else if q.paper then Record(e, Row(q.requestId, q.entryId.value, true, q.manualClose), a)
    else if !a.accepted then (e, PlaceOrderFailed)
    else
      Record(e.(submissions := e.submissions + [m]),
             Row(q.requestId, q.entryId.value, a.filled, q.manualClose), a)
  }

  predicate Dropped(err: Error) {
    err.ExchangeNotFound? || err.CreateOrderHistoryFailed? || err.DuplicateOrder?
  }

  function HandleEvent(e: Engine, m: Message, a: Answers): (Engine, Error) {
    if m.request.None? then (e, Undecodable)
    else if a.expired then (e, OrderExpired)
    else
      var (e', err) := PlaceOrder(e, m, m.request.value, a);
      (e', if Dropped(err) then NoError else err)
  }

  // ---------------------------------------------------------------- The mutable service

  class OrderEngineService {
    var rows: seq<Row>
    var submissions: seq<Message>
    var closes: seq<Row>

    function Value(): Engine
      reads this
    {
      Engine(rows, submissions, closes)
    }

    constructor ()
      ensures Value() == EMPTY
    {
      rows, submissions, closes := [], [], [];
    }

    /** The lookup by request id, as the scan over the table that the database does. */
    method GetByRequestId(id: Id) returns (r: Option<Row>)
      ensures r == Find(rows, id)
    {
      var i := 0;
      while i < |rows| && rows[i].requestId != id
        invariant 0 <= i <= |rows|
        invariant Find(rows, id) == Find(rows[i..], id)
      {
        assert rows[i..][1..] == rows[i + 1..];
        i := i + 1;
      }
      r := if i < |rows| then Some(rows[i]) else None;
    }

    method PublishManualPositionClosed(r: Row, ok: bool) returns (err: Error)
      modifies this
      ensures (Value(), err) == PublishClose(old(Value()), r, ok)
    {
      if !r.filled || !r.manualClose {
        return NoError;
      }
      if !ok {
        return ClosePublishFailed;
      }
      closes := closes + [r];
      err := NoError;
    }

    method RecordHistory(r: Row, a: Answers) returns (err: Error)
      modifies this
      ensures (Value(), err) == Record(old(Value()), r, a)
    {
      if a.insert != NotInserted {
        rows := rows + [r];
      }
      if a.insert != Inserted {
        return CreateOrderHistoryFailed;
      }
      err := PublishManualPositionClosed(r, a.closePublished);
      if err != NoError {
        return;
      }
      err := if a.notified then NoError else NotificationFailed;
    }

    method Place(m: Message, q: Request, a: Answers) returns (err: Error)
      modifies this
      ensures (Value(), err) == PlaceOrder(old(Value()), m, q, a)
    {
      if a.cancelled {
        return ContextCancelled;
      }
      if !q.sideValid {
        return InvalidSide;
      }
      if q.entryId.None? {
        return InvalidEntryOrderId;
      }
      if !q.exchangeKnown {
        return ExchangeNotFound;
      }
      if !a.lookupOk {
        return LookupFailed;
      }
      var existing := GetByRequestId(q.requestId);
      if existing.Some? {
        err := PublishManualPositionClosed(existing.value, a.closePublished);
        if err != NoError {
          return;
        }
        return DuplicateOrder;
      }
      var filled := true;
      if !q.paper {
        if !a.accepted {
          return PlaceOrderFailed;
        }
        submissions := submissions + [m];
        filled := a.filled;
      }
      err := RecordHistory(Row(q.requestId, q.entryId.value, filled, q.manualClose), a);
    }

    method HandlePlaceOrderEvent(m: Message, a: Answers) returns (err: Error)
      modifies this
      ensures (Value(), err) == HandleEvent(old(Value()), m, a)
    {
      hide PlaceOrder;
      if m.request.None? {
        return Undecodable;
      }
      if a.expired {
        return OrderExpired;
      }
      err := Place(m, m.request.value, a);
      if err == ExchangeNotFound || err == CreateOrderHistoryFailed || err == DuplicateOrder {
        return NoError;
      }
    }
  }

  // ---------------------------------------------------------------- Acknowledging

  datatype Verdict = Ack | Term | Nak(delaySeconds: nat)

  function RetryDecision(attempt: nat, maxRetry: nat): Verdict {
    if maxRetry == 0 || attempt >= maxRetry then Term else Nak(attempt * 2)
  }

  /** One delivery: the attempt number the queue counts, the answers, and whether the verdict reaches the queue. */
  datatype Delivery = Delivery(msg: Message, attempt: nat, answers: Answers, arrives: bool)

  function After(e: Engine, d: Delivery): Engine { HandleEvent(e, d.msg, d.answers).0 }

  /** A handling that timed out counts as failed, whatever it did. */
  function VerdictOf(maxRetry: nat, e: Engine, d: Delivery): Verdict {
    if !d.answers.timedOut && HandleEvent(e, d.msg, d.answers).1 == NoError then Ack
    else RetryDecision(d.attempt, maxRetry)
  }

  /** The verdict: an error-free handling in time is acknowledged; any other is tried again after twice as many
      seconds as attempts so far, as long as the limit has not been reached. */
  lemma VerdictExactly(maxRetry: nat, e: Engine, d: Delivery)
    ensures var ok := !d.answers.timedOut && HandleEvent(e, d.msg, d.answers).1 == NoError;
            && (VerdictOf(maxRetry, e, d) == Ack <==> ok)
            && (VerdictOf(maxRetry, e, d).Nak? <==> !ok && d.attempt < maxRetry)
            && (VerdictOf(maxRetry, e, d).Nak? ==> VerdictOf(maxRetry, e, d).delaySeconds == d.attempt + d.attempt)
  {
    hide HandleEvent;
  }

  predicate Settled(maxRetry: nat, e: Engine, d: Delivery) {
    d.arrives && !VerdictOf(maxRetry, e, d).Nak?
  }

  /** Any deliveries in any order; a message is not delivered again once settled, and its attempts count up. */
  ghost predicate IsRun(maxRetry: nat, engines: seq<Engine>, ds: seq<Delivery>) {
    && |engines| == |ds| + 1 && engines[0] == EMPTY
    && (forall i :: 0 <= i < |ds| ==> engines[i + 1] == After(engines[i], ds[i]) && ds[i].attempt >= 1)
    && (forall i, j :: 0 <= i < j < |ds| && ds[i].msg == ds[j].msg
          ==> !Settled(maxRetry, engines[i], ds[i]) && ds[i].attempt < ds[j].attempt)
  }

  // ---------------------------------------------------------------- Rows

  ghost predicate DistinctRequests(rows: seq<Row>) {
    forall i, j :: 0 <= i < j < |rows| ==> rows[i].requestId != rows[j].requestId
  }

  lemma HandleGrows(e: Engine, d: Delivery)
    ensures var e' := After(e, d);
            && |e.rows| <= |e'.rows| <= |e.rows| + 1 && e'.rows[..|e.rows|] == e.rows
            && |e.closes| <= |e'.closes| && e'.closes[..|e.closes|] == e.closes
            && (|e'.rows| > |e.rows| ==>
                  && d.msg.request.Some? && e'.rows[|e.rows|].requestId == d.msg.request.value.requestId
                  && !HasRow(e.rows, d.msg.request.value.requestId))
  {
    hide Find;
  }

  /** In every run, at most one row exists per request id. */
  lemma {:induction false} OneRowPerRequest(maxRetry: nat, engines: seq<Engine>, ds: seq<Delivery>, n: nat)
    requires IsRun(maxRetry, engines, ds) && n <= |ds|
    ensures DistinctRequests(engines[n].rows)
    decreases n
  {
    hide After, Settled;
    if n > 0 {
      OneRowPerRequest(maxRetry, engines, ds, n - 1);
      HandleGrows(engines[n - 1], ds[n - 1]);
      GrownStaysDistinct(engines[n - 1].rows, engines[n].rows);
    }
  }

  lemma GrownStaysDistinct(rows: seq<Row>, rows': seq<Row>)
    requires DistinctRequests(rows) && |rows| <= |rows'| <= |rows| + 1 && rows'[..|rows|] == rows
    requires |rows'| > |rows| ==> !HasRow(rows, rows'[|rows|].requestId)
    ensures DistinctRequests(rows')
  {
    forall i, j | 0 <= i < j < |rows'| ensures rows'[i].requestId != rows'[j].requestId {
      assert rows'[i] == rows[i];
      if j < |rows| {
        assert rows'[j] == rows[j];
      }
    }
  }

  lemma {:induction false} RowsPersist(maxRetry: nat, engines: seq<Engine>, ds: seq<Delivery>, i: nat, j: nat, id: Id)
    requires IsRun(maxRetry, engines, ds) && i <= j <= |ds| && HasRow(engines[i].rows, id)
    ensures HasRow(engines[j].rows, id)
    decreases j
  {
    hide After, Settled;
    if i < j {
      RowsPersist(maxRetry, engines, ds, i, j - 1, id);
      HandleGrows(engines[j - 1], ds[j - 1]);
      var k :| 0 <= k < |engines[j - 1].rows| && engines[j - 1].rows[k].requestId == id;
      assert engines[j].rows[k] == engines[j].rows[..|engines[j - 1].rows|][k];
    }
  }

  // ---------------------------------------------------------------- What one handling does

  /** The handling gets as far as asking the table, and gets an answer. */
  predicate Reaches(d: Delivery) {
    && d.msg.request.Some? && !d.answers.expired && !d.answers.cancelled && d.answers.lookupOk
    && d.msg.request.value.sideValid && d.msg.request.value.entryId.Some? && d.msg.request.value.exchangeKnown
  }

  /** The handling takes the order on: no row of its request yet, and either a paper order or one the exchange
      accepts. */
  ghost predicate TakesOn(e: Engine, d: Delivery) {
    && Reaches(d) && !HasRow(e.rows, d.msg.request.value.requestId)
    && (d.msg.request.value.paper || d.answers.accepted)
  }

  /** The row of a request: its own ids and reason, filled if it is a paper order or the exchange said so. */
  function RowOf(q: Request, a: Answers): Row
    requires q.entryId.Some?
  {
    Row(q.requestId, q.entryId.value, q.paper || a.filled, q.manualClose)
  }

  /** A handling submits exactly if it takes a live order on. */
  lemma SubmitsExactly(e: Engine, d: Delivery)
    ensures Submits(e, d) <==> TakesOn(e, d) && !d.msg.request.value.paper
    ensures After(e, d).submissions == e.submissions + (if Submits(e, d) then [d.msg] else [])
  {
    hide Find, HasRow;
  }

  /** A handling inserts exactly if it takes an order on and the insert goes through, and then the row of the request.
      */
  lemma InsertsExactly(e: Engine, d: Delivery)
    ensures After(e, d).rows
            == if TakesOn(e, d) && d.answers.insert != NotInserted then e.rows + [RowOf(d.msg.request.value, d.answers)]
               else e.rows
  {
    hide Find, HasRow;
  }

  /** Exactly when a handling reports no error, so that its message is acknowledged: the exchange is unknown; or the
      row exists, and its close, if it is one, was taken by the bus; or the order was taken on and the insert reported
      as failed; or it was inserted, its close, if it is one, was taken, and the notification went out. */
  lemma SucceedsExactly(e: Engine, d: Delivery)
    ensures var a, row := d.answers, Find(e.rows, if d.msg.request.Some? then d.msg.request.value.requestId else 0);
            HandleEvent(e, d.msg, a).1 == NoError <==>
              && d.msg.request.Some? && !a.expired && !a.cancelled
              && var q := d.msg.request.value;
                 && q.sideValid && q.entryId.Some?
                 && (!q.exchangeKnown
                     || (a.lookupOk
                         && if row.Some? then row.value.filled && row.value.manualClose ==> a.closePublished
                            else (q.paper || a.accepted)
                                 && (a.insert == Inserted ==>
                                       a.notified && (q.manualClose && (q.paper || a.filled) ==> a.closePublished))))
  {
    hide Find, HasRow;
  }

  // ---------------------------------------------------------------- At most one submission

  predicate Submits(e: Engine, d: Delivery) { After(e, d).submissions != e.submissions }

  /** Accepted by the exchange, but no row was left behind. */
  predicate Orphans(e: Engine, d: Delivery) { Submits(e, d) && d.answers.insert == NotInserted }

  lemma SubmissionRecorded(e: Engine, d: Delivery)
    requires Submits(e, d)
    ensures d.msg.request.Some? && After(e, d).submissions == e.submissions + [d.msg]
    ensures !HasRow(e.rows, d.msg.request.value.requestId)
    ensures Orphans(e, d) ==> HandleEvent(e, d.msg, d.answers).1 == NoError && After(e, d).rows == e.rows
    ensures !Orphans(e, d) ==> HasRow(After(e, d).rows, d.msg.request.value.requestId)
  {
    hide Find;
    var e' := After(e, d);
    if !Orphans(e, d) {
      assert e'.rows[|e.rows|].requestId == d.msg.request.value.requestId;
    }
  }

  lemma {:induction false} SubmissionHasStep(maxRetry: nat, engines: seq<Engine>, ds: seq<Delivery>, n: nat, m: Message)
    requires IsRun(maxRetry, engines, ds) && n <= |ds| && m in engines[n].submissions
    ensures exists i :: 0 <= i < n && Submits(engines[i], ds[i]) && ds[i].msg == m
    decreases n
  {
    hide After, Settled, Submits;
    if n > 0 {
      SubmitsExactly(engines[n - 1], ds[n - 1]);
      if m in engines[n - 1].submissions {
        SubmissionHasStep(maxRetry, engines, ds, n - 1, m);
        var i :| 0 <= i < n - 1 && Submits(engines[i], ds[i]) && ds[i].msg == m;
        assert Submits(engines[i], ds[i]) && ds[i].msg == m;
      } else {
        assert Submits(engines[n - 1], ds[n - 1]) && ds[n - 1].msg == m;
      }
    }
  }

  /** At-most-once submission: if every handling that was accepted without leaving a row is settled, by an
      acknowledgement or by its last attempt, no message is ever submitted twice, however often it is delivered.
      Nothing is asked of the other handlings. */
  lemma AtMostOneSubmission(maxRetry: nat, engines: seq<Engine>, ds: seq<Delivery>, i: nat, j: nat)
    requires IsRun(maxRetry, engines, ds) && i < j < |ds|
    requires Orphans(engines[i], ds[i]) ==> Settled(maxRetry, engines[i], ds[i])
    requires Submits(engines[i], ds[i]) && Submits(engines[j], ds[j])
    ensures ds[i].msg != ds[j].msg
  {
    hide HandleEvent, After, Settled;
    SubmissionRecorded(engines[i], ds[i]);
    SubmissionRecorded(engines[j], ds[j]);
    if !Orphans(engines[i], ds[i]) {
      RowsPersist(maxRetry, engines, ds, i + 1, j, ds[i].msg.request.value.requestId);
    }
  }

  ghost predicate OrphansSettled(maxRetry: nat, engines: seq<Engine>, ds: seq<Delivery>)
    requires |engines| == |ds| + 1
  {
    forall i :: 0 <= i < |ds| && Orphans(engines[i], ds[i]) ==> Settled(maxRetry, engines[i], ds[i])
  }

  /** The same over a whole run: the exchange's list of accepted submissions never names a message twice. */
  lemma {:induction false} SubmissionsDistinct(maxRetry: nat, engines: seq<Engine>, ds: seq<Delivery>, n: nat)
    requires IsRun(maxRetry, engines, ds) && n <= |ds| && OrphansSettled(maxRetry, engines, ds)
    ensures forall a, b :: 0 <= a < b < |engines[n].submissions|
              ==> engines[n].submissions[a] != engines[n].submissions[b]
    decreases n
  {
    hide After, Settled, Submits, Orphans;
    if n > 0 {
      SubmissionsDistinct(maxRetry, engines, ds, n - 1);
      SubmitsExactly(engines[n - 1], ds[n - 1]);
      if Submits(engines[n - 1], ds[n - 1]) && ds[n - 1].msg in engines[n - 1].submissions {
        SubmissionHasStep(maxRetry, engines, ds, n - 1, ds[n - 1].msg);
        var i :| 0 <= i < n - 1 && Submits(engines[i], ds[i]) && ds[i].msg == ds[n - 1].msg;
        AtMostOneSubmission(maxRetry, engines, ds, i, n - 1);
      }
    }
  }

  const SMOOTH := Answers(false, false, true, true, true, Inserted, true, true, false)

  /** Some continuation of the run, with any deliveries of any messages, submits its last message once more. */
  ghost predicate CanResubmit(maxRetry: nat, engines: seq<Engine>, ds: seq<Delivery>)
    requires ds != []
  {
    exists engines': seq<Engine>, ds': seq<Delivery> :: Resubmits(maxRetry, engines, ds, engines', ds')
  }

  ghost predicate Resubmits(maxRetry: nat, engines: seq<Engine>, ds: seq<Delivery>, engines': seq<Engine>,
                            ds': seq<Delivery>)
    requires ds != []
  {
    && IsRun(maxRetry, engines', ds')
    && |ds| < |ds'| && |engines| < |engines'| && ds'[..|ds|] == ds && engines'[..|engines|] == engines
    && ds'[|ds'| - 1].msg == ds[|ds| - 1].msg && Submits(engines'[|ds'| - 1], ds'[|ds'| - 1])
  }

  lemma ExtendRun(maxRetry: nat, engines: seq<Engine>, ds: seq<Delivery>, d: Delivery)
    requires IsRun(maxRetry, engines, ds) && d.attempt >= 1
    requires forall i :: 0 <= i < |ds| && ds[i].msg == d.msg
               ==> !Settled(maxRetry, engines[i], ds[i]) && ds[i].attempt < d.attempt
    ensures IsRun(maxRetry, engines + [After(engines[|ds|], d)], ds + [d])
  {
    hide After, Settled;
  }

  lemma RedeliverOrphan(maxRetry: nat, engines: seq<Engine>, ds: seq<Delivery>, n: nat)
    requires IsRun(maxRetry, engines, ds) && |ds| == n + 1
    requires Submits(engines[n], ds[n]) && Orphans(engines[n], ds[n]) && !Settled(maxRetry, engines[n], ds[n])
    ensures CanResubmit(maxRetry, engines, ds)
  {
    var d := Delivery(ds[n].msg, ds[n].attempt + 1, SMOOTH, true);
    var e := engines[n + 1];
    SubmissionRecorded(engines[n], ds[n]);
    OrphanSubmitsAgain(engines[n], ds[n], d);
    hide After, Settled, Submits, Orphans;
    ExtendRun(maxRetry, engines, ds, d);
    var engines', ds' := engines + [After(e, d)], ds + [d];
    assert ds'[..|ds|] == ds && engines'[..|engines|] == engines;
    assert Resubmits(maxRetry, engines, ds, engines', ds');
  }

  lemma OrphanSubmitsAgain(e: Engine, d: Delivery, again: Delivery)
    requires Submits(e, d) && Orphans(e, d) && again.msg == d.msg && again.answers == SMOOTH
    ensures Submits(After(e, d), again)
  {
    SubmissionRecorded(e, d);
    assert Find(After(e, d).rows, d.msg.request.value.requestId).None?;
    assert |After(After(e, d), again).submissions| == |After(e, d).submissions| + 1;
  }

  /** Exactly when the condition is needed: a run that ends by submitting a message can go on to submit it again if
      and only if that handling left no row and was not settled. */
  lemma ResubmissionExactly(maxRetry: nat, engines: seq<Engine>, ds: seq<Delivery>, n: nat)
    requires IsRun(maxRetry, engines, ds) && |ds| == n + 1 && Submits(engines[n], ds[n])
    ensures CanResubmit(maxRetry, engines, ds)
            <==> Orphans(engines[n], ds[n]) && !Settled(maxRetry, engines[n], ds[n])
  {
    if Orphans(engines[n], ds[n]) && !Settled(maxRetry, engines[n], ds[n]) {
      RedeliverOrphan(maxRetry, engines, ds, n);
    } else {
      hide After, Settled, Submits, Orphans, IsRun;
      forall engines': seq<Engine>, ds': seq<Delivery> | Resubmits(maxRetry, engines, ds, engines', ds')
        ensures false
      {
        assert ds'[n] == ds'[..|ds|][n] && engines'[n] == engines'[..|engines|][n];
        AtMostOneSubmission(maxRetry, engines', ds', n, |ds'| - 1);
      }
    }
  }

  // ---------------------------------------------------------------- Retries

  function Handled(ds: seq<Delivery>, m: Message, n: nat): nat
    requires n <= |ds|
  {
    if n == 0 then 0 else Handled(ds, m, n - 1) + (if ds[n - 1].msg == m then 1 else 0)
  }

  /** No earlier delivery, or the latest earlier one with at least as many attempts as handlings. */
  lemma {:induction false} HandledWithinAttempts(maxRetry: nat, engines: seq<Engine>, ds: seq<Delivery>, m: Message,
                                                 n: nat)
    requires IsRun(maxRetry, engines, ds) && n <= |ds|
    ensures Handled(ds, m, n) == 0 || exists i :: 0 <= i < n && ds[i].msg == m && Handled(ds, m, n) <= ds[i].attempt
    decreases n
  {
    hide After, Settled;
    if n > 0 {
      HandledWithinAttempts(maxRetry, engines, ds, m, n - 1);
      if Handled(ds, m, n - 1) != 0 {
        var i :| 0 <= i < n - 1 && ds[i].msg == m && Handled(ds, m, n - 1) <= ds[i].attempt;
        if ds[n - 1].msg == m {
          assert ds[i].attempt < ds[n - 1].attempt;
        }
      }
    }
  }

  /** When every verdict reaches the queue, a message is handled at most max(1, maxRetry) times. */
  lemma {:induction false} HandledAtMost(maxRetry: nat, engines: seq<Engine>, ds: seq<Delivery>, m: Message, n: nat)
    requires IsRun(maxRetry, engines, ds) && n <= |ds|
    requires forall i :: 0 <= i < |ds| ==> ds[i].arrives
    ensures Handled(ds, m, n) <= MaxInt(1, maxRetry)
    decreases n
  {
    hide After, HandleEvent;
    if n > 0 {
      HandledAtMost(maxRetry, engines, ds, m, n - 1);
      HandledWithinAttempts(maxRetry, engines, ds, m, n - 1);
      if ds[n - 1].msg == m && Handled(ds, m, n - 1) != 0 {
        var i :| 0 <= i < n - 1 && ds[i].msg == m && Handled(ds, m, n - 1) <= ds[i].attempt;
        assert !Settled(maxRetry, engines[i], ds[i]);
        assert ds[i].attempt < maxRetry;
      }
    }
  }

  // ---------------------------------------------------------------- Close events

  predicate Acked(maxRetry: nat, e: Engine, d: Delivery) { VerdictOf(maxRetry, e, d).Ack? }

  predicate Closing(r: Row) { r.filled && r.manualClose }

  /** Is the delivery about the request of the row? */
  predicate Concerns(d: Delivery, r: Row) { d.msg.request.Some? && d.msg.request.value.requestId == r.requestId }

  /** The handling finds the row of its request, or inserts one and is told so. */
  ghost predicate Secures(e: Engine, d: Delivery) {
    && Reaches(d)
    && (HasRow(e.rows, d.msg.request.value.requestId)
        || ((d.msg.request.value.paper || d.answers.accepted) && d.answers.insert == Inserted))
  }

  /** One handling: it announces the closing row of its request exactly if it secured the row and the bus took the
      event. It announces nothing else. */
  lemma HandlingAnnouncesExactly(e: Engine, d: Delivery, r: Row)
    requires DistinctRequests(After(e, d).rows) && r in After(e, d).rows && Closing(r)
    ensures r in After(e, d).closes
            <==> r in e.closes || (Concerns(d, r) && Secures(e, d) && d.answers.closePublished)
  {
    if Concerns(d, r) {
      TheRowOf(e, d, r);
      hide Find, DistinctRequests;
    } else {
      hide Find, DistinctRequests;
      ClosesGrow(e, d);
    }
  }

  lemma ClosesGrow(e: Engine, d: Delivery)
    ensures var e' := After(e, d);
            e'.closes == e.closes || (|e'.closes| == |e.closes| + 1 && e'.closes == e.closes + [e'.closes[|e.closes|]]
                                      && Concerns(d, e'.closes[|e.closes|]) && e'.closes[|e.closes|] in e'.rows)
  {
    hide HasRow;
  }

  lemma SameRequestSameRow(rows: seq<Row>, r: Row, q: Row)
    requires DistinctRequests(rows) && r in rows && q in rows && r.requestId == q.requestId
    ensures r == q
  {
    var i :| 0 <= i < |rows| && rows[i] == r;
    var j :| 0 <= j < |rows| && rows[j] == q;
  }

  /** The row of the request is the one found, if any, else the one inserted. */
  lemma TheRowOf(e: Engine, d: Delivery, r: Row)
    requires DistinctRequests(After(e, d).rows) && r in After(e, d).rows && Concerns(d, r)
    ensures var found := Find(e.rows, r.requestId);
            if found.Some? then found.value == r else After(e, d).rows == e.rows + [r]
  {
    var e', found := After(e, d), Find(e.rows, r.requestId);
    HandleGrows(e, d);
    hide Find, After;
    if found.Some? {
      var i :| 0 <= i < |e.rows| && e.rows[i] == found.value;
      assert e'.rows[i] == e'.rows[..|e.rows|][i];
      SameRequestSameRow(e'.rows, r, found.value);
    } else {
      assert forall i :: 0 <= i < |e.rows| ==> e'.rows[i] == e'.rows[..|e.rows|][i];
      assert forall i :: 0 <= i < |e.rows| ==> e.rows[i].requestId != r.requestId;
    }
  }

  /** Only rows of the table are announced. */
  lemma {:induction false} AnnouncedIsStored(maxRetry: nat, engines: seq<Engine>, ds: seq<Delivery>, n: nat, r: Row)
    requires IsRun(maxRetry, engines, ds) && n <= |ds| && r in engines[n].closes
    ensures r in engines[n].rows
    decreases n
  {
    hide After, Settled;
    if n > 0 {
      HandleGrows(engines[n - 1], ds[n - 1]);
      ClosesGrow(engines[n - 1], ds[n - 1]);
      if r in engines[n - 1].closes {
        AnnouncedIsStored(maxRetry, engines, ds, n - 1, r);
        var i :| 0 <= i < |engines[n - 1].rows| && engines[n - 1].rows[i] == r;
        assert engines[n].rows[i] == engines[n].rows[..|engines[n - 1].rows|][i];
      }
    }
  }

  ghost predicate AnnouncedBy(engines: seq<Engine>, ds: seq<Delivery>, n: nat, r: Row)
    requires n <= |ds| < |engines|
  {
    exists i :: 0 <= i < n && Concerns(ds[i], r) && Secures(engines[i], ds[i]) && ds[i].answers.closePublished
  }

  lemma SecuredLeavesRow(e: Engine, d: Delivery)
    requires Secures(e, d)
    ensures HasRow(After(e, d).rows, d.msg.request.value.requestId)
  {
    var e', id := After(e, d), d.msg.request.value.requestId;
    HandleGrows(e, d);
    if HasRow(e.rows, id) {
      var i :| 0 <= i < |e.rows| && e.rows[i].requestId == id;
      assert e'.rows[i] == e'.rows[..|e.rows|][i];
    } else {
      assert e'.rows[|e.rows|].requestId == id;
    }
  }

  /** A row that is not there yet has not been announced, nor its request secured. */
  lemma NewRowIsUnannounced(maxRetry: nat, engines: seq<Engine>, ds: seq<Delivery>, n: nat, r: Row)
    requires IsRun(maxRetry, engines, ds) && n <= |ds| && !HasRow(engines[n].rows, r.requestId)
    ensures !AnnouncedBy(engines, ds, n, r) && r !in engines[n].closes
  {
    hide After, Settled, Secures;
    if r in engines[n].closes {
      AnnouncedIsStored(maxRetry, engines, ds, n, r);
    }
    forall i | 0 <= i < n && Concerns(ds[i], r) ensures !Secures(engines[i], ds[i]) {
      if Secures(engines[i], ds[i]) {
        SecuredLeavesRow(engines[i], ds[i]);
        RowsPersist(maxRetry, engines, ds, i + 1, n, r.requestId);
      }
    }
  }

  lemma AnnouncedByGrows(engines: seq<Engine>, ds: seq<Delivery>, n: nat, r: Row)
    requires n < |ds| < |engines|
    ensures AnnouncedBy(engines, ds, n + 1, r)
            <==> AnnouncedBy(engines, ds, n, r)
                 || (Concerns(ds[n], r) && Secures(engines[n], ds[n]) && ds[n].answers.closePublished)
  {
    hide Concerns, Secures;
    if AnnouncedBy(engines, ds, n, r) {
      var i :| 0 <= i < n && Concerns(ds[i], r) && Secures(engines[i], ds[i]) && ds[i].answers.closePublished;
      assert Concerns(ds[i], r) && Secures(engines[i], ds[i]);
    }
  }

  /** Close events over whole runs: a filled manual close in the table has been announced if and only if some handling
      of its request, of whichever message, secured the row and had its event taken by the bus. Acknowledgement,
      termination and what the other handlings met do not matter. */
  lemma {:induction false} CloseAnnouncedExactly(maxRetry: nat, engines: seq<Engine>, ds: seq<Delivery>, n: nat, r: Row)
    requires IsRun(maxRetry, engines, ds) && n <= |ds| && r in engines[n].rows && Closing(r)
    ensures r in engines[n].closes <==> AnnouncedBy(engines, ds, n, r)
    decreases n
  {
    hide After, Settled, Secures, AnnouncedBy, Closing;
    if n > 0 {
      var e, d := engines[n - 1], ds[n - 1];
      assert engines[n] == After(e, d);
      OneRowPerRequest(maxRetry, engines, ds, n);
      HandlingAnnouncesExactly(e, d, r);
      AnnouncedByGrows(engines, ds, n - 1, r);
      if r in e.rows {
        CloseAnnouncedExactly(maxRetry, engines, ds, n - 1, r);
      } else {
        NewRowIsFirst(e, d, r);
        NewRowIsUnannounced(maxRetry, engines, ds, n - 1, r);
      }
    }
  }

  lemma NewRowIsFirst(e: Engine, d: Delivery, r: Row)
    requires r in After(e, d).rows && r !in e.rows
    ensures !HasRow(e.rows, r.requestId) && Concerns(d, r)
  {
    HandleGrows(e, d);
    hide After;
    var rows := After(e, d).rows;
    assert forall i :: 0 <= i < |e.rows| ==> rows[i] == rows[..|e.rows|][i];
  }

  /** An acknowledged handling that knows the exchange announces the closing row it leaves or finds, exactly unless
      the insert took place but was reported as failed. */
  lemma AckedAnnouncesExactly(maxRetry: nat, e: Engine, d: Delivery, r: Row)
    requires DistinctRequests(After(e, d).rows) && r in After(e, d).rows && Closing(r) && Concerns(d, r)
    requires Acked(maxRetry, e, d) && d.msg.request.value.exchangeKnown
    ensures Secures(e, d) && d.answers.closePublished
            <==> HasRow(e.rows, r.requestId) || d.answers.insert == Inserted
    ensures !Secures(e, d) ==> d.answers.insert == InsertedButReportedFailed
  {
    TheRowOf(e, d, r);
    hide Find, DistinctRequests;
  }

  /** A loss is final: once the only message of a request is settled, a closing row it has not announced never is. */
  lemma {:induction false} LossIsFinal(maxRetry: nat, engines: seq<Engine>, ds: seq<Delivery>, i: nat, n: nat, r: Row)
    requires IsRun(maxRetry, engines, ds) && i < n <= |ds| && r in engines[i + 1].rows && Closing(r)
    requires Settled(maxRetry, engines[i], ds[i])
    requires forall j :: 0 <= j < |ds| && Concerns(ds[j], r) ==> ds[j].msg == ds[i].msg
    ensures r in engines[n].closes <==> r in engines[i + 1].closes
    decreases n
  {
    if n > i + 1 {
      hide After, Secures, Closing, Concerns, Settled;
      LossIsFinal(maxRetry, engines, ds, i, n - 1, r);
      RowStays(maxRetry, engines, ds, i + 1, n, r);
      OneRowPerRequest(maxRetry, engines, ds, n);
      assert engines[n] == After(engines[n - 1], ds[n - 1]);
      HandlingAnnouncesExactly(engines[n - 1], ds[n - 1], r);
      assert ds[n - 1].msg != ds[i].msg;
    }
  }

  lemma {:induction false} RowStays(maxRetry: nat, engines: seq<Engine>, ds: seq<Delivery>, i: nat, j: nat, r: Row)
    requires IsRun(maxRetry, engines, ds) && i <= j <= |ds| && r in engines[i].rows
    ensures r in engines[j].rows
    decreases j
  {
    hide After, Settled;
    if i < j {
      RowStays(maxRetry, engines, ds, i, j - 1, r);
      HandleGrows(engines[j - 1], ds[j - 1]);
      var k :| 0 <= k < |engines[j - 1].rows| && engines[j - 1].rows[k] == r;
      assert engines[j].rows[k] == engines[j].rows[..|engines[j - 1].rows|][k];
    }
  }

  // ---------------------------------------------------------------- Where rows and submissions come from

  /** Over a whole run: a message has been submitted if and only if some handling took its live order on. */
  lemma {:induction false} SubmittedExactly(maxRetry: nat, engines: seq<Engine>, ds: seq<Delivery>, n: nat, m: Message)
    requires IsRun(maxRetry, engines, ds) && n <= |ds|
    ensures m in engines[n].submissions
            <==> exists i :: 0 <= i < n && ds[i].msg == m && TakesOn(engines[i], ds[i]) && !m.request.value.paper
    decreases n
  {
    hide After, Settled, TakesOn, Submits;
    if n > 0 {
      SubmittedExactly(maxRetry, engines, ds, n - 1, m);
      SubmitsExactly(engines[n - 1], ds[n - 1]);
    }
  }

  /** Over a whole run: the rows of the table are exactly those of the requests that handlings took on and inserted.
      */
  lemma {:induction false} StoredRowsExactly(maxRetry: nat, engines: seq<Engine>, ds: seq<Delivery>, n: nat, r: Row)
    requires IsRun(maxRetry, engines, ds) && n <= |ds|
    ensures r in engines[n].rows
            <==> exists i :: 0 <= i < n && TakesOn(engines[i], ds[i]) && ds[i].answers.insert != NotInserted
                             && r == RowOf(ds[i].msg.request.value, ds[i].answers)
    decreases n
  {
    if n > 0 {
      StoredRowsExactly(maxRetry, engines, ds, n - 1, r);
      InsertsExactly(engines[n - 1], ds[n - 1]);
      hide After, Settled, RowOf;
    }
  }

  // ---------------------------------------------------------------- Two ways to lose a close

  const MANUAL_CLOSE := Message(0, Some(Request(1, Some(7), true, true, false, true)))
  const CLOSED_ROW := Row(1, 7, true, true)

  /** The run ends with its only message settled and its filled manual close unannounced. */
  ghost predicate LosesClose(maxRetry: nat, engines: seq<Engine>, ds: seq<Delivery>) {
    && IsRun(maxRetry, engines, ds) && ds != []
    && (forall i :: 0 <= i < |ds| ==> ds[i].msg == MANUAL_CLOSE)
    && Settled(maxRetry, engines[|ds| - 1], ds[|ds| - 1])
    && engines[|ds|] == Engine([CLOSED_ROW], [MANUAL_CLOSE], [])
  }

  /** An insert that took place but was reported as failed is acknowledged at once. */
  lemma ReportedFailureLosesClose(maxRetry: nat) returns (engines: seq<Engine>, ds: seq<Delivery>)
    ensures LosesClose(maxRetry, engines, ds) && Acked(maxRetry, engines[0], ds[0])
  {
    var d := Delivery(MANUAL_CLOSE, 1, SMOOTH.(insert := InsertedButReportedFailed), true);
    assert Find([], 1).None?;
    engines, ds := [EMPTY, After(EMPTY, d)], [d];
    assert After(EMPTY, d) == Engine([CLOSED_ROW], [MANUAL_CLOSE], []);
  }

  /** A bus that refuses the event on every attempt: the message is terminated with the row in the table. */
  lemma ExhaustedRetriesLoseClose(maxRetry: nat) returns (engines: seq<Engine>, ds: seq<Delivery>)
    ensures LosesClose(maxRetry, engines, ds) && |ds| == MaxInt(1, maxRetry)
  {
    var refused := SMOOTH.(closePublished := false);
    var n: nat, lost := MaxInt(1, maxRetry), Engine([CLOSED_ROW], [MANUAL_CLOSE], []);
    RefusedTwice(refused);
    ds := seq(n, i requires 0 <= i < n => Delivery(MANUAL_CLOSE, i + 1, refused, true));
    engines := [EMPTY] + seq(n, i requires 0 <= i < n => lost);
    hide HandleEvent;
  }

  lemma RefusedTwice(refused: Answers)
    requires refused == SMOOTH.(closePublished := false)
    ensures HandleEvent(EMPTY, MANUAL_CLOSE, refused) == (Engine([CLOSED_ROW], [MANUAL_CLOSE], []), ClosePublishFailed)
    ensures var lost := Engine([CLOSED_ROW], [MANUAL_CLOSE], []);
            HandleEvent(lost, MANUAL_CLOSE, refused) == (lost, ClosePublishFailed)
  {
    var lost := Engine([CLOSED_ROW], [MANUAL_CLOSE], []);
    var first := HandleEvent(EMPTY, MANUAL_CLOSE, refused).0;
    assert Find([], 1).None? && Find(lost.rows, 1) == Some(CLOSED_ROW);
    assert first.rows == lost.rows && first.submissions == lost.submissions && first.closes == [];
    assert PlaceOrder(lost, MANUAL_CLOSE, MANUAL_CLOSE.request.value, refused) == (lost, ClosePublishFailed);
  }
}
