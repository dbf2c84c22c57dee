/** The pending-order sync worker: each pass asks the exchange about every row that is still NEW or PARTIAL, announces
    a manual close that turned out filled, and only then writes the row back. */
module OrderSync {
  import opened Trading
  import opened Arithmetic

  type Id = nat

  /** A row of the order history, identified by its place in the table. */
  datatype Row = Row(requestId: Id, entryId: Id, status: string, manualClose: bool, exchangeKnown: bool,
                     orderId: string, clientOrderId: Option<string>, createdAtExchange: Option<int>,
                     filledAt: Option<int>, filledQuantity: real, avgFillPrice: Option<real>, price: Option<real>,
                     symbol: string, updatedAt: int)

  /** The exchange's answer; a quantity is missing when it does not parse, `symbol` is blank when it does not
      resolve. */
  datatype Snapshot = Snapshot(orderId: int, clientOrderId: string, executedQty: Option<real>, quoteQty: Option<real>,
                               status: string, eventTime: int, symbol: string)

  // ---------------------------------------------------------------- Text

  predicate IsSpace(c: char) { c == ' ' || '\t' <= c <= '\r' }

  function TrimLeft(s: string): string {
    if s != [] && IsSpace(s[0]) then TrimLeft(s[1..]) else s
  }

  function TrimRight(s: string): string {
    if s != [] && IsSpace(s[|s| - 1]) then TrimRight(s[..|s| - 1]) else s
  }

  function Trim(s: string): string { TrimRight(TrimLeft(s)) }

  function UpperChar(c: char): char {
    if 'a' <= c <= 'z' then ((c as int) - 32) as char else c
  }

  function Upper(s: string): string {
    seq(|s|, i requires 0 <= i < |s| => UpperChar(s[i]))
  }

  function Digits(n: nat): (s: string)
    ensures s != []
  {
    var last := [((n % 10) + 48) as char];
    if n < 10 then last else Digits(n / 10) + last
  }

  /** The exchange's order states, in the table's vocabulary; an unknown code is kept as it came. */
  function StatusFromCode(code: string): string {
    var known := Upper(Trim(code));
    if known == "NEW" then "NEW"
    else if known == "PARTIALLY_FILLED" then "PARTIAL"
    else if known == "FILLED" then "FILLED"
    else if known == "CANCELED" || known == "EXPIRED" || known == "PENDING_CANCEL" then "CANCELED"
    else if known == "REJECTED" then "REJECTED"
    else if code == "" then "UNKNOWN"
    else code
  }

  lemma PlainTextIsKept()
    ensures Upper(Trim("NEW")) == "NEW" && Upper(Trim("FILLED")) == "FILLED" && Upper(Trim("PARTIAL")) == "PARTIAL"
  {
    assert Trim("NEW") == "NEW" && Trim("FILLED") == "FILLED" && Trim("PARTIAL") == "PARTIAL";
  }

  /** Which codes close a row, and which leave it for the next pass: the code for a partial fill, and also the table's
      own word for it, which is passed through unchanged. */
  lemma StatusMeaning(code: string)
    ensures StatusFromCode(code) == "FILLED" <==> Upper(Trim(code)) == "FILLED"
    ensures StatusFromCode(code) == "NEW" || StatusFromCode(code) == "PARTIAL"
            <==> Upper(Trim(code)) == "NEW" || Upper(Trim(code)) == "PARTIALLY_FILLED" || code == "PARTIAL"
  {
    PlainTextIsKept();
    hide Trim, Upper;
  }

  // ---------------------------------------------------------------- One answer

  function ExecutedPrice(filled: real, quote: Option<real>): real {
    if filled > 0.0 && quote.Some? then Ratio(quote.value, filled) else 0.0
  }

  /** What the answer says about the fill. */
  function WithFill(h: Row, status: string, filled: real, executed: real, now: int): Row {
    h.(status := status,
       filledQuantity := filled,
       avgFillPrice := if executed > 0.0 then Some(executed) else h.avgFillPrice,
       price := if executed > 0.0 && (h.price.None? || h.price.value <= 0.0) then Some(executed) else h.price,
       updatedAt := now,
       filledAt := if status == "FILLED" && h.filledAt.None? then Some(now) else h.filledAt)
  }

  /** What the answer says about the order's identity; it only ever fills gaps, except for the symbol. */
  function WithIdentity(h: Row, resp: Snapshot): Row {
    h.(orderId := if resp.orderId > 0 && Trim(h.orderId) == "" then Digits(resp.orderId) else h.orderId,
       clientOrderId := if Trim(resp.clientOrderId) != "" && h.clientOrderId.None?
                        then Some(Trim(resp.clientOrderId)) else h.clientOrderId,
       createdAtExchange := if resp.eventTime > 0 && h.createdAtExchange.None?
                            then Some(resp.eventTime) else h.createdAtExchange,
       symbol := if resp.symbol != "" then resp.symbol else h.symbol)
  }

  function Mapped(h: Row, resp: Snapshot, now: int): Option<Row> {
    if resp.executedQty.None? || (resp.executedQty.value > 0.0 && resp.quoteQty.None?) then None
    else
      var filled := resp.executedQty.value;
      var fill := WithFill(h, StatusFromCode(resp.status), filled, ExecutedPrice(filled, resp.quoteQty), now);
      Some(WithIdentity(fill, resp))
  }

  /** The same, assigning the fields of a copy one after another. */
  method MapOrderHistorySyncResponse(history: Row, resp: Snapshot, now: int) returns (r: Option<Row>)
    ensures r == Mapped(history, resp, now)
  {
    hide WithFill, WithIdentity, StatusFromCode, Ratio;
    if resp.executedQty.None? {
      return None;
    }
    var filledQuantity, executedPrice := resp.executedQty.value, 0.0;
    if filledQuantity > 0.0 {
      if resp.quoteQty.None? {
        return None;
      }
      executedPrice := Ratio(resp.quoteQty.value, filledQuantity);
    }
    var h := MapFill(history, StatusFromCode(resp.status), filledQuantity, executedPrice, now);
    h := MapIdentity(h, resp);
    r := Some(h);
  }

  method MapFill(history: Row, status: string, filledQuantity: real, executedPrice: real, now: int) returns (h: Row)
    ensures h == WithFill(history, status, filledQuantity, executedPrice, now)
  {
    h := history.(status := status, filledQuantity := filledQuantity);
    if executedPrice > 0.0 {
      h := h.(avgFillPrice := Some(executedPrice));
      if h.price.None? || h.price.value <= 0.0 {
        h := h.(price := Some(executedPrice));
      }
    }
    h := h.(updatedAt := now);
    if status == "FILLED" && h.filledAt.None? {
      h := h.(filledAt := Some(now));
    }
  }

  method MapIdentity(history: Row, resp: Snapshot) returns (h: Row)
    ensures h == WithIdentity(history, resp)
  {
    hide Trim, Digits;
    h := history;
    if resp.orderId > 0 && Trim(h.orderId) == "" {
      h := h.(orderId := Digits(resp.orderId));
    }
    if Trim(resp.clientOrderId) != "" && h.clientOrderId.None? {
      h := h.(clientOrderId := Some(Trim(resp.clientOrderId)));
    }
    if resp.eventTime > 0 && h.createdAtExchange.None? {
      h := h.(createdAtExchange := Some(resp.eventTime));
    }
    if resp.symbol != "" {
      h := h.(symbol := resp.symbol);
    }
  }

  // ---------------------------------------------------------------- The store and the bus

  /** What happened, in order: the close event of a row was published, naming its entry, or a row was written. */
  datatype LogEntry = Published(id: Id, entryId: Id) | Recorded(id: Id, row: Row)

  datatype World = World(rows: seq<Row>, log: seq<LogEntry>)

  /** What the outside world answers about one row. */
  datatype Answer = Answer(cancelled: bool, snapshot: Option<Snapshot>, now: int, published: bool, updated: bool)

  datatype PassAnswers = PassAnswers(cancelled: bool, loaded: bool, answer: Id -> Answer)

  predicate IsPending(r: Row) { r.status == "NEW" || r.status == "PARTIAL" }

  predicate Closing(r: Row) { r.status == "FILLED" && r.manualClose }

  /** Announce, then record; a failed announcement leaves the row as it was. */
  function Settle(w: World, id: Id, r: Row, a: Answer): World
    requires id < |w.rows|
  {
    if Closing(r) && !a.published then w
    else
      var announced := if Closing(r) then w.(log := w.log + [Published(id, r.entryId)]) else w;
      if a.updated then World(announced.rows[id := r], announced.log + [Recorded(id, r)]) else announced
  }

  function SyncRow(w: World, id: Id, a: Answer): World
    requires id < |w.rows|
  {
    if !w.rows[id].exchangeKnown || a.snapshot.None? then w
    else
      var mapped := Mapped(w.rows[id], a.snapshot.value, a.now);
      if mapped.None? then w else Settle(w, id, mapped.value, a)
  }

  /** The pending rows among the first n, newest first. */
  function PendingAmong(rows: seq<Row>, n: nat): (ids: seq<Id>)
    requires n <= |rows|
    ensures IdsIn(ids, rows)
  {
    if n == 0 then []
    else (if IsPending(rows[n - 1]) then [n - 1] else []) + PendingAmong(rows, n - 1)
  }

  ghost predicate IdsIn(ids: seq<Id>, rows: seq<Row>) {
    forall k :: 0 <= k < |ids| ==> ids[k] < |rows|
  }

  ghost predicate Descending(ids: seq<Id>) {
    forall j, k :: 0 <= j < k < |ids| ==> ids[j] > ids[k]
  }

  /** Exactly the pending rows are visited, and each once. */
  lemma {:induction false} PendingAmongFacts(rows: seq<Row>, n: nat)
    requires n <= |rows|
    ensures var ids := PendingAmong(rows, n);
            && Descending(ids)
            && (forall k :: 0 <= k < |ids| ==> ids[k] < n && IsPending(rows[ids[k]]))
            && (forall id :: 0 <= id < n && IsPending(rows[id]) ==> id in ids)
  {
    hide IsPending;
    if n > 0 {
      PendingAmongFacts(rows, n - 1);
    }
  }

  function SyncFrom(w: World, ids: seq<Id>, answer: Id -> Answer, k: nat): World
    requires k <= |ids| && IdsIn(ids, w.rows)
    decreases |ids| - k
  {
    if k == |ids| || answer(ids[k]).cancelled then w
    else SyncFrom(SyncRow(w, ids[k], answer(ids[k])), ids, answer, k + 1)
  }

  function Pass(w: World, p: PassAnswers): World {
    if p.cancelled || !p.loaded then w else SyncFrom(w, PendingAmong(w.rows, |w.rows|), p.answer, 0)
  }

  // ---------------------------------------------------------------- The mutable service

  lemma {:induction false} PendingStep(rows: seq<Row>, i: nat, found: seq<Id>)
    requires i < |rows|
    ensures found + PendingAmong(rows, i + 1)
            == (if IsPending(rows[i]) then found + [i] else found) + PendingAmong(rows, i)
  {
    var rest := PendingAmong(rows, i);
    assert PendingAmong(rows, i + 1) == (if IsPending(rows[i]) then [i] else []) + rest;
    hide IsPending, PendingAmong;
    assert found + ([i] + rest) == (found + [i]) + rest && [] + rest == rest;
  }

  class OrderHistorySyncService {
    var rows: seq<Row>
    var log: seq<LogEntry>

    function Value(): World
      reads this
    {
      World(rows, log)
    }

    constructor (rows: seq<Row>)
      ensures Value() == World(rows, [])
    {
      this.rows := rows;
      log := [];
    }

    method GetByStatus() returns (ids: seq<Id>, histories: seq<Row>)
      ensures ids == PendingAmong(rows, |rows|) && |histories| == |ids|
      ensures forall k :: 0 <= k < |ids| ==> ids[k] < |rows| && histories[k] == rows[ids[k]]
    {
      hide IsPending;
      ids, histories := [], [];
      var i := |rows|;
      while i > 0
        invariant 0 <= i <= |rows| && |histories| == |ids|
        invariant ids + PendingAmong(rows, i) == PendingAmong(rows, |rows|)
        invariant forall k :: 0 <= k < |ids| ==> ids[k] < |rows| && histories[k] == rows[ids[k]]
      {
        i := i - 1;
        PendingStep(rows, i, ids);
        hide PendingAmong;
        if IsPending(rows[i]) {
          ids := ids + [i];
          histories := histories + [rows[i]];
        }
      }
    }

    /** One row of a pass, working on the copy loaded when the pass began. */
    method SyncHistory(id: Id, history: Row, a: Answer)
      requires id < |rows| && history == rows[id]
      modifies this
      ensures Value() == SyncRow(old(Value()), id, a)
    {
      hide Mapped;
      if !history.exchangeKnown || a.snapshot.None? {
        return;
      }
      var updated := MapOrderHistorySyncResponse(history, a.snapshot.value, a.now);
      if updated.None? {
        return;
      }
      if updated.value.status == "FILLED" && updated.value.manualClose {
        if !a.published {
          return;
        }
        log := log + [Published(id, updated.value.entryId)];
      }
      if a.updated {
        rows := rows[id := updated.value];
        log := log + [Recorded(id, updated.value)];
      }
    }

    method SyncPendingOrderHistories(p: PassAnswers)
      modifies this
      ensures Value() == Pass(old(Value()), p)
    {
      hide SyncRow;
      if p.cancelled || !p.loaded {
        return;
      }
      var ids, histories := GetByStatus();
      PendingAmongFacts(rows, |rows|);
      hide PendingAmong;
      var k := 0;
      while k < |ids|
        invariant 0 <= k <= |ids| == |histories| && IdsIn(ids, rows)
        invariant forall j :: k <= j < |ids| ==> histories[j] == rows[ids[j]]
        invariant SyncFrom(Value(), ids, p.answer, k) == SyncFrom(old(Value()), ids, p.answer, 0)
      {
        var a := p.answer(ids[k]);
        if a.cancelled {
          return;
        }
        SyncTouchesOneRow(Value(), ids[k], a);
        SyncHistory(ids[k], histories[k], a);
        k := k + 1;
      }
    }
  }

  lemma SyncTouchesOneRow(w: World, id: Id, a: Answer)
    requires id < |w.rows|
    ensures |SyncRow(w, id, a).rows| == |w.rows|
    ensures forall j :: 0 <= j < |w.rows| && j != id ==> SyncRow(w, id, a).rows[j] == w.rows[j]
  {
    hide Mapped;
  }

  // ---------------------------------------------------------------- How the store may evolve

  /** Settled rows stand still; identity and the write-once fields never change once set. */
  predicate RowEvolves(r: Row, r': Row) {
    && (!IsPending(r) ==> r' == r)
    && r'.requestId == r.requestId && r'.entryId == r.entryId && r'.manualClose == r.manualClose
    && (r.filledAt.Some? ==> r'.filledAt == r.filledAt)
    && (r.createdAtExchange.Some? ==> r'.createdAtExchange == r.createdAtExchange)
    && (r.clientOrderId.Some? ==> r'.clientOrderId == r.clientOrderId)
    && (Trim(r.orderId) != "" ==> r'.orderId == r.orderId)
  }

  lemma MappedEvolves(h: Row, resp: Snapshot, now: int)
    requires IsPending(h) && Mapped(h, resp, now).Some?
    ensures RowEvolves(h, Mapped(h, resp, now).value)
  {
    hide Trim, StatusFromCode, Digits, ExecutedPrice;
  }

  /** Was the close of the row published at position `from` of the log or later? */
  ghost predicate PublishedSince(log: seq<LogEntry>, from: nat, id: Id, entryId: Id) {
    exists k :: from <= k < |log| && log[k] == Published(id, entryId)
  }

  ghost predicate Evolves(w: World, w': World) {
    && |w.rows| <= |w'.rows| && |w.log| <= |w'.log| && w'.log[..|w.log|] == w.log
    && (forall id :: 0 <= id < |w.rows| ==> RowEvolves(w.rows[id], w'.rows[id]))
    && (forall id :: 0 <= id < |w.rows| && w.rows[id].status != "FILLED" && Closing(w'.rows[id])
          ==> PublishedSince(w'.log, |w.log|, id, w'.rows[id].entryId))
  }

  lemma SinceLater(log: seq<LogEntry>, log': seq<LogEntry>, from: nat, from': nat, id: Id, entryId: Id)
    requires PublishedSince(log, from, id, entryId) && from' <= from && |log| <= |log'| && log'[..|log|] == log
    ensures PublishedSince(log', from', id, entryId)
  {
    var k :| from <= k < |log| && log[k] == Published(id, entryId);
    assert log'[k] == log'[..|log|][k];
  }

  lemma EvolvesOn(a: World, b: World, c: World)
    requires Evolves(a, b) && Evolves(b, c)
    ensures Evolves(a, c)
  {
    hide Trim, PublishedSince;
    assert c.log[..|a.log|] == b.log[..|a.log|];
    forall id | 0 <= id < |a.rows| ensures RowEvolves(a.rows[id], c.rows[id]) {
      assert RowEvolves(a.rows[id], b.rows[id]) && RowEvolves(b.rows[id], c.rows[id]);
    }
    forall id | 0 <= id < |a.rows| && a.rows[id].status != "FILLED" && Closing(c.rows[id])
      ensures PublishedSince(c.log, |a.log|, id, c.rows[id].entryId)
    {
      assert RowEvolves(b.rows[id], c.rows[id]);
      if b.rows[id].status == "FILLED" {
        SinceLater(b.log, c.log, |a.log|, |a.log|, id, c.rows[id].entryId);
      } else {
        SinceLater(c.log, c.log, |b.log|, |a.log|, id, c.rows[id].entryId);
      }
    }
  }

  /** Whenever a closing row was written, its close had been published before. */
  ghost predicate PublishedFirst(log: seq<LogEntry>) {
    forall k :: 0 <= k < |log| && log[k].Recorded? && Closing(log[k].row)
      ==> PublishedSince(log[..k], 0, log[k].id, log[k].row.entryId)
  }

  lemma LogGrows(log: seq<LogEntry>, x: LogEntry)
    requires PublishedFirst(log)
    requires x.Recorded? && Closing(x.row) ==> PublishedSince(log, 0, x.id, x.row.entryId)
    ensures PublishedFirst(log + [x])
  {
    var g := log + [x];
    forall k | 0 <= k < |g| && g[k].Recorded? && Closing(g[k].row)
      ensures PublishedSince(g[..k], 0, g[k].id, g[k].row.entryId)
    {
      assert g[..k] == log[..k];
      if k == |log| {
        assert log[..k] == log;
      }
    }
  }

  lemma SettleEvolves(w: World, id: Id, r: Row, a: Answer)
    requires id < |w.rows| && IsPending(w.rows[id]) && RowEvolves(w.rows[id], r) && PublishedFirst(w.log)
    ensures Evolves(w, Settle(w, id, r, a)) && PublishedFirst(Settle(w, id, r, a).log)
  {
    hide Trim, PublishedFirst;
    var announced := if Closing(r) then w.log + [Published(id, r.entryId)] else w.log;
    LogGrows(w.log, Published(id, r.entryId));
    if Closing(r) {
      assert announced[|w.log|] == Published(id, r.entryId);
      assert PublishedSince(announced, |w.log|, id, r.entryId);
      SinceLater(announced, announced, |w.log|, 0, id, r.entryId);
      SinceLater(announced, announced + [Recorded(id, r)], |w.log|, |w.log|, id, r.entryId);
    }
    LogGrows(announced, Recorded(id, r));
  }

  lemma SyncRowEvolves(w: World, id: Id, a: Answer)
    requires id < |w.rows| && IsPending(w.rows[id]) && PublishedFirst(w.log)
    ensures Evolves(w, SyncRow(w, id, a)) && PublishedFirst(SyncRow(w, id, a).log)
  {
    EvolvesSelf(w);
    hide Mapped, Settle, Evolves, PublishedFirst, RowEvolves, IsPending;
    if w.rows[id].exchangeKnown && a.snapshot.Some? {
      var mapped := Mapped(w.rows[id], a.snapshot.value, a.now);
      if mapped.Some? {
        MappedEvolves(w.rows[id], a.snapshot.value, a.now);
        SettleEvolves(w, id, mapped.value, a);
      }
    }
  }

  lemma EvolvesSelf(w: World)
    ensures Evolves(w, w)
  {
  }

  ghost predicate PendingFrom(ids: seq<Id>, rows: seq<Row>, k: nat)
    requires IdsIn(ids, rows)
  {
    forall j :: k <= j < |ids| ==> IsPending(rows[ids[j]])
  }

  lemma {:induction false} SyncFromEvolves(w: World, ids: seq<Id>, answer: Id -> Answer, k: nat)
    requires k <= |ids| && IdsIn(ids, w.rows) && Descending(ids) && PendingFrom(ids, w.rows, k) && PublishedFirst(w.log)
    ensures Evolves(w, SyncFrom(w, ids, answer, k)) && PublishedFirst(SyncFrom(w, ids, answer, k).log)
    decreases |ids| - k
  {
    EvolvesSelf(w);
    hide SyncRow, Evolves, PublishedFirst;
    if k < |ids| && !answer(ids[k]).cancelled {
      var next := SyncRow(w, ids[k], answer(ids[k]));
      SyncRowEvolves(w, ids[k], answer(ids[k]));
      SyncTouchesOneRow(w, ids[k], answer(ids[k]));
      SyncFromEvolves(next, ids, answer, k + 1);
      EvolvesOn(w, next, SyncFrom(next, ids, answer, k + 1));
    }
  }

  lemma PassEvolves(w: World, p: PassAnswers)
    requires PublishedFirst(w.log)
    ensures Evolves(w, Pass(w, p)) && PublishedFirst(Pass(w, p).log)
  {
    EvolvesSelf(w);
    PendingAmongFacts(w.rows, |w.rows|);
    hide Evolves, PublishedFirst;
    if !p.cancelled && p.loaded {
      SyncFromEvolves(w, PendingAmong(w.rows, |w.rows|), p.answer, 0);
    }
  }

  // ---------------------------------------------------------------- What a pass does to a row, exactly

  /** The digits denote the number. */
  function ValueOf(s: string): int {
    if s == [] then 0 else 10 * ValueOf(s[..|s| - 1]) + (s[|s| - 1] as int - 48)
  }

  lemma {:induction false} DigitsRoundTrip(n: nat)
    ensures ValueOf(Digits(n)) == n
  {
    if n >= 10 {
      DigitsRoundTrip(n / 10);
      var s := Digits(n);
      assert s[..|s| - 1] == Digits(n / 10);
    }
  }

  predicate SaysFilled(resp: Snapshot) { Upper(Trim(resp.status)) == "FILLED" }

  predicate SaysPending(resp: Snapshot) {
    Upper(Trim(resp.status)) == "NEW" || Upper(Trim(resp.status)) == "PARTIALLY_FILLED" || resp.status == "PARTIAL"
  }

  /** The exchange knows the row and its quantities can be read. */
  predicate Answered(r: Row, a: Answer) {
    && r.exchangeKnown && a.snapshot.Some?
    && a.snapshot.value.executedQty.Some?
    && (a.snapshot.value.executedQty.value > 0.0 ==> a.snapshot.value.quoteQty.Some?)
  }

  /** The row after an answer, field by field: the status and the executed quantity are the exchange's; the average
      price accounts for the amount paid; the price, the fill time, the ids and the creation time only fill gaps. */
  ghost predicate Patched(r: Row, resp: Snapshot, now: int, r': Row)
    requires resp.executedQty.Some? && (resp.executedQty.value > 0.0 ==> resp.quoteQty.Some?)
  {
    var paid := resp.executedQty.value > 0.0 && resp.quoteQty.value > 0.0;
    && r'.requestId == r.requestId && r'.entryId == r.entryId && r'.manualClose == r.manualClose
    && r'.exchangeKnown == r.exchangeKnown && r'.updatedAt == now
    && (r'.status == "FILLED" <==> SaysFilled(resp)) && (IsPending(r') <==> SaysPending(resp))
    && r'.filledQuantity == resp.executedQty.value
    && (if paid then r'.avgFillPrice.Some? && Times(r'.avgFillPrice.value, r'.filledQuantity) == resp.quoteQty.value
        else r'.avgFillPrice == r.avgFillPrice)
    && (r'.price == if paid && (r.price.None? || r.price.value <= 0.0) then r'.avgFillPrice else r.price)
    && (r'.filledAt == if r.filledAt.None? && SaysFilled(resp) then Some(now) else r.filledAt)
    && (if Trim(r.orderId) == "" && resp.orderId > 0 then ValueOf(r'.orderId) == resp.orderId
        else r'.orderId == r.orderId)
    && (r'.clientOrderId == if r.clientOrderId.None? && Trim(resp.clientOrderId) != ""
                            then Some(Trim(resp.clientOrderId)) else r.clientOrderId)
    && (r'.createdAtExchange == if r.createdAtExchange.None? && resp.eventTime > 0 then Some(resp.eventTime)
                                else r.createdAtExchange)
    && (r'.symbol == if resp.symbol == "" then r.symbol else resp.symbol)
  }

  lemma ExecutedPriceExactly(filled: real, quote: Option<real>)
    requires filled > 0.0 ==> quote.Some?
    ensures ExecutedPrice(filled, quote) > 0.0 <==> filled > 0.0 && quote.value > 0.0
    ensures filled > 0.0 ==> Times(ExecutedPrice(filled, quote), filled) == quote.value
  {
    if filled > 0.0 {
      var q := quote.value;
      Quotient(q, filled);
      if q > 0.0 {
        PositiveFactor(q / filled, filled, q);
      }
    }
  }

  lemma MappedExactly(r: Row, resp: Snapshot, now: int)
    ensures Mapped(r, resp, now).Some?
            <==> resp.executedQty.Some? && (resp.executedQty.value > 0.0 ==> resp.quoteQty.Some?)
    ensures Mapped(r, resp, now).Some? ==> Patched(r, resp, now, Mapped(r, resp, now).value)
  {
    hide Trim, Upper, StatusFromCode, Digits, ValueOf, ExecutedPrice, Times;
    if Mapped(r, resp, now).Some? {
      StatusMeaning(resp.status);
      ExecutedPriceExactly(resp.executedQty.value, resp.quoteQty);
      if resp.orderId > 0 {
        DigitsRoundTrip(resp.orderId);
      }
    }
  }

  /** A filled manual close is due an announcement. */
  predicate Due(r: Row, a: Answer) { a.snapshot.Some? && r.manualClose && SaysFilled(a.snapshot.value) }

  ghost predicate Written(r: Row, a: Answer) { Answered(r, a) && a.updated && (Due(r, a) ==> a.published) }

  ghost predicate OnlyAbout(log: seq<LogEntry>, from: nat, id: Id) {
    forall k :: from <= k < |log| ==> log[k].id == id
  }

  /** What asking about one row does to that row, and to the log. */
  ghost predicate RowSynced(w: World, id: Id, a: Answer, w': World)
    requires id < |w.rows|
  {
    var r := w.rows[id];
    && |w'.rows| == |w.rows| && |w.log| <= |w'.log| && w'.log[..|w.log|] == w.log && OnlyAbout(w'.log, |w.log|, id)
    && (if Written(r, a) then Patched(r, a.snapshot.value, a.now, w'.rows[id]) else w'.rows[id] == r)
    && (PublishedSince(w'.log, |w.log|, id, r.entryId) <==> Answered(r, a) && Due(r, a) && a.published)
  }

  /** Writing a row back: announced first if it closes, stored if the update goes through. */
  lemma SettleExactly(w: World, id: Id, m: Row, a: Answer)
    requires id < |w.rows|
    ensures var w' := Settle(w, id, m, a);
            && |w'.rows| == |w.rows| && |w.log| <= |w'.log| && w'.log[..|w.log|] == w.log
            && OnlyAbout(w'.log, |w.log|, id)
            && w'.rows[id] == (if a.updated && (Closing(m) ==> a.published) then m else w.rows[id])
            && (PublishedSince(w'.log, |w.log|, id, m.entryId) <==> Closing(m) && a.published)
  {
    hide Closing;
    var w' := Settle(w, id, m, a);
    if Closing(m) && a.published {
      assert w'.log[|w.log|] == Published(id, m.entryId);
    }
  }

  lemma AnsweredRowSynced(w: World, id: Id, a: Answer, m: Row)
    requires id < |w.rows| && Answered(w.rows[id], a) && Patched(w.rows[id], a.snapshot.value, a.now, m)
    ensures RowSynced(w, id, a, Settle(w, id, m, a))
  {
    PatchedCloses(w.rows[id], a.snapshot.value, a.now, m);
    SettleExactly(w, id, m, a);
    hide Patched, SaysFilled, Closing, Settle, PublishedSince, OnlyAbout, Answered;
  }

  lemma UnansweredRowSynced(w: World, id: Id, a: Answer)
    requires id < |w.rows| && !Answered(w.rows[id], a)
    ensures RowSynced(w, id, a, w)
  {
    hide Patched, SaysFilled, Answered;
  }

  lemma SyncRowExactly(w: World, id: Id, a: Answer)
    requires id < |w.rows|
    ensures RowSynced(w, id, a, SyncRow(w, id, a))
  {
    hide Mapped, Patched, Settle, RowSynced;
    var r := w.rows[id];
    if r.exchangeKnown && a.snapshot.Some? {
      MappedExactly(r, a.snapshot.value, a.now);
    }
    if Answered(r, a) {
      AnsweredRowSynced(w, id, a, Mapped(r, a.snapshot.value, a.now).value);
    } else {
      UnansweredRowSynced(w, id, a);
    }
  }

  lemma PatchedCloses(r: Row, resp: Snapshot, now: int, r': Row)
    requires resp.executedQty.Some? && (resp.executedQty.value > 0.0 ==> resp.quoteQty.Some?)
    requires Patched(r, resp, now, r')
    ensures (Closing(r') <==> r.manualClose && SaysFilled(resp)) && r'.entryId == r.entryId
  {
    hide Trim, Upper, ValueOf, Times;
  }

  /** The pass gets as far as the row: it is pending, and no pending row from it to the newest cancels the pass. */
  ghost predicate Visited(w: World, p: PassAnswers, id: Id)
    requires id < |w.rows|
  {
    && !p.cancelled && p.loaded && IsPending(w.rows[id])
    && forall j :: id <= j < |w.rows| && IsPending(w.rows[j]) ==> !p.answer(j).cancelled
  }

  ghost predicate Untouched(w: World, id: Id, w': World)
    requires id < |w.rows|
  {
    && |w'.rows| == |w.rows| && |w.log| <= |w'.log| && w'.log[..|w.log|] == w.log && w'.rows[id] == w.rows[id]
    && forall k :: |w.log| <= k < |w'.log| ==> w'.log[k].id != id
  }

  lemma OthersUntouched(w: World, id: Id, a: Answer, other: Id)
    requires id < |w.rows| && other < |w.rows| && other != id
    ensures Untouched(w, other, SyncRow(w, id, a))
  {
    SyncRowExactly(w, id, a);
    SyncTouchesOneRow(w, id, a);
    hide SyncRow, Written, Patched, PublishedSince, Answered;
  }

  lemma UntouchedOn(w: World, id: Id, w1: World, w2: World)
    requires id < |w.rows| && Untouched(w, id, w1) && Untouched(w1, id, w2)
    ensures Untouched(w, id, w2)
  {
    assert w2.log[..|w.log|] == w1.log[..|w.log|];
    forall k | |w.log| <= k < |w2.log| ensures w2.log[k].id != id {
      if k < |w1.log| {
        assert w2.log[k] == w2.log[..|w1.log|][k];
      }
    }
  }

  lemma {:induction false} RestUntouched(w: World, ids: seq<Id>, answer: Id -> Answer, k: nat, id: Id)
    requires k <= |ids| && IdsIn(ids, w.rows) && id < |w.rows|
    requires forall j :: k <= j < |ids| && !answer(ids[j]).cancelled ==> ids[j] != id
    ensures Untouched(w, id, SyncFrom(w, ids, answer, k))
    decreases |ids| - k
  {
    hide SyncRow;
    if k < |ids| && !answer(ids[k]).cancelled {
      var next := SyncRow(w, ids[k], answer(ids[k]));
      SyncTouchesOneRow(w, ids[k], answer(ids[k]));
      OthersUntouched(w, ids[k], answer(ids[k]), id);
      RestUntouched(next, ids, answer, k + 1, id);
      UntouchedOn(w, id, next, SyncFrom(next, ids, answer, k + 1));
    }
  }

  /** A row keeps what its own turn did to it, whatever comes before and after. */
  lemma SyncedBetween(w: World, id: Id, a: Answer, w1: World, w2: World, w3: World)
    requires id < |w.rows| && Untouched(w, id, w1) && RowSynced(w1, id, a, w2) && Untouched(w2, id, w3)
    ensures |w3.rows| == |w.rows| && |w.log| <= |w3.log| && w3.log[..|w.log|] == w.log
    ensures if Written(w.rows[id], a) then Patched(w.rows[id], a.snapshot.value, a.now, w3.rows[id])
            else w3.rows[id] == w.rows[id]
    ensures PublishedSince(w3.log, |w.log|, id, w.rows[id].entryId)
            <==> Answered(w.rows[id], a) && Due(w.rows[id], a) && a.published
  {
    hide Written, Patched, Answered, Due;
    assert w3.log[..|w1.log|] == w2.log[..|w1.log|];
    assert w3.log[..|w.log|] == w1.log[..|w.log|];
    assert forall k :: 0 <= k < |w1.log| ==> w3.log[k] == w3.log[..|w1.log|][k] == w1.log[k];
    var e := w.rows[id].entryId;
    if PublishedSince(w2.log, |w1.log|, id, e) {
      SinceLater(w2.log, w3.log, |w1.log|, |w.log|, id, e);
    }
    if PublishedSince(w3.log, |w.log|, id, e) {
      var k :| |w.log| <= k < |w3.log| && w3.log[k] == Published(id, e);
      assert k < |w2.log| ==> w3.log[k] == w3.log[..|w2.log|][k];
      assert w2.log[k] == Published(id, e);
    }
  }

  lemma {:induction false} SyncFromExactly(w: World, ids: seq<Id>, answer: Id -> Answer, k: nat, m: nat)
    requires k <= m < |ids| && IdsIn(ids, w.rows) && Descending(ids)
    requires forall j :: k <= j <= m ==> !answer(ids[j]).cancelled
    ensures exists w1: World, w2: World :: Untouched(w, ids[m], w1) && RowSynced(w1, ids[m], answer(ids[m]), w2)
                                         && Untouched(w2, ids[m], SyncFrom(w, ids, answer, k))
    decreases |ids| - k
  {
    hide SyncRow, Written, Patched, PublishedSince, Answered, Due, OnlyAbout;
    var id, next := ids[m], SyncRow(w, ids[k], answer(ids[k]));
    SyncTouchesOneRow(w, ids[k], answer(ids[k]));
    if k == m {
      SyncRowExactly(w, id, answer(id));
      RestUntouched(next, ids, answer, k + 1, id);
      assert Untouched(w, id, w) && RowSynced(w, id, answer(id), next);
    } else {
      OthersUntouched(w, ids[k], answer(ids[k]), id);
      SyncFromExactly(next, ids, answer, k + 1, m);
      var w1: World, w2: World :| Untouched(next, id, w1) && RowSynced(w1, id, answer(id), w2)
                                  && Untouched(w2, id, SyncFrom(next, ids, answer, k + 1));
      UntouchedOn(w, id, next, w1);
    }
  }

  /** A whole pass, row by row: a row changes if and only if the pass visits it, the answer can be read, its close, if
      due, was taken by the bus, and the update went through; it then holds exactly what the exchange said. Its close
      was announced in the pass if and only if it was visited, answered FILLED as a manual close, and the bus took it.
      */
  lemma PassExactly(w: World, p: PassAnswers, id: Id)
    requires id < |w.rows|
    ensures var w', r, a := Pass(w, p), w.rows[id], p.answer(id);
            && |w'.rows| == |w.rows| && |w.log| <= |w'.log| && w'.log[..|w.log|] == w.log
            && (if Visited(w, p, id) && Written(r, a) then Patched(r, a.snapshot.value, a.now, w'.rows[id])
                else w'.rows[id] == r)
            && (PublishedSince(w'.log, |w.log|, id, r.entryId)
                <==> Visited(w, p, id) && Answered(r, a) && Due(r, a) && a.published)
  {
    hide Written, Patched, Answered, Due, IsPending, SyncRow;
    if !p.cancelled && p.loaded {
      var ids := PendingAmong(w.rows, |w.rows|);
      PendingAmongFacts(w.rows, |w.rows|);
      hide PendingAmong;
      if Visited(w, p, id) {
        var m :| 0 <= m < |ids| && ids[m] == id;
        SyncFromExactly(w, ids, p.answer, 0, m);
        var w1: World, w2: World :| Untouched(w, id, w1) && RowSynced(w1, id, p.answer(id), w2)
                                    && Untouched(w2, id, SyncFrom(w, ids, p.answer, 0));
        SyncedBetween(w, id, p.answer(id), w1, w2, SyncFrom(w, ids, p.answer, 0));
      } else {
        NotVisited(w, p, ids, id);
      }
    }
  }

  lemma NotVisited(w: World, p: PassAnswers, ids: seq<Id>, id: Id)
    requires id < |w.rows| && !Visited(w, p, id) && !p.cancelled && p.loaded && Descending(ids) && IdsIn(ids, w.rows)
    requires forall k :: 0 <= k < |ids| ==> IsPending(w.rows[ids[k]])
    requires forall j :: 0 <= j < |w.rows| && IsPending(w.rows[j]) ==> j in ids
    ensures Untouched(w, id, SyncFrom(w, ids, p.answer, 0))
  {
    hide IsPending, SyncRow;
    if id in ids {
      var m :| 0 <= m < |ids| && ids[m] == id;
      var j :| id <= j < |w.rows| && IsPending(w.rows[j]) && p.answer(j).cancelled;
      var c :| 0 <= c < |ids| && ids[c] == j;
      StopsAt(w, ids, p.answer, 0, c, id, m);
    } else {
      RestUntouched(w, ids, p.answer, 0, id);
    }
  }

  lemma {:induction false} StopsAt(w: World, ids: seq<Id>, answer: Id -> Answer, k: nat, c: nat, id: Id, m: nat)
    requires k <= c <= m < |ids| && IdsIn(ids, w.rows) && Descending(ids) && ids[m] == id && answer(ids[c]).cancelled
    ensures Untouched(w, id, SyncFrom(w, ids, answer, k))
    decreases |ids| - k
  {
    hide SyncRow;
    if !answer(ids[k]).cancelled {
      var next := SyncRow(w, ids[k], answer(ids[k]));
      SyncTouchesOneRow(w, ids[k], answer(ids[k]));
      OthersUntouched(w, ids[k], answer(ids[k]), id);
      StopsAt(next, ids, answer, k + 1, c, id, m);
      UntouchedOn(w, id, next, SyncFrom(next, ids, answer, k + 1));
    }
  }

  // ---------------------------------------------------------------- Whole runs

  /** Between passes the order engine may insert rows. */
  datatype Action = SyncPass(answers: PassAnswers) | Insert(row: Row)

  function Do(w: World, a: Action): World {
    match a
    case SyncPass(p) => Pass(w, p)
    case Insert(r) => w.(rows := w.rows + [r])
  }

  ghost predicate IsRun(worlds: seq<World>, acts: seq<Action>) {
    && |worlds| == |acts| + 1 && worlds[0].log == []
    && forall i :: 0 <= i < |acts| ==> worlds[i + 1] == Do(worlds[i], acts[i])
  }

  lemma DoEvolves(w: World, a: Action)
    requires PublishedFirst(w.log)
    ensures Evolves(w, Do(w, a)) && PublishedFirst(Do(w, a).log)
  {
    match a {
      case SyncPass(p) => PassEvolves(w, p);
      case Insert(_) =>
        hide PublishedFirst;
    }
  }

  lemma {:induction false} RunPublishesFirst(worlds: seq<World>, acts: seq<Action>, n: nat)
    requires IsRun(worlds, acts) && n <= |acts|
    ensures PublishedFirst(worlds[n].log)
    decreases n
  {
    if n > 0 {
      hide PublishedFirst, Do, Evolves;
      RunPublishesFirst(worlds, acts, n - 1);
      DoEvolves(worlds[n - 1], acts[n - 1]);
    }
  }

  /** The sync worker over any sequence of passes, answers and failures, from any table: a row that is not NEW or
      PARTIAL is never changed again; the fill time, the exchange's creation time, the client order id and a non-blank
      order id are write-once; and a manual close that turned FILLED was announced since, always before it was
      written. */
  lemma {:induction false} SyncIsSafe(worlds: seq<World>, acts: seq<Action>, i: nat, j: nat)
    requires IsRun(worlds, acts) && i <= j <= |acts|
    ensures Evolves(worlds[i], worlds[j]) && PublishedFirst(worlds[j].log)
    decreases j
  {
    EvolvesSelf(worlds[i]);
    hide PublishedFirst, Do, Evolves;
    RunPublishesFirst(worlds, acts, j);
    if i < j {
      SyncIsSafe(worlds, acts, i, j - 1);
      DoEvolves(worlds[j - 1], acts[j - 1]);
      EvolvesOn(worlds[i], worlds[j - 1], worlds[j]);
    }
  }
}
