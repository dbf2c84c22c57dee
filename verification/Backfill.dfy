/** The paged kline backfill: fetch a page, store its candles, continue after the last of them. */
module Backfill {
  import opened Indicators

  const BATCH_LIMIT := 1000

  datatype Kline = Kline(openTime: int, open: real, high: real, low: real, close: real, volume: real)

  /** The stored candles of one series, keyed by open time. */
  type Table = map<int, Kline>

  // ---------------------------------------------------------------- The exchange

  ghost predicate Ascending(ks: seq<Kline>) {
    forall i, j :: 0 <= i < j < |ks| ==> ks[i].openTime < ks[j].openTime
  }

  predicate Opens(k: Kline, from: int, to: int) { from <= k.openTime < to }

  /** The candles that open in [from, to). */
  function InRange(ks: seq<Kline>, from: int, to: int): seq<Kline> {
    if ks == [] then []
    else if Opens(ks[0], from, to) then [ks[0]] + InRange(ks[1..], from, to)
    else InRange(ks[1..], from, to)
  }

  lemma {:induction false} RangeMembers(ks: seq<Kline>, from: int, to: int)
    ensures forall k :: k in InRange(ks, from, to) <==> k in ks && Opens(k, from, to)
  {
    if ks != [] {
      RangeMembers(ks[1..], from, to);
      assert ks == [ks[0]] + ks[1..];
    }
  }

  /** A page: the first candles of the range, at most a batch. */
  function Page(market: seq<Kline>, from: int, to: int): seq<Kline> {
    var all := InRange(market, from, to);
    if |all| <= BATCH_LIMIT then all else all[..BATCH_LIMIT]
  }

  lemma NothingAfterEnd(market: seq<Kline>, from: int, to: int)
    ensures from >= to ==> InRange(market, from, to) == []
  {
    var all := InRange(market, from, to);
    RangeMembers(market, from, to);
    if all != [] {
      assert all[0] in all;
    }
  }

  lemma PageFacts(market: seq<Kline>, from: int, to: int)
    ensures var page, all := Page(market, from, to), InRange(market, from, to);
            && |page| <= |all| && page == all[..|page|] && |page| <= BATCH_LIMIT
            && (|page| < BATCH_LIMIT ==> page == all)
            && (page != [] ==> Opens(page[|page| - 1], from, to))
  {
    var page, all := Page(market, from, to), InRange(market, from, to);
    RangeMembers(market, from, to);
    if page != [] {
      assert page[|page| - 1] == all[|page| - 1];
      assert all[|page| - 1] in all;
    }
  }

  lemma {:induction false} RangeAscends(ks: seq<Kline>, from: int, to: int)
    requires Ascending(ks)
    ensures Ascending(InRange(ks, from, to))
  {
    if ks != [] {
      RangeAscends(ks[1..], from, to);
      RangeMembers(ks[1..], from, to);
      if Opens(ks[0], from, to) {
        var r, rest := InRange(ks, from, to), InRange(ks[1..], from, to);
        forall i, j | 0 <= i < j < |r| ensures r[i].openTime < r[j].openTime {
          assert r[j] == rest[j - 1];
          if i == 0 {
            assert rest[j - 1] in ks[1..];
          } else {
            assert r[i] == rest[i - 1];
          }
        }
      }
    }
  }

  lemma {:induction false} RangeWithinRange(ks: seq<Kline>, from: int, later: int, to: int)
    requires from <= later
    ensures InRange(InRange(ks, from, to), later, to) == InRange(ks, later, to)
  {
    if ks != [] {
      RangeWithinRange(ks[1..], from, later, to);
      if Opens(ks[0], from, to) {
        assert InRange(ks, from, to)[1..] == InRange(ks[1..], from, to);
      }
    }
  }

  lemma {:induction false} RangeIsSuffix(ks: seq<Kline>, k: nat, later: int, to: int)
    requires k <= |ks|
    requires forall i :: 0 <= i < k ==> ks[i].openTime < later
    requires forall i :: k <= i < |ks| ==> Opens(ks[i], later, to)
    ensures InRange(ks, later, to) == ks[k..]
    decreases |ks|
  {
    if ks != [] {
      if k == 0 {
        RangeIsSuffix(ks[1..], 0, later, to);
      } else {
        RangeIsSuffix(ks[1..], k - 1, later, to);
      }
    }
  }

  /** Restarting just after the k-th wanted candle finds exactly the rest. */
  lemma NextPageStarts(market: seq<Kline>, from: int, to: int, k: nat)
    requires Ascending(market) && 0 < k <= |InRange(market, from, to)|
    ensures var wanted := InRange(market, from, to);
            InRange(market, wanted[k - 1].openTime + 1, to) == wanted[k..]
  {
    var wanted := InRange(market, from, to);
    var later := wanted[k - 1].openTime + 1;
    RangeAscends(market, from, to);
    RangeMembers(market, from, to);
    assert wanted[k - 1] in wanted;
    RangeWithinRange(market, from, later, to);
    forall i | k <= i < |wanted| ensures Opens(wanted[i], later, to) {
      assert wanted[i] in wanted;
    }
    RangeIsSuffix(wanted, k, later, to);
  }

  // ---------------------------------------------------------------- The store

  function Stored(t: Table, ks: seq<Kline>): Table {
    if ks == [] then t else Stored(t, Front(ks))[Last(ks).openTime := Last(ks)]
  }

  /** Storing ascending candles puts each of them under its key and touches no other key. */
  lemma {:induction false} StoredExactly(t: Table, ks: seq<Kline>)
    requires Ascending(ks)
    ensures forall i :: 0 <= i < |ks| ==> ks[i].openTime in Stored(t, ks) && Stored(t, ks)[ks[i].openTime] == ks[i]
    ensures forall o :: (forall i :: 0 <= i < |ks| ==> ks[i].openTime != o) ==>
              ((o in Stored(t, ks) <==> o in t) && (o in t ==> Stored(t, ks)[o] == t[o]))
  {
    if ks != [] {
      var front := Front(ks);
      StoredExactly(t, front);
      forall i | 0 <= i < |ks|
        ensures ks[i].openTime in Stored(t, ks) && Stored(t, ks)[ks[i].openTime] == ks[i]
      {
        if i < |front| {
          assert front[i] == ks[i];
        }
      }
      forall o | forall i :: 0 <= i < |ks| ==> ks[i].openTime != o
        ensures o in Stored(t, ks) <==> o in t
        ensures o in t ==> Stored(t, ks)[o] == t[o]
      {
        assert ks[|ks| - 1].openTime != o;
        assert forall i :: 0 <= i < |front| ==> front[i] == ks[i];
      }
    }
  }

  /** A second backfill of the same candles leaves the table as it is. */
  lemma StoringTwice(t: Table, ks: seq<Kline>)
    requires Ascending(ks)
    ensures Stored(Stored(t, ks), ks) == Stored(t, ks)
  {
    var once := Stored(t, ks);
    var twice := Stored(once, ks);
    StoredExactly(t, ks);
    StoredExactly(once, ks);
    hide Stored;
    forall o | o in twice || o in once ensures o in twice && o in once && twice[o] == once[o] {
      if i :| 0 <= i < |ks| && ks[i].openTime == o {
      } else {
      }
    }
  }

  /** What a complete backfill leaves behind: every candle of the market that opens in the range is in the table under
      its open time, every other key is as it was, and doing it again changes nothing. */
  lemma BackfillComplete(t: Table, market: seq<Kline>, from: int, to: int)
    requires Ascending(market)
    ensures var done := Stored(t, InRange(market, from, to));
            && (forall k :: k in market && Opens(k, from, to) ==> k.openTime in done && done[k.openTime] == k)
            && (forall o :: (forall k :: k in market && Opens(k, from, to) ==> k.openTime != o) ==>
                  ((o in done <==> o in t) && (o in t ==> done[o] == t[o])))
            && Stored(done, InRange(market, from, to)) == done
  {
    var wanted := InRange(market, from, to);
    var done := Stored(t, wanted);
    RangeAscends(market, from, to);
    RangeMembers(market, from, to);
    StoredExactly(t, wanted);
    StoringTwice(t, wanted);
    hide Stored, InRange, Ascending;
    forall k | k in market && Opens(k, from, to) ensures k.openTime in done && done[k.openTime] == k {
      assert k in wanted;
      var i :| 0 <= i < |wanted| && wanted[i] == k;
    }
    forall o | forall k :: k in market && Opens(k, from, to) ==> k.openTime != o
      ensures o in done <==> o in t
      ensures o in t ==> done[o] == t[o]
    {
      forall i | 0 <= i < |wanted| ensures wanted[i].openTime != o {
        assert wanted[i] in wanted;
      }
    }
  }

  // ---------------------------------------------------------------- The loop

  class MarketKlines {
    var rows: Table

    constructor ()
      ensures rows == map[]
    {
      rows := map[];
    }

    method Create(k: Kline)
      modifies this
      ensures rows == old(rows)[k.openTime := k]
    {
      rows := rows[k.openTime := k];
    }

    /** The exchange answers with pages of an ascending market; any fetch and any insert may fail. The candles stored
        are the first `inserted` of those wanted, in order, and all of them if nothing failed. */
    method BackfillMarketKlines(market: seq<Kline>, startMs: int, endMs: int, fetchOk: int -> bool,
                                createOk: Kline -> bool)
      returns (inserted: nat, ok: bool)
      requires Ascending(market)
      modifies this
      ensures var wanted := InRange(market, startMs, endMs);
              && inserted <= |wanted| && rows == Stored(old(rows), wanted[..inserted])
              && (ok ==> inserted == |wanted|)
      ensures startMs <= 0 || endMs <= startMs ==> !ok && inserted == 0
      ensures 0 < startMs < endMs && (forall t :: fetchOk(t)) && (forall k :: createOk(k)) ==> ok
    {
      inserted := 0;
      ghost var wanted := InRange(market, startMs, endMs);
      RangeAscends(market, startMs, endMs);
      assert wanted[..0] == [] && rows == Stored(rows, []) && wanted[0..] == wanted;
      hide Page, Stored, Ascending, InRange;
      if startMs <= 0 || endMs <= 0 || endMs <= startMs {
        return 0, false;
      }
      var nextStartMs, more := startMs, true;
      while more && nextStartMs < endMs
        invariant startMs <= nextStartMs <= endMs && inserted <= |wanted|
        invariant more ==> InRange(market, nextStartMs, endMs) == wanted[inserted..]
        invariant rows == Stored(old(rows), wanted[..inserted])
        invariant !more ==> inserted == |wanted|
        decreases more, endMs - nextStartMs
      {
        var lastOpenTime;
        inserted, lastOpenTime, more, ok :=
          NextBatch(market, nextStartMs, startMs, endMs, inserted, fetchOk, createOk, old(rows), wanted);
        if !ok {
          return;
        }
        if more {
          nextStartMs := lastOpenTime + 1;
        }
      }
      NothingAfterEnd(market, nextStartMs, endMs);
      ok := true;
    }

    /** One turn of the paging loop; `more` is false where the loop breaks. */
    method NextBatch(market: seq<Kline>, nextStartMs: int, startMs: int, endMs: int, count: nat, fetchOk: int -> bool,
                     createOk: Kline -> bool, ghost was: Table, ghost wanted: seq<Kline>)
      returns (inserted: nat, lastOpenTime: int, more: bool, ok: bool)
      requires 0 < startMs <= nextStartMs < endMs && count <= |wanted| && Ascending(market) && Ascending(wanted)
      requires wanted == InRange(market, startMs, endMs) && InRange(market, nextStartMs, endMs) == wanted[count..]
      requires rows == Stored(was, wanted[..count])
      modifies this
      ensures inserted <= |wanted| && rows == Stored(was, wanted[..inserted])
      ensures ok && more ==> nextStartMs <= lastOpenTime < endMs
      ensures ok && more ==> InRange(market, lastOpenTime + 1, endMs) == wanted[inserted..]
      ensures ok && !more ==> inserted == |wanted|
      ensures fetchOk(nextStartMs) && (forall k :: createOk(k)) ==> ok
    {
      hide Stored, Ascending, InRange, Page;
      inserted, lastOpenTime, more, ok := count, 0, false, true;
      if !fetchOk(nextStartMs) {
        ok := false;
        return;
      }
      var page := Page(market, nextStartMs, endMs);
      PageFacts(market, nextStartMs, endMs);
      if |page| == 0 {
        return;
      }
      RangeMembers(market, startMs, endMs);
      inserted, lastOpenTime, ok := StorePage(page, count, startMs, endMs, createOk, was, wanted);
      if !ok || |page| < BATCH_LIMIT || lastOpenTime <= 0 {
        return;
      }
      NextPageStarts(market, startMs, endMs, inserted);
      assert page[|page| - 1] == wanted[inserted - 1];
      more := true;
    }

    /** The inner loop over the candles of one page. */
    method StorePage(page: seq<Kline>, count: nat, startMs: int, endMs: int, createOk: Kline -> bool,
                     ghost was: Table, ghost wanted: seq<Kline>)
      returns (inserted: nat, lastOpenTime: int, ok: bool)
      requires 0 < startMs < endMs && page != [] && count + |page| <= |wanted|
      requires wanted[count..][..|page|] == page && Ascending(wanted)
      requires forall k :: k in wanted ==> Opens(k, startMs, endMs)
      requires rows == Stored(was, wanted[..count])
      modifies this
      ensures count <= inserted <= |wanted| && rows == Stored(was, wanted[..inserted])
      ensures ok ==> inserted == count + |page| && lastOpenTime == page[|page| - 1].openTime
      ensures (forall k :: createOk(k)) ==> ok
    {
      inserted, lastOpenTime := count, 0;
      var i := 0;
      while i < |page|
        invariant 0 <= i <= |page| && inserted == count + i
        invariant lastOpenTime == if i == 0 then 0 else page[i - 1].openTime
        invariant rows == Stored(was, wanted[..inserted])
      {
        var kline := page[i];
        assert kline == wanted[inserted] && kline in wanted;
        if !createOk(kline) {
          return inserted, lastOpenTime, false;
        }
        if kline.openTime >= endMs || kline.openTime < startMs {
          assert false;
        } else {
          Create(kline);
          assert wanted[..inserted + 1] == wanted[..inserted] + [kline];
          assert Front(wanted[..inserted + 1]) == wanted[..inserted];
          inserted := inserted + 1;
          if kline.openTime > lastOpenTime {
            lastOpenTime := kline.openTime;
          }
        }
        i := i + 1;
      }
      ok := true;
    }
  }
}
