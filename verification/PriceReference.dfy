/** The last price of every market, kept by an upsert that an older event cannot overwrite. */
module PriceReference {
  import opened Indicators

  /** Exchange, market type and symbol together. */
  type Market = nat

  datatype Kline = Kline(market: Market, closePrice: real, eventTime: int)

  datatype Reference = Reference(price: real, eventTime: int)

  type Table = map<Market, Reference>

  function Upserted(t: Table, k: Kline): Table {
    if k.market in t && t[k.market].eventTime > k.eventTime then t
    else t[k.market := Reference(k.closePrice, k.eventTime)]
  }

  class PriceReferenceRepository {
    var rows: Table

    constructor ()
      ensures rows == map[]
    {
      rows := map[];
    }

    method UpsertKline(k: Kline)
      modifies this
      ensures rows == Upserted(old(rows), k)
    {
      if k.market !in rows {
        rows := rows[k.market := Reference(k.closePrice, k.eventTime)];
      } else if rows[k.market].eventTime <= k.eventTime {
        rows := rows[k.market := Reference(k.closePrice, k.eventTime)];
      }
    }
  }

  function After(ks: seq<Kline>): Table {
    if ks == [] then map[] else Upserted(After(Front(ks)), Last(ks))
  }

  /** Delivery i is the last of those that carry the greatest event time of its market. */
  ghost predicate IsLatest(ks: seq<Kline>, i: nat)
    requires i < |ks|
  {
    forall j :: 0 <= j < |ks| && ks[j].market == ks[i].market ==>
      ks[j].eventTime < ks[i].eventTime || (ks[j].eventTime == ks[i].eventTime && j <= i)
  }

  ghost predicate IsRowOf(ks: seq<Kline>, i: nat, t: Table, m: Market) {
    && i < |ks| && ks[i].market == m && IsLatest(ks, i)
    && m in t && t[m] == Reference(ks[i].closePrice, ks[i].eventTime)
  }

  /** After any deliveries, reordered and repeated as they may be: a market has a row exactly if it was delivered, and
      that row holds the greatest event time delivered and the price of the last delivery that carried it. */
  lemma {:induction false} LatestWins(ks: seq<Kline>, m: Market)
    ensures m in After(ks) <==> exists j :: 0 <= j < |ks| && ks[j].market == m
    ensures m in After(ks) ==> exists i: nat :: IsRowOf(ks, i, After(ks), m)
  {
    if ks != [] {
      var front, last := Front(ks), Last(ks);
      LatestWins(front, m);
      if last.market == m {
        assert ks[|ks| - 1].market == m;
        if m in After(front) && After(front)[m].eventTime > last.eventTime {
          var i: nat :| IsRowOf(front, i, After(front), m);
          RowStays(ks, i, m);
        } else {
          NewestRow(ks, m);
        }
      } else if m in After(front) {
        var i: nat :| IsRowOf(front, i, After(front), m);
        RowStays(ks, i, m);
      }
      if exists j :: 0 <= j < |front| && front[j].market == m {
        var j :| 0 <= j < |front| && front[j].market == m;
        assert ks[j].market == m;
      }
    }
  }

  lemma RowStays(ks: seq<Kline>, i: nat, m: Market)
    requires ks != [] && IsRowOf(Front(ks), i, After(Front(ks)), m)
    requires Last(ks).market == m ==> Last(ks).eventTime < ks[i].eventTime
    ensures IsRowOf(ks, i, After(ks), m)
  {
    var front := Front(ks);
    assert After(ks) == Upserted(After(front), Last(ks)) && front[i] == ks[i];
    assert m in After(ks) && After(ks)[m] == After(front)[m];
    hide After, Upserted;
    forall j | 0 <= j < |ks| && ks[j].market == ks[i].market
      ensures ks[j].eventTime < ks[i].eventTime || (ks[j].eventTime == ks[i].eventTime && j <= i)
    {
      if j < |front| {
        assert front[j] == ks[j];
      }
    }
  }

  lemma NewestRow(ks: seq<Kline>, m: Market)
    requires ks != [] && Last(ks).market == m
    requires m in After(Front(ks)) ==>
               && After(Front(ks))[m].eventTime <= Last(ks).eventTime
               && exists i: nat :: IsRowOf(Front(ks), i, After(Front(ks)), m)
    requires m in After(Front(ks)) <==> exists j :: 0 <= j < |Front(ks)| && Front(ks)[j].market == m
    ensures IsRowOf(ks, |ks| - 1, After(ks), m)
  {
    var front := Front(ks);
    forall j | 0 <= j < |front| && ks[j].market == m ensures ks[j].eventTime <= Last(ks).eventTime {
      assert front[j].market == m;
      var i: nat :| IsRowOf(front, i, After(front), m);
      assert front[j].eventTime <= front[i].eventTime;
    }
  }

  /** Does delivery i carry the greatest event time of its market? */
  ghost predicate IsTop(ks: seq<Kline>, i: nat)
    requires i < |ks|
  {
    forall j :: 0 <= j < |ks| && ks[j].market == ks[i].market ==> ks[j].eventTime <= ks[i].eventTime
  }

  /** The events that carry a market's greatest event time agree in price; superseded events may say anything. */
  ghost predicate AgreeAtTop(ks: seq<Kline>) {
    forall i, j :: 0 <= i < |ks| && 0 <= j < |ks| && ks[i].market == ks[j].market && IsTop(ks, i) && IsTop(ks, j)
      ==> ks[i].closePrice == ks[j].closePrice
  }

  /** Every order of the same events leaves the same table. */
  ghost predicate Converges(a: seq<Kline>) {
    forall b: seq<Kline> {:trigger After(b)} :: multiset(b) == multiset(a) ==> After(b) == After(a)
  }

  lemma SameMembers(a: seq<Kline>, b: seq<Kline>, i: nat)
    requires multiset(a) == multiset(b) && i < |a|
    ensures exists j :: 0 <= j < |b| && b[j] == a[i]
  {
    assert a[i] in multiset(a);
    assert a[i] in b;
  }

  lemma SameMarkets(a: seq<Kline>, b: seq<Kline>, m: Market)
    requires multiset(a) == multiset(b) && m in After(a)
    ensures m in After(b)
  {
    LatestWins(a, m);
    LatestWins(b, m);
    var i :| 0 <= i < |a| && a[i].market == m;
    SameMembers(a, b, i);
  }

  lemma SameRow(a: seq<Kline>, b: seq<Kline>, m: Market)
    requires multiset(a) == multiset(b) && AgreeAtTop(a) && m in After(a)
    ensures m in After(b) && After(b)[m] == After(a)[m]
  {
    LatestWins(a, m);
    LatestWins(b, m);
    SameMarkets(a, b, m);
    var i: nat :| IsRowOf(a, i, After(a), m);
    SameMembers(a, b, i);
    var i' :| 0 <= i' < |b| && b[i'] == a[i];
    var j: nat :| IsRowOf(b, j, After(b), m);
    SameMembers(b, a, j);
    var j' :| 0 <= j' < |a| && a[j'] == b[j];
    assert b[i'].eventTime <= b[j].eventTime && a[j'].eventTime <= a[i].eventTime;
    assert IsTop(a, i) && IsTop(a, j');
  }

  /** Convergence: two deliveries of the same events in any two orders leave the same table. */
  lemma OrderDoesNotMatter(a: seq<Kline>, b: seq<Kline>)
    requires multiset(a) == multiset(b) && AgreeAtTop(a)
    ensures After(a) == After(b)
  {
    forall m | m in After(a) ensures m in After(b) && After(b)[m] == After(a)[m] {
      SameRow(a, b, m);
    }
    forall m | m in After(b) ensures m in After(a) {
      SameMarkets(b, a, m);
    }
  }

  function Delayed(a: seq<Kline>, i: nat): seq<Kline>
    requires i < |a|
  {
    a[..i] + a[i + 1..] + [a[i]]
  }

  /** An event with the greatest event time decides the row if it is delivered last. */
  lemma DelayedWins(a: seq<Kline>, i: nat)
    requires i < |a| && IsTop(a, i)
    ensures multiset(Delayed(a, i)) == multiset(a)
    ensures var t := After(Delayed(a, i)); a[i].market in t && t[a[i].market].price == a[i].closePrice
  {
    var b, m := Delayed(a, i), a[i].market;
    assert a == a[..i] + [a[i]] + a[i + 1..];
    assert b[|a| - 1] == a[i];
    LatestWins(b, m);
    var k: nat :| IsRowOf(b, k, After(b), m);
    SameMembers(b, a, k);
  }

  /** Exactly when the order of delivery does not matter, for every sequence of events: when those that carry a
      market's greatest event time agree in price. */
  lemma ConvergesExactly(a: seq<Kline>)
    ensures Converges(a) <==> AgreeAtTop(a)
  {
    if AgreeAtTop(a) {
      forall b: seq<Kline> | multiset(b) == multiset(a) ensures After(b) == After(a) {
        OrderDoesNotMatter(a, b);
      }
    }
    if Converges(a) {
      forall i, j | 0 <= i < |a| && 0 <= j < |a| && a[i].market == a[j].market && IsTop(a, i) && IsTop(a, j)
        ensures a[i].closePrice == a[j].closePrice
      {
        DelayedWins(a, i);
        DelayedWins(a, j);
        assert After(Delayed(a, i)) == After(a) == After(Delayed(a, j));
      }
    }
  }
}
