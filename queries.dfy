/** The read-only queries over the `prices` table: the history window, the
    latest price per store and product, and the summary counters. Each is
    stated as a function of the table's rows, in insertion order; ties that
    an `ORDER BY` leaves open keep that order. */
module Queries {
  import opened Prelude
  import opened Base
  import opened Rows
  import Text
  import Order

  // ------------------------------------------------------------ get_price_history

  /** The columns `get_price_history` selects. */
  datatype HistoryEntry = HistoryEntry(
    date: Date,
    store: string,
    productName: string,
    price: Option<real>,
    originalPrice: Option<real>,
    url: Option<string>,
    error: Option<string>)

  function HistoryOf(r: PriceRow): (h: HistoryEntry)
    ensures h.date == r.date && h.store == r.store && h.productName == r.productName
    ensures h.price == r.price && h.originalPrice == r.originalPrice && h.url == r.url && h.error == r.error
  {
    HistoryEntry(r.date, r.store, r.productName, r.price, r.originalPrice, r.url, r.error)
  }

  /** `date('now', '-<days> days')`: a negative count makes the modifier
      `--<n> days`, which SQLite rejects, so the bound is NULL. */
  function Cutoff(days: int, today: Date): (c: Option<Date>)
    ensures c.Some? <==> days >= 0
    ensures c.Some? ==> c.value <= today
  {
    if days < 0 then None else Some(today - days)
  }

  /** The WHERE clause: on or after the cutoff and, when a name is given,
      with the name inside the product name. */
  predicate InWindow(r: PriceRow, name: string, cutoff: Date)
  {
    r.date >= cutoff && (name == [] || Text.Contains(r.productName, name))
  }

  /** The matching rows, in table order. */
  function Window(rows: seq<PriceRow>, name: string, cutoff: Date): (w: seq<HistoryEntry>)
    ensures |w| <= |rows|
  {
    if rows == [] then []
    else (if InWindow(rows[0], name, cutoff) then [HistoryOf(rows[0])] else [])
         + Window(rows[1..], name, cutoff)
  }

  /** `ORDER BY date DESC, store`. */
  predicate HistoryLe(a: HistoryEntry, b: HistoryEntry)
  {
    a.date > b.date || (a.date == b.date && Order.StrLe(a.store, b.store))
  }

  function PriceHistory(rows: seq<PriceRow>, name: string, days: int, today: Date): seq<HistoryEntry>
  {
    match Cutoff(days, today)
    case None => []
    case Some(c) => Order.Sort(Window(rows, name, c), HistoryLe)
  }

  lemma {:induction false} WindowMembers(rows: seq<PriceRow>, name: string, cutoff: Date, h: HistoryEntry)
    ensures h in Window(rows, name, cutoff) <==>
            exists r :: r in rows && InWindow(r, name, cutoff) && h == HistoryOf(r)
  {
    if rows != [] {
      WindowMembers(rows[1..], name, cutoff, h);
      assert rows == [rows[0]] + rows[1..];
      assert forall r :: r in rows <==> r == rows[0] || r in rows[1..];
    }
  }

  /** Rows are never merged: the window of two batches is the two windows. */
  lemma {:induction false} WindowAppend(rows: seq<PriceRow>, more: seq<PriceRow>, name: string, cutoff: Date)
    ensures Window(rows + more, name, cutoff) == Window(rows, name, cutoff) + Window(more, name, cutoff)
  {
    if rows != [] {
      assert (rows + more)[1..] == rows[1..] + more;
      WindowAppend(rows[1..], more, name, cutoff);
    } else {
      assert rows + more == more;
    }
  }

  lemma HistoryOrderIsTotal()
    ensures Order.TotalPreorder(HistoryLe)
  {
    forall a, b ensures HistoryLe(a, b) || HistoryLe(b, a) {
      Order.StrLeTotal(a.store, b.store);
    }
    forall a, b, c | HistoryLe(a, b) && HistoryLe(b, c) ensures HistoryLe(a, c) {
      if a.date == b.date && b.date == c.date {
        Order.StrLeTransitive(a.store, b.store, c.store);
      }
    }
  }

  /** A valid day count sorts the window; a negative one gives nothing. */
  lemma PriceHistoryOfWindow(rows: seq<PriceRow>, name: string, days: int, today: Date)
    ensures days < 0 ==> PriceHistory(rows, name, days, today) == []
    ensures days >= 0 ==> PriceHistory(rows, name, days, today) == Order.Sort(Window(rows, name, today - days), HistoryLe)
  {
  }

  /** With a valid day count, the history is exactly the rows in the
      window, one entry per row, newest first and by store within a day. */
  lemma PriceHistoryMeaning(rows: seq<PriceRow>, name: string, days: int, today: Date, h: HistoryEntry)
    requires days >= 0
    ensures Order.Sorted(PriceHistory(rows, name, days, today), HistoryLe)
    ensures multiset(PriceHistory(rows, name, days, today)) == multiset(Window(rows, name, today - days))
    ensures h in PriceHistory(rows, name, days, today) <==>
              exists r :: r in rows && InWindow(r, name, today - days) && h == HistoryOf(r)
  {
    var w := Window(rows, name, today - days);
    PriceHistoryOfWindow(rows, name, days, today);
    HistoryOrderIsTotal();
    Order.SortSorted(w, HistoryLe);
    Order.SortMembers(w, HistoryLe, h);
    WindowMembers(rows, name, today - days, h);
  }

  /** No same-day deduplication: rows added later add as many entries as
      they match, whatever rows the table already held. */
  lemma HistoryGrowsWithRows(rows: seq<PriceRow>, more: seq<PriceRow>, name: string, days: int, today: Date)
    requires days >= 0
    ensures |PriceHistory(rows + more, name, days, today)|
            == |PriceHistory(rows, name, days, today)| + |Window(more, name, today - days)|
  {
    var c := today - days;
    PriceHistoryOfWindow(rows + more, name, days, today);
    PriceHistoryOfWindow(rows, name, days, today);
    WindowAppend(rows, more, name, c);
  }

  // ------------------------------------------------------------ get_latest_prices

  /** The columns `get_latest_prices` selects; the price is never NULL there. */
  datatype LatestEntry = LatestEntry(
    date: Date,
    store: string,
    productName: string,
    price: real,
    originalPrice: Option<real>,
    url: Option<string>)

  function LatestOf(r: PriceRow): (e: LatestEntry)
    requires r.price.Some?
    ensures e.date == r.date && e.store == r.store && e.productName == r.productName
    ensures e.price == r.price.value && e.originalPrice == r.originalPrice && e.url == r.url
  {
    LatestEntry(r.date, r.store, r.productName, r.price.value, r.originalPrice, r.url)
  }

  predicate SamePair(a: PriceRow, store: string, name: string)
  {
    a.store == store && a.productName == name
  }

  /** `MAX(date)` of the group `(store, product_name)`, over all its rows,
      priced or not; `None` for a group with no rows. */
  function MaxDateOf(rows: seq<PriceRow>, store: string, name: string): (d: Option<Date>)
    ensures d.None? <==> forall i :: 0 <= i < |rows| ==> !SamePair(rows[i], store, name)
    ensures d.Some? ==> forall i :: 0 <= i < |rows| && SamePair(rows[i], store, name) ==> rows[i].date <= d.value
  {
    if rows == [] then None
    else
      var rest := MaxDateOf(rows[1..], store, name);
      assert forall i :: 1 <= i < |rows| ==> rows[i] == rows[1..][i - 1];
      if !SamePair(rows[0], store, name) then rest
      else if rest.Some? && rest.value > rows[0].date then rest
      else Some(rows[0].date)
  }

  /** The join's condition and the WHERE clause on one row. */
  predicate IsLatestPriced(all: seq<PriceRow>, r: PriceRow)
  {
    r.price.Some? && MaxDateOf(all, r.store, r.productName) == Some(r.date)
  }

  /** The joined rows that survive `WHERE price IS NOT NULL`, in table order. */
  function Newest(all: seq<PriceRow>, rows: seq<PriceRow>): (n: seq<LatestEntry>)
    ensures |n| <= |rows|
  {
    if rows == [] then []
    else (if IsLatestPriced(all, rows[0]) then [LatestOf(rows[0])] else []) + Newest(all, rows[1..])
  }

  /** `ORDER BY product_name, price`. */
  predicate LatestLe(a: LatestEntry, b: LatestEntry)
  {
    Order.StrLt(a.productName, b.productName) || (a.productName == b.productName && a.price <= b.price)
  }

  function LatestPrices(rows: seq<PriceRow>): seq<LatestEntry>
  {
    Order.Sort(Newest(rows, rows), LatestLe)
  }

  lemma {:induction false} NewestMembers(all: seq<PriceRow>, rows: seq<PriceRow>, e: LatestEntry)
    ensures e in Newest(all, rows) <==> exists r :: r in rows && IsLatestPriced(all, r) && e == LatestOf(r)
  {
    if rows != [] {
      NewestMembers(all, rows[1..], e);
      assert rows == [rows[0]] + rows[1..];
      assert forall r :: r in rows <==> r == rows[0] || r in rows[1..];
    }
  }

  lemma LatestOrderIsTotal()
    ensures Order.TotalPreorder(LatestLe)
  {
    forall a, b ensures LatestLe(a, b) || LatestLe(b, a) {
      Order.StrLtTotal(a.productName, b.productName);
    }
    forall a, b, c | LatestLe(a, b) && LatestLe(b, c) ensures LatestLe(a, c) {
      if Order.StrLt(a.productName, b.productName) && Order.StrLt(b.productName, c.productName) {
        Order.StrLtTransitive(a.productName, b.productName, c.productName);
      }
    }
  }

  /** A priced row is reported exactly when no row of its store and
      product, priced or not, is dated later. */
  lemma LatestPricedIff(all: seq<PriceRow>, r: PriceRow)
    requires r in all
    ensures IsLatestPriced(all, r) <==>
              r.price.Some? && forall q :: q in all && SamePair(q, r.store, r.productName) ==> q.date <= r.date
  {
    var d := MaxDateOf(all, r.store, r.productName);
    var k :| 0 <= k < |all| && all[k] == r;
    assert d.Some?;
    if r.price.Some? && forall q :: q in all && SamePair(q, r.store, r.productName) ==> q.date <= r.date {
      MaxDateAttained(all, r.store, r.productName);
      var j :| 0 <= j < |all| && SamePair(all[j], r.store, r.productName) && all[j].date == d.value;
      assert all[j] in all;
    }
  }

  lemma {:induction false} MaxDateAttained(rows: seq<PriceRow>, store: string, name: string)
    requires MaxDateOf(rows, store, name).Some?
    ensures exists j :: 0 <= j < |rows| && SamePair(rows[j], store, name)
                        && rows[j].date == MaxDateOf(rows, store, name).value
  {
    var rest := MaxDateOf(rows[1..], store, name);
    if SamePair(rows[0], store, name) && !(rest.Some? && rest.value > rows[0].date) {
      assert SamePair(rows[0], store, name);
    } else {
      MaxDateAttained(rows[1..], store, name);
      var j :| 0 <= j < |rows[1..]| && SamePair(rows[1..][j], store, name) && rows[1..][j].date == rest.value;
      assert rows[j + 1] == rows[1..][j];
    }
  }

  /** The latest prices are the priced rows on their group's latest date
      (every such row, one entry each), ordered by product and price. */
  lemma LatestPricesMeaning(rows: seq<PriceRow>, e: LatestEntry)
    ensures Order.Sorted(LatestPrices(rows), LatestLe)
    ensures multiset(LatestPrices(rows)) == multiset(Newest(rows, rows))
    ensures e in LatestPrices(rows) <==>
              exists r :: r in rows && r.price.Some? && e == LatestOf(r)
                          && forall q :: q in rows && SamePair(q, r.store, r.productName) ==> q.date <= r.date
  {
    LatestOrderIsTotal();
    Order.SortSorted(Newest(rows, rows), LatestLe);
    Order.SortMembers(Newest(rows, rows), LatestLe, e);
    NewestMembers(rows, rows, e);
    forall r | r in rows {
      LatestPricedIff(rows, r);
    }
  }

  /** The maximum date is taken before NULL prices are dropped: when the
      newest rows of a store and product carry no price, that pair is
      missing from the result, older priced rows included. */
  lemma NullNewestHidesPair(rows: seq<PriceRow>, q: PriceRow, e: LatestEntry)
    requires q in rows
    requires forall r :: r in rows && SamePair(r, q.store, q.productName) ==> r.date < q.date || r.price.None?
    requires e in LatestPrices(rows)
    ensures !(e.store == q.store && e.productName == q.productName)
  {
    LatestPricesMeaning(rows, e);
  }

  // ------------------------------------------------------------ get_summary_stats

  datatype Summary = Summary(totalRecords: nat, totalProducts: nat, lastRun: Option<Date>, stores: seq<string>)

  /** `MAX(date)`: NULL on an empty table. */
  function LastRun(rows: seq<PriceRow>): (d: Option<Date>)
    ensures d.None? <==> rows == []
    ensures d.Some? ==> forall i :: 0 <= i < |rows| ==> rows[i].date <= d.value
    ensures d.Some? ==> exists i :: 0 <= i < |rows| && rows[i].date == d.value
  {
    if rows == [] then None
    else
      var rest := LastRun(rows[1..]);
      assert forall i :: 1 <= i < |rows| ==> rows[i] == rows[1..][i - 1];
      if rest.Some? && rest.value > rows[0].date then
        assert exists i :: 0 <= i < |rows[1..]| && rows[1..][i].date == rest.value;
        rest
      else Some(rows[0].date)
  }

  /** The distinct product names. */
  function Names(rows: seq<PriceRow>): (s: set<string>)
    ensures forall x :: x in s <==> exists i :: 0 <= i < |rows| && rows[i].productName == x
    ensures |s| <= |rows|
  {
    if rows == [] then {}
    else
      assert forall i :: 1 <= i < |rows| ==> rows[i] == rows[1..][i - 1];
      {rows[0].productName} + Names(rows[1..])
  }

  predicate StrictlySorted(s: seq<string>)
  {
    forall i, j :: 0 <= i < j < |s| ==> Order.StrLt(s[i], s[j])
  }

  /** `x` added to a strictly ascending list unless already present. */
  function InsertNew(x: string, s: seq<string>): (r: seq<string>)
    ensures |r| <= |s| + 1
  {
    if s == [] then [x]
    else if x == s[0] then s
    else if Order.StrLt(x, s[0]) then [x] + s
    else [s[0]] + InsertNew(x, s[1..])
  }

  lemma {:induction false} InsertNewSorted(x: string, s: seq<string>)
    requires StrictlySorted(s)
    ensures StrictlySorted(InsertNew(x, s))
    ensures forall y :: y in InsertNew(x, s) <==> y == x || y in s
  {
    if s == [] {
    } else if x == s[0] {
    } else if Order.StrLt(x, s[0]) {
      var r := [x] + s;
      forall i, j | 0 <= i < j < |r| ensures Order.StrLt(r[i], r[j]) {
        if i == 0 && j > 1 {
          Order.StrLtTransitive(x, s[0], s[j - 1]);
        }
      }
    } else {
      Order.StrLtTotal(x, s[0]);
      InsertNewSorted(x, s[1..]);
      var tail := InsertNew(x, s[1..]);
      var r := [s[0]] + tail;
      assert forall y :: y in s <==> y == s[0] || y in s[1..] by {
        assert s == [s[0]] + s[1..];
      }
      forall k | 0 <= k < |tail| ensures Order.StrLt(s[0], tail[k]) {
        assert tail[k] in tail;
        if tail[k] != x {
          var m :| 0 <= m < |s[1..]| && s[1..][m] == tail[k];
          assert s[m + 1] == tail[k];
        }
      }
      forall i, j | 0 <= i < j < |r| ensures Order.StrLt(r[i], r[j]) {
        if i == 0 {
          assert r[j] == tail[j - 1];
        } else {
          assert r[i] == tail[i - 1] && r[j] == tail[j - 1];
        }
      }
    }
  }

  /** `SELECT DISTINCT store ... ORDER BY store`. */
  function Stores(rows: seq<PriceRow>): seq<string>
  {
    if rows == [] then [] else InsertNew(rows[0].store, Stores(rows[1..]))
  }

  /** The stores listed are ascending without repeats, and are exactly the
      stores the table mentions. */
  lemma {:induction false} StoresMeaning(rows: seq<PriceRow>)
    ensures StrictlySorted(Stores(rows))
    ensures forall x :: x in Stores(rows) <==> exists i :: 0 <= i < |rows| && rows[i].store == x
  {
    if rows != [] {
      StoresMeaning(rows[1..]);
      InsertNewSorted(rows[0].store, Stores(rows[1..]));
      assert forall i :: 1 <= i < |rows| ==> rows[i] == rows[1..][i - 1];
      forall x | x in Stores(rows) ensures exists i :: 0 <= i < |rows| && rows[i].store == x {
        if x != rows[0].store {
          var i :| 0 <= i < |rows[1..]| && rows[1..][i].store == x;
          assert rows[i + 1].store == x;
        }
      }
    }
  }

  function SummaryStats(rows: seq<PriceRow>): Summary
  {
    Summary(|rows|, |Names(rows)|, LastRun(rows), Stores(rows))
  }

  /** The counters: every row counted once, at most that many distinct
      products, no last run only for an empty table, and each store listed
      once, in order. */
  lemma SummaryMeaning(rows: seq<PriceRow>)
    ensures SummaryStats(rows).totalRecords == |rows|
    ensures SummaryStats(rows).totalProducts <= SummaryStats(rows).totalRecords
    ensures SummaryStats(rows).lastRun.None? <==> rows == []
    ensures StrictlySorted(SummaryStats(rows).stores)
    ensures forall x :: x in SummaryStats(rows).stores <==> exists i :: 0 <= i < |rows| && rows[i].store == x
  {
    StoresMeaning(rows);
  }
}
