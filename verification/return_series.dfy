/**
 * The pure tail of `get_returns_from_db` in drift_monitor.py: the rows a price
 * query returned are pivoted into one price column per ticker over the sorted
 * distinct dates, each column becomes simple returns `p[t]/p[t-1] - 1`, and the
 * first row (which has no prior price) is filled with 0.  An empty query result
 * or a database error yields an explicitly empty frame.
 */
module ReturnSeries {
  import opened Wrappers
  import opened Stats
  import opened Market

  /** One row of the `daily_prices` query: (date, ticker, adj_close). */
  datatype Observation = Observation(date: Date, ticker: Ticker, adjClose: real)

  /** What the query produced: its rows, or a database error that was caught. */
  datatype QueryOutcome = DatabaseError | Rows(rows: seq<Observation>)

  /** A wide frame indexed by date with one column of values per ticker. */
  datatype Frame = Frame(index: seq<Date>, columns: map<Ticker, seq<real>>)

  const EmptyFrame: Frame := Frame([], map[])

  /** pandas `DataFrame.empty`: some axis has length zero. */
  predicate IsEmpty(f: Frame)
  {
    |f.index| == 0 || |f.columns| == 0
  }

  /** The query orders its rows by date (and then ticker). */
  predicate SortedByDate(rows: seq<Observation>)
  {
    forall i, j :: 0 <= i < j < |rows| ==> rows[i].date <= rows[j].date
  }

  /** No (date, ticker) pair appears twice; pandas `pivot` raises otherwise. */
  predicate UniqueKeys(rows: seq<Observation>)
  {
    forall i, j :: 0 <= i < j < |rows| ==> rows[i].date != rows[j].date || rows[i].ticker != rows[j].ticker
  }

  /** Position of the first row for (d, t), or |rows| when there is none. */
  function IndexOf(rows: seq<Observation>, d: Date, t: Ticker): (k: nat)
    ensures k <= |rows|
    ensures k < |rows| ==> rows[k].date == d && rows[k].ticker == t
    ensures forall i :: 0 <= i < k ==> rows[i].date != d || rows[i].ticker != t
  {
    if |rows| == 0 then 0
    else if rows[0].date == d && rows[0].ticker == t then 0
    else 1 + IndexOf(rows[1..], d, t)
  }

  /** The (date, ticker) pairs the rows hold a price for. */
  function Keys(rows: seq<Observation>): set<(Date, Ticker)>
  {
    set i | 0 <= i < |rows| :: (rows[i].date, rows[i].ticker)
  }

  /** The price of ticker `t` on date `d`, if the rows hold one. */
  function Find(rows: seq<Observation>, d: Date, t: Ticker): (p: Option<real>)
    ensures p.Some? <==> (d, t) in Keys(rows)
  {
    var k := IndexOf(rows, d, t);
    if k < |rows| then Some(rows[k].adjClose)
    else
      assert (d, t) !in Keys(rows);
      None
  }

  /** A price found for (d, t) is the `adj_close` of a returned row for that date and ticker. */
  lemma FindReturnsRowPrice(rows: seq<Observation>, d: Date, t: Ticker)
    requires Find(rows, d, t).Some?
    ensures exists i :: 0 <= i < |rows| && rows[i].date == d && rows[i].ticker == t && rows[i].adjClose == Find(rows, d, t).value
  {
    var k := IndexOf(rows, d, t);
    assert rows[k].adjClose == Find(rows, d, t).value;
  }

  /** The distinct dates of the rows. */
  function DateSet(rows: seq<Observation>): set<Date>
  {
    set i | 0 <= i < |rows| :: rows[i].date
  }

  /** Every ticker of the query has a price on every date of the query. */
  predicate CompleteGrid(rows: seq<Observation>)
  {
    forall d, t :: d in DateSet(rows) && t in Tickers(rows) ==> (d, t) in Keys(rows)
  }

  /** A price that some later date divides by is not zero. */
  predicate PriorPricesNonZero(rows: seq<Observation>)
  {
    forall i, j :: 0 <= i < |rows| && 0 <= j < |rows| && rows[i].date < rows[j].date ==> rows[i].adjClose != 0.0
  }

  predicate WellFormed(rows: seq<Observation>)
  {
    SortedByDate(rows) && UniqueKeys(rows) && CompleteGrid(rows) && PriorPricesNonZero(rows)
  }

  predicate StrictlyIncreasing(ds: seq<Date>)
  {
    forall i, j :: 0 <= i < j < |ds| ==> ds[i] < ds[j]
  }

  /** The pivot's index: the distinct dates of the rows, ascending. */
  function Dates(rows: seq<Observation>): (ds: seq<Date>)
    requires SortedByDate(rows)
    ensures |ds| > 0 <==> |rows| > 0
    ensures |ds| > 0 ==> ds[0] == rows[0].date
    ensures StrictlyIncreasing(ds)
    ensures forall d :: d in ds <==> d in DateSet(rows)
  {
    if |rows| == 0 then []
    else
      var rest := Dates(rows[1..]);
      DateSetCons(rows);
      if |rest| > 0 && rest[0] == rows[0].date then rest
      else
        assert |rest| > 0 ==> rows[0].date <= rows[1].date;
        [rows[0].date] + rest
  }

  lemma DateSetCons(rows: seq<Observation>)
    requires |rows| > 0
    ensures DateSet(rows) == {rows[0].date} + DateSet(rows[1..])
  {
    assert forall i :: 1 <= i < |rows| ==> rows[i] == rows[1..][i - 1];
  }

  /** The pivot's columns: every ticker that occurs in the rows. */
  function Tickers(rows: seq<Observation>): set<Ticker>
  {
    set i | 0 <= i < |rows| :: rows[i].ticker
  }

  /** Ticker `t`'s prices over the dates `ds`, one per date. */
  function PriceColumn(rows: seq<Observation>, ds: seq<Date>, t: Ticker): (ps: seq<real>)
    requires forall k :: 0 <= k < |ds| ==> Find(rows, ds[k], t).Some?
    ensures |ps| == |ds|
    ensures forall k :: 0 <= k < |ds| ==> Find(rows, ds[k], t) == Some(ps[k])
  {
    if |ds| == 0 then [] else [Find(rows, ds[0], t).value] + PriceColumn(rows, ds[1..], t)
  }

  /**
   * `pct_change()` followed by `fillna(0)` on one column: one return per price,
   * the first (which has no prior price) filled with 0.
   */
  function PctChange(ps: seq<real>): (rs: seq<real>)
    requires forall i :: 0 <= i < |ps| - 1 ==> ps[i] != 0.0
    ensures |rs| == |ps|
    ensures |ps| > 0 ==> rs[0] == 0.0
  {
    seq(|ps|, i requires 0 <= i < |ps| => if i == 0 then 0.0 else ps[i] / ps[i - 1] - 1.0)
  }

  /** Every later return is the growth that turns the prior price into the current one. */
  lemma PctChangeStep(ps: seq<real>, rs: seq<real>, k: nat)
    requires forall i :: 0 <= i < |ps| - 1 ==> ps[i] != 0.0
    requires rs == PctChange(ps)
    requires 1 <= k < |ps|
    ensures ps[k] == ps[k - 1] * (1.0 + rs[k])
  {
    var p, q := ps[k - 1], ps[k];
    assert p != 0.0;
    var ratio := q / p;
    assert rs[k] == ratio - 1.0;
    assert ratio * p == q;
  }

  /** Every price of a column but the last is some later date's prior price. */
  lemma PriorPricesOfColumn(rows: seq<Observation>, t: Ticker)
    requires WellFormed(rows)
    requires t in Tickers(rows)
    ensures forall k :: 0 <= k < |Dates(rows)| ==> Find(rows, Dates(rows)[k], t).Some?
    ensures forall k :: 0 <= k < |Dates(rows)| - 1 ==> PriceColumn(rows, Dates(rows), t)[k] != 0.0
  {
    var ds := Dates(rows);
    forall k | 0 <= k < |ds|
      ensures Find(rows, ds[k], t).Some?
    {
      assert ds[k] in DateSet(rows);
    }
    var ps := PriceColumn(rows, ds, t);
    forall k | 0 <= k < |ds| - 1
      ensures ps[k] != 0.0
    {
      var i := IndexOf(rows, ds[k], t);
      assert ds[k + 1] in DateSet(rows);
      var l :| 0 <= l < |rows| && rows[l].date == ds[k + 1];
      assert rows[i].date < rows[l].date;
    }
  }

  /** The return column of ticker `t`: one entry per date, 0 on the first date. */
  function ReturnColumn(rows: seq<Observation>, t: Ticker): (rs: seq<real>)
    requires WellFormed(rows)
    requires t in Tickers(rows)
    ensures |rs| == |Dates(rows)|
    ensures |rs| > 0 ==> rs[0] == 0.0
  {
    PriorPricesOfColumn(rows, t);
    PctChange(PriceColumn(rows, Dates(rows), t))
  }

  /**
   * Ticker `t`'s return column is the percentage change of `t`'s own prices over
   * the pivot dates, whose entries are the prices the query returned for `t`.
   */
  lemma ReturnColumnIsOwnPctChange(rows: seq<Observation>, t: Ticker)
    requires WellFormed(rows)
    requires t in Tickers(rows)
    ensures forall k :: 0 <= k < |Dates(rows)| ==> Find(rows, Dates(rows)[k], t).Some?
    ensures var ps := PriceColumn(rows, Dates(rows), t);
      && (forall k :: 0 <= k < |ps| ==> Find(rows, Dates(rows)[k], t) == Some(ps[k]))
      && (forall i :: 0 <= i < |ps| - 1 ==> ps[i] != 0.0)
      && ReturnColumn(rows, t) == PctChange(ps)
  {
    PriorPricesOfColumn(rows, t);
  }

  /** pandas `pivot` followed by the return computation, for a non-empty query result. */
  function Pivot(rows: seq<Observation>): (f: Frame)
    requires WellFormed(rows) && |rows| > 0
    ensures f.index == Dates(rows)
    ensures f.columns.Keys == Tickers(rows)
    ensures |f.columns| > 0
    ensures forall t :: t in f.columns ==> f.columns[t] == ReturnColumn(rows, t)
  {
    var f := Frame(Dates(rows), map t | t in Tickers(rows) :: ReturnColumn(rows, t));
    assert rows[0].ticker in f.columns.Keys;
    f
  }

  /**
   * `get_returns_from_db` after the query: an error or an empty result gives an
   * empty frame; otherwise the frame is indexed by the distinct dates in
   * ascending order, has one column per ticker that occurs, and each column holds
   * that ticker's own returns, 0 on the first date.
   */
  function ReturnsFromQuery(q: QueryOutcome): (f: Frame)
    requires q.Rows? ==> WellFormed(q.rows)
    ensures IsEmpty(f) <==> q.DatabaseError? || |q.rows| == 0
    ensures IsEmpty(f) ==> f == EmptyFrame
    ensures StrictlyIncreasing(f.index)
    ensures q.Rows? ==> forall d :: d in f.index <==> d in DateSet(q.rows)
    ensures q.Rows? ==> f.columns.Keys == Tickers(q.rows)
    ensures forall t :: t in f.columns ==> |f.columns[t]| == |f.index|
    ensures forall t :: t in f.columns && |f.index| > 0 ==> f.columns[t][0] == 0.0
    ensures q.Rows? ==> f.index == Dates(q.rows)
    ensures q.Rows? ==> forall t :: t in f.columns ==> f.columns[t] == ReturnColumn(q.rows, t)
  {
    match q
    case DatabaseError => EmptyFrame
    case Rows(rows) =>
      if |rows| == 0 then EmptyFrame else Pivot(rows)
  }

  /**
   * Compounding a column's returns from the first date reproduces its price path:
   * `p[k] = p[0] * (1 + r[0]) * ... * (1 + r[k])`, the first return being 0.
   */
  lemma {:induction false} PricesCompound(ps: seq<real>, k: nat)
    requires forall i :: 0 <= i < |ps| - 1 ==> ps[i] != 0.0
    requires k < |ps|
    ensures ps[k] == ps[0] * Growth(PctChange(ps)[..k + 1])
  {
    var rs := PctChange(ps);
    if k == 0 {
      assert rs[..1] == [0.0];
      assert [0.0][1..] == [];
    } else {
      var g, a := Growth(rs[..k]), 1.0 + rs[k];
      assert Growth(rs[..k + 1]) == g * a by {
        assert rs[..k + 1] == rs[..k] + [rs[k]];
        GrowthAppend(rs[..k], rs[k]);
      }
      assert ps[k - 1] == ps[0] * g by { PricesCompound(ps, k - 1); }
      assert ps[k] == ps[k - 1] * a by { PctChangeStep(ps, rs, k); }
      assert (ps[0] * g) * a == ps[0] * (g * a);
    }
  }

  /**
   * Each ticker's column is computed independently: two queries over the same
   * dates whose prices for ticker `t` agree give `t` the same returns, whatever
   * the other tickers do.
   */
  lemma NoCrossTickerLeakage(rows1: seq<Observation>, rows2: seq<Observation>, t: Ticker)
    requires WellFormed(rows1) && WellFormed(rows2)
    requires |rows1| > 0 && |rows2| > 0
    requires t in Tickers(rows1) && t in Tickers(rows2)
    requires Dates(rows1) == Dates(rows2)
    requires forall k :: 0 <= k < |Dates(rows1)| ==> Find(rows1, Dates(rows1)[k], t) == Find(rows2, Dates(rows2)[k], t)
    ensures t in ReturnsFromQuery(Rows(rows1)).columns && t in ReturnsFromQuery(Rows(rows2)).columns
    ensures ReturnsFromQuery(Rows(rows1)).columns[t] == ReturnsFromQuery(Rows(rows2)).columns[t]
  {
    assert ReturnColumn(rows1, t) == ReturnColumn(rows2, t) by {
      SamePricesSameColumn(rows1, rows2, t);
    }
    assert ReturnsFromQuery(Rows(rows1)) == Pivot(rows1);
    assert ReturnsFromQuery(Rows(rows2)) == Pivot(rows2);
  }

  /** Equal prices for t on equal dates give t equal return columns. */
  lemma SamePricesSameColumn(rows1: seq<Observation>, rows2: seq<Observation>, t: Ticker)
    requires WellFormed(rows1) && WellFormed(rows2)
    requires t in Tickers(rows1) && t in Tickers(rows2)
    requires Dates(rows1) == Dates(rows2)
    requires forall k :: 0 <= k < |Dates(rows1)| ==> Find(rows1, Dates(rows1)[k], t) == Find(rows2, Dates(rows2)[k], t)
    ensures ReturnColumn(rows1, t) == ReturnColumn(rows2, t)
  {
    var ds := Dates(rows1);
    var ps1, ps2 := PriceColumn(rows1, ds, t), PriceColumn(rows2, ds, t);
    assert ps1 == ps2 by {
      SamePriceColumn(rows1, rows2, t);
    }
    assert ReturnColumn(rows1, t) == PctChange(ps1) by { ReturnColumnIsOwnPctChange(rows1, t); }
    assert ReturnColumn(rows2, t) == PctChange(ps2) by { ReturnColumnIsOwnPctChange(rows2, t); }
  }

  lemma SamePriceColumn(rows1: seq<Observation>, rows2: seq<Observation>, t: Ticker)
    requires WellFormed(rows1) && WellFormed(rows2)
    requires t in Tickers(rows1) && t in Tickers(rows2)
    requires Dates(rows1) == Dates(rows2)
    requires forall k :: 0 <= k < |Dates(rows1)| ==> Find(rows1, Dates(rows1)[k], t) == Find(rows2, Dates(rows2)[k], t)
    ensures PriceColumn(rows1, Dates(rows1), t) == PriceColumn(rows2, Dates(rows1), t)
  {
    var ds := Dates(rows1);
    var ps1, ps2 := PriceColumn(rows1, ds, t), PriceColumn(rows2, ds, t);
    assert forall k :: 0 <= k < |ds| ==> Find(rows1, ds[k], t) == Some(ps1[k]) by {
      ReturnColumnIsOwnPctChange(rows1, t);
    }
    assert forall k :: 0 <= k < |ds| ==> Find(rows2, ds[k], t) == Some(ps2[k]) by {
      ReturnColumnIsOwnPctChange(rows2, t);
    }
    forall k | 0 <= k < |ds|
      ensures ps1[k] == ps2[k]
    {
      assert Some(ps1[k]) == Find(rows1, ds[k], t) == Find(rows2, ds[k], t) == Some(ps2[k]);
    }
  }

  /** The two-day price history of the test suite. */
  const TwoDayRows: seq<Observation> :=
    [Observation(1, "XLE", 100.0), Observation(1, "SPY", 200.0),
     Observation(2, "XLE", 101.0), Observation(2, "SPY", 202.0)]

  lemma TwoDayRowsWellFormed()
    ensures WellFormed(TwoDayRows)
    ensures Dates(TwoDayRows) == [1, 2]
    ensures Tickers(TwoDayRows) == {"XLE", "SPY"}
  {
    TwoDayTickers();
    TwoDayDateSet();
    TwoDayKeys();
    TwoDayDates();
    TwoDayUnique();
    TwoDayGrid();
    TwoDayPrices();
  }

  lemma TwoDayGrid()
    ensures CompleteGrid(TwoDayRows)
  {
    TwoDayTickers();
    TwoDayDateSet();
    TwoDayKeys();
  }

  lemma TwoDayPrices()
    ensures SortedByDate(TwoDayRows) && PriorPricesNonZero(TwoDayRows)
  {
    var rows := TwoDayRows;
    assert forall i :: 0 <= i < |rows| ==> rows[i].adjClose != 0.0;
  }

  lemma TwoDayTickers()
    ensures Tickers(TwoDayRows) == {"XLE", "SPY"}
  {
    var rows := TwoDayRows;
    assert rows[0].ticker == "XLE" && rows[1].ticker == "SPY";
  }

  lemma TwoDayDateSet()
    ensures DateSet(TwoDayRows) == {1, 2}
  {
    var rows := TwoDayRows;
    assert rows[0].date == 1 && rows[2].date == 2;
  }

  lemma TwoDayKeys()
    ensures Keys(TwoDayRows) == {(1, "XLE"), (1, "SPY"), (2, "XLE"), (2, "SPY")}
  {
    var rows := TwoDayRows;
    assert (rows[0].date, rows[0].ticker) == (1, "XLE");
    assert (rows[1].date, rows[1].ticker) == (1, "SPY");
    assert (rows[2].date, rows[2].ticker) == (2, "XLE");
    assert (rows[3].date, rows[3].ticker) == (2, "SPY");
  }

  lemma TwoDayDates()
    ensures Dates(TwoDayRows) == [1, 2]
  {
    var rows := TwoDayRows;
    assert rows[1..][1..] == [rows[2], rows[3]];
    assert rows[1..][1..][1..] == [rows[3]];
  }

  lemma TwoDayUnique()
    ensures UniqueKeys(TwoDayRows)
  {
    assert "XLE" != "SPY" by { assert "XLE"[0] != "SPY"[0]; }
  }

  lemma TwoDayFind(t: Ticker, p1: real, p2: real)
    requires (t, p1, p2) == ("XLE", 100.0, 101.0) || (t, p1, p2) == ("SPY", 200.0, 202.0)
    ensures Find(TwoDayRows, 1, t) == Some(p1) && Find(TwoDayRows, 2, t) == Some(p2)
  {
    assert "XLE" != "SPY" by { assert "XLE"[0] != "SPY"[0]; }
  }

  lemma TwoDayPriceColumn(t: Ticker, p1: real, p2: real)
    requires (t, p1, p2) == ("XLE", 100.0, 101.0) || (t, p1, p2) == ("SPY", 200.0, 202.0)
    ensures forall k :: 0 <= k < 2 ==> Find(TwoDayRows, [1, 2][k], t).Some?
    ensures PriceColumn(TwoDayRows, [1, 2], t) == [p1, p2]
    ensures PctChange([p1, p2]) == [0.0, 0.01]
  {
    TwoDayFind(t, p1, p2);
  }

  lemma TwoDayColumn(t: Ticker, p1: real, p2: real)
    requires (t, p1, p2) == ("XLE", 100.0, 101.0) || (t, p1, p2) == ("SPY", 200.0, 202.0)
    ensures WellFormed(TwoDayRows) && t in Tickers(TwoDayRows)
    ensures ReturnColumn(TwoDayRows, t) == [0.0, 0.01]
  {
    TwoDayRowsWellFormed();
    TwoDayPriceColumn(t, p1, p2);
  }

  /** The test suite's example: 100 -> 101 and 200 -> 202 are both a 1% return after a first row of 0. */
  lemma TwoDayExample()
    ensures WellFormed(TwoDayRows)
    ensures ReturnsFromQuery(Rows(TwoDayRows)).index == [1, 2]
    ensures ReturnsFromQuery(Rows(TwoDayRows)).columns.Keys == {"XLE", "SPY"}
    ensures ReturnsFromQuery(Rows(TwoDayRows)).columns["XLE"] == [0.0, 0.01]
    ensures ReturnsFromQuery(Rows(TwoDayRows)).columns["SPY"] == [0.0, 0.01]
  {
    TwoDayRowsWellFormed();
    TwoDayColumn("XLE", 100.0, 101.0);
    TwoDayColumn("SPY", 200.0, 202.0);
    var f := ReturnsFromQuery(Rows(TwoDayRows));
    assert f.index == Dates(TwoDayRows);
    assert f.columns.Keys == Tickers(TwoDayRows);
    assert f.columns["XLE"] == ReturnColumn(TwoDayRows, "XLE");
    assert f.columns["SPY"] == ReturnColumn(TwoDayRows, "SPY");
  }
}
