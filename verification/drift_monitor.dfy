/**
 * The decision logic of drift_monitor.py around the library's rolling
 * correlation: the empty-input guard of `calculate_rolling_correlation_matrix`,
 * the per-date convergence alerts of `detect_convergence`, and the latest-date
 * choice of `save_snapshot`.  Correlation coefficients are inputs; `None`
 * stands for NaN.
 */
module DriftMonitor {
  import opened Wrappers
  import opened Stats
  import opened Market
  import opened ReturnSeries

  /**
   * The correlation matrix of one date: row labels, column labels and the cells.
   * A cell missing from `cells` reads as NaN.
   */
  datatype DayMatrix = DayMatrix(
    date: Date,
    index: set<Ticker>,
    columns: set<Ticker>,
    cells: map<(Ticker, Ticker), Option<real>>)

  /** `daily_corr_matrix.loc[row, col]`. */
  function Cell(m: DayMatrix, row: Ticker, col: Ticker): Option<real>
  {
    if (row, col) in m.cells then m.cells[(row, col)] else None
  }

  /**
   * A rolling correlation table: one block per date, in the order of the first
   * level of its (date, ticker) index.
   */
  type CorrTable = seq<DayMatrix>

  /** The first index level holds each date once. */
  predicate DistinctDates(table: CorrTable)
  {
    forall i, j :: 0 <= i < j < |table| ==> table[i].date != table[j].date
  }

  predicate IncreasingDates(table: CorrTable)
  {
    forall i, j :: 0 <= i < j < |table| ==> table[i].date < table[j].date
  }

  /**
   * `calculate_rolling_correlation_matrix`: an empty returns frame gives None;
   * otherwise the result is the library's rolling correlation, passed in as `rolling`.
   */
  function RollingCorrelationMatrix(frame: Frame, rolling: CorrTable): (r: Option<CorrTable>)
    ensures r.None? <==> IsEmpty(frame)
    ensures r.Some? ==> r.value == rolling
  {
    if IsEmpty(frame) then None else Some(rolling)
  }

  /**
   * The defensive assets that take part on one date, in their configured order:
   * each must be a column, and the market asset must be a row.
   */
  function ValidDefensive(m: DayMatrix, defensive: seq<Ticker>, market: Ticker): (vs: seq<Ticker>)
    ensures |vs| <= |defensive|
    ensures forall a :: a in vs <==> a in defensive && a in m.columns && market in m.index
  {
    if |defensive| == 0 then []
    else
      var rest := ValidDefensive(m, defensive[1..], market);
      assert forall a :: a in defensive <==> a == defensive[0] || a in defensive[1..];
      if defensive[0] in m.columns && market in m.index then [defensive[0]] + rest else rest
  }

  /**
   * The filter keeps multiplicity: an asset listed twice takes part twice, so the
   * day's mean weighs it twice, as the list comprehension does.
   */
  lemma {:induction false} ValidDefensiveCounts(m: DayMatrix, defensive: seq<Ticker>, market: Ticker)
    ensures var vs := ValidDefensive(m, defensive, market);
      forall a :: multiset(vs)[a] == if a in m.columns && market in m.index then multiset(defensive)[a] else 0
  {
    if |defensive| > 0 {
      ValidDefensiveCounts(m, defensive[1..], market);
      assert defensive == [defensive[0]] + defensive[1..];
    }
  }

  /** The market-vs-asset correlations of one date, one per asset given. */
  function MarketCorrelations(m: DayMatrix, assets: seq<Ticker>, market: Ticker): (cs: seq<Option<real>>)
    ensures |cs| == |assets|
    ensures forall i :: 0 <= i < |assets| ==> cs[i] == Cell(m, market, assets[i])
  {
    seq(|assets|, i requires 0 <= i < |assets| => Cell(m, market, assets[i]))
  }

  /** How one date scores: skipped, undefined (a NaN entered the mean), or a mean. */
  datatype DayScore = Skipped | Undefined | Scored(average: real)

  /**
   * The score of one date: skipped when the market asset is not a row or no
   * defensive asset is a column; otherwise the `np.mean` of the present assets'
   * correlations with the market, which is NaN as soon as one of them is.
   */
  function ScoreDay(m: DayMatrix, defensive: seq<Ticker>, market: Ticker): (s: DayScore)
    ensures s.Skipped? <==> market !in m.index || forall a :: a in defensive ==> a !in m.columns
    ensures s.Undefined? <==> !s.Skipped? && exists a :: a in defensive && a in m.columns && Cell(m, market, a).None?
    ensures s.Scored? ==> var cs := MarketCorrelations(m, ValidDefensive(m, defensive, market), market);
              |cs| > 0 && AllDefined(cs) && Min(Values(cs)) <= s.average <= Max(Values(cs))
    ensures s.Scored? ==> var cs := MarketCorrelations(m, ValidDefensive(m, defensive, market), market);
              |cs| > 0 && AllDefined(cs) && s.average == Sum(Values(cs)) / |cs| as real
  {
    var vs := ValidDefensive(m, defensive, market);
    if |vs| == 0 then
      Skipped
    else
      assert vs[0] in vs;
      var cs := MarketCorrelations(m, vs, market);
      match NanMean(cs)
      case None =>
        var i :| 0 <= i < |cs| && cs[i].None?;
        assert vs[i] in vs;
        Undefined
      case Some(avg) =>
        assert forall a :: a in defensive && a in m.columns ==> Cell(m, market, a).Some? by {
          forall a | a in defensive && a in m.columns
            ensures Cell(m, market, a).Some?
          {
            assert a in vs;
            var i :| 0 <= i < |vs| && vs[i] == a;
            assert cs[i] == Cell(m, market, a);
          }
        }
        Scored(avg)
  }

  /** A date drifts when its mean correlation is defined and strictly above the threshold. */
  predicate Drifts(m: DayMatrix, defensive: seq<Ticker>, market: Ticker, threshold: real)
  {
    var s := ScoreDay(m, defensive, market);
    s.Scored? && s.average > threshold
  }

  /**
   * Only a complete date can drift: the market asset is a row, some defensive
   * asset is a column, and none of those assets' correlations is NaN.
   */
  lemma DriftingDateIsComplete(m: DayMatrix, defensive: seq<Ticker>, market: Ticker, threshold: real)
    requires Drifts(m, defensive, market, threshold)
    ensures market in m.index && exists a :: a in defensive && a in m.columns
    ensures forall a :: a in defensive && a in m.columns ==> Cell(m, market, a).Some?
  {
  }

  /** One alert: the date and the mean correlation that crossed the threshold. */
  datatype Alert = Alert(date: Date, average: real)

  function AlertOf(m: DayMatrix, defensive: seq<Ticker>, market: Ticker): (a: Alert)
    requires ScoreDay(m, defensive, market).Scored?
    ensures a.date == m.date
  {
    Alert(m.date, ScoreDay(m, defensive, market).average)
  }

  /** Reference definition: the alerts of the drifting dates, in table order. */
  function DriftingAlerts(table: CorrTable, defensive: seq<Ticker>, market: Ticker, threshold: real): seq<Alert>
  {
    if |table| == 0 then []
    else
      var last := table[|table| - 1];
      DriftingAlerts(table[..|table| - 1], defensive, market, threshold)
        + (if Drifts(last, defensive, market, threshold) then [AlertOf(last, defensive, market)] else [])
  }

  /**
   * Every drifting date yields an alert, and every alert comes from a drifting
   * date and carries that date's mean.
   */
  lemma AlertsAreDriftingDates(table: CorrTable, defensive: seq<Ticker>, market: Ticker, threshold: real)
    ensures forall i :: 0 <= i < |table| && Drifts(table[i], defensive, market, threshold) ==>
              AlertOf(table[i], defensive, market) in DriftingAlerts(table, defensive, market, threshold)
    ensures forall a :: a in DriftingAlerts(table, defensive, market, threshold) ==>
              exists i :: 0 <= i < |table| && Drifts(table[i], defensive, market, threshold) && a == AlertOf(table[i], defensive, market)
  {
    DriftingDatesAlert(table, defensive, market, threshold);
    AlertsComeFromDriftingDates(table, defensive, market, threshold);
  }

  lemma {:induction false} DriftingDatesAlert(table: CorrTable, defensive: seq<Ticker>, market: Ticker, threshold: real)
    ensures forall i :: 0 <= i < |table| && Drifts(table[i], defensive, market, threshold) ==>
              AlertOf(table[i], defensive, market) in DriftingAlerts(table, defensive, market, threshold)
  {
    if |table| > 0 {
      var init := table[..|table| - 1];
      DriftingDatesAlert(init, defensive, market, threshold);
      assert forall i :: 0 <= i < |init| ==> init[i] == table[i];
    }
  }

  lemma {:induction false} AlertsComeFromDriftingDates(table: CorrTable, defensive: seq<Ticker>, market: Ticker, threshold: real)
    ensures forall a :: a in DriftingAlerts(table, defensive, market, threshold) ==>
              exists i :: 0 <= i < |table| && Drifts(table[i], defensive, market, threshold) && a == AlertOf(table[i], defensive, market)
  {
    if |table| > 0 {
      var init := table[..|table| - 1];
      AlertsComeFromDriftingDates(init, defensive, market, threshold);
      assert forall i :: 0 <= i < |init| ==> init[i] == table[i];
    }
  }

  /** No alert at all exactly when no date drifts. */
  lemma {:induction false} NoAlertsIffNoDrift(table: CorrTable, defensive: seq<Ticker>, market: Ticker, threshold: real)
    ensures |DriftingAlerts(table, defensive, market, threshold)| == 0 <==>
              forall i :: 0 <= i < |table| ==> !Drifts(table[i], defensive, market, threshold)
  {
    AlertsAreDriftingDates(table, defensive, market, threshold);
    var alerts := DriftingAlerts(table, defensive, market, threshold);
    if |alerts| > 0 {
      assert alerts[0] in alerts;
    }
  }

  predicate AscendingAlerts(alerts: seq<Alert>)
  {
    forall i, j :: 0 <= i < j < |alerts| ==> alerts[i].date < alerts[j].date
  }

  /** With dates ascending, the alerts come out in strictly ascending date order, one per date. */
  lemma {:induction false} AlertsInDateOrder(table: CorrTable, defensive: seq<Ticker>, market: Ticker, threshold: real)
    requires IncreasingDates(table)
    ensures AscendingAlerts(DriftingAlerts(table, defensive, market, threshold))
  {
    if |table| > 0 {
      var init := table[..|table| - 1];
      var last := table[|table| - 1];
      assert IncreasingDates(init);
      AlertsInDateOrder(init, defensive, market, threshold);
      AlertsBefore(init, defensive, market, threshold, last.date);
      var before := DriftingAlerts(init, defensive, market, threshold);
      if Drifts(last, defensive, market, threshold) {
        AppendAscending(before, AlertOf(last, defensive, market));
      }
    }
  }

  lemma AlertsBefore(table: CorrTable, defensive: seq<Ticker>, market: Ticker, threshold: real, bound: Date)
    requires forall i :: 0 <= i < |table| ==> table[i].date < bound
    ensures forall a :: a in DriftingAlerts(table, defensive, market, threshold) ==> a.date < bound
  {
    AlertsAreDriftingDates(table, defensive, market, threshold);
  }

  lemma AppendAscending(alerts: seq<Alert>, a: Alert)
    requires AscendingAlerts(alerts)
    requires forall b :: b in alerts ==> b.date < a.date
    ensures AscendingAlerts(alerts + [a])
  {
    var r := alerts + [a];
    forall i, j | 0 <= i < j < |r|
      ensures r[i].date < r[j].date
    {
      assert r[i] == alerts[i] && alerts[i] in alerts;
    }
  }

  /**
   * `detect_convergence`: walks the dates in order and keeps an alert for every
   * date whose mean market correlation is strictly above the threshold.  The
   * answer is (true, the non-empty alerts) or (false, None), never (true, []).
   */
  method DetectConvergence(table: Option<CorrTable>, defensive: seq<Ticker>, market: Ticker, threshold: real)
    returns (triggered: bool, alerts: Option<seq<Alert>>)
    requires table.Some? ==> DistinctDates(table.value)
    ensures table.None? || |table.value| == 0 ==> !triggered && alerts.None?
    ensures triggered <==> alerts.Some?
    ensures alerts.Some? ==> |alerts.value| > 0
    ensures triggered <==> table.Some? && exists i :: 0 <= i < |table.value| && Drifts(table.value[i], defensive, market, threshold)
    ensures alerts.Some? ==> alerts.value == DriftingAlerts(table.value, defensive, market, threshold)
  {
    if table.None? || |table.value| == 0 {
      return false, None;
    }
    var t := table.value;
    var acc: seq<Alert> := [];
    var i := 0;
    while i < |t|
      invariant 0 <= i <= |t|
      invariant acc == DriftingAlerts(t[..i], defensive, market, threshold)
    {
      assert t[..i + 1][..i] == t[..i];
      if Drifts(t[i], defensive, market, threshold) {
        acc := acc + [AlertOf(t[i], defensive, market)];
      }
      i := i + 1;
    }
    assert t[..|t|] == t;
    NoAlertsIffNoDrift(t, defensive, market, threshold);
    if |acc| > 0 {
      triggered, alerts := true, Some(acc);
    } else {
      triggered, alerts := false, None;
    }
  }

  /**
   * `save_snapshot`: nothing is written for a missing or empty table; otherwise
   * the matrix written is the block of the last date of the index, which is the
   * latest date when the dates ascend.
   */
  function SaveSnapshot(table: Option<CorrTable>): (written: Option<DayMatrix>)
    requires table.Some? ==> DistinctDates(table.value)
    ensures written.None? <==> table.None? || |table.value| == 0
    ensures written.Some? ==> written.value in table.value
    ensures written.Some? ==> forall i :: 0 <= i < |table.value| - 1 ==> table.value[i].date != written.value.date
    ensures written.Some? && IncreasingDates(table.value) ==>
              forall i :: 0 <= i < |table.value| ==> table.value[i].date <= written.value.date
  {
    match table
    case None => None
    case Some(t) => if |t| == 0 then None else Some(t[|t| - 1])
  }

  /**
   * An empty query or a database error propagates as explicit emptiness: no
   * correlation table, and no snapshot.
   */
  lemma EmptyInputIsExplicit(q: QueryOutcome, rolling: CorrTable)
    requires q.DatabaseError? || (q.Rows? && |q.rows| == 0)
    ensures ReturnsFromQuery(q) == EmptyFrame
    ensures RollingCorrelationMatrix(ReturnsFromQuery(q), rolling).None?
    ensures SaveSnapshot(RollingCorrelationMatrix(ReturnsFromQuery(q), rolling)).None?
  {
  }

  /** The SPY row of a test-suite date: XLU and GLD correlate with SPY at the given values. */
  function TestDay(date: Date, xlu: real, gld: real): DayMatrix
  {
    DayMatrix(date, {"XLU", "SPY", "GLD"}, {"XLU", "SPY", "GLD"},
              map[("SPY", "XLU") := Some(xlu), ("SPY", "SPY") := Some(1.0), ("SPY", "GLD") := Some(gld)])
  }

  lemma TestDayScore(date: Date, xlu: real, gld: real)
    ensures ScoreDay(TestDay(date, xlu, gld), ["XLU", "GLD"], "SPY") == Scored((xlu + gld) / 2.0)
  {
    var m := TestDay(date, xlu, gld);
    assert ("SPY", "XLU") != ("SPY", "GLD") by { assert "XLU"[0] != "GLD"[0]; }
    assert ValidDefensive(m, ["XLU", "GLD"], "SPY") == ["XLU", "GLD"];
    var cs := MarketCorrelations(m, ["XLU", "GLD"], "SPY");
    assert cs == [Some(xlu), Some(gld)];
    assert Values(cs) == [xlu, gld];
    assert Sum([xlu, gld]) == xlu + gld by {
      assert [xlu, gld][1..] == [gld];
      assert [gld][1..] == [];
      assert Sum([gld]) == gld + Sum([]);
    }
  }

  /**
   * The test suite's scenario: means 0.75 and 0.9 against a threshold of 0.85
   * give exactly one alert, on the second date.
   */
  lemma TwoDateScenario()
    ensures DriftingAlerts([TestDay(1, 0.8, 0.7), TestDay(2, 0.9, 0.9)], ["XLU", "GLD"], "SPY", 0.85) == [Alert(2, 0.9)]
  {
    var d1, d2 := TestDay(1, 0.8, 0.7), TestDay(2, 0.9, 0.9);
    var defensive := ["XLU", "GLD"];
    assert !Drifts(d1, defensive, "SPY", 0.85) by { TestDayScore(1, 0.8, 0.7); }
    assert Drifts(d2, defensive, "SPY", 0.85) && AlertOf(d2, defensive, "SPY") == Alert(2, 0.9) by {
      TestDayScore(2, 0.9, 0.9);
    }
    var t := [d1, d2];
    assert t[..1] == [d1];
    assert [d1][..0] == [];
    assert DriftingAlerts([d1], defensive, "SPY", 0.85) == [];
  }

  /** A mean exactly at the threshold does not alert. */
  lemma ThresholdIsStrict()
    ensures !Drifts(TestDay(1, 0.8, 0.9), ["XLU", "GLD"], "SPY", 0.85)
  {
    TestDayScore(1, 0.8, 0.9);
  }
}
