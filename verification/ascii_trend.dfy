/**
 * visualize_drift_ascii.py: the per-date average correlation with rows holding a
 * NaN dropped, and the scaling of the 30-row ASCII trend: padded bounds, a
 * truncated 40-column bar, a drift marker and a threshold tag per line.
 */
module AsciiTrend {
  import opened Wrappers
  import opened Stats
  import opened Market

  const Threshold: real := 0.10
  const TrendRows: nat := 30
  const Padding: real := 0.05
  const BarWidth: int := 40
  const TagBand: real := 0.01

  /** One date of `drift_data` before `dropna`: each defensive asset's correlation with SPY. */
  datatype DriftRow = DriftRow(date: Date, corrs: seq<Option<real>>)

  /** One date kept after `dropna`: all correlations defined, and their average. */
  datatype TrendPoint = TrendPoint(date: Date, corrs: seq<real>, avg: real)

  /** `mean(axis=1)` on the correlation columns: NaN entries are skipped. */
  function RowAverage(row: DriftRow): (avg: Option<real>)
    ensures avg.None? <==> forall i :: 0 <= i < |row.corrs| ==> row.corrs[i].None?
    ensures |row.corrs| > 0 && AllDefined(row.corrs) ==> avg == NanMean(row.corrs)
  {
    SkipNaMean(row.corrs)
  }

  /** `dropna()` keeps a row only when no column of it, the average included, is NaN. */
  predicate Kept(row: DriftRow)
  {
    AllDefined(row.corrs) && RowAverage(row).Some?
  }

  /** The row has correlations and none of them is NaN. */
  predicate Complete(row: DriftRow)
  {
    |row.corrs| > 0 && AllDefined(row.corrs)
  }

  /** A row is kept exactly when it has correlations and every one is defined. */
  lemma KeptIffAllDefined(row: DriftRow)
    ensures Kept(row) <==> Complete(row)
  {
    if |row.corrs| > 0 && AllDefined(row.corrs) {
      assert row.corrs[0].Some?;
    }
  }

  /** A kept row: its date, its correlations and their arithmetic mean. */
  function PointOf(row: DriftRow): (p: TrendPoint)
    requires Complete(row)
    ensures p.date == row.date && |p.corrs| == |row.corrs| > 0
    ensures forall i :: 0 <= i < |row.corrs| ==> row.corrs[i] == Some(p.corrs[i])
    ensures Min(p.corrs) <= p.avg <= Max(p.corrs)
    ensures p.avg == Sum(p.corrs) / |p.corrs| as real
  {
    var vs := Values(row.corrs);
    MeanBounds(vs, Min(vs), Max(vs));
    TrendPoint(row.date, vs, Mean(vs))
  }

  /** The average a kept row carries is the one `mean(axis=1)` computed for it. */
  lemma PointOfKeepsRowAverage(row: DriftRow)
    requires Complete(row)
    ensures Kept(row) && PointOf(row).avg == RowAverage(row).value
  {
    KeptIffAllDefined(row);
  }

  /**
   * `get_data_and_calculate_drift` after the correlations: the rows `dropna`
   * keeps, in order.  By KeptIffAllDefined those are exactly the complete rows.
   */
  function DriftData(rows: seq<DriftRow>): (pts: seq<TrendPoint>)
    ensures |pts| <= |rows|
  {
    if |rows| == 0 then []
    else
      var last := rows[|rows| - 1];
      DriftData(rows[..|rows| - 1]) + (if Complete(last) then [PointOf(last)] else [])
  }

  /**
   * Exactly the rows whose correlations are all defined survive, each with the
   * arithmetic mean of its correlations as its average.
   */
  lemma DriftDataKeepsDefinedRows(rows: seq<DriftRow>)
    ensures forall i :: 0 <= i < |rows| && Complete(rows[i]) ==>
      PointOf(rows[i]) in DriftData(rows)
    ensures forall p :: p in DriftData(rows) ==>
      exists i :: 0 <= i < |rows| && Complete(rows[i]) && p == PointOf(rows[i])
  {
    DefinedRowsSurvive(rows);
    SurvivorsAreDefinedRows(rows);
  }

  lemma {:induction false} DefinedRowsSurvive(rows: seq<DriftRow>)
    ensures forall i :: 0 <= i < |rows| && Complete(rows[i]) ==>
      PointOf(rows[i]) in DriftData(rows)
  {
    if |rows| > 0 {
      var init := rows[..|rows| - 1];
      DefinedRowsSurvive(init);
      assert forall i :: 0 <= i < |init| ==> init[i] == rows[i];
    }
  }

  lemma {:induction false} SurvivorsAreDefinedRows(rows: seq<DriftRow>)
    ensures forall p :: p in DriftData(rows) ==>
      exists i :: 0 <= i < |rows| && Complete(rows[i]) && p == PointOf(rows[i])
  {
    if |rows| > 0 {
      var init := rows[..|rows| - 1];
      SurvivorsAreDefinedRows(init);
      assert forall i :: 0 <= i < |init| ==> init[i] == rows[i];
    }
  }

  /**
   * `dropna` keeps the index order: when the dates ascend, so do the dates of
   * the kept rows, and no date is kept twice.
   */
  lemma {:induction false} DriftDataChronological(rows: seq<DriftRow>)
    requires forall i, j :: 0 <= i < j < |rows| ==> rows[i].date < rows[j].date
    ensures forall i, j :: 0 <= i < j < |DriftData(rows)| ==> DriftData(rows)[i].date < DriftData(rows)[j].date
  {
    if |rows| > 0 {
      var init := rows[..|rows| - 1];
      var last := rows[|rows| - 1];
      var before := DriftData(init);
      assert forall i, j :: 0 <= i < j < |before| ==> before[i].date < before[j].date by {
        DriftDataChronological(init);
      }
      assert forall k :: 0 <= k < |before| ==> before[k].date < last.date by {
        DriftDataDatesBelow(init, last.date);
      }
      var added := if Complete(last) then [PointOf(last)] else [];
      assert DriftData(rows) == before + added;
      assert forall k :: 0 <= k < |added| ==> added[k].date == last.date;
    }
  }

  /** A kept row's date is a date of the input, so a bound on those bounds it too. */
  lemma {:induction false} DriftDataDatesBelow(rows: seq<DriftRow>, bound: Date)
    requires forall i :: 0 <= i < |rows| ==> rows[i].date < bound
    ensures forall k :: 0 <= k < |DriftData(rows)| ==> DriftData(rows)[k].date < bound
  {
    if |rows| > 0 {
      var init := rows[..|rows| - 1];
      assert forall i :: 0 <= i < |init| ==> init[i].date < bound;
      DriftDataDatesBelow(init, bound);
    }
  }

  /** The last `n` elements, in order, as pandas `tail(n)`. */
  function Tail<T>(xs: seq<T>, n: nat): (t: seq<T>)
    ensures |t| == if |xs| <= n then |xs| else n
    ensures forall k :: 0 <= k < |t| ==> t[k] == xs[|xs| - |t| + k]
  {
    if |xs| <= n then xs else xs[|xs| - n..]
  }

  function Averages(pts: seq<TrendPoint>): (avgs: seq<real>)
    ensures |avgs| == |pts|
    ensures forall k :: 0 <= k < |pts| ==> avgs[k] == pts[k].avg
  {
    seq(|pts|, k requires 0 <= k < |pts| => pts[k].avg)
  }

  /** `min(subset.min(), THRESHOLD) - 0.05`. */
  function LowerBound(vals: seq<real>): (lo: real)
    requires |vals| > 0
    ensures forall k :: 0 <= k < |vals| ==> lo + Padding <= vals[k]
    ensures lo + Padding <= Threshold
    ensures lo + Padding == Threshold || lo + Padding in vals
  {
    var m := Min(vals);
    MinIsEntry(vals);
    (if m < Threshold then m else Threshold) - Padding
  }

  /** `max(subset.max(), THRESHOLD) + 0.05`. */
  function UpperBound(vals: seq<real>): (hi: real)
    requires |vals| > 0
    ensures forall k :: 0 <= k < |vals| ==> vals[k] <= hi - Padding
    ensures Threshold <= hi - Padding
    ensures hi - Padding == Threshold || hi - Padding in vals
  {
    var m := Max(vals);
    MaxIsEntry(vals);
    (if m > Threshold then m else Threshold) + Padding
  }

  /** Every shown average lies strictly inside the padded bounds. */
  lemma BoundsEnclose(rows: seq<TrendPoint>)
    requires |rows| > 0
    ensures forall k :: 0 <= k < |rows| ==>
              LowerBound(Averages(rows)) < rows[k].avg < UpperBound(Averages(rows))
  {
    var vals := Averages(rows);
    forall k | 0 <= k < |rows|
      ensures LowerBound(vals) < rows[k].avg < UpperBound(vals)
    {
      assert vals[k] == rows[k].avg;
    }
  }

  /** Python `int(x)`: truncation toward zero. */
  function Truncate(x: real): (n: int)
    ensures x >= 0.0 ==> n as real <= x < n as real + 1.0
    ensures x < 0.0 ==> n as real - 1.0 < x <= n as real
  {
    if x >= 0.0 then x.Floor else -((-x).Floor)
  }

  /**
   * `int(((val - min_val) / (max_val - min_val)) * 40)`: the lower bound draws no
   * bar and the upper bound a full 40 columns, which is why the padding matters.
   */
  function BarLength(val: real, lo: real, hi: real): (b: int)
    requires lo < hi
    ensures val == lo ==> b == 0
    ensures val == hi ==> b == BarWidth
  {
    var x := (val - lo) / (hi - lo) * BarWidth as real;
    assert val == hi ==> x == BarWidth as real by {
      if val == hi {
        assert (val - lo) / (hi - lo) == 1.0;
      }
    }
    Truncate(x)
  }

  /**
   * The bar is the proportional length (val - lo) / (hi - lo) * 40 truncated
   * toward zero: rounded down for a value at or above lo, rounded up below it.
   */
  lemma BarLengthTruncatesFraction(val: real, lo: real, hi: real)
    requires lo < hi
    ensures lo <= val ==>
      BarLength(val, lo, hi) as real <= (val - lo) / (hi - lo) * BarWidth as real < BarLength(val, lo, hi) as real + 1.0
    ensures val < lo ==>
      BarLength(val, lo, hi) as real - 1.0 < (val - lo) / (hi - lo) * BarWidth as real <= BarLength(val, lo, hi) as real
  {
    var x := (val - lo) / (hi - lo) * BarWidth as real;
    assert lo <= val ==> x >= 0.0 by {
      if lo <= val {
        DivideMonotone(0.0, val - lo, hi - lo);
      }
    }
    assert val < lo ==> x < 0.0 by {
      if val < lo {
        var q := (val - lo) / (hi - lo);
        assert q * (hi - lo) == val - lo;
        var p := 0.0 - q;
        assert p * (hi - lo) == lo - val;
        PositiveFactor(p, hi - lo);
      }
    }
    assert BarLength(val, lo, hi) == Truncate(x);
  }

  /** A value strictly inside the bounds gets a bar of 0 to 39 columns. */
  lemma BarLengthInRange(val: real, lo: real, hi: real)
    requires lo < val < hi
    ensures 0 <= BarLength(val, lo, hi) <= BarWidth - 1
  {
    var x := (val - lo) / (hi - lo);
    FractionInUnit(val - lo, hi - lo);
    var y := x * BarWidth as real;
    assert 0.0 < y < BarWidth as real;
  }

  lemma FractionInUnit(a: real, b: real)
    requires 0.0 < a < b
    ensures 0.0 < a / b < 1.0
  {
    var q := a / b;
    assert q * b == a;
    assert (1.0 - q) * b == b - a;
    PositiveFactor(q, b);
    PositiveFactor(1.0 - q, b);
  }

  /** A larger value never gets a shorter bar. */
  lemma BarLengthMonotone(v1: real, v2: real, lo: real, hi: real)
    requires lo < hi
    requires lo <= v1 <= v2
    ensures BarLength(v1, lo, hi) <= BarLength(v2, lo, hi)
  {
    var d := hi - lo;
    var x1 := (v1 - lo) / d * BarWidth as real;
    var x2 := (v2 - lo) / d * BarWidth as real;
    DivideMonotone(v1 - lo, v2 - lo, d);
    assert 0.0 <= x1 <= x2;
  }

  lemma DivideMonotone(a: real, b: real, d: real)
    requires 0.0 <= a <= b && d > 0.0
    ensures 0.0 <= a / d <= b / d
  {
    assert (b / d - a / d) * d == b - a;
    assert a / d * d == a;
  }

  /** '!' above the threshold, '#' otherwise. */
  function Marker(val: real): (c: char)
    ensures c == '!' <==> val > Threshold
    ensures c == '#' <==> val <= Threshold
  {
    if val > Threshold then '!' else '#'
  }

  /** The tag is shown when the value is within 0.01 of the threshold. */
  predicate NearThreshold(val: real): (near: bool)
    ensures near <==> Threshold - TagBand < val < Threshold + TagBand
  {
    (if val >= Threshold then val - Threshold else Threshold - val) < TagBand
  }

  datatype PlotLine = PlotLine(date: Date, barLen: int, marker: char, thresholdTag: bool)

  datatype Plot = Plot(latestAvg: real, driftDetected: bool, lo: real, hi: real, lines: seq<PlotLine>)

  /** One line of the plot: the date, the bar, the marker and the tag of one average. */
  function LineOf(p: TrendPoint, lo: real, hi: real): (line: PlotLine)
    requires lo < hi
    ensures line.date == p.date && line.barLen == BarLength(p.avg, lo, hi)
    ensures line.marker == '!' <==> p.avg > Threshold
    ensures line.marker == '#' <==> p.avg <= Threshold
    ensures line.thresholdTag <==> p.avg - Threshold < TagBand && Threshold - p.avg < TagBand
  {
    PlotLine(p.date, BarLength(p.avg, lo, hi), Marker(p.avg), NearThreshold(p.avg))
  }

  /** The lines of the rows inside the bounds; every bar fits the 40 columns. */
  function Lines(rows: seq<TrendPoint>, lo: real, hi: real): (lines: seq<PlotLine>)
    requires lo < hi
    requires forall k :: 0 <= k < |rows| ==> lo < rows[k].avg < hi
    ensures |lines| == |rows|
    ensures forall k :: 0 <= k < |rows| ==> lines[k] == LineOf(rows[k], lo, hi)
    ensures forall k :: 0 <= k < |rows| ==> 0 <= lines[k].barLen <= BarWidth - 1
  {
    var lines := seq(|rows|, k requires 0 <= k < |rows| => LineOf(rows[k], lo, hi));
    assert forall k :: 0 <= k < |rows| ==> 0 <= lines[k].barLen <= BarWidth - 1 by {
      forall k | 0 <= k < |rows|
        ensures 0 <= lines[k].barLen <= BarWidth - 1
      {
        BarLengthInRange(rows[k].avg, lo, hi);
      }
    }
    lines
  }

  /**
   * `generate_ascii_plot`: indexing the latest row fails on empty data (None);
   * otherwise the status, the bounds and one line for each of the last 30 rows
   * in date order.
   */
  function GeneratePlot(pts: seq<TrendPoint>): (r: Option<Plot>)
    ensures r.None? <==> |pts| == 0
    ensures r.Some? ==> r.value.latestAvg == pts[|pts| - 1].avg
    ensures r.Some? ==> (r.value.driftDetected <==> pts[|pts| - 1].avg > Threshold)
    ensures r.Some? ==> r.value.hi - r.value.lo >= 2.0 * Padding
    ensures r.Some? ==> |r.value.lines| == (if |pts| <= TrendRows then |pts| else TrendRows)
  {
    if |pts| == 0 then None
    else
      var latest := pts[|pts| - 1].avg;
      var subset := Tail(pts, TrendRows);
      var vals := Averages(subset);
      var lo, hi := LowerBound(vals), UpperBound(vals);
      BoundsEnclose(subset);
      Some(Plot(latest, latest > Threshold, lo, hi, Lines(subset, lo, hi)))
  }

  /** The plot is scaled to the padded bounds of the last min(30, n) averages. */
  lemma PlotUsesPaddedBounds(pts: seq<TrendPoint>)
    requires |pts| > 0
    ensures GeneratePlot(pts).value.lo == LowerBound(Averages(Tail(pts, TrendRows)))
    ensures GeneratePlot(pts).value.hi == UpperBound(Averages(Tail(pts, TrendRows)))
  {
  }

  /**
   * The k-th line of a plot draws the k-th of the last rows: its average lies
   * strictly inside the bounds and its bar takes 0 to 39 columns.
   */
  lemma PlotLineDrawsRow(pts: seq<TrendPoint>, k: nat)
    requires k < |pts| && k < TrendRows
    ensures var plot := GeneratePlot(pts).value;
      plot.lo < pts[|pts| - |plot.lines| + k].avg < plot.hi
      && plot.lines[k] == LineOf(pts[|pts| - |plot.lines| + k], plot.lo, plot.hi)
      && 0 <= plot.lines[k].barLen <= BarWidth - 1
  {
    var plot := GeneratePlot(pts).value;
    var subset := Tail(pts, TrendRows);
    var vals := Averages(subset);
    BoundsEnclose(subset);
    assert plot.lo == LowerBound(vals) && plot.hi == UpperBound(vals);
    assert plot.lines == Lines(subset, plot.lo, plot.hi);
    assert subset[k] == pts[|pts| - |plot.lines| + k];
  }

  /** The newest line's marker agrees with the plot's status: '!' exactly when drift is reported. */
  lemma LatestLineShowsStatus(pts: seq<TrendPoint>)
    requires |pts| > 0
    ensures var plot := GeneratePlot(pts).value;
      plot.lines[|plot.lines| - 1].marker == '!' <==> plot.driftDetected
  {
    var plot := GeneratePlot(pts).value;
    var k := |plot.lines| - 1;
    assert plot.lines[k] == LineOf(pts[|pts| - 1], plot.lo, plot.hi) by {
      PlotLineDrawsRow(pts, k);
    }
  }

  /** Within one plot, a higher average never draws a shorter bar. */
  lemma PlotBarsMonotone(pts: seq<TrendPoint>, i: nat, j: nat)
    requires i < |pts| && i < TrendRows && j < |pts| && j < TrendRows
    requires var n := if |pts| <= TrendRows then |pts| else TrendRows; pts[|pts| - n + i].avg <= pts[|pts| - n + j].avg
    ensures GeneratePlot(pts).value.lines[i].barLen <= GeneratePlot(pts).value.lines[j].barLen
  {
    var n := if |pts| <= TrendRows then |pts| else TrendRows;
    var a, b := pts[|pts| - n + i].avg, pts[|pts| - n + j].avg;
    var plot := GeneratePlot(pts).value;
    assert plot.lo < a && plot.lines[i].barLen == BarLength(a, plot.lo, plot.hi) by {
      PlotBar(pts, i);
    }
    assert plot.lines[j].barLen == BarLength(b, plot.lo, plot.hi) by {
      PlotBar(pts, j);
    }
    assert BarLength(a, plot.lo, plot.hi) <= BarLength(b, plot.lo, plot.hi) by {
      BarLengthMonotone(a, b, plot.lo, plot.hi);
    }
  }

  /** The bar of line k is the bar of the k-th shown average, which lies inside the bounds. */
  lemma PlotBar(pts: seq<TrendPoint>, k: nat)
    requires k < |pts| && k < TrendRows
    ensures var n := if |pts| <= TrendRows then |pts| else TrendRows;
      GeneratePlot(pts).value.lo < pts[|pts| - n + k].avg < GeneratePlot(pts).value.hi
      && GeneratePlot(pts).value.lines[k].barLen
         == BarLength(pts[|pts| - n + k].avg, GeneratePlot(pts).value.lo, GeneratePlot(pts).value.hi)
  {
    PlotLineDrawsRow(pts, k);
  }
}
