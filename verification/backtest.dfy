/**
 * backtest_comparison.py: two equal-weight three-asset portfolios against SPY,
 * their compounded returns, the guarded Sharpe ratio, alpha and the conclusion.
 * Standard deviation, the square root of 252 and the 5th percentile are float
 * numerics taken as inputs.
 */
module Backtest {
  import opened Wrappers
  import opened Stats

  /** One date of daily returns after `pct_change().tail(90).dropna()`. */
  datatype DayReturns = DayReturns(xlu: real, xlv: real, gld: real, xlp: real, spy: real)

  /** Baseline holds XLU, XLV, GLD; Proposed swaps XLV for XLP. */
  datatype Basket = Baseline | Proposed

  function Holdings(b: Basket, d: DayReturns): (xs: seq<real>)
    ensures |xs| == 3
  {
    match b
    case Baseline => [d.xlu, d.xlv, d.gld]
    case Proposed => [d.xlu, d.xlp, d.gld]
  }

  /**
   * `returns[assets].mean(axis=1)` for one date: a third of each asset's return,
   * so the portfolio never does better than its best asset nor worse than its worst.
   */
  function PortfolioReturn(b: Basket, d: DayReturns): (r: real)
    ensures var xs := Holdings(b, d); r == xs[0] / 3.0 + xs[1] / 3.0 + xs[2] / 3.0
    ensures var xs := Holdings(b, d); Min(xs) <= r <= Max(xs)
  {
    var xs := Holdings(b, d);
    assert Sum(xs) == xs[0] + (xs[1] + xs[2]) by {
      var t := xs[1..];
      assert t[1..] == [xs[2]];
      assert Sum([xs[2]]) == xs[2] + Sum([xs[2]][1..]);
      assert Sum(t) == xs[1] + Sum(t[1..]);
    }
    Mean(xs)
  }

  /** The daily return series of one portfolio. */
  function PortfolioReturns(b: Basket, days: seq<DayReturns>): (rs: seq<real>)
    ensures |rs| == |days|
    ensures forall k :: 0 <= k < |days| ==> rs[k] == PortfolioReturn(b, days[k])
  {
    seq(|days|, k requires 0 <= k < |days| => PortfolioReturn(b, days[k]))
  }

  function MarketReturns(days: seq<DayReturns>): (rs: seq<real>)
    ensures |rs| == |days|
    ensures forall k :: 0 <= k < |days| ==> rs[k] == days[k].spy
  {
    seq(|days|, k requires 0 <= k < |days| => days[k].spy)
  }

  /** `(rs + 1).prod() - 1`; the product of an empty series is 1. */
  function TotalReturn(rs: seq<real>): (t: real)
    ensures |rs| == 0 ==> t == 0.0
    ensures |rs| == 1 ==> t == rs[0]
  {
    assert |rs| == 1 ==> Growth(rs) == (1.0 + rs[0]) * Growth(rs[1..]) && rs[1..] == [];
    Growth(rs) - 1.0
  }

  /** If no day loses everything, neither does the whole period. */
  lemma TotalReturnAboveMinusOne(rs: seq<real>)
    requires forall i :: 0 <= i < |rs| ==> rs[i] > -1.0
    ensures TotalReturn(rs) > -1.0
  {
    GrowthPositive(rs);
  }

  /** `(1 + rs).cumprod()`, each entry `acc` times the growth up to that date. */
  function CumProdFrom(rs: seq<real>, acc: real): (c: seq<real>)
    ensures |c| == |rs|
    decreases |rs|
  {
    if |rs| == 0 then [] else [acc * (1.0 + rs[0])] + CumProdFrom(rs[1..], acc * (1.0 + rs[0]))
  }

  function CumProd(rs: seq<real>): (c: seq<real>)
    ensures |c| == |rs|
    ensures |rs| > 0 ==> c[0] == 1.0 + rs[0]
  {
    CumProdFrom(rs, 1.0)
  }

  lemma {:induction false} CumProdFromGrowth(rs: seq<real>, acc: real, i: nat)
    requires i < |rs|
    ensures CumProdFrom(rs, acc)[i] == acc * Growth(rs[..i + 1])
  {
    var a := acc * (1.0 + rs[0]);
    if i == 0 {
      assert rs[..1] == [rs[0]];
      assert Growth([rs[0]]) == (1.0 + rs[0]) * Growth([rs[0]][1..]);
      assert [rs[0]][1..] == [];
    } else {
      CumProdFromGrowth(rs[1..], a, i - 1);
      assert rs[1..][..i] == rs[..i + 1][1..];
      var g := Growth(rs[1..][..i]);
      assert Growth(rs[..i + 1]) == (1.0 + rs[0]) * g;
      assert CumProdFrom(rs, acc)[i] == a * g;
    }
  }

  /** Each cumulative entry is the growth of the returns so far. */
  lemma CumProdIsGrowth(rs: seq<real>, i: nat)
    requires i < |rs|
    ensures CumProd(rs)[i] == Growth(rs[..i + 1])
  {
    CumProdFromGrowth(rs, 1.0, i);
  }

  /** The last point of the cumulative curve is one plus the total return. */
  lemma CumProdEndsAtTotalReturn(rs: seq<real>)
    requires |rs| > 0
    ensures CumProd(rs)[|rs| - 1] == TotalReturn(rs) + 1.0
  {
    CumProdIsGrowth(rs, |rs| - 1);
    assert rs[..|rs|] == rs;
  }

  /**
   * `(mean / std) * sqrt(252) if std != 0 else 0`: the ratio is only formed with
   * a non-zero divisor.
   */
  function Sharpe(mean: real, std: real, annual: real): (s: real)
    ensures std == 0.0 ==> s == 0.0
    ensures std != 0.0 ==> s * std == mean * annual
  {
    if std != 0.0 then
      var q := mean / std;
      assert q * std == mean;
      q * annual
    else 0.0
  }

  /** With a positive spread, the Sharpe ratio has the sign of the mean return. */
  lemma SharpeSign(mean: real, std: real, annual: real)
    requires std > 0.0 && annual > 0.0
    ensures Sharpe(mean, std, annual) > 0.0 <==> mean > 0.0
    ensures Sharpe(mean, std, annual) == 0.0 <==> mean == 0.0
  {
    var s := Sharpe(mean, std, annual);
    var q := mean / std;
    assert s == q * annual;
    assert q * std == mean;
    if mean > 0.0 {
      PositiveFactor(q, std);
      PositiveProduct(q, annual);
    } else if mean == 0.0 {
      assert q == 0.0;
    } else {
      assert (-q) * std == -mean;
      PositiveFactor(-q, std);
      PositiveProduct(-q, annual);
    }
  }

  /** The float statistics of one series: sample deviation and 5th percentile. */
  datatype Spread = Spread(std: real, var95: real)

  datatype SeriesStats = SeriesStats(totalReturn: real, vol: real, sharpe: real, var95: real)

  /** `get_stats`: total return, annualised volatility, guarded Sharpe, VaR. */
  function GetStats(rs: seq<real>, spread: Spread, annual: real): (st: SeriesStats)
    requires |rs| > 0
    ensures st.totalReturn + 1.0 == Growth(rs)
    ensures st.vol == spread.std * annual && st.var95 == spread.var95
    ensures st.sharpe == Sharpe(Mean(rs), spread.std, annual)
  {
    SeriesStats(TotalReturn(rs), spread.std * annual, Sharpe(Mean(rs), spread.std, annual), spread.var95)
  }

  /** Excess total return over the market. */
  function Alpha(portfolio: SeriesStats, market: SeriesStats): (a: real)
    ensures a > 0.0 <==> portfolio.totalReturn > market.totalReturn
    ensures a + market.totalReturn == portfolio.totalReturn
  {
    portfolio.totalReturn - market.totalReturn
  }

  datatype Conclusion = Superior | DefensivelySuperior | Mixed

  /**
   * The proposed swap is superior when it earns more with less volatility;
   * failing that, defensively superior when its VaR is higher; otherwise mixed.
   */
  function Conclude(baseline: SeriesStats, proposed: SeriesStats): (c: Conclusion)
    ensures c == Superior <==> proposed.totalReturn > baseline.totalReturn && proposed.vol < baseline.vol
    ensures c == DefensivelySuperior <==>
      !(proposed.totalReturn > baseline.totalReturn && proposed.vol < baseline.vol) && proposed.var95 > baseline.var95
    ensures c == Mixed <==>
      !(proposed.totalReturn > baseline.totalReturn && proposed.vol < baseline.vol) && proposed.var95 <= baseline.var95
  {
    if proposed.totalReturn > baseline.totalReturn && proposed.vol < baseline.vol then Superior
    else if proposed.var95 > baseline.var95 then DefensivelySuperior
    else Mixed
  }

  datatype Report = Report(
    baseline: SeriesStats, proposed: SeriesStats, market: SeriesStats,
    alphaBaseline: real, alphaProposed: real, conclusion: Conclusion)

  /**
   * `run_backtest`: no returns (None, or no date left after `dropna`) ends with
   * no report; otherwise the three series' statistics, both alphas and the verdict.
   */
  function RunBacktest(data: Option<seq<DayReturns>>, baseline: Spread, proposed: Spread,
                       market: Spread, annual: real): (r: Option<Report>)
    ensures r.None? <==> data.None? || |data.value| == 0
    ensures r.Some? ==>
      && r.value.baseline == GetStats(PortfolioReturns(Baseline, data.value), baseline, annual)
      && r.value.proposed == GetStats(PortfolioReturns(Proposed, data.value), proposed, annual)
      && r.value.market == GetStats(MarketReturns(data.value), market, annual)
    ensures r.Some? ==> r.value.alphaBaseline == r.value.baseline.totalReturn - r.value.market.totalReturn
    ensures r.Some? ==> r.value.alphaProposed == r.value.proposed.totalReturn - r.value.market.totalReturn
    ensures r.Some? ==> r.value.conclusion == Conclude(r.value.baseline, r.value.proposed)
  {
    match data
    case None => None
    case Some(days) =>
      if |days| == 0 then None
      else
        var p1 := GetStats(PortfolioReturns(Baseline, days), baseline, annual);
        var p2 := GetStats(PortfolioReturns(Proposed, days), proposed, annual);
        var spy := GetStats(MarketReturns(days), market, annual);
        Some(Report(p1, p2, spy, Alpha(p1, spy), Alpha(p2, spy), Conclude(p1, p2)))
  }

  /**
   * A superior swap also has the larger alpha: both alphas are measured against
   * the same SPY return, so the one with the higher total return wins.
   */
  lemma SuperiorHasLargerAlpha(data: Option<seq<DayReturns>>, baseline: Spread, proposed: Spread,
                               market: Spread, annual: real)
    requires RunBacktest(data, baseline, proposed, market, annual).Some?
    requires RunBacktest(data, baseline, proposed, market, annual).value.conclusion == Superior
    ensures RunBacktest(data, baseline, proposed, market, annual).value.alphaProposed
          > RunBacktest(data, baseline, proposed, market, annual).value.alphaBaseline
  {
    var r := RunBacktest(data, baseline, proposed, market, annual).value;
    assert r.proposed.totalReturn > r.baseline.totalReturn;
  }

  /** Two days of +10% then -10% compound to a 1% loss. */
  lemma CompoundingScenario()
    ensures TotalReturn([0.1, -0.1]) == -0.01
    ensures CumProd([0.1, -0.1]) == [1.1, 0.99]
  {
    assert [0.1, -0.1][1..] == [-0.1];
    assert [-0.1][1..] == [];
  }
}
