# Project Alpha style-drift monitor: a Dafny model

Project Alpha watches a sleeve of defensive sector ETFs (XLU, XLV, GLD and
XLP) for *style drift*. Style drift means their correlation with the market
(SPY) rises until they stop diversifying. This project models the decision
logic of the monitoring scripts and proves properties of it. Prices and
correlations are exact `real`s. A correlation that pandas would report as NaN
is `None` in an `Option<real>`.

The modules follow the scripts:

- `Wrappers` (wrappers.dfy) and `Market` (market.dfy): `Option`, ticker symbols and trading days.
- `Stats` (stats.dfy): the shared arithmetic.
  - Sums, extremes and the arithmetic mean.
  - The two NaN rules for means. `np.mean` and `sum/len` propagate NaN; pandas `mean(axis=1)` skips it.
  - Python's "every comparison with NaN is false".
  - The compounded growth factor of a return series.
- `ReturnSeries` (return_series.dfy): the pure part of `get_returns_from_db`.
  - The query rows are pivoted into one price column per ticker over the sorted distinct dates.
  - Each column becomes `pct_change()` with the first row filled with 0.
  - An empty result or a database error becomes an empty frame.
- `DriftMonitor` (drift_monitor.dfy):
  - the empty-frame guard of `calculate_rolling_correlation_matrix`;
  - the per-date scoring and alerting of `detect_convergence`, as a loop with invariants;
  - the block that `save_snapshot` writes.
- `RiskManager` (risk_manager.dfy):
  - `calculate_drift_adjusted_weight`;
  - the reduction percentage, the status and the XLV → XLP swap rule of `run_risk_check_v2`.
- `DriftBreakdown` (drift_breakdown.dfy): the per-asset status, the average and the primary drift driver of `run_drift_breakdown`.
- `AsciiTrend` (visualize_drift_ascii.py → ascii_trend.dfy):
  - the row average and the `dropna` filter;
  - the status, padded bounds, bar length, marker and threshold tag of `generate_ascii_plot`.
- `Backtest` (backtest_comparison.py → backtest.dfy):
  - the equal-weight portfolio returns;
  - the cumulative and total return;
  - the guarded Sharpe ratio;
  - alpha;
  - the three-way conclusion.

Rolling correlations, standard deviations, `sqrt(252)` and percentiles are
library float numerics. They enter the model as inputs. Database reads,
printing and file writes are not modelled. The model only records which data
each step chooses or computes.

## Model

| member | source | states |
|---|---|---|
| Stats.Mean | drift_breakdown.py:56 | The mean of a non-empty series, times the number of entries, gives back their sum (it is sum / len); it lies between the smallest and largest element. |
| Stats.NanMean | drift_monitor.py:96 | `np.mean` is defined exactly when the list is non-empty and holds no NaN, and it is then sum / count, bounded by the extremes. |
| Stats.SkipNaMean | visualize_drift_ascii.py:47 | The row mean skips NaN. It is NaN only when every entry is NaN, lies between some defined entry and another, and equals `np.mean` when nothing is NaN. |
| Stats.SkipNaMeanIsMeanOfDefined | visualize_drift_ascii.py:47 | When defined, the row mean is the sum of the defined entries divided by their count. |
| Stats.GrowthAppend | backtest_comparison.py:34 | One more day multiplies the compounded growth factor by (1 + r). |
| Stats.GrowthPositive | backtest_comparison.py:46 | If no daily return is -100% or worse, the product of (1 + r) stays positive. |
| ReturnSeries.Find | drift_monitor.py:46 | A pivot cell holds a price exactly when the query returned a row with that (date, ticker). |
| ReturnSeries.FindReturnsRowPrice | drift_monitor.py:46 | The price in a pivot cell is the `adj_close` of a returned row with that date and ticker. |
| ReturnSeries.Dates | drift_monitor.py:46 | The pivot index is strictly ascending, begins with the first row's date and holds exactly the dates that occur in the rows. |
| ReturnSeries.PctChange | drift_monitor.py:48-49 | A column's returns have one entry per price and start at 0 (the filled NaN). |
| ReturnSeries.PctChangeStep | drift_monitor.py:48 | Each later return turns the previous price into the current one: price = previous price · (1 + return). |
| ReturnSeries.ReturnColumn | drift_monitor.py:46-49 | Ticker t's column has one entry per pivot date and starts at 0. |
| ReturnSeries.ReturnColumnIsOwnPctChange | drift_monitor.py:46-49 | Ticker t's column is the percentage change of t's own prices over the pivot dates. Each of those prices is the one the query returned for t on that date, and none but the last is 0. |
| ReturnSeries.Pivot | drift_monitor.py:46-49 | A non-empty result has the ascending dates as index, exactly the tickers that occur as columns (at least one), and each ticker's own return column. |
| ReturnSeries.ReturnsFromQuery | drift_monitor.py:39-52 | The frame is empty (and equals the empty frame) exactly on a database error or an empty result. Otherwise its index and columns are as above, each column is as long as the index and each starts at 0. |
| ReturnSeries.PricesCompound | drift_monitor.py:48-49 | Compounding a column's returns from its first price reproduces every later price. |
| ReturnSeries.NoCrossTickerLeakage | drift_monitor.py:46-49 | A ticker's return column depends only on that ticker's own prices. |
| ReturnSeries.TwoDayExample | test_drift_monitor.py:32-53 | Prices 100→101 and 200→202 over two dates give the index [1, 2], the columns XLE and SPY, and the returns [0, 0.01] in both. |
| DriftMonitor.RollingCorrelationMatrix | drift_monitor.py:60-65 | The result is None exactly when the returns frame is empty. Otherwise it is the rolling correlation table. |
| DriftMonitor.ValidDefensive | drift_monitor.py:89 | The participating assets are exactly the configured defensive assets that are columns of the day's matrix, and only if the market asset is one of its rows. |
| DriftMonitor.ValidDefensiveCounts | drift_monitor.py:89 | The comprehension keeps multiplicity: each asset takes part as often as it is configured when it is a column and the market is a row, and not at all otherwise. So the day's mean weighs each configured entry once. |
| DriftMonitor.MarketCorrelations | drift_monitor.py:93 | One correlation per participating asset, read from the market row of the day's matrix. |
| DriftMonitor.ScoreDay | drift_monitor.py:89-96 | A day is skipped exactly when the market row is missing or no defensive asset is a column. Its mean is undefined exactly when a present asset's correlation is NaN. Otherwise the mean is sum / count of the present assets' correlations, between their extremes. |
| DriftMonitor.DriftingDateIsComplete | drift_monitor.py:89-103 | A drifting date has the market asset as a row, at least one defensive asset as a column, and no NaN among those assets' correlations. |
| DriftMonitor.AlertOf | drift_monitor.py:103-104 | An alert carries the date of the matrix it was raised on. |
| DriftMonitor.AlertsAreDriftingDates | drift_monitor.py:80-104 | Every date whose mean is strictly above the threshold yields an alert, and every alert comes from such a date with that date's mean. |
| DriftMonitor.NoAlertsIffNoDrift | drift_monitor.py:106-112 | The alert list is empty exactly when no date drifts. |
| DriftMonitor.AlertsInDateOrder | drift_monitor.py:80-104 | With ascending dates, the alerts come out in strictly ascending date order, one per drifting date. |
| DriftMonitor.DetectConvergence | drift_monitor.py:67-112 | None or an empty table gives (false, None). Otherwise the result is (true, alerts) with alerts non-empty exactly when some date drifts, and (false, None) otherwise, never (true, []). The alerts are those of all drifting dates in table order. |
| DriftMonitor.SaveSnapshot | drift_monitor.py:115-126 | Nothing is written for None or an empty table. Otherwise the written matrix belongs to the table and is the block of the last date in the index, which is the latest date when the dates ascend. |
| DriftMonitor.EmptyInputIsExplicit | drift_monitor.py:41-61 | A database error or an empty result gives the empty frame, no correlation table and no snapshot, not an exception. |
| DriftMonitor.TestDayScore | test_drift_monitor.py:91-121 | On a matrix where SPY correlates with XLU and GLD at x and g, the day's mean over XLU and GLD is (x + g) / 2. |
| DriftMonitor.TwoDateScenario | test_drift_monitor.py:91-124 | Means 0.75 and 0.9 against threshold 0.85 give exactly one alert, on the second date, with mean 0.9. |
| DriftMonitor.ThresholdIsStrict | drift_monitor.py:103 | A mean exactly equal to the threshold does not alert. |
| RiskManager.DriftAdjustedWeight | risk_manager.py:20-34 | At or below target the weight is the base weight. For a non-negative base it stays in [0, base]. For a positive base it equals the base only at or below target, and it is 0 exactly when the drift is at least 2/3 (sensitivity 1.5 with the clamp at 0). |
| RiskManager.WeightMonotone | risk_manager.py:26-34 | For a non-negative base, a higher current correlation never gives a larger weight. |
| RiskManager.WeightScenario | risk_manager.py:30-34 | Base 0.25, correlation 0.20 and target 0.10 give 0.2125. A correlation below target keeps 0.25. |
| RiskManager.WeightFor | risk_manager.py:26-34 | A NaN correlation gives weight 0, because `nan <= target` is false and `max(0, nan)` is 0. A defined one gives the formula's weight, within [0, base]. |
| RiskManager.ReductionPercent | risk_manager.py:75 | For a weight in [0, 0.25] the reduction is in [0, 100]. It is 0 exactly at the full weight and 100 exactly at weight 0, and the weight is recovered as (1 - pct/100) · 0.25. |
| RiskManager.StatusOf | risk_manager.py:77 | DRIFT exactly when the correlation is defined and strictly above 0.15. |
| RiskManager.DriftStatusCutsWeight | risk_manager.py:74-77 | An asset marked DRIFT always has its weight cut: its reduction is positive and its weight is below 0.25. |
| RiskManager.SwapAdvice | risk_manager.py:100-104 | Swap XLV for XLP exactly when both correlations are defined and XLP's is lower than XLV's by strictly more than 0.05. |
| RiskManager.SwapFavoursLowerCut | risk_manager.py:100-104 | When a swap is advised, XLP's drift-adjusted weight is at least XLV's. |
| RiskManager.SwapScenarios | risk_manager.py:100-104 | XLV 0.30 against XLP 0.24 swaps. Against 0.27, or against 0.25 (a gap of exactly 0.05), it maintains. |
| RiskManager.AssessAsset | risk_manager.py:67-84 | One asset's row: the weight is in [0, 0.25] and the reduction in [0, 100], with weight = (1 - reduction/100) · 0.25. The reduction is 0 exactly when the correlation is defined and at most 0.10, and 100 exactly when it is NaN or at least 2/3 above target. |
| RiskManager.FindRow | risk_manager.py:93-94 | `next(...)` picks the first row for the asset. |
| RiskManager.RiskCheck | risk_manager.py:67-104 | One row per defensive asset in configured order, each assessed from that asset's correlation. The recommendation is the swap rule applied to XLV's and XLP's correlations. |
| DriftBreakdown.AssetStatus | drift_breakdown.py:53 | DRIFT exactly when the correlation is defined and strictly above 0.10. |
| DriftBreakdown.Average | drift_breakdown.py:56 | `sum/len` is defined exactly when no correlation is NaN. It is then the sum divided by the count, between the smallest and the largest. |
| DriftBreakdown.PrimaryDriverIndex | drift_breakdown.py:62 | The driver is one of the assets. When no correlation is NaN, its correlation is at least every other one and strictly greater than every earlier one, so the first maximum wins. |
| DriftBreakdown.RunBreakdown | drift_breakdown.py:46-62 | Exactly one entry per defensive asset in configured order with that asset's status. The average is `sum/len`, and the driver is the asset at the primary-driver position. |
| DriftBreakdown.DriverDriftsWhenAverageDoes | drift_breakdown.py:53-62 | If the average is above 0.10, the primary driver is itself marked DRIFT. |
| DriftBreakdown.TieGoesToFirst | drift_breakdown.py:47-62 | Correlations 0.2, 0.3, 0.3 make XLV, the earlier of the tied assets, the driver. |
| DriftBreakdown.LeadingNaNIsDriver | drift_breakdown.py:62 | A NaN first correlation is never replaced, so the first asset is then the driver. |
| AsciiTrend.RowAverage | visualize_drift_ascii.py:47 | The row average is NaN only when all correlations are. It equals their arithmetic mean when none is; its value with some NaN is given by Stats.SkipNaMeanIsMeanOfDefined. |
| AsciiTrend.KeptIffAllDefined | visualize_drift_ascii.py:47-48 | `dropna` keeps a row exactly when it has correlations and none is NaN. |
| AsciiTrend.PointOf | visualize_drift_ascii.py:44-48 | A kept row keeps its date and its correlations, and its average is their sum / count, between their extremes. |
| AsciiTrend.PointOfKeepsRowAverage | visualize_drift_ascii.py:47-48 | A complete row is kept, and its point carries the average that `mean(axis=1)` computed for it. |
| AsciiTrend.DriftData | visualize_drift_ascii.py:44-48 | `dropna` never yields more rows than it was given. |
| AsciiTrend.DriftDataKeepsDefinedRows | visualize_drift_ascii.py:40-48 | Every row whose correlations are all defined survives with its average, and every surviving row comes from such a row. |
| AsciiTrend.DriftDataChronological | visualize_drift_ascii.py:44-48 | With dates ascending, the kept rows stay in strictly ascending date order, so each date is kept at most once. |
| AsciiTrend.Tail | visualize_drift_ascii.py:64 | `tail(30)` keeps the last min(30, n) rows in order. |
| AsciiTrend.LowerBound | visualize_drift_ascii.py:67 | The lower bound is 0.05 below both the smallest average and the threshold, and 0.05 below one of them: it is min(smallest, 0.10) - 0.05. |
| AsciiTrend.UpperBound | visualize_drift_ascii.py:68 | The upper bound is 0.05 above both the largest average and the threshold, and 0.05 above one of them: it is max(largest, 0.10) + 0.05. |
| AsciiTrend.Truncate | visualize_drift_ascii.py:73 | `int()` truncates toward zero. |
| AsciiTrend.BarLength | visualize_drift_ascii.py:73 | A value at the lower bound draws no bar and one at the upper bound a full 40 columns. |
| AsciiTrend.BarLengthTruncatesFraction | visualize_drift_ascii.py:73 | The bar is the proportional length (val - lo) / (hi - lo) · 40 truncated toward zero, as `int()` does: for a value at or above lo the bar is the whole number at or just below it, and below lo the whole number at or just above it. |
| AsciiTrend.BarLengthInRange | visualize_drift_ascii.py:67-73 | A value strictly inside the bounds gets a bar of 0 to 39 characters. |
| AsciiTrend.BarLengthMonotone | visualize_drift_ascii.py:73 | A larger value never gets a shorter bar. |
| AsciiTrend.Marker | visualize_drift_ascii.py:74 | '!' exactly when the value is strictly above 0.10, '#' exactly when it is not. |
| AsciiTrend.NearThreshold | visualize_drift_ascii.py:77 | The tag condition `abs(val - 0.10) < 0.01` holds exactly for values strictly between 0.09 and 0.11. |
| AsciiTrend.LineOf | visualize_drift_ascii.py:70-78 | The marker is '!' exactly when the value is strictly above 0.10, else '#'. The tag is shown exactly when the value is within 0.01 of 0.10. |
| AsciiTrend.Lines | visualize_drift_ascii.py:70-79 | One line per shown row, in order, each bar within 0 to 39 characters. |
| AsciiTrend.BoundsEnclose | visualize_drift_ascii.py:64-68 | Every shown average lies strictly inside the padded bounds. |
| AsciiTrend.GeneratePlot | visualize_drift_ascii.py:50-79 | Empty data gives no plot, as indexing the latest row fails. Otherwise the status is drift exactly when the latest average is strictly above 0.10, the bounds are at least 0.10 apart, and there are min(30, n) lines. |
| AsciiTrend.PlotUsesPaddedBounds | visualize_drift_ascii.py:64-68 | The plot's bounds are exactly the padded bounds of the last min(30, n) averages. |
| AsciiTrend.PlotLineDrawsRow | visualize_drift_ascii.py:64-78 | The k-th line draws the k-th of the last min(30, n) rows, in date order. That row's average is strictly inside the bounds and its bar takes 0 to 39 columns. |
| AsciiTrend.LatestLineShowsStatus | visualize_drift_ascii.py:59-74 | The newest line's marker is '!' exactly when the plot reports drift. |
| AsciiTrend.PlotBarsMonotone | visualize_drift_ascii.py:64-73 | Within one plot, a higher average never draws a shorter bar. |
| Backtest.PortfolioReturn | backtest_comparison.py:31-38 | A portfolio's daily return is a third of each of its three assets' returns, so it lies between the worst and the best of them. |
| Backtest.PortfolioReturns | backtest_comparison.py:33 | One portfolio return per date, in order. |
| Backtest.MarketReturns | backtest_comparison.py:42 | The market series is SPY's return on each date. |
| Backtest.TotalReturn | backtest_comparison.py:46 | No dates give a total return of 0, since the empty product is 1. One date gives that date's return. |
| Backtest.TotalReturnAboveMinusOne | backtest_comparison.py:46 | If no day loses 100% or more, the total return is above -100%. |
| Backtest.CumProd | backtest_comparison.py:34 | One curve point per date, the first being 1 plus the first return. |
| Backtest.CumProdIsGrowth | backtest_comparison.py:34 | Each point of the cumulative curve is the compounded growth up to that date. |
| Backtest.CumProdEndsAtTotalReturn | backtest_comparison.py:34-46 | The last point of the cumulative curve is one plus the total return. |
| Backtest.Sharpe | backtest_comparison.py:48 | The Sharpe ratio is 0 when the deviation is 0. Otherwise it is mean · annualiser / deviation, so no zero divisor is ever used. |
| Backtest.SharpeSign | backtest_comparison.py:48 | With a positive deviation and annualiser, the ratio is positive, zero or negative as the mean return is. |
| Backtest.GetStats | backtest_comparison.py:45-50 | The total return is the growth minus 1. Volatility is the deviation times the annualiser, the Sharpe ratio uses the series' mean, and VaR is passed through. |
| Backtest.Alpha | backtest_comparison.py:67-68 | Alpha is positive exactly when the portfolio's total return beats SPY's, and alpha plus SPY's return gives the portfolio's. |
| Backtest.Conclude | backtest_comparison.py:74-79 | Superior exactly when the swap earns more with lower volatility. Otherwise defensively superior exactly when its VaR is higher. Otherwise mixed. |
| Backtest.SuperiorHasLargerAlpha | backtest_comparison.py:67-79 | A superior swap also has the larger alpha against SPY. |
| Backtest.RunBacktest | backtest_comparison.py:25-79 | No returns gives no report. Otherwise the three series' statistics, both alphas against SPY and the conclusion. |
| Backtest.CompoundingScenario | backtest_comparison.py:34-46 | +10% then -10% compound to a curve [1.1, 0.99] and a total return of -1%. |

## Left out

- Pearson correlation, in the pandas `rolling().corr()` and `DataFrame.corr()` calls of every script. It is float numerics with square roots and library windowing. Correlations are inputs (`Option<real>`, with `None` for NaN), as a `CorrTable` in `DriftMonitor`, a list of latest correlations in `RiskManager` and `DriftBreakdown`, and `DriftRow`s in `AsciiTrend`.
- Standard deviation, `np.sqrt(252)`, `np.percentile` and `calculate_var`. They are float numerics. The deviation and the 5% VaR of each backtest series are inputs (`Spread`), and so is the annualiser.
- The SQL in every script, the `LOOKBACK_DAYS` date filter, the `os.path.exists` checks and the scripts' `__main__` orchestration. These are I/O. A query's outcome is an input (`QueryOutcome`); rows are assumed ordered by date, as the SQL orders them.
- Printing, message text, `strftime` date formatting and the CSV write. Only the data each step chooses or computes is modelled: alerts carry a date and a mean instead of their message text, and `SaveSnapshot` returns the matrix instead of writing it.
- ReturnSeries.ReturnsFromQuery requires rows that pandas can pivot cleanly: unique (date, ticker) pairs (pivot raises on duplicates), a price for every ticker on every date (pct_change's filling of gaps is not modelled) and no zero prior price (a division by zero gives inf).
- DriftMonitor.DetectConvergence and DriftMonitor.SaveSnapshot require each date to occur once in the table, as in the first level of a rolling-correlation index.
- Backtest.RunBacktest: a frame with no dates left after `dropna` is folded into "no report". The source would print NaN statistics or fail inside `np.percentile`.
- The backtest's `pct_change().tail(90).dropna()` window selection: the model starts from the returns it leaves.
- The percentage in the swap message (`(xlv - xlp) / xlv`): message text only.
- The `main()` test of test_drift_monitor.py: it calls a function drift_monitor.py does not define.
- visualize_drift.py (matplotlib), drift_monitor_pg.py, ingest_etf_data.py, migrate_to_pg.py, initialize_sector_etfs_db.py and email-sender: plotting, database and network scripts outside this model.
- RiskManager.SwapAdvice: the swap needs a gap strictly above 0.05 (`xlp < xlv - 0.05`, risk_manager.py:100); a gap of exactly 0.05 maintains XLV.
- Float rounding: every price, return, correlation and constant is an exact `real`. Comparisons at the 0.05 swap margin, the 0.10 and 0.15 thresholds and the 0.01 tag band are exact, where the scripts' doubles may round a value that is equal on paper to either side.
