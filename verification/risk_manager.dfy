/**
 * risk_manager.py: the drift-adjusted weight formula and, for the latest
 * correlation of each defensive asset with SPY, the reduction percentage, the
 * drift status and the XLV -> XLP swap recommendation of `run_risk_check_v2`.
 */
module RiskManager {
  import opened Wrappers
  import opened Stats
  import opened Market

  const DefensiveAssets: seq<Ticker> := ["XLU", "XLV", "GLD", "XLP"]
  const BaseWeight: real := 0.25
  const DefaultTargetCorr: real := 0.10
  /** How aggressively the weight is cut as correlation rises above target. */
  const Sensitivity: real := 1.5
  const DriftStatusThreshold: real := 0.15
  const SwapMargin: real := 0.05

  /**
   * `calculate_drift_adjusted_weight`: no penalty at or below target; above it
   * the weight shrinks by `sensitivity * (current - target)` of itself, clamped
   * so that it never goes below zero.
   */
  function DriftAdjustedWeight(base: real, current: real, target: real): (w: real)
    ensures current <= target ==> w == base
    ensures base >= 0.0 ==> 0.0 <= w <= base
    ensures base > 0.0 ==> (w == base <==> current <= target)
    ensures base > 0.0 ==> (w == 0.0 <==> current - target >= 2.0 / 3.0)
  {
    if current <= target then base
    else
      var driftDelta := current - target;
      var reductionFactor := if 1.0 - driftDelta * Sensitivity > 0.0 then 1.0 - driftDelta * Sensitivity else 0.0;
      assert 0.0 <= reductionFactor < 1.0;
      WeightBounds(base, reductionFactor);
      base * reductionFactor
  }

  lemma WeightBounds(base: real, factor: real)
    requires 0.0 <= factor < 1.0
    ensures base >= 0.0 ==> 0.0 <= base * factor <= base
    ensures base > 0.0 ==> base * factor < base
    ensures base > 0.0 ==> (base * factor == 0.0 <==> factor == 0.0)
  {
  }

  /** The adjusted weight never grows as the correlation rises. */
  lemma WeightMonotone(base: real, c1: real, c2: real, target: real)
    requires base >= 0.0
    requires c1 <= c2
    ensures DriftAdjustedWeight(base, c2, target) <= DriftAdjustedWeight(base, c1, target)
  {
    if c1 > target {
      var f1 := if 1.0 - (c1 - target) * Sensitivity > 0.0 then 1.0 - (c1 - target) * Sensitivity else 0.0;
      var f2 := if 1.0 - (c2 - target) * Sensitivity > 0.0 then 1.0 - (c2 - target) * Sensitivity else 0.0;
      assert f2 <= f1;
      var p1, p2 := base * f1, base * f2;
      ScaleMonotone(base, f2, f1);
      assert p2 <= p1;
      assert DriftAdjustedWeight(base, c1, target) == p1;
      assert DriftAdjustedWeight(base, c2, target) == p2;
    } else {
      assert DriftAdjustedWeight(base, c1, target) == base;
      assert DriftAdjustedWeight(base, c2, target) <= base;
    }
  }

  lemma ScaleMonotone(base: real, a: real, b: real)
    requires base >= 0.0 && a <= b
    ensures base * a <= base * b
  {
  }

  /** The worked example: base 0.25, current 0.20, target 0.10 keeps 85% of the weight, 0.2125. */
  lemma WeightScenario()
    ensures DriftAdjustedWeight(0.25, 0.20, 0.10) == 0.2125
    ensures DriftAdjustedWeight(0.25, 0.05, 0.10) == 0.25
  {
  }

  /**
   * The weight for a correlation that may be NaN.  With NaN, `current <= target`
   * is false and Python's `max(0, nan)` keeps 0, so the weight drops to zero.
   */
  function WeightFor(base: real, corr: Option<real>, target: real): (w: real)
    ensures corr.None? ==> w == 0.0
    ensures corr.Some? ==> w == DriftAdjustedWeight(base, corr.value, target)
    ensures base >= 0.0 ==> 0.0 <= w <= base
  {
    match corr
    case None => 0.0
    case Some(c) => DriftAdjustedWeight(base, c, target)
  }

  /** `(1 - adj / BASE_WEIGHT) * 100`: how much of the base weight was cut, in percent. */
  function ReductionPercent(adj: real): (pct: real)
    ensures 0.0 <= adj <= BaseWeight ==> 0.0 <= pct <= 100.0
    ensures pct == 0.0 <==> adj == BaseWeight
    ensures pct == 100.0 <==> adj == 0.0
    ensures adj == (1.0 - pct / 100.0) * BaseWeight
  {
    (1.0 - adj / BaseWeight) * 100.0
  }

  datatype Status = Drift | Stable

  /** The per-asset status: DRIFT exactly when the correlation is strictly above 0.15. */
  function StatusOf(corr: Option<real>): (s: Status)
    ensures s == Drift <==> corr.Some? && corr.value > DriftStatusThreshold
  {
    if Exceeds(corr, DriftStatusThreshold) then Drift else Stable
  }

  datatype Recommendation = SwapXlvForXlp | MaintainXlv

  /**
   * The sector swap rule: swap XLV for XLP only when XLP's correlation is lower
   * by strictly more than the margin; a NaN on either side compares false.
   */
  function SwapAdvice(xlvCorr: Option<real>, xlpCorr: Option<real>): (r: Recommendation)
    ensures r == SwapXlvForXlp <==> xlvCorr.Some? && xlpCorr.Some? && xlvCorr.value - xlpCorr.value > SwapMargin
  {
    if xlvCorr.Some? && xlpCorr.Some? && xlpCorr.value < xlvCorr.value - SwapMargin then SwapXlvForXlp else MaintainXlv
  }

  /** XLV 0.30 against XLP 0.24 swaps; against 0.27, or a gap of exactly 0.05, it maintains. */
  lemma SwapScenarios()
    ensures SwapAdvice(Some(0.30), Some(0.24)) == SwapXlvForXlp
    ensures SwapAdvice(Some(0.30), Some(0.27)) == MaintainXlv
    ensures SwapAdvice(Some(0.30), Some(0.25)) == MaintainXlv
  {
  }

  /**
   * A recommended swap never moves into a position the weight formula would cut
   * harder: XLP's drift-adjusted weight is at least XLV's.
   */
  lemma SwapFavoursLowerCut(xlvCorr: Option<real>, xlpCorr: Option<real>)
    requires SwapAdvice(xlvCorr, xlpCorr) == SwapXlvForXlp
    ensures WeightFor(BaseWeight, xlpCorr, DefaultTargetCorr) >= WeightFor(BaseWeight, xlvCorr, DefaultTargetCorr)
  {
    WeightMonotone(BaseWeight, xlpCorr.value, xlvCorr.value, DefaultTargetCorr);
  }

  /** One line of the risk table. */
  datatype RiskRow = RiskRow(asset: Ticker, corr: Option<real>, status: Status, adjWeight: real, reduction: real)

  function AssessAsset(asset: Ticker, corr: Option<real>): (row: RiskRow)
    ensures row.asset == asset && row.corr == corr
    ensures row.status == StatusOf(corr)
    ensures row.adjWeight == WeightFor(BaseWeight, corr, DefaultTargetCorr)
    ensures 0.0 <= row.adjWeight <= BaseWeight
    ensures 0.0 <= row.reduction <= 100.0
    ensures row.adjWeight == (1.0 - row.reduction / 100.0) * BaseWeight
    ensures row.reduction == 0.0 <==> corr.Some? && corr.value <= DefaultTargetCorr
    ensures row.reduction == 100.0 <==> corr.None? || corr.value - DefaultTargetCorr >= 2.0 / 3.0
  {
    var adj := WeightFor(BaseWeight, corr, DefaultTargetCorr);
    RiskRow(asset, corr, StatusOf(corr), adj, ReductionPercent(adj))
  }

  /** An asset marked DRIFT is above the 0.10 target, so its weight is always cut. */
  lemma DriftStatusCutsWeight(asset: Ticker, corr: Option<real>)
    requires StatusOf(corr) == Drift
    ensures AssessAsset(asset, corr).reduction > 0.0
    ensures AssessAsset(asset, corr).adjWeight < BaseWeight
  {
    var row := AssessAsset(asset, corr);
    assert corr.value > DefaultTargetCorr;
    assert row.reduction != 0.0;
  }

  /** `next(r for r in results if r['Asset'] == name)`: the first row for that asset. */
  function FindRow(rows: seq<RiskRow>, name: Ticker): (k: nat)
    requires exists i :: 0 <= i < |rows| && rows[i].asset == name
    ensures k < |rows| && rows[k].asset == name
    ensures forall i :: 0 <= i < k ==> rows[i].asset != name
  {
    if rows[0].asset == name then 0
    else
      assert exists i :: 0 <= i < |rows[1..]| && rows[1..][i].asset == name by {
        var i :| 0 <= i < |rows| && rows[i].asset == name;
        assert rows[1..][i - 1] == rows[i];
      }
      1 + FindRow(rows[1..], name)
  }

  datatype RiskReport = RiskReport(rows: seq<RiskRow>, recommendation: Recommendation)

  /**
   * The pure part of `run_risk_check_v2`: one row per defensive asset, in
   * configured order, from that asset's latest correlation; then the swap rule
   * applied to the XLV and XLP rows.
   */
  function RiskCheck(corrs: seq<Option<real>>): (report: RiskReport)
    requires |corrs| == |DefensiveAssets|
    ensures |report.rows| == |DefensiveAssets|
    ensures forall i :: 0 <= i < |corrs| ==> report.rows[i] == AssessAsset(DefensiveAssets[i], corrs[i])
    ensures report.recommendation == SwapAdvice(corrs[1], corrs[3])
  {
    var rows := seq(|corrs|, i requires 0 <= i < |corrs| => AssessAsset(DefensiveAssets[i], corrs[i]));
    assert rows[1].asset == "XLV" && rows[3].asset == "XLP";
    assert rows[0].asset != "XLV" by { assert "XLU"[2] != "XLV"[2]; }
    assert rows[0].asset != "XLP" by { assert "XLU"[2] != "XLP"[2]; }
    assert rows[1].asset != "XLP" by { assert "XLV"[2] != "XLP"[2]; }
    assert rows[2].asset != "XLP" by { assert "GLD"[0] != "XLP"[0]; }
    var xlv := rows[FindRow(rows, "XLV")];
    var xlp := rows[FindRow(rows, "XLP")];
    RiskReport(rows, SwapAdvice(xlv.corr, xlp.corr))
  }
}
