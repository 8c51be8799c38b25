/**
 * drift_breakdown.py: for the latest correlation of each defensive asset with
 * SPY, a per-asset status, the portfolio average and the primary drift driver.
 */
module DriftBreakdown {
  import opened Wrappers
  import opened Stats
  import opened Market

  const DefensiveAssets: seq<Ticker> := ["XLU", "XLV", "GLD"]
  const DriftThreshold: real := 0.10

  datatype Status = Drift | Ok

  /** DRIFT exactly when the asset's correlation is strictly above 0.10 (NaN is OK). */
  function AssetStatus(corr: Option<real>): (s: Status)
    ensures s == Drift <==> corr.Some? && corr.value > DriftThreshold
  {
    if Exceeds(corr, DriftThreshold) then Drift else Ok
  }

  /**
   * `sum(values) / len(values)`: the arithmetic mean, which is NaN as soon as one
   * value is, and otherwise lies between the smallest and largest value.
   */
  function Average(corrs: seq<Option<real>>): (avg: Option<real>)
    requires |corrs| > 0
    ensures avg.Some? <==> AllDefined(corrs)
    ensures avg.Some? ==> avg.value == Sum(Values(corrs)) / |corrs| as real
    ensures avg.Some? ==> Min(Values(corrs)) <= avg.value <= Max(Values(corrs))
  {
    NanMean(corrs)
  }

  /**
   * `max(breakdown, key=breakdown.get)`: scanning in order, a later entry replaces
   * the current best only when strictly greater, so the first maximum wins.
   */
  function PrimaryDriverIndex(corrs: seq<Option<real>>): (k: nat)
    requires |corrs| > 0
    ensures k < |corrs|
    ensures AllDefined(corrs) ==> forall j :: 0 <= j < |corrs| ==> corrs[j].value <= corrs[k].value
    ensures AllDefined(corrs) ==> forall j :: 0 <= j < k ==> corrs[j].value < corrs[k].value
  {
    if |corrs| == 1 then 0
    else
      var init := corrs[..|corrs| - 1];
      assert forall j :: 0 <= j < |init| ==> init[j] == corrs[j];
      assert AllDefined(corrs) ==> AllDefined(init);
      var best := PrimaryDriverIndex(init);
      if corrs[best].Some? && Exceeds(corrs[|corrs| - 1], corrs[best].value) then |corrs| - 1 else best
  }

  datatype Entry = Entry(asset: Ticker, corr: Option<real>, status: Status)

  datatype Breakdown = Breakdown(entries: seq<Entry>, average: Option<real>, primaryDriver: Ticker)

  /**
   * The pure part of `run_drift_breakdown`: one entry per defensive asset in
   * configured order, the average correlation and the primary drift driver.
   */
  function RunBreakdown(corrs: seq<Option<real>>): (b: Breakdown)
    requires |corrs| == |DefensiveAssets|
    ensures |b.entries| == |DefensiveAssets|
    ensures forall i :: 0 <= i < |corrs| ==>
              b.entries[i].asset == DefensiveAssets[i] && b.entries[i].corr == corrs[i] && b.entries[i].status == AssetStatus(corrs[i])
    ensures b.average == Average(corrs)
    ensures b.primaryDriver == DefensiveAssets[PrimaryDriverIndex(corrs)]
  {
    var entries := seq(|corrs|, i requires 0 <= i < |corrs| => Entry(DefensiveAssets[i], corrs[i], AssetStatus(corrs[i])));
    Breakdown(entries, Average(corrs), DefensiveAssets[PrimaryDriverIndex(corrs)])
  }

  /**
   * With every correlation defined, an average above the threshold means the
   * primary driver is itself marked DRIFT.
   */
  lemma DriverDriftsWhenAverageDoes(corrs: seq<Option<real>>)
    requires |corrs| > 0 && AllDefined(corrs)
    requires Average(corrs).Some? && Average(corrs).value > DriftThreshold
    ensures AssetStatus(corrs[PrimaryDriverIndex(corrs)]) == Drift
  {
    var k := PrimaryDriverIndex(corrs);
    var vs := Values(corrs);
    var m := Max(vs);
    MaxIsEntry(vs);
    var i :| 0 <= i < |vs| && vs[i] == m;
    assert corrs[i].value <= corrs[k].value;
  }

  /** Ties go to the earliest asset: XLV and GLD tie at 0.3, and XLV is the driver. */
  lemma TieGoesToFirst()
    ensures RunBreakdown([Some(0.2), Some(0.3), Some(0.3)]).primaryDriver == "XLV"
  {
    var corrs := [Some(0.2), Some(0.3), Some(0.3)];
    assert PrimaryDriverIndex(corrs[..2]) == 1 by {
      assert corrs[..2][..1] == [Some(0.2)];
    }
    assert corrs[..2] == [Some(0.2), Some(0.3)];
    assert PrimaryDriverIndex(corrs) == 1;
  }

  /**
   * A NaN in first position is never replaced, since no comparison with NaN is
   * true: the first asset is then reported as the driver whatever the others hold.
   */
  lemma {:induction false} LeadingNaNIsDriver(corrs: seq<Option<real>>)
    requires |corrs| > 0 && corrs[0].None?
    ensures PrimaryDriverIndex(corrs) == 0
  {
    if |corrs| > 1 {
      var init := corrs[..|corrs| - 1];
      assert init[0] == corrs[0];
      LeadingNaNIsDriver(init);
    }
  }
}
