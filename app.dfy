/**
 * The calculations written inline in the Streamlit dashboard (app.py):
 * the shelf-life warning of the degradation page, the storage names that
 * page passes to the predictor, the totals and mg/g column of the
 * certificate preview, and the freshness label under it. Widgets, charts
 * and downloads are not part of this model.
 */
module App {
  import opened Wrappers
  import Degradation
  import DataProcessing
  import CoaGenerator
  import PredictionHelpers
  import Potency

  // ---------------------------------------------------------------------
  // Shelf-life warning of the degradation page
  // ---------------------------------------------------------------------

  /** `np.where(xs < bound)[0]`: the indices whose value is below `bound`, in increasing order. */
  function Where(xs: seq<real>, bound: real): (ix: seq<nat>)
    ensures forall k :: 0 <= k < |ix| ==> ix[k] < |xs| && xs[ix[k]] < bound
    ensures forall i :: 0 <= i < |xs| && xs[i] < bound ==> i in ix
    ensures forall j, k :: 0 <= j < k < |ix| ==> ix[j] < ix[k]
  {
    if xs == [] then []
    else
      var n := |xs| - 1;
      var prefix := Where(xs[..n], bound);
      assert forall i :: 0 <= i < n ==> xs[..n][i] == xs[i];
      prefix + (if xs[n] < bound then [n] else [])
  }

  /**
   * The month the page warns about: the first index of the THC forecast
   * below 90 % of the current THC, or nothing when no month drops that far.
   */
  function ShelfLifeMonth(thc: seq<real>, currentThc: real): (r: Option<nat>)
    ensures r.Some? ==>
      && r.value < |thc| && thc[r.value] < currentThc * 0.9
      && forall t :: 0 <= t < r.value ==> thc[t] >= currentThc * 0.9
    ensures r.None? <==> forall t :: 0 <= t < |thc| ==> thc[t] >= currentThc * 0.9
  {
    var below := Where(thc, currentThc * 0.9);
    if |below| > 0 then
      assert forall t :: 0 <= t < below[0] && thc[t] < currentThc * 0.9 ==> t in below;
      Some(below[0])
    else None
  }

  /** What the page shows: a shelf-life warning at a month, or "stable" for the whole horizon. */
  datatype ShelfLife = Warning(month: nat) | Stable(months: int)

  /**
   * The degradation page: forecast with the predictor under the storage
   * key it was given, then report the first month below 90 % of the
   * current THC, or stability over the chosen number of months.
   */
  function ShelfLifeReport(currentThc: real, currentCbn: real, storage: string, months: int,
                           exp: real -> real): (r: ShelfLife)
    ensures var thc := Degradation.PredictDegradation(currentThc, currentCbn, storage, months, exp).thc;
      && (r.Warning? ==>
            r.month < |thc| && thc[r.month] < currentThc * 0.9
            && forall t :: 0 <= t < r.month ==> thc[t] >= currentThc * 0.9)
      && (r.Stable? <==> forall t :: 0 <= t < |thc| ==> thc[t] >= currentThc * 0.9)
      && (r.Stable? ==> r.months == months)
  {
    var forecast := Degradation.PredictDegradation(currentThc, currentCbn, storage, months, exp);
    match ShelfLifeMonth(forecast.thc, currentThc)
    case Some(m) => Warning(m)
    case None => Stable(months)
  }

  /**
   * The forecast starts at the current THC, which is not below 90 % of
   * itself when it is non-negative, so a warning never names month 0 and
   * never lies past the horizon.
   */
  lemma ShelfLifeWithinHorizon(currentThc: real, currentCbn: real, storage: string, months: int,
                               exp: real -> real)
    requires exp(0.0) == 1.0 && currentThc >= 0.0
    ensures var r := ShelfLifeReport(currentThc, currentCbn, storage, months, exp);
      r.Warning? ==> 1 <= r.month <= months
  {
    var r := ShelfLifeReport(currentThc, currentCbn, storage, months, exp);
    if r.Warning? {
      var thc := Degradation.PredictDegradation(currentThc, currentCbn, storage, months, exp).thc;
      assert r.month < |thc| == Degradation.Points(months);
      var thc0, cbn0 := Degradation.ForecastAt(currentThc, currentCbn, storage, months, exp, 0);
      assert -Degradation.Rate(storage) * (0 as real) / 12.0 == 0.0;
      assert thc[0] == currentThc >= currentThc * 0.9;
    }
  }

  // ---------------------------------------------------------------------
  // Storage names offered by the degradation page
  // ---------------------------------------------------------------------

  /** The choices of the storage select box, in display order. */
  const StorageOptions: seq<string> := ["Room Temp", "Refrigerated", "Frozen"]

  /**
   * As written, the page hands the chosen label straight to the predictor.
   * None of the labels is a key of the rate table, so every choice gets the
   * default rate and all three give the same forecast.
   */
  lemma OfferedStorageUsesDefaultRate(currentThc: real, currentCbn: real, months: int, exp: real -> real)
    ensures forall i :: 0 <= i < |StorageOptions| ==> Degradation.Rate(StorageOptions[i]) == Degradation.DefaultRate
    ensures forall i :: 0 <= i < |StorageOptions| ==>
      Degradation.PredictDegradation(currentThc, currentCbn, StorageOptions[i], months, exp)
      == Degradation.PredictDegradation(currentThc, currentCbn, StorageOptions[0], months, exp)
  {
    assert |StorageOptions[0]| == 9 && |StorageOptions[1]| == 12 && |StorageOptions[2]| == 6;
    assert |Degradation.RoomTemp| == 16 && |Degradation.Refrigerated| == 18 && |Degradation.Frozen| == 14;
    forall i | 0 <= i < |StorageOptions|
      ensures Degradation.Rate(StorageOptions[i]) == Degradation.DefaultRate
    {
      Degradation.RateTable(StorageOptions[i]);
    }
    forall i | 0 <= i < |StorageOptions|
      ensures Degradation.PredictDegradation(currentThc, currentCbn, StorageOptions[i], months, exp)
           == Degradation.PredictDegradation(currentThc, currentCbn, StorageOptions[0], months, exp)
    {
      var a := Degradation.PredictDegradation(currentThc, currentCbn, StorageOptions[i], months, exp);
      var b := Degradation.PredictDegradation(currentThc, currentCbn, StorageOptions[0], months, exp);
      assert a.months == b.months;
      assert a.thc == b.thc;
      assert a.cbn == b.cbn;
    }
  }

  /** The predictor key a page label evidently stands for; any other string is passed unchanged. */
  function PredictorKey(option: string): (key: string)
    ensures forall i :: 0 <= i < |StorageOptions| && option == StorageOptions[i] ==> key == Degradation.DegradationRates[i].0
    ensures option !in StorageOptions ==> key == option
  {
    if option == "Room Temp" then Degradation.RoomTemp
    else if option == "Refrigerated" then Degradation.Refrigerated
    else if option == "Frozen" then Degradation.Frozen
    else option
  }

  /** Through `PredictorKey`, every offered label reaches its own rate from the table. */
  lemma CorrectedStorageRates()
    ensures forall i :: 0 <= i < |StorageOptions| ==>
      Degradation.Rate(PredictorKey(StorageOptions[i])) == Degradation.DegradationRates[i].1
    ensures Degradation.Rate(PredictorKey("Room Temp")) == 0.5
    ensures Degradation.Rate(PredictorKey("Refrigerated")) == 0.2
    ensures Degradation.Rate(PredictorKey("Frozen")) == 0.05
  {
    Degradation.RateTable("");
    assert PredictorKey("Room Temp") == Degradation.RoomTemp;
    assert PredictorKey("Refrigerated") == Degradation.Refrigerated;
    assert PredictorKey("Frozen") == Degradation.Frozen;
    forall i | 0 <= i < |StorageOptions|
      ensures Degradation.Rate(PredictorKey(StorageOptions[i])) == Degradation.DegradationRates[i].1
    {
      assert i == 0 || i == 1 || i == 2;
    }
  }

  /** The degradation page with the corrected key: the label is translated before forecasting. */
  function PageReport(currentThc: real, currentCbn: real, option: string, months: int,
                      exp: real -> real): (r: ShelfLife)
    ensures forall i :: 0 <= i < |StorageOptions| && option == StorageOptions[i] ==>
      r == ShelfLifeReport(currentThc, currentCbn, Degradation.DegradationRates[i].0, months, exp)
    ensures option !in StorageOptions ==> r == ShelfLifeReport(currentThc, currentCbn, option, months, exp)
  {
    ShelfLifeReport(currentThc, currentCbn, PredictorKey(option), months, exp)
  }

  // ---------------------------------------------------------------------
  // Certificate preview
  // ---------------------------------------------------------------------

  /** The six entered percentages. */
  datatype Inputs = Inputs(d9: real, d8: real, cbd: real, cbg: real, cbn: real, cbc: real)

  /** The three totals computed when the form is submitted. */
  datatype Totals = Totals(totalThc: real, totalCannabinoids: real, degradationIndex: real)

  function PreviewTotals(x: Inputs): (t: Totals)
    ensures t.totalThc == x.d9 + x.d8
    ensures t.totalCannabinoids == x.d9 + x.d8 + x.cbd + x.cbg + x.cbn + x.cbc
    ensures t.degradationIndex == PredictionHelpers.DegradationIndex(x.cbn, t.totalThc)
    ensures t.totalThc <= 0.0 ==> t.degradationIndex == 0.0
  {
    var totalThc := x.d9 + x.d8;
    var totalCann := totalThc + x.cbd + x.cbg + x.cbn + x.cbc;
    var degrIdx := if totalThc > 0.0 then x.cbn / totalThc * 100.0 else 0.0;
    Totals(totalThc, totalCann, degrIdx)
  }

  /** One preview row: component, % w/w and mg/g. */
  datatype PreviewRow = PreviewRow(component: string, percent: real, mgPerG: real)

  const PreviewNames: seq<string> := ["Δ9-THC", "Δ8-THC", "CBD", "CBG", "CBN", "CBC", "TOTAL"]

  /** The preview's % w/w column: the six inputs, then the total. */
  function PreviewPercents(x: Inputs): (col: seq<real>)
    ensures |col| == |PreviewNames|
    ensures col[..6] == [x.d9, x.d8, x.cbd, x.cbg, x.cbn, x.cbc]
    ensures col[6] == PreviewTotals(x).totalCannabinoids
  {
    [x.d9, x.d8, x.cbd, x.cbg, x.cbn, x.cbc, PreviewTotals(x).totalCannabinoids]
  }

  /** The preview table: seven rows ending with TOTAL, mg/g ten times % w/w row by row. */
  function Preview(x: Inputs): (rows: seq<PreviewRow>)
    ensures |rows| == 7
    ensures forall i :: 0 <= i < |rows| ==> rows[i].component == PreviewNames[i]
    ensures forall i :: 0 <= i < |rows| ==> rows[i].percent == PreviewPercents(x)[i]
    ensures forall i :: 0 <= i < |rows| ==> rows[i].mgPerG == 10.0 * rows[i].percent
    ensures rows[6].component == "TOTAL" && rows[6].percent == PreviewTotals(x).totalCannabinoids
  {
    var percents := PreviewPercents(x);
    var mgPerG := seq(|percents|, i requires 0 <= i < |percents| => percents[i] * 10.0);
    seq(7, i requires 0 <= i < 7 => PreviewRow(PreviewNames[i], percents[i], mgPerG[i]))
  }

  /** The dictionary the same six values make for the metric calculator and the certificate. */
  function AsData(x: Inputs): (data: map<string, real>)
    ensures data.Keys == {"d9_thc", "d8_thc", "cbd", "cbg", "cbn", "cbc"}
    ensures data["d9_thc"] == x.d9 && data["d8_thc"] == x.d8 && data["cbd"] == x.cbd
    ensures data["cbg"] == x.cbg && data["cbn"] == x.cbn && data["cbc"] == x.cbc
  {
    map["d9_thc" := x.d9, "d8_thc" := x.d8, "cbd" := x.cbd, "cbg" := x.cbg, "cbn" := x.cbn, "cbc" := x.cbc]
  }

  /**
   * The preview's totals agree with what the metric calculator writes for
   * the same six values.
   */
  lemma PreviewMatchesMetrics(x: Inputs)
    ensures var m := DataProcessing.DeriveMetrics(AsData(x));
      var t := PreviewTotals(x);
      && t.totalThc == m.totalThc
      && t.totalCannabinoids == m.totalCannabinoids
      && t.degradationIndex == m.degradationIndex
  {
    var data := AsData(x);
    assert DataProcessing.Get(data, DataProcessing.D9Thc) == x.d9;
    assert DataProcessing.Get(data, DataProcessing.D8Thc) == x.d8;
    assert DataProcessing.Get(data, DataProcessing.Cbd) == x.cbd;
    assert DataProcessing.Get(data, DataProcessing.Cbg) == x.cbg;
    assert DataProcessing.Get(data, DataProcessing.Cbn) == x.cbn;
    assert DataProcessing.Get(data, DataProcessing.Cbc) == x.cbc;
  }

  /**
   * The preview's totals agree with the certificate's: the same total THC,
   * the same degradation index, and a total row of the same sum, although
   * the certificate lists the components in another order.
   */
  lemma PreviewMatchesCertificate(x: Inputs)
    ensures var data := AsData(x);
      var t := PreviewTotals(x);
      && t.totalThc == CoaGenerator.CoaTotalThc(data)
      && t.degradationIndex == CoaGenerator.CoaDegradationIndex(data)
      && t.totalCannabinoids == CoaGenerator.ResultsTable(data)[6].percent
  {
    var data := AsData(x);
    var rows := CoaGenerator.ResultsTable(data);
    CoaGenerator.TotalsMatchRows(data);
    assert CoaGenerator.Components[0].key == "cbc";
    assert CoaGenerator.Components[1].key == "cbd";
    assert CoaGenerator.Components[2].key == "d8_thc";
    assert CoaGenerator.Components[3].key == "d9_thc";
    assert CoaGenerator.Components[4].key == "cbg";
    assert CoaGenerator.Components[5].key == "cbn";
    assert rows[0].percent == x.cbc && rows[1].percent == x.cbd && rows[2].percent == x.d8;
    assert rows[3].percent == x.d9 && rows[4].percent == x.cbg && rows[5].percent == x.cbn;
  }

  // ---------------------------------------------------------------------
  // Freshness label
  // ---------------------------------------------------------------------

  datatype Freshness = Fresh | Moderate | Degraded

  /** The label shown beside the degradation index. */
  function FreshnessLabel(degradationIndex: real): (r: Freshness)
    ensures r == Fresh <==> degradationIndex < 2.0
    ensures r == Moderate <==> 2.0 <= degradationIndex < 5.0
    ensures r == Degraded <==> degradationIndex >= 5.0
  {
    if degradationIndex < 2.0 then Fresh
    else if degradationIndex < 5.0 then Moderate
    else Degraded
  }

  /**
   * The label and the potency grade use the same degradation cut-offs: a
   * "Degraded" sample always fails grading, a "Fresh" one is never held
   * back by degradation, and any other label passes once the total reaches 80.
   */
  lemma FreshnessAgreesWithGrade(total: real, degradationIndex: real, isomerization: real)
    ensures FreshnessLabel(degradationIndex) == Degraded ==>
      Potency.CalculateGrade(total, degradationIndex, isomerization).1 == Potency.Fail
    ensures FreshnessLabel(degradationIndex) != Degraded && total >= 80.0 ==>
      Potency.CalculateGrade(total, degradationIndex, isomerization).1 == Potency.Pass
    ensures FreshnessLabel(degradationIndex) == Fresh && total >= 90.0 && isomerization < 3.0 ==>
      Potency.CalculateGrade(total, degradationIndex, isomerization).0 == Potency.A
  {
  }
}
