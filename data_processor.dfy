/**
 * DataProcessor.calculate_metrics from utils/data_processor.py: it writes
 * four derived metrics into the caller's dictionary in place and returns
 * that same dictionary.
 *
 * The dictionary is an object of class `BatchData` whose `entries` field
 * the method reassigns; its values are modelled as reals (the six
 * concentrations and the metrics the method writes are numbers).
 */
module DataProcessing {
  import PredictionHelpers
  import Dicts

  const D9Thc: string := "d9_thc"
  const D8Thc: string := "d8_thc"
  const Cbd: string := "cbd"
  const Cbg: string := "cbg"
  const Cbn: string := "cbn"
  const Cbc: string := "cbc"

  const TotalCannabinoids: string := "total_cannabinoids"
  const TotalThc: string := "total_thc"
  const DegradationIndex: string := "degradation_index"
  const IsomerizationRatio: string := "isomerization_ratio"

  /** The four keys `calculate_metrics` writes. */
  const MetricKeys: set<string> := {TotalCannabinoids, TotalThc, DegradationIndex, IsomerizationRatio}

  /** `data.get(key, 0)`. */
  function Get(data: map<string, real>, key: string): real
  {
    Dicts.GetOr(data, key, 0.0)
  }

  /** The six concentrations are all present and non-negative or absent. */
  predicate NonNegativeProfile(data: map<string, real>)
  {
    Get(data, D9Thc) >= 0.0 && Get(data, D8Thc) >= 0.0 && Get(data, Cbd) >= 0.0
    && Get(data, Cbg) >= 0.0 && Get(data, Cbn) >= 0.0 && Get(data, Cbc) >= 0.0
  }

  datatype Metrics = Metrics(totalCannabinoids: real, totalThc: real, degradationIndex: real, isomerizationRatio: real)

  /**
   * The four metric values, read from the dictionary with absent keys as 0.
   * Both ratios agree with the module-level helpers of the prediction
   * module, and none of them divides by zero.
   */
  function DeriveMetrics(data: map<string, real>): (m: Metrics)
    ensures m.totalThc == Get(data, D9Thc) + Get(data, D8Thc)
    ensures m.totalCannabinoids == m.totalThc + Get(data, Cbd) + Get(data, Cbg) + Get(data, Cbn) + Get(data, Cbc)
    ensures m.degradationIndex == PredictionHelpers.DegradationIndex(Get(data, Cbn), m.totalThc)
    ensures m.isomerizationRatio == PredictionHelpers.IsomerizationRatio(Get(data, D8Thc), Get(data, D9Thc))
    ensures NonNegativeProfile(data) ==>
      m.totalCannabinoids >= 0.0 && m.totalThc >= 0.0 && m.degradationIndex >= 0.0 && m.isomerizationRatio >= 0.0
  {
    var total := Get(data, D9Thc) + Get(data, D8Thc) + Get(data, Cbd) + Get(data, Cbg) + Get(data, Cbn) + Get(data, Cbc);
    var thc := Get(data, D9Thc) + Get(data, D8Thc);
    var degradation := if thc > 0.0 then Get(data, Cbn) / thc * 100.0 else 0.0;
    var isomerization := if Get(data, D9Thc) > 0.0 then Get(data, D8Thc) / data[D9Thc] * 100.0 else 0.0;
    Metrics(total, thc, degradation, isomerization)
  }

  /**
   * The dictionary after `calculate_metrics`: exactly the four metric keys
   * are added or overwritten and every other key keeps its value.
   */
  function WithMetrics(data: map<string, real>): (r: map<string, real>)
    ensures r.Keys == data.Keys + MetricKeys
    ensures forall k :: k in data && k !in MetricKeys ==> r[k] == data[k]
    ensures var m := DeriveMetrics(data);
      && r[TotalCannabinoids] == m.totalCannabinoids && r[TotalThc] == m.totalThc
      && r[DegradationIndex] == m.degradationIndex && r[IsomerizationRatio] == m.isomerizationRatio
  {
    var m := DeriveMetrics(data);
    data[TotalCannabinoids := m.totalCannabinoids][TotalThc := m.totalThc]
        [DegradationIndex := m.degradationIndex][IsomerizationRatio := m.isomerizationRatio]
  }

  /**
   * Running the calculation again changes nothing: the metrics are computed
   * from the six concentration keys only, which the calculation never writes.
   */
  lemma RecalculationIsIdempotent(data: map<string, real>)
    ensures WithMetrics(WithMetrics(data)) == WithMetrics(data)
  {
    var once := WithMetrics(data);
    forall k | k in [D9Thc, D8Thc, Cbd, Cbg, Cbn, Cbc] ensures Get(once, k) == Get(data, k) {
      assert k !in MetricKeys;
    }
    assert DeriveMetrics(once) == DeriveMetrics(data);
    var twice := WithMetrics(once);
    assert twice.Keys == once.Keys;
    forall k | k in twice ensures twice[k] == once[k] {
      if k !in MetricKeys { assert k in once; }
    }
  }

  /** The caller's dictionary. */
  class BatchData {
    var entries: map<string, real>

    constructor (entries: map<string, real>)
      ensures this.entries == entries
    {
      this.entries := entries;
    }
  }

  class DataProcessor {
    /** Where the SQLite database lives; creating it is not part of this model. */
    const dbPath: string

    constructor (dbPath: string)
      ensures this.dbPath == dbPath
    {
      this.dbPath := dbPath;
    }

    /**
     * Write the four metrics into `data`, one key after another, and return
     * the same object.
     */
    method CalculateMetrics(data: BatchData) returns (r: BatchData)
      modifies data
      ensures r == data
      ensures data.entries == WithMetrics(old(data.entries))
    {
      ghost var before := data.entries;
      ghost var m := DeriveMetrics(before);

      data.entries := data.entries[TotalCannabinoids :=
        Get(data.entries, D9Thc) + Get(data.entries, D8Thc) + Get(data.entries, Cbd) +
        Get(data.entries, Cbg) + Get(data.entries, Cbn) + Get(data.entries, Cbc)];
      assert data.entries == before[TotalCannabinoids := m.totalCannabinoids];

      data.entries := data.entries[TotalThc := Get(data.entries, D9Thc) + Get(data.entries, D8Thc)];
      assert data.entries == before[TotalCannabinoids := m.totalCannabinoids][TotalThc := m.totalThc];

      if data.entries[TotalThc] > 0.0 {
        data.entries := data.entries[DegradationIndex := Get(data.entries, Cbn) / data.entries[TotalThc] * 100.0];
      } else {
        data.entries := data.entries[DegradationIndex := 0.0];
      }
      assert data.entries == before[TotalCannabinoids := m.totalCannabinoids][TotalThc := m.totalThc]
                                   [DegradationIndex := m.degradationIndex];

      if Get(data.entries, D9Thc) > 0.0 {
        data.entries := data.entries[IsomerizationRatio := Get(data.entries, D8Thc) / data.entries[D9Thc] * 100.0];
      } else {
        data.entries := data.entries[IsomerizationRatio := 0.0];
      }

      r := data;
    }
  }

  /** `calculate_metrics_standalone`: a fresh processor on the default database path, then the calculation. */
  method CalculateMetricsStandalone(data: BatchData) returns (r: BatchData)
    modifies data
    ensures r == data
    ensures data.entries == WithMetrics(old(data.entries))
  {
    var processor := new DataProcessor("data/extraction.db");
    r := processor.CalculateMetrics(data);
  }
}
