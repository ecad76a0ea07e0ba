/**
 * The arithmetic of the certificate of analysis in utils/coa_generator.py:
 * the component table with its unit conversions and total row, the two
 * calculated metrics printed under it, and the output file name. Drawing
 * the PDF is not part of this model.
 */
module CoaGenerator {
  import opened Wrappers
  import PredictionHelpers
  import opened Dicts

  /** One component: its printed name, its key in the data and the value used when the key is absent. */
  datatype Component = Component(name: string, key: string, default: real)

  /** The table's components, in the order they are printed. */
  const Components: seq<Component> := [
    Component("CBC", "cbc", 0.1738),
    Component("CBD", "cbd", 0.7541),
    Component("Δ8-THC", "d8_thc", 3.3685),
    Component("Δ9-THC", "d9_thc", 84.7281),
    Component("CBG", "cbg", 1.5392),
    Component("CBN", "cbn", 1.8792)
  ]

  const TotalLabel: string := "TOTAL CANNABINOIDS"

  /** The % w/w value of each component, in table order. */
  function ComponentValues(data: map<string, real>): (values: seq<real>)
    ensures |values| == |Components|
    ensures forall i :: 0 <= i < |Components| ==>
      values[i] == GetOr(data, Components[i].key, Components[i].default)
  {
    seq(|Components|, i requires 0 <= i < |Components| => GetOr(data, Components[i].key, Components[i].default))
  }

  /** Python's `sum`: left to right from 0. */
  function Sum(xs: seq<real>): real
  {
    if xs == [] then 0.0 else Sum(xs[..|xs| - 1]) + xs[|xs| - 1]
  }

  /** A sum of non-negative values is non-negative and at least each of its terms. */
  lemma {:induction false} SumBounds(xs: seq<real>)
    requires forall i :: 0 <= i < |xs| ==> xs[i] >= 0.0
    ensures Sum(xs) >= 0.0
    ensures forall i :: 0 <= i < |xs| ==> xs[i] <= Sum(xs)
  {
    if xs != [] {
      var init := xs[..|xs| - 1];
      SumBounds(init);
      forall i | 0 <= i < |init| ensures xs[i] == init[i] { }
    }
  }

  /** With non-negative data, the total row is non-negative and at least every component row. */
  lemma TotalRowBounds(data: map<string, real>)
    requires forall k :: k in data ==> data[k] >= 0.0
    ensures var rows := ResultsTable(data);
      rows[|Components|].percent >= 0.0
      && forall i :: 0 <= i < |Components| ==> rows[i].percent <= rows[|Components|].percent
  {
    var v := ComponentValues(data);
    forall i | 0 <= i < |v| ensures v[i] >= 0.0 {
      assert Components[i].default >= 0.0;
    }
    SumBounds(v);
  }

  /** A printed row: name, % w/w, mg/g and mg/mL. */
  datatype TableRow = TableRow(component: string, percent: real, mgPerG: real, mgPerMl: real)

  /** mg/g is ten times the percentage; mg/mL uses a density of 0.9, so nine times. */
  function RowFor(name: string, value: real): (row: TableRow)
    ensures row.component == name && row.percent == value
    ensures row.mgPerG == 10.0 * row.percent && row.mgPerMl == 9.0 * row.percent
  {
    TableRow(name, value, value * 10.0, value * 9.0)
  }

  /** The results table: six component rows in fixed order, then the total row. */
  function ResultsTable(data: map<string, real>): (rows: seq<TableRow>)
    ensures |rows| == |Components| + 1
    ensures forall i :: 0 <= i < |Components| ==>
      rows[i].component == Components[i].name
      && rows[i].percent == GetOr(data, Components[i].key, Components[i].default)
    ensures rows[|Components|].component == TotalLabel
    ensures rows[|Components|].percent == Sum(ComponentValues(data))
    ensures forall i :: 0 <= i < |rows| ==> rows[i].mgPerG == 10.0 * rows[i].percent && rows[i].mgPerMl == 9.0 * rows[i].percent
  {
    var values := ComponentValues(data);
    var total := Sum(values);
    seq(|Components|, i requires 0 <= i < |Components| => RowFor(Components[i].name, values[i]))
      + [RowFor(TotalLabel, total)]
  }

  /** The total written under the table: delta-9 plus delta-8, with the same defaults. */
  function CoaTotalThc(data: map<string, real>): real
  {
    GetOr(data, "d9_thc", 84.7281) + GetOr(data, "d8_thc", 3.3685)
  }

  /** The degradation index under the table, 0 when total THC is not positive. */
  function CoaDegradationIndex(data: map<string, real>): (r: real)
    ensures r == PredictionHelpers.DegradationIndex(GetOr(data, "cbn", 1.8792), CoaTotalThc(data))
  {
    var totalThc := CoaTotalThc(data);
    if totalThc > 0.0 then GetOr(data, "cbn", 1.8792) / totalThc * 100.0 else 0.0
  }

  /**
   * The total row is the sum of the six printed values, and the total THC
   * is the sum of the delta-9 and delta-8 rows.
   */
  lemma TotalsMatchRows(data: map<string, real>)
    ensures var rows := ResultsTable(data);
      && rows[6].percent == rows[0].percent + rows[1].percent + rows[2].percent
                            + rows[3].percent + rows[4].percent + rows[5].percent
      && CoaTotalThc(data) == rows[3].percent + rows[2].percent
  {
    var v := ComponentValues(data);
    assert Sum(v) == Sum(v[..5]) + v[5];
    assert v[..5][..4] == v[..4];
    assert Sum(v[..5]) == Sum(v[..4]) + v[4];
    assert v[..4][..3] == v[..3];
    assert Sum(v[..4]) == Sum(v[..3]) + v[3];
    assert v[..3][..2] == v[..2];
    assert Sum(v[..3]) == Sum(v[..2]) + v[2];
    assert v[..2][..1] == v[..1];
    assert Sum(v[..2]) == Sum(v[..1]) + v[1];
    assert v[..1][..0] == [];
    assert Sum(v[..1]) == v[0];
    assert Components[2].key == "d8_thc" && Components[2].default == 3.3685;
    assert Components[3].key == "d9_thc" && Components[3].default == 84.7281;
  }

  /** With no results in the data, the certificate shows the sample defaults. */
  lemma EmptyDataDefaults()
    ensures ResultsTable(map[])[6].percent == 92.4429
    ensures CoaTotalThc(map[]) == 88.0966
    ensures CoaDegradationIndex(map[]) * 88.0966 == 187.92
  {
    TotalsMatchRows(map[]);
  }

  /** `coa_<batch_id>.pdf`, with "unknown" when there is no batch id. */
  function OutputPath(batchId: Option<string>): (path: string)
    ensures |path| >= 8 && path[..4] == "coa_" && path[|path| - 4..] == ".pdf"
    ensures path[4..|path| - 4] == if batchId.Some? then batchId.value else "unknown"
  {
    "coa_" + (if batchId.Some? then batchId.value else "unknown") + ".pdf"
  }

  /** The batch id a certificate file name was made from. */
  function BatchIdOf(path: string): string
    requires |path| >= 8
  {
    path[4..|path| - 4]
  }

  /** The batch id survives the round trip through the file name. */
  lemma OutputPathRoundTrip(batchId: string)
    ensures BatchIdOf(OutputPath(Some(batchId))) == batchId
  {
  }
}
