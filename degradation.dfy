/**
 * DegradationPredictor from utils/prediction_models.py: first-order decay
 * of THC under a storage condition, CBN formed from the THC lost, shelf-life
 * estimates and storage recommendations.
 *
 * The predictor's rate table is built once and never changed, so it is a
 * module constant here. `exp` and `log` are not modelled numerically: the
 * caller supplies them as function values, and the lemmas rely only on the
 * laws they state.
 */
module Degradation {

  const RoomTemp: string := "Room Temp (20°C)"
  const Refrigerated: string := "Refrigerated (4°C)"
  const Frozen: string := "Frozen (-20°C)"

  /** `degradation_rates`, in the dictionary's insertion order: condition and rate per month. */
  const DegradationRates: seq<(string, real)> := [(RoomTemp, 0.5), (Refrigerated, 0.2), (Frozen, 0.05)]

  /** The rate `dict.get` falls back to for an unknown condition. */
  const DefaultRate: real := 0.3

  /** `dict.get(key, default)` on an association list with distinct keys. */
  function Lookup(entries: seq<(string, real)>, key: string, default: real): (r: real)
    ensures (exists i :: 0 <= i < |entries| && entries[i].0 == key && r == entries[i].1)
         || ((forall i :: 0 <= i < |entries| ==> entries[i].0 != key) && r == default)
  {
    if entries == [] then default
    else if entries[0].0 == key then entries[0].1
    else
      var r := Lookup(entries[1..], key, default);
      assert forall i :: 1 <= i < |entries| ==> entries[i] == entries[1..][i - 1];
      r
  }

  /** The monthly rate for a storage condition, 0.3 when the name is not in the table. */
  function Rate(storage: string): (r: real)
    ensures r > 0.0
  {
    Lookup(DegradationRates, storage, DefaultRate)
  }

  /** The three named conditions get their own rate; every other string gets 0.3. */
  lemma RateTable(storage: string)
    ensures Rate(RoomTemp) == 0.5 && Rate(Refrigerated) == 0.2 && Rate(Frozen) == 0.05
    ensures storage !in {RoomTemp, Refrigerated, Frozen} ==> Rate(storage) == DefaultRate
  {
    assert |RoomTemp| == 16 && |Refrigerated| == 18 && |Frozen| == 14;
    var rest := DegradationRates[1..];
    assert rest == [(Refrigerated, 0.2), (Frozen, 0.05)];
    assert rest[1..] == [(Frozen, 0.05)];
    assert rest[1..][1..] == [];
    assert Lookup(rest[1..], Frozen, DefaultRate) == 0.05;
    assert Lookup(rest, Refrigerated, DefaultRate) == 0.2;
    if storage !in {RoomTemp, Refrigerated, Frozen} {
      assert Lookup(rest[1..], storage, DefaultRate) == DefaultRate;
      assert Lookup(rest, storage, DefaultRate) == DefaultRate;
    }
  }

  /** The three arrays `predict_degradation` returns. */
  datatype Forecast = Forecast(months: seq<int>, thc: seq<real>, cbn: seq<real>)

  /** The length of `np.arange(0, months + 1)`. */
  function Points(months: int): nat
  {
    if months >= 0 then months + 1 else 0
  }

  /** THC0 * exp(-rate * t / 12): the THC left after `t` months. */
  function Decayed(initialThc: real, rate: real, t: int, exp: real -> real): real
  {
    initialThc * exp(-rate * t as real / 12.0)
  }

  /**
   * THC(t) = THC0 * exp(-rate * t / 12) and CBN(t) = CBN0 + (THC0 - THC(t)) * 0.3
   * for t = 0 .. months, with the rate of the storage condition.
   */
  function PredictDegradation(initialThc: real, initialCbn: real, storage: string, months: int,
                              exp: real -> real): (r: Forecast)
    ensures |r.months| == |r.thc| == |r.cbn| == Points(months)
    ensures forall t :: 0 <= t < |r.months| ==> r.months[t] == t
    ensures forall t :: 0 <= t < |r.thc| ==> r.thc[t] == Decayed(initialThc, Rate(storage), t, exp)
    ensures forall t :: 0 <= t < |r.cbn| ==> r.cbn[t] == initialCbn + 0.3 * (initialThc - r.thc[t])
  {
    var rate := Rate(storage);
    var n := Points(months);
    var timePoints := seq(n, t => t);
    var thc := seq(n, t => Decayed(initialThc, rate, t, exp));
    var cbn := seq(n, t => initialCbn + (initialThc - Decayed(initialThc, rate, t, exp)) * 0.3);
    Forecast(timePoints, thc, cbn)
  }

  /** What the model requires of `exp`: exp(0) = 1, and it is positive and non-decreasing. */
  ghost predicate ExpLaws(exp: real -> real)
  {
    && exp(0.0) == 1.0
    && forall x, y :: x <= y ==> 0.0 < exp(x) <= exp(y)
  }

  /**
   * With a non-negative starting THC, the THC series starts at its initial
   * value and never rises, and the CBN series starts at its initial value
   * and never falls.
   */
  lemma ForecastTrend(initialThc: real, initialCbn: real, storage: string, months: int, exp: real -> real)
    requires ExpLaws(exp) && initialThc >= 0.0
    ensures var r := PredictDegradation(initialThc, initialCbn, storage, months, exp);
      && (months >= 0 ==> r.thc[0] == initialThc && r.cbn[0] == initialCbn)
      && (forall s, t :: 0 <= s <= t < |r.thc| ==> r.thc[t] <= r.thc[s] && r.cbn[s] <= r.cbn[t])
      && (forall t :: 0 <= t < |r.thc| ==> 0.0 <= r.thc[t] <= initialThc && initialCbn <= r.cbn[t])
  {
    var r := PredictDegradation(initialThc, initialCbn, storage, months, exp);
    if months >= 0 {
      ForecastStep(initialThc, initialCbn, storage, months, exp, 0, 0);
    }
    forall s, t | 0 <= s <= t < |r.thc|
      ensures r.thc[t] <= r.thc[s] && r.cbn[s] <= r.cbn[t]
    {
      ForecastStep(initialThc, initialCbn, storage, months, exp, s, t);
    }
    forall t | 0 <= t < |r.thc|
      ensures 0.0 <= r.thc[t] <= initialThc && initialCbn <= r.cbn[t]
    {
      ForecastStep(initialThc, initialCbn, storage, months, exp, 0, t);
    }
  }

  /** Two time points s <= t of the forecast compared, and the first one against the initial values. */
  lemma ForecastStep(initialThc: real, initialCbn: real, storage: string, months: int, exp: real -> real,
                     s: nat, t: nat)
    requires ExpLaws(exp) && initialThc >= 0.0 && s <= t < Points(months)
    ensures var r := PredictDegradation(initialThc, initialCbn, storage, months, exp);
      && 0.0 <= r.thc[t] <= r.thc[s] <= initialThc
      && initialCbn <= r.cbn[s] <= r.cbn[t]
      && (s == 0 ==> r.thc[s] == initialThc && r.cbn[s] == initialCbn)
  {
    var thcS, thcT := Decayed(initialThc, Rate(storage), s, exp), Decayed(initialThc, Rate(storage), t, exp);
    DecayedOrder(initialThc, Rate(storage), s, t, exp);
    FormedCbn(initialCbn, initialThc, initialThc, thcS);
    FormedCbn(initialCbn, initialThc, thcS, thcT);
  }

  /** Under the laws of `exp`, the THC left after t months is at most that after s <= t months, and never negative. */
  lemma DecayedOrder(initialThc: real, rate: real, s: int, t: int, exp: real -> real)
    requires ExpLaws(exp) && initialThc >= 0.0 && rate > 0.0 && 0 <= s <= t
    ensures 0.0 <= Decayed(initialThc, rate, t, exp) <= Decayed(initialThc, rate, s, exp) <= initialThc
    ensures s == 0 ==> Decayed(initialThc, rate, s, exp) == initialThc
  {
    DecayFactors(exp, rate, s, t);
    ScaledDecay(initialThc, exp(-rate * s as real / 12.0), exp(-rate * t as real / 12.0));
  }

  /** The less THC remains, the more CBN has formed from it. */
  lemma FormedCbn(initialCbn: real, initialThc: real, thcS: real, thcT: real)
    requires thcT <= thcS <= initialThc
    ensures initialCbn <= initialCbn + 0.3 * (initialThc - thcS) <= initialCbn + 0.3 * (initialThc - thcT)
  {
  }

  /** Scaling two decay factors 0 < et <= es <= 1 by a non-negative amount keeps their order. */
  lemma ScaledDecay(a: real, es: real, et: real)
    requires a >= 0.0 && 0.0 < et <= es <= 1.0
    ensures 0.0 <= a * et <= a * es <= a
  {
    MulMonotone(a, et, es);
    MulMonotone(a, es, 1.0);
    MulMonotone(a, 0.0, et);
  }

  /** The THC and CBN values at one time point of the forecast. */
  lemma ForecastAt(initialThc: real, initialCbn: real, storage: string, months: int, exp: real -> real, t: nat)
    returns (thc: real, cbn: real)
    requires t < Points(months)
    ensures thc == PredictDegradation(initialThc, initialCbn, storage, months, exp).thc[t]
    ensures cbn == PredictDegradation(initialThc, initialCbn, storage, months, exp).cbn[t]
    ensures thc == initialThc * exp(-Rate(storage) * t as real / 12.0)
    ensures cbn == initialCbn + 0.3 * (initialThc - thc)
  {
    var rate := Rate(storage);
    thc := Decayed(initialThc, rate, t, exp);
    cbn := initialCbn + 0.3 * (initialThc - thc);
    DecayedAt(initialThc, rate, t, exp);
  }

  lemma DecayedAt(initialThc: real, rate: real, t: int, exp: real -> real)
    ensures Decayed(initialThc, rate, t, exp) == initialThc * exp(-rate * t as real / 12.0)
  {
  }

  /** The decay factor exp(-rate * t / 12) lies in (0, 1] and does not grow with t. */
  lemma DecayFactors(exp: real -> real, rate: real, s: nat, t: nat)
    requires ExpLaws(exp) && rate > 0.0 && s <= t
    ensures 0.0 < exp(-rate * t as real / 12.0) <= exp(-rate * s as real / 12.0) <= 1.0
    ensures s == 0 ==> exp(-rate * s as real / 12.0) == 1.0
  {
    var xs, xt := -rate * s as real / 12.0, -rate * t as real / 12.0;
    assert rate * s as real <= rate * t as real;
    assert xt <= xs <= 0.0;
    assert 0.0 < exp(xt) <= exp(xs);
    assert exp(xs) <= exp(0.0);
  }

  lemma MulMonotone(a: real, x: real, y: real)
    requires a >= 0.0 && x <= y
    ensures a * x <= a * y
  {
  }

  /** Months until the fraction `threshold` remains: -12 * ln(threshold) / rate. */
  function MonthsToThreshold(lnThreshold: real, rate: real): (r: real)
    requires rate > 0.0
    ensures lnThreshold < 0.0 ==> r > 0.0
    ensures r * rate == -12.0 * lnThreshold
  {
    -12.0 * lnThreshold / rate
  }

  /**
   * `estimate_shelf_life`: the loop computes the months for every condition
   * but keeps only the last assignment, so the result is the one for the
   * last condition in the table (frozen storage). `initialThc` is not used.
   */
  method EstimateShelfLife(initialThc: real, threshold: real, ln: real -> real) returns (months: real)
    ensures months == MonthsToThreshold(ln(threshold), DegradationRates[|DegradationRates| - 1].1)
  {
    // The source leaves the variable unbound before the loop; the table is
    // never empty, so this initial value is always overwritten.
    months := 0.0;
    for i := 0 to |DegradationRates|
      invariant i > 0 ==> months == MonthsToThreshold(ln(threshold), DegradationRates[i - 1].1)
    {
      var rate := DegradationRates[i].1;
      months := -12.0 * ln(threshold) / rate;
    }
  }

  /** The per-condition result `estimate_shelf_life` evidently means to return. */
  function ShelfLifeByCondition(threshold: real, ln: real -> real): (r: seq<(string, real)>)
    ensures |r| == |DegradationRates|
    ensures forall i :: 0 <= i < |r| ==>
      r[i].0 == DegradationRates[i].0 && r[i].1 == MonthsToThreshold(ln(threshold), DegradationRates[i].1)
  {
    seq(|DegradationRates|, i requires 0 <= i < |DegradationRates| =>
      (DegradationRates[i].0, MonthsToThreshold(ln(threshold), DegradationRates[i].1)))
  }

  /**
   * The scalar `estimate_shelf_life` returns is the last entry of the
   * per-condition result; whenever ln(threshold) is not 0 it differs from
   * the room-temperature and refrigerated entries, which are lost.
   */
  lemma ShelfLifeKeepsOnlyLast(threshold: real, ln: real -> real, months: real)
    requires months == MonthsToThreshold(ln(threshold), DegradationRates[|DegradationRates| - 1].1)
    ensures var all := ShelfLifeByCondition(threshold, ln);
      months == all[|all| - 1].1 && all[|all| - 1].0 == Frozen
    ensures ln(threshold) != 0.0 ==>
      var all := ShelfLifeByCondition(threshold, ln); months != all[0].1 && months != all[1].1
  {
    var all := ShelfLifeByCondition(threshold, ln);
    if ln(threshold) != 0.0 {
      assert all[0].1 * 0.5 == -12.0 * ln(threshold);
      assert all[1].1 * 0.2 == -12.0 * ln(threshold);
      assert months * 0.05 == -12.0 * ln(threshold);
    }
  }

  /** One record of `predict_optimal_storage`. */
  datatype StorageAdvice = StorageAdvice(condition: string, maxMonths: real, suitable: bool)

  /** The record for one table entry, at the fixed 10 %-loss threshold whose logarithm is `ln09`. */
  function AdviceFor(entry: (string, real), targetMonths: real, ln09: real): (r: StorageAdvice)
    requires entry.1 > 0.0
    ensures r.condition == entry.0
    ensures r.maxMonths == MonthsToThreshold(ln09, entry.1)
    ensures r.suitable <==> r.maxMonths >= targetMonths
  {
    var achievable := -12.0 * ln09 / entry.1;
    StorageAdvice(entry.0, achievable, achievable >= targetMonths)
  }

  /** `predict_optimal_storage`: one record per condition, in table order. `ln` is the natural logarithm. */
  method PredictOptimalStorage(targetMonths: real, ln: real -> real) returns (recommendations: seq<StorageAdvice>)
    ensures |recommendations| == |DegradationRates|
    ensures forall i :: 0 <= i < |recommendations| ==>
      recommendations[i] == AdviceFor(DegradationRates[i], targetMonths, ln(0.9))
  {
    recommendations := [];
    for i := 0 to |DegradationRates|
      invariant |recommendations| == i
      invariant forall m :: 0 <= m < i ==> recommendations[m] == AdviceFor(DegradationRates[m], targetMonths, ln(0.9))
    {
      var (name, rate) := DegradationRates[i];
      var achievable := -12.0 * ln(0.9) / rate;
      if achievable >= targetMonths {
        recommendations := recommendations + [StorageAdvice(name, achievable, true)];
      } else {
        recommendations := recommendations + [StorageAdvice(name, achievable, false)];
      }
    }
  }

  /**
   * With ln(0.9) < 0, colder storage lasts strictly longer, so a condition
   * that is suitable for a target makes every colder one suitable too, and
   * a target met by some condition is met by frozen storage.
   */
  lemma ColderStorageLastsLonger(targetMonths: real, ln09: real)
    requires ln09 < 0.0
    ensures var room := AdviceFor(DegradationRates[0], targetMonths, ln09);
      var fridge := AdviceFor(DegradationRates[1], targetMonths, ln09);
      var frozen := AdviceFor(DegradationRates[2], targetMonths, ln09);
      && room.maxMonths < fridge.maxMonths < frozen.maxMonths
      && (room.suitable ==> fridge.suitable) && (fridge.suitable ==> frozen.suitable)
  {
    var room := AdviceFor(DegradationRates[0], targetMonths, ln09);
    var fridge := AdviceFor(DegradationRates[1], targetMonths, ln09);
    var frozen := AdviceFor(DegradationRates[2], targetMonths, ln09);
    assert room.maxMonths * 0.5 == fridge.maxMonths * 0.2 == frozen.maxMonths * 0.05;
  }
}
