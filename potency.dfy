/**
 * The rule-based grading and compliance checks of PotencyClassifier in
 * utils/prediction_models.py. The classifier's SVC model and scaler are
 * never consulted by these two methods and are not modelled.
 */
module Potency {

  datatype Grade = A | B | C | F

  datatype Verdict = Pass | Fail

  /** Grades ordered from worst to best, for the monotonicity lemma. */
  function Rank(g: Grade): nat
  {
    match g
    case F => 0
    case C => 1
    case B => 2
    case A => 3
  }

  /**
   * The first tier whose thresholds all hold wins. Tier C checks only the
   * total and degradation, not isomerization.
   */
  function CalculateGrade(totalCannabinoids: real, degradationIndex: real, isomerizationRatio: real): (r: (Grade, Verdict))
    ensures r.1 == Pass <==> r.0 != F
    ensures r.0 == A <==> totalCannabinoids >= 90.0 && degradationIndex < 2.0 && isomerizationRatio < 3.0
    ensures r.0 == B <==> !(totalCannabinoids >= 90.0 && degradationIndex < 2.0 && isomerizationRatio < 3.0)
                          && totalCannabinoids >= 85.0 && degradationIndex < 3.0 && isomerizationRatio < 5.0
    ensures r.0 == F <==> totalCannabinoids < 80.0 || degradationIndex >= 5.0
  {
    if totalCannabinoids >= 90.0 && degradationIndex < 2.0 && isomerizationRatio < 3.0 then (A, Pass)
    else if totalCannabinoids >= 85.0 && degradationIndex < 3.0 && isomerizationRatio < 5.0 then (B, Pass)
    else if totalCannabinoids >= 80.0 && degradationIndex < 5.0 then (C, Pass)
    else (F, Fail)
  }

  /** Pass or fail never depends on isomerization: changing it can move A, B and C but never across F. */
  lemma VerdictIgnoresIsomerization(total: real, degradation: real, iso1: real, iso2: real)
    ensures CalculateGrade(total, degradation, iso1).1 == CalculateGrade(total, degradation, iso2).1
  {
  }

  /** Every grade is at least as good after raising the total or lowering degradation or isomerization. */
  lemma GradeMonotone(total1: real, deg1: real, iso1: real, total2: real, deg2: real, iso2: real)
    requires total1 <= total2 && deg2 <= deg1 && iso2 <= iso1
    ensures Rank(CalculateGrade(total1, deg1, iso1).0) <= Rank(CalculateGrade(total2, deg2, iso2).0)
  {
  }

  /** The outcome of `predict_compliance`: the hemp check with its two parts, or no limit. */
  datatype Compliance =
    | HempCheck(compliant: bool, cbdThcCheck: bool, thcCheck: bool)
    | NoLimit(compliant: bool, note: string)

  /**
   * Hemp must have a CBD/THC ratio above 20 and total THC below 0.3 %;
   * any other product type is reported compliant with a note.
   */
  function PredictCompliance(cbdThcRatio: real, totalThc: real, productType: string): (r: Compliance)
    ensures r.compliant <==> productType != "hemp" || (cbdThcRatio > 20.0 && totalThc < 0.3)
    ensures productType == "hemp" ==>
      (r.HempCheck? && r.compliant == (r.cbdThcCheck && r.thcCheck)
       && (r.cbdThcCheck <==> cbdThcRatio > 20.0) && (r.thcCheck <==> totalThc < 0.3))
    ensures productType != "hemp" ==> r.NoLimit?
  {
    if productType == "hemp" then
      HempCheck(cbdThcRatio > 20.0 && totalThc < 0.3, cbdThcRatio > 20.0, totalThc < 0.3)
    else
      NoLimit(true, "Cannabis product - no THC limit")
  }

  /** The worked examples: grades A, C and F; hemp at ratio 25 passes, at ratio 15 fails. */
  lemma ClassifierExamples()
    ensures CalculateGrade(91.0, 1.5, 2.0) == (A, Pass)
    ensures CalculateGrade(82.0, 4.0, 0.0) == (C, Pass)
    ensures CalculateGrade(82.0, 4.0, 20.0) == (C, Pass)
    ensures CalculateGrade(60.0, 10.0, 20.0) == (F, Fail)
    ensures CalculateGrade(90.0, 1.0, 1.0) == (A, Pass) && CalculateGrade(85.0, 2.0, 4.0) == (B, Pass)
    ensures CalculateGrade(85.0, 5.0, 0.0) == (F, Fail)
    ensures PredictCompliance(25.0, 0.2, "hemp").compliant
    ensures !PredictCompliance(15.0, 0.2, "hemp").compliant
  {
  }
}
