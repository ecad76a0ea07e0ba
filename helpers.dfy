/**
 * The three module-level utility functions at the end of
 * utils/prediction_models.py. Python floats are modelled as `real`.
 */
module PredictionHelpers {

  /** CBN as a percentage of total THC; 0 when there is no THC to divide by. */
  function DegradationIndex(cbn: real, totalThc: real): (r: real)
    ensures totalThc <= 0.0 ==> r == 0.0
    ensures totalThc > 0.0 ==> r * totalThc == cbn * 100.0
    ensures cbn >= 0.0 ==> r >= 0.0
  {
    if totalThc > 0.0 then cbn / totalThc * 100.0 else 0.0
  }

  /** Delta-8 THC as a percentage of delta-9 THC; 0 when there is no delta-9 THC. */
  function IsomerizationRatio(d8Thc: real, d9Thc: real): (r: real)
    ensures d9Thc <= 0.0 ==> r == 0.0
    ensures d9Thc > 0.0 ==> r * d9Thc == d8Thc * 100.0
    ensures d8Thc >= 0.0 ==> r >= 0.0
  {
    if d9Thc > 0.0 then d8Thc / d9Thc * 100.0 else 0.0
  }

  /**
   * (final potency x mass yield) / initial potency x 100. The source has no
   * guard, so a zero initial potency is a division by zero: callers must
   * not pass one.
   */
  function EstimateExtractionEfficiency(initialPotency: real, finalPotency: real, massYield: real): (r: real)
    requires initialPotency != 0.0
    ensures r * initialPotency == finalPotency * massYield * 100.0
    ensures 0.0 < initialPotency && 0.0 <= finalPotency * massYield <= initialPotency ==> 0.0 <= r <= 100.0
  {
    (finalPotency * massYield) / initialPotency * 100.0
  }
}
