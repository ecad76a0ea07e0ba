/**
 * AnomalyDetector from utils/prediction_models.py. Untrained, it flags a
 * batch by two fixed thresholds; trained, it defers to a fitted isolation
 * forest, which is foreign code and is modelled as a pair of function
 * values supplied by the caller.
 */
module Anomaly {

  /** One row of the input: (efficiency, degradation index). */
  datatype Sample = Sample(efficiency: real, degradation: real)

  /** A fitted outlier model: its +1/-1 verdict and its decision score. */
  datatype Forest = Forest(verdict: Sample -> int, decision: Sample -> real)

  const Anomalous: int := -1
  const Normal: int := 1

  /** The untrained rule: -1 (anomaly) below 70 % efficiency or above 5 % degradation, else 1. */
  function RuleVerdict(s: Sample): (r: int)
    ensures r == Anomalous <==> s.efficiency < 70.0 || s.degradation > 5.0
    ensures r == Normal <==> s.efficiency >= 70.0 && s.degradation <= 5.0
  {
    if s.efficiency < 70.0 || s.degradation > 5.0 then -1 else 1
  }

  class AnomalyDetector {
    var isTrained: bool
    var forest: Forest

    /** A fresh detector is untrained; its unfitted forest is never consulted. */
    constructor ()
      ensures !isTrained
    {
      isTrained := false;
      forest := Forest(s => 1, s => 0.0);
    }

    /** Fit the forest on normal batches; `fit` stands for the foreign library's fitting. */
    method Train(X: seq<Sample>, fit: seq<Sample> -> Forest)
      modifies this
      ensures isTrained && forest == fit(X)
    {
      forest := fit(X);
      isTrained := true;
    }

    /** -1 for anomaly, 1 for normal; the empty matrix is not accepted (the source indexes its first row). */
    function Detect(X: seq<Sample>): (r: seq<int>)
      reads this
      requires |X| > 0
      ensures !isTrained ==> r == [RuleVerdict(X[0])]
      ensures isTrained ==> |r| == |X| && forall i :: 0 <= i < |X| ==> r[i] == forest.verdict(X[i])
    {
      if !isTrained then [RuleVerdict(X[0])]
      else var f := forest; seq(|X|, i requires 0 <= i < |X| => f.verdict(X[i]))
    }

    /** Lower means more anomalous; untrained it is the single value 0 whatever the input, even empty. */
    function AnomalyScore(X: seq<Sample>): (r: seq<real>)
      reads this
      ensures !isTrained ==> r == [0.0]
      ensures isTrained ==> |r| == |X| && forall i :: 0 <= i < |X| ==> r[i] == forest.decision(X[i])
    {
      if isTrained then var f := forest; seq(|X|, i requires 0 <= i < |X| => f.decision(X[i]))
      else [0.0]
    }
  }

  /** An untrained detector flags (65, 1.0) and passes (90, 1.0); only the first row is read. */
  lemma UntrainedExamples(d: AnomalyDetector, rest: seq<Sample>)
    requires !d.isTrained
    ensures d.Detect([Sample(65.0, 1.0)] + rest) == [Anomalous]
    ensures d.Detect([Sample(90.0, 1.0)] + rest) == [Normal]
    ensures d.AnomalyScore(rest) == [0.0]
  {
  }
}
