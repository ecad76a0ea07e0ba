/**
 * ExtractionOptimizer from utils/prediction_models.py: a regression model
 * with a heuristic fallback while untrained, and the grid search that
 * stands in for a genetic-algorithm optimiser.
 *
 * The fitted scikit-learn scaler and random forest are foreign code; they
 * are modelled as function values that `Train` and `Load` receive from the
 * caller.
 */
module Optimizer {
  import opened Wrappers

  /** One row of the feature matrix: temperature, time, rpm, weight, moisture. */
  datatype Features = Features(temp: real, time: real, rpm: real, weight: real, moisture: real)

  /** What a fitted pipeline is: the scaling transform and the regressor's point estimate. */
  datatype Fitted = Fitted(scaler: Features -> Features, model: Features -> real)

  /** `scaler.transform(X)`: the transform applied to every row. */
  function ScaleRows(scaler: Features -> Features, X: seq<Features>): (r: seq<Features>)
    ensures |r| == |X| && forall i :: 0 <= i < |X| ==> r[i] == scaler(X[i])
  {
    if X == [] then [] else [scaler(X[0])] + ScaleRows(scaler, X[1..])
  }

  /** A grid point of the search, as the dictionary `{'temp', 'time', 'rpm'}`. */
  datatype Params = Params(temp: int, time: int, rpm: int)

  /** The `bounds` argument of `optimize_parameters`: (low, high) per parameter. */
  datatype Bounds = Bounds(temp: (int, int), time: (int, int), rpm: (int, int))

  /** The loop state of the grid search: `best_params` and `best_score`. */
  datatype Search = Search(best: Option<Params>, score: real)

  function Abs(x: real): real
  {
    if x < 0.0 then -x else x
  }

  /**
   * The untrained prediction: base 85, a temperature bonus that switches
   * formula at -60 (strictly below -60 earns 0.1 per degree, -60 and above
   * loses 0.2 per degree away from -40) and a quadratic time penalty around
   * 20 minutes. rpm, weight and moisture are not consulted.
   */
  function Heuristic(f: Features): real
  {
    var tempBonus := if f.temp < -60.0 then Abs(f.temp + 60.0) * 0.1 else -Abs(f.temp + 40.0) * 0.2;
    var timeFactor := -0.05 * ((f.time - 20.0) * (f.time - 20.0));
    85.0 + tempBonus + timeFactor
  }

  /** The single feature row `[[temp, time, rpm, 2000, 1.8]]` the grid search predicts on. */
  function FeaturesAt(p: Params): Features
  {
    Features(p.temp as real, p.time as real, p.rpm as real, 2000.0, 1.8)
  }

  /** Score of one grid point: the first element of `predict` on its feature row. */
  function PointScore(trained: bool, fit: Fitted, p: Params): real
  {
    if trained then fit.model(fit.scaler(FeaturesAt(p))) else Heuristic(FeaturesAt(p))
  }

  // ---------------------------------------------------------------------
  // The grid: temp in range(-80, -39, 5), time in range(15, 26, 2),
  // rpm in range(1000, 1401, 100), visited temp-major, then time, then rpm.

  const Temps: seq<int> := [-80, -75, -70, -65, -60, -55, -50, -45, -40]
  const Times: seq<int> := [15, 17, 19, 21, 23, 25]
  const Rpms: seq<int> := [1000, 1100, 1200, 1300, 1400]

  /** The first `k` rpm points for a fixed temperature and time. */
  function Row(temp: int, time: int, k: nat): (r: seq<Params>)
    requires k <= |Rpms|
    ensures |r| == k
  {
    if k == 0 then [] else Row(temp, time, k - 1) + [Params(temp, time, Rpms[k - 1])]
  }

  /** The first `j` full time rows for a fixed temperature. */
  function Block(temp: int, j: nat): (r: seq<Params>)
    requires j <= |Times|
    ensures |r| == 5 * j
  {
    if j == 0 then [] else Block(temp, j - 1) + Row(temp, Times[j - 1], |Rpms|)
  }

  /** The first `i` full temperature blocks. */
  function GridUpTo(i: nat): (r: seq<Params>)
    requires i <= |Temps|
    ensures |r| == 30 * i
  {
    if i == 0 then [] else GridUpTo(i - 1) + Block(Temps[i - 1], |Times|)
  }

  /** Every grid point, in the order the three nested loops visit them. */
  function Grid(): (g: seq<Params>)
    ensures |g| == |Temps| * |Times| * |Rpms|
  {
    GridUpTo(|Temps|)
  }

  /** One loop body: keep the new point only if it strictly beats the best so far. */
  function Step(s: Search, p: Params, score: real): (r: Search)
    ensures r.score >= s.score && r.score >= score
    ensures r == s || r == Search(Some(p), score)
    ensures r != s ==> score > s.score
  {
    if score > s.score then Search(Some(p), score) else s
  }

  /** The search state after visiting `pts` in order, starting from `(None, 0)`. */
  function Scan(score: Params -> real, pts: seq<Params>): Search
    decreases |pts|
  {
    if pts == [] then Search(None, 0.0)
    else Step(Scan(score, pts[..|pts| - 1]), pts[|pts| - 1], score(pts[|pts| - 1]))
  }

  lemma SeqAssoc<T>(a: seq<T>, b: seq<T>, c: seq<T>)
    ensures a + b + c == a + (b + c)
  {
  }

  lemma ScanSnoc(score: Params -> real, pts: seq<Params>, p: Params)
    ensures Scan(score, pts + [p]) == Step(Scan(score, pts), p, score(p))
  {
    assert (pts + [p])[..|pts|] == pts;
  }

  /** The best score is at least 0 and at least the score of every visited point. */
  lemma {:induction false} ScanIsUpperBound(score: Params -> real, pts: seq<Params>)
    ensures Scan(score, pts).score >= 0.0
    ensures forall i :: 0 <= i < |pts| ==> score(pts[i]) <= Scan(score, pts).score
  {
    if pts != [] {
      ScanIsUpperBound(score, pts[..|pts| - 1]);
    }
  }

  /** No point is kept exactly when no score exceeds 0; the score is then 0. */
  lemma {:induction false} ScanNone(score: Params -> real, pts: seq<Params>)
    ensures Scan(score, pts).best.None? <==> forall i :: 0 <= i < |pts| ==> score(pts[i]) <= 0.0
    ensures Scan(score, pts).best.None? ==> Scan(score, pts).score == 0.0
  {
    if pts != [] {
      var init := pts[..|pts| - 1];
      ScanNone(score, init);
      ScanIsUpperBound(score, init);
      if Scan(score, pts).best.None? {
        forall i | 0 <= i < |pts| ensures score(pts[i]) <= 0.0 {
          if i < |pts| - 1 { assert pts[i] == init[i]; }
        }
      }
    }
  }

  /**
   * A kept point is the first one that reaches the best score: it occurs in
   * `pts`, it scores exactly the best score, and every point before it
   * scores strictly less.
   */
  lemma {:induction false} ScanKeepsFirstMaximum(score: Params -> real, pts: seq<Params>)
    ensures Scan(score, pts).best.Some? ==>
      exists k :: 0 <= k < |pts| && pts[k] == Scan(score, pts).best.value
        && score(pts[k]) == Scan(score, pts).score
        && forall m :: 0 <= m < k ==> score(pts[m]) < Scan(score, pts).score
  {
    if pts != [] {
      var init := pts[..|pts| - 1];
      var last := |pts| - 1;
      ScanKeepsFirstMaximum(score, init);
      ScanIsUpperBound(score, init);
      var s := Scan(score, init);
      if score(pts[last]) > s.score {
        forall m | 0 <= m < last ensures score(pts[m]) < Scan(score, pts).score {
          assert pts[m] == init[m];
        }
      } else if s.best.Some? {
        var k :| 0 <= k < |init| && init[k] == s.best.value && score(init[k]) == s.score
          && forall m :: 0 <= m < k ==> score(init[m]) < s.score;
        assert pts[k] == init[k];
        forall m | 0 <= m < k ensures score(pts[m]) < Scan(score, pts).score {
          assert pts[m] == init[m];
        }
      }
    }
  }

  /**
   * The converse: a positive point that no point beats and that every
   * earlier point scores strictly below is the one the search returns.
   */
  lemma ScanPicks(score: Params -> real, pts: seq<Params>, k: nat)
    requires k < |pts| && score(pts[k]) > 0.0
    requires forall m :: 0 <= m < |pts| ==> score(pts[m]) <= score(pts[k])
    requires forall m :: 0 <= m < k ==> score(pts[m]) < score(pts[k])
    ensures Scan(score, pts) == Search(Some(pts[k]), score(pts[k]))
  {
    ScanIsUpperBound(score, pts);
    ScanNone(score, pts);
    ScanKeepsFirstMaximum(score, pts);
    var s := Scan(score, pts);
    var k' :| 0 <= k' < |pts| && pts[k'] == s.best.value && score(pts[k']) == s.score
      && forall m :: 0 <= m < k' ==> score(pts[m]) < s.score;
  }

  lemma {:induction false} RowMembers(temp: int, time: int, k: nat, p: Params)
    requires k <= |Rpms|
    ensures p in Row(temp, time, k) <==> p.temp == temp && p.time == time && p.rpm in Rpms[..k]
  {
    if k > 0 {
      RowMembers(temp, time, k - 1, p);
      assert Rpms[..k] == Rpms[..k - 1] + [Rpms[k - 1]];
    }
  }

  lemma {:induction false} BlockMembers(temp: int, j: nat, p: Params)
    requires j <= |Times|
    ensures p in Block(temp, j) <==> p.temp == temp && p.time in Times[..j] && p.rpm in Rpms
  {
    if j > 0 {
      BlockMembers(temp, j - 1, p);
      RowMembers(temp, Times[j - 1], |Rpms|, p);
      assert Times[..j] == Times[..j - 1] + [Times[j - 1]];
      assert Rpms[..|Rpms|] == Rpms;
    }
  }

  /** Membership in a concatenation. */
  lemma ConcatMembers<T>(a: seq<T>, b: seq<T>, x: T)
    ensures x in a + b <==> x in a || x in b
  {
  }

  /** Membership in a prefix one element longer. */
  lemma PrefixSnoc<T>(xs: seq<T>, i: nat, x: T)
    requires 0 < i <= |xs|
    ensures x in xs[..i] <==> x in xs[..i - 1] || x == xs[i - 1]
  {
    assert xs[..i] == xs[..i - 1] + [xs[i - 1]];
  }

  /** A full block holds exactly its temperature with every time and rpm. */
  lemma FullBlockMembers(temp: int, p: Params)
    ensures p in Block(temp, |Times|) <==> p.temp == temp && p.time in Times && p.rpm in Rpms
  {
    BlockMembers(temp, |Times|, p);
    assert Times[..|Times|] == Times;
  }

  /** Appending the block of the next temperature extends membership by that temperature. */
  lemma SnocBlockMembers(pre: seq<Params>, blk: seq<Params>, temps: seq<int>, i: nat, p: Params, rest: bool)
    requires 0 < i <= |temps|
    requires p in pre <==> p.temp in temps[..i - 1] && rest
    requires p in blk <==> p.temp == temps[i - 1] && rest
    ensures p in pre + blk <==> p.temp in temps[..i] && rest
  {
    PrefixSnoc(temps, i, p.temp);
    ConcatMembers(pre, blk, p);
  }

  lemma {:induction false} GridUpToMembers(i: nat, p: Params)
    requires i <= |Temps|
    ensures p in GridUpTo(i) <==> p.temp in Temps[..i] && p.time in Times && p.rpm in Rpms
  {
    if i > 0 {
      var rest := p.time in Times && p.rpm in Rpms;
      GridUpToMembers(i - 1, p);
      FullBlockMembers(Temps[i - 1], p);
      SnocBlockMembers(GridUpTo(i - 1), Block(Temps[i - 1], |Times|), Temps, i, p, rest);
    }
  }

  /** The grid is exactly the product of the three hard-coded ranges, 270 points. */
  lemma GridIsProduct(p: Params)
    ensures |Grid()| == 270
    ensures p in Grid() <==> p.temp in Temps && p.time in Times && p.rpm in Rpms
  {
    GridUpToMembers(|Temps|, p);
    assert Temps[..|Temps|] == Temps;
  }

  lemma {:induction false} BlockPrefix(temp: int, j: nat, j': nat)
    requires j <= j' <= |Times|
    ensures Block(temp, j')[..5 * j] == Block(temp, j)
  {
    if j < j' {
      BlockPrefix(temp, j, j' - 1);
      assert Block(temp, j')[..5 * (j' - 1)] == Block(temp, j' - 1);
    }
  }

  lemma {:induction false} GridStartsWithFirstBlock(i: nat)
    requires 1 <= i <= |Temps|
    ensures GridUpTo(i)[..30] == Block(Temps[0], |Times|)
  {
    if i > 1 {
      GridStartsWithFirstBlock(i - 1);
      assert GridUpTo(i)[..30 * (i - 1)] == GridUpTo(i - 1);
    }
  }

  /** Under the heuristic, no grid point scores above 86.95. */
  lemma HeuristicGridBound(p: Params)
    requires p.temp in Temps && p.time in Times
    ensures Heuristic(FeaturesAt(p)) <= 86.95
  {
    var t := p.time as real;
    assert (t - 20.0) * (t - 20.0) >= 1.0;
  }

  /** Every non-empty row starts at the first rpm. */
  lemma {:induction false} RowStart(temp: int, time: int, k: nat)
    requires 1 <= k <= |Rpms|
    ensures Row(temp, time, k)[0] == Params(temp, time, Rpms[0])
  {
    if k > 1 {
      RowStart(temp, time, k - 1);
      assert Row(temp, time, k) == Row(temp, time, k - 1) + [Params(temp, time, Rpms[k - 1])];
    }
  }

  /** The grid has 270 points and its first 30 are the full block at the first temperature. */
  lemma GridStart()
    ensures |Grid()| == 270
    ensures Grid()[..30] == Block(Temps[0], |Times|)
  {
    GridStartsWithFirstBlock(|Temps|);
  }

  lemma PrefixOfPrefix<T>(a: seq<T>, n: nat, m: nat)
    requires m <= n <= |a|
    ensures a[..n][..m] == a[..m]
  {
  }

  lemma IndexInPrefix<T>(a: seq<T>, n: nat, i: nat)
    requires i < n <= |a|
    ensures a[..n][i] == a[i]
  {
  }

  lemma ConcatIndex<T>(a: seq<T>, b: seq<T>, i: nat)
    requires |a| <= i < |a| + |b|
    ensures (a + b)[i] == b[i - |a|]
  {
  }

  /** A sequence that starts with the first block starts with its rows 15 and 17, then (-80, 19, 1000). */
  lemma FirstBlockHead(g: seq<Params>)
    requires |g| >= 30 && g[..30] == Block(Temps[0], |Times|)
    ensures g[..10] == Block(Temps[0], 2)
    ensures g[10] == Params(-80, 19, 1000)
  {
    var t := Temps[0];
    var full := Block(t, |Times|);
    BlockPrefix(t, 2, |Times|);
    PrefixOfPrefix(g, 30, 10);
    BlockPrefix(t, 3, |Times|);
    IndexInPrefix(g, 30, 10);
    IndexInPrefix(full, 15, 10);
    var row := Row(t, Times[2], |Rpms|);
    assert Block(t, 3) == Block(t, 2) + row;
    ConcatIndex(Block(t, 2), row, 10);
    RowStart(t, Times[2], |Rpms|);
    assert t == -80 && Times[2] == 19 && Rpms[0] == 1000;
  }

  /** The first ten grid points are the two time rows 15 and 17 at -80; the eleventh is (-80, 19, 1000). */
  lemma GridHead()
    ensures |Grid()| == 270
    ensures Grid()[..10] == Block(Temps[0], 2)
    ensures Grid()[10] == Params(-80, 19, 1000)
  {
    GridStart();
    FirstBlockHead(Grid());
  }

  /**
   * Untrained, the grid search returns `({'temp': -80, 'time': 19, 'rpm': 1000}, 86.95)`:
   * time 19 and 21 tie at the best score and the strict comparison keeps the
   * earlier one; rpm is not consulted, so the first rpm is kept.
   */
  lemma HeuristicOptimum(score: Params -> real)
    requires forall p :: score(p) == Heuristic(FeaturesAt(p))
    ensures Scan(score, Grid()) == Search(Some(Params(-80, 19, 1000)), 86.95)
  {
    GridHead();
    HeuristicGridMaximum(score);
    HeuristicBeforeOptimum(score);
    HeuristicAtFirstRows();
    ScanPicks(score, Grid(), 10);
  }

  /** Under the heuristic, no grid point scores above 86.95. */
  lemma HeuristicGridMaximum(score: Params -> real)
    requires forall p :: score(p) == Heuristic(FeaturesAt(p))
    ensures forall m :: 0 <= m < |Grid()| ==> score(Grid()[m]) <= 86.95
  {
    var g := Grid();
    forall m | 0 <= m < |g| ensures score(g[m]) <= 86.95 {
      GridIsProduct(g[m]);
      HeuristicGridBound(g[m]);
    }
  }

  /** The rows of the first two times at the first temperature hold only -80 with 15 or 17 minutes. */
  lemma FirstRowsMembers(p: Params)
    requires p in Block(Temps[0], 2)
    ensures p.temp == -80 && (p.time == 15 || p.time == 17)
  {
    BlockMembers(Temps[0], 2, p);
    assert Times[..2] == [15, 17];
  }

  /** A sequence that starts with those two rows has only such points in its first ten places. */
  lemma HeadRows(g: seq<Params>)
    requires |g| >= 10 && g[..10] == Block(Temps[0], 2)
    ensures forall m :: 0 <= m < 10 ==> g[m].temp == -80 && (g[m].time == 15 || g[m].time == 17)
  {
    forall m | 0 <= m < 10 ensures g[m].temp == -80 && (g[m].time == 15 || g[m].time == 17) {
      IndexInPrefix(g, 10, m);
      FirstRowsMembers(g[m]);
    }
  }

  /** The ten grid points before (-80, 19, 1000) are at -80 with time 15 or 17. */
  lemma GridBeforeOptimum()
    ensures |Grid()| > 10
    ensures forall m :: 0 <= m < 10 ==> Grid()[m].temp == -80 && (Grid()[m].time == 15 || Grid()[m].time == 17)
  {
    GridHead();
    HeadRows(Grid());
  }

  /** Under the heuristic, the ten grid points before (-80, 19, 1000) score below 86.95. */
  lemma HeuristicBeforeOptimum(score: Params -> real)
    requires forall p :: score(p) == Heuristic(FeaturesAt(p))
    ensures |Grid()| > 10
    ensures forall m :: 0 <= m < 10 ==> score(Grid()[m]) < 86.95
  {
    GridBeforeOptimum();
    var g := Grid();
    forall m | 0 <= m < 10 ensures score(g[m]) < 86.95 {
      HeuristicBeforeOptimumAt(g[m]);
    }
  }

  lemma HeuristicBeforeOptimumAt(p: Params)
    requires p.temp == -80 && (p.time == 15 || p.time == 17)
    ensures Heuristic(FeaturesAt(p)) < 86.95
  {
    HeuristicAtFirstRows();
  }

  lemma HeuristicAtFirstRows()
    ensures Heuristic(FeaturesAt(Params(-80, 19, 1000))) == 86.95
    ensures forall p: Params :: p.temp == -80 && (p.time == 15 || p.time == 17) ==> Heuristic(FeaturesAt(p)) < 86.95
  {
  }

  /**
   * The heuristic reads only temperature and time, peaks at 20 minutes, and
   * jumps at -60: at -80 and 20 minutes it gives 87, at -60 (not below -60)
   * it gives 81, while just below -60 it is close to 85.
   */
  lemma HeuristicShape(f: Features, g: Features)
    ensures f.temp == g.temp && f.time == g.time ==> Heuristic(f) == Heuristic(g)
    ensures Heuristic(Features(f.temp, 20.0, f.rpm, f.weight, f.moisture)) >= Heuristic(f)
    ensures Heuristic(Features(-80.0, 20.0, f.rpm, f.weight, f.moisture)) == 87.0
    ensures Heuristic(Features(-60.0, 20.0, f.rpm, f.weight, f.moisture)) == 81.0
    ensures Heuristic(Features(-61.0, 20.0, f.rpm, f.weight, f.moisture)) == 85.1
    ensures Heuristic(Features(-50.0, 20.0, f.rpm, f.weight, f.moisture)) == 83.0
    ensures Heuristic(Features(-40.0, 20.0, f.rpm, f.weight, f.moisture)) == 85.0
  {
  }

  /**
   * The optimiser object. `isTrained` starts false; `Train` and `Load` set
   * it, and nothing clears it again.
   */
  class ExtractionOptimizer {
    var isTrained: bool
    var fitted: Fitted

    /** A fresh optimiser is untrained; its unfitted estimator is never consulted. */
    constructor ()
      ensures !isTrained
    {
      isTrained := false;
      fitted := Fitted(f => f, f => 0.0);
    }

    /**
     * Fit the scaler on `X`, then the regressor on the scaled rows and `y`.
     * `fitScaler` and `fitModel` stand for the foreign library's fitting.
     */
    method Train(X: seq<Features>, y: seq<real>,
                 fitScaler: seq<Features> -> (Features -> Features),
                 fitModel: (seq<Features>, seq<real>) -> (Features -> real))
      modifies this
      ensures isTrained
      ensures fitted.scaler == fitScaler(X)
      ensures fitted.model == fitModel(ScaleRows(fitScaler(X), X), y)
    {
      var scaler := fitScaler(X);
      var scaled := ScaleRows(scaler, X);
      fitted := Fitted(scaler, fitModel(scaled, y));
      isTrained := true;
    }

    /** Prediction; the empty matrix is not accepted (the source indexes its first row). */
    function Predict(X: seq<Features>): (r: seq<real>)
      reads this
      requires |X| > 0
      ensures !isTrained ==> r == [Heuristic(X[0])]
      ensures isTrained ==> |r| == |X| && forall i :: 0 <= i < |X| ==> r[i] == fitted.model(fitted.scaler(X[i]))
    {
      if !isTrained then [Heuristic(X[0])]
      else var fit := fitted; seq(|X|, i requires 0 <= i < |X| => fit.model(fit.scaler(X[i])))
    }

    /** The score of each grid point under the current state, as a plain function value. */
    function Scorer(): (score: Params -> real)
      reads this
      ensures forall p :: score(p) == Predict([FeaturesAt(p)])[0]
    {
      var trained, fit := isTrained, fitted;
      p => PointScore(trained, fit, p)
    }

    /**
     * The grid search. `bounds` is accepted and ignored: the three loops use
     * hard-coded ranges. The result is `Scan` over the grid with this
     * object's predictions; `GridSearchResult` states what that means and
     * `UntrainedSearch` gives the result before training.
     */
    method OptimizeParameters(bounds: Option<Bounds>) returns (bestParams: Option<Params>, bestScore: real)
      ensures Search(bestParams, bestScore) == Scan(Scorer(), Grid())
    {
      var score := Scorer();
      bestScore := 0.0;
      bestParams := None;
      var i := 0;
      while i < |Temps|
        invariant 0 <= i <= |Temps|
        invariant Search(bestParams, bestScore) == Scan(score, GridUpTo(i))
      {
        var temp := Temps[i];
        var j := 0;
        AppendEmpty(GridUpTo(i), Block(temp, 0));
        while j < |Times|
          invariant 0 <= j <= |Times|
          invariant Search(bestParams, bestScore) == Scan(score, GridUpTo(i) + Block(temp, j))
        {
          var time := Times[j];
          var k := 0;
          AppendEmpty(GridUpTo(i) + Block(temp, j), Row(temp, time, 0));
          while k < |Rpms|
            invariant 0 <= k <= |Rpms|
            invariant Search(bestParams, bestScore) == Scan(score, GridUpTo(i) + Block(temp, j) + Row(temp, time, k))
          {
            var rpm := Rpms[k];
            var p := Params(temp, time, rpm);
            // `score` is this object's `predict` on the row [temp, time, rpm, 2000, 1.8] (see `Scorer`).
            var s := score(p);
            RowStep(score, GridUpTo(i) + Block(temp, j), temp, time, k);
            if s > bestScore {
              bestScore := s;
              bestParams := Some(p);
            }
            k := k + 1;
          }
          BlockStep(GridUpTo(i), temp, j);
          j := j + 1;
        }
        assert GridUpTo(i + 1) == GridUpTo(i) + Block(temp, |Times|);
        i := i + 1;
      }
    }

    /** The blob `save` writes: the fitted model and scaler. */
    function Snapshot(): (blob: Fitted)
      reads this
      ensures isTrained ==> forall f :: Predict([f]) == [blob.model(blob.scaler(f))]
    {
      fitted
    }

    /** Restore a saved model and scaler; the optimiser is trained afterwards. */
    method Load(blob: Fitted)
      modifies this
      ensures isTrained && fitted == blob
    {
      fitted := blob;
      isTrained := true;
    }
  }

  lemma AppendEmpty<T>(a: seq<T>, e: seq<T>)
    requires e == []
    ensures a + e == a
  {
  }

  /** One pass of the innermost loop: the next rpm point is appended and scanned. */
  lemma RowStep(score: Params -> real, pre: seq<Params>, temp: int, time: int, k: nat)
    requires k < |Rpms|
    ensures Scan(score, pre + Row(temp, time, k + 1))
         == Step(Scan(score, pre + Row(temp, time, k)), Params(temp, time, Rpms[k]), score(Params(temp, time, Rpms[k])))
  {
    var p := Params(temp, time, Rpms[k]);
    assert Row(temp, time, k + 1) == Row(temp, time, k) + [p];
    SeqAssoc(pre, Row(temp, time, k), [p]);
    ScanSnoc(score, pre + Row(temp, time, k), p);
  }

  /** A full rpm row completes one more time row of the block. */
  lemma BlockStep(pre: seq<Params>, temp: int, j: nat)
    requires j < |Times|
    ensures pre + Block(temp, j) + Row(temp, Times[j], |Rpms|) == pre + Block(temp, j + 1)
  {
    SeqAssoc(pre, Block(temp, j), Row(temp, Times[j], |Rpms|));
  }

  /**
   * The grid search's result in terms of the optimiser's own predictions:
   * it is never negative, bounds every grid point's prediction, is empty
   * exactly when no prediction is positive, and otherwise is the first grid
   * point in loop order with the highest prediction.
   */
  lemma GridSearchResult(o: ExtractionOptimizer)
    ensures var r := Scan(o.Scorer(), Grid());
      && r.score >= 0.0
      && (forall p :: p in Grid() ==> o.Predict([FeaturesAt(p)])[0] <= r.score)
      && (r.best.None? <==> forall p :: p in Grid() ==> o.Predict([FeaturesAt(p)])[0] <= 0.0)
      && (r.best.Some? ==>
            exists k :: 0 <= k < |Grid()| && Grid()[k] == r.best.value
              && o.Predict([FeaturesAt(Grid()[k])])[0] == r.score
              && forall m :: 0 <= m < k ==> o.Predict([FeaturesAt(Grid()[m])])[0] < r.score)
  {
    var score, g := o.Scorer(), Grid();
    ScanIsUpperBound(score, g);
    ScanNone(score, g);
    ScanKeepsFirstMaximum(score, g);
    forall p | p in g ensures score(p) == o.Predict([FeaturesAt(p)])[0] { }
  }

  /**
   * Untrained, the search scores with the heuristic and ends at its first
   * maximum in grid order: -80 degrees, 19 minutes, 1000 rpm, score 86.95.
   */
  lemma UntrainedSearch(o: ExtractionOptimizer)
    requires !o.isTrained
    ensures Scan(o.Scorer(), Grid()) == Search(Some(Params(-80, 19, 1000)), 86.95)
  {
    HeuristicOptimum(o.Scorer());
  }

  /** Saving a trained optimiser and loading the blob into another reproduces its predictions. */
  method SaveThenLoad(source: ExtractionOptimizer, target: ExtractionOptimizer)
    requires source.isTrained && source != target
    modifies target
    ensures forall X :: |X| > 0 ==> target.Predict(X) == source.Predict(X)
  {
    var blob := source.Snapshot();
    target.Load(blob);
  }
}
