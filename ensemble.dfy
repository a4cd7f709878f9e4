/**
 * The aggregation half of `EnsemblePredictor.predict`: every regressor and
 * every classifier is run on the mapped row; one that raises is replaced by a
 * fixed fallback; the score is the mean of the regressors' outputs, the class
 * is the most frequent vote, and the confidence is the largest entry of the
 * element-wise mean of the probability vectors.
 */
module Ensemble {
  import opened Wrappers
  import opened Numeric
  import FeatureMapper

  type FeatureVector = FeatureMapper.FeatureVector

  /** What `predict` and `predict_proba` of one classifier return for the row. */
  datatype Classification = Classification(vote: int, probabilities: seq<real>)

  /** A fitted regressor: its prediction for the row, or `None` when it raises. */
  type Regressor = FeatureVector -> Option<real>

  /** A fitted classifier: its vote and probabilities, or `None` when it raises. */
  type Classifier = FeatureVector -> Option<Classification>

  /** Why the aggregation itself raises. */
  datatype AggregateError =
    | NoClassifiers        // `max` of an empty set of votes
    | RaggedProbabilities  // `numpy.mean` over vectors of different lengths
    | EmptyProbabilities   // `numpy.max` of an empty averaged vector

  const FallbackScore: real := 70.0
  const FallbackLabel: int := 1
  const FallbackProbabilities: seq<real> := [0.33, 0.34, 0.33]

  function ScoreOrFallback(outcome: Option<real>): real
  {
    match outcome
    case Some(score) => score
    case None => FallbackScore
  }

  function ClassificationOrFallback(outcome: Option<Classification>): Classification
  {
    match outcome
    case Some(c) => c
    case None => Classification(FallbackLabel, FallbackProbabilities)
  }

  /** The regression outputs, one per regressor in registration order. */
  function Scores(models: seq<Regressor>, x: FeatureVector): (preds: seq<real>)
    ensures |preds| == |models|
  {
    seq(|models|, i requires 0 <= i < |models| => ScoreOrFallback(models[i](x)))
  }

  /** The classifications, one per classifier in registration order. */
  function Classifications(models: seq<Classifier>, x: FeatureVector): (cs: seq<Classification>)
    ensures |cs| == |models|
  {
    seq(|models|, i requires 0 <= i < |models| => ClassificationOrFallback(models[i](x)))
  }

  /** The loop over the regressors: each contributes its prediction, or 70.0 when it raises. */
  method CollectScores(models: seq<Regressor>, x: FeatureVector) returns (preds: seq<real>)
    ensures |preds| == |models|
    ensures forall i :: 0 <= i < |models| && models[i](x).Some? ==> preds[i] == models[i](x).value
    ensures forall i :: 0 <= i < |models| && models[i](x).None? ==> preds[i] == FallbackScore
    ensures preds == Scores(models, x)
  {
    preds := [];
    var i := 0;
    while i < |models|
      invariant 0 <= i <= |models|
      invariant preds == Scores(models, x)[..i]
    {
      match models[i](x) {
        case Some(score) => preds := preds + [score];
        case None => preds := preds + [FallbackScore];
      }
      i := i + 1;
    }
  }

  /**
   * The loop over the classifiers: each contributes its vote and its
   * probability vector, or vote 1 with [0.33, 0.34, 0.33] when it raises.
   */
  method CollectVotes(models: seq<Classifier>, x: FeatureVector) returns (votes: seq<int>, probas: seq<seq<real>>)
    ensures |votes| == |probas| == |models|
    ensures forall i :: 0 <= i < |models| && models[i](x).Some? ==>
      votes[i] == models[i](x).value.vote && probas[i] == models[i](x).value.probabilities
    ensures forall i :: 0 <= i < |models| && models[i](x).None? ==>
      votes[i] == FallbackLabel && probas[i] == FallbackProbabilities
    ensures votes == Votes(Classifications(models, x)) && probas == Probabilities(Classifications(models, x))
  {
    votes, probas := [], [];
    var i := 0;
    while i < |models|
      invariant 0 <= i <= |models|
      invariant votes == Votes(Classifications(models, x))[..i]
      invariant probas == Probabilities(Classifications(models, x))[..i]
    {
      match models[i](x) {
        case Some(c) =>
          votes := votes + [c.vote];
          probas := probas + [c.probabilities];
        case None =>
          votes := votes + [FallbackLabel];
          probas := probas + [FallbackProbabilities];
      }
      i := i + 1;
    }
  }

  function Votes(cs: seq<Classification>): (votes: seq<int>)
    ensures |votes| == |cs|
  {
    seq(|cs|, i requires 0 <= i < |cs| => cs[i].vote)
  }

  function Probabilities(cs: seq<Classification>): (ps: seq<seq<real>>)
    ensures |ps| == |cs|
  {
    seq(|cs|, i requires 0 <= i < |cs| => cs[i].probabilities)
  }

  /** `list.count`: how many votes equal `v`. */
  function Count(votes: seq<int>, v: int): nat
  {
    if votes == [] then 0 else (if votes[0] == v then 1 else 0) + Count(votes[1..], v)
  }

  /**
   * The winner among the first `k` votes: most frequent in the whole list,
   * and among equally frequent labels the smallest, which is the order in
   * which CPython iterates a set of small non-negative integers.
   */
  function BestAmong(votes: seq<int>, k: nat): (c: int)
    requires 0 < k <= |votes|
    ensures c in votes[..k]
    ensures forall j :: 0 <= j < k ==>
      Count(votes, votes[j]) < Count(votes, c) || (Count(votes, votes[j]) == Count(votes, c) && c <= votes[j])
  {
    if k == 1 then votes[0]
    else
      var best := BestAmong(votes, k - 1);
      var v := votes[k - 1];
      assert votes[..k] == votes[..k - 1] + [v];
      if Count(votes, v) > Count(votes, best) || (Count(votes, v) == Count(votes, best) && v < best) then v
      else best
  }

  /** `max(set(votes), key=votes.count)`: a most frequent vote. */
  function MajorityVote(votes: seq<int>): (c: int)
    requires |votes| > 0
    ensures c in votes
    ensures forall v :: v in votes ==> Count(votes, v) <= Count(votes, c)
    ensures forall v :: v in votes && Count(votes, v) == Count(votes, c) ==> c <= v
  {
    assert votes[..|votes|] == votes;
    BestAmong(votes, |votes|)
  }

  /** The sum of entry `j` over all probability vectors. */
  function ColumnSum(ps: seq<seq<real>>, j: nat): real
    requires forall i :: 0 <= i < |ps| ==> j < |ps[i]|
  {
    if ps == [] then 0.0 else ps[0][j] + ColumnSum(ps[1..], j)
  }

  /** `numpy.mean(ps, axis=0)` for vectors that all have `width` entries. */
  function MeanProbabilities(ps: seq<seq<real>>, width: nat): (avg: seq<real>)
    requires |ps| > 0
    requires forall i :: 0 <= i < |ps| ==> |ps[i]| == width
    ensures |avg| == width
  {
    seq(width, j requires 0 <= j < width => ColumnSum(ps, j) / |ps| as real)
  }

  /**
   * The averaged probability vector, or the error `numpy` raises: vectors of
   * different lengths cannot be averaged, and an empty average has no maximum.
   */
  function AverageProbabilities(ps: seq<seq<real>>): (r: Result<seq<real>, AggregateError>)
    requires |ps| > 0
    ensures r.Success? <==> (forall i :: 0 <= i < |ps| ==> |ps[i]| == |ps[0]|) && |ps[0]| > 0
    ensures r.Success? ==> |r.value| == |ps[0]|
  {
    if exists i :: 0 <= i < |ps| && |ps[i]| != |ps[0]| then Failure(RaggedProbabilities)
    else if |ps[0]| == 0 then Failure(EmptyProbabilities)
    else Success(MeanProbabilities(ps, |ps[0]|))
  }

  /** `confidence`: the largest entry of the averaged vector. */
  function Confidence(avg: seq<real>): real
    requires |avg| > 0
  {
    MaxOf(avg)
  }

  lemma {:induction false} ColumnSumBounds(ps: seq<seq<real>>, j: nat)
    requires forall i :: 0 <= i < |ps| ==> j < |ps[i]| && 0.0 <= ps[i][j] <= 1.0
    ensures 0.0 <= ColumnSum(ps, j) <= |ps| as real
  {
    if ps != [] {
      ColumnSumBounds(ps[1..], j);
    }
  }

  /**
   * When every classifier's vector holds probabilities (entries in [0, 1]),
   * the confidence lies in [0, 1].
   */
  lemma ConfidenceIsProbability(ps: seq<seq<real>>)
    requires |ps| > 0
    requires AverageProbabilities(ps).Success?
    requires forall i, j :: 0 <= i < |ps| && 0 <= j < |ps[i]| ==> 0.0 <= ps[i][j] <= 1.0
    ensures 0.0 <= Confidence(AverageProbabilities(ps).value) <= 1.0
  {
    var avg := AverageProbabilities(ps).value;
    forall j | 0 <= j < |avg| ensures 0.0 <= avg[j] <= 1.0 {
      ColumnSumBounds(ps, j);
      DivideBounds(0.0, ColumnSum(ps, j), 1.0, |ps| as real);
    }
  }

  /**
   * The confidence is the largest averaged probability, not that of the
   * voted class: two classifiers voting 1 with [0.4, 0.6, 0.0] and one voting
   * 0 with [1.0, 0.0, 0.0] elect class 1, whose averaged probability is 0.4,
   * while the confidence is class 0's 0.6.
   */
  lemma ConfidenceNotOfVotedClass()
    ensures var votes := [1, 1, 0];
            var ps := [[0.4, 0.6, 0.0], [0.4, 0.6, 0.0], [1.0, 0.0, 0.0]];
            && MajorityVote(votes) == 1
            && AverageProbabilities(ps) == Success([0.6, 0.4, 0.0])
            && Confidence([0.6, 0.4, 0.0]) == 0.6
  {
    var votes := [1, 1, 0];
    assert Count(votes, 1) == 2 && Count(votes, 0) == 1;
    var ps := [[0.4, 0.6, 0.0], [0.4, 0.6, 0.0], [1.0, 0.0, 0.0]];
    assert ColumnSum(ps, 0) == 1.8 && ColumnSum(ps, 1) == 1.2 && ColumnSum(ps, 2) == 0.0;
    assert MeanProbabilities(ps, 3) == [0.6, 0.4, 0.0];
  }

  /** `_calculate_score_range`: minimum, maximum and their difference, each rounded to one decimal. */
  datatype ScoreRange = ScoreRange(min: real, max: real, range: real)

  function ScoreRangeOf(preds: seq<real>): ScoreRange
    requires |preds| > 0
  {
    ScoreRange(Round1(MinOf(preds)), Round1(MaxOf(preds)), Round1(MaxOf(preds) - MinOf(preds)))
  }

  /**
   * The range brackets the ensemble score: the rounded minimum is at most the
   * rounded mean, which is at most the rounded maximum, and the rounded range
   * is not negative.
   */
  lemma ScoreRangeBracketsMean(preds: seq<real>)
    requires |preds| > 0
    ensures ScoreRangeOf(preds).min <= Round1(Mean(preds)) <= ScoreRangeOf(preds).max
    ensures ScoreRangeOf(preds).range >= 0.0
  {
    MeanBetweenMinAndMax(preds);
    Round1Monotone(MinOf(preds), Mean(preds));
    Round1Monotone(Mean(preds), MaxOf(preds));
    Round1Monotone(0.0, MaxOf(preds) - MinOf(preds));
    Round1OfInteger(0);
  }

  /** When every regressor raises, the score is exactly 70.0 and the range is 0. */
  lemma AllRegressorsFail(models: seq<Regressor>, x: FeatureVector)
    requires |models| > 0
    requires forall i :: 0 <= i < |models| ==> models[i](x).None?
    ensures Mean(Scores(models, x)) == 70.0
    ensures ScoreRangeOf(Scores(models, x)) == ScoreRange(70.0, 70.0, 0.0)
  {
    MeanOfConstant(Scores(models, x), 70.0);
    Round1OfInteger(70);
    Round1OfInteger(0);
  }

  /**
   * `encoders['performance_level'].inverse_transform([c])`, or 'Medium' when
   * there is no such encoder or `c` is not one of its codes.
   */
  function DecodeLevel(encoders: FeatureMapper.Encoders, c: int): (level: string)
    ensures "performance_level" in encoders && 0 <= c < |encoders["performance_level"]| ==>
      level == encoders["performance_level"][c]
    ensures !("performance_level" in encoders && 0 <= c < |encoders["performance_level"]|) ==>
      level == "Medium"
  {
    if "performance_level" in encoders && 0 <= c < |encoders["performance_level"]|
    then encoders["performance_level"][c] else "Medium"
  }

  /**
   * A label encoder sorts its classes, so a model trained on the four
   * performance levels codes them Excellent=0, High=1, Low=2, Medium=3; the
   * fallback vote 1 then decodes to 'High', not 'Medium'.
   */
  lemma FallbackVoteDecodesToHigh(encoders: FeatureMapper.Encoders)
    requires "performance_level" in encoders
    requires encoders["performance_level"] == ["Excellent", "High", "Low", "Medium"]
    ensures DecodeLevel(encoders, FallbackLabel) == "High"
  {
  }
}
