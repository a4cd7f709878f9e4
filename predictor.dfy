/**
 * `EnsemblePredictor.predict`: map the request to the model row, run the
 * ensemble, decode the level, and assemble the response from the score, its
 * range and per-model breakdown, the insight block, the feature-impact report
 * and the recommendations. Anything that raises on the way becomes the
 * failure response; which failure is reported is decided by the order in
 * which the source evaluates its steps.
 */
module Predictor {
  import opened Wrappers
  import opened Numeric
  import opened Values
  import FeatureMapper
  import Ensemble
  import Insights
  import FeatureImpact
  import Recommendations

  /**
   * A loaded predictor: its regressors and classifiers in registration order,
   * its label encoders and the trained column order. Nothing in it changes
   * after loading.
   */
  datatype EnsemblePredictor = EnsemblePredictor(
    regressors: seq<Ensemble.Regressor>,
    classifiers: seq<Ensemble.Classifier>,
    encoders: FeatureMapper.Encoders,
    featureColumns: seq<string>)

  /** What makes `predict` return its failure response, in the order the source meets them. */
  datatype PredictError =
    | UnmappableRequest(mapError: FeatureMapper.MapError)   // `preprocess_input` raises
    | AggregationFailed(aggregateError: Ensemble.AggregateError)
    | UncomparableInsightField                              // a comparison in `_generate_insights` raises
    | ScoreNotANumber                                       // no regressor: `int(nan)` in `_estimate_percentile`
    | NoSecondRegressor                                     // `regression_predictions[1]` raises
    | UncomparableRecommendationField                       // a comparison in `_generate_recommendations` raises

  /** `model_breakdown`: the first two regressors' scores and the ensemble score, rounded. */
  datatype Breakdown = Breakdown(xgboostScore: real, catboostScore: real, ensembleScore: real)

  /** `predictions`. */
  datatype Predictions = Predictions(
    finalScore: real, performanceLevel: string, confidence: real,
    scoreRange: Ensemble.ScoreRange, modelBreakdown: Breakdown)

  /** The success response. */
  datatype Prediction = Prediction(
    predictions: Predictions,
    insights: Insights.Insights,
    featureImpact: seq<FeatureImpact.Impact>,
    recommendations: seq<Recommendations.Recommendation>)

  /**
   * The response once the ensemble has run: the insight readings, the mean
   * score, the second regressor's score and the recommendation readings are
   * needed in that order, and the first one missing decides the failure.
   */
  function Respond(req: Request, preds: seq<real>, avg: seq<real>, level: string): Result<Prediction, PredictError>
    requires |avg| > 0
  {
    if Insights.ReadProfile(req).None? then Failure(UncomparableInsightField)
    else if |preds| == 0 then Failure(ScoreNotANumber)
    else if |preds| == 1 then Failure(NoSecondRegressor)
    else if Recommendations.ReadReadings(req).None? then Failure(UncomparableRecommendationField)
    else Success(Assemble(Insights.ReadProfile(req).value, Recommendations.ReadReadings(req).value, preds, avg, level))
  }

  /** The success response built from the readings, the scores, the averaged probabilities and the level. */
  function Assemble(profile: Insights.Profile, readings: Recommendations.Readings, preds: seq<real>, avg: seq<real>, level: string): Prediction
    requires |preds| >= 2 && |avg| > 0
  {
    var score := Mean(preds);
    Prediction(
      Predictions(
        Round1(score), level, Round1(Ensemble.Confidence(avg) * 100.0),
        Ensemble.ScoreRangeOf(preds),
        Breakdown(Round1(preds[0]), Round1(preds[1]), Round1(score))),
      Insights.InsightsOf(profile, score, level),
      FeatureImpact.AnalyzeFeatureImpact(),
      Recommendations.Recommend(readings, score, level))
  }

  /** The response `predict` gives for a request, step by step as the source evaluates it. */
  function PredictOutcome(m: EnsemblePredictor, req: Request): Result<Prediction, PredictError>
  {
    match FeatureMapper.MapRequest(m.encoders, m.featureColumns, req)
    case Failure(e) => Failure(UnmappableRequest(e))
    case Success(x) =>
      var cs := Ensemble.Classifications(m.classifiers, x);
      if |cs| == 0 then Failure(AggregationFailed(Ensemble.NoClassifiers))
      else
        match Ensemble.AverageProbabilities(Ensemble.Probabilities(cs))
        case Failure(e) => Failure(AggregationFailed(e))
        case Success(avg) =>
          Respond(req, Ensemble.Scores(m.regressors, x), avg,
            Ensemble.DecodeLevel(m.encoders, Ensemble.MajorityVote(Ensemble.Votes(cs))))
  }

  /** `predict`: map the request, run the ensemble, then build the response. */
  method Predict(m: EnsemblePredictor, req: Request) returns (r: Result<Prediction, PredictError>)
    ensures r == PredictOutcome(m, req)
  {
    var mapped := FeatureMapper.Preprocess(m.encoders, m.featureColumns, req);
    if mapped.Failure? {
      return Failure(UnmappableRequest(mapped.error));
    }
    var x := mapped.value;
    var preds := Ensemble.CollectScores(m.regressors, x);
    var votes, probas := Ensemble.CollectVotes(m.classifiers, x);
    if |votes| == 0 {
      return Failure(AggregationFailed(Ensemble.NoClassifiers));
    }
    var finalClass := Ensemble.MajorityVote(votes);
    var avg := Ensemble.AverageProbabilities(probas);
    if avg.Failure? {
      return Failure(AggregationFailed(avg.error));
    }
    var level := Ensemble.DecodeLevel(m.encoders, finalClass);
    r := BuildResponse(req, preds, avg.value, level);
  }

  /** The rest of `predict` once the score, the probabilities and the level are known. */
  method BuildResponse(req: Request, preds: seq<real>, avg: seq<real>, level: string)
    returns (r: Result<Prediction, PredictError>)
    requires |avg| > 0
    ensures r == Respond(req, preds, avg, level)
  {
    if |preds| == 0 {
      // The mean of no scores is nan; the insight readings still run first.
      if Insights.ReadProfile(req).None? {
        return Failure(UncomparableInsightField);
      }
      return Failure(ScoreNotANumber);
    }
    var finalScore := Mean(preds);
    var insights := Insights.GenerateInsights(req, finalScore, level);
    if insights.None? {
      return Failure(UncomparableInsightField);
    }
    assert Insights.ReadProfile(req).Some?;
    var featureImpact := FeatureImpact.AnalyzeFeatureImpact();
    var scoreRange := Ensemble.ScoreRangeOf(preds);
    if |preds| < 2 {
      return Failure(NoSecondRegressor);
    }
    var breakdown := Breakdown(Round1(preds[0]), Round1(preds[1]), Round1(finalScore));
    var recommendations := Recommendations.GenerateRecommendations(req, finalScore, level);
    if recommendations.None? {
      assert Recommendations.ReadReadings(req).None?;
      return Failure(UncomparableRecommendationField);
    }
    assert Recommendations.ReadReadings(req).Some?;
    var predictions := Predictions(Round1(finalScore), level, Round1(Ensemble.Confidence(avg) * 100.0), scoreRange, breakdown);
    var prediction := Prediction(predictions, insights.value, featureImpact, recommendations.value);
    assert prediction == Assemble(Insights.ReadProfile(req).value, Recommendations.ReadReadings(req).value, preds, avg, level);
    r := Success(prediction);
  }

  /** Every field the insight engine compares can be compared with a number. */
  predicate InsightFieldsComparable(req: Request)
  {
    forall t: Insights.Trait :: Comparable(req, Insights.Key(t))
  }

  /** Every field the recommendation engine compares can be compared with a number. */
  predicate RecommendationFieldsComparable(req: Request)
  {
    forall i :: 0 <= i < |Recommendations.ReadingKeys| ==> Comparable(req, Recommendations.ReadingKeys[i].0)
  }

  /** The classifiers' probability vectors for the row all have the same, positive length. */
  predicate ProbabilitiesAverage(m: EnsemblePredictor, x: FeatureMapper.FeatureVector)
  {
    var ps := Ensemble.Probabilities(Ensemble.Classifications(m.classifiers, x));
    |ps| > 0 && (forall i :: 0 <= i < |ps| ==> |ps[i]| == |ps[0]|) && |ps[0]| > 0
  }

  /** The averaged probabilities of the classifiers for the row. */
  function AveragedProbabilities(m: EnsemblePredictor, x: FeatureMapper.FeatureVector): (avg: seq<real>)
    requires ProbabilitiesAverage(m, x)
    ensures |avg| > 0
  {
    Ensemble.AverageProbabilities(Ensemble.Probabilities(Ensemble.Classifications(m.classifiers, x))).value
  }

  /** The decoded majority vote of the classifiers for the row. */
  function VotedLevel(m: EnsemblePredictor, x: FeatureMapper.FeatureVector): string
    requires |m.classifiers| > 0
  {
    Ensemble.DecodeLevel(m.encoders, Ensemble.MajorityVote(Ensemble.Votes(Ensemble.Classifications(m.classifiers, x))))
  }

  /**
   * Once the request maps and the probabilities average, the outcome is the
   * response built from the row's scores, averaged probabilities and level;
   * otherwise it is the mapping or aggregation failure.
   */
  lemma PredictOutcomeStages(m: EnsemblePredictor, req: Request)
    ensures FeatureMapper.MapRequest(m.encoders, m.featureColumns, req).Failure? ==>
      PredictOutcome(m, req) == Failure(UnmappableRequest(FeatureMapper.MapRequest(m.encoders, m.featureColumns, req).error))
    ensures FeatureMapper.MapRequest(m.encoders, m.featureColumns, req).Success? ==>
      var x := FeatureMapper.MapRequest(m.encoders, m.featureColumns, req).value;
      if ProbabilitiesAverage(m, x)
      then PredictOutcome(m, req) == Respond(req, Ensemble.Scores(m.regressors, x), AveragedProbabilities(m, x), VotedLevel(m, x))
      else PredictOutcome(m, req).Failure? && PredictOutcome(m, req).error.AggregationFailed?
  {
    match FeatureMapper.MapRequest(m.encoders, m.featureColumns, req)
    case Failure(_) =>
    case Success(x) =>
      var ps := Ensemble.Probabilities(Ensemble.Classifications(m.classifiers, x));
      if |ps| > 0 {
        assert Ensemble.AverageProbabilities(ps).Success? <==> ProbabilitiesAverage(m, x);
      }
  }

  /**
   * After the ensemble has run, the response is a success exactly when the
   * insight fields compare, there are two scores and the recommendation
   * fields compare; otherwise the first of these that is missing names the
   * failure.
   */
  lemma RespondFailures(req: Request, preds: seq<real>, avg: seq<real>, level: string)
    requires |avg| > 0
    ensures Respond(req, preds, avg, level).Success? <==>
      InsightFieldsComparable(req) && |preds| >= 2 && RecommendationFieldsComparable(req)
    ensures !InsightFieldsComparable(req) ==> Respond(req, preds, avg, level) == Failure(UncomparableInsightField)
    ensures InsightFieldsComparable(req) && |preds| == 0 ==> Respond(req, preds, avg, level) == Failure(ScoreNotANumber)
    ensures InsightFieldsComparable(req) && |preds| == 1 ==> Respond(req, preds, avg, level) == Failure(NoSecondRegressor)
    ensures InsightFieldsComparable(req) && |preds| >= 2 && !RecommendationFieldsComparable(req) ==>
      Respond(req, preds, avg, level) == Failure(UncomparableRecommendationField)
  {
  }

  /**
   * `predict` succeeds exactly when the request maps, there is a classifier
   * and the probability vectors can be averaged, there are at least two
   * regressors, and every field compared by the insight and recommendation
   * engines holds a number, a boolean or nothing.
   */
  lemma PredictSucceedsIff(m: EnsemblePredictor, req: Request)
    ensures PredictOutcome(m, req).Success? <==>
      && FeatureMapper.MapRequest(m.encoders, m.featureColumns, req).Success?
      && ProbabilitiesAverage(m, FeatureMapper.MapRequest(m.encoders, m.featureColumns, req).value)
      && |m.regressors| >= 2
      && InsightFieldsComparable(req)
      && RecommendationFieldsComparable(req)
  {
    PredictOutcomeStages(m, req);
    var mapped := FeatureMapper.MapRequest(m.encoders, m.featureColumns, req);
    if mapped.Success? && ProbabilitiesAverage(m, mapped.value) {
      var x := mapped.value;
      RespondFailures(req, Ensemble.Scores(m.regressors, x), AveragedProbabilities(m, x), VotedLevel(m, x));
    }
  }

  /**
   * A request that does not map is refused before any model runs, whatever
   * the models are.
   */
  lemma MappingFailureComesFirst(m: EnsemblePredictor, req: Request)
    requires FeatureMapper.MapRequest(m.encoders, m.featureColumns, req).Failure?
    ensures PredictOutcome(m, req) == Failure(UnmappableRequest(FeatureMapper.MapRequest(m.encoders, m.featureColumns, req).error))
  {
  }

  /**
   * A successful response is consistent with itself: the reported score is
   * the rounded mean and lies within the reported range, the breakdown's
   * ensemble score is the reported score, the insights and recommendations
   * are computed from the unrounded mean, and the feature-impact report is
   * the fixed ten-entry table.
   */
  lemma RespondConsistent(req: Request, preds: seq<real>, avg: seq<real>, level: string)
    requires |avg| > 0
    requires Respond(req, preds, avg, level).Success?
    ensures var out := Respond(req, preds, avg, level).value;
      && |preds| >= 2
      && out.predictions.finalScore == Round1(Mean(preds))
      && out.predictions.scoreRange.min <= out.predictions.finalScore <= out.predictions.scoreRange.max
      && out.predictions.scoreRange.range >= 0.0
      && out.predictions.modelBreakdown.ensembleScore == out.predictions.finalScore
      && out.predictions.performanceLevel == level
      && out.predictions.confidence == Round1(Ensemble.Confidence(avg) * 100.0)
      && out.insights.analysis.predictedScore == Mean(preds)
      && out.insights.analysis.currentLevel == level
      && out.featureImpact == FeatureImpact.BalancedReportEntries
  {
    Ensemble.ScoreRangeBracketsMean(preds);
    FeatureImpact.ReportIsRankedPrefix();
  }

  /** `predict`'s successful response is consistent with itself, as `RespondConsistent` states. */
  lemma PredictionConsistent(m: EnsemblePredictor, req: Request)
    requires PredictOutcome(m, req).Success?
    ensures var x := FeatureMapper.MapRequest(m.encoders, m.featureColumns, req).value;
      var preds := Ensemble.Scores(m.regressors, x);
      var out := PredictOutcome(m, req).value;
      && |preds| >= 2
      && out.predictions.finalScore == Round1(Mean(preds))
      && out.predictions.scoreRange.min <= out.predictions.finalScore <= out.predictions.scoreRange.max
      && out.predictions.scoreRange.range >= 0.0
      && out.predictions.modelBreakdown.ensembleScore == out.predictions.finalScore
      && out.insights.analysis.predictedScore == Mean(preds)
      && out.featureImpact == FeatureImpact.BalancedReportEntries
  {
    PredictOutcomeStages(m, req);
    var x := FeatureMapper.MapRequest(m.encoders, m.featureColumns, req).value;
    RespondConsistent(req, Ensemble.Scores(m.regressors, x), AveragedProbabilities(m, x), VotedLevel(m, x));
  }

  /**
   * The reported level is one of the trained level names, or 'Medium' when
   * the vote cannot be decoded.
   */
  lemma PerformanceLevelDecoded(m: EnsemblePredictor, req: Request)
    requires PredictOutcome(m, req).Success?
    ensures var level := PredictOutcome(m, req).value.predictions.performanceLevel;
      level == "Medium"
      || ("performance_level" in m.encoders && level in m.encoders["performance_level"])
  {
    PredictOutcomeStages(m, req);
    var x := FeatureMapper.MapRequest(m.encoders, m.featureColumns, req).value;
    RespondConsistent(req, Ensemble.Scores(m.regressors, x), AveragedProbabilities(m, x), VotedLevel(m, x));
  }

  /** A confidence in [0, 1] is reported as a percentage in [0, 100]. */
  lemma RespondConfidence(req: Request, preds: seq<real>, avg: seq<real>, level: string)
    requires |avg| > 0
    requires Respond(req, preds, avg, level).Success?
    requires 0.0 <= Ensemble.Confidence(avg) <= 1.0
    ensures 0.0 <= Respond(req, preds, avg, level).value.predictions.confidence <= 100.0
  {
    var c := Ensemble.Confidence(avg);
    RespondConsistent(req, preds, avg, level);
    assert 0.0 <= c * 100.0 <= 100.0;
    Round1Monotone(0.0, c * 100.0);
    Round1Monotone(c * 100.0, 100.0);
    Round1OfInteger(0);
    Round1OfInteger(100);
  }

  /**
   * When every classifier's probabilities lie in [0, 1], the reported
   * confidence is a percentage in [0, 100].
   */
  lemma ConfidenceIsPercentage(m: EnsemblePredictor, req: Request)
    requires PredictOutcome(m, req).Success?
    requires var x := FeatureMapper.MapRequest(m.encoders, m.featureColumns, req).value;
      var ps := Ensemble.Probabilities(Ensemble.Classifications(m.classifiers, x));
      forall i, j :: 0 <= i < |ps| && 0 <= j < |ps[i]| ==> 0.0 <= ps[i][j] <= 1.0
    ensures 0.0 <= PredictOutcome(m, req).value.predictions.confidence <= 100.0
  {
    PredictOutcomeStages(m, req);
    var x := FeatureMapper.MapRequest(m.encoders, m.featureColumns, req).value;
    Ensemble.ConfidenceIsProbability(Ensemble.Probabilities(Ensemble.Classifications(m.classifiers, x)));
    RespondConfidence(req, Ensemble.Scores(m.regressors, x), AveragedProbabilities(m, x), VotedLevel(m, x));
  }

  /**
   * When every regressor raises, each contributes 70.0: the reported score
   * is 70.0 and the range collapses to [70.0, 70.0].
   */
  lemma AllRegressorsFailScore70(m: EnsemblePredictor, req: Request)
    requires PredictOutcome(m, req).Success?
    requires var x := FeatureMapper.MapRequest(m.encoders, m.featureColumns, req).value;
      forall i :: 0 <= i < |m.regressors| ==> m.regressors[i](x).None?
    ensures PredictOutcome(m, req).value.predictions.finalScore == 70.0
    ensures PredictOutcome(m, req).value.predictions.scoreRange == Ensemble.ScoreRange(70.0, 70.0, 0.0)
  {
    PredictOutcomeStages(m, req);
    var x := FeatureMapper.MapRequest(m.encoders, m.featureColumns, req).value;
    var preds := Ensemble.Scores(m.regressors, x);
    RespondConsistent(req, preds, AveragedProbabilities(m, x), VotedLevel(m, x));
    Ensemble.AllRegressorsFail(m.regressors, x);
    Round1OfInteger(70);
  }

  /**
   * Failures are reported in the source's order: a request whose insight
   * fields compare but whose recommendation fields do not fails on the
   * missing score with no regressor, on the missing second score with one,
   * and on the recommendations only with two or more.
   */
  lemma LaterFailuresMasked(m: EnsemblePredictor, req: Request)
    requires FeatureMapper.MapRequest(m.encoders, m.featureColumns, req).Success?
    requires ProbabilitiesAverage(m, FeatureMapper.MapRequest(m.encoders, m.featureColumns, req).value)
    requires InsightFieldsComparable(req)
    requires !RecommendationFieldsComparable(req)
    ensures |m.regressors| == 1 ==> PredictOutcome(m, req) == Failure(NoSecondRegressor)
    ensures |m.regressors| >= 2 ==> PredictOutcome(m, req) == Failure(UncomparableRecommendationField)
    ensures |m.regressors| == 0 ==> PredictOutcome(m, req) == Failure(ScoreNotANumber)
  {
    PredictOutcomeStages(m, req);
    var x := FeatureMapper.MapRequest(m.encoders, m.featureColumns, req).value;
    RespondFailures(req, Ensemble.Scores(m.regressors, x), AveragedProbabilities(m, x), VotedLevel(m, x));
  }
}
