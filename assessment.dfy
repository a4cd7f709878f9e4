/**
 * The score-only helpers of the insight engine: the verbal interpretation of
 * a score, the benchmark of each performance level and the gap to it, the
 * percentile estimate, and the improvement-potential decision table.
 */
module Assessment {
  import opened Numeric

  /** The five verdicts of `_get_score_interpretation`, best first. */
  datatype Interpretation = Exceptional | Strong | Solid | Developing | NeedsImprovement
  {
    /** A rank that grows with the verdict, 0 for the lowest. */
    function Rank(): nat
    {
      match this
      case NeedsImprovement => 0
      case Developing => 1
      case Solid => 2
      case Strong => 3
      case Exceptional => 4
    }

    function Text(): string
    {
      match this
      case Exceptional => "Exceptional performance - demonstrates mastery of concepts"
      case Strong => "Strong performance - good understanding with room for excellence"
      case Solid => "Solid performance - foundation established, needs refinement"
      case Developing => "Developing performance - basic understanding, needs significant improvement"
      case NeedsImprovement => "Needs improvement - focus on fundamental concepts and study habits"
    }
  }

  /** The lowest score that earns each verdict. */
  function InterpretationFloor(i: Interpretation): real
  {
    match i
    case Exceptional => 90.0
    case Strong => 80.0
    case Solid => 70.0
    case Developing => 60.0
    case NeedsImprovement => 0.0
  }

  /**
   * The verdict for a score: the best one whose floor the score reaches; the
   * lowest verdict is also what any score under 60 gets, negative ones included.
   */
  function Interpret(score: real): (i: Interpretation)
    ensures i != NeedsImprovement ==> score >= InterpretationFloor(i)
    ensures forall j: Interpretation :: j.Rank() > i.Rank() ==> score < InterpretationFloor(j)
  {
    if score >= 90.0 then Exceptional
    else if score >= 80.0 then Strong
    else if score >= 70.0 then Solid
    else if score >= 60.0 then Developing
    else NeedsImprovement
  }

  /** A higher score never gets a worse verdict. */
  lemma InterpretMonotone(x: real, y: real)
    requires x <= y
    ensures Interpret(x).Rank() <= Interpret(y).Rank()
  {
  }

  /** The six verdicts of `_get_gap_analysis`, best first. */
  datatype GapBand = SignificantlyAbove | Above | Meeting | SlightlyBelow | Below | SignificantlyBelow
  {
    function Rank(): nat
    {
      match this
      case SignificantlyBelow => 0
      case Below => 1
      case SlightlyBelow => 2
      case Meeting => 3
      case Above => 4
      case SignificantlyAbove => 5
    }

    function Text(): string
    {
      match this
      case SignificantlyAbove => "Significantly above benchmark - exceptional performance"
      case Above => "Above benchmark - strong performance"
      case Meeting => "Meeting benchmark - solid performance"
      case SlightlyBelow => "Slightly below benchmark - needs minor improvements"
      case Below => "Below benchmark - needs focused improvement"
      case SignificantlyBelow => "Significantly below benchmark - requires substantial intervention"
    }
  }

  /** The band of a gap; the level is passed by the caller but never consulted. */
  function GapAnalysis(gap: real, level: string): (b: GapBand)
    ensures b == SignificantlyAbove <==> gap >= 10.0
    ensures b == Above <==> 5.0 <= gap < 10.0
    ensures b == Meeting <==> 0.0 <= gap < 5.0
    ensures b == SlightlyBelow <==> -5.0 <= gap < 0.0
    ensures b == Below <==> -10.0 <= gap < -5.0
    ensures b == SignificantlyBelow <==> gap < -10.0
    ensures b.Rank() >= Meeting.Rank() <==> gap >= 0.0
  {
    if gap >= 10.0 then SignificantlyAbove
    else if gap >= 5.0 then Above
    else if gap >= 0.0 then Meeting
    else if gap >= -5.0 then SlightlyBelow
    else if gap >= -10.0 then Below
    else SignificantlyBelow
  }

  /** A larger gap never gets a worse band, whatever the level. */
  lemma GapAnalysisMonotone(x: real, y: real, level: string, other: string)
    requires x <= y
    ensures GapAnalysis(x, level).Rank() <= GapAnalysis(y, other).Rank()
  {
  }

  /** The reference score of each level, 70 for a level with no entry. */
  function Benchmark(level: string): (b: int)
    ensures level == "Low" ==> b == 55
    ensures level == "Medium" ==> b == 70
    ensures level == "High" ==> b == 85
    ensures level == "Excellent" ==> b == 90
    ensures level !in {"Low", "Medium", "High", "Excellent"} ==> b == 70
    ensures 55 <= b <= 90
  {
    if level == "Low" then 55
    else if level == "Medium" then 70
    else if level == "High" then 85
    else if level == "Excellent" then 90
    else 70
  }

  /**
   * Comparing a score with its level's benchmark: the score meets or beats
   * the benchmark exactly when its band is 'Meeting' or better.
   */
  lemma MeetsBenchmarkIffNotBelow(score: real, level: string)
    ensures GapAnalysis(score - Benchmark(level) as real, level).Rank() >= Meeting.Rank()
        <==> score >= Benchmark(level) as real
  {
  }

  /** The bounds of the percentile band of a level, and the value of an unknown level. */
  function PercentileBand(level: string): (bounds: (int, int))
  {
    if level == "Low" then (10, 30)
    else if level == "Medium" then (40, 70)
    else if level == "High" then (70, 95)
    else if level == "Excellent" then (90, 99)
    else (50, 50)
  }

  /** The unclamped linear estimate of each level, before `int()`. */
  function PercentileLine(score: real, level: string): real
  {
    if level == "Low" then (score - 40.0) / 20.0 * 20.0
    else if level == "Medium" then (score - 60.0) / 20.0 * 30.0 + 40.0
    else if level == "High" then (score - 80.0) / 15.0 * 25.0 + 70.0
    else if level == "Excellent" then (score - 90.0) / 5.0 * 9.0 + 90.0
    else 50.0
  }

  /**
   * `_estimate_percentile`: the level's linear estimate truncated toward zero
   * and clamped into the level's band; 50 for any other level.
   */
  function Percentile(score: real, level: string): (p: int)
    ensures PercentileBand(level).0 <= p <= PercentileBand(level).1
    ensures level == "Low" ==> 10 <= p <= 30
    ensures level == "Medium" ==> 40 <= p <= 70
    ensures level == "High" ==> 70 <= p <= 95
    ensures level == "Excellent" ==> 90 <= p <= 99
    ensures level !in {"Low", "Medium", "High", "Excellent"} ==> p == 50
  {
    ClampInt(Trunc(PercentileLine(score, level)), PercentileBand(level).0, PercentileBand(level).1)
  }

  /** For a fixed level, a higher score never gets a lower percentile. */
  lemma PercentileMonotone(x: real, y: real, level: string)
    requires x <= y
    ensures Percentile(x, level) <= Percentile(y, level)
  {
    assert PercentileLine(x, level) <= PercentileLine(y, level);
    TruncMonotone(PercentileLine(x, level), PercentileLine(y, level));
  }

  /** Every band's lower bound is positive, so `int()` may be read as a floor. */
  lemma PercentileIsClampedFloor(score: real, level: string)
    ensures Percentile(score, level)
         == ClampInt(PercentileLine(score, level).Floor, PercentileBand(level).0, PercentileBand(level).1)
  {
    ClampedTruncIsClampedFloor(PercentileLine(score, level), PercentileBand(level).0, PercentileBand(level).1);
  }

  /**
   * The bands are not disjoint: a score of 80 is the 70th percentile both as
   * 'Medium' and as 'High', and a score of 92 is the 90th both as 'High' and
   * as 'Excellent'.
   */
  lemma PercentileBandsOverlap()
    ensures Percentile(80.0, "Medium") == 70 == Percentile(80.0, "High")
    ensures Percentile(92.0, "High") == 90 == Percentile(90.0, "Excellent")
  {
    assert Trunc(70.0) == 70 && Trunc(90.0) == 90;
  }

  /** One row of the improvement-potential decision table. */
  datatype Improvement = Improvement(shortTermTarget: int, potentialGain: real, timeline: string, focusArea: string)

  /** Whether the score falls in one of the four rows keyed on level and score. */
  predicate KeyedRow(score: real, level: string)
  {
    (level == "Low" && score < 70.0) || (level == "Medium" && score < 85.0)
  }

  /** The next target before rounding: a fixed value in the keyed rows, else five points up capped at 95. */
  function NextTarget(score: real, level: string): (t: real)
    ensures level == "Low" && score < 60.0 ==> t == 65.0
    ensures level == "Low" && 60.0 <= score < 70.0 ==> t == 75.0
    ensures level == "Medium" && score < 75.0 ==> t == 80.0
    ensures level == "Medium" && 75.0 <= score < 85.0 ==> t == 85.0
    ensures !KeyedRow(score, level) ==> t == Min(95.0, score + 5.0)
    ensures KeyedRow(score, level) ==> t > score
    ensures !KeyedRow(score, level) ==> t <= score + 5.0 && t <= 95.0
  {
    if level == "Low" && score < 60.0 then 65.0
    else if level == "Low" && score < 70.0 then 75.0
    else if level == "Medium" && score < 75.0 then 80.0
    else if level == "Medium" && score < 85.0 then 85.0
    else Min(95.0, score + 5.0)
  }

  /**
   * `_calculate_improvement_potential`: the target rounded to an integer, the
   * gain from the unrounded target rounded to one decimal, and the row's
   * timeline and focus.
   */
  function ImprovementPotential(score: real, level: string): (imp: Improvement)
    ensures imp.shortTermTarget == RoundHalfEven(NextTarget(score, level))
    ensures imp.potentialGain == Round1(NextTarget(score, level) - score)
  {
    var target := NextTarget(score, level);
    var gain := Round1(target - score);
    if level == "Low" && score < 60.0 then Improvement(RoundHalfEven(target), gain, "2-4 weeks", "Foundation building")
    else if level == "Low" && score < 70.0 then Improvement(RoundHalfEven(target), gain, "4-6 weeks", "Core concept mastery")
    else if level == "Medium" && score < 75.0 then Improvement(RoundHalfEven(target), gain, "3-5 weeks", "Advanced understanding")
    else if level == "Medium" && score < 85.0 then Improvement(RoundHalfEven(target), gain, "4-6 weeks", "Excellence achievement")
    else Improvement(RoundHalfEven(target), gain, "4-8 weeks", "Mastery and refinement")
  }

  /** In the keyed rows the gain is non-negative (a gain under 0.05 rounds to zero); elsewhere it is at most five points. */
  lemma ImprovementGainBounds(score: real, level: string)
    ensures KeyedRow(score, level) ==> ImprovementPotential(score, level).potentialGain >= 0.0
    ensures !KeyedRow(score, level) ==> ImprovementPotential(score, level).potentialGain <= 5.0
  {
    var t := NextTarget(score, level);
    if KeyedRow(score, level) {
      Round1Monotone(0.0, t - score);
      Round1OfInteger(0);
    } else {
      Round1Monotone(t - score, 5.0);
      Round1OfInteger(5);
    }
  }

  /**
   * Above 95 the target of the last row is 95, under the score: the target
   * goes down and the gain is not positive.
   */
  lemma TargetBelowScoreAbove95(score: real, level: string)
    requires score > 95.0
    ensures NextTarget(score, level) == 95.0 < score
    ensures ImprovementPotential(score, level).shortTermTarget == 95
    ensures ImprovementPotential(score, level).potentialGain <= 0.0
  {
    RoundHalfEvenOfInteger(95);
    Round1Monotone(95.0 - score, 0.0);
    Round1OfInteger(0);
  }

  /** A score of 97 at level 'High' gets target 95 and gain -2.0. */
  lemma NegativeGainAt97()
    ensures ImprovementPotential(97.0, "High").potentialGain == -2.0
  {
    Round1OfInteger(-2);
  }

  /**
   * The target is rounded while the gain is not computed from it: a score of
   * 80.3 at level 'High' is told to aim for 85 and that it can gain 5.0.
   */
  lemma RoundedTargetAndGainDisagree()
    ensures ImprovementPotential(80.3, "High").shortTermTarget == 85
    ensures ImprovementPotential(80.3, "High").potentialGain == 5.0
  {
    assert NextTarget(80.3, "High") == 85.3;
    assert RoundHalfEven(85.3) == 85 by {
      assert (85.3).Floor == 85;
    }
    Round1OfInteger(5);
  }
}
