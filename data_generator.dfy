/**
 * The deterministic parts of the synthetic training-data generator: how many
 * students fall in each archetype, how a patterned feature column is drawn
 * and shuffled, the closed-form final score, and its performance label. The
 * random draws are parameters.
 */
module DataGenerator {
  import opened Wrappers
  import opened Numeric

  // ---------------------------------------------------------------------------
  // Archetype sizes

  /**
   * How many high, average and low performers a dataset of `n` students has.
   * A negative `n` gives sizes that are negative or zero.
   */
  datatype Strata = Strata(high: int, average: int, low: int)
  {
    function Rows(): int { high + average + low }
  }

  /** `int(n * 0.25)`, `int(n * 0.50)`, `int(n * 0.25)`, truncating toward zero. */
  function StrataOf(n: int): (s: Strata)
    ensures s.low == s.high
    ensures 0 <= n ==> s.high == n / 4 && s.average == n / 2
    ensures n < 0 ==> s.high == -((-n) / 4) && s.average == -((-n) / 2)
  {
    var q := Trunc(n as real * 0.25);
    var h := Trunc(n as real * 0.50);
    assert 0 <= n ==> q == n / 4 && h == n / 2 by {
      if 0 <= n {
        assert (n / 4) as real <= n as real * 0.25 < (n / 4) as real + 1.0;
        assert (n / 2) as real <= n as real * 0.50 < (n / 2) as real + 1.0;
      }
    }
    assert n < 0 ==> q == -((-n) / 4) && h == -((-n) / 2) by {
      if n < 0 {
        var m := -n;
        assert (m / 4) as real <= m as real * 0.25 < (m / 4) as real + 1.0;
        assert (m / 2) as real <= m as real * 0.50 < (m / 2) as real + 1.0;
      }
    }
    Strata(q, h, q)
  }

  /**
   * The archetypes hold exactly `n` students only when 4 divides `n`, and
   * otherwise miss by one or two, toward zero.
   */
  lemma StrataRows(n: int)
    ensures StrataOf(n).Rows() == n <==> n % 4 == 0
    ensures 0 <= n ==> n - 2 <= StrataOf(n).Rows() <= n
    ensures n < 0 ==> n <= StrataOf(n).Rows() <= n + 2
  {
    if n < 0 {
      var m := -n;
      assert m % 4 == 0 <==> n % 4 == 0;
    }
  }

  /** Why the dataset frame is not built. */
  datatype FrameError =
    | NegativeDimensions(size: int)
    | ColumnLengthMismatch(patternedRows: nat, plainRows: nat)

  /**
   * The rows of the dataset: the patterned columns have as many values as the
   * archetypes hold, the demographic and support columns `n`; the frame is
   * built only when the two agree.
   */
  function FrameRows(strata: Strata, n: nat): (r: Result<nat, FrameError>)
    requires 0 <= strata.high && 0 <= strata.average && 0 <= strata.low
    ensures r.Success? <==> strata.Rows() == n
    ensures r.Success? ==> r.value == n
  {
    if strata.Rows() == n then Success(n)
    else Failure(ColumnLengthMismatch(strata.Rows(), n))
  }

  /**
   * The dataset up to `pd.DataFrame(data)`. numpy refuses a negative size at
   * the first draw that asks for one: the high and then the average block of
   * the first patterned column (the low block has the high block's size),
   * then the first plain column of `n` values. With no negative size the
   * frame is built when the column lengths agree.
   */
  function BuildFrame(n: int): (r: Result<nat, FrameError>)
    ensures r.Success? ==> r.value == n
    ensures r.Failure? && r.error.NegativeDimensions? <==> n < 0
    ensures r.Failure? && r.error.NegativeDimensions? ==> r.error.size < 0
  {
    var s := StrataOf(n);
    if s.high < 0 then Failure(NegativeDimensions(s.high))
    else if s.average < 0 then Failure(NegativeDimensions(s.average))
    else if n < 0 then Failure(NegativeDimensions(n))
    else FrameRows(s, n)
  }

  /**
   * As written, a dataset is built exactly when the requested size is not
   * negative and 4 divides it.
   */
  lemma FrameBuiltIffDivisibleByFour(n: int)
    ensures BuildFrame(n).Success? <==> 0 <= n && n % 4 == 0
  {
    StrataRows(n);
  }

  /** A negative multiple of four is refused at the first block, of size -1. */
  lemma NegativeCountRefused()
    ensures StrataOf(-4) == Strata(-1, -2, -1)
    ensures BuildFrame(-4) == Failure(NegativeDimensions(-1))
  {
  }

  /**
   * The sample-data route asks for 10 students by default: the archetypes hold
   * 2, 5 and 2, nine rows against ten, and the frame is not built.
   */
  lemma DefaultSampleSizeFails()
    ensures StrataOf(10) == Strata(2, 5, 2)
    ensures BuildFrame(10) == Failure(ColumnLengthMismatch(9, 10))
  {
  }

  /** The evident intent: a quarter high, a half average, the remainder low. */
  function CorrectedStrataOf(n: nat): (s: Strata)
    ensures s.Rows() == n
    ensures s.high == StrataOf(n).high && s.average == StrataOf(n).average
    ensures StrataOf(n).low <= s.low <= StrataOf(n).low + 2
  {
    var s := StrataOf(n);
    Strata(s.high, s.average, n - s.high - s.average)
  }

  /**
   * With the corrected sizes every size numpy accepts builds, and 4 | n
   * changes nothing.
   */
  lemma CorrectedFrameAlwaysBuilt(n: nat)
    ensures 0 <= CorrectedStrataOf(n).low
    ensures FrameRows(CorrectedStrataOf(n), n) == Success(n)
    ensures n % 4 == 0 ==> CorrectedStrataOf(n) == StrataOf(n)
  {
    StrataRows(n);
  }

  // ---------------------------------------------------------------------------
  // Patterned feature columns

  /** `numpy.clip` applied to every draw. */
  function ClipAll(draws: seq<real>, lo: real, hi: real): (r: seq<real>)
    ensures |r| == |draws|
    ensures forall i :: 0 <= i < |draws| ==> r[i] == Clip(draws[i], lo, hi)
  {
    if draws == [] then [] else [Clip(draws[0], lo, hi)] + ClipAll(draws[1..], lo, hi)
  }

  /** Every clipped value lies in the band, and a draw already inside it is kept. */
  lemma ClipAllInBand(draws: seq<real>, lo: real, hi: real)
    requires lo <= hi
    ensures forall i :: 0 <= i < |draws| ==> lo <= ClipAll(draws, lo, hi)[i] <= hi
    ensures forall i :: 0 <= i < |draws| && lo <= draws[i] <= hi ==> ClipAll(draws, lo, hi)[i] == draws[i]
  {
  }

  /** The band of each archetype around its centre: 30, 40 and 50 percent either side. */
  function HighBand(centre: real): (real, real) { (centre * 0.7, centre * 1.3) }

  function AverageBand(centre: real): (real, real) { (centre * 0.6, centre * 1.4) }

  function LowBand(centre: real): (real, real) { (centre * 0.5, centre * 1.5) }

  predicate InBand(x: real, band: (real, real)) { band.0 <= x <= band.1 }

  /** The three clipped archetype blocks, high first, before the shuffle. */
  function PatternBlocks(high: real, avg: real, low: real,
                         highDraws: seq<real>, avgDraws: seq<real>, lowDraws: seq<real>): (r: seq<real>)
    ensures |r| == |highDraws| + |avgDraws| + |lowDraws|
  {
    ClipAll(highDraws, HighBand(high).0, HighBand(high).1)
    + ClipAll(avgDraws, AverageBand(avg).0, AverageBand(avg).1)
    + ClipAll(lowDraws, LowBand(low).0, LowBand(low).1)
  }

  /**
   * For centres that are not negative, the first block lies in the high band,
   * the second in the average band and the last in the low band.
   */
  lemma PatternBlocksInBands(high: real, avg: real, low: real,
                             highDraws: seq<real>, avgDraws: seq<real>, lowDraws: seq<real>)
    requires 0.0 <= high && 0.0 <= avg && 0.0 <= low
    ensures var r := PatternBlocks(high, avg, low, highDraws, avgDraws, lowDraws);
      var h, a := |highDraws|, |avgDraws|;
      && (forall i :: 0 <= i < h ==> InBand(r[i], HighBand(high)))
      && (forall i :: h <= i < h + a ==> InBand(r[i], AverageBand(avg)))
      && (forall i :: h + a <= i < |r| ==> InBand(r[i], LowBand(low)))
  {
    var hs := ClipAll(highDraws, HighBand(high).0, HighBand(high).1);
    var ms := ClipAll(avgDraws, AverageBand(avg).0, AverageBand(avg).1);
    var ls := ClipAll(lowDraws, LowBand(low).0, LowBand(low).1);
    ClipAllInBand(highDraws, HighBand(high).0, HighBand(high).1);
    ClipAllInBand(avgDraws, AverageBand(avg).0, AverageBand(avg).1);
    ClipAllInBand(lowDraws, LowBand(low).0, LowBand(low).1);
    var r := hs + ms + ls;
    forall i | |hs| <= i < |hs| + |ms| ensures InBand(r[i], AverageBand(avg)) {
      assert r[i] == ms[i - |hs|];
    }
    forall i | |hs| + |ms| <= i < |r| ensures InBand(r[i], LowBand(low)) {
      assert r[i] == ls[i - |hs| - |ms|];
    }
  }

  /** `s` with the entries at `i` and `j` exchanged. */
  function Swap(s: seq<real>, i: nat, j: nat): (r: seq<real>)
    requires i < |s| && j < |s|
    ensures |r| == |s|
    ensures multiset(r) == multiset(s)
  {
    s[i := s[j]][j := s[i]]
  }

  /**
   * The Fisher-Yates shuffle of `numpy.random.shuffle`: for each position `i`
   * from `k - 1` down to 1, exchange it with the drawn position `swaps[i]`,
   * one of `0..i`.
   */
  function ShuffleDown(s: seq<real>, swaps: seq<nat>, k: nat): (r: seq<real>)
    requires k <= |s| == |swaps|
    requires forall i :: 0 <= i < |swaps| ==> swaps[i] <= i
    ensures |r| == |s|
    ensures multiset(r) == multiset(s)
    decreases k
  {
    if k <= 1 then s else ShuffleDown(Swap(s, k - 1, swaps[k - 1]), swaps, k - 1)
  }

  function Shuffled(s: seq<real>, swaps: seq<nat>): (r: seq<real>)
    requires |s| == |swaps|
    requires forall i :: 0 <= i < |swaps| ==> swaps[i] <= i
    ensures |r| == |s|
  {
    ShuffleDown(s, swaps, |s|)
  }

  /** The shuffle only moves values around: the result is a permutation of its input. */
  lemma ShuffledPermutes(s: seq<real>, swaps: seq<nat>)
    requires |s| == |swaps|
    requires forall i :: 0 <= i < |swaps| ==> swaps[i] <= i
    ensures multiset(Shuffled(s, swaps)) == multiset(s)
  {
  }

  /** Drawing no exchange partner other than the position itself leaves the order alone. */
  lemma {:induction false} IdentitySwapsKeepOrder(s: seq<real>, swaps: seq<nat>, k: nat)
    requires k <= |s| == |swaps|
    requires forall i :: 0 <= i < |swaps| ==> swaps[i] == i
    ensures ShuffleDown(s, swaps, k) == s
    decreases k
  {
    if k > 1 {
      assert Swap(s, k - 1, swaps[k - 1]) == s;
      IdentitySwapsKeepOrder(s, swaps, k - 1);
    }
  }

  /** `numpy.random.shuffle(a)`, in place, with the drawn positions as a parameter. */
  method Shuffle(a: array<real>, swaps: seq<nat>)
    requires |swaps| == a.Length
    requires forall i :: 0 <= i < |swaps| ==> swaps[i] <= i
    modifies a
    ensures a[..] == Shuffled(old(a[..]), swaps)
  {
    var i := a.Length;
    while i > 1
      invariant 0 <= i <= a.Length
      invariant a.Length <= 1 ==> i == a.Length
      invariant ShuffleDown(a[..], swaps, i) == Shuffled(old(a[..]), swaps)
      decreases i
    {
      var j := swaps[i - 1];
      assert Swap(a[..], i - 1, j) == a[..][i - 1 := a[j]][j := a[i - 1]];
      a[i - 1], a[j] := a[j], a[i - 1];
      i := i - 1;
    }
  }

  /**
   * `_generate_with_pattern`: the three clipped blocks concatenated into a new
   * array and shuffled in place. The draws of `numpy.random.normal` and of the
   * shuffle are parameters.
   */
  method GenerateWithPattern(high: real, avg: real, low: real,
                             highDraws: seq<real>, avgDraws: seq<real>, lowDraws: seq<real>,
                             swaps: seq<nat>)
    returns (combined: array<real>)
    requires |swaps| == |highDraws| + |avgDraws| + |lowDraws|
    requires forall i :: 0 <= i < |swaps| ==> swaps[i] <= i
    ensures fresh(combined)
    ensures combined[..] == Shuffled(PatternBlocks(high, avg, low, highDraws, avgDraws, lowDraws), swaps)
  {
    var blocks := PatternBlocks(high, avg, low, highDraws, avgDraws, lowDraws);
    combined := new real[|blocks|](i requires 0 <= i < |blocks| => blocks[i]);
    assert combined[..] == blocks;
    Shuffle(combined, swaps);
  }

  /**
   * A patterned column has one value per drawn student, it is a permutation
   * of the clipped blocks, and for centres that are not negative every value
   * lies in one of the three bands.
   */
  lemma PatternColumn(high: real, avg: real, low: real,
                      highDraws: seq<real>, avgDraws: seq<real>, lowDraws: seq<real>,
                      swaps: seq<nat>)
    requires |swaps| == |highDraws| + |avgDraws| + |lowDraws|
    requires forall i :: 0 <= i < |swaps| ==> swaps[i] <= i
    requires 0.0 <= high && 0.0 <= avg && 0.0 <= low
    ensures var blocks := PatternBlocks(high, avg, low, highDraws, avgDraws, lowDraws);
      var column := Shuffled(blocks, swaps);
      && |column| == |highDraws| + |avgDraws| + |lowDraws|
      && multiset(column) == multiset(blocks)
      && (forall x :: x in column ==>
            InBand(x, HighBand(high)) || InBand(x, AverageBand(avg)) || InBand(x, LowBand(low)))
  {
    var blocks := PatternBlocks(high, avg, low, highDraws, avgDraws, lowDraws);
    ShuffledPermutes(blocks, swaps);
    PatternBlocksInBands(high, avg, low, highDraws, avgDraws, lowDraws);
    forall x | x in Shuffled(blocks, swaps)
      ensures InBand(x, HighBand(high)) || InBand(x, AverageBand(avg)) || InBand(x, LowBand(low))
    {
      assert x in multiset(blocks);
      var i :| 0 <= i < |blocks| && blocks[i] == x;
    }
  }

  // ---------------------------------------------------------------------------
  // Final score

  /** The fourteen generated features the score depends on. */
  datatype Student = Student(
    studyHoursDaily: real, attendanceRate: real, homeworkCompletion: real,
    classParticipation: real, assignmentQuality: real,
    workingMemory: real, criticalThinking: real, academicAptitude: real,
    timeManagement: real, studyConsistency: real, motivationLevel: real,
    sleepHours: real, stressManagement: real, focusConcentration: real)

  function AcademicImpact(s: Student): real
  {
    ((s.studyHoursDaily - 4.5) * 4.0
     + (s.attendanceRate - 80.0) * 0.6
     + (s.homeworkCompletion - 75.0) * 0.5
     + (s.classParticipation - 6.0) * 3.5
     + (s.assignmentQuality - 6.0) * 3.0) * 0.50
  }

  function CognitiveImpact(s: Student): real
  {
    ((s.workingMemory - 6.5) * 2.5
     + (s.criticalThinking - 6.0) * 2.8
     + (s.academicAptitude - 70.0) * 0.4) * 0.25
  }

  function LearningImpact(s: Student): real
  {
    ((s.timeManagement - 6.0) * 2.0
     + (s.studyConsistency - 6.0) * 1.8
     + (s.motivationLevel - 6.0) * 1.5) * 0.15
  }

  function PersonalImpact(s: Student): real
  {
    ((s.sleepHours - 6.5) * 1.2
     + (s.stressManagement - 6.0) * 1.0
     + (s.focusConcentration - 6.0) * 1.5) * 0.10
  }

  function TotalImpact(s: Student): real
  {
    AcademicImpact(s) + CognitiveImpact(s) + LearningImpact(s) + PersonalImpact(s)
  }

  /** The score before noise: 70 plus four fifths of the weighted impact. */
  function BaseScore(s: Student): real
  {
    70.0 + TotalImpact(s) * 0.8
  }

  /** `_calculate_strong_scores` for one student and its noise draw. */
  function StrongScore(s: Student, noise: real): (score: real)
    ensures 40.0 <= score <= 98.0
  {
    var clipped := Clip(BaseScore(s) + noise, 40.0, 98.0);
    Round1Monotone(40.0, clipped);
    Round1Monotone(clipped, 98.0);
    Round1OfInteger(40);
    Round1OfInteger(98);
    Round1(clipped)
  }

  /**
   * The score before noise as one sum of per-feature terms: each study hour
   * over 4.5 is worth 1.6 points, each attendance point over 80 is worth 0.24,
   * and so on down to 0.08 per stress-management point.
   */
  lemma BaseScoreFlat(s: Student)
    ensures BaseScore(s) == 70.0
      + 1.6 * (s.studyHoursDaily - 4.5) + 0.24 * (s.attendanceRate - 80.0)
      + 0.2 * (s.homeworkCompletion - 75.0) + 1.4 * (s.classParticipation - 6.0)
      + 1.2 * (s.assignmentQuality - 6.0) + 0.5 * (s.workingMemory - 6.5)
      + 0.56 * (s.criticalThinking - 6.0) + 0.08 * (s.academicAptitude - 70.0)
      + 0.24 * (s.timeManagement - 6.0) + 0.216 * (s.studyConsistency - 6.0)
      + 0.18 * (s.motivationLevel - 6.0) + 0.096 * (s.sleepHours - 6.5)
      + 0.08 * (s.stressManagement - 6.0) + 0.12 * (s.focusConcentration - 6.0)
  {
  }

  /** Every feature of `a` is at least that of `b`. */
  predicate AtLeastAsStrong(a: Student, b: Student)
  {
    a.studyHoursDaily >= b.studyHoursDaily && a.attendanceRate >= b.attendanceRate
    && a.homeworkCompletion >= b.homeworkCompletion && a.classParticipation >= b.classParticipation
    && a.assignmentQuality >= b.assignmentQuality && a.workingMemory >= b.workingMemory
    && a.criticalThinking >= b.criticalThinking && a.academicAptitude >= b.academicAptitude
    && a.timeManagement >= b.timeManagement && a.studyConsistency >= b.studyConsistency
    && a.motivationLevel >= b.motivationLevel && a.sleepHours >= b.sleepHours
    && a.stressManagement >= b.stressManagement && a.focusConcentration >= b.focusConcentration
  }

  /**
   * With the noise fixed, raising any of the fourteen features never lowers
   * the score: every coefficient and every category weight is positive.
   */
  lemma StrongScoreMonotone(a: Student, b: Student, noise: real)
    requires AtLeastAsStrong(a, b)
    ensures StrongScore(a, noise) >= StrongScore(b, noise)
  {
    BaseScoreFlat(a);
    BaseScoreFlat(b);
    assert BaseScore(a) >= BaseScore(b);
    ClipMonotone(BaseScore(b) + noise, BaseScore(a) + noise, 40.0, 98.0);
    Round1Monotone(Clip(BaseScore(b) + noise, 40.0, 98.0), Clip(BaseScore(a) + noise, 40.0, 98.0));
  }

  /** Every feature at its reference midpoint. */
  const Neutral := Student(4.5, 80.0, 75.0, 6.0, 6.0, 6.5, 6.0, 70.0, 6.0, 6.0, 6.0, 6.5, 6.0, 6.0)

  /** At the midpoints the impact is zero and, without noise, the score is exactly 70.0. */
  lemma NeutralScore()
    ensures TotalImpact(Neutral) == 0.0
    ensures StrongScore(Neutral, 0.0) == 70.0
  {
    Round1OfInteger(70);
  }

  /** Inside the clip range the noise passes straight through, up to rounding. */
  lemma NoiseShiftsScore(s: Student, noise: real)
    requires 40.0 <= BaseScore(s) + noise <= 98.0
    ensures BaseScore(s) + noise - 0.05 <= StrongScore(s, noise) <= BaseScore(s) + noise + 0.05
  {
  }

  // ---------------------------------------------------------------------------
  // Performance label

  datatype Level = Low | Medium | High | Excellent
  {
    function Rank(): nat
    {
      match this
      case Low => 0
      case Medium => 1
      case High => 2
      case Excellent => 3
    }
  }

  /**
   * `pandas.cut` with edges 0, 65, 75, 85, 100, closed on the right and, by
   * `include_lowest`, at 0 as well; a score outside [0, 100] gets no label.
   */
  function Categorize(score: real): (l: Option<Level>)
    ensures l.Some? <==> 0.0 <= score <= 100.0
    ensures l == Some(Low) <==> 0.0 <= score <= 65.0
    ensures l == Some(Medium) <==> 65.0 < score <= 75.0
    ensures l == Some(High) <==> 75.0 < score <= 85.0
    ensures l == Some(Excellent) <==> 85.0 < score <= 100.0
  {
    if score < 0.0 || score > 100.0 then None
    else if score <= 65.0 then Some(Low)
    else if score <= 75.0 then Some(Medium)
    else if score <= 85.0 then Some(High)
    else Some(Excellent)
  }

  /** The edges belong to the band below them. */
  lemma EdgesBelongBelow()
    ensures Categorize(65.0) == Some(Low)
    ensures Categorize(75.0) == Some(Medium)
    ensures Categorize(85.0) == Some(High)
    ensures Categorize(0.0) == Some(Low)
  {
  }

  /** Within [0, 100], a higher score never gets a lower label. */
  lemma CategorizeMonotone(x: real, y: real)
    requires 0.0 <= x <= y <= 100.0
    ensures Categorize(x).value.Rank() <= Categorize(y).value.Rank()
  {
  }

  /** Every generated score, being clipped into [40, 98], gets a label. */
  lemma EveryScoreLabelled(s: Student, noise: real)
    ensures Categorize(StrongScore(s, noise)).Some?
  {
  }
}
