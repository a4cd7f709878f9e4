/**
 * `_analyze_feature_impact`: the predictor ignores the trained models here and
 * reports a fixed table of factor weights, normalised to percentages, rounded
 * to one decimal, sorted from the largest share down and cut to the first ten.
 */
module FeatureImpact {
  import opened Numeric
  import opened StableSort

  /** One entry of the table: a factor's display name and its weight or share. */
  datatype Impact = Impact(factor: string, share: real)

  function Factor(i: Impact): string { i.factor }

  /** The sort key of `reverse=True` on the share. */
  function Descending(i: Impact): real { -i.share }

  /** The fixed weights, in the order the dictionary lists them, group by group. */
  const CognitiveFactors: seq<Impact> := [
    Impact("Cognitive Ability", 15.2),
    Impact("Working Memory", 9.8),
    Impact("Critical Thinking", 8.5),
    Impact("Processing Speed", 6.5)
  ]

  const LearningBehaviours: seq<Impact> := [
    Impact("Study Hours", 11.2),
    Impact("Time Management", 9.4),
    Impact("Study Consistency", 7.8),
    Impact("Metacognition", 6.6)
  ]

  const MotivationAndMindset: seq<Impact> := [
    Impact("Motivation", 8.7),
    Impact("Academic Confidence", 6.3)
  ]

  const EnvironmentalFactors: seq<Impact> := [
    Impact("Attendance", 4.2),
    Impact("Homework Completion", 3.8),
    Impact("Sleep Quality", 2.0)
  ]

  const AdditionalFactors: seq<Impact> := [
    Impact("Focus", 7.1),
    Impact("Learning Adaptability", 5.2)
  ]

  const BalancedImpacts: seq<Impact> :=
    CognitiveFactors + LearningBehaviours + MotivationAndMindset + EnvironmentalFactors + AdditionalFactors

  /** How many entries the report keeps. */
  const ReportSize := 10

  /** `sum(balanced_impacts.values())`. */
  function Total(table: seq<Impact>): real
  {
    if table == [] then 0.0 else table[0].share + Total(table[1..])
  }

  /** Each weight as a percentage of the total, before rounding. */
  function Percentages(table: seq<Impact>, total: real): (r: seq<real>)
    requires total != 0.0
    ensures |r| == |table|
    ensures forall i :: 0 <= i < |table| ==> r[i] == table[i].share / total * 100.0
  {
    if table == [] then [] else [table[0].share / total * 100.0] + Percentages(table[1..], total)
  }

  /** The normalised table: every factor kept in place, its share rounded to one decimal. */
  function Normalise(table: seq<Impact>, total: real): (r: seq<Impact>)
    requires total != 0.0
    ensures |r| == |table|
    ensures forall i :: 0 <= i < |table| ==>
      r[i].factor == table[i].factor && r[i].share == Round1(Percentages(table, total)[i])
  {
    if table == [] then []
    else [Impact(table[0].factor, Round1(table[0].share / total * 100.0))] + Normalise(table[1..], total)
  }

  /** `sorted(..., key=share, reverse=True)[:n]`. */
  function TopShares(table: seq<Impact>, n: nat): (r: seq<Impact>)
    ensures |r| == if n <= |table| then n else |table|
  {
    var sorted := SortBy(table, Descending);
    if n <= |sorted| then sorted[..n] else sorted
  }

  /** The report the predictor returns with every prediction. */
  function AnalyzeFeatureImpact(): seq<Impact>
  {
    TotalOfBalancedImpacts();
    TopShares(Normalise(BalancedImpacts, Total(BalancedImpacts)), ReportSize)
  }

  lemma {:induction false} TotalOfConcatenation(a: seq<Impact>, b: seq<Impact>)
    ensures Total(a + b) == Total(a) + Total(b)
  {
    if a != [] {
      assert (a + b)[1..] == a[1..] + b;
      TotalOfConcatenation(a[1..], b);
    } else {
      assert a + b == b;
    }
  }

  /** The weights add up to 112.3: the groups give 40.0, 35.0, 15.0, 10.0 and 12.3. */
  lemma TotalOfBalancedImpacts()
    ensures Total(BalancedImpacts) == 112.3
  {
    assert Total(CognitiveFactors) == 40.0;
    assert Total(LearningBehaviours) == 35.0;
    assert Total(MotivationAndMindset) == 15.0;
    assert Total(EnvironmentalFactors) == 10.0;
    assert Total(AdditionalFactors) == 12.3;
    TotalOfConcatenation(CognitiveFactors, LearningBehaviours);
    TotalOfConcatenation(CognitiveFactors + LearningBehaviours, MotivationAndMindset);
    TotalOfConcatenation(CognitiveFactors + LearningBehaviours + MotivationAndMindset, EnvironmentalFactors);
    TotalOfConcatenation(CognitiveFactors + LearningBehaviours + MotivationAndMindset + EnvironmentalFactors, AdditionalFactors);
  }

  /** The percentages before rounding add up to exactly 100. */
  lemma {:induction false} PercentagesSum(table: seq<Impact>, total: real)
    requires total != 0.0
    ensures Sum(Percentages(table, total)) == Total(table) / total * 100.0
  {
    if table != [] {
      PercentagesSum(table[1..], total);
      assert Percentages(table, total)[1..] == Percentages(table[1..], total);
    }
  }

  lemma PercentagesSumTo100(table: seq<Impact>)
    requires Total(table) != 0.0
    ensures Sum(Percentages(table, Total(table))) == 100.0
  {
    PercentagesSum(table, Total(table));
    assert Total(table) / Total(table) == 1.0;
  }

  /**
   * Rounding moves each share by at most 0.05, so the rounded shares add up
   * to 100 only within 0.05 per factor.
   */
  lemma {:induction false} RoundedSharesNear(table: seq<Impact>, total: real)
    requires total != 0.0
    ensures Sum(Percentages(table, total)) - 0.05 * |table| as real
         <= Total(Normalise(table, total))
         <= Sum(Percentages(table, total)) + 0.05 * |table| as real
  {
    if table != [] {
      RoundedSharesNear(table[1..], total);
      assert Normalise(table, total)[1..] == Normalise(table[1..], total);
      assert Percentages(table, total)[1..] == Percentages(table[1..], total);
    }
  }

  /** The report lists shares from the largest down. */
  lemma TopSharesDescending(table: seq<Impact>, n: nat)
    ensures forall i, j :: 0 <= i < j < |TopShares(table, n)| ==>
      TopShares(table, n)[i].share >= TopShares(table, n)[j].share
  {
    var sorted := SortBy(table, Descending);
    SortBySorted(table, Descending);
    forall i, j | 0 <= i < j < |TopShares(table, n)|
      ensures TopShares(table, n)[i].share >= TopShares(table, n)[j].share
    {
      assert TopShares(table, n)[i] == sorted[i] && TopShares(table, n)[j] == sorted[j];
      assert Descending(sorted[i]) <= Descending(sorted[j]);
    }
  }

  /**
   * The report is drawn from the table it sorts, and every entry it leaves
   * out has a share no larger than any entry it keeps.
   */
  /** A prefix and the rest of a list hold its entries between them. */
  lemma PrefixSplit(s: seq<Impact>, k: nat)
    requires k <= |s|
    ensures multiset(s[..k]) + multiset(s[k..]) == multiset(s)
  {
    assert s == s[..k] + s[k..];
  }

  /** In a list sorted by descending share, nothing after position `k` has a larger share than anything before it. */
  lemma TailBelowPrefix(sorted: seq<Impact>, k: nat, x: Impact, y: Impact)
    requires k <= |sorted| && SortedBy(sorted, Descending)
    requires x in sorted[k..] && y in sorted[..k]
    ensures x.share <= y.share
  {
    var j :| k <= j < |sorted| && sorted[j] == x;
    var i :| 0 <= i < k && sorted[i] == y;
    assert Descending(sorted[i]) <= Descending(sorted[j]);
  }

  lemma TopSharesAreLargest(table: seq<Impact>, n: nat)
    ensures multiset(TopShares(table, n)) <= multiset(table)
    ensures forall x: Impact, y: Impact ::
      (x in multiset(table) - multiset(TopShares(table, n)) && y in TopShares(table, n))
      ==> x.share <= y.share
  {
    var sorted := SortBy(table, Descending);
    SortBySorted(table, Descending);
    var k := if n <= |sorted| then n else |sorted|;
    var top := TopShares(table, n);
    assert top == sorted[..k];
    PrefixSplit(sorted, k);
    forall x: Impact, y: Impact | x in multiset(table) - multiset(top) && y in top
      ensures x.share <= y.share
    {
      assert x in multiset(sorted[k..]);
      TailBelowPrefix(sorted, k, x, y);
    }
  }

  /** Normalising renames nothing, so distinct factors stay distinct. */
  lemma NormaliseKeepsFactorsDistinct(table: seq<Impact>, total: real)
    requires total != 0.0
    requires DistinctBy(table, Factor)
    ensures DistinctBy(Normalise(table, total), Factor)
  {
    var normal := Normalise(table, total);
    forall i, j | 0 <= i < j < |normal| ensures Factor(normal[i]) != Factor(normal[j]) {
      assert Factor(table[i]) != Factor(table[j]);
    }
  }

  /** A factor named once in the table is named at most once in the report. */
  lemma TopSharesDistinctFactors(table: seq<Impact>, n: nat)
    requires DistinctBy(table, Factor)
    ensures DistinctBy(TopShares(table, n), Factor)
  {
    var sorted := SortBy(table, Descending);
    SortByKeepsDistinct(table, Descending, Factor);
    var top := TopShares(table, n);
    forall i, j | 0 <= i < j < |top| ensures Factor(top[i]) != Factor(top[j]) {
      assert top[i] == sorted[i] && top[j] == sorted[j];
    }
  }

  lemma BalancedFactorsDistinct()
    ensures DistinctBy(BalancedImpacts, Factor)
  {
  }

  /**
   * The report over any table whose factors are distinct: its first `n`
   * normalised entries by falling share, with distinct factors, each drawn
   * from the normalised table, and no entry left out has a larger share than
   * one kept.
   */
  lemma TopNormalisedShares(table: seq<Impact>, total: real, n: nat)
    requires total != 0.0
    requires DistinctBy(table, Factor)
    ensures var top := TopShares(Normalise(table, total), n);
      && DistinctBy(top, Factor)
      && (forall i, j :: 0 <= i < j < |top| ==> top[i].share >= top[j].share)
      && multiset(top) <= multiset(Normalise(table, total))
      && (forall x: Impact, y: Impact ::
            (x in multiset(Normalise(table, total)) - multiset(top) && y in top) ==> x.share <= y.share)
  {
    var normal := Normalise(table, total);
    NormaliseKeepsFactorsDistinct(table, total);
    TopSharesDistinctFactors(normal, n);
    TopSharesDescending(normal, n);
    TopSharesAreLargest(normal, n);
  }

  lemma {:induction false} NormaliseConcatenation(a: seq<Impact>, b: seq<Impact>, total: real)
    requires total != 0.0
    ensures Normalise(a + b, total) == Normalise(a, total) + Normalise(b, total)
  {
    if a != [] {
      assert (a + b)[1..] == a[1..] + b;
      NormaliseConcatenation(a[1..], b, total);
    } else {
      assert a + b == b;
    }
  }

  /** The shares of each group after normalising and rounding. */
  const NormalisedCognitiveFactors: seq<Impact> := [
    Impact("Cognitive Ability", 13.5), Impact("Working Memory", 8.7),
    Impact("Critical Thinking", 7.6), Impact("Processing Speed", 5.8)]

  const NormalisedLearningBehaviours: seq<Impact> := [
    Impact("Study Hours", 10.0), Impact("Time Management", 8.4),
    Impact("Study Consistency", 6.9), Impact("Metacognition", 5.9)]

  const NormalisedMotivationAndMindset: seq<Impact> := [
    Impact("Motivation", 7.7), Impact("Academic Confidence", 5.6)]

  const NormalisedEnvironmentalFactors: seq<Impact> := [
    Impact("Attendance", 3.7), Impact("Homework Completion", 3.4), Impact("Sleep Quality", 1.8)]

  const NormalisedAdditionalFactors: seq<Impact> := [
    Impact("Focus", 6.3), Impact("Learning Adaptability", 4.6)]

  const NormalisedBalancedImpacts: seq<Impact> :=
    NormalisedCognitiveFactors + NormalisedLearningBehaviours + NormalisedMotivationAndMindset
    + NormalisedEnvironmentalFactors + NormalisedAdditionalFactors

  lemma NormaliseCognitiveFactors()
    ensures Normalise(CognitiveFactors, 112.3) == NormalisedCognitiveFactors
  {
    assert Round1(15.2 / 112.3 * 100.0) == 13.5 by { assert (15.2 / 112.3 * 100.0 * 10.0).Floor == 135; }
    assert Round1(9.8 / 112.3 * 100.0) == 8.7 by { assert (9.8 / 112.3 * 100.0 * 10.0).Floor == 87; }
    assert Round1(8.5 / 112.3 * 100.0) == 7.6 by { assert (8.5 / 112.3 * 100.0 * 10.0).Floor == 75; }
    assert Round1(6.5 / 112.3 * 100.0) == 5.8 by { assert (6.5 / 112.3 * 100.0 * 10.0).Floor == 57; }
  }

  lemma NormaliseLearningBehaviours()
    ensures Normalise(LearningBehaviours, 112.3) == NormalisedLearningBehaviours
  {
    assert Round1(11.2 / 112.3 * 100.0) == 10.0 by { assert (11.2 / 112.3 * 100.0 * 10.0).Floor == 99; }
    assert Round1(9.4 / 112.3 * 100.0) == 8.4 by { assert (9.4 / 112.3 * 100.0 * 10.0).Floor == 83; }
    assert Round1(7.8 / 112.3 * 100.0) == 6.9 by { assert (7.8 / 112.3 * 100.0 * 10.0).Floor == 69; }
    assert Round1(6.6 / 112.3 * 100.0) == 5.9 by { assert (6.6 / 112.3 * 100.0 * 10.0).Floor == 58; }
  }

  lemma NormaliseMotivationAndMindset()
    ensures Normalise(MotivationAndMindset, 112.3) == NormalisedMotivationAndMindset
  {
    assert Round1(8.7 / 112.3 * 100.0) == 7.7 by { assert (8.7 / 112.3 * 100.0 * 10.0).Floor == 77; }
    assert Round1(6.3 / 112.3 * 100.0) == 5.6 by { assert (6.3 / 112.3 * 100.0 * 10.0).Floor == 56; }
  }

  lemma NormaliseEnvironmentalFactors()
    ensures Normalise(EnvironmentalFactors, 112.3) == NormalisedEnvironmentalFactors
  {
    assert Round1(4.2 / 112.3 * 100.0) == 3.7 by { assert (4.2 / 112.3 * 100.0 * 10.0).Floor == 37; }
    assert Round1(3.8 / 112.3 * 100.0) == 3.4 by { assert (3.8 / 112.3 * 100.0 * 10.0).Floor == 33; }
    assert Round1(2.0 / 112.3 * 100.0) == 1.8 by { assert (2.0 / 112.3 * 100.0 * 10.0).Floor == 17; }
  }

  lemma NormaliseAdditionalFactors()
    ensures Normalise(AdditionalFactors, 112.3) == NormalisedAdditionalFactors
  {
    assert Round1(7.1 / 112.3 * 100.0) == 6.3 by { assert (7.1 / 112.3 * 100.0 * 10.0).Floor == 63; }
    assert Round1(5.2 / 112.3 * 100.0) == 4.6 by { assert (5.2 / 112.3 * 100.0 * 10.0).Floor == 46; }
  }

  lemma NormaliseBalancedImpacts()
    ensures Normalise(BalancedImpacts, 112.3) == NormalisedBalancedImpacts
  {
    var c, l, m, e, a := CognitiveFactors, LearningBehaviours, MotivationAndMindset, EnvironmentalFactors, AdditionalFactors;
    NormaliseConcatenation(c, l, 112.3);
    NormaliseConcatenation(c + l, m, 112.3);
    NormaliseConcatenation(c + l + m, e, 112.3);
    NormaliseConcatenation(c + l + m + e, a, 112.3);
    NormaliseCognitiveFactors();
    NormaliseLearningBehaviours();
    NormaliseMotivationAndMindset();
    NormaliseEnvironmentalFactors();
    NormaliseAdditionalFactors();
  }

  /** The five largest normalised shares, from the largest down. */
  const LeadingShares: seq<Impact> := [
    Impact("Cognitive Ability", 13.5), Impact("Study Hours", 10.0),
    Impact("Working Memory", 8.7), Impact("Time Management", 8.4),
    Impact("Motivation", 7.7)]

  /** The next five. */
  const MiddleShares: seq<Impact> := [
    Impact("Critical Thinking", 7.6), Impact("Study Consistency", 6.9),
    Impact("Focus", 6.3), Impact("Metacognition", 5.9),
    Impact("Processing Speed", 5.8)]

  /** The five the report leaves out. */
  const TrailingShares: seq<Impact> := [
    Impact("Academic Confidence", 5.6), Impact("Learning Adaptability", 4.6),
    Impact("Attendance", 3.7), Impact("Homework Completion", 3.4), Impact("Sleep Quality", 1.8)]

  /** The ten entries of the report. */
  const BalancedReportEntries: seq<Impact> := LeadingShares + MiddleShares

  /** The normalised table from the largest share down. */
  const RankedBalancedImpacts: seq<Impact> := BalancedReportEntries + TrailingShares

  lemma NormalisedSharesDistinct()
    ensures DistinctBy(NormalisedBalancedImpacts, Descending)
  {
  }

  lemma RankedIsStrictlyDescending()
    ensures StrictlySortedBy(RankedBalancedImpacts, Descending)
  {
    NeighboursStrictlySorted(RankedBalancedImpacts, Descending);
  }

  lemma RankedHasTheNormalisedEntries()
    ensures forall x :: x in NormalisedBalancedImpacts <==> x in RankedBalancedImpacts
  {
  }

  /** No two normalised shares are equal, so the order of the sort is forced. */
  lemma SortBalancedImpacts()
    ensures SortBy(NormalisedBalancedImpacts, Descending) == RankedBalancedImpacts
  {
    var sorted := SortBy(NormalisedBalancedImpacts, Descending);
    NormalisedSharesDistinct();
    SortByStrictlySorted(NormalisedBalancedImpacts, Descending);
    RankedIsStrictlyDescending();
    RankedHasTheNormalisedEntries();
    forall x ensures x in sorted <==> x in RankedBalancedImpacts {
      assert x in sorted <==> x in multiset(sorted);
    }
    StrictlySortedUnique(sorted, RankedBalancedImpacts, Descending);
  }

  /** The ten entries of the report add up to 80.8. */
  lemma TotalOfReport()
    ensures Total(BalancedReportEntries) == 80.8
  {
    TotalOfConcatenation(LeadingShares, MiddleShares);
    assert Total(LeadingShares) == 48.3;
    assert Total(MiddleShares) == 32.5;
  }

  /** All fifteen rounded shares add up to 99.9. */
  lemma TotalOfNormalised()
    ensures Total(NormalisedBalancedImpacts) == 99.9
  {
    var c, l, m, e := NormalisedCognitiveFactors, NormalisedLearningBehaviours, NormalisedMotivationAndMindset, NormalisedEnvironmentalFactors;
    TotalOfConcatenation(c, l);
    TotalOfConcatenation(c + l, m);
    TotalOfConcatenation(c + l + m, e);
    TotalOfConcatenation(c + l + m + e, NormalisedAdditionalFactors);
    assert Total(c) == 35.6 && Total(l) == 31.2 && Total(m) == 13.3 && Total(e) == 8.9;
    assert Total(NormalisedAdditionalFactors) == 10.9;
  }

  lemma ReportIsRankedPrefix()
    ensures AnalyzeFeatureImpact() == BalancedReportEntries
  {
    TotalOfBalancedImpacts();
    NormaliseBalancedImpacts();
    SortBalancedImpacts();
    calc {
      AnalyzeFeatureImpact();
      TopShares(NormalisedBalancedImpacts, ReportSize);
      RankedBalancedImpacts[..10];
      { assert |BalancedReportEntries| == 10; }
      BalancedReportEntries;
    }
  }

  /**
   * The report the predictor returns: the ten largest shares, from 13.5 for
   * 'Cognitive Ability' down to 5.8 for 'Processing Speed'. They add up to
   * 80.8, and all fifteen rounded shares to 99.9 rather than 100.
   */
  lemma BalancedReport()
    ensures AnalyzeFeatureImpact() == LeadingShares + MiddleShares
    ensures Total(AnalyzeFeatureImpact()) == 80.8
    ensures Total(Normalise(BalancedImpacts, 112.3)) == 99.9
  {
    ReportIsRankedPrefix();
    TotalOfReport();
    NormaliseBalancedImpacts();
    TotalOfNormalised();
  }
}
