/**
 * `_generate_insights`: strengths and weaknesses from seven cognitive and
 * behavioural readings, opportunities from three combined rules, a fallback
 * for each list left empty, and the score's analysis and comparison with the
 * benchmark of its level.
 */
module Insights {
  import opened Wrappers
  import opened Values
  import opened Numeric
  import opened Assessment

  /** The seven readings the insight rules look at, in the order they are checked. */
  datatype Trait = CognitiveAbility | WorkingMemory | ProcessingSpeed | Motivation | TimeManagement | Focus | SleepQuality

  const AllTraits: seq<Trait> :=
    [CognitiveAbility, WorkingMemory, ProcessingSpeed, Motivation, TimeManagement, Focus, SleepQuality]

  /** The request field each trait is read from. */
  function Key(t: Trait): string
  {
    match t
    case CognitiveAbility => "cognitiveAbility"
    case WorkingMemory => "workingMemory"
    case ProcessingSpeed => "processingSpeed"
    case Motivation => "motivationLevel"
    case TimeManagement => "timeManagement"
    case Focus => "focusConcentration"
    case SleepQuality => "sleepQuality"
  }

  /** The value a trait takes when its field is absent. */
  function Default(t: Trait): real
  {
    match t
    case CognitiveAbility => 100.0
    case WorkingMemory => 6.0
    case ProcessingSpeed => 6.0
    case Motivation => 7.0
    case TimeManagement => 6.0
    case Focus => 7.0
    case SleepQuality => 7.0
  }

  /** The seven readings of one request. */
  datatype Profile = Profile(
    cognitiveAbility: real, workingMemory: real, processingSpeed: real,
    motivation: real, timeManagement: real, focus: real, sleepQuality: real)
  {
    function Reading(t: Trait): real
    {
      match t
      case CognitiveAbility => cognitiveAbility
      case WorkingMemory => workingMemory
      case ProcessingSpeed => processingSpeed
      case Motivation => motivation
      case TimeManagement => timeManagement
      case Focus => focus
      case SleepQuality => sleepQuality
    }
  }

  /**
   * Reads the seven fields with their defaults. A field holding `null` or a
   * string makes the first comparison on it raise, which is `None` here.
   */
  function ReadProfile(req: Request): (p: Option<Profile>)
    ensures p.Some? <==> forall t: Trait :: Comparable(req, Key(t))
    ensures p.Some? ==> forall t: Trait :: Some(p.value.Reading(t)) == ReadNumber(req, Key(t), Default(t))
  {
    var cog := ReadNumber(req, "cognitiveAbility", 100.0);
    var wm := ReadNumber(req, "workingMemory", 6.0);
    var ps := ReadNumber(req, "processingSpeed", 6.0);
    var mot := ReadNumber(req, "motivationLevel", 7.0);
    var tm := ReadNumber(req, "timeManagement", 6.0);
    var fc := ReadNumber(req, "focusConcentration", 7.0);
    var sq := ReadNumber(req, "sleepQuality", 7.0);
    if cog.Some? && wm.Some? && ps.Some? && mot.Some? && tm.Some? && fc.Some? && sq.Some?
    then Some(Profile(cog.value, wm.value, ps.value, mot.value, tm.value, fc.value, sq.value))
    else
      assert !Comparable(req, Key(CognitiveAbility)) || !Comparable(req, Key(WorkingMemory))
          || !Comparable(req, Key(ProcessingSpeed)) || !Comparable(req, Key(Motivation))
          || !Comparable(req, Key(TimeManagement)) || !Comparable(req, Key(Focus))
          || !Comparable(req, Key(SleepQuality));
      None
  }

  /** An empty request reads as every default. */
  lemma EmptyRequestReadsDefaults()
    ensures ReadProfile(map[]) == Some(Profile(100.0, 6.0, 6.0, 7.0, 6.0, 7.0, 7.0))
  {
    var p := ReadProfile(map[]).value;
    assert p.Reading(CognitiveAbility) == 100.0 && p.Reading(WorkingMemory) == 6.0;
    assert p.Reading(ProcessingSpeed) == 6.0 && p.Reading(Motivation) == 7.0;
    assert p.Reading(TimeManagement) == 6.0 && p.Reading(Focus) == 7.0;
    assert p.Reading(SleepQuality) == 7.0;
  }

  /** Cognitive ability and working memory have two strength tiers, the others one. */
  datatype Tier = Upper | Lower

  datatype Finding =
    | Strength(subject: Trait, tier: Tier, value: real)
    | Weakness(subject: Trait, value: real)
    | LeverageCognition      // able, yet scoring under 80
    | MasterComplexSubjects  // good working memory and processing speed
    | ChannelMotivation      // motivated, yet managing time poorly
    | SolidBaseline          // fallback strength
    | NoMajorWeaknesses      // fallback weakness
    | BuildOnFoundation      // fallback opportunity

  /** The reading a trait needs for the upper strength tier. */
  function UpperThreshold(t: Trait): real
  {
    if t == CognitiveAbility then 110.0 else 8.0
  }

  /** The reading a trait needs to be a strength at all. */
  function StrengthThreshold(t: Trait): real
  {
    match t
    case CognitiveAbility => 100.0
    case WorkingMemory => 7.0
    case _ => 8.0
  }

  /** A trait reading under this is a weakness. */
  function WeaknessThreshold(t: Trait): real
  {
    if t == CognitiveAbility then 90.0 else 6.0
  }

  /** The strength a trait contributes, if any. */
  function StrengthOf(p: Profile, t: Trait): seq<Finding>
  {
    if p.Reading(t) >= UpperThreshold(t) then [Strength(t, Upper, p.Reading(t))]
    else if p.Reading(t) >= StrengthThreshold(t) then [Strength(t, Lower, p.Reading(t))]
    else []
  }

  /** The weakness a trait contributes, if any. */
  function WeaknessOf(p: Profile, t: Trait): seq<Finding>
  {
    if p.Reading(t) < WeaknessThreshold(t) then [Weakness(t, p.Reading(t))] else []
  }

  /** The strengths the traits of `ts` contribute, in the order of `ts`. */
  function StrengthsOver(p: Profile, ts: seq<Trait>): seq<Finding>
  {
    if ts == [] then [] else StrengthsOver(p, ts[..|ts| - 1]) + StrengthOf(p, ts[|ts| - 1])
  }

  /** The weaknesses the traits of `ts` contribute, in the order of `ts`. */
  function WeaknessesOver(p: Profile, ts: seq<Trait>): seq<Finding>
  {
    if ts == [] then [] else WeaknessesOver(p, ts[..|ts| - 1]) + WeaknessOf(p, ts[|ts| - 1])
  }

  /** The opportunity rules, in the order they are checked. */
  function OpportunityRules(p: Profile, score: real): seq<Finding>
  {
    (if p.cognitiveAbility >= 100.0 && score < 80.0 then [LeverageCognition] else [])
    + (if p.workingMemory >= 7.0 && p.processingSpeed >= 7.0 then [MasterComplexSubjects] else [])
    + (if p.motivation >= 7.0 && p.timeManagement < 7.0 then [ChannelMotivation] else [])
  }

  /** A list with its fallback: the list itself, or the fallback alone when it is empty. */
  function OrElse(findings: seq<Finding>, fallback: Finding): (r: seq<Finding>)
    ensures r != []
    ensures fallback !in findings ==> (fallback in r <==> findings == [])
  {
    if findings == [] then [fallback] else findings
  }

  /** One more trait checked: its findings follow those of the traits before it. */
  lemma FindingsSnoc(p: Profile, ts: seq<Trait>, t: Trait)
    ensures StrengthsOver(p, ts + [t]) == StrengthsOver(p, ts) + StrengthOf(p, t)
    ensures WeaknessesOver(p, ts + [t]) == WeaknessesOver(p, ts) + WeaknessOf(p, t)
  {
    assert (ts + [t])[..|ts|] == ts;
  }

  /** The rule lists over all seven traits, one trait after the other. */
  lemma FindingsUnrolled(p: Profile)
    ensures StrengthsOver(p, AllTraits)
         == [] + StrengthOf(p, CognitiveAbility) + StrengthOf(p, WorkingMemory) + StrengthOf(p, ProcessingSpeed)
          + StrengthOf(p, Motivation) + StrengthOf(p, TimeManagement) + StrengthOf(p, Focus)
          + StrengthOf(p, SleepQuality)
    ensures WeaknessesOver(p, AllTraits)
         == [] + WeaknessOf(p, CognitiveAbility) + WeaknessOf(p, WorkingMemory) + WeaknessOf(p, ProcessingSpeed)
          + WeaknessOf(p, Motivation) + WeaknessOf(p, TimeManagement) + WeaknessOf(p, Focus)
          + WeaknessOf(p, SleepQuality)
  {
    var t0: seq<Trait> := [];
    var t1 := t0 + [CognitiveAbility];
    var t2 := t1 + [WorkingMemory];
    var t3 := t2 + [ProcessingSpeed];
    var t4 := t3 + [Motivation];
    var t5 := t4 + [TimeManagement];
    var t6 := t5 + [Focus];
    var t7 := t6 + [SleepQuality];
    assert t7 == AllTraits;
    FindingsSnoc(p, t0, CognitiveAbility);
    FindingsSnoc(p, t1, WorkingMemory);
    FindingsSnoc(p, t2, ProcessingSpeed);
    FindingsSnoc(p, t3, Motivation);
    FindingsSnoc(p, t4, TimeManagement);
    FindingsSnoc(p, t5, Focus);
    FindingsSnoc(p, t6, SleepQuality);
    assert StrengthsOver(p, t0) == [] && WeaknessesOver(p, t0) == [];
  }

  /**
   * The rule lists as the insight generator builds them: one comparison after
   * another, each appending its message, then a fallback for every list
   * still empty.
   */
  method GenerateFindings(p: Profile, score: real) returns (strengths: seq<Finding>, weaknesses: seq<Finding>, opportunities: seq<Finding>)
    ensures strengths == OrElse(StrengthsOver(p, AllTraits), SolidBaseline)
    ensures weaknesses == OrElse(WeaknessesOver(p, AllTraits), NoMajorWeaknesses)
    ensures opportunities == OrElse(OpportunityRules(p, score), BuildOnFoundation)
  {
    FindingsUnrolled(p);
    strengths, weaknesses, opportunities := [], [], [];
    strengths := AppendCognitiveStrengths(p, strengths);
    strengths := AppendBehaviouralStrengths(p, strengths);
    weaknesses := AppendCognitiveWeaknesses(p, weaknesses);
    weaknesses := AppendBehaviouralWeaknesses(p, weaknesses);
    opportunities := AppendOpportunities(p, score, opportunities);
    if strengths == [] {
      strengths := strengths + [SolidBaseline];
    }
    if weaknesses == [] {
      weaknesses := weaknesses + [NoMajorWeaknesses];
    }
    if opportunities == [] {
      opportunities := opportunities + [BuildOnFoundation];
    }
  }

  /** The cognitive strengths: two tiers for ability and working memory, one for speed. */
  method AppendCognitiveStrengths(p: Profile, strengths: seq<Finding>) returns (r: seq<Finding>)
    ensures r == strengths + StrengthOf(p, CognitiveAbility) + StrengthOf(p, WorkingMemory) + StrengthOf(p, ProcessingSpeed)
  {
    r := strengths;
    if p.cognitiveAbility >= 110.0 {
      r := r + [Strength(CognitiveAbility, Upper, p.cognitiveAbility)];
    } else if p.cognitiveAbility >= 100.0 {
      r := r + [Strength(CognitiveAbility, Lower, p.cognitiveAbility)];
    }
    assert r == strengths + StrengthOf(p, CognitiveAbility);
    if p.workingMemory >= 8.0 {
      r := r + [Strength(WorkingMemory, Upper, p.workingMemory)];
    } else if p.workingMemory >= 7.0 {
      r := r + [Strength(WorkingMemory, Lower, p.workingMemory)];
    }
    assert r == strengths + StrengthOf(p, CognitiveAbility) + StrengthOf(p, WorkingMemory);
    if p.processingSpeed >= 8.0 {
      r := r + [Strength(ProcessingSpeed, Upper, p.processingSpeed)];
    }
  }

  /** The behavioural strengths: one tier each, at 8. */
  method AppendBehaviouralStrengths(p: Profile, strengths: seq<Finding>) returns (r: seq<Finding>)
    ensures r == strengths + StrengthOf(p, Motivation) + StrengthOf(p, TimeManagement) + StrengthOf(p, Focus) + StrengthOf(p, SleepQuality)
  {
    r := strengths;
    if p.motivation >= 8.0 {
      r := r + [Strength(Motivation, Upper, p.motivation)];
    }
    assert r == strengths + StrengthOf(p, Motivation);
    if p.timeManagement >= 8.0 {
      r := r + [Strength(TimeManagement, Upper, p.timeManagement)];
    }
    assert r == strengths + StrengthOf(p, Motivation) + StrengthOf(p, TimeManagement);
    if p.focus >= 8.0 {
      r := r + [Strength(Focus, Upper, p.focus)];
    }
    assert r == strengths + StrengthOf(p, Motivation) + StrengthOf(p, TimeManagement) + StrengthOf(p, Focus);
    if p.sleepQuality >= 8.0 {
      r := r + [Strength(SleepQuality, Upper, p.sleepQuality)];
    }
  }

  /** The cognitive weaknesses: ability under 90, memory or speed under 6. */
  method AppendCognitiveWeaknesses(p: Profile, weaknesses: seq<Finding>) returns (r: seq<Finding>)
    ensures r == weaknesses + WeaknessOf(p, CognitiveAbility) + WeaknessOf(p, WorkingMemory) + WeaknessOf(p, ProcessingSpeed)
  {
    r := weaknesses;
    if p.cognitiveAbility < 90.0 {
      r := r + [Weakness(CognitiveAbility, p.cognitiveAbility)];
    }
    assert r == weaknesses + WeaknessOf(p, CognitiveAbility);
    if p.workingMemory < 6.0 {
      r := r + [Weakness(WorkingMemory, p.workingMemory)];
    }
    assert r == weaknesses + WeaknessOf(p, CognitiveAbility) + WeaknessOf(p, WorkingMemory);
    if p.processingSpeed < 6.0 {
      r := r + [Weakness(ProcessingSpeed, p.processingSpeed)];
    }
  }

  /** The behavioural weaknesses: any of the four readings under 6. */
  method AppendBehaviouralWeaknesses(p: Profile, weaknesses: seq<Finding>) returns (r: seq<Finding>)
    ensures r == weaknesses + WeaknessOf(p, Motivation) + WeaknessOf(p, TimeManagement) + WeaknessOf(p, Focus) + WeaknessOf(p, SleepQuality)
  {
    r := weaknesses;
    if p.motivation < 6.0 {
      r := r + [Weakness(Motivation, p.motivation)];
    }
    assert r == weaknesses + WeaknessOf(p, Motivation);
    if p.timeManagement < 6.0 {
      r := r + [Weakness(TimeManagement, p.timeManagement)];
    }
    assert r == weaknesses + WeaknessOf(p, Motivation) + WeaknessOf(p, TimeManagement);
    if p.focus < 6.0 {
      r := r + [Weakness(Focus, p.focus)];
    }
    assert r == weaknesses + WeaknessOf(p, Motivation) + WeaknessOf(p, TimeManagement) + WeaknessOf(p, Focus);
    if p.sleepQuality < 6.0 {
      r := r + [Weakness(SleepQuality, p.sleepQuality)];
    }
  }

  /** The opportunity rules, each combining two readings or a reading and the score. */
  method AppendOpportunities(p: Profile, score: real, opportunities: seq<Finding>) returns (r: seq<Finding>)
    ensures r == opportunities + OpportunityRules(p, score)
  {
    r := opportunities;
    if p.cognitiveAbility >= 100.0 && score < 80.0 {
      r := r + [LeverageCognition];
    }
    if p.workingMemory >= 7.0 && p.processingSpeed >= 7.0 {
      r := r + [MasterComplexSubjects];
    }
    if p.motivation >= 7.0 && p.timeManagement < 7.0 {
      r := r + [ChannelMotivation];
    }
  }

  /** Every finding in `StrengthsOver(p, ts)` is a strength of a trait of `ts`. */
  lemma {:induction false} StrengthsOverTraits(p: Profile, ts: seq<Trait>)
    ensures forall f :: f in StrengthsOver(p, ts) ==> f.Strength? && f.subject in ts
  {
    if ts != [] {
      StrengthsOverTraits(p, ts[..|ts| - 1]);
    }
  }

  /** Every finding in `WeaknessesOver(p, ts)` is a weakness of a trait of `ts`. */
  lemma {:induction false} WeaknessesOverTraits(p: Profile, ts: seq<Trait>)
    ensures forall f :: f in WeaknessesOver(p, ts) ==> f.Weakness? && f.subject in ts
  {
    if ts != [] {
      WeaknessesOverTraits(p, ts[..|ts| - 1]);
    }
  }

  /** Findings about traits, no two of them about the same trait. */
  ghost predicate OneEach(fs: seq<Finding>)
  {
    forall i, j :: 0 <= i < j < |fs| ==>
      (fs[i].Strength? || fs[i].Weakness?) && (fs[j].Strength? || fs[j].Weakness?) && fs[i].subject != fs[j].subject
  }

  /** Over a list of distinct traits, no trait contributes two strengths. */
  lemma {:induction false} StrengthsOverDistinct(p: Profile, ts: seq<Trait>)
    requires forall i, j :: 0 <= i < j < |ts| ==> ts[i] != ts[j]
    ensures OneEach(StrengthsOver(p, ts))
  {
    if ts != [] {
      var init, last := ts[..|ts| - 1], ts[|ts| - 1];
      StrengthsOverDistinct(p, init);
      StrengthsOverTraits(p, init);
      assert last !in init;
      var before, tail := StrengthsOver(p, init), StrengthOf(p, last);
      var s := before + tail;
      forall i, j | 0 <= i < j < |s| ensures (s[i].Strength? || s[i].Weakness?) && (s[j].Strength? || s[j].Weakness?) && s[i].subject != s[j].subject {
        if j < |before| {
          assert s[i] == before[i] && s[j] == before[j];
        } else {
          assert s[i] == before[i] && s[i] in before;
          assert s[j] == tail[j - |before|];
        }
      }
    }
  }

  /** Over a list of distinct traits, no trait contributes two weaknesses. */
  lemma {:induction false} WeaknessesOverDistinct(p: Profile, ts: seq<Trait>)
    requires forall i, j :: 0 <= i < j < |ts| ==> ts[i] != ts[j]
    ensures OneEach(WeaknessesOver(p, ts))
  {
    if ts != [] {
      var init, last := ts[..|ts| - 1], ts[|ts| - 1];
      WeaknessesOverDistinct(p, init);
      WeaknessesOverTraits(p, init);
      assert last !in init;
      var before, tail := WeaknessesOver(p, init), WeaknessOf(p, last);
      var w := before + tail;
      forall i, j | 0 <= i < j < |w| ensures (w[i].Strength? || w[i].Weakness?) && (w[j].Strength? || w[j].Weakness?) && w[i].subject != w[j].subject {
        if j < |before| {
          assert w[i] == before[i] && w[j] == before[j];
        } else {
          assert w[i] == before[i] && w[i] in before;
          assert w[j] == tail[j - |before|];
        }
      }
    }
  }

  /** A trait is a strength of a given tier over `ts` exactly when it is in `ts` and reaches that tier. */
  lemma {:induction false} StrengthsOverCharacterised(p: Profile, ts: seq<Trait>, t: Trait, tier: Tier)
    ensures (exists v :: Strength(t, tier, v) in StrengthsOver(p, ts))
        <==> t in ts && p.Reading(t) >= (if tier == Upper then UpperThreshold(t) else StrengthThreshold(t))
                     && (tier == Lower ==> p.Reading(t) < UpperThreshold(t))
  {
    if ts != [] {
      var init, last := ts[..|ts| - 1], ts[|ts| - 1];
      StrengthsOverCharacterised(p, init, t, tier);
      assert ts == init + [last];
      if t == last && p.Reading(t) >= (if tier == Upper then UpperThreshold(t) else StrengthThreshold(t))
                   && (tier == Lower ==> p.Reading(t) < UpperThreshold(t)) {
        assert Strength(t, tier, p.Reading(t)) in StrengthOf(p, last);
      }
    }
  }

  /** A trait is a weakness over `ts` exactly when it is in `ts` and falls under its threshold. */
  lemma {:induction false} WeaknessesOverCharacterised(p: Profile, ts: seq<Trait>, t: Trait)
    ensures (exists v :: Weakness(t, v) in WeaknessesOver(p, ts))
        <==> t in ts && p.Reading(t) < WeaknessThreshold(t)
  {
    if ts != [] {
      var init, last := ts[..|ts| - 1], ts[|ts| - 1];
      WeaknessesOverCharacterised(p, init, t);
      assert ts == init + [last];
      if t == last && p.Reading(t) < WeaknessThreshold(t) {
        assert Weakness(t, p.Reading(t)) in WeaknessOf(p, last);
      }
    }
  }

  /**
   * Each of the seven traits is listed at most once among the strengths and
   * at most once among the weaknesses.
   */
  lemma AtMostOneFindingPerTrait(p: Profile)
    ensures OneEach(StrengthsOver(p, AllTraits))
    ensures OneEach(WeaknessesOver(p, AllTraits))
  {
    StrengthsOverDistinct(p, AllTraits);
    WeaknessesOverDistinct(p, AllTraits);
  }

  /**
   * A trait is a strength exactly when its reading reaches the strength
   * threshold, and in the upper tier exactly when it reaches the upper one.
   */
  lemma StrengthIffThreshold(p: Profile, t: Trait)
    ensures (exists v, tier :: Strength(t, tier, v) in StrengthsOver(p, AllTraits)) <==> p.Reading(t) >= StrengthThreshold(t)
    ensures (exists v :: Strength(t, Upper, v) in StrengthsOver(p, AllTraits)) <==> p.Reading(t) >= UpperThreshold(t)
  {
    StrengthsOverCharacterised(p, AllTraits, t, Upper);
    StrengthsOverCharacterised(p, AllTraits, t, Lower);
    assert t in AllTraits;
    assert UpperThreshold(t) >= StrengthThreshold(t);
    var s := StrengthsOver(p, AllTraits);
    if p.Reading(t) >= UpperThreshold(t) {
      var v :| Strength(t, Upper, v) in s;
    } else if p.Reading(t) >= StrengthThreshold(t) {
      var v :| Strength(t, Lower, v) in s;
    }
    if exists v, tier :: Strength(t, tier, v) in s {
      var v, tier :| Strength(t, tier, v) in s;
      if tier == Upper {
        assert exists v' :: Strength(t, Upper, v') in s;
      } else {
        assert exists v' :: Strength(t, Lower, v') in s;
      }
    }
  }

  /** A trait is a weakness exactly when its reading is under the weakness threshold. */
  lemma WeaknessIffThreshold(p: Profile, t: Trait)
    ensures (exists v :: Weakness(t, v) in WeaknessesOver(p, AllTraits)) <==> p.Reading(t) < WeaknessThreshold(t)
  {
    WeaknessesOverCharacterised(p, AllTraits, t);
    assert t in AllTraits;
  }

  /**
   * No trait is both a strength and a weakness: every weakness threshold is
   * at most the matching strength threshold.
   */
  lemma NeverBothStrengthAndWeakness(p: Profile, t: Trait)
    ensures !((exists v, tier :: Strength(t, tier, v) in StrengthsOver(p, AllTraits))
              && (exists v :: Weakness(t, v) in WeaknessesOver(p, AllTraits)))
  {
    StrengthIffThreshold(p, t);
    WeaknessIffThreshold(p, t);
  }

  /**
   * After the fallbacks all three lists are non-empty, a fallback is present
   * exactly when its rules produced nothing, and then it stands alone; at
   * most three opportunities are ever listed.
   */
  lemma FallbacksOnlyWhenNoRuleFired(p: Profile, score: real)
    ensures var s := OrElse(StrengthsOver(p, AllTraits), SolidBaseline);
            s != [] && (SolidBaseline in s <==> s == [SolidBaseline]) && (SolidBaseline in s <==> StrengthsOver(p, AllTraits) == [])
    ensures var w := OrElse(WeaknessesOver(p, AllTraits), NoMajorWeaknesses);
            w != [] && (NoMajorWeaknesses in w <==> w == [NoMajorWeaknesses]) && (NoMajorWeaknesses in w <==> WeaknessesOver(p, AllTraits) == [])
    ensures var o := OrElse(OpportunityRules(p, score), BuildOnFoundation);
            o != [] && |o| <= 3 && (BuildOnFoundation in o <==> o == [BuildOnFoundation]) && (BuildOnFoundation in o <==> OpportunityRules(p, score) == [])
  {
    StrengthsOverTraits(p, AllTraits);
    WeaknessesOverTraits(p, AllTraits);
    assert SolidBaseline !in StrengthsOver(p, AllTraits);
    assert NoMajorWeaknesses !in WeaknessesOver(p, AllTraits);
  }

  /** `performance_analysis`: the level, the score, its verdict and its improvement potential. */
  datatype Analysis = Analysis(currentLevel: string, predictedScore: real, interpretation: Interpretation, improvement: Improvement)

  /** `comparison`: the score against its level's benchmark. */
  datatype Comparison = Comparison(
    predictedVsBenchmark: real, performanceTier: string, percentileEstimate: int,
    benchmarkScore: int, gapAnalysis: GapBand)

  datatype Insights = Insights(
    strengths: seq<Finding>, weaknesses: seq<Finding>, opportunities: seq<Finding>,
    analysis: Analysis, comparison: Comparison)

  /** The comparison block of a score at a level. */
  function CompareWithBenchmark(score: real, level: string): (c: Comparison)
    ensures c.benchmarkScore == Benchmark(level)
    ensures c.predictedVsBenchmark == Round1(score - Benchmark(level) as real)
    ensures c.performanceTier == level
    ensures c.gapAnalysis == GapAnalysis(score - Benchmark(level) as real, level)
    ensures c.gapAnalysis.Rank() >= Meeting.Rank() <==> score >= Benchmark(level) as real
    ensures c.percentileEstimate == Percentile(score, level)
  {
    var gap := score - Benchmark(level) as real;
    Comparison(Round1(gap), level, Percentile(score, level), Benchmark(level), GapAnalysis(gap, level))
  }

  /** The insight block of a readable profile: the three lists and the two summaries. */
  function InsightsOf(p: Profile, score: real, level: string): (r: Insights)
    ensures r.analysis.interpretation == Interpret(score)
    ensures r.comparison.benchmarkScore == Benchmark(level)
    ensures r.strengths != [] && r.weaknesses != [] && r.opportunities != []
  {
    Insights(
      OrElse(StrengthsOver(p, AllTraits), SolidBaseline),
      OrElse(WeaknessesOver(p, AllTraits), NoMajorWeaknesses),
      OrElse(OpportunityRules(p, score), BuildOnFoundation),
      Analysis(level, score, Interpret(score), ImprovementPotential(score, level)),
      CompareWithBenchmark(score, level))
  }

  /**
   * The whole insight block: `None` when one of the seven fields cannot be
   * compared with a number, otherwise the three lists and the two summaries.
   */
  method GenerateInsights(req: Request, score: real, level: string) returns (r: Option<Insights>)
    ensures r.Some? <==> forall t: Trait :: Comparable(req, Key(t))
    ensures r.Some? ==>
      var p := ReadProfile(req).value;
      && r.value.strengths == OrElse(StrengthsOver(p, AllTraits), SolidBaseline)
      && r.value.weaknesses == OrElse(WeaknessesOver(p, AllTraits), NoMajorWeaknesses)
      && r.value.opportunities == OrElse(OpportunityRules(p, score), BuildOnFoundation)
      && r.value.analysis == Analysis(level, score, Interpret(score), ImprovementPotential(score, level))
      && r.value.comparison == CompareWithBenchmark(score, level)
    ensures r.Some? ==> r.value == InsightsOf(ReadProfile(req).value, score, level)
  {
    var profile := ReadProfile(req);
    if profile.None? {
      return None;
    }
    var strengths, weaknesses, opportunities := GenerateFindings(profile.value, score);
    var analysis := Analysis(level, score, Interpret(score), ImprovementPotential(score, level));
    r := Some(Insights(strengths, weaknesses, opportunities, analysis, CompareWithBenchmark(score, level)));
  }
}
