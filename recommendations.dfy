/**
 * `_generate_recommendations`: fourteen threshold rules checked in a fixed
 * order (the last two with alternatives), a single low-priority fallback
 * when none fires, and a stable sort by priority, high first.
 */
module Recommendations {
  import opened Wrappers
  import opened Values
  import opened StableSort

  datatype Priority = High | Medium | Low

  /** The position of a priority in the sort: high 0, medium 1, low 2. */
  function PriorityRank(p: Priority): real
  {
    match p
    case High => 0.0
    case Medium => 1.0
    case Low => 2.0
  }

  /** Every recommendation the engine can make, in the order its rules are checked. */
  datatype Rule =
    | EnhanceCognitiveSkills | ImproveWorkingMemory | IncreaseProcessingSpeed
    | DevelopMetacognition | ImproveTimeManagement | EnhanceAdaptability
    | ImproveSleepQuality | EnhanceFocus | ReduceProcrastination | ManageAnxiety
    | SeekFacultySupport | OptimizeLearningSpace
    | IncreaseStudyTime | OptimizeStudyMethods
    | BuildFoundation | MasterKeyConcepts | PursueExcellence
    | MaintainHabits
  {
    function Priority(): Priority
    {
      match this
      case DevelopMetacognition | ImproveTimeManagement | ReduceProcrastination | ManageAnxiety
        | IncreaseStudyTime | BuildFoundation | MasterKeyConcepts => High
      case MaintainHabits => Low
      case _ => Medium
    }

    function Category(): string
    {
      match this
      case EnhanceCognitiveSkills => "Cognitive Development"
      case ImproveWorkingMemory => "Cognitive Skills"
      case IncreaseProcessingSpeed => "Cognitive Skills"
      case DevelopMetacognition => "Learning Strategies"
      case ImproveTimeManagement => "Study Habits"
      case EnhanceAdaptability => "Learning Flexibility"
      case ImproveSleepQuality => "Health & Wellness"
      case EnhanceFocus => "Cognitive Performance"
      case ReduceProcrastination => "Productivity"
      case ManageAnxiety => "Mental Health"
      case SeekFacultySupport => "Academic Support"
      case OptimizeLearningSpace => "Study Environment"
      case IncreaseStudyTime => "Study Habits"
      case OptimizeStudyMethods => "Study Efficiency"
      case BuildFoundation => "Academic Foundation"
      case MasterKeyConcepts => "Advanced Learning"
      case PursueExcellence => "Excellence"
      case MaintainHabits => "General"
    }

    function Title(): string
    {
      match this
      case EnhanceCognitiveSkills => "Enhance Cognitive Skills"
      case ImproveWorkingMemory => "Improve Working Memory"
      case IncreaseProcessingSpeed => "Increase Processing Speed"
      case DevelopMetacognition => "Develop Metacognition"
      case ImproveTimeManagement => "Improve Time Management"
      case EnhanceAdaptability => "Enhance Learning Adaptability"
      case ImproveSleepQuality => "Improve Sleep Quality"
      case EnhanceFocus => "Enhance Focus"
      case ReduceProcrastination => "Reduce Procrastination"
      case ManageAnxiety => "Manage Academic Anxiety"
      case SeekFacultySupport => "Seek Faculty Support"
      case OptimizeLearningSpace => "Optimize Learning Space"
      case IncreaseStudyTime => "Increase Study Time"
      case OptimizeStudyMethods => "Optimize Study Methods"
      case BuildFoundation => "Build Strong Foundation"
      case MasterKeyConcepts => "Master Key Concepts"
      case PursueExcellence => "Pursue Academic Excellence"
      case MaintainHabits => "Maintain Current Habits"
    }

    function TargetValue(): string
    {
      match this
      case EnhanceCognitiveSkills => "90+"
      case ReduceProcrastination | ManageAnxiety => "5/10 or less"
      case IncreaseStudyTime => "6-8 hours"
      case OptimizeStudyMethods => "6-8 focused hours"
      case BuildFoundation => "60+ points"
      case MasterKeyConcepts => "75+ points"
      case PursueExcellence => "85+ points"
      case MaintainHabits => "Consistent excellence"
      case _ => "7+/10"
    }

    function ImprovementArea(): string
    {
      match this
      case EnhanceCognitiveSkills => "Cognitive Ability"
      case ImproveWorkingMemory => "Working Memory"
      case IncreaseProcessingSpeed => "Processing Speed"
      case DevelopMetacognition => "Metacognition"
      case ImproveTimeManagement => "Time Management"
      case EnhanceAdaptability => "Learning Adaptability"
      case ImproveSleepQuality => "Sleep Quality"
      case EnhanceFocus => "Focus & Concentration"
      case ReduceProcrastination => "Procrastination"
      case ManageAnxiety => "Academic Anxiety"
      case SeekFacultySupport => "Faculty Support"
      case OptimizeLearningSpace => "Learning Environment"
      case IncreaseStudyTime => "Study Hours"
      case OptimizeStudyMethods => "Study Efficiency"
      case BuildFoundation => "Foundation Building"
      case MasterKeyConcepts => "Concept Mastery"
      case PursueExcellence => "Advanced Achievement"
      case MaintainHabits => "Consistency"
    }

    /** The two alternatives of the study-hours rule. */
    predicate IsStudyRule()
    {
      this == IncreaseStudyTime || this == OptimizeStudyMethods
    }

    /** The three alternatives of the performance-level rule. */
    predicate IsPerformanceRule()
    {
      this == BuildFoundation || this == MasterKeyConcepts || this == PursueExcellence
    }
  }

  /** A recommendation: its rule and the reading (or the score) it reports as current. */
  datatype Recommendation = Recommendation(rule: Rule, current: real)

  /** The sort key of a recommendation. */
  function Rank(r: Recommendation): real
  {
    PriorityRank(r.rule.Priority())
  }

  /** The rules in the order they are checked; the fallback is not among them. */
  const AllRules: seq<Rule> := [
    EnhanceCognitiveSkills, ImproveWorkingMemory, IncreaseProcessingSpeed,
    DevelopMetacognition, ImproveTimeManagement, EnhanceAdaptability,
    ImproveSleepQuality, EnhanceFocus, ReduceProcrastination, ManageAnxiety,
    SeekFacultySupport, OptimizeLearningSpace,
    IncreaseStudyTime, OptimizeStudyMethods,
    BuildFoundation, MasterKeyConcepts, PursueExcellence]

  /** The thirteen readings the rules compare. */
  datatype Readings = Readings(
    cognitiveAbility: real, workingMemory: real, processingSpeed: real,
    metacognition: real, timeManagement: real, adaptability: real,
    sleepQuality: real, focus: real, procrastination: real, anxiety: real,
    facultySupport: real, environment: real, studyHours: real)
  {
    /** The readings in the order of `ReadingKeys`. */
    function InOrder(): seq<real>
    {
      [cognitiveAbility, workingMemory, processingSpeed, metacognition, timeManagement,
       adaptability, sleepQuality, focus, procrastination, anxiety, facultySupport,
       environment, studyHours]
    }
  }

  /** The request fields the rules compare, each with its default. */
  const ReadingKeys: seq<(string, real)> := [
    ("cognitiveAbility", 100.0), ("workingMemory", 6.0), ("processingSpeed", 6.0),
    ("metacognitionSkills", 6.0), ("timeManagement", 6.0), ("learningAdaptability", 6.0),
    ("sleepQuality", 7.0), ("focusConcentration", 7.0), ("procrastinationTendency", 5.0),
    ("academicAnxiety", 4.0), ("facultySupport", 6.0), ("learningEnvironmentQuality", 7.0),
    ("studyHoursDaily", 4.5)]

  /**
   * Reads the thirteen fields with their defaults; `None` when one of them
   * holds `null` or a string, on which the comparison raises. The
   * technology-access field is read too but never compared, so it cannot fail.
   */
  function ReadReadings(req: Request): (r: Option<Readings>)
    ensures r.Some? <==> forall i :: 0 <= i < |ReadingKeys| ==> Comparable(req, ReadingKeys[i].0)
    ensures r.Some? ==> forall i :: 0 <= i < |ReadingKeys| ==>
      Some(r.value.InOrder()[i]) == ReadNumber(req, ReadingKeys[i].0, ReadingKeys[i].1)
  {
    var v := seq(|ReadingKeys|, i requires 0 <= i < |ReadingKeys| => ReadNumber(req, ReadingKeys[i].0, ReadingKeys[i].1));
    if forall i :: 0 <= i < |v| ==> v[i].Some?
    then Some(Readings(
      v[0].value, v[1].value, v[2].value, v[3].value, v[4].value, v[5].value, v[6].value,
      v[7].value, v[8].value, v[9].value, v[10].value, v[11].value, v[12].value))
    else None
  }

  /** Whether a rule fires for these readings, score and level. */
  predicate Fires(rule: Rule, rd: Readings, score: real, level: string)
  {
    match rule
    case EnhanceCognitiveSkills => rd.cognitiveAbility < 90.0
    case ImproveWorkingMemory => rd.workingMemory < 7.0
    case IncreaseProcessingSpeed => rd.processingSpeed < 7.0
    case DevelopMetacognition => rd.metacognition < 7.0
    case ImproveTimeManagement => rd.timeManagement < 7.0
    case EnhanceAdaptability => rd.adaptability < 7.0
    case ImproveSleepQuality => rd.sleepQuality < 7.0
    case EnhanceFocus => rd.focus < 7.0
    case ReduceProcrastination => rd.procrastination > 6.0
    case ManageAnxiety => rd.anxiety > 6.0
    case SeekFacultySupport => rd.facultySupport < 7.0
    case OptimizeLearningSpace => rd.environment < 7.0
    case IncreaseStudyTime => rd.studyHours < 5.0
    case OptimizeStudyMethods => !(rd.studyHours < 5.0) && rd.studyHours > 9.0
    case BuildFoundation => level == "Low" && score < 60.0
    case MasterKeyConcepts => !(level == "Low" && score < 60.0) && level == "Medium" && score < 75.0
    case PursueExcellence =>
      !(level == "Low" && score < 60.0) && !(level == "Medium" && score < 75.0) && level == "High" && score < 85.0
    case MaintainHabits => false
  }

  /** The value a recommendation reports: the reading it compared, or the score. */
  function Current(rule: Rule, rd: Readings, score: real): real
  {
    match rule
    case EnhanceCognitiveSkills => rd.cognitiveAbility
    case ImproveWorkingMemory => rd.workingMemory
    case IncreaseProcessingSpeed => rd.processingSpeed
    case DevelopMetacognition => rd.metacognition
    case ImproveTimeManagement => rd.timeManagement
    case EnhanceAdaptability => rd.adaptability
    case ImproveSleepQuality => rd.sleepQuality
    case EnhanceFocus => rd.focus
    case ReduceProcrastination => rd.procrastination
    case ManageAnxiety => rd.anxiety
    case SeekFacultySupport => rd.facultySupport
    case OptimizeLearningSpace => rd.environment
    case IncreaseStudyTime | OptimizeStudyMethods => rd.studyHours
    case _ => score
  }

  /** What one rule contributes: its recommendation when it fires, nothing otherwise. */
  function Outcome(rule: Rule, rd: Readings, score: real, level: string): seq<Recommendation>
  {
    if Fires(rule, rd, score, level) then [Recommendation(rule, Current(rule, rd, score))] else []
  }

  /** The recommendations the rules of `rules` make, in the order of `rules`. */
  function Fired(rules: seq<Rule>, rd: Readings, score: real, level: string): seq<Recommendation>
  {
    if rules == [] then []
    else Fired(rules[..|rules| - 1], rd, score, level) + Outcome(rules[|rules| - 1], rd, score, level)
  }

  /** The recommendation made when no rule fires. */
  function Fallback(score: real): Recommendation
  {
    Recommendation(MaintainHabits, score)
  }

  /** The rule list, or the fallback alone, sorted stably by priority. */
  function Recommend(rd: Readings, score: real, level: string): seq<Recommendation>
  {
    var fired := Fired(AllRules, rd, score, level);
    SortBy(if fired == [] then [Fallback(score)] else fired, Rank)
  }

  lemma FiredSnoc(rules: seq<Rule>, rule: Rule, rd: Readings, score: real, level: string)
    ensures Fired(rules + [rule], rd, score, level) == Fired(rules, rd, score, level) + Outcome(rule, rd, score, level)
  {
    assert (rules + [rule])[..|rules|] == rules;
  }

  /** The rule list over all rules, one rule after the other. */
  lemma FiredUnrolled(rd: Readings, score: real, level: string)
    ensures Fired(AllRules, rd, score, level)
         == [] + Outcome(EnhanceCognitiveSkills, rd, score, level) + Outcome(ImproveWorkingMemory, rd, score, level)
          + Outcome(IncreaseProcessingSpeed, rd, score, level) + Outcome(DevelopMetacognition, rd, score, level)
          + Outcome(ImproveTimeManagement, rd, score, level) + Outcome(EnhanceAdaptability, rd, score, level)
          + Outcome(ImproveSleepQuality, rd, score, level) + Outcome(EnhanceFocus, rd, score, level)
          + Outcome(ReduceProcrastination, rd, score, level) + Outcome(ManageAnxiety, rd, score, level)
          + Outcome(SeekFacultySupport, rd, score, level) + Outcome(OptimizeLearningSpace, rd, score, level)
          + Outcome(IncreaseStudyTime, rd, score, level) + Outcome(OptimizeStudyMethods, rd, score, level)
          + Outcome(BuildFoundation, rd, score, level) + Outcome(MasterKeyConcepts, rd, score, level)
          + Outcome(PursueExcellence, rd, score, level)
  {
    var r0: seq<Rule> := [];
    var r1 := r0 + [EnhanceCognitiveSkills];
    var r2 := r1 + [ImproveWorkingMemory];
    var r3 := r2 + [IncreaseProcessingSpeed];
    var r4 := r3 + [DevelopMetacognition];
    var r5 := r4 + [ImproveTimeManagement];
    var r6 := r5 + [EnhanceAdaptability];
    var r7 := r6 + [ImproveSleepQuality];
    var r8 := r7 + [EnhanceFocus];
    var r9 := r8 + [ReduceProcrastination];
    var r10 := r9 + [ManageAnxiety];
    var r11 := r10 + [SeekFacultySupport];
    var r12 := r11 + [OptimizeLearningSpace];
    var r13 := r12 + [IncreaseStudyTime];
    var r14 := r13 + [OptimizeStudyMethods];
    var r15 := r14 + [BuildFoundation];
    var r16 := r15 + [MasterKeyConcepts];
    var r17 := r16 + [PursueExcellence];
    assert r17 == AllRules;
    FiredSnoc(r0, EnhanceCognitiveSkills, rd, score, level);
    FiredSnoc(r1, ImproveWorkingMemory, rd, score, level);
    FiredSnoc(r2, IncreaseProcessingSpeed, rd, score, level);
    FiredSnoc(r3, DevelopMetacognition, rd, score, level);
    FiredSnoc(r4, ImproveTimeManagement, rd, score, level);
    FiredSnoc(r5, EnhanceAdaptability, rd, score, level);
    FiredSnoc(r6, ImproveSleepQuality, rd, score, level);
    FiredSnoc(r7, EnhanceFocus, rd, score, level);
    FiredSnoc(r8, ReduceProcrastination, rd, score, level);
    FiredSnoc(r9, ManageAnxiety, rd, score, level);
    FiredSnoc(r10, SeekFacultySupport, rd, score, level);
    FiredSnoc(r11, OptimizeLearningSpace, rd, score, level);
    FiredSnoc(r12, IncreaseStudyTime, rd, score, level);
    FiredSnoc(r13, OptimizeStudyMethods, rd, score, level);
    FiredSnoc(r14, BuildFoundation, rd, score, level);
    FiredSnoc(r15, MasterKeyConcepts, rd, score, level);
    FiredSnoc(r16, PursueExcellence, rd, score, level);
    assert Fired(r0, rd, score, level) == [];
  }

  /**
   * The recommendation list as the engine builds it: section by section,
   * each rule appending its recommendation, then the fallback if the list is
   * still empty, then an in-place stable sort by priority. `None` when one of
   * the compared fields holds `null` or a string.
   */
  method GenerateRecommendations(req: Request, score: real, level: string) returns (r: Option<seq<Recommendation>>)
    ensures r.Some? <==> forall i :: 0 <= i < |ReadingKeys| ==> Comparable(req, ReadingKeys[i].0)
    ensures r.Some? ==> r.value == Recommend(ReadReadings(req).value, score, level)
  {
    var readings := ReadReadings(req);
    if readings.None? {
      return None;
    }
    var rd := readings.value;
    FiredUnrolled(rd, score, level);
    var recs: seq<Recommendation> := [];
    recs := AppendCognitiveRecommendations(rd, score, level, recs);
    recs := AppendStrategyRecommendations(rd, score, level, recs);
    recs := AppendWellbeingRecommendations(rd, score, level, recs);
    recs := AppendSupportRecommendations(rd, score, level, recs);
    recs := AppendStudyRecommendation(rd, score, level, recs);
    recs := AppendPerformanceRecommendation(rd, score, level, recs);
    if recs == [] {
      recs := recs + [Fallback(score)];
    }
    recs := SortBy(recs, Rank);
    r := Some(recs);
  }

  method AppendCognitiveRecommendations(rd: Readings, score: real, level: string, recs: seq<Recommendation>) returns (r: seq<Recommendation>)
    ensures r == recs + Outcome(EnhanceCognitiveSkills, rd, score, level) + Outcome(ImproveWorkingMemory, rd, score, level)
               + Outcome(IncreaseProcessingSpeed, rd, score, level)
  {
    r := recs;
    if rd.cognitiveAbility < 90.0 {
      r := r + [Recommendation(EnhanceCognitiveSkills, rd.cognitiveAbility)];
    }
    if rd.workingMemory < 7.0 {
      r := r + [Recommendation(ImproveWorkingMemory, rd.workingMemory)];
    }
    if rd.processingSpeed < 7.0 {
      r := r + [Recommendation(IncreaseProcessingSpeed, rd.processingSpeed)];
    }
  }

  method AppendStrategyRecommendations(rd: Readings, score: real, level: string, recs: seq<Recommendation>) returns (r: seq<Recommendation>)
    ensures r == recs + Outcome(DevelopMetacognition, rd, score, level) + Outcome(ImproveTimeManagement, rd, score, level)
               + Outcome(EnhanceAdaptability, rd, score, level)
  {
    r := recs;
    if rd.metacognition < 7.0 {
      r := r + [Recommendation(DevelopMetacognition, rd.metacognition)];
    }
    if rd.timeManagement < 7.0 {
      r := r + [Recommendation(ImproveTimeManagement, rd.timeManagement)];
    }
    if rd.adaptability < 7.0 {
      r := r + [Recommendation(EnhanceAdaptability, rd.adaptability)];
    }
  }

  method AppendWellbeingRecommendations(rd: Readings, score: real, level: string, recs: seq<Recommendation>) returns (r: seq<Recommendation>)
    ensures r == recs + Outcome(ImproveSleepQuality, rd, score, level) + Outcome(EnhanceFocus, rd, score, level)
               + Outcome(ReduceProcrastination, rd, score, level) + Outcome(ManageAnxiety, rd, score, level)
  {
    r := recs;
    if rd.sleepQuality < 7.0 {
      r := r + [Recommendation(ImproveSleepQuality, rd.sleepQuality)];
    }
    if rd.focus < 7.0 {
      r := r + [Recommendation(EnhanceFocus, rd.focus)];
    }
    if rd.procrastination > 6.0 {
      r := r + [Recommendation(ReduceProcrastination, rd.procrastination)];
    }
    if rd.anxiety > 6.0 {
      r := r + [Recommendation(ManageAnxiety, rd.anxiety)];
    }
  }

  method AppendSupportRecommendations(rd: Readings, score: real, level: string, recs: seq<Recommendation>) returns (r: seq<Recommendation>)
    ensures r == recs + Outcome(SeekFacultySupport, rd, score, level) + Outcome(OptimizeLearningSpace, rd, score, level)
  {
    r := recs;
    if rd.facultySupport < 7.0 {
      r := r + [Recommendation(SeekFacultySupport, rd.facultySupport)];
    }
    if rd.environment < 7.0 {
      r := r + [Recommendation(OptimizeLearningSpace, rd.environment)];
    }
  }

  method AppendStudyRecommendation(rd: Readings, score: real, level: string, recs: seq<Recommendation>) returns (r: seq<Recommendation>)
    ensures r == recs + Outcome(IncreaseStudyTime, rd, score, level) + Outcome(OptimizeStudyMethods, rd, score, level)
  {
    r := recs;
    if rd.studyHours < 5.0 {
      r := r + [Recommendation(IncreaseStudyTime, rd.studyHours)];
    } else if rd.studyHours > 9.0 {
      r := r + [Recommendation(OptimizeStudyMethods, rd.studyHours)];
    }
  }

  method AppendPerformanceRecommendation(rd: Readings, score: real, level: string, recs: seq<Recommendation>) returns (r: seq<Recommendation>)
    ensures r == recs + Outcome(BuildFoundation, rd, score, level) + Outcome(MasterKeyConcepts, rd, score, level)
               + Outcome(PursueExcellence, rd, score, level)
  {
    r := recs;
    if level == "Low" && score < 60.0 {
      r := r + [Recommendation(BuildFoundation, score)];
    } else if level == "Medium" && score < 75.0 {
      r := r + [Recommendation(MasterKeyConcepts, score)];
    } else if level == "High" && score < 85.0 {
      r := r + [Recommendation(PursueExcellence, score)];
    }
  }

  /** Every recommendation of `Fired(rules, ...)` comes from a rule of `rules` that fires. */
  lemma {:induction false} FiredFromRules(rules: seq<Rule>, rd: Readings, score: real, level: string)
    ensures forall x :: x in Fired(rules, rd, score, level) ==>
      x.rule in rules && Fires(x.rule, rd, score, level) && x.current == Current(x.rule, rd, score)
  {
    if rules != [] {
      FiredFromRules(rules[..|rules| - 1], rd, score, level);
    }
  }

  /** A rule of `rules` that fires is recommended. */
  lemma {:induction false} FiringRuleRecommended(rules: seq<Rule>, rule: Rule, rd: Readings, score: real, level: string)
    requires rule in rules && Fires(rule, rd, score, level)
    ensures Recommendation(rule, Current(rule, rd, score)) in Fired(rules, rd, score, level)
  {
    var init := rules[..|rules| - 1];
    assert rules == init + [rules[|rules| - 1]];
    if rule != rules[|rules| - 1] {
      FiringRuleRecommended(init, rule, rd, score, level);
    }
  }

  /** Over distinct rules, no rule is recommended twice. */
  lemma {:induction false} FiredDistinct(rules: seq<Rule>, rd: Readings, score: real, level: string)
    requires forall i, j :: 0 <= i < j < |rules| ==> rules[i] != rules[j]
    ensures DistinctBy(Fired(rules, rd, score, level), (x: Recommendation) => x.rule)
  {
    if rules != [] {
      var init, last := rules[..|rules| - 1], rules[|rules| - 1];
      FiredDistinct(init, rd, score, level);
      FiredFromRules(init, rd, score, level);
      assert last !in init;
      var before, tail := Fired(init, rd, score, level), Outcome(last, rd, score, level);
      var s := before + tail;
      forall i, j | 0 <= i < j < |s| ensures s[i].rule != s[j].rule {
        if j < |before| {
          assert s[i] == before[i] && s[j] == before[j];
        } else {
          assert s[i] == before[i] && s[i] in before;
          assert s[j] == tail[j - |before|];
        }
      }
    }
  }

  /** A rule's index in `AllRules`, which lists every rule but the fallback once. */
  function Ordinal(rule: Rule): nat
  {
    match rule
    case EnhanceCognitiveSkills => 0
    case ImproveWorkingMemory => 1
    case IncreaseProcessingSpeed => 2
    case DevelopMetacognition => 3
    case ImproveTimeManagement => 4
    case EnhanceAdaptability => 5
    case ImproveSleepQuality => 6
    case EnhanceFocus => 7
    case ReduceProcrastination => 8
    case ManageAnxiety => 9
    case SeekFacultySupport => 10
    case OptimizeLearningSpace => 11
    case IncreaseStudyTime => 12
    case OptimizeStudyMethods => 13
    case BuildFoundation => 14
    case MasterKeyConcepts => 15
    case PursueExcellence => 16
    case MaintainHabits => 17
  }

  lemma AllRulesDistinct()
    ensures forall i, j :: 0 <= i < j < |AllRules| ==> AllRules[i] != AllRules[j]
  {
    assert forall i :: 0 <= i < |AllRules| ==> Ordinal(AllRules[i]) == i;
  }

  /** Every rule but the fallback is checked. */
  lemma AllRulesComplete(rule: Rule)
    requires rule != MaintainHabits
    ensures rule in AllRules
  {
    assert AllRules[Ordinal(rule)] == rule;
  }

  /** A rule is recommended exactly when it fires; the fallback never fires. */
  lemma RecommendedIffFires(rule: Rule, rd: Readings, score: real, level: string)
    ensures (exists v :: Recommendation(rule, v) in Fired(AllRules, rd, score, level)) <==> Fires(rule, rd, score, level)
  {
    FiredFromRules(AllRules, rd, score, level);
    if Fires(rule, rd, score, level) {
      AllRulesComplete(rule);
      FiringRuleRecommended(AllRules, rule, rd, score, level);
    }
  }

  /** The study-hours alternatives exclude each other, and so do the performance-level ones. */
  lemma AlternativesExclusive(rd: Readings, score: real, level: string)
    ensures !(Fires(IncreaseStudyTime, rd, score, level) && Fires(OptimizeStudyMethods, rd, score, level))
    ensures forall a: Rule, b: Rule :: a.IsPerformanceRule() && b.IsPerformanceRule() && a != b ==>
      !(Fires(a, rd, score, level) && Fires(b, rd, score, level))
  {
  }

  /**
   * The list is never empty; the fallback appears exactly when no rule
   * fired, and then alone.
   */
  lemma FallbackOnlyWhenNothingFired(rd: Readings, score: real, level: string)
    ensures Recommend(rd, score, level) != []
    ensures (exists i :: 0 <= i < |Recommend(rd, score, level)| && Recommend(rd, score, level)[i].rule == MaintainHabits)
        <==> Fired(AllRules, rd, score, level) == []
    ensures Fired(AllRules, rd, score, level) == [] ==> Recommend(rd, score, level) == [Fallback(score)]
  {
    var fired := Fired(AllRules, rd, score, level);
    var out := Recommend(rd, score, level);
    FiredFromRules(AllRules, rd, score, level);
    if fired == [] {
      assert SortBy([Fallback(score)], Rank) == [Fallback(score)] by {
        assert [Fallback(score)][1..] == [];
      }
      assert out[0].rule == MaintainHabits;
    } else {
      assert multiset(out) == multiset(fired);
      forall i | 0 <= i < |out| ensures out[i].rule != MaintainHabits {
        assert out[i] in multiset(fired);
        assert Fires(out[i].rule, rd, score, level);
      }
    }
  }

  /**
   * The output is ordered high, then medium, then low; it holds exactly the
   * recommendations built, each once; and recommendations of equal priority
   * keep the order in which their rules were checked.
   */
  lemma RecommendationsSortedAndStable(rd: Readings, score: real, level: string)
    ensures var fired := Fired(AllRules, rd, score, level);
            var built := if fired == [] then [Fallback(score)] else fired;
            var out := Recommend(rd, score, level);
            && SortedBy(out, Rank)
            && multiset(out) == multiset(built)
            && (forall k :: WithKey(out, Rank, k) == WithKey(built, Rank, k))
            && DistinctBy(out, (x: Recommendation) => x.rule)
  {
    var fired := Fired(AllRules, rd, score, level);
    var built := if fired == [] then [Fallback(score)] else fired;
    SortBySorted(built, Rank);
    forall k {
      SortByStable(built, Rank, k);
    }
    AllRulesDistinct();
    FiredDistinct(AllRules, rd, score, level);
    SortByKeepsDistinct(built, Rank, (x: Recommendation) => x.rule);
  }

  /** Two different rules that both fire are not two alternatives of one rule. */
  lemma FiredPairNotAlternatives(a: Rule, b: Rule, rd: Readings, score: real, level: string)
    requires a != b && Fires(a, rd, score, level) && Fires(b, rd, score, level)
    ensures !(a.IsStudyRule() && b.IsStudyRule())
    ensures !(a.IsPerformanceRule() && b.IsPerformanceRule())
  {
    AlternativesExclusive(rd, score, level);
  }

  /** At most one study-hours recommendation and at most one performance-level one are made. */
  lemma AtMostOneStudyAndOnePerformance(rd: Readings, score: real, level: string)
    ensures var out := Recommend(rd, score, level);
            forall i, j :: 0 <= i < j < |out| ==>
              !(out[i].rule.IsStudyRule() && out[j].rule.IsStudyRule())
              && !(out[i].rule.IsPerformanceRule() && out[j].rule.IsPerformanceRule())
  {
    var fired := Fired(AllRules, rd, score, level);
    var built := if fired == [] then [Fallback(score)] else fired;
    var out := Recommend(rd, score, level);
    RecommendationsSortedAndStable(rd, score, level);
    FiredFromRules(AllRules, rd, score, level);
    forall i, j | 0 <= i < j < |out|
      ensures !(out[i].rule.IsStudyRule() && out[j].rule.IsStudyRule())
      ensures !(out[i].rule.IsPerformanceRule() && out[j].rule.IsPerformanceRule())
    {
      assert out[i] in multiset(built) && out[j] in multiset(built);
      assert out[i].rule != out[j].rule;
      if fired != [] {
        FiredPairNotAlternatives(out[i].rule, out[j].rule, rd, score, level);
      }
    }
  }
}
