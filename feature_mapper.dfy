/**
 * `EnsemblePredictor.preprocess_input`: turns a client request into the one
 * row the trained models expect. Each camelCase field of a fixed table is
 * copied under its snake_case name, or replaced by a "balanced" default when
 * it is missing or `null`; `gender` and `academic_major` are label-encoded
 * (unseen labels become 0); the two binary fields are cast to `int`; every
 * trained column the table does not produce is filled with 0; and the row is
 * reordered to the trained column order.
 */
module FeatureMapper {
  import opened Wrappers
  import opened Values
  import Numeric

  /** A row, one value per trained column, in the trained column order. */
  type FeatureVector = seq<Value>

  /** A one-row frame: column name to value. */
  type Frame = map<string, Value>

  /** `LabelEncoder.classes_` for each encoded column. */
  type Encoders = map<string, seq<string>>

  /** `astype(int)` raised on a binary column. */
  datatype MapError = BinaryFieldNotInteger

  /** The client-name to dataset-name table, in the order the mapping visits it. */
  const FieldTable: seq<(string, string)> := [
    ("cognitiveAbility", "cognitive_ability"),
    ("workingMemory", "working_memory"),
    ("processingSpeed", "processing_speed"),
    ("verbalReasoning", "verbal_reasoning"),
    ("quantitativeReasoning", "quantitative_reasoning"),
    ("studyHoursDaily", "study_hours_daily"),
    ("attendanceRate", "attendance_rate"),
    ("homeworkCompletion", "homework_completion"),
    ("classParticipation", "class_participation"),
    ("assignmentQuality", "assignment_quality"),
    ("noteTakingQuality", "note_taking_quality"),
    ("studyConsistency", "study_consistency"),
    ("academicSelfEfficacy", "academic_self_efficacy"),
    ("metacognitionSkills", "metacognition_skills"),
    ("criticalThinking", "critical_thinking"),
    ("timeManagement", "time_management"),
    ("learningAdaptability", "learning_adaptability"),
    ("informationSynthesis", "information_synthesis"),
    ("sleepHours", "sleep_hours"),
    ("sleepQuality", "sleep_quality"),
    ("motivationLevel", "motivation_level"),
    ("stressManagement", "stress_management"),
    ("resilience", "resilience"),
    ("focusConcentration", "focus_concentration"),
    ("procrastinationTendency", "procrastination_tendency"),
    ("academicAnxiety", "academic_anxiety"),
    ("peerAcademicSupport", "peer_academic_support"),
    ("facultySupport", "faculty_support"),
    ("learningEnvironmentQuality", "learning_environment_quality"),
    ("technologyAccess", "technology_access"),
    ("financialStability", "financial_stability"),
    ("age", "age"),
    ("gender", "gender"),
    ("firstGeneration", "first_generation"),
    ("transferStudent", "transfer_student"),
    ("employmentHours", "employment_hours"),
    ("commuteTimeMinutes", "commute_time_minutes"),
    ("extracurricularHours", "extracurricular_hours"),
    ("academicMajor", "academic_major")
  ]

  /** The "balanced average student" defaults of `_get_balanced_default_value`. */
  const Defaults: map<string, Value> := map[
    "cognitive_ability" := Num(100.0),
    "working_memory" := Num(6.0),
    "processing_speed" := Num(6.0),
    "verbal_reasoning" := Num(6.0),
    "quantitative_reasoning" := Num(6.0),
    "study_hours_daily" := Num(4.5),
    "attendance_rate" := Num(80.0),
    "homework_completion" := Num(75.0),
    "class_participation" := Num(6.0),
    "assignment_quality" := Num(7.0),
    "note_taking_quality" := Num(6.0),
    "study_consistency" := Num(6.0),
    "academic_self_efficacy" := Num(7.0),
    "metacognition_skills" := Num(6.0),
    "critical_thinking" := Num(7.0),
    "time_management" := Num(6.0),
    "learning_adaptability" := Num(7.0),
    "information_synthesis" := Num(6.0),
    "sleep_hours" := Num(7.0),
    "sleep_quality" := Num(7.0),
    "motivation_level" := Num(7.0),
    "stress_management" := Num(6.0),
    "resilience" := Num(7.0),
    "focus_concentration" := Num(7.0),
    "procrastination_tendency" := Num(5.0),
    "academic_anxiety" := Num(4.0),
    "peer_academic_support" := Num(6.0),
    "faculty_support" := Num(6.0),
    "learning_environment_quality" := Num(7.0),
    "technology_access" := Num(8.0),
    "financial_stability" := Num(6.0),
    "age" := Num(20.0),
    "gender" := Text("Male"),
    "first_generation" := Num(0.0),
    "transfer_student" := Num(0.0),
    "employment_hours" := Num(10.0),
    "commute_time_minutes" := Num(25.0),
    "extracurricular_hours" := Num(5.0),
    "academic_major" := Text("STEM")
  ]

  const CategoricalColumns: seq<string> := ["gender", "academic_major"]

  const BinaryColumns: seq<string> := ["first_generation", "transfer_student"]

  /** `_get_balanced_default_value`: the listed default, or 0 for a name it does not list. */
  function BalancedDefault(field: string): (v: Value)
    ensures field in Defaults ==> v == Defaults[field]
    ensures field !in Defaults ==> v == Num(0.0)
  {
    if field in Defaults then Defaults[field] else Num(0.0)
  }

  /** The value one table entry contributes: the client's, unless missing or `null`. */
  function FieldValue(req: Request, entry: (string, string)): Value
  {
    if entry.0 in req && req[entry.0] != Null then req[entry.0] else BalancedDefault(entry.1)
  }

  /** The frame after the first `k` entries of `table` have been visited. */
  function RawFrame(table: seq<(string, string)>, req: Request, k: nat): Frame
    requires k <= |table|
  {
    if k == 0 then map[]
    else RawFrame(table, req, k - 1)[table[k - 1].1 := FieldValue(req, table[k - 1])]
  }

  /** The position of the first occurrence of `x` in `s`. */
  function IndexOf(s: seq<string>, x: string): (i: nat)
    requires x in s
    ensures i < |s| && s[i] == x
    ensures forall j :: 0 <= j < i ==> s[j] != x
  {
    if s[0] == x then 0 else 1 + IndexOf(s[1..], x)
  }

  /**
   * A fitted label encoder applied to one value: the label's code when it is
   * one of the encoder's classes, and the fallback code 0 otherwise (a
   * non-string value is never one of the string classes).
   */
  function EncodeLabel(classes: seq<string>, v: Value): (code: nat)
    ensures v.Text? && v.s in classes ==> code < |classes| && classes[code] == v.s
    ensures !(v.Text? && v.s in classes) ==> code == 0
  {
    if v.Text? && v.s in classes then IndexOf(classes, v.s) else 0
  }

  /** `astype(int)` on one cell: numbers truncate, booleans become 0 or 1, text raises. */
  function CastToInt(v: Value): (r: Option<Value>)
    ensures r.None? <==> v.Text? || v.Null?
    ensures v.Num? ==> r == Some(Num(Numeric.Trunc(v.x) as real))
    ensures v.Flag? ==> r == Some(Num(if v.b then 1.0 else 0.0))
  {
    match v
    case Num(x) => Some(Num(Numeric.Trunc(x) as real))
    case Flag(b) => Some(Num(if b then 1.0 else 0.0))
    case Null => None
    case Text(_) => None
  }

  /** The frame after label encoding of the categorical columns it holds and has an encoder for. */
  function Encoded(encoders: Encoders, m: Frame): Frame
  {
    map c | c in m :: if c in CategoricalColumns && c in encoders
                      then Num(EncodeLabel(encoders[c], m[c]) as real) else m[c]
  }

  /** The frame after the binary cast; fails when a binary cell is not a number or a boolean. */
  function CastBinary(m: Frame): Result<Frame, MapError>
  {
    if exists c :: c in BinaryColumns && c in m && CastToInt(m[c]).None? then
      Failure(BinaryFieldNotInteger)
    else
      Success(map c | c in m :: if c in BinaryColumns then CastToInt(m[c]).value else m[c])
  }

  /** Zero-fill of the trained columns the frame lacks, then selection in the trained order. */
  function Aligned(m: Frame, columns: seq<string>): (x: FeatureVector)
    ensures |x| == |columns|
  {
    seq(|columns|, i requires 0 <= i < |columns| => if columns[i] in m then m[columns[i]] else Num(0.0))
  }

  /** The whole mapping, as a function of the request and the fitted artefacts. */
  function MapRequest(encoders: Encoders, columns: seq<string>, req: Request): Result<FeatureVector, MapError>
  {
    match CastBinary(Encoded(encoders, RawFrame(FieldTable, req, |FieldTable|)))
    case Failure(e) => Failure(e)
    case Success(m) => Success(Aligned(m, columns))
  }

  /** The imperative mapping, step by step as the source performs it. */
  method Preprocess(encoders: Encoders, columns: seq<string>, req: Request) returns (r: Result<FeatureVector, MapError>)
    ensures r == MapRequest(encoders, columns, req)
  {
    var mapped := FillFromTable(FieldTable, req);
    mapped := EncodeCategoricals(encoders, mapped);
    var cast := CastBinaryColumns(mapped);
    if cast.Failure? {
      return Failure(cast.error);
    }
    mapped := ZeroFill(cast.value, columns);
    // Every trained column is now present, so the frame is reordered to them.
    r := Success(seq(|columns|, j requires 0 <= j < |columns| => mapped[columns[j]]));
    assert r.value == Aligned(cast.value, columns);
  }

  /** The loop over the field table, copying present non-null fields and defaulting the rest. */
  method FillFromTable(table: seq<(string, string)>, req: Request) returns (mapped: Frame)
    ensures mapped == RawFrame(table, req, |table|)
  {
    mapped := map[];
    var i := 0;
    while i < |table|
      invariant 0 <= i <= |table|
      invariant mapped == RawFrame(table, req, i)
    {
      var (external, field) := table[i];
      if external in req && req[external] != Null {
        mapped := mapped[field := req[external]];
      } else {
        mapped := mapped[field := BalancedDefault(field)];
      }
      i := i + 1;
    }
  }

  /** The loop label-encoding the categorical columns; an unseen label becomes 0. */
  method EncodeCategoricals(encoders: Encoders, raw: Frame) returns (mapped: Frame)
    ensures mapped == Encoded(encoders, raw)
  {
    mapped := raw;
    var k := 0;
    while k < |CategoricalColumns|
      invariant 0 <= k <= |CategoricalColumns|
      invariant mapped.Keys == raw.Keys
      invariant forall c :: c in mapped ==>
        mapped[c] == if c in CategoricalColumns[..k] && c in encoders
                     then Num(EncodeLabel(encoders[c], raw[c]) as real) else raw[c]
    {
      var col := CategoricalColumns[k];
      if col in encoders && col in mapped {
        if mapped[col].Text? && mapped[col].s in encoders[col] {
          mapped := mapped[col := Num(IndexOf(encoders[col], mapped[col].s) as real)];
        } else {
          mapped := mapped[col := Num(0.0)];
        }
      }
      k := k + 1;
    }
    assert CategoricalColumns[..k] == CategoricalColumns;
  }

  /** The loop casting the binary columns to integers; the first cell that cannot be cast raises. */
  method CastBinaryColumns(encoded: Frame) returns (r: Result<Frame, MapError>)
    ensures r == CastBinary(encoded)
  {
    var mapped := encoded;
    var k := 0;
    while k < |BinaryColumns|
      invariant 0 <= k <= |BinaryColumns|
      invariant mapped.Keys == encoded.Keys
      invariant forall j :: 0 <= j < k && BinaryColumns[j] in encoded ==> CastToInt(encoded[BinaryColumns[j]]).Some?
      invariant forall c :: c in mapped ==>
        mapped[c] == if c in BinaryColumns[..k] then CastToInt(encoded[c]).value else encoded[c]
    {
      var col := BinaryColumns[k];
      if col in mapped {
        var cell := CastToInt(mapped[col]);
        if cell.None? {
          assert col in BinaryColumns && col in encoded && CastToInt(encoded[col]).None?;
          return Failure(BinaryFieldNotInteger);
        }
        mapped := mapped[col := cell.value];
      }
      k := k + 1;
    }
    assert BinaryColumns[..k] == BinaryColumns;
    forall c | c in BinaryColumns && c in encoded
      ensures CastToInt(encoded[c]).Some?
    {
      assert c == BinaryColumns[0] || c == BinaryColumns[1];
    }
    assert !exists c :: c in BinaryColumns && c in encoded && CastToInt(encoded[c]).None?;
    assert mapped == map c | c in encoded :: if c in BinaryColumns then CastToInt(encoded[c]).value else encoded[c];
    r := Success(mapped);
  }

  /** The loop adding a 0 column for every trained column the frame lacks. */
  method ZeroFill(cast: Frame, columns: seq<string>) returns (mapped: Frame)
    ensures forall c :: c in mapped <==> c in cast || c in columns
    ensures forall j :: 0 <= j < |columns| ==>
      mapped[columns[j]] == if columns[j] in cast then cast[columns[j]] else Num(0.0)
  {
    mapped := cast;
    var k := 0;
    while k < |columns|
      invariant 0 <= k <= |columns|
      invariant forall c :: c in mapped <==> c in cast || c in columns[..k]
      invariant forall c :: c in cast ==> mapped[c] == cast[c]
      invariant forall c :: c in mapped && c !in cast ==> mapped[c] == Num(0.0)
    {
      if columns[k] !in mapped {
        mapped := mapped[columns[k] := Num(0.0)];
      }
      k := k + 1;
    }
    assert columns[..k] == columns;
  }

  /** The dataset names the table produces. */
  ghost function DatasetFields(): set<string>
  {
    set j | 0 <= j < |FieldTable| :: FieldTable[j].1
  }

  ghost predicate NamesDistinct(table: seq<(string, string)>)
  {
    forall i, j :: 0 <= i < j < |table| ==> table[i].1 != table[j].1
  }

  lemma FieldTableDistinctA()
    ensures forall i, j :: 0 <= i < 3 && i < j < |FieldTable| ==> FieldTable[i].1 != FieldTable[j].1
  {
  }

  lemma FieldTableDistinctA2()
    ensures forall i, j :: 3 <= i < 5 && i < j < |FieldTable| ==> FieldTable[i].1 != FieldTable[j].1
  {
  }

  lemma FieldTableDistinctB()
    ensures forall i, j :: 5 <= i < 11 && i < j < |FieldTable| ==> FieldTable[i].1 != FieldTable[j].1
  {
  }

  lemma FieldTableDistinctC()
    ensures forall i, j :: 11 <= i < 19 && i < j < |FieldTable| ==> FieldTable[i].1 != FieldTable[j].1
  {
  }

  lemma FieldTableDistinctD()
    ensures forall i, j :: 19 <= i < j < |FieldTable| ==> FieldTable[i].1 != FieldTable[j].1
  {
  }

  /** No dataset name occurs twice in the table, so no entry overwrites another. */
  lemma FieldTableDistinct()
    ensures NamesDistinct(FieldTable)
  {
    FieldTableDistinctA();
    FieldTableDistinctA2();
    FieldTableDistinctB();
    FieldTableDistinctC();
    FieldTableDistinctD();
  }

  lemma {:induction false} RawFrameKeys(table: seq<(string, string)>, req: Request, k: nat)
    requires k <= |table|
    ensures RawFrame(table, req, k).Keys == set j | 0 <= j < k :: table[j].1
  {
    if k > 0 {
      RawFrameKeys(table, req, k - 1);
    }
  }

  lemma {:induction false} RawFrameAt(table: seq<(string, string)>, req: Request, k: nat, j: nat)
    requires NamesDistinct(table)
    requires j < k <= |table|
    ensures table[j].1 in RawFrame(table, req, k)
    ensures RawFrame(table, req, k)[table[j].1] == FieldValue(req, table[j])
  {
    if j < k - 1 {
      RawFrameAt(table, req, k - 1, j);
    }
  }

  /** The frame before encoding holds, under each table field, the copied or defaulted value. */
  lemma FrameField(req: Request, j: nat)
    requires j < |FieldTable|
    ensures FieldTable[j].1 in RawFrame(FieldTable, req, |FieldTable|)
    ensures RawFrame(FieldTable, req, |FieldTable|)[FieldTable[j].1] == FieldValue(req, FieldTable[j])
  {
    FieldTableDistinct();
    RawFrameAt(FieldTable, req, |FieldTable|, j);
  }

  /** Every field of the table has a listed default, so the 0 fallback never applies to them. */
  lemma DefaultsCoverTable()
    ensures forall j :: 0 <= j < |FieldTable| ==> FieldTable[j].1 in Defaults
  {
  }

  /** Where the binary fields sit in the table, and their defaults. */
  lemma BinaryEntries()
    ensures FieldTable[33] == ("firstGeneration", "first_generation")
    ensures FieldTable[34] == ("transferStudent", "transfer_student")
    ensures BalancedDefault("first_generation") == Num(0.0)
    ensures BalancedDefault("transfer_student") == Num(0.0)
  {
  }

  /** The frame after encoding and casting, when casting succeeds. */
  ghost function CastFrame(encoders: Encoders, req: Request): Result<Frame, MapError>
  {
    CastBinary(Encoded(encoders, RawFrame(FieldTable, req, |FieldTable|)))
  }

  /**
   * A trained column that the table produces and that is neither encoded nor
   * cast holds the client's value, verbatim, when the field is present and not
   * null, and the field's balanced default otherwise.
   */
  lemma PlainFieldCopiedOrDefaulted(encoders: Encoders, columns: seq<string>, req: Request, i: nat, j: nat)
    requires MapRequest(encoders, columns, req).Success?
    requires i < |columns| && j < |FieldTable| && columns[i] == FieldTable[j].1
    requires columns[i] !in CategoricalColumns && columns[i] !in BinaryColumns
    ensures FieldTable[j].0 in req && req[FieldTable[j].0] != Null ==>
      MapRequest(encoders, columns, req).value[i] == req[FieldTable[j].0]
    ensures !(FieldTable[j].0 in req && req[FieldTable[j].0] != Null) ==>
      columns[i] in Defaults && MapRequest(encoders, columns, req).value[i] == Defaults[columns[i]]
  {
    FrameField(req, j);
    DefaultsCoverTable();
  }

  /**
   * `gender` and `academic_major` hold their encoder's code for the client's
   * (or default) label, 0 for a label the encoder never saw, and the raw
   * label when there is no encoder for them.
   */
  lemma CategoricalFieldEncoded(encoders: Encoders, columns: seq<string>, req: Request, i: nat, j: nat)
    requires MapRequest(encoders, columns, req).Success?
    requires i < |columns| && j < |FieldTable| && columns[i] == FieldTable[j].1
    requires columns[i] in CategoricalColumns
    ensures columns[i] in encoders ==>
      MapRequest(encoders, columns, req).value[i] == Num(EncodeLabel(encoders[columns[i]], FieldValue(req, FieldTable[j])) as real)
    ensures columns[i] !in encoders ==>
      MapRequest(encoders, columns, req).value[i] == FieldValue(req, FieldTable[j])
  {
    FrameField(req, j);
  }

  /** The binary fields hold the integer cast of the client's (or default) value. */
  lemma BinaryFieldCast(encoders: Encoders, columns: seq<string>, req: Request, i: nat, j: nat)
    requires MapRequest(encoders, columns, req).Success?
    requires i < |columns| && j < |FieldTable| && columns[i] == FieldTable[j].1
    requires columns[i] in BinaryColumns
    ensures CastToInt(FieldValue(req, FieldTable[j])).Some?
    ensures MapRequest(encoders, columns, req).value[i] == CastToInt(FieldValue(req, FieldTable[j])).value
  {
    FrameField(req, j);
  }

  /** A trained column the table does not produce is filled with 0. */
  lemma UntrainedColumnZero(encoders: Encoders, columns: seq<string>, req: Request, i: nat)
    requires MapRequest(encoders, columns, req).Success?
    requires i < |columns| && columns[i] !in DatasetFields()
    ensures MapRequest(encoders, columns, req).value[i] == Num(0.0)
  {
    RawFrameKeys(FieldTable, req, |FieldTable|);
  }

  /**
   * The generator's schema has three columns no client field maps to; a
   * model trained on it always sees 0 there.
   */
  lemma GeneratorOnlyColumnsZero(encoders: Encoders, columns: seq<string>, req: Request, i: nat)
    requires MapRequest(encoders, columns, req).Success?
    requires i < |columns| && columns[i] in ["academic_aptitude", "peer_support", "school_resources"]
    ensures MapRequest(encoders, columns, req).value[i] == Num(0.0)
  {
    assert columns[i] !in DatasetFields();
    UntrainedColumnZero(encoders, columns, req, i);
  }

  /**
   * Mapping fails exactly when a binary field is sent as text: missing and
   * null fields default, and label encoding never fails.
   */
  lemma MappingFailsOnlyOnTextBinary(encoders: Encoders, columns: seq<string>, req: Request)
    ensures MapRequest(encoders, columns, req).Failure? <==>
      ("firstGeneration" in req && req["firstGeneration"].Text?) ||
      ("transferStudent" in req && req["transferStudent"].Text?)
  {
    EncodedBinaryFields(encoders, req);
    var m := Encoded(encoders, RawFrame(FieldTable, req, |FieldTable|));
    var first, transfer := m["first_generation"], m["transfer_student"];
    assert CastToInt(first).None? <==> "firstGeneration" in req && req["firstGeneration"].Text?;
    assert CastToInt(transfer).None? <==> "transferStudent" in req && req["transferStudent"].Text?;
    CastBinaryFails(m);
  }

  /** The binary cast of a frame holding both binary columns fails exactly when one of them does not cast. */
  lemma CastBinaryFails(m: Frame)
    requires "first_generation" in m && "transfer_student" in m
    ensures CastBinary(m).Failure? <==>
      CastToInt(m["first_generation"]).None? || CastToInt(m["transfer_student"]).None?
  {
    assert forall c :: c in BinaryColumns <==> c == "first_generation" || c == "transfer_student";
  }

  /** The two binary columns of the encoded frame hold the request's values, or their defaults. */
  lemma EncodedBinaryFields(encoders: Encoders, req: Request)
    ensures var m := Encoded(encoders, RawFrame(FieldTable, req, |FieldTable|));
      && "first_generation" in m && m["first_generation"] == FieldValue(req, ("firstGeneration", "first_generation"))
      && "transfer_student" in m && m["transfer_student"] == FieldValue(req, ("transferStudent", "transfer_student"))
  {
    FrameField(req, 33);
    FrameField(req, 34);
    BinaryEntries();
  }

  /** A request with every field omitted maps without failure. */
  lemma EmptyRequestMaps(encoders: Encoders, columns: seq<string>)
    ensures MapRequest(encoders, columns, map[]).Success?
  {
    MappingFailsOnlyOnTextBinary(encoders, columns, map[]);
  }
}
