/**
  The training script (02_model_training.py): its own copies of the level and
  risk functions, the data frame it extends column by column and imputes in
  place, the seven label encoders, the feature-column list, the evaluation
  loop over three classifier families and the choice of the best of them by
  test accuracy.

  Reading the CSV, the stratified random split, fitting the classifiers and
  the weighted precision, recall and F1 are outside the model: the split is
  given, and fitting is a function parameter from a family and training data
  to a classifier.
 */
module Training {
  import opened Wrappers
  import opened Strings
  import opened LabelEncoding
  import Scoring
  import Inference

  type Severity = Scoring.Severity
  type Risk = Scoring.Risk

  // ---------------------------------------------------------------------
  // The script's copies of the scoring functions

  /** get_depression_level of the training script. */
  function DepressionLevel(score: int): (level: Severity)
    ensures level == Scoring.DepressionLevel(score)
  {
    if score <= 4 then Scoring.Minimal
    else if score <= 9 then Scoring.Mild
    else if score <= 14 then Scoring.Severity.Moderate
    else if score <= 19 then Scoring.ModeratelySevere
    else Scoring.Severe
  }

  /** get_anxiety_level of the training script. */
  function AnxietyLevel(score: int): (level: Severity)
    ensures level == Scoring.AnxietyLevel(score)
  {
    if score <= 4 then Scoring.Minimal
    else if score <= 9 then Scoring.Mild
    else if score <= 14 then Scoring.Severity.Moderate
    else Scoring.Severe
  }

  /** get_risk_level of the training script, by true division as written. */
  function RiskLevel(depScore: int, anxScore: int): (tier: Risk)
    ensures tier == Scoring.RiskLevel(depScore, anxScore)
  {
    var risk := (depScore + anxScore) as real / 2.0;
    if risk < 5.0 then Scoring.Low
    else if risk < 12.0 then Scoring.Risk.Moderate
    else Scoring.High
  }

  // ---------------------------------------------------------------------
  // Rows of the data set

  /**
    One row of the CSV. Sleep hours, physical activity and treatment may be
    missing (NaN) and are imputed; the script assumes the other columns are
    present.
   */
  datatype Record = Record(
    age: int,
    gender: string,
    depressionScore: int,
    anxietyScore: int,
    stressLevel: string,
    sleepHours: Option<real>,
    physicalActivity: Option<string>,
    chronicIllness: string,
    mentalHealthHistory: string,
    treatment: Option<string>,
    daysOfTreatment: int,
    workStatus: string)

  predicate Complete(r: Record) {
    r.sleepHours.Some? && r.physicalActivity.Some? && r.treatment.Some?
  }

  predicate AllComplete(records: seq<Record>) {
    forall i :: 0 <= i < |records| ==> Complete(records[i])
  }

  /** The columns other than the three imputed ones are equal. */
  predicate SameOtherColumns(r: Record, s: Record) {
    r.(sleepHours := None, physicalActivity := None, treatment := None)
      == s.(sleepHours := None, physicalActivity := None, treatment := None)
  }

  // ---------------------------------------------------------------------
  // Imputation (fillna)

  /** Sleep_Hours.fillna(fill). */
  function FillSleep(records: seq<Record>, fill: real): (filled: seq<Record>)
    ensures |filled| == |records|
    ensures forall i :: 0 <= i < |records| ==>
      && filled[i].sleepHours == (if records[i].sleepHours.None? then Some(fill) else records[i].sleepHours)
      && filled[i] == records[i].(sleepHours := filled[i].sleepHours)
  {
    seq(|records|, i requires 0 <= i < |records| =>
      if records[i].sleepHours.None? then records[i].(sleepHours := Some(fill)) else records[i])
  }

  /** Sleep_Hours holds no value in any row: its median is then NaN. */
  predicate NoSleepRecorded(records: seq<Record>) {
    forall i :: 0 <= i < |records| ==> records[i].sleepHours.None?
  }

  /**
    Line 60: Sleep_Hours.fillna(Sleep_Hours.median()), with the median taken
    as given. When no row records sleep the median is NaN, and filling with
    NaN leaves every entry missing.
   */
  function FillSleepWithMedian(records: seq<Record>, median: real): (filled: seq<Record>)
    ensures |filled| == |records|
    ensures NoSleepRecorded(filled) <==> NoSleepRecorded(records)
    ensures forall i :: 0 <= i < |records| ==>
      && (records[i].sleepHours.Some? ==> filled[i].sleepHours == records[i].sleepHours)
      && (records[i].sleepHours.None? ==>
            filled[i].sleepHours == (if NoSleepRecorded(records) then None else Some(median)))
      && filled[i] == records[i].(sleepHours := filled[i].sleepHours)
  {
    if NoSleepRecorded(records) then records else FillSleep(records, median)
  }

  /** Physical_Activity.fillna(fill). */
  function FillActivity(records: seq<Record>, fill: string): (filled: seq<Record>)
    ensures |filled| == |records|
    ensures forall i :: 0 <= i < |records| ==>
      && filled[i].physicalActivity
           == (if records[i].physicalActivity.None? then Some(fill) else records[i].physicalActivity)
      && filled[i] == records[i].(physicalActivity := filled[i].physicalActivity)
  {
    seq(|records|, i requires 0 <= i < |records| =>
      if records[i].physicalActivity.None? then records[i].(physicalActivity := Some(fill)) else records[i])
  }

  /** Treatment.fillna('None'). */
  function FillTreatment(records: seq<Record>): (filled: seq<Record>)
    ensures |filled| == |records|
    ensures forall i :: 0 <= i < |records| ==>
      && filled[i].treatment == (if records[i].treatment.None? then Some("None") else records[i].treatment)
      && filled[i] == records[i].(treatment := filled[i].treatment)
  {
    seq(|records|, i requires 0 <= i < |records| =>
      if records[i].treatment.None? then records[i].(treatment := Some("None")) else records[i])
  }

  /** Physical_Activity holds no value in any row: `mode()` is then empty. */
  predicate NoActivityRecorded(records: seq<Record>) {
    forall i :: 0 <= i < |records| ==> records[i].physicalActivity.None?
  }

  /** The rows whose Physical_Activity is `v`. */
  function RowsWith(records: seq<Record>, v: string): set<nat> {
    set i: nat | i < |records| && records[i].physicalActivity == Some(v)
  }

  /**
    The non-missing entries of Physical_Activity, in row order: each value as
    many times as rows hold it, which is what `mode()` counts.
   */
  function PresentActivities(records: seq<Record>): (values: seq<string>)
    ensures forall v :: v in values <==> exists i :: 0 <= i < |records| && records[i].physicalActivity == Some(v)
    ensures forall v {:trigger Count(values, v)} :: Count(values, v) == |RowsWith(records, v)|
    ensures |values| == 0 <==> NoActivityRecorded(records)
  {
    if |records| == 0 then
      assert forall v :: RowsWith(records, v) == {};
      []
    else
      var init := PresentActivities(records[..|records| - 1]);
      var last := records[|records| - 1];
      assert forall i :: 0 <= i < |records| - 1 ==> records[..|records| - 1][i] == records[i];
      var values := if last.physicalActivity.Some? then init + [last.physicalActivity.value] else init;
      forall v ensures Count(values, v) == |RowsWith(records, v)| {
        RowsWithSnoc(records, v);
        assert Count(init, v) == |RowsWith(records[..|records| - 1], v)|;
      }
      values
  }

  /** Helper for PresentActivities: the last row adds itself to the rows holding its value. */
  lemma RowsWithSnoc(records: seq<Record>, v: string)
    requires |records| > 0
    ensures var n := |records| - 1;
      |RowsWith(records, v)| == |RowsWith(records[..n], v)| + (if records[n].physicalActivity == Some(v) then 1 else 0)
  {
    var n := |records| - 1;
    var before := RowsWith(records[..n], v);
    assert n !in before;
    if records[n].physicalActivity == Some(v) {
      assert RowsWith(records, v) == before + {n};
    } else {
      assert RowsWith(records, v) == before;
    }
  }

  function Count(xs: seq<string>, v: string): nat {
    multiset(xs)[v]
  }

  /** `a` comes before `b` in Series.mode(): more frequent, or as frequent and smaller. */
  predicate Before(xs: seq<string>, a: string, b: string) {
    Count(xs, a) > Count(xs, b) || (Count(xs, a) == Count(xs, b) && Less(a, b))
  }

  /** `m` is the first value of Series.mode(): a most frequent value, the least of those in string order. */
  predicate IsMode(xs: seq<string>, m: string) {
    && m in xs
    && forall v :: v in xs ==>
         Count(xs, v) <= Count(xs, m) && (Count(xs, v) == Count(xs, m) ==> v == m || Less(m, v))
  }

  lemma BeforeTransitive(xs: seq<string>, a: string, b: string, c: string)
    requires Before(xs, a, b) && Before(xs, b, c)
    ensures Before(xs, a, c)
  {
    if Count(xs, a) == Count(xs, b) == Count(xs, c) {
      LessTransitive(a, b, c);
    }
  }

  /** The candidate that nothing comes before. */
  function Earliest(xs: seq<string>, candidates: seq<string>): (m: string)
    requires |candidates| > 0
    ensures m in candidates
    ensures forall v :: v in candidates ==> !Before(xs, v, m)
  {
    if |candidates| == 1 then
      LessIrreflexive(candidates[0]);
      candidates[0]
    else
      var rest := Earliest(xs, candidates[1..]);
      assert candidates == [candidates[0]] + candidates[1..];
      if Before(xs, candidates[0], rest) then
        EarliestStep(xs, candidates, rest);
        candidates[0]
      else
        rest
  }

  /** Helper for Earliest: a new head that comes before the best of the rest is the best of all. */
  lemma EarliestStep(xs: seq<string>, candidates: seq<string>, rest: string)
    requires |candidates| > 1 && Before(xs, candidates[0], rest)
    requires forall v :: v in candidates[1..] ==> !Before(xs, v, rest)
    ensures forall v :: v in candidates ==> !Before(xs, v, candidates[0])
  {
    LessIrreflexive(candidates[0]);
    forall v | v in candidates ensures !Before(xs, v, candidates[0]) {
      if v != candidates[0] {
        assert v in candidates[1..] by {
          var j :| 0 <= j < |candidates| && candidates[j] == v;
          assert candidates[1..][j - 1] == v;
        }
        if Before(xs, v, candidates[0]) {
          BeforeTransitive(xs, v, candidates[0], rest);
        }
      }
    }
  }

  /** Series.mode()[0] on a column with at least one value. */
  function Mode(xs: seq<string>): (m: string)
    requires |xs| > 0
    ensures IsMode(xs, m)
  {
    var m := Earliest(xs, xs);
    forall v | v in xs
      ensures Count(xs, v) <= Count(xs, m) && (Count(xs, v) == Count(xs, m) ==> v == m || Less(m, v))
    {
      LessTotal(v, m);
    }
    m
  }

  /**
    The three fillna lines. None where `mode()[0]` raises because the activity
    column holds no value at all. When the sleep column holds no value either,
    its median is NaN and the sleep entries stay missing.
   */
  function Impute(records: seq<Record>, sleepFill: real): (r: Option<seq<Record>>)
    ensures r.None? <==> NoActivityRecorded(records)
    ensures r.Some? ==> |r.value| == |records|
    ensures r.Some? ==> (AllComplete(r.value) <==> !NoSleepRecorded(records))
    ensures r.Some? ==> forall i :: 0 <= i < |records| ==>
      var (before, after) := (records[i], r.value[i]);
      && SameOtherColumns(before, after)
      && after.physicalActivity.Some? && after.treatment.Some?
      && (before.sleepHours.Some? ==> after.sleepHours == before.sleepHours)
      && (before.sleepHours.None? ==>
            after.sleepHours == (if NoSleepRecorded(records) then None else Some(sleepFill)))
      && (before.physicalActivity.Some? ==> after.physicalActivity == before.physicalActivity)
      && (before.physicalActivity.None? ==> IsMode(PresentActivities(records), after.physicalActivity.value))
      && (before.treatment.Some? ==> after.treatment == before.treatment)
      && (before.treatment.None? ==> after.treatment == Some("None"))
  {
    var slept := FillSleepWithMedian(records, sleepFill);
    assert PresentActivities(slept) == PresentActivities(records) by {
      PresentActivitiesOnlyReadActivity(slept, records);
    }
    var present := PresentActivities(slept);
    if |present| == 0 then
      None
    else
      var mode := Mode(present);
      var filled := FillTreatment(FillActivity(slept, mode));
      ImputedRows(records, sleepFill, mode, filled);
      assert NoSleepRecorded(records) ==> !Complete(filled[0]);
      Some(filled)
  }

  /** Helper for Impute: the three fills, row by row. */
  lemma ImputedRows(records: seq<Record>, sleepFill: real, mode: string, filled: seq<Record>)
    requires filled == FillTreatment(FillActivity(FillSleepWithMedian(records, sleepFill), mode))
    ensures |filled| == |records|
    ensures !NoSleepRecorded(records) ==> AllComplete(filled)
    ensures forall i :: 0 <= i < |records| ==>
      var (before, after) := (records[i], filled[i]);
      && SameOtherColumns(before, after)
      && after.physicalActivity.Some? && after.treatment.Some?
      && (before.sleepHours.Some? ==> after.sleepHours == before.sleepHours)
      && (before.sleepHours.None? ==>
            after.sleepHours == (if NoSleepRecorded(records) then None else Some(sleepFill)))
      && (before.physicalActivity.Some? ==> after.physicalActivity == before.physicalActivity)
      && (before.physicalActivity.None? ==> after.physicalActivity == Some(mode))
      && (before.treatment.Some? ==> after.treatment == before.treatment)
      && (before.treatment.None? ==> after.treatment == Some("None"))
  {
    var slept := FillSleepWithMedian(records, sleepFill);
    var active := FillActivity(slept, mode);
    forall i | 0 <= i < |records|
      ensures !NoSleepRecorded(records) ==> Complete(filled[i])
      ensures var (before, after) := (records[i], filled[i]);
        && SameOtherColumns(before, after)
        && after.physicalActivity.Some? && after.treatment.Some?
        && (before.sleepHours.Some? ==> after.sleepHours == before.sleepHours)
        && (before.sleepHours.None? ==>
              after.sleepHours == (if NoSleepRecorded(records) then None else Some(sleepFill)))
        && (before.physicalActivity.Some? ==> after.physicalActivity == before.physicalActivity)
        && (before.physicalActivity.None? ==> after.physicalActivity == Some(mode))
        && (before.treatment.Some? ==> after.treatment == before.treatment)
        && (before.treatment.None? ==> after.treatment == Some("None"))
    {
      assert slept[i] == records[i].(sleepHours := slept[i].sleepHours);
      assert active[i] == slept[i].(physicalActivity := active[i].physicalActivity);
      assert filled[i] == active[i].(treatment := filled[i].treatment);
    }
  }

  lemma {:induction false} PresentActivitiesOnlyReadActivity(a: seq<Record>, b: seq<Record>)
    requires |a| == |b|
    requires forall i :: 0 <= i < |a| ==> a[i].physicalActivity == b[i].physicalActivity
    ensures PresentActivities(a) == PresentActivities(b)
  {
    if |a| > 0 {
      PresentActivitiesOnlyReadActivity(a[..|a| - 1], b[..|b| - 1]);
    }
  }

  // ---------------------------------------------------------------------
  // Columns of the frame

  /** The columns of the frame: those of the CSV, and the `*_Encoded` columns the script adds. */
  datatype Column =
    | Age | Gender | DepressionScore | AnxietyScore | StressLevel | SleepHours | PhysicalActivity
    | ChronicIllness | MentalHealthHistory | Treatment | DaysOfTreatment | WorkStatus
    | Encoded(source: Column)
  {
    /** The column's header. */
    function Name(): string {
      match this
      case Age => "Age"
      case Gender => "Gender"
      case DepressionScore => "Depression_Score"
      case AnxietyScore => "Anxiety_Score"
      case StressLevel => "Stress_Level"
      case SleepHours => "Sleep_Hours"
      case PhysicalActivity => "Physical_Activity"
      case ChronicIllness => "Chronic_Illness"
      case MentalHealthHistory => "Mental_Health_History"
      case Treatment => "Treatment"
      case DaysOfTreatment => "Days_of_Treatment"
      case WorkStatus => "Work_Status"
      // The seven headers of lines 73-79, spelled out: they equal what the
      // last arm gives, and literals spare the verifier the concatenations.
      case Encoded(Gender) => "Gender_Encoded"
      case Encoded(StressLevel) => "Stress_Level_Encoded"
      case Encoded(PhysicalActivity) => "Physical_Activity_Encoded"
      case Encoded(ChronicIllness) => "Chronic_Illness_Encoded"
      case Encoded(MentalHealthHistory) => "Mental_Health_History_Encoded"
      case Encoded(Treatment) => "Treatment_Encoded"
      case Encoded(WorkStatus) => "Work_Status_Encoded"
      case Encoded(c) => c.Name() + "_Encoded"
    }
  }

  // ---------------------------------------------------------------------
  // Label encoding of the seven categorical columns

  /** The categorical columns, in the order of lines 73-79. */
  const CategoricalColumns: seq<Column> :=
    [Gender, StressLevel, PhysicalActivity, ChronicIllness, MentalHealthHistory, Treatment, WorkStatus]

  /** The text of a categorical column in a complete row. */
  function Text(r: Record, c: Column): string
    requires Complete(r) && c in CategoricalColumns
  {
    match c
    case Gender => r.gender
    case StressLevel => r.stressLevel
    case PhysicalActivity => r.physicalActivity.value
    case ChronicIllness => r.chronicIllness
    case MentalHealthHistory => r.mentalHealthHistory
    case Treatment => r.treatment.value
    case WorkStatus => r.workStatus
    case _ => ""
  }

  /** df[c] for a categorical column c. */
  function TextColumn(records: seq<Record>, c: Column): (column: seq<string>)
    requires AllComplete(records) && c in CategoricalColumns
    ensures |column| == |records|
    ensures forall i :: 0 <= i < |records| ==> column[i] == Text(records[i], c)
  {
    seq(|records|, i requires 0 <= i < |records| => Text(records[i], c))
  }

  /** The seven fitted encoders le_gender ... le_work, in column order. */
  function FitAll(records: seq<Record>): (encoders: seq<Encoder>)
    requires AllComplete(records)
    ensures |encoders| == |CategoricalColumns|
    ensures forall k :: 0 <= k < |CategoricalColumns| ==> encoders[k] == Fit(TextColumn(records, CategoricalColumns[k]))
  {
    seq(|CategoricalColumns|, k requires 0 <= k < |CategoricalColumns| =>
      Fit(TextColumn(records, CategoricalColumns[k])))
  }

  /** The codes fit_transform gives each categorical column, in column order. */
  function AllCodes(records: seq<Record>): (codes: seq<seq<nat>>)
    requires AllComplete(records)
    ensures |codes| == |CategoricalColumns|
    ensures forall k :: 0 <= k < |CategoricalColumns| ==>
      codes[k] == FitTransform(TextColumn(records, CategoricalColumns[k])).1
  {
    seq(|CategoricalColumns|, k requires 0 <= k < |CategoricalColumns| =>
      FitTransform(TextColumn(records, CategoricalColumns[k])).1)
  }

  /**
    A frame's columns with the seven `*_Encoded` columns of lines 73-79 added,
    one per categorical column, in that order.
   */
  function AddEncoded(columns: map<Column, seq<nat>>, codes: seq<seq<nat>>): (result: map<Column, seq<nat>>)
    requires |codes| == |CategoricalColumns|
    ensures forall k :: 0 <= k < |CategoricalColumns| ==>
      Encoded(CategoricalColumns[k]) in result && result[Encoded(CategoricalColumns[k])] == codes[k]
  {
    columns[Encoded(Gender) := codes[0]]
           [Encoded(StressLevel) := codes[1]]
           [Encoded(PhysicalActivity) := codes[2]]
           [Encoded(ChronicIllness) := codes[3]]
           [Encoded(MentalHealthHistory) := codes[4]]
           [Encoded(Treatment) := codes[5]]
           [Encoded(WorkStatus) := codes[6]]
  }

  /** Adding the encoded columns keeps every other column of the frame as it was. */
  lemma AddEncodedKeepsOthers(columns: map<Column, seq<nat>>, codes: seq<seq<nat>>, c: Column)
    requires |codes| == |CategoricalColumns|
    requires c in columns && !(c.Encoded? && c.source in CategoricalColumns)
    ensures c in AddEncoded(columns, codes) && AddEncoded(columns, codes)[c] == columns[c]
  {
  }

  /** Adding the encoded columns adds no column but the seven `*_Encoded` ones. */
  lemma AddEncodedAddsOnlyEncoded(columns: map<Column, seq<nat>>, codes: seq<seq<nat>>, c: Column)
    requires |codes| == |CategoricalColumns|
    requires c in AddEncoded(columns, codes) && c !in columns
    ensures c.Encoded? && c.source in CategoricalColumns
  {
  }

  /** The seven `*_Encoded` columns that lines 73-79 add to the frame. */
  function EncodedColumns(records: seq<Record>): map<Column, seq<nat>>
    requires AllComplete(records)
  {
    AddEncoded(map[], AllCodes(records))
  }

  /** Row `i` of the seven `*_Encoded` columns, in the order of lines 73-79. */
  function EncodedRow(records: seq<Record>, i: nat): (codes: seq<nat>)
    requires AllComplete(records) && i < |records|
    ensures |codes| == |CategoricalColumns|
    ensures forall k :: 0 <= k < |CategoricalColumns| ==>
      && Encoded(CategoricalColumns[k]) in EncodedColumns(records)
      && i < |EncodedColumns(records)[Encoded(CategoricalColumns[k])]|
      && codes[k] == EncodedColumns(records)[Encoded(CategoricalColumns[k])][i]
  {
    var all := AllCodes(records);
    assert forall k :: 0 <= k < |CategoricalColumns| ==> |all[k]| == |records|;
    seq(|CategoricalColumns|, k requires 0 <= k < |CategoricalColumns| => all[k][i])
  }

  /**
    The encoded columns hold, for each categorical column and each row, the
    index of the row's value in that column's encoder.
   */
  lemma EncodedColumnsAreCodes(records: seq<Record>, k: nat, i: nat)
    requires AllComplete(records) && k < |CategoricalColumns| && i < |records|
    ensures Encoded(CategoricalColumns[k]) in EncodedColumns(records)
    ensures var codes := EncodedColumns(records)[Encoded(CategoricalColumns[k])];
      && |codes| == |records|
      && Transform(FitAll(records)[k], Text(records[i], CategoricalColumns[k])) == Some(codes[i])
  {
  }

  // ---------------------------------------------------------------------
  // Feature selection

  /** feature_cols. */
  const FeatureCols: seq<Column> := [
    Age,
    Encoded(Gender),
    DepressionScore,
    AnxietyScore,
    Encoded(StressLevel),
    SleepHours,
    Encoded(PhysicalActivity),
    Encoded(ChronicIllness),
    Encoded(MentalHealthHistory),
    Encoded(Treatment),
    DaysOfTreatment,
    Encoded(WorkStatus)
  ]

  /** The numeric columns of the CSV that feature_cols uses as they are. */
  const NumericColumns: seq<Column> := [Age, DepressionScore, AnxietyScore, SleepHours, DaysOfTreatment]

  /**
    feature_cols names twelve distinct columns: the five numeric columns of the
    CSV and exactly the seven encoded columns of lines 73-79.
   */
  lemma FeatureColsShape()
    ensures |FeatureCols| == 12
    ensures forall i, j :: 0 <= i < j < |FeatureCols| ==> FeatureCols[i] != FeatureCols[j]
    ensures forall c :: c in FeatureCols <==>
      c in NumericColumns || (c.Encoded? && c.source in CategoricalColumns)
  {
  }

  /** feature_cols as the script spells it, the list lines 82-95 build and line 180 saves. */
  const FeatureColNames: seq<string> := [
    "Age", "Gender_Encoded", "Depression_Score", "Anxiety_Score", "Stress_Level_Encoded", "Sleep_Hours",
    "Physical_Activity_Encoded", "Chronic_Illness_Encoded", "Mental_Health_History_Encoded",
    "Treatment_Encoded", "Days_of_Treatment", "Work_Status_Encoded"]

  /** The twelve feature columns carry, in order, the header strings of feature_cols. */
  lemma FeatureColsNames()
    ensures |FeatureCols| == |FeatureColNames|
    ensures forall i :: 0 <= i < |FeatureCols| ==> FeatureCols[i].Name() == FeatureColNames[i]
  {
  }

  /** The twelve header strings of feature_cols are distinct. */
  lemma FeatureColNamesDistinct()
    ensures forall i, j :: 0 <= i < j < |FeatureColNames| ==> FeatureColNames[i] != FeatureColNames[j]
  {
  }

  /**
    The value of a column in row `i` as a float: a numeric column of the row,
    or an added encoded column; None for a column the frame does not have
    (KeyError). A text column and a missing sleep value also give None here,
    where pandas would put the text or NaN into X; neither reaches X, since
    feature_cols names no text column, and imputation fills every sleep value
    whenever the column holds at least one (Prepared stops otherwise).
   */
  function Cell(r: Record, i: nat, encoded: map<Column, seq<nat>>, c: Column): Option<real> {
    match c
    case Age => Some(r.age as real)
    case DepressionScore => Some(r.depressionScore as real)
    case AnxietyScore => Some(r.anxietyScore as real)
    case SleepHours => if r.sleepHours.Some? then Some(r.sleepHours.value) else None
    case DaysOfTreatment => Some(r.daysOfTreatment as real)
    case Encoded(_) => if c in encoded && i < |encoded[c]| then Some(encoded[c][i] as real) else None
    case _ => None
  }

  /** The cells of row `i` under the given columns, in that order. */
  function Select(r: Record, i: nat, encoded: map<Column, seq<nat>>, cols: seq<Column>): (row: Option<seq<real>>)
    ensures row.Some? <==> forall k :: 0 <= k < |cols| ==> Cell(r, i, encoded, cols[k]).Some?
    ensures row.Some? ==>
      && |row.value| == |cols|
      && forall k :: 0 <= k < |cols| ==> row.value[k] == Cell(r, i, encoded, cols[k]).value
  {
    if |cols| == 0 then Some([])
    else
      var v :- Cell(r, i, encoded, cols[0]);
      var rest :- Select(r, i, encoded, cols[1..]);
      assert forall k :: 1 <= k < |cols| ==> cols[1..][k - 1] == cols[k];
      Some([v] + rest)
  }

  /** X = df[feature_cols], or None when a column is missing. */
  function FeatureMatrix(records: seq<Record>, encoded: map<Column, seq<nat>>): (x: Option<seq<seq<real>>>)
    ensures x.Some? <==> forall i :: 0 <= i < |records| ==> Select(records[i], i, encoded, FeatureCols).Some?
    ensures x.Some? ==>
      && |x.value| == |records|
      && forall i :: 0 <= i < |records| ==> x.value[i] == Select(records[i], i, encoded, FeatureCols).value
  {
    if forall i :: 0 <= i < |records| ==> Select(records[i], i, encoded, FeatureCols).Some? then
      Some(seq(|records|, i requires 0 <= i < |records| => Select(records[i], i, encoded, FeatureCols).value))
    else
      None
  }

  /** Once the seven encoded columns exist, every feature column resolves on every complete row. */
  lemma FeatureMatrixAfterEncoding(records: seq<Record>)
    requires AllComplete(records)
    ensures FeatureMatrix(records, EncodedColumns(records)).Some?
  {
    var encoded := EncodedColumns(records);
    forall k | 0 <= k < |CategoricalColumns|
      ensures Encoded(CategoricalColumns[k]) in encoded && |encoded[Encoded(CategoricalColumns[k])]| == |records|
    {
      assert AllCodes(records)[k] == FitTransform(TextColumn(records, CategoricalColumns[k])).1;
    }
    FeatureMatrixResolves(records, encoded);
  }

  /** The frame has all seven `*_Encoded` columns, each with `n` rows. */
  predicate HasEncodedColumns(encoded: map<Column, seq<nat>>, n: nat) {
    forall k :: 0 <= k < |CategoricalColumns| ==>
      Encoded(CategoricalColumns[k]) in encoded && |encoded[Encoded(CategoricalColumns[k])]| == n
  }

  /** Helper: df[feature_cols] succeeds on complete rows once every encoded column has one code per row. */
  lemma FeatureMatrixResolves(records: seq<Record>, encoded: map<Column, seq<nat>>)
    requires AllComplete(records) && HasEncodedColumns(encoded, |records|)
    ensures FeatureMatrix(records, encoded).Some?
  {
    FeatureColsShape();
    forall i | 0 <= i < |records| ensures Select(records[i], i, encoded, FeatureCols).Some? {
      forall j | 0 <= j < |FeatureCols| ensures Cell(records[i], i, encoded, FeatureCols[j]).Some? {
        CellResolves(records[i], i, |records|, encoded, FeatureCols[j]);
      }
    }
  }

  /** Helper: one feature column of a complete row has a value once every encoded column reaches it. */
  lemma CellResolves(r: Record, i: nat, n: nat, encoded: map<Column, seq<nat>>, c: Column)
    requires Complete(r) && i < n && HasEncodedColumns(encoded, n)
    requires c in NumericColumns || (c.Encoded? && c.source in CategoricalColumns)
    ensures Cell(r, i, encoded, c).Some?
  {
    if c.Encoded? {
      var k :| 0 <= k < |CategoricalColumns| && CategoricalColumns[k] == c.source;
    }
  }

  // ---------------------------------------------------------------------
  // The data frame

  /** df, as the script extends and imputes it. */
  class Frame {
    var records: seq<Record>
    var depressionLevel: seq<Severity>
    var anxietyLevel: seq<Severity>
    var riskLevel: seq<Risk>
    var encoded: map<Column, seq<nat>>

    /** pd.read_csv: the raw rows, before any derived column exists. */
    constructor (records: seq<Record>)
      ensures this.records == records
      ensures depressionLevel == [] && anxietyLevel == [] && riskLevel == [] && encoded == map[]
    {
      this.records := records;
      depressionLevel, anxietyLevel, riskLevel := [], [], [];
      encoded := map[];
    }

    /** Lines 44-45 and 57: one label per row, each from that row's own scores. */
    method DeriveLabels()
      modifies this
      ensures records == old(records) && encoded == old(encoded)
      ensures |depressionLevel| == |anxietyLevel| == |riskLevel| == |records|
      ensures forall i :: 0 <= i < |records| ==>
        && depressionLevel[i] == DepressionLevel(records[i].depressionScore)
        && anxietyLevel[i] == AnxietyLevel(records[i].anxietyScore)
        && riskLevel[i] == RiskLevel(records[i].depressionScore, records[i].anxietyScore)
    {
      var rows := records;
      depressionLevel := seq(|rows|, i requires 0 <= i < |rows| => DepressionLevel(rows[i].depressionScore));
      anxietyLevel := seq(|rows|, i requires 0 <= i < |rows| => AnxietyLevel(rows[i].anxietyScore));
      riskLevel := seq(|rows|, i requires 0 <= i < |rows| => RiskLevel(rows[i].depressionScore, rows[i].anxietyScore));
    }

    /**
      Lines 60-62, in place. `sleepFill` is the column median, taken as given;
      it takes no effect when the sleep column holds no value (NaN median).
      When the activity column has no value at all, `mode()[0]` raises after
      the sleep column was already filled: `ok` is false and the frame keeps
      that state.
     */
    method FillMissing(sleepFill: real) returns (ok: bool)
      modifies this
      ensures depressionLevel == old(depressionLevel) && anxietyLevel == old(anxietyLevel)
      ensures riskLevel == old(riskLevel) && encoded == old(encoded)
      ensures ok <==> Impute(old(records), sleepFill).Some?
      ensures ok ==> records == Impute(old(records), sleepFill).value
      ensures !ok ==> records == FillSleepWithMedian(old(records), sleepFill)
    {
      records := FillSleepWithMedian(records, sleepFill);
      var present := PresentActivities(records);
      if |present| == 0 {
        return false;
      }
      records := FillActivity(records, Mode(present));
      records := FillTreatment(records);
      ok := true;
    }

    /**
      Lines 65-79: fit one encoder per categorical column (le_gender ...
      le_work) and add each column's codes to the frame as `*_Encoded`.
     */
    method EncodeCategoricals() returns (encoders: seq<Encoder>)
      requires AllComplete(records)
      modifies this
      ensures records == old(records) && depressionLevel == old(depressionLevel)
      ensures anxietyLevel == old(anxietyLevel) && riskLevel == old(riskLevel)
      ensures encoders == FitAll(records)
      ensures encoded == AddEncoded(old(encoded), AllCodes(records))
    {
      var rows := records;
      encoders := FitAll(rows);
      encoded := AddEncoded(encoded, AllCodes(rows));
    }

    /** X = df[feature_cols]. */
    function Features(): Option<seq<seq<real>>>
      reads this
    {
      FeatureMatrix(records, encoded)
    }
  }

  /** The keys of the saved `encoders` dict, in the order of lines 167-175. */
  const SavedKeys: seq<string> := ["gender", "stress", "activity", "illness", "history", "treatment", "work"]

  /** The `encoders` dict of lines 167-175. */
  function EncoderDict(encoders: seq<Encoder>): (dict: map<string, Encoder>)
    requires |encoders| == |SavedKeys|
    ensures forall key :: key in dict <==> key in SavedKeys
    ensures forall k :: 0 <= k < |SavedKeys| ==> SavedKeys[k] in dict && dict[SavedKeys[k]] == encoders[k]
  {
    map[
      "gender" := encoders[0],
      "stress" := encoders[1],
      "activity" := encoders[2],
      "illness" := encoders[3],
      "history" := encoders[4],
      "treatment" := encoders[5],
      "work" := encoders[6]
    ]
  }

  /** What lines 18-100 leave for the split: X, y_risk and the encoders dict. */
  datatype TrainingData = TrainingData(x: seq<seq<real>>, yRisk: seq<Risk>, encoders: map<string, Encoder>)

  /** Risk_Level of every row (line 57). */
  function RiskLabels(records: seq<Record>): (labels: seq<Risk>)
    ensures |labels| == |records|
    ensures forall i :: 0 <= i < |records| ==>
      labels[i] == Scoring.RiskLevel(records[i].depressionScore, records[i].anxietyScore)
  {
    seq(|records|, i requires 0 <= i < |records| => RiskLevel(records[i].depressionScore, records[i].anxietyScore))
  }

  /**
    What lines 18-100 compute from the raw rows: X, y_risk and the encoders.
    None where the script stops at `mode()[0]` because Physical_Activity holds
    no value at all, and None where Sleep_Hours holds no value: X then has a
    NaN column, which the first `model.fit` (line 123) rejects.
   */
  function Prepared(raw: seq<Record>, sleepFill: real): (data: Option<TrainingData>)
    ensures data.None? <==> NoActivityRecorded(raw) || NoSleepRecorded(raw)
    ensures data.Some? ==>
      var records := Impute(raw, sleepFill).value;
      FeatureMatrix(records, EncodedColumns(records)) == Some(data.value.x)
    ensures data.Some? ==> data.value.yRisk == RiskLabels(raw)
    ensures data.Some? ==> data.value.encoders == EncoderDict(FitAll(Impute(raw, sleepFill).value))
  {
    if NoActivityRecorded(raw) || NoSleepRecorded(raw) then None
    else
      ImputedComplete(raw, sleepFill);
      var records := Impute(raw, sleepFill).value;
      FeatureMatrixAfterEncoding(records);
      var x := FeatureMatrix(records, EncodedColumns(records)).value;
      Some(TrainingData(x, RiskLabels(raw), EncoderDict(FitAll(records))))
  }

  /** Helper for PrepareTrainingData: once both fills take effect, every imputed row is complete. */
  lemma ImputedComplete(raw: seq<Record>, sleepFill: real)
    requires Impute(raw, sleepFill).Some? && !NoSleepRecorded(raw)
    ensures AllComplete(Impute(raw, sleepFill).value)
  {
  }

  /** Lines 18-100 on the frame: read, label, impute, encode, select features. */
  method PrepareTrainingData(raw: seq<Record>, sleepFill: real) returns (data: Option<TrainingData>)
    ensures data == Prepared(raw, sleepFill)
  {
    var df := new Frame(raw);
    df.DeriveLabels();
    assert df.riskLevel == RiskLabels(raw);
    var ok := df.FillMissing(sleepFill);
    if !ok {
      return None;
    }
    if NoSleepRecorded(raw) {
      return None;
    }
    ImputedComplete(raw, sleepFill);
    var encoders := df.EncodeCategoricals();
    FeatureMatrixAfterEncoding(df.records);
    var x := df.Features();
    data := Some(TrainingData(x.value, df.riskLevel, EncoderDict(encoders)));
  }

  // ---------------------------------------------------------------------
  // Evaluation and model selection

  /** The positions where the prediction equals the true label. */
  function Agreeing(yTrue: seq<Risk>, yPred: seq<Risk>): set<nat>
    requires |yTrue| == |yPred|
  {
    set i: nat | i < |yTrue| && yTrue[i] == yPred[i]
  }

  /** The number of positions where the prediction equals the true label. */
  function Matches(yTrue: seq<Risk>, yPred: seq<Risk>): (n: nat)
    requires |yTrue| == |yPred|
    ensures n == |Agreeing(yTrue, yPred)|
    ensures n <= |yTrue|
    ensures n == |yTrue| <==> yTrue == yPred
    ensures n == 0 <==> forall i :: 0 <= i < |yTrue| ==> yTrue[i] != yPred[i]
  {
    if |yTrue| == 0 then
      assert Agreeing(yTrue, yPred) == {};
      0
    else
      var k := |yTrue| - 1;
      var rest := Matches(yTrue[..k], yPred[..k]);
      AgreeingSnoc(yTrue, yPred);
      assert forall i :: 0 <= i < k ==> yTrue[..k][i] == yTrue[i] && yPred[..k][i] == yPred[i];
      assert yTrue == yTrue[..k] + [yTrue[k]] && yPred == yPred[..k] + [yPred[k]];
      rest + (if yTrue[k] == yPred[k] then 1 else 0)
  }

  /** Helper for Matches: the last position adds itself when it agrees. */
  lemma AgreeingSnoc(yTrue: seq<Risk>, yPred: seq<Risk>)
    requires |yTrue| == |yPred| > 0
    ensures var k := |yTrue| - 1;
      |Agreeing(yTrue, yPred)| == |Agreeing(yTrue[..k], yPred[..k])| + (if yTrue[k] == yPred[k] then 1 else 0)
  {
    var k := |yTrue| - 1;
    var before := Agreeing(yTrue[..k], yPred[..k]);
    assert k !in before;
    if yTrue[k] == yPred[k] {
      assert Agreeing(yTrue, yPred) == before + {k};
    } else {
      assert Agreeing(yTrue, yPred) == before;
    }
  }

  /** accuracy_score: the fraction of matching positions. */
  function Accuracy(yTrue: seq<Risk>, yPred: seq<Risk>): (acc: real)
    requires |yTrue| == |yPred| > 0
    ensures acc * |yTrue| as real == |Agreeing(yTrue, yPred)| as real
    ensures 0.0 <= acc <= 1.0
    ensures acc == 1.0 <==> yTrue == yPred
    ensures acc == 0.0 <==> forall i :: 0 <= i < |yTrue| ==> yTrue[i] != yPred[i]
  {
    var (m, n) := (Matches(yTrue, yPred), |yTrue|);
    FractionBounds(m, n);
    m as real / n as real
  }

  /** Helper for Accuracy: m/n for 0 <= m <= n lies in [0, 1], at its ends exactly for m = 0 and m = n. */
  lemma FractionBounds(m: nat, n: nat)
    requires 0 < n && m <= n
    ensures 0.0 <= m as real / n as real <= 1.0
    ensures m as real / n as real == 1.0 <==> m == n
    ensures m as real / n as real == 0.0 <==> m == 0
  {
    var q := m as real / n as real;
    assert q * n as real == m as real;
  }

  /** model.predict(X), row by row. */
  function Predict(model: Inference.Classifier, x: seq<seq<real>>): (y: seq<Risk>)
    ensures |y| == |x| && forall i :: 0 <= i < |x| ==> y[i] == model(x[i])
  {
    seq(|x|, i requires 0 <= i < |x| => model(x[i]))
  }

  /** The three classifier families and their fixed hyperparameters. */
  datatype Family =
    | LogisticRegression(maxIter: nat, randomState: nat)
    | DecisionTree(randomState: nat, maxDepth: nat)
    | RandomForest(nEstimators: nat, randomState: nat, maxDepth: nat)

  /** The `models` dict of lines 110-114, in insertion order. */
  const Models: seq<(string, Family)> := [
    ("Logistic Regression", LogisticRegression(1000, 42)),
    ("Decision Tree", DecisionTree(42, 10)),
    ("Random Forest", RandomForest(100, 42, 15))
  ]

  /** Model names are dict keys, hence distinct. */
  predicate DistinctNames<T>(entries: seq<(string, T)>) {
    forall i, j :: 0 <= i < j < |entries| ==> entries[i].0 != entries[j].0
  }

  /** The two accuracies kept in `results`; precision, recall and F1 are not modelled. */
  datatype Evaluation = Evaluation(trainAccuracy: real, testAccuracy: real)

  /** The opaque library training: a family and training data give a classifier. */
  type Trainer = (Family, seq<seq<real>>, seq<Risk>) -> Inference.Classifier

  /** Lines 127-132: train and test accuracy of one fitted model. */
  function Evaluate(model: Inference.Classifier, xTrain: seq<seq<real>>, yTrain: seq<Risk>,
                    xTest: seq<seq<real>>, yTest: seq<Risk>): Evaluation
    requires |xTrain| == |yTrain| > 0 && |xTest| == |yTest| > 0
  {
    Evaluation(Accuracy(yTrain, Predict(model, xTrain)), Accuracy(yTest, Predict(model, xTest)))
  }

  /**
    Lines 116-149: train every family in order, record it in trained_models
    and its train and test accuracy in results.
   */
  method TrainModels(models: seq<(string, Family)>, fit: Trainer,
                     xTrain: seq<seq<real>>, yTrain: seq<Risk>, xTest: seq<seq<real>>, yTest: seq<Risk>)
    returns (results: seq<(string, Evaluation)>, trained: map<string, Inference.Classifier>)
    requires DistinctNames(models)
    requires |xTrain| == |yTrain| > 0 && |xTest| == |yTest| > 0
    ensures |results| == |models|
    ensures forall name :: name in trained <==> exists i :: 0 <= i < |models| && models[i].0 == name
    ensures forall i :: 0 <= i < |models| ==>
      var (name, family) := models[i];
      && results[i] == (name, Evaluate(fit(family, xTrain, yTrain), xTrain, yTrain, xTest, yTest))
      && trained[name] == fit(family, xTrain, yTrain)
  {
    results, trained := [], map[];
    for i := 0 to |models|
      invariant |results| == i
      invariant forall name :: name in trained <==> exists j :: 0 <= j < i && models[j].0 == name
      invariant forall j :: 0 <= j < i ==>
        var (name, family) := models[j];
        && results[j] == (name, Evaluate(fit(family, xTrain, yTrain), xTrain, yTrain, xTest, yTest))
        && trained[name] == fit(family, xTrain, yTrain)
    {
      var (name, family) := models[i];
      var model := fit(family, xTrain, yTrain);
      trained := trained[name := model];
      var trainAcc := Accuracy(yTrain, Predict(model, xTrain));
      var testAcc := Accuracy(yTest, Predict(model, xTest));
      results := results + [(name, Evaluation(trainAcc, testAcc))];
    }
  }

  /** Entry `best` has the highest test accuracy, and every earlier entry a strictly lower one. */
  predicate IsFirstBest(results: seq<(string, Evaluation)>, best: nat) {
    && best < |results|
    && (forall j :: 0 <= j < |results| ==> results[j].1.testAccuracy <= results[best].1.testAccuracy)
    && (forall j :: 0 <= j < best ==> results[j].1.testAccuracy < results[best].1.testAccuracy)
  }

  /** No other entry is also the first best: the choice is determined. */
  lemma FirstBestUnique(results: seq<(string, Evaluation)>, best: nat, other: nat)
    requires IsFirstBest(results, best) && other < |results| && other != best
    ensures !IsFirstBest(results, other)
  {
    if other < best {
      assert results[other].1.testAccuracy < results[best].1.testAccuracy;
    } else {
      assert results[other].1.testAccuracy <= results[best].1.testAccuracy;
    }
  }

  /**
    Line 152, `max(results, key=...)`: scan in insertion order and move on only
    for a strictly higher test accuracy, so the first maximum wins.
   */
  method SelectBest(results: seq<(string, Evaluation)>) returns (best: nat)
    requires |results| > 0
    ensures IsFirstBest(results, best)
  {
    best := 0;
    for i := 1 to |results|
      invariant best < i
      invariant forall j :: 0 <= j < i ==> results[j].1.testAccuracy <= results[best].1.testAccuracy
      invariant forall j :: 0 <= j < best ==> results[j].1.testAccuracy < results[best].1.testAccuracy
    {
      if results[i].1.testAccuracy > results[best].1.testAccuracy {
        best := i;
      }
    }
  }

  /**
    Lines 110-153: train the three families, pick the best by test accuracy
    (earliest on ties) and look it up in trained_models.
   */
  method TrainAndSelect(fit: Trainer, xTrain: seq<seq<real>>, yTrain: seq<Risk>,
                        xTest: seq<seq<real>>, yTest: seq<Risk>)
    returns (results: seq<(string, Evaluation)>, bestName: string, bestModel: Inference.Classifier)
    requires |xTrain| == |yTrain| > 0 && |xTest| == |yTest| > 0
    ensures |results| == |Models|
    ensures forall i :: 0 <= i < |Models| ==>
      results[i] == (Models[i].0, Evaluate(fit(Models[i].1, xTrain, yTrain), xTrain, yTrain, xTest, yTest))
    ensures exists b: nat :: IsFirstBest(results, b) && bestName == Models[b].0 && bestModel == fit(Models[b].1, xTrain, yTrain)
  {
    var trained;
    results, trained := TrainModels(Models, fit, xTrain, yTrain, xTest, yTest);
    var best := SelectBest(results);
    bestName := results[best].0;
    bestModel := trained[bestName];
  }

}
