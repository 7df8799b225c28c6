/**
  Severity banding and the rule-based risk tier of the application
  (app.py): the PHQ-9 bands of Kroenke, Spitzer & Williams (2001), the GAD-7
  bands of Spitzer et al. (2006), the threshold tables that state the same
  bands as inclusive ranges, and the risk rule on the mean of both totals.
 */
module Scoring {

  /** The severity labels both scales use; GAD-7 never yields ModeratelySevere. */
  datatype Severity = Minimal | Mild | Moderate | ModeratelySevere | Severe {
    /** The label string the application shows and stores. */
    function Name(): string {
      match this
      case Minimal => "Minimal"
      case Mild => "Mild"
      case Moderate => "Moderate"
      case ModeratelySevere => "Moderately Severe"
      case Severe => "Severe"
    }

    /** Position on the severity scale, used to state monotonicity. */
    function Rank(): nat {
      match this
      case Minimal => 0
      case Mild => 1
      case Moderate => 2
      case ModeratelySevere => 3
      case Severe => 4
    }
  }

  /** The coarse risk tier. */
  datatype Risk = Low | Moderate | High {
    function Name(): string {
      match this
      case Low => "Low"
      case Moderate => "Moderate"
      case High => "High"
    }

    function Rank(): nat {
      match this
      case Low => 0
      case Moderate => 1
      case High => 2
    }
  }

  /** An inclusive score range `(low, high)` as the threshold tables hold it. */
  type Band = (int, int)

  predicate InBand(score: int, band: Band) {
    band.0 <= score <= band.1
  }

  /** PHQ9_THRESHOLDS. */
  const Phq9Thresholds: map<Severity, Band> := map[
    Severity.Minimal := (0, 4),
    Severity.Mild := (5, 9),
    Severity.Moderate := (10, 14),
    Severity.ModeratelySevere := (15, 19),
    Severity.Severe := (20, 27)
  ]

  /** GAD7_THRESHOLDS. */
  const Gad7Thresholds: map<Severity, Band> := map[
    Severity.Minimal := (0, 4),
    Severity.Mild := (5, 9),
    Severity.Moderate := (10, 14),
    Severity.Severe := (15, 21)
  ]

  const Phq9Max := 27
  const Gad7Max := 21

  /**
    get_depression_level. No range check: a negative total falls into the
    first branch and anything above 27 into the last. On 0..27 the result is
    the band of PHQ9_THRESHOLDS that contains the score.
   */
  function DepressionLevel(score: int): (level: Severity)
    ensures 0 <= score <= Phq9Max ==> level in Phq9Thresholds && InBand(score, Phq9Thresholds[level])
    ensures score < 0 ==> level == Severity.Minimal
    ensures score > Phq9Max ==> level == Severity.Severe
  {
    if score <= 4 then Severity.Minimal
    else if score <= 9 then Severity.Mild
    else if score <= 14 then Severity.Moderate
    else if score <= 19 then Severity.ModeratelySevere
    else Severity.Severe
  }

  /** get_anxiety_level, likewise unchecked; on 0..21 it picks the GAD7_THRESHOLDS band. */
  function AnxietyLevel(score: int): (level: Severity)
    ensures level != Severity.ModeratelySevere
    ensures 0 <= score <= Gad7Max ==> level in Gad7Thresholds && InBand(score, Gad7Thresholds[level])
    ensures score < 0 ==> level == Severity.Minimal
    ensures score > Gad7Max ==> level == Severity.Severe
  {
    if score <= 4 then Severity.Minimal
    else if score <= 9 then Severity.Mild
    else if score <= 14 then Severity.Moderate
    else Severity.Severe
  }

  /**
    get_risk_level: the mean of the two totals, by true division, compared
    with 5 and 12. On integer totals this is a rule on their sum.
   */
  function RiskLevel(depScore: int, anxScore: int): (tier: Risk)
    ensures tier == Low <==> depScore + anxScore < 10
    ensures tier == Risk.Moderate <==> 10 <= depScore + anxScore < 24
    ensures tier == High <==> depScore + anxScore >= 24
  {
    var risk := (depScore + anxScore) as real / 2.0;
    if risk < 5.0 then Low
    else if risk < 12.0 then Risk.Moderate
    else High
  }

  /** The bands of a threshold table do not overlap. */
  predicate Disjoint(table: map<Severity, Band>) {
    forall k1, k2 :: k1 in table && k2 in table && k1 != k2 ==>
      table[k1].1 < table[k2].0 || table[k2].1 < table[k1].0
  }

  /** Some band of the table holds the score. */
  predicate Covered(table: map<Severity, Band>, score: int) {
    exists k :: k in table && InBand(score, table[k])
  }

  /** Every score in 0..max lies in some band of the table. */
  predicate Covers(table: map<Severity, Band>, max: int) {
    forall s :: 0 <= s <= max ==> Covered(table, s)
  }

  /** The PHQ-9 table partitions 0..27 and the function picks the one band holding the score. */
  lemma Phq9TableIsPartition(score: int, key: Severity)
    requires 0 <= score <= Phq9Max
    ensures Disjoint(Phq9Thresholds) && Covers(Phq9Thresholds, Phq9Max)
    ensures key in Phq9Thresholds && InBand(score, Phq9Thresholds[key]) <==> key == DepressionLevel(score)
  {
    Phq9BandsDisjoint();
    Phq9BandsCover();
  }

  lemma Phq9BandsDisjoint()
    ensures Disjoint(Phq9Thresholds)
  {
  }

  lemma Phq9BandsCover()
    ensures Covers(Phq9Thresholds, Phq9Max)
  {
    forall s | 0 <= s <= Phq9Max
      ensures Covered(Phq9Thresholds, s)
    {
      var k := DepressionLevel(s);
      assert k in Phq9Thresholds && InBand(s, Phq9Thresholds[k]);
    }
  }

  /** The GAD-7 table partitions 0..21 and the function picks the one band holding the score. */
  lemma Gad7TableIsPartition(score: int, key: Severity)
    requires 0 <= score <= Gad7Max
    ensures Disjoint(Gad7Thresholds) && Covers(Gad7Thresholds, Gad7Max)
    ensures key in Gad7Thresholds && InBand(score, Gad7Thresholds[key]) <==> key == AnxietyLevel(score)
  {
    Gad7BandsDisjoint();
    Gad7BandsCover();
  }

  lemma Gad7BandsDisjoint()
    ensures Disjoint(Gad7Thresholds)
  {
  }

  lemma Gad7BandsCover()
    ensures Covers(Gad7Thresholds, Gad7Max)
  {
    forall s | 0 <= s <= Gad7Max
      ensures Covered(Gad7Thresholds, s)
    {
      var k := AnxietyLevel(s);
      assert k in Gad7Thresholds && InBand(s, Gad7Thresholds[k]);
    }
  }

  lemma DepressionLevelMonotone(s: int, t: int)
    requires s <= t
    ensures DepressionLevel(s).Rank() <= DepressionLevel(t).Rank()
  {
  }

  lemma AnxietyLevelMonotone(s: int, t: int)
    requires s <= t
    ensures AnxietyLevel(s).Rank() <= AnxietyLevel(t).Rank()
  {
  }

  lemma RiskLevelSymmetric(depScore: int, anxScore: int)
    ensures RiskLevel(depScore, anxScore) == RiskLevel(anxScore, depScore)
  {
  }

  /** Raising either total never lowers the tier. */
  lemma RiskLevelMonotone(d: int, a: int, d': int, a': int)
    requires d <= d' && a <= a'
    ensures RiskLevel(d, a).Rank() <= RiskLevel(d', a').Rank()
  {
  }

  /** The label strings are distinct, so the datatypes stand for the strings one to one. */
  lemma NamesDistinct(x: Severity, y: Severity, u: Risk, v: Risk)
    ensures x.Name() == y.Name() ==> x == y
    ensures u.Name() == v.Name() ==> u == v
  {
  }

  /** Three worked examples: totals (2, 1), (12, 10) and (22, 18). */
  lemma WorkedExamples()
    ensures DepressionLevel(2) == Severity.Minimal && AnxietyLevel(1) == Severity.Minimal && RiskLevel(2, 1) == Low
    ensures DepressionLevel(12) == Severity.Moderate && AnxietyLevel(10) == Severity.Moderate
      && RiskLevel(12, 10) == Risk.Moderate
    ensures DepressionLevel(22) == Severity.Severe && AnxietyLevel(18) == Severity.Severe && RiskLevel(22, 18) == High
  {
  }
}
