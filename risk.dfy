/** The future-risk heuristic of `future_risk_dashboard` (app.py): the mean
    of glucose, BMI and age, bucketed at 100 and 150. */
module Risk {

  datatype Level = Low | Moderate | High

  /** The position of a level on the scale Low < Moderate < High. */
  function Rank(l: Level): (n: nat)
    ensures n <= 2
  {
    match l
    case Low => 0
    case Moderate => 1
    case High => 2
  }

  /** The exact string the risk page shows. */
  function LevelText(l: Level): (t: string)
  {
    match l
    case Low => "Low"
    case Moderate => "Moderate"
    case High => "High"
  }

  /** The risk score: the mean of the three values, which therefore lies
      between the smallest and the largest of them. */
  function RiskScore(glucose: real, bmi: real, age: real): (s: real)
    ensures 3.0 * s == glucose + bmi + age
    ensures (glucose <= s || bmi <= s || age <= s) && (glucose >= s || bmi >= s || age >= s)
  {
    (glucose + bmi + age) / 3.0
  }

  /** The bucket of a score: below 100 is Low, from 100 up to (not including)
      150 is Moderate, from 150 on is High. */
  function RiskLevel(score: real): (l: Level)
    ensures l == Low <==> score < 100.0
    ensures l == Moderate <==> 100.0 <= score < 150.0
    ensures l == High <==> score >= 150.0
  {
    if score < 100.0 then Low else if score < 150.0 then Moderate else High
  }

  /** A higher score never gives a lower level. */
  lemma RiskLevelMonotone(s1: real, s2: real)
    requires s1 <= s2
    ensures Rank(RiskLevel(s1)) <= Rank(RiskLevel(s2))
  {
  }

  /** The cut-points read on the sum of the three values: 300 and 450. */
  lemma LevelOfSum(glucose: real, bmi: real, age: real)
    ensures RiskLevel(RiskScore(glucose, bmi, age)) == Low <==> glucose + bmi + age < 300.0
    ensures RiskLevel(RiskScore(glucose, bmi, age)) == High <==> glucose + bmi + age >= 450.0
  {
  }

  /** The boundary cases: exactly 100 is Moderate, just under is Low, exactly 150 is High. */
  lemma BoundaryExamples()
    ensures RiskLevel(RiskScore(100.0, 100.0, 100.0)) == Moderate
    ensures RiskLevel(99.9) == Low
    ensures RiskLevel(150.0) == High
    ensures RiskLevel(RiskScore(150.0, 150.0, 150.0)) == High
  {
  }
}
