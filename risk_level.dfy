/** The three-band risk classifier of riskLevel.ts / riskLevel.js and its parameterised form. */
module RiskLevels {

  datatype RiskLevel = Low | Medium | High

  /** The order low < medium < high. */
  function Rank(l: RiskLevel): nat {
    match l
    case Low => 0
    case Medium => 1
    case High => 2
  }

  /**
   * Classification of `score` under the thresholds `medium` and `high`: a score
   * equal to a threshold belongs to that threshold's band. No relation between
   * the two thresholds is assumed; when `medium > high` the medium band is empty.
   */
  function Level(score: int, medium: int, high: int): (r: RiskLevel)
    ensures r == High <==> score >= high
    ensures r == Medium <==> medium <= score < high
    ensures r == Low <==> score < medium && score < high
  {
    if score >= high then High else if score >= medium then Medium else Low
  }

  /** `getRiskLevel` of riskLevel.ts: the thresholds 60 and 30 are written into it. */
  function GetRiskLevel(score: int): (r: RiskLevel) {
    if score >= 60 then High else if score >= 30 then Medium else Low
  }

  /** `getRiskLevel` of riskLevel.js, the CommonJS copy used by the legacy scorer. */
  function GetRiskLevelJs(score: int): (r: RiskLevel) {
    if score >= 60 then High
    else if score >= 30 then Medium
    else Low
  }

  /** The hard-coded classifier is the parameterised one at the default thresholds 30 / 60. */
  lemma GetRiskLevelIsDefaultLevel(score: int)
    ensures GetRiskLevel(score) == Level(score, 30, 60)
    ensures GetRiskLevel(score) == High <==> score >= 60
    ensures GetRiskLevel(score) == Medium <==> 30 <= score < 60
    ensures GetRiskLevel(score) == Low <==> score < 30
  {
  }

  /** The JavaScript and TypeScript copies agree on every integer. */
  lemma JsAgreesWithTs(score: int)
    ensures GetRiskLevelJs(score) == GetRiskLevel(score)
  {
  }

  /** The bands of riskLevel.js, as riskLevel.test.js checks them. */
  lemma GetRiskLevelJsBands(score: int)
    ensures score >= 60 ==> GetRiskLevelJs(score) == High
    ensures 30 <= score < 60 ==> GetRiskLevelJs(score) == Medium
    ensures score < 30 ==> GetRiskLevelJs(score) == Low
  {
  }

  /** Boundary scores fall into the upper band. */
  lemma DefaultBoundaries()
    ensures GetRiskLevel(29) == Low && GetRiskLevel(30) == Medium
    ensures GetRiskLevel(59) == Medium && GetRiskLevel(60) == High
    ensures GetRiskLevel(0) == Low && GetRiskLevel(100) == High
  {
  }

  /** A higher score never yields a lower level, for any thresholds. */
  lemma LevelMonotone(s1: int, s2: int, medium: int, high: int)
    requires s1 <= s2
    ensures Rank(Level(s1, medium, high)) <= Rank(Level(s2, medium, high))
  {
  }

  /** The boundary facts stated for every threshold pair. */
  lemma LevelAtThresholds(medium: int, high: int)
    ensures Level(high, medium, high) == High
    ensures Level(high - 1, medium, high) != High
    ensures Level(medium, medium, high) != Low
    ensures medium < high ==> Level(medium - 1, medium, high) == Low
  {
  }
}
