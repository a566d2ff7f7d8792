/**
 * The five-band risk level, the score ranges that select each band in
 * queries, and the level of a score counted in half points.
 */
module RiskLevels {
  import opened Wrappers

  datatype RiskLevel = Minimal | Low | Medium | High | Critical

  /** Position of a level from the least to the most severe. */
  function Rank(l: RiskLevel): nat
  {
    match l
    case Minimal => 0
    case Low => 1
    case Medium => 2
    case High => 3
    case Critical => 4
  }

  function LevelName(l: RiskLevel): string
  {
    match l
    case Minimal => "MINIMAL"
    case Low => "LOW"
    case Medium => "MEDIUM"
    case High => "HIGH"
    case Critical => "CRITICAL"
  }

  /** Reads a level name given in a request; anything else is not a level. */
  function ParseLevel(name: string): (r: Option<RiskLevel>)
    ensures r.Some? ==> LevelName(r.value) == name
  {
    if name == "MINIMAL" then Some(Minimal)
    else if name == "LOW" then Some(Low)
    else if name == "MEDIUM" then Some(Medium)
    else if name == "HIGH" then Some(High)
    else if name == "CRITICAL" then Some(Critical)
    else None
  }

  lemma ParseLevelName(l: RiskLevel)
    ensures ParseLevel(LevelName(l)) == Some(l)
  {
  }

  /** The service's `getRiskLevel`: closed lower bounds at 80, 60, 40 and 20. */
  function GetRiskLevel(score: int): RiskLevel
  {
    if score >= 80 then Critical
    else if score >= 60 then High
    else if score >= 40 then Medium
    else if score >= 20 then Low
    else Minimal
  }

  /** A higher score never gets a less severe level. */
  lemma RiskLevelMonotone(a: int, b: int)
    requires a <= b
    ensures Rank(GetRiskLevel(a)) <= Rank(GetRiskLevel(b))
  {
  }

  lemma RiskLevelBoundaries()
    ensures GetRiskLevel(80) == Critical && GetRiskLevel(79) == High
    ensures GetRiskLevel(60) == High && GetRiskLevel(59) == Medium
    ensures GetRiskLevel(40) == Medium && GetRiskLevel(39) == Low
    ensures GetRiskLevel(20) == Low && GetRiskLevel(19) == Minimal
  {
  }

  /** A score range of a query: `$gte` and `$lt`, each optional. */
  datatype ScoreRange = ScoreRange(gte: Option<int>, lt: Option<int>)

  predicate InRange(score: int, r: ScoreRange)
  {
    (r.gte.None? || score >= r.gte.value) && (r.lt.None? || score < r.lt.value)
  }

  /** The `scoreRanges` table used to select alerts of one level. */
  function RangeOf(l: RiskLevel): ScoreRange
  {
    match l
    case Critical => ScoreRange(Some(80), None)
    case High => ScoreRange(Some(60), Some(80))
    case Medium => ScoreRange(Some(40), Some(60))
    case Low => ScoreRange(Some(20), Some(40))
    case Minimal => ScoreRange(None, Some(20))
  }

  /**
   * The ranges partition the scores: a score lies in the range of a level
   * exactly when that level is the score's level.
   */
  lemma RangesPartitionScores(score: int, l: RiskLevel)
    ensures InRange(score, RangeOf(l)) <==> GetRiskLevel(score) == l
  {
  }

  /**
   * The level of a score held in half points (`h` is twice the score): the
   * floor of `h / 2` crosses each whole-number threshold exactly when `h / 2`
   * itself does, so this is `getRiskLevel` applied to the fractional score.
   */
  function LevelOfHalves(h: int): (l: RiskLevel)
    ensures l == Critical <==> h >= 160
    ensures l == High <==> 120 <= h < 160
    ensures l == Medium <==> 80 <= h < 120
    ensures l == Low <==> 40 <= h < 80
    ensures l == Minimal <==> h < 40
  {
    GetRiskLevel(h / 2)
  }

  lemma LevelOfHalvesOfWhole(score: int)
    ensures LevelOfHalves(2 * score) == GetRiskLevel(score)
  {
  }
}
