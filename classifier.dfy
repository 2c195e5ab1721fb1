/** The level classifier: fixed thresholds on the score. */
module Classifier {

  /** The three risk levels. The constructor names are the strings the
      worker writes into the assessment's `level` field. */
  datatype Level = INFO | WARNING | CRITICAL

  const CRITICAL_THRESHOLD: int := 200
  const WARNING_THRESHOLD: int := 100

  /** The level of a score: at least 200 is critical, at least 100 a
      warning, anything lower informational. */
  function LevelOf(score: int): (l: Level)
    ensures l == CRITICAL <==> score >= CRITICAL_THRESHOLD
    ensures l == WARNING <==> WARNING_THRESHOLD <= score < CRITICAL_THRESHOLD
    ensures l == INFO <==> score < WARNING_THRESHOLD
  {
    if score >= CRITICAL_THRESHOLD then CRITICAL
    else if score >= WARNING_THRESHOLD then WARNING
    else INFO
  }

  /** The order of the levels, lowest first. */
  function Rank(l: Level): (r: nat)
    ensures r <= 2
  {
    match l
    case INFO => 0
    case WARNING => 1
    case CRITICAL => 2
  }

  /** A higher score never gives a lower level. */
  lemma LevelMonotone(lower: int, higher: int)
    requires lower <= higher
    ensures Rank(LevelOf(lower)) <= Rank(LevelOf(higher))
  {
  }
}
