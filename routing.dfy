/** The route of the risk-score endpoint: the fixed prefix followed by one
    non-empty path segment holding the mint address. */
module Routing {
  import opened Wrappers

  /** The path of the health-check endpoint. */
  const HEALTH_PATH: string := "/health"

  const RISK_SCORE_PREFIX: string := "/api/risk-score/"

  /** The mint captured from a path of the form `/api/risk-score/<mint>`,
      where `<mint>` is a non-empty segment without a slash; `None` for any
      other path. */
  function MatchRiskScore(path: string): (mint: Option<string>)
    ensures mint.Some? ==> RISK_SCORE_PREFIX + mint.value == path
    ensures mint.Some? ==> mint.value != "" && '/' !in mint.value
  {
    var n := |RISK_SCORE_PREFIX|;
    if n < |path| && path[..n] == RISK_SCORE_PREFIX && '/' !in path[n..] then
      assert RISK_SCORE_PREFIX + path[n..] == path;
      Some(path[n..])
    else
      None
  }

  /** Every path of that form matches, and captures exactly its last segment. */
  lemma MatchRiskScoreComplete(mint: string)
    requires mint != "" && '/' !in mint
    ensures MatchRiskScore(RISK_SCORE_PREFIX + mint) == Some(mint)
  {
    var path := RISK_SCORE_PREFIX + mint;
    assert path[..|RISK_SCORE_PREFIX|] == RISK_SCORE_PREFIX;
    assert path[|RISK_SCORE_PREFIX|..] == mint;
  }

  /** The prefix alone, a nested path and the health endpoint do not match. */
  lemma MatchRiskScoreRejects()
    ensures MatchRiskScore("/api/risk-score/") == None
    ensures MatchRiskScore("/api/risk-score/a/b") == None
    ensures MatchRiskScore(HEALTH_PATH) == None
  {
    var p := "/api/risk-score/a/b";
    assert p[|RISK_SCORE_PREFIX|..] == "a/b";
    assert '/' in "a/b";
  }
}
