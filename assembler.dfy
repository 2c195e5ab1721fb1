/** The request pipeline of the risk-score endpoint: pick the provider's
    entries for the mint, normalize them, score them, classify the score and
    assemble the assessment. */
module Assembler {
  import opened Wrappers
  import opened Strings
  import opened Tables
  import opened Normalizer
  import opened Aggregator
  import opened Classifier
  import opened Routing

  /** The `warnings` member of the provider's JSON body: a map from mint to that
      mint's raw entries, or `None` when the body is null or has no
      `warnings` object. */
  type ShieldWarnings = Option<map<string, seq<RawEntry>>>

  /** What the provider answered: its HTTP status and its parsed body. */
  datatype ProviderReply = ProviderReply(status: int, warnings: ShieldWarnings)

  /** Why the assessment could not be produced. */
  datatype ProviderFailure =
    | FetchRejected(reason: string)  // the fetch itself threw
    | BadStatus(status: int)         // the provider answered with a non-2xx status

  /** The assessment returned to the caller. */
  datatype RiskAssessment = RiskAssessment(
    mint: string,
    score: nat,
    level: Level,
    warnings: seq<Warning>,
    timestamp: string)

  /** The outcome of one request. */
  datatype Response =
    | Preflight                        // the CORS answer to an OPTIONS request
    | Health(timestamp: string)        // the health check's `ok` status
    | Assessed(assessment: RiskAssessment)
    | Failed(failure: ProviderFailure, path: string)
    | NotFound(path: string)

  /** The reply counts as successful when its status is in the 2xx range. */
  predicate IsOk(status: int)
  {
    200 <= status <= 299
  }

  /** The entries listed under the mint, or none when the
      body has no entry for the mint. */
  function MintEntries(warnings: ShieldWarnings, mint: string): (entries: seq<RawEntry>)
    ensures warnings.Some? && mint in warnings.value ==> entries == warnings.value[mint]
    ensures warnings.None? || mint !in warnings.value ==> entries == []
  {
    if warnings.Some? && mint in warnings.value then warnings.value[mint] else []
  }

  /** The assessment of a mint from its raw entries; `timestamp` stands for the
      wall-clock time, which the model takes as a parameter. */
  function Assess(mint: string, entries: seq<RawEntry>, timestamp: string): (a: RiskAssessment)
    ensures a.mint == mint && a.timestamp == timestamp
    ensures a.warnings == Normalize(entries)
    ensures a.score <= MAX_SCORE
    ensures a.score == Min(JsRound(RealTotal(a.warnings)), MAX_SCORE)
    ensures a.level == LevelOf(a.score)
  {
    var warnings := Normalize(entries);
    ScoreFormula(warnings);
    RiskAssessment(mint, Score(warnings), LevelOf(Score(warnings)), warnings, timestamp)
  }

  /** Steps after the fetch: the ok check, the normalize loop, the score loop,
      the clamp and the level. */
  method HandleRiskScore(mint: string, fetched: Result<ProviderReply, string>, timestamp: string)
    returns (r: Result<RiskAssessment, ProviderFailure>)
    ensures fetched.Failure? ==> r == Failure(FetchRejected(fetched.error))
    ensures fetched.Success? && !IsOk(fetched.value.status) ==>
      r == Failure(BadStatus(fetched.value.status))
    ensures fetched.Success? && IsOk(fetched.value.status) ==>
      r == Success(Assess(mint, MintEntries(fetched.value.warnings, mint), timestamp))
  {
    if fetched.Failure? {
      return Failure(FetchRejected(fetched.error));
    }
    var response := fetched.value;
    if !IsOk(response.status) {
      return Failure(BadStatus(response.status));
    }
    var mintWarnings := MintEntries(response.warnings, mint);
    var warnings := NormalizeWarnings(mintWarnings);
    var totalScore := TotalScore(warnings);
    ScoreFormula(warnings);
    var riskScore: nat := Min(JsRound(totalScore), MAX_SCORE);
    var riskLevel := INFO;
    if riskScore >= CRITICAL_THRESHOLD {
      riskLevel := CRITICAL;
    } else if riskScore >= WARNING_THRESHOLD {
      riskLevel := WARNING;
    }
    r := Success(RiskAssessment(mint, riskScore, riskLevel, warnings, timestamp));
  }

  /** The request handler: an OPTIONS request gets the CORS preflight, the
      health path its status, the risk-score route an assessment or a
      failure, and any other path is not found. */
  method HandleRequest(httpMethod: string, path: string, fetched: Result<ProviderReply, string>,
                       timestamp: string)
    returns (response: Response)
    ensures response.Preflight? <==> httpMethod == "OPTIONS"
    ensures response.Health? <==> httpMethod != "OPTIONS" && path == HEALTH_PATH
    ensures response.Health? ==> response.timestamp == timestamp
    ensures response.NotFound? <==>
      httpMethod != "OPTIONS" && path != HEALTH_PATH && MatchRiskScore(path).None?
    ensures response.NotFound? ==> response.path == path
    ensures response.Assessed? || response.Failed? ==>
      httpMethod != "OPTIONS" && path != HEALTH_PATH && MatchRiskScore(path).Some?
    ensures response.Failed? ==> response.path == path
    ensures response.Assessed? ==>
      fetched.Success? && IsOk(fetched.value.status) &&
      RISK_SCORE_PREFIX + response.assessment.mint == path &&
      response.assessment == Assess(response.assessment.mint,
        MintEntries(fetched.value.warnings, response.assessment.mint), timestamp)
    ensures httpMethod != "OPTIONS" && MatchRiskScore(path).Some? ==>
      var mint := MatchRiskScore(path).value;
      (fetched.Failure? ==> response == Failed(FetchRejected(fetched.error), path)) &&
      (fetched.Success? && !IsOk(fetched.value.status) ==>
        response == Failed(BadStatus(fetched.value.status), path)) &&
      (fetched.Success? && IsOk(fetched.value.status) ==>
        response == Assessed(Assess(mint, MintEntries(fetched.value.warnings, mint), timestamp)))
  {
    if httpMethod == "OPTIONS" {
      return Preflight;
    }
    if path == HEALTH_PATH {
      return Health(timestamp);
    }
    var riskScoreMatch := MatchRiskScore(path);
    if riskScoreMatch.None? {
      return NotFound(path);
    }
    var mint := riskScoreMatch.value;
    var result := HandleRiskScore(mint, fetched, timestamp);
    if result.Failure? {
      return Failed(result.error, path);
    }
    response := Assessed(result.value);
  }

  /** A single typed entry gives one warning, and the score is its own
      rounded, clamped contribution. */
  lemma AssessSingle(mint: string, e: RawEntry, timestamp: string)
    requires HasType(e)
    ensures Assess(mint, [e], timestamp).warnings == [MakeWarning(e)]
    ensures Assess(mint, [e], timestamp).score ==
      Min(RoundHalves(Contribution(MakeWarning(e))), MAX_SCORE)
  {
    assert [e][1..] == [];
    assert Normalize([e]) == [MakeWarning(e)];
    assert [MakeWarning(e)][1..] == [];
    assert SumHalves([MakeWarning(e)]) == Contribution(MakeWarning(e));
  }

  // Worked examples: one request each, with the provider's answer written out.

  /** A token that cannot be sold: weight 100 at the critical tier gives 200. */
  lemma ScenarioNotSellable(e: RawEntry, timestamp: string)
    requires e == Entry(Some("NOT_SELLABLE"), None)
    ensures Assess("MINT1", [e], timestamp) ==
      RiskAssessment("MINT1", 200, CRITICAL,
        [Warning("NOT_SELLABLE", critical, "NOT_SELLABLE risk detected")], timestamp)
  {
    NotSellableWarning(e);
    AssessSingle("MINT1", e, timestamp);
  }

  /** A new listing: weight 10 at the lowest tier gives 10. */
  lemma ScenarioNewListing(e: RawEntry, timestamp: string)
    requires e == Entry(Some("NEW_LISTING"), None)
    ensures Assess("MINT2", [e], timestamp) ==
      RiskAssessment("MINT2", 10, INFO,
        [Warning("NEW_LISTING", info, "NEW_LISTING risk detected")], timestamp)
  {
    NewListingWarning(e);
    AssessSingle("MINT2", e, timestamp);
  }

  /** A body without an entry for the mint: no warnings, score 0, `INFO`. */
  lemma ScenarioNoWarnings(mint: string, timestamp: string)
    ensures Assess(mint, MintEntries(Some(map[]), mint), timestamp) ==
      RiskAssessment(mint, 0, INFO, [], timestamp)
  {
  }

  /** A type the weight table does not list scores 0. */
  lemma ScenarioUnknownType(e: RawEntry, timestamp: string)
    requires e == Entry(Some("FOO_BAR"), Some("odd"))
    ensures Assess("MINT3", [e], timestamp) ==
      RiskAssessment("MINT3", 0, INFO, [Warning("FOO_BAR", info, "odd")], timestamp)
  {
    UnknownTypeWarning(e);
    AssessSingle("MINT3", e, timestamp);
  }

  /** Entries with no type are skipped: a null entry, a missing type and an
      empty type leave only the last entry. */
  lemma ScenarioSkipsUntyped(e: RawEntry, timestamp: string)
    requires e == Entry(Some("NOT_SELLABLE"), Some("honeypot"))
    ensures Assess("MINT4", [Null, Entry(None, Some("x")), Entry(Some(""), None), e], timestamp).warnings ==
      [Warning("NOT_SELLABLE", critical, "honeypot")]
  {
    assert OccursAt("NOT_SELLABLE", "NOT_SELLABLE", 0);
    var untyped := [Null, Entry(None, Some("x")), Entry(Some(""), None)];
    NormalizeEmptyIff(untyped);
    NormalizeAppend(untyped, [e]);
    assert untyped + [e] == [Null, Entry(None, Some("x")), Entry(Some(""), None), e];
    assert Normalize([e]) == [MakeWarning(e)] by { assert [e][1..] == []; }
  }

  /** A freeze authority (warning tier, 70 x 1.5) and a mint authority
      (lowest tier, 50 x 1.0) give 155. */
  lemma ScenarioFreezeAndMint(freeze: RawEntry, mintAuthority: RawEntry, timestamp: string)
    requires freeze == Entry(Some("HAS_FREEZE_AUTHORITY"), None)
    requires mintAuthority == Entry(Some("HAS_MINT_AUTHORITY"), None)
    ensures Assess("MINT5", [freeze, mintAuthority], timestamp).score == 155
    ensures Assess("MINT5", [freeze, mintAuthority], timestamp).level == WARNING
  {
    FreezeAuthorityContribution(freeze);
    MintAuthorityContribution(mintAuthority);
    AssessPair("MINT5", freeze, mintAuthority, timestamp);
  }

  /** Two typed entries: the score is their two contributions, rounded and clamped. */
  lemma AssessPair(mint: string, a: RawEntry, b: RawEntry, timestamp: string)
    requires HasType(a) && HasType(b)
    ensures Assess(mint, [a, b], timestamp).score ==
      Min(RoundHalves(Contribution(MakeWarning(a)) + Contribution(MakeWarning(b))), MAX_SCORE)
  {
    var w1, w2 := MakeWarning(a), MakeWarning(b);
    assert Normalize([a, b]) == [w1, w2] by {
      assert [a, b][1..] == [b];
      assert [b][1..] == [];
    }
    assert SumHalves([w1, w2]) == Contribution(w1) + Contribution(w2) by {
      assert [w1, w2][1..] == [w2];
      assert [w2][1..] == [];
      assert SumHalves([w2]) == Contribution(w2);
    }
  }

  /** `NOT_SELLABLE` is critical: 100 x 2.0, or 400 half-units. */
  lemma NotSellableWarning(e: RawEntry)
    requires e == Entry(Some("NOT_SELLABLE"), None)
    ensures HasType(e)
    ensures MakeWarning(e) == Warning("NOT_SELLABLE", critical, "NOT_SELLABLE risk detected")
    ensures Contribution(MakeWarning(e)) == 400
  {
    var code := e.code.value;
    assert OccursAt(code, "NOT_SELLABLE", 0);
    DefaultMessageWarning(e, critical);
    ContributionOf(MakeWarning(e), 100, 4);
  }

  /** `NEW_LISTING` is in the lowest tier: 10 x 1.0, or 20 half-units. */
  lemma NewListingWarning(e: RawEntry)
    requires e == Entry(Some("NEW_LISTING"), None)
    ensures HasType(e)
    ensures MakeWarning(e) == Warning("NEW_LISTING", info, "NEW_LISTING risk detected")
    ensures Contribution(MakeWarning(e)) == 20
  {
    ListedInfoTypes(e.code.value);
    DefaultMessageWarning(e, info);
    ContributionOf(MakeWarning(e), 10, 2);
  }

  /** Two listed types that hold none of the three patterns: each lacks
      `B`, `P` and `Z`. */
  lemma ListedInfoTypes(code: string)
    requires code == "NEW_LISTING" || code == "HAS_MINT_AUTHORITY"
    ensures SeverityOf(code) == info
  {
    SeverityInfoByLetters(code, 'B', 'P', 'Z');
  }

  /** `FOO_BAR` is in the lowest tier and has no weight. */
  lemma UnknownTypeWarning(e: RawEntry)
    requires e == Entry(Some("FOO_BAR"), Some("odd"))
    ensures HasType(e)
    ensures MakeWarning(e) == Warning("FOO_BAR", info, "odd")
    ensures Contribution(MakeWarning(e)) == 0
  {
    SeverityInfoByLetters(e.code.value, 'N', 'P', 'Z');
    ContributionOf(MakeWarning(e), 0, 2);
  }

  /** A freeze authority is in the warning tier: 70 x 1.5, or 210 half-units. */
  lemma FreezeAuthorityContribution(e: RawEntry)
    requires e == Entry(Some("HAS_FREEZE_AUTHORITY"), None)
    ensures HasType(e) && Contribution(MakeWarning(e)) == 210
  {
    FreezeAuthorityIsWarning(e.code.value);
    ContributionOf(MakeWarning(e), 70, 3);
  }

  lemma FreezeAuthorityIsWarning(code: string)
    requires code == "HAS_FREEZE_AUTHORITY"
    ensures SeverityOf(code) == warning
  {
    ExcludesByChar(code, "NOT_SELLABLE", 'B');
    assert code[4..10] == "FREEZE";
    assert OccursAt(code, "FREEZE", 4);
  }

  /** A mint authority is in the lowest tier: 50 x 1.0, or 100 half-units. */
  lemma MintAuthorityContribution(e: RawEntry)
    requires e == Entry(Some("HAS_MINT_AUTHORITY"), None)
    ensures HasType(e) && Contribution(MakeWarning(e)) == 100
  {
    ListedInfoTypes(e.code.value);
    ContributionOf(MakeWarning(e), 50, 2);
  }

  /** The contribution from a known weight and tier. */
  lemma ContributionOf(w: Warning, weight: nat, halves: nat)
    requires Weight(w.code) == weight && HalfUnits(w.severity) == halves
    ensures Contribution(w) == weight * halves
  {
  }
}
