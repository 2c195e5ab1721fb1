/** The two fixed policy tables of the worker: the base weight of each
    warning type and the multiplier of each severity tier. */
module Tables {

  /** The three severity tiers. The constructor names are the strings the
      worker writes into each warning's `severity` field. */
  datatype Severity = critical | warning | info

  /** Base weight per warning type (`RISK_WEIGHTS`). */
  const RISK_WEIGHTS: map<string, nat> := map[
    "NOT_SELLABLE" := 100,
    "NON_TRANSFERABLE" := 90,
    "HAS_PERMANENT_DELEGATE" := 80,
    "HAS_FREEZE_AUTHORITY" := 70,
    "MUTABLE_TRANSFER_FEES" := 65,
    "SUSPICIOUS_DEV_ACTIVITY" := 60,
    "HIGH_SINGLE_OWNERSHIP" := 55,
    "SUSPICIOUS_TOP_HOLDER_ACTIVITY" := 55,
    "HAS_MINT_AUTHORITY" := 50,
    "HIGH_SUPPLY_CONCENTRATION" := 45,
    "VERY_LOW_TRADING_ACTIVITY" := 30,
    "LOW_LIQUIDITY" := 25,
    "NOT_VERIFIED" := 20,
    "LOW_ORGANIC_ACTIVITY" := 15,
    "NEW_LISTING" := 10
  ]

  /** Score multiplier per severity tier (`SEVERITY_MULTIPLIERS`). */
  const SEVERITY_MULTIPLIERS: map<Severity, real> := map[
    critical := 2.0,
    warning := 1.5,
    info := 1.0
  ]

  /** The weight of a type: the table's entry, 0 for a type it does not list. */
  function Weight(code: string): (w: nat)
    ensures w <= 100
    ensures code !in RISK_WEIGHTS ==> w == 0
    ensures code in RISK_WEIGHTS ==> w == RISK_WEIGHTS[code] && w > 0
  {
    if code in RISK_WEIGHTS then RISK_WEIGHTS[code] else 0
  }

  /** The multiplier of a tier, 1 for a tier the table lacks; every tier is
      in the table, so the default is never taken. */
  function Multiplier(s: Severity): (m: real)
    ensures m == 2.0 || m == 1.5 || m == 1.0
  {
    if s in SEVERITY_MULTIPLIERS then SEVERITY_MULTIPLIERS[s] else 1.0
  }

  /** The multiplier counted in half-units: every multiplier is a multiple of
      0.5, so twice the multiplier is a whole number. */
  function HalfUnits(s: Severity): (h: nat)
    ensures 2 <= h <= 4
  {
    match s
    case critical => 4
    case warning => 3
    case info => 2
  }

  /** The half-unit count is exactly twice the table's multiplier. */
  lemma HalfUnitsExact(s: Severity)
    ensures HalfUnits(s) as real == 2.0 * Multiplier(s)
  {
  }
}
