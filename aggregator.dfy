/** The risk aggregator: the weighted sum of a warning list, rounded and
    clamped to 500. The worker sums floating-point products; every
    multiplier is a multiple of 0.5, so the model keeps the sum exactly,
    both as a `real` (the source's formula) and in whole half-units. */
module Aggregator {
  import opened Tables
  import opened Normalizer

  /** The cap on the score. */
  const MAX_SCORE: nat := 500

  /** A base weight scaled by a severity multiplier. */
  function Weighted(baseWeight: nat, severityMultiplier: real): (x: real)
  {
    baseWeight as real * severityMultiplier
  }

  /** The weighted product of one warning. */
  function Product(w: Warning): (x: real)
    ensures x >= 0.0
    ensures w.code !in RISK_WEIGHTS ==> x == 0.0
  {
    Weighted(Weight(w.code), Multiplier(w.severity))
  }

  /** The same product counted in half-units. */
  function Contribution(w: Warning): (h: nat)
    ensures h <= 400
    ensures w.code !in RISK_WEIGHTS ==> h == 0
  {
    Weight(w.code) * HalfUnits(w.severity)
  }

  /** The half-unit contribution is exactly twice the product. */
  lemma ContributionExact(w: Warning)
    ensures Contribution(w) as real == 2.0 * Product(w)
  {
    HalfUnitsExact(w.severity);
  }

  /** The running total after the score loop: the sum of the products, in list order. */
  function RealTotal(ws: seq<Warning>): (t: real)
    ensures t >= 0.0
  {
    if ws == [] then 0.0 else Product(ws[0]) + RealTotal(ws[1..])
  }

  /** The same sum in half-units. */
  function SumHalves(ws: seq<Warning>): (h: nat)
    ensures h <= 400 * |ws|
  {
    if ws == [] then 0 else Contribution(ws[0]) + SumHalves(ws[1..])
  }

  lemma {:induction false} RealTotalAppend(a: seq<Warning>, b: seq<Warning>)
    ensures RealTotal(a + b) == RealTotal(a) + RealTotal(b)
    decreases |a|
  {
    if a == [] {
      assert a + b == b;
    } else {
      assert (a + b)[0] == a[0];
      assert (a + b)[1..] == a[1..] + b;
      RealTotalAppend(a[1..], b);
    }
  }

  lemma {:induction false} SumHalvesAppend(a: seq<Warning>, b: seq<Warning>)
    ensures SumHalves(a + b) == SumHalves(a) + SumHalves(b)
    decreases |a|
  {
    if a == [] {
      assert a + b == b;
    } else {
      assert (a + b)[0] == a[0];
      assert (a + b)[1..] == a[1..] + b;
      SumHalvesAppend(a[1..], b);
    }
  }

  /** One more warning adds its product to the running total. */
  lemma RealTotalSnoc(ws: seq<Warning>, i: nat)
    requires i < |ws|
    ensures RealTotal(ws[..i + 1]) == RealTotal(ws[..i]) + Product(ws[i])
  {
    assert ws[..i + 1] == ws[..i] + [ws[i]];
    RealTotalAppend(ws[..i], [ws[i]]);
    assert RealTotal([ws[i]]) == Product(ws[i]) by { assert [ws[i]][1..] == []; }
  }

  /** The half-unit sum is exactly twice the real-valued sum. */
  lemma {:induction false} SumHalvesExact(ws: seq<Warning>)
    ensures SumHalves(ws) as real == 2.0 * RealTotal(ws)
    decreases |ws|
  {
    if ws != [] {
      SumHalvesExact(ws[1..]);
      ContributionExact(ws[0]);
    }
  }

  /** `Math.round`: the floor of `x + 0.5`, the integer nearest to `x`, so a
      value halfway between two integers goes up. */
  function JsRound(x: real): (r: int)
    ensures x - 0.5 < r as real <= x + 0.5
  {
    (x + 0.5).Floor
  }

  /** JavaScript rounding of `h / 2`: the integer nearest to half of `h`, halves upward. */
  function RoundHalves(h: nat): (r: nat)
    ensures h <= 2 * r <= h + 1
    ensures r == JsRound(h as real / 2.0)
  {
    var r := (h + 1) / 2;
    assert h as real / 2.0 + 0.5 == r as real + ((h + 1) % 2) as real / 2.0;
    r
  }

  function Min(a: int, b: int): (m: int)
    ensures m <= a && m <= b && (m == a || m == b)
  {
    if a <= b then a else b
  }

  /** The risk score: the rounded total, capped at 500. */
  function Score(ws: seq<Warning>): (s: nat)
    ensures s <= MAX_SCORE
    ensures SumHalves(ws) < 2 * MAX_SCORE - 1 ==> SumHalves(ws) <= 2 * s <= SumHalves(ws) + 1
    ensures SumHalves(ws) >= 2 * MAX_SCORE - 1 ==> s == MAX_SCORE
  {
    Min(RoundHalves(SumHalves(ws)), MAX_SCORE)
  }

  /** The score is the source's formula: the rounded sum of
      weight times multiplier, clamped to 500. */
  lemma ScoreFormula(ws: seq<Warning>)
    ensures Score(ws) == Min(JsRound(RealTotal(ws)), MAX_SCORE)
  {
    SumHalvesExact(ws);
    assert SumHalves(ws) as real / 2.0 == RealTotal(ws);
  }

  /** Removing one element from a list takes its contribution out of the sum. */
  lemma {:induction false} SumHalvesRemove(b: seq<Warning>, j: nat)
    requires j < |b|
    ensures SumHalves(b) == Contribution(b[j]) + SumHalves(b[..j] + b[j + 1..])
    decreases j
  {
    var rest := b[..j] + b[j + 1..];
    if j == 0 {
      assert rest == b[1..];
    } else {
      SumHalvesRemove(b[1..], j - 1);
      assert rest[0] == b[0];
      assert rest[1..] == b[1..][..j - 1] + b[1..][j..];
    }
  }

  /** Taking element `j` out of a list takes one copy of it out of its multiset. */
  lemma MultisetRemove(b: seq<Warning>, j: nat)
    requires j < |b|
    ensures multiset(b[..j] + b[j + 1..]) == multiset(b) - multiset{b[j]}
  {
    assert b == b[..j] + [b[j]] + b[j + 1..];
    assert multiset(b) == multiset(b[..j]) + multiset{b[j]} + multiset(b[j + 1..]);
  }

  /** The sum does not depend on the order of the warnings. */
  lemma {:induction false} SumHalvesPermutation(a: seq<Warning>, b: seq<Warning>)
    requires multiset(a) == multiset(b)
    ensures SumHalves(a) == SumHalves(b)
    decreases |a|
  {
    if a == [] {
      assert |b| == |multiset(b)| == 0;
    } else {
      var x := a[0];
      assert x in multiset(b);
      var j :| 0 <= j < |b| && b[j] == x;
      MultisetRemove(b, j);
      assert a == [x] + a[1..];
      assert multiset(a[1..]) == multiset(a) - multiset{x};
      SumHalvesPermutation(a[1..], b[..j] + b[j + 1..]);
      SumHalvesRemove(b, j);
    }
  }

  /** Reordering the warnings does not change the score. */
  lemma ScorePermutation(a: seq<Warning>, b: seq<Warning>)
    requires multiset(a) == multiset(b)
    ensures Score(a) == Score(b)
  {
    SumHalvesPermutation(a, b);
  }

  /** Appending warnings never lowers the score. */
  lemma ScoreAppendMonotone(ws: seq<Warning>, more: seq<Warning>)
    ensures Score(ws) <= Score(ws + more)
  {
    SumHalvesAppend(ws, more);
  }

  /** A warning whose type the weight table does not list leaves the score as
      it is, wherever it stands and whatever its severity. */
  lemma UnknownTypeNeutral(a: seq<Warning>, w: Warning, b: seq<Warning>)
    requires w.code !in RISK_WEIGHTS
    ensures Score(a + [w] + b) == Score(a + b)
  {
    SumHalvesAppend(a + [w], b);
    SumHalvesAppend(a, [w]);
    SumHalvesAppend(a, b);
  }

  /** The score loop: accumulates the products in list order. */
  method TotalScore(warnings: seq<Warning>) returns (totalScore: real)
    ensures totalScore == RealTotal(warnings)
  {
    totalScore := 0.0;
    for i := 0 to |warnings|
      invariant totalScore == RealTotal(warnings[..i])
    {
      var warning := warnings[i];
      var baseWeight := Weight(warning.code);
      var severityMultiplier := Multiplier(warning.severity);
      RealTotalSnoc(warnings, i);
      totalScore := totalScore + Weighted(baseWeight, severityMultiplier);
    }
    assert warnings[..|warnings|] == warnings;
  }
}
