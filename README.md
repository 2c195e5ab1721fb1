# Risk score of a Solana token, modelled in Dafny

The worker answers `GET /api/risk-score/<mint>`. It asks the Jupiter Shield
service for the token's warnings and turns them into an assessment in four steps:

1. **Normalize.** Keep each entry that has a non-empty `type`. Give it a
   severity tier by substring test. Use the provider's message, or the
   default "`<type> risk detected`".
2. **Sum.** Add up base weight times tier multiplier over the kept warnings.
3. **Round and cap.** Round the sum the way JavaScript does and cap it at 500.
4. **Classify.** A score of 200 or more is `CRITICAL`, 100 to 199 is
   `WARNING`, and anything lower is `INFO`.

The model has one module per step:

* `Tables`: the weight and multiplier tables.
* `Strings`: substring search.
* `Normalizer`: the normalize loop and its specification.
* `Aggregator`: the score loop, the rounding and the cap.
* `Classifier`: the level.
* `Routing`: the route pattern.
* `Assembler`: the request handler and the assessment record.

The two loops are methods, each proved equal to a function. In the source,
the sum is a floating-point number. The model keeps it as an exact `real`,
and also as an integer count of half-units (critical ×4, warning ×3, info ×2
per weight point). The two are proved to agree, and rounding and the cap are
stated on the integer form.

The model's claims are the contracts and lemmas in the `.dfy` files; the
table below says in words what each of them states.

## Model

| member | source | states |
|---|---|---|
| Tables.Weight | worker.js:2-25 | the weight of a listed type is its table entry, which is positive; an unlisted type weighs 0; no weight exceeds 100 |
| Tables.Multiplier | worker.js:28-32 | a tier's multiplier is 2.0, 1.5 or 1.0 |
| Tables.HalfUnitsExact | worker.js:28-32 | the half-unit count of a tier is exactly twice its multiplier |
| Strings.Includes | worker.js:103-104 | substring test: true exactly when the pattern occurs at some position of the string (the definition; ExcludesByChar and the scenario lemmas use it) |
| Strings.ExcludesByChar | worker.js:103-104 | a pattern holding a character the string lacks does not occur in the string |
| Normalizer.HasType | worker.js:101 | the entry is an object with a present, non-empty type; characterised by NormalizeEmptyIff and KeptIndices |
| Normalizer.SeverityOf | worker.js:103-104 | the tier of a type; characterised by SeverityTiers |
| Normalizer.SeverityTiers | worker.js:103-104 | critical exactly when the type holds NOT_SELLABLE; warning exactly when it lacks that but holds PERMANENT or FREEZE; info exactly when it holds none of the three |
| Normalizer.SeverityPriority | worker.js:103-104 | an example of the test order: the type NOT_SELLABLE_PERMANENT_FREEZE holds all three patterns and is critical |
| Normalizer.SeverityInfoByLetters | worker.js:103-104 | a type missing a letter from each of the three patterns is info |
| Normalizer.MessageOf | worker.js:109 | the message of a warning; characterised by MessageChoice |
| Normalizer.MessageChoice | worker.js:109 | a non-empty provider message is kept verbatim; otherwise the message is the type followed by " risk detected"; it is never empty |
| Normalizer.MakeWarning | worker.js:106-110 | the warning copies the type, carries the type's tier and the chosen message, and has non-empty type and message |
| Normalizer.DefaultMessageWarning | worker.js:106-110 | an entry without a message yields the warning with the default message |
| Normalizer.NormalizeEntry | worker.js:101-110 | a typed entry gives exactly one warning, an untyped one none |
| Normalizer.Normalize | worker.js:97-111 | no more warnings than entries, each with non-empty type and message |
| Normalizer.NormalizeAppend | worker.js:100-111 | normalizing two lists one after the other equals normalizing their concatenation, because entries are handled one at a time |
| Normalizer.KeptIndices | worker.js:101 | the positions kept are exactly the typed entries, in increasing order |
| Normalizer.NormalizeIndexed | worker.js:100-111 | the k-th warning is the warning made from the k-th typed entry, and the count matches |
| Normalizer.NormalizeEmptyIff | worker.js:101 | the result is empty exactly when no entry has a type |
| Normalizer.NormalizeWarnings | worker.js:97-111 | the loop, which skips untyped entries and pushes the rest, returns exactly Normalize of its input |
| Aggregator.Product | worker.js:116-118 | each term is non-negative, and 0 for a type the weight table lacks |
| Aggregator.Contribution | worker.js:116-118 | a term in half-units is at most 400, and 0 for a type the weight table lacks |
| Aggregator.ContributionExact | worker.js:116-118 | a term's half-unit count is exactly twice its real product |
| Aggregator.RealTotal | worker.js:114-119 | the exact sum of the products, never negative; related to the loop by TotalScore and to half-units by SumHalvesExact |
| Aggregator.SumHalves | worker.js:114-119 | the same sum in half-units, at most 400 per warning |
| Aggregator.RealTotalAppend | worker.js:114-119 | the total of a concatenation is the sum of the totals |
| Aggregator.SumHalvesAppend | worker.js:114-119 | the half-unit total of a concatenation is the sum of the half-unit totals |
| Aggregator.RealTotalSnoc | worker.js:118 | one more loop step adds exactly that warning's product |
| Aggregator.SumHalvesExact | worker.js:114-119 | the half-unit total is exactly twice the real total |
| Aggregator.TotalScore | worker.js:114-119 | the accumulating loop returns the sum of weight times multiplier over the warnings |
| Aggregator.JsRound | worker.js:121 | the integer r with x - 0.5 < r <= x + 0.5: the nearest integer, halves upward |
| Aggregator.RoundHalves | worker.js:121 | rounding half of h gives r with h <= 2r <= h+1, so halves round up, and r equals JavaScript rounding of h/2 |
| Aggregator.Min | worker.js:121 | the result is the smaller argument |
| Aggregator.Score | worker.js:121 | the score never exceeds 500; below the cap it is the half-unit total rounded half up, and at or above 999 half-units it is 500 |
| Aggregator.ScoreFormula | worker.js:114-121 | the score is the rounded real total capped at 500 |
| Aggregator.SumHalvesRemove | worker.js:115-119 | taking one warning out of the list takes its contribution out of the total |
| Aggregator.MultisetRemove | worker.js:115-119 | removing position j removes one copy of that element from the multiset |
| Aggregator.SumHalvesPermutation | worker.js:115-119 | the total does not depend on warning order |
| Aggregator.ScorePermutation | worker.js:114-121 | reordering the warnings leaves the score unchanged |
| Aggregator.ScoreAppendMonotone | worker.js:114-121 | more warnings never lower the score |
| Aggregator.UnknownTypeNeutral | worker.js:116 | a warning whose type the weight table lacks does not change the score |
| Classifier.LevelOf | worker.js:122-124 | CRITICAL exactly when the score is 200 or more; WARNING exactly from 100 to 199; INFO exactly below 100 |
| Classifier.LevelMonotone | worker.js:122-124 | a higher score never gets a lower level |
| Routing.MatchRiskScore | worker.js:74-76 | a match means the path is the prefix followed by the captured mint, and the mint is non-empty and has no slash |
| Routing.MatchRiskScoreComplete | worker.js:74-76 | every non-empty, slash-free mint after the prefix is matched and captured exactly |
| Routing.MatchRiskScoreRejects | worker.js:74 | the bare prefix, a two-segment tail and /health do not match |
| Assembler.IsOk | worker.js:89 | a status counts as successful when it is in the 2xx range (the definition; HandleRiskScore states its use) |
| Assembler.MintEntries | worker.js:98 | the mint's entries when the body lists the mint, else the empty list |
| Assembler.Assess | worker.js:97-131 | the assessment echoes the mint and the timestamp, holds the normalized warnings, has score min(round(total), 500) (at most 500), and has that score's level |
| Assembler.HandleRiskScore | worker.js:83-132 | a failed fetch and a non-2xx status each give their own failure; a 2xx reply gives exactly Assess of the mint's entries |
| Assembler.HandleRequest | worker.js:43-151 | an OPTIONS request gets exactly the preflight; otherwise /health gets exactly the health status with the timestamp; otherwise a path is not found exactly when the route does not match; on a matched path a rejected fetch and a non-2xx status give their own failure with the path, and a 2xx reply gives exactly Assess of the mint's entries |
| Assembler.AssessSingle | worker.js:97-131 | one typed entry gives one warning, and its contribution rounded and capped as the score |
| Assembler.AssessPair | worker.js:97-131 | two typed entries give their two contributions summed, rounded and capped as the score |
| Assembler.ScenarioNotSellable | worker.js:97-131 | NOT_SELLABLE without a message gives score 200, level CRITICAL and the default message |
| Assembler.ScenarioNewListing | worker.js:97-131 | NEW_LISTING without a message gives score 10 and level INFO |
| Assembler.ScenarioNoWarnings | worker.js:98 | a body without the mint gives no warnings, score 0 and level INFO |
| Assembler.ScenarioUnknownType | worker.js:97-131 | an unlisted type is kept with info tier and its own message, and scores 0 |
| Assembler.ScenarioSkipsUntyped | worker.js:101 | a null entry, a missing type and an empty type are all skipped |
| Assembler.ScenarioFreezeAndMint | worker.js:114-124 | HAS_FREEZE_AUTHORITY (70 × 1.5) plus HAS_MINT_AUTHORITY (50 × 1.0) gives 155, level WARNING |
| Assembler.NotSellableWarning | worker.js:103-118 | NOT_SELLABLE is critical, has the default message and contributes 400 half-units |
| Assembler.NewListingWarning | worker.js:103-118 | NEW_LISTING is info, has the default message and contributes 20 half-units |
| Assembler.ListedInfoTypes | worker.js:103-104 | NEW_LISTING and HAS_MINT_AUTHORITY hold none of the three patterns, so they are info |
| Assembler.UnknownTypeWarning | worker.js:103-118 | FOO_BAR is info, keeps its message and contributes 0 |
| Assembler.FreezeAuthorityContribution | worker.js:103-118 | HAS_FREEZE_AUTHORITY contributes 210 half-units |
| Assembler.FreezeAuthorityIsWarning | worker.js:103-104 | HAS_FREEZE_AUTHORITY lacks NOT_SELLABLE and holds FREEZE, so it is warning |
| Assembler.MintAuthorityContribution | worker.js:103-118 | HAS_MINT_AUTHORITY contributes 100 half-units |

## Left out

- Network I/O: the provider's reply (status and parsed body), or the reason the fetch failed, is a parameter of `HandleRiskScore`. The request URL, the `Accept` header and the JSON parsing are not modelled.
- The wall-clock time is a `timestamp` parameter.
- Logging, response headers (the CORS headers of the preflight and of every answer, cache control) and the `API_CONFIG` constants produce no value that the scoring depends on. The preflight and the health check are modelled by which response they give, not by their headers or bodies.
- The 404 response keeps only the path. The 500 response keeps the path and the reason: the fetch's rejection reason or the non-2xx status, in place of the error text. Its timestamp is left out, and so are errors thrown by the JSON parsing.
- JavaScript coercions are not modelled:
  - a `type` or `message` that is a non-string truthy value
  - a value other than an array under the mint key
  - a type equal to an inherited object property name such as `constructor`, which finds a function in the weight table
  Entries are either null or objects with optional string fields.
- Assembler.MintEntries: a mint equal to an inherited object property name (`constructor`, `toString`, `__proto__`) finds a non-iterable value in the source, so its loop throws and the worker answers 500; the model looks the mint up in a plain map and gives no entries, score 0 and INFO.
- Aggregator.TotalScore: the sum is exact, with no floating-point rounding error. Every term is a multiple of 0.5, so every partial sum is exact in a double as long as the total stays below 2^52.
- Tables.Multiplier: the fallback to 1 for a tier without an entry is modelled, but it is unreachable, because every tier is in the table.
- The source's `type` field is called `code` in the model, because `type` is a Dafny keyword.
