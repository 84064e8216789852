# G-Eval metric: a Dafny model

This project models the G-Eval metric of the `g-eval-nextjs` application. That metric uses a large language model as a judge to score a generated text against natural-language criteria. The model covers:

- the metric class `GEval`;
- the string utilities it uses;
- the shared metric helpers;
- the two prompt templates;
- the POST handler of the `/api/geval` endpoint, which builds a metric per request.

One measure (`aMeasure`) runs in these steps:

1. Check that the test case has every judged parameter.
2. Reset the evaluation cost.
3. Generate the evaluation steps with one judge call, unless steps are already cached. An empty list counts as cached.
4. Ask the judge for a 0–10 score and a reason, with the log-probabilities of the top 20 alternatives of each emitted token.
5. Outside strict mode, refine the raw score. Take the first emitted token that spells the raw score. Keep its alternatives whose probability is at least 0.01 and whose text is numeric. Sum their probabilities per integer key, and divide Σ key·p by Σ p.
   - If anything in the weighting throws, keep the raw score.
   - If no alternative survives, the score is NaN (0/0) and nothing is thrown.
6. If the log-probability call or the reading of its answer throws, make one plain call as a fallback.
7. Divide the score by 10. In strict mode, set it to 0 when it is below the threshold. Then set `success`, write the verbose logs, and answer with the score and the reason. An empty reason becomes "No reason provided".

The handler answers as follows:

- 400 when `name`, `input` or `actualOutput` is falsy.
- Otherwise it builds a test case whose optional fields default to `''`, and a parameter list that starts with input and actual output and adds each optional parameter whose field is truthy. It then measures with no cached steps and answers 200 with the score and the reason.
- 500 with the error's message, or "Unknown error", for anything thrown.

How the model is built:

- The judge and `JSON.parse` are foreign code, so they are the fields of an `Oracles` value, passed to each measure.
- The metric's mutable fields are fields of the class `GEvalMetric.GEval`.
- Every method of the class is proved against a function of the old state: `Measure`, `AfterCheck`, `AfterSteps`, `Evaluate` and `GenerateSteps`. The properties are lemmas about those functions.
- A ghost field, `judgeCalls`, records every judge call. This is what lets "no step-generation call" be stated.

Files, one module each:

| file | module | what it holds |
|---|---|---|
| js_runtime.dfy | JsRuntime | `null`/`undefined`, thrown values, numbers that may be NaN, `join`, decimal rendering, ASCII case |
| interfaces.dfy | Interfaces | the `LLMTestCaseParams` enumeration and the test-case shape |
| judge_model.dfy | JudgeModel | the judge's responses, the calls the metric issues, the oracles |
| js_number.dfy | JsNumber | `isNaN(Number(token))` and `parseInt(token, 10)` |
| utils.dfy | Utils | trimAndLoadJson, prettifyList, camelToSnake |
| metric_utils.dfy | MetricUtils | checkLLMTestCaseParams, processLLMTestCases, constructVerboseLogs |
| geval_template.dfy | GEvalTemplate | the two prompt templates and where their arguments land |
| weighted_score.dfy | WeightedScore | generateWeightedSummedScore |
| geval.dfy | GEvalMetric | the parameter list, the test-case text, step generation, `_aEvaluate`, `aMeasure`, the class |
| route.dfy | GEvalRoute | the POST handler |

## Model

| member | source | states |
|---|---|---|
| JsRuntime.Add | src/metrics/GEval.ts:163-168 | definition of `+` on numbers: NaN absorbs, otherwise the real sum |
| JsRuntime.Divide | src/metrics/GEval.ts:172 | definition of `/` as the weighting reaches it: `0 / 0` is NaN; a finite quotient only with a non-zero divisor, and then it is a / b |
| JsRuntime.IntToDecimal | src/metrics/GEval.ts:135 | `rawScore.toString()` for an integer: optional `-`, then decimal digits of the magnitude, with a leading `0` only for 0 itself |
| JsRuntime.IntToDecimalInjective | src/metrics/GEval.ts:135 | different integer scores are spelled by different token texts |
| JsRuntime.NatToDecimal | src/utils/utils.ts:30 | the 1-based index as decimal digits, non-empty, whose value is the number, with a leading `0` only for 0 |
| JsRuntime.AsciiToLower | src/utils/utils.ts:25 | definition of `toLowerCase` on one character: an upper-case ASCII letter becomes the lower-case letter at the same offset, every other character is kept |
| JsNumber.IsNumeric | src/metrics/GEval.ts:154 | definition of `!isNaN(Number(token))`; characterised by `DigitTokensAgree`, `ScoreTextKeysToScore`, `EmptyTokenDisagrees`, `FractionTokenTruncates`, `HexTokenKeysToZero` and `WordTokenIsNotNumeric` |
| JsNumber.ParseInt | src/metrics/GEval.ts:159 | definition of `parseInt(token, 10)`: sign, leading digits, NaN without any; characterised by `LeadingDigitsShape` and the same lemmas as `IsNumeric` |
| JsNumber.TrimStartShape | src/metrics/GEval.ts:154 | `Number` skips leading white space: what is dropped is all white space, and the suffix left does not start with white space |
| JsNumber.TrimEndShape | src/metrics/GEval.ts:154 | `Number` skips trailing white space: what is dropped is all white space, and the prefix left does not end with white space |
| JsNumber.LeadingDigitsShape | src/metrics/GEval.ts:159 | the digits `parseInt` reads are a prefix of digits followed by a non-digit or the end |
| JsNumber.DigitTokensAgree | src/metrics/GEval.ts:154-159 | on a non-empty digit string the numeric filter passes and the key is the string's value |
| JsNumber.ScoreTextKeysToScore | src/metrics/GEval.ts:135-159 | the token that spells an integer score is numeric and keys to that very score |
| JsNumber.EmptyTokenDisagrees | src/metrics/GEval.ts:154-159 | the empty token passes the filter (`Number("")` is 0) but has no integer key |
| JsNumber.FractionTokenTruncates | src/metrics/GEval.ts:154-159 | "7.5" passes the filter and keys to 7 |
| JsNumber.HexTokenKeysToZero | src/metrics/GEval.ts:154-159 | "0x10" passes the filter and keys to 0 |
| JsNumber.WordTokenIsNotNumeric | src/metrics/GEval.ts:154 | a word is filtered out |
| Utils.IndexOf | src/utils/utils.ts:7 | `indexOf`: -1 exactly when the character is absent, otherwise its first position |
| Utils.LastIndexOf | src/utils/utils.ts:8 | `lastIndexOf`: -1 exactly when the character is absent, otherwise its last position |
| Utils.ExtractJsonSpan | src/utils/utils.ts:6-14 | throws "Invalid JSON format" exactly when `{` or `}` is missing; otherwise the text from the first `{` to the last `}`, or empty when the last `}` comes first |
| Utils.TrimAndLoadJson | src/utils/utils.ts:6-16 | the missing-brace error, or `JSON.parse` of exactly that span |
| Utils.ExtractJsonSpanRoundTrip | src/utils/utils.ts:6-16 | a JSON object wrapped in prose with no `{` before it and no `}` after it is recovered exactly |
| Utils.ReversedBracesGiveEmptySpan | src/utils/utils.ts:14 | with the last `}` before the first `{`, the span is empty rather than an error |
| Utils.Split | src/utils/utils.ts:30 | `String.prototype.split` on one character, written here as a reference to read prettifyList back (it models no function of the source); its meaning is given by `SplitJoin` and `Utils.SplitNoSeparator`, its own contract says only that there is at least one piece |
| Utils.SplitNoSeparator | src/utils/utils.ts:30 | a text without the separator splits into itself alone |
| Utils.SplitJoin | src/utils/utils.ts:30 | splitting lines joined by a separator none of them contains gives the lines back |
| Utils.PrettifyList | src/utils/utils.ts:29-31 | definition of prettifyList; characterised by `PrettifyListLines` and `PrettifyListEmpty` |
| Utils.PrettifyListLines | src/utils/utils.ts:29-31 | n items without newlines give n lines, the i-th line reading `(i+1). item` |
| Utils.PrettifyListEmpty | src/utils/utils.ts:29-31 | the empty list renders as the empty string |
| Utils.LowerAll | src/utils/utils.ts:25 | definition of `toLowerCase` on ASCII: same length, each character through `AsciiToLower` |
| Utils.CamelToSnake | src/utils/utils.ts:24-26 | definition of camelToSnake; characterised by `ReplaceInsertsAtBoundaries`, `CamelToSnakeHasNoUpper`, `CamelToSnakeFixesLowerCase`, `CamelToSnakeIdempotent` and `CamelToSnakePair` |
| Utils.ReplaceInsertsAtBoundaries | src/utils/utils.ts:25 | the global regex replace equals inserting `_` at every lower/upper boundary and nowhere else |
| Utils.CamelToSnakeHasNoUpper | src/utils/utils.ts:24-26 | the result has no upper-case ASCII letter |
| Utils.CamelToSnakeFixesLowerCase | src/utils/utils.ts:24-26 | a name with no upper-case letter is unchanged |
| Utils.CamelToSnakeIdempotent | src/utils/utils.ts:24-26 | applying camelToSnake twice equals applying it once |
| Utils.CamelToSnakePair | src/utils/utils.ts:25 | a lower-case letter followed by an upper-case one gets `_` between them, and both are lower-cased |
| MetricUtils.FirstMissing | src/utils/metric-utils.ts:39-45 | none exactly when every required parameter is a key; otherwise a parameter at the first missing index |
| MetricUtils.CheckLLMTestCaseParams | src/utils/metric-utils.ts:39-45 | passes exactly when every required parameter is a key (an empty value passes); otherwise throws "Missing parameter: p" for the first missing one |
| MetricUtils.FirstMissingIsAt | src/utils/metric-utils.ts:39-45 | the parameter reported is the one at the first missing index |
| MetricUtils.Projection | src/utils/metric-utils.ts:17-22 | definition of one record of processLLMTestCases; `ProjectTestCase` is the loop proved equal to it |
| MetricUtils.ProjectTestCase | src/utils/metric-utils.ts:17-22 | the record's keys are exactly the listed parameters with a truthy value, each with its value |
| MetricUtils.ProcessLLMTestCases | src/utils/metric-utils.ts:15-24 | one record per test case, in order, each its projection |
| MetricUtils.ConstructVerboseLogs | src/utils/metric-utils.ts:27-36 | definition of constructVerboseLogs; characterised by `VerboseLogsOne`, `VerboseLogsTwo` and `VerboseLogsMany` |
| MetricUtils.VerboseLogsOne | src/utils/metric-utils.ts:27-36 | one item: "\n \n" then the item |
| MetricUtils.VerboseLogsTwo | src/utils/metric-utils.ts:27-36 | two items: only the final separator "\n \n" is between them |
| MetricUtils.VerboseLogsMany | src/utils/metric-utils.ts:27-36 | three or more items: separators " \n \n" except the final "\n \n" |
| GEvalTemplate.GenerateEvaluationSteps | src/utils/GEvalTemplate.ts:5-25 | definition of the step template; characterised by `StepsPromptLayout` and `StepsPromptInjective` |
| GEvalTemplate.GenerateEvaluationResults | src/utils/GEvalTemplate.ts:28-54 | definition of the scoring template; characterised by `ResultsPromptLayout` and `ResultsPromptInjective` |
| GEvalTemplate.PromptText | src/utils/GEvalTemplate.ts:5-54 | the text the judge reads: the named template filled with its arguments; used by `GEvalMetric.StepsTextLayout` |
| GEvalTemplate.SplicedLayout | src/utils/GEvalTemplate.ts:5-54 | in a template literal, each argument occurs at the offset given by the lengths of the pieces before it |
| GEvalTemplate.SplicedInjective | src/utils/GEvalTemplate.ts:5-54 | a filled template with fixed text determines its arguments once the first two lengths are known |
| GEvalTemplate.OccursSuffix | src/utils/GEvalTemplate.ts:11-12 | the heading that ends a fixed piece occurs right before the next argument |
| GEvalTemplate.HeadedLayout | src/utils/GEvalTemplate.ts:5-24 | the third fixed piece ending in a heading puts that heading directly before the last argument |
| GEvalTemplate.StepsPromptLayout | src/utils/GEvalTemplate.ts:5-24 | the step prompt holds `parameters` twice, then "Evaluation Criteria:" directly followed by `criteria`, in that order |
| GEvalTemplate.StepsPromptInjective | src/utils/GEvalTemplate.ts:5-24 | different arguments (of equal `parameters` length) give different step prompts; the template cannot fail |
| GEvalTemplate.ResultsPromptLayout | src/utils/GEvalTemplate.ts:28-54 | the scoring prompt holds `parameters`, then `evaluationSteps`, then `text`, each once and in that order |
| GEvalTemplate.ResultsPromptInjective | src/utils/GEvalTemplate.ts:28-54 | given the lengths of the steps and the parameters, the scoring prompt determines all three arguments |
| WeightedScore.WeightedScore | src/metrics/GEval.ts:145-172 | definition of the confidence-weighted score of one token's alternatives; characterised by `WeightedScoreIsMean`, `WeightedScoreBounds`, `NoSurvivorsGiveNaN` and `NaNKeyGivesNaN` |
| WeightedScore.Tabulate | src/metrics/GEval.ts:145-164 | definition of `tokenLinearProbability`; characterised by `TabulateShape` and `RecordHoldsKeyMass`, and computed by `TabulateAlternatives` |
| WeightedScore.Survivors | src/metrics/GEval.ts:149-156 | every counted alternative has probability at least 0.01 |
| WeightedScore.SurvivorsSnoc | src/metrics/GEval.ts:149-156 | one more alternative adds its entry exactly when it passes the floor and the numeric filter |
| WeightedScore.SurvivorOrigin | src/metrics/GEval.ts:149-164 | every counted entry comes from an alternative that passed the filter, with that alternative's key and probability |
| WeightedScore.CountedSurvives | src/metrics/GEval.ts:149-164 | no alternative that passes the filter is dropped |
| WeightedScore.NoSurvivorsIffEmpty | src/metrics/GEval.ts:149-164 | nothing is counted exactly when no alternative passes the filter |
| WeightedScore.SomeSurvivor | src/metrics/GEval.ts:149-164 | one alternative passing the filter leaves an entry |
| WeightedScore.AllKeysAreIntegers | src/metrics/GEval.ts:159 | when every counted alternative has an integer key, every entry does |
| WeightedScore.AccumulateKeys | src/metrics/GEval.ts:162 | one `record[key] = (record[key] \|\| 0) + p` adds exactly the key `key` |
| WeightedScore.AccumulateKeyMass | src/metrics/GEval.ts:162 | one addition grows the total of its key by p and no other key's |
| WeightedScore.AccumulateSum | src/metrics/GEval.ts:162-168 | one addition adds key·p to the weighted sum (summing, not overwriting) |
| WeightedScore.AccumulateDistinct | src/metrics/GEval.ts:162 | the record keeps each key once |
| WeightedScore.TermSplits | src/metrics/GEval.ts:162-168 | key·(a + b) is key·a + key·b, and a NaN key gives NaN on both sides |
| WeightedScore.TabulateShape | src/metrics/GEval.ts:145-169 | grouping the counted entries by key keeps the key set, each key's mass and the weighted sum, and leaves distinct keys |
| WeightedScore.RecordHoldsKeyMass | src/metrics/GEval.ts:145-164 | the record has one property per counted key, holding the total probability of that key |
| WeightedScore.DistinctEntryMass | src/metrics/GEval.ts:162 | with distinct keys, one property holds all the mass of its key |
| WeightedScore.MassBounds | src/metrics/GEval.ts:163 | the summed probability is non-negative, and at least 0.01 once anything is counted |
| WeightedScore.NoMassNoSum | src/metrics/GEval.ts:163-172 | with zero mass the weighted sum is 0 (so the division is 0/0) |
| WeightedScore.NoSurvivorsGiveNaN | src/metrics/GEval.ts:172 | no counted alternative: the score is NaN, not an error |
| WeightedScore.WeightedSumFinite | src/metrics/GEval.ts:166-169 | the weighted sum is finite exactly when every key is an integer |
| WeightedScore.NaNKeyGivesNaN | src/metrics/GEval.ts:154-172 | a counted alternative without an integer key (a token `""` or `.5`) makes the score NaN |
| WeightedScore.WeightedScoreIsMean | src/metrics/GEval.ts:145-172 | with something counted and every key an integer, the score is Σ key·p over Σ p, with Σ p > 0 |
| WeightedScore.WeightedScoreBounds | src/metrics/GEval.ts:145-172 | the score lies between the smallest and the largest counted key |
| WeightedScore.MeanBetween | src/metrics/GEval.ts:166-172 | keys within bounds and a positive mass give a mean within the bounds |
| WeightedScore.SumWithinBounds | src/metrics/GEval.ts:166-169 | keys in lo..hi give a weighted sum between lo·mass and hi·mass |
| WeightedScore.FirstMatch | src/metrics/GEval.ts:133-139 | none exactly when no token spells the text; otherwise the first position of a token that does |
| WeightedScore.FindScoreToken | src/metrics/GEval.ts:133-139 | the loop with its early `break` finds the first token spelling the score |
| WeightedScore.WeightedSummedScore | src/metrics/GEval.ts:124-177 | throws "Failed to generate weighted summed score" exactly when there are no log-probabilities or no token spells the raw score; otherwise the weighted score of the first such token |
| WeightedScore.TabulateAlternatives | src/metrics/GEval.ts:145-164 | the filter loop leaves the record of the counted entries and their summed probability |
| WeightedScore.SumTable | src/metrics/GEval.ts:166-169 | the `Object.entries` loop computes the weighted sum of the record |
| WeightedScore.GenerateWeightedSummedScore | src/metrics/GEval.ts:124-177 | the method's result is `WeightedSummedScore` of the raw score and the token list |
| GEvalMetric.ParamValues | src/metrics/GEval.ts:20 | definition of `llmTestCaseParams.map(param => param)`: the enumeration values, one per parameter, in order |
| GEvalMetric.ParamsString | src/metrics/GEval.ts:19-28 | definition of constructGEvalParamsString; characterised by `ParamsStringSingle`, `ParamsStringPair`, `ParamsStringTriple`, `ParamsStringMany`, `ParamsStringEmpty` and `ParamsStringNamesEach` |
| GEvalMetric.ParamsStringSingle | src/metrics/GEval.ts:21-22 | one parameter: its name |
| GEvalMetric.ParamsStringPair | src/metrics/GEval.ts:23-24 | two parameters: "a and b" |
| GEvalMetric.ParamsStringTriple | src/metrics/GEval.ts:25-27 | three parameters: "a, b, and c" |
| GEvalMetric.ParamsStringMany | src/metrics/GEval.ts:25-27 | three or more: all but the last joined by ", ", then ", and " and the last |
| GEvalMetric.ParamsStringEmpty | src/metrics/GEval.ts:25-27 | no parameters: ", and undefined" |
| GEvalMetric.JoinHolds | src/metrics/GEval.ts:24-26 | every item of a joined list occurs in the result |
| GEvalMetric.NamedInFront | src/metrics/GEval.ts:26 | a name before the last occurs in the ", "-joined front |
| GEvalMetric.NamedLast | src/metrics/GEval.ts:26 | the last name ends the text |
| GEvalMetric.ParamsStringNamesEach | src/metrics/GEval.ts:19-29 | every parameter listed is named in the parameter string |
| GEvalMetric.DisplayName | src/metrics/GEval.ts:10-16 | definition of G_EVAL_PARAMS; used by `FieldTextsSingle` |
| GEvalMetric.FieldText | src/metrics/GEval.ts:184 | definition of one parameter's block; characterised by `FieldTextsSingle` |
| GEvalMetric.FieldTexts | src/metrics/GEval.ts:182-185 | definition of the whole text; characterised by `FieldBlocks`, `FieldTextsAppend` and `FieldTextsOne`, and computed by `BuildFieldText` |
| GEvalMetric.FieldBlocks | src/metrics/GEval.ts:183-185 | definition of the text `_aEvaluate` builds: one block "Name:\nvalue \n\n" per parameter, in order |
| GEvalMetric.FieldTextsAppend | src/metrics/GEval.ts:183-185 | the text of a parameter list is the text of its parts, in order |
| GEvalMetric.FieldTextsOne | src/metrics/GEval.ts:184 | one parameter contributes its block |
| GEvalMetric.FieldTextsSingle | src/metrics/GEval.ts:10-16 | a present parameter contributes its display name, a newline, its value and " \n\n" |
| GEvalMetric.BuildFieldText | src/metrics/GEval.ts:182-185 | the `forEach` with `+=` builds the blocks of all parameters, in order |
| GEvalMetric.NumberEvaluationSteps | src/metrics/GEval.ts:228-230 | definition of `_numberEvaluationSteps`; characterised by `NumberedStepsArePrettified` |
| GEvalMetric.NumberedStepsArePrettified | src/metrics/GEval.ts:228-230 | the steps are numbered exactly as prettifyList numbers them |
| GEvalMetric.StepsPrompt | src/metrics/GEval.ts:112-113 | definition of the step prompt as built at this call; characterised by `StepsPromptSwapsArguments` and `StepsTextLayout` |
| GEvalMetric.GenerateSteps | src/metrics/GEval.ts:107-121 | definition of `_aGenerateEvaluationSteps` with its calls; characterised by `GenerateStepsCached` and `GenerateStepsUncached`, and computed by `GEval.AGenerateEvaluationSteps` |
| GEvalMetric.GenerateStepsCached | src/metrics/GEval.ts:108-110 | cached steps, even none, are returned with no judge call |
| GEvalMetric.GenerateStepsUncached | src/metrics/GEval.ts:111-121 | one call; a thrown call, an empty answer ("Failed to generate evaluation steps"), a missing brace and the parse each decide the result |
| GEvalMetric.StepsPromptSwapsArguments | src/metrics/GEval.ts:112-113 | as written, the criteria text fills both `parameters` slots and the parameter list fills the criteria slot after the heading |
| GEvalMetric.StepsTextLayout | src/utils/GEvalTemplate.ts:5-24 | where each argument of a step prompt lands in its text |
| GEvalMetric.ChooseScore | src/metrics/GEval.ts:205-217 | definition of the score picked from a read log-probability answer; characterised by the `ChooseScore*` lemmas, and computed by `GEval.PickScore` |
| GEvalMetric.ChooseScoreStrict | src/metrics/GEval.ts:205-207 | strict mode returns the raw score, with no weighting |
| GEvalMetric.ChooseScoreWeighted | src/metrics/GEval.ts:210-214 | otherwise the weighted score of the first token spelling the raw score |
| GEvalMetric.ChooseScoreUnweighted | src/metrics/GEval.ts:215-217 | no log-probabilities or no matching token: the raw score |
| GEvalMetric.ChooseScoreNoSurvivors | src/metrics/GEval.ts:172-214 | no survivor: the score is NaN, and the raw score is not used |
| GEvalMetric.ChooseScoreWithin | src/metrics/GEval.ts:205-217 | a judge on a scale keeps the chosen score on that scale, or the score is NaN |
| GEvalMetric.FallbackEvaluation | src/metrics/GEval.ts:221-223 | definition of the fallback call's result; characterised by `EvaluateFallback`, and computed by `GEval.AFallback` |
| GEvalMetric.Evaluate | src/metrics/GEval.ts:181-225 | definition of `_aEvaluate` with its calls; characterised by `EvaluatePrimary`, `EvaluateFallback`, `EvaluateWithin`, `EvaluateStrictIsFinite` and `EvaluateIssuesNoStepsCall`, and computed by `GEval.AEvaluate` |
| GEvalMetric.EvaluatePrimary | src/metrics/GEval.ts:195-217 | the log-probability call and its reading succeed: one call, and the chosen score with the reason |
| GEvalMetric.EvaluateFallback | src/metrics/GEval.ts:218-224 | otherwise a second, plain call with the same prompt: its raw score and reason, or its error |
| GEvalMetric.EvaluateWithin | src/metrics/GEval.ts:181-225 | every score `_aEvaluate` returns is on the judge's scale, or NaN |
| GEvalMetric.EvaluateStrictIsFinite | src/metrics/GEval.ts:205-207 | strict mode never returns NaN |
| GEvalMetric.EvaluateIssuesNoStepsCall | src/metrics/GEval.ts:181-225 | `_aEvaluate` issues only scoring calls |
| GEvalMetric.Normalize | src/metrics/GEval.ts:87-89 | definition of the stored score; characterised by `NormalizeLenient`, `NormalizeStrict`, `NormalizeKeepsVerdict`, `NormalizeStrictAllOrNothing` and `NormalizeWithinUnit` |
| GEvalMetric.Tenth | src/metrics/GEval.ts:87 | `score / 10`: NaN stays NaN, otherwise ten times the result is the score |
| GEvalMetric.NormalizeLenient | src/metrics/GEval.ts:87-89 | outside strict mode the stored score is the tenth |
| GEvalMetric.NormalizeStrict | src/metrics/GEval.ts:89 | strict mode: below the threshold gives 0, anything else stays the tenth |
| GEvalMetric.NormalizeKeepsVerdict | src/metrics/GEval.ts:89-90 | with a positive threshold the zeroing never changes `success` |
| GEvalMetric.NormalizeStrictAllOrNothing | src/metrics/GEval.ts:89-90 | strict mode stores 0 or a passing score |
| GEvalMetric.NormalizeWithinUnit | src/metrics/GEval.ts:87-89 | a 0..10 score is stored on 0..1, or as NaN |
| GEvalMetric.Recorded | src/metrics/GEval.ts:87-98 | definition of the fields after an evaluation; characterised by `RecordedFields` |
| GEvalMetric.Reply | src/metrics/GEval.ts:100-103 | definition of the object aMeasure resolves to; characterised by `ReplyReason` |
| GEvalMetric.AfterSteps | src/metrics/GEval.ts:85-103 | definition of aMeasure from `_aEvaluate` on; computed by `GEval.EvaluateAndRecord` |
| GEvalMetric.AfterCheck | src/metrics/GEval.ts:84-103 | definition of aMeasure from the step generation on; characterised by `AfterCheckCached`, `AfterCheckFailed` and `AfterCheckGenerated`, and computed by `GEval.GenerateAndEvaluate` |
| GEvalMetric.AfterCheckCached | src/metrics/GEval.ts:84-85 | with cached steps aMeasure goes straight to `_aEvaluate` |
| GEvalMetric.AfterCheckFailed | src/metrics/GEval.ts:84 | a failed step generation ends aMeasure with its error and the fields unchanged |
| GEvalMetric.AfterCheckGenerated | src/metrics/GEval.ts:84-85 | fresh steps are stored before `_aEvaluate`, and the generation call comes first |
| GEvalMetric.Measure | src/metrics/GEval.ts:76-104 | definition of aMeasure on the metric's fields; characterised by the `Measure*` lemmas, `SecondMeasureReusesSteps` and `RecordedFields`, and computed by `GEval.AMeasure` |
| GEvalMetric.MeasureMissingParameter | src/metrics/GEval.ts:77 | a missing parameter: its error, no judge call, no field changed |
| GEvalMetric.MeasureCachedIssuesNoStepsCall | src/metrics/GEval.ts:84 | cached steps: no step-generation call, and the cached steps stay |
| GEvalMetric.MeasureEmptyStepsAreCached | src/metrics/GEval.ts:84 | an empty list of steps is truthy, so it counts as cached |
| GEvalMetric.MeasureUncachedGeneratesSteps | src/metrics/GEval.ts:84-121 | no cached steps and every parameter present: the first call generates the steps |
| GEvalMetric.SecondMeasureReusesSteps | src/metrics/GEval.ts:84 | a measure that passes the parameter check and the step generation leaves the steps cached, even when `_aEvaluate` then throws; a second measure then issues no step-generation call and keeps the same steps |
| GEvalMetric.MeasureSucceeds | src/metrics/GEval.ts:76-104 | a successful measure stores the steps it used and the evaluation of those steps, and answers with it |
| GEvalMetric.RecordedFields | src/metrics/GEval.ts:87-98 | the stored score, reason and verdict, and the two-part logs (numbered steps, then score and reason) |
| GEvalMetric.ReplyReason | src/metrics/GEval.ts:100-103 | the answer carries the stored score, and "No reason provided" in place of an empty reason |
| GEvalMetric.MeasureFailureKeepsResults | src/metrics/GEval.ts:76-104 | a throw leaves score, reason, verdict and logs as they were |
| GEvalMetric.MeasureStrictAllOrNothing | src/metrics/GEval.ts:87-103 | in strict mode the answer's score is 0 or a passing score |
| GEvalMetric.MeasureWithinUnit | src/metrics/GEval.ts:76-104 | a judge on the 0..10 scale gives an answer on 0..1, or NaN |
| GEvalMetric.GEval.constructor | src/metrics/GEval.ts:48-74 | the configuration is stored as given; the optional arguments default as in the source (no criteria, steps or model, threshold 0.5, asyncMode on, strict and verbose off, suffix on); the judge model is the given one or "gpt-4o-mini"; no steps unless given, no results yet |
| GEvalMetric.GEval.AGenerateEvaluationSteps | src/metrics/GEval.ts:107-121 | the method's result and calls are those of `GenerateSteps` |
| GEvalMetric.GEval.AEvaluate | src/metrics/GEval.ts:181-225 | the method's result and calls are those of `Evaluate` |
| GEvalMetric.GEval.PickScore | src/metrics/GEval.ts:205-217 | the score picked is `ChooseScore` of the strict flag, the parsed answer and the response |
| GEvalMetric.GEval.AFallback | src/metrics/GEval.ts:218-224 | the fallback's result is `FallbackEvaluation` |
| GEvalMetric.GEval.RecordScore | src/metrics/GEval.ts:87-103 | the fields become `Recorded` and the answer is `Reply` |
| GEvalMetric.GEval.EvaluateAndRecord | src/metrics/GEval.ts:85-103 | the new fields, result and calls are `AfterSteps` of the old fields |
| GEvalMetric.GEval.GenerateAndEvaluate | src/metrics/GEval.ts:84-103 | the new fields, result and calls are `AfterCheck` of the old fields |
| GEvalMetric.GEval.GenerateThenEvaluate | src/metrics/GEval.ts:84-103 | the uncached case: generate, store, then evaluate, as `AfterCheck` says |
| GEvalMetric.GEval.AMeasure | src/metrics/GEval.ts:76-104 | the new fields, result and judge calls are `Measure` of the old fields |
| GEvalMetric.GEval.IsSuccessful | src/metrics/GEval.ts:233-235 | true exactly when the last verdict is true; false before any |
| GEvalMetric.GEval.MetricName | src/metrics/GEval.ts:238-240 | the name, followed by " (GEval)" exactly when the suffix is on |
| GEvalRoute.Status | src/app/api/geval/route.ts:17-70 | definition: 200 for an answer, 400 for a bad request, 500 for a server error |
| GEvalRoute.Handle | src/app/api/geval/route.ts:7-72 | definition of the handler's answer; characterised by `BadRequestIffRequiredMissing`, `WellFormedOutcome`, `UnreadableBodyIsServerError`, `ParameterCheckCannotFail` and `RouteAlwaysGeneratesSteps`, and computed by `Post` |
| GEvalRoute.OrEmpty | src/app/api/geval/route.ts:28-30 | definition: `value \|\| ''`: empty exactly when the field is falsy, otherwise the field |
| GEvalRoute.OrNull | src/app/api/geval/route.ts:48 | definition: `criteria \|\| null`: null exactly when falsy, otherwise the non-empty criteria |
| GEvalRoute.ServerFailure | src/app/api/geval/route.ts:67-70 | definition: "Failed to process GEval request", with the Error's message or "Unknown error" as details |
| GEvalRoute.TestCaseOf | src/app/api/geval/route.ts:25-31 | definition of the test case; characterised by `TestCaseDefaults` and `JudgedParamsArePresent` |
| GEvalRoute.EvaluationParams | src/app/api/geval/route.ts:34-42 | definition of the judged parameters; characterised by `EvaluationParamsShape`, `EvaluationParamsUnfold` and `SelectFromMembers`, and computed by `PrepareParams` |
| GEvalRoute.RouteSettings | src/app/api/geval/route.ts:45-51 | definition of the configuration the handler gives the metric: the judged parameters, `criteria || null` and the constructor's defaults |
| GEvalRoute.PrepareParams | src/app/api/geval/route.ts:34-42 | the pushes build the selected parameters in the fixed order |
| GEvalRoute.EvaluationParamsUnfold | src/app/api/geval/route.ts:34-42 | input and actual output, then each optional parameter whose field is truthy |
| GEvalRoute.SelectFromMembers | src/app/api/geval/route.ts:40-42 | a parameter is in the list exactly when it is selected |
| GEvalRoute.EvaluationParamsShape | src/app/api/geval/route.ts:34-42 | 2 to 5 parameters, starting with input and actual output; each optional one exactly when its field is truthy; fixed order; no duplicates |
| GEvalRoute.TestCaseDefaults | src/app/api/geval/route.ts:25-31 | every key is present: input and actual output as sent, each optional field its text or `''` |
| GEvalRoute.JudgedParamsArePresent | src/app/api/geval/route.ts:25-42 | every judged parameter is a key with a non-empty value, so the parameter check passes and the projection keeps them all |
| GEvalRoute.ParameterCheckCannotFail | src/app/api/geval/route.ts:25-54 | for a valid body the measure goes past the parameter check |
| GEvalRoute.RouteAlwaysGeneratesSteps | src/app/api/geval/route.ts:45-54 | the metric starts with no steps, so its first judge call generates them from the request's criteria and the judged parameters |
| GEvalRoute.BadRequestIffRequiredMissing | src/app/api/geval/route.ts:16-18 | 400, with the fixed missing-fields message, exactly when `name`, `input` or `actualOutput` is falsy |
| GEvalRoute.WellFormedOutcome | src/app/api/geval/route.ts:54-70 | a valid body gets 200 with the measure's score and reason, or 500 with its error's message |
| GEvalRoute.UnreadableBodyIsServerError | src/app/api/geval/route.ts:10-70 | a body that cannot be read is a 500 carrying the parse error's message |
| GEvalRoute.Post | src/app/api/geval/route.ts:7-72 | the handler answers as `Handle` says |

## Behaviour modelled as written

- GEval.ts:196 always asks for log-probabilities (`true, 20`), in strict mode too, where lines 205-207 then ignore them. The model issues the same call (`EvaluatePrimary`).
- With no surviving alternative, GEval.ts:172 divides 0 by 0 and returns NaN without throwing, so the fallback to the raw score at lines 215-216 is not taken (`ChooseScoreNoSurvivors`).
- Nothing in the constructor (GEval.ts:47-73) checks that criteria or steps are given. With neither, the step prompt gets `''` as its criteria (GEval.ts:113), and the model does the same.
- GEvalTemplate.ts:5 declares `generateEvaluationSteps(parameters, criteria)`, but GEval.ts:113 passes the criteria first and the parameter string second. The model keeps the call as written (`StepsPromptSwapsArguments`).

## Left out

- The judge model client (`GPTModel`) is not part of this model. Its calls are the oracles `generate` and `generateRaw`. The model records each call with its prompt: the prompt is a value naming the template and its arguments, and the text the judge reads is `PromptText` of it. The API key, the environment variable and the network are not modelled.
- `JSON.parse` is an oracle, read as `{steps}` or `{score, reason}`. Missing keys, non-string steps and non-integer or non-numeric scores are not modelled, so the score is an integer.
- Floating point is not modelled. Probabilities are linear reals (taken from `Math.exp` of the log-probability), and the floor `logprob < Math.log(0.01)` is read as `probability < 0.01`. Infinities and rounding are not modelled.
- The text `${this.score}` in the logs is an oracle (`formatNumber`), because JavaScript number printing is not modelled.
- Record-property order is not modelled. The record is a list of keys in insertion order. `Object.entries` lists the array-index keys (non-negative integers) first, in ascending order, and the other keys (such as `-1` or `NaN`) after them in insertion order. Over reals the sum does not depend on the order.
- `Number` and `parseInt` are modelled for decimal, exponent, `Infinity` and `0x`/`0o`/`0b` literals and the JavaScript white-space characters. Other Unicode behaviour and `toLowerCase` beyond ASCII are not modelled.
- The console output is not modelled: `console.log` and `console.error`, the `verboseMode` print in constructVerboseLogs, the progress indicator with its delay, and `asyncMode`, which only affects the indicator.
- Async suspension and concurrency are not modelled. Each judge call returns its result in one step.
- `initializeModel`, `copyMetrics`, `generateUUID` and `getOrCreateEventLoop` are left out. They are runtime type dispatch, prototype cloning, a foreign library and a no-op.
- `NextRequest`/`NextResponse` are left out. The handler takes the parsed body, or the error `req.json()` threw, and returns the status and the body fields.
- Request fields are strings or absent. Other JSON values (numbers, objects) in those fields are not modelled, and neither is destructuring a `null` body.
- GEvalMetric.MeasureWithinUnit: the bound needs a judge whose scores lie on 0..10. The code clamps nothing, so a judge score outside 0..10 is stored outside 0..1, and a NaN score passes through as NaN.

