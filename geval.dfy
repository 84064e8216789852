/** The G-Eval metric: the parameter list, the cached evaluation steps, the
    scoring call with its fallback, and the post-processing of the score,
    stated as functions over the judge's answers and proved about; the class
    `GEval` performs the same steps on its fields. */
module GEvalMetric {
  import opened JsRuntime
  import opened Interfaces
  import opened JudgeModel
  import opened Utils
  import opened MetricUtils
  import opened GEvalTemplate
  import opened WeightedScore

  // ---------------------------------------------------------------------------
  // constructGEvalParamsString

  /** The enumeration values of the parameters, in order. */
  function ParamValues(params: seq<Param>): (r: seq<string>)
    ensures |r| == |params|
    ensures forall i :: 0 <= i < |params| ==> r[i] == ParamValue(params[i])
  {
    seq(|params|, i requires 0 <= i < |params| => ParamValue(params[i]))
  }

  /** constructGEvalParamsString: one name alone, two joined by " and ", more as
      "a, b, and c". The empty list falls into the last case, where the missing
      last element prints as `undefined`. */
  function ParamsString(params: seq<Param>): string
  {
    var names := ParamValues(params);
    var n := |names|;
    if n == 1 then names[0]
    else if n == 2 then Join(names, " and ")
    else Join(if n == 0 then [] else names[..n - 1], ", ") + ", and " + (if n == 0 then "undefined" else names[n - 1])
  }

  lemma ParamsStringSingle(p: Param)
    ensures ParamsString([p]) == ParamValue(p)
  {
  }

  lemma ParamsStringPair(p: Param, q: Param)
    ensures ParamsString([p, q]) == ParamValue(p) + " and " + ParamValue(q)
  {
    assert ParamValues([p, q]) == [ParamValue(p), ParamValue(q)];
    JoinPair(ParamValue(p), ParamValue(q), " and ");
  }

  lemma ParamsStringTriple(p: Param, q: Param, r: Param)
    ensures ParamsString([p, q, r]) == ParamValue(p) + ", " + ParamValue(q) + ", and " + ParamValue(r)
  {
    var names := [ParamValue(p), ParamValue(q), ParamValue(r)];
    assert ParamValues([p, q, r]) == names;
    assert names[..2] == [ParamValue(p), ParamValue(q)];
    JoinPair(ParamValue(p), ParamValue(q), ", ");
  }

  /** Three or more: every name but the last followed by ", ", then "and " and the last name. */
  lemma ParamsStringMany(params: seq<Param>)
    requires |params| >= 3
    ensures var n := |params|;
      ParamsString(params) == Join(ParamValues(params[..n - 1]), ", ") + ", and " + ParamValue(params[n - 1])
  {
    var n := |params|;
    assert ParamValues(params)[..n - 1] == ParamValues(params[..n - 1]);
  }

  lemma ParamsStringEmpty()
    ensures ParamsString([]) == ", and undefined"
  {
  }

  /** `t` placed after `a` keeps its pieces, shifted by `|a|`. */
  lemma OccursAfter(a: string, t: string, x: string, at: int)
    requires Occurs(t, x, at)
    ensures Occurs(a + t, x, |a| + at)
  {
    assert (a + t)[|a| + at..|a| + at + |x|] == t[at..at + |x|];
  }

  /** `t` placed before `b` keeps its pieces. */
  lemma OccursBefore(t: string, b: string, x: string, at: int)
    requires Occurs(t, x, at)
    ensures Occurs(t + b, x, at)
  {
    assert (t + b)[at..at + |x|] == t[at..at + |x|];
  }

  /** Every item of a joined list appears in the result. */
  lemma {:induction false} JoinHolds(items: seq<string>, sep: string, i: int)
    requires 0 <= i < |items|
    ensures exists at :: Occurs(Join(items, sep), items[i], at)
    decreases |items|
  {
    if |items| == 1 {
      assert Occurs(Join(items, sep), items[i], 0);
    } else {
      var rest := Join(items[1..], sep);
      assert Join(items, sep) == items[0] + sep + rest;
      if i == 0 {
        assert Join(items, sep) == items[0] + (sep + rest);
        assert Occurs(items[0], items[0], 0);
        OccursBefore(items[0], sep + rest, items[0], 0);
      } else {
        JoinHolds(items[1..], sep, i - 1);
        var at :| Occurs(rest, items[1..][i - 1], at);
        OccursAfter(items[0] + sep, rest, items[i], at);
      }
    }
  }

  /** A name of the list before the last: it appears in the ", "-joined front. */
  lemma NamedInFront(names: seq<string>, i: int, s: string)
    requires |names| >= 3 && 0 <= i < |names| - 1
    requires s == Join(names[..|names| - 1], ", ") + ", and " + names[|names| - 1]
    ensures exists at :: Occurs(s, names[i], at)
  {
    var n := |names|;
    var front := names[..n - 1];
    var joined := Join(front, ", ");
    JoinHolds(front, ", ", i);
    var at :| Occurs(joined, front[i], at);
    OccursBefore(joined, ", and " + names[n - 1], names[i], at);
    assert joined + ", and " + names[n - 1] == joined + (", and " + names[n - 1]);
  }

  /** The last name of the list: it ends the text. */
  lemma NamedLast(names: seq<string>)
    requires |names| >= 3
    ensures var n := |names|;
      Occurs(Join(names[..n - 1], ", ") + ", and " + names[n - 1], names[n - 1], |Join(names[..n - 1], ", ") + ", and "|)
  {
    var n := |names|;
    var head := Join(names[..n - 1], ", ") + ", and ";
    assert Occurs(names[n - 1], names[n - 1], 0);
    OccursAfter(head, names[n - 1], names[n - 1], 0);
  }

  /** Every evaluation parameter is named, by its enumeration value, in the list. */
  lemma ParamsStringNamesEach(params: seq<Param>, i: int)
    requires 0 <= i < |params|
    ensures exists at :: Occurs(ParamsString(params), ParamValue(params[i]), at)
  {
    var names := ParamValues(params);
    var s := ParamsString(params);
    if |names| == 1 {
      assert Occurs(s, names[0], 0);
    } else if |names| == 2 {
      JoinHolds(names, " and ", i);
    } else if i < |names| - 1 {
      NamedInFront(names, i, s);
    } else {
      NamedLast(names);
    }
  }

  // ---------------------------------------------------------------------------
  // The text of the test case and the numbered steps

  /** G_EVAL_PARAMS: the display name of each parameter. */
  function DisplayName(p: Param): string
  {
    match p
    case Input => "Input"
    case ActualOutput => "Actual Output"
    case ExpectedOutput => "Expected Output"
    case Context => "Context"
    case RetrievalContext => "Retrieval Context"
  }

  /** The block one parameter adds to the text; a missing key prints `undefined`. */
  function FieldText(testCase: TestCase, p: Param): string
  {
    DisplayName(p) + ":\n" + (if p in testCase then testCase[p] else "undefined") + " \n\n"
  }

  /** The block of each parameter, in order. */
  function FieldBlocks(testCase: TestCase, params: seq<Param>): (r: seq<string>)
    ensures |r| == |params|
    ensures forall i :: 0 <= i < |params| ==> r[i] == FieldText(testCase, params[i])
  {
    seq(|params|, i requires 0 <= i < |params| => FieldText(testCase, params[i]))
  }

  /** The text of the test case: the blocks of the parameters, one after another. */
  function FieldTexts(testCase: TestCase, params: seq<Param>): string
  {
    Concat(FieldBlocks(testCase, params))
  }

  /** The text of a parameter list is the text of its parts, in their order. */
  lemma FieldTextsAppend(testCase: TestCase, ps: seq<Param>, qs: seq<Param>)
    ensures FieldTexts(testCase, ps + qs) == FieldTexts(testCase, ps) + FieldTexts(testCase, qs)
  {
    assert FieldBlocks(testCase, ps + qs) == FieldBlocks(testCase, ps) + FieldBlocks(testCase, qs);
    ConcatAppend(FieldBlocks(testCase, ps), FieldBlocks(testCase, qs));
  }

  /** One parameter present in the test case: its display name, a newline, its value, " \n\n". */
  lemma FieldTextsSingle(testCase: TestCase, p: Param)
    requires p in testCase
    ensures FieldTexts(testCase, [p]) == DisplayName(p) + ":\n" + testCase[p] + " \n\n"
  {
    FieldTextsOne(testCase, p);
  }

  lemma FieldTextsOne(testCase: TestCase, p: Param)
    ensures FieldTexts(testCase, [p]) == FieldText(testCase, p)
  {
    assert FieldBlocks(testCase, [p]) == [FieldText(testCase, p)];
    ConcatOne(FieldText(testCase, p));
  }

  /** The `forEach` that builds the text with `+=`. */
  method BuildFieldText(testCase: TestCase, params: seq<Param>) returns (text: string)
    ensures text == FieldTexts(testCase, params)
  {
    text := "";
    for i := 0 to |params|
      invariant text == FieldTexts(testCase, params[..i])
    {
      FieldTextsAppend(testCase, params[..i], [params[i]]);
      FieldTextsOne(testCase, params[i]);
      assert params[..i] + [params[i]] == params[..i + 1];
      text := text + FieldText(testCase, params[i]);
    }
    assert params[..|params|] == params;
  }

  /** _numberEvaluationSteps: `${index + 1}. ${step}` per step, joined by newlines. */
  function NumberEvaluationSteps(steps: seq<string>): string
  {
    Join(seq(|steps|, i requires 0 <= i < |steps| => IntToDecimal(i + 1) + ". " + steps[i]), "\n")
  }

  /** The metric numbers its steps exactly as prettifyList does. */
  lemma NumberedStepsArePrettified(steps: seq<string>)
    ensures NumberEvaluationSteps(steps) == PrettifyList(steps)
  {
    var a := seq(|steps|, i requires 0 <= i < |steps| => IntToDecimal(i + 1) + ". " + steps[i]);
    var b := seq(|steps|, i requires 0 <= i < |steps| => NumberedItem(steps, i));
    assert a == b;
  }

  // ---------------------------------------------------------------------------
  // _aGenerateEvaluationSteps

  /** What a judge call produced, and the calls issued on the way. */
  datatype Traced<+T> = Traced(result: Result<T>, calls: seq<JudgeCall>)

  const StepsFailure: Thrown := Error("Failed to generate evaluation steps")

  /** The step prompt as the metric builds it: the criteria text goes in the
      template's `parameters` slots and the parameter list in its `criteria` slot. */
  function StepsPrompt(criteria: Option<string>, params: seq<Param>): Prompt
  {
    EvaluationStepsPrompt(criteria.GetOr(""), ParamsString(params))
  }

  /** The steps: the cached list when there is one (the empty list included),
      otherwise one `generate` call whose empty answer throws and whose
      answer is read by trimAndLoadJson. */
  function GenerateSteps(cached: Option<seq<string>>, criteria: Option<string>, params: seq<Param>, o: Oracles): Traced<seq<string>>
  {
    if cached.Some? then Traced(Success(cached.value), [])
    else
      var prompt := StepsPrompt(criteria, params);
      var calls := [StepsCall(prompt, "")];
      match o.generate(prompt, "")
      case Failure(e) => Traced(Failure(e), calls)
      case Success(result) =>
        if !Truthy(result) then Traced(Failure(StepsFailure), calls)
        else Traced(TrimAndLoadJson(result, o.parseSteps), calls)
  }

  /** Cached steps, even none, are returned without a call. */
  lemma GenerateStepsCached(cached: Option<seq<string>>, criteria: Option<string>, params: seq<Param>, o: Oracles)
    requires cached.Some?
    ensures GenerateSteps(cached, criteria, params, o) == Traced(Success(cached.value), [])
  {
  }

  /** Without cached steps there is exactly one call, and its failure modes
      are the judge's own error, the empty answer, and the reading of the answer. */
  lemma GenerateStepsUncached(criteria: Option<string>, params: seq<Param>, o: Oracles)
    ensures var g := GenerateSteps(None, criteria, params, o);
      var answer := o.generate(StepsPrompt(criteria, params), "");
      && g.calls == [StepsCall(StepsPrompt(criteria, params), "")]
      && (answer.Failure? ==> g.result == Failure(answer.error))
      && (answer == Success("") ==> g.result == Failure(StepsFailure))
      && (answer.Success? && '{' in answer.value && '}' in answer.value ==>
            g.result == o.parseSteps(ExtractJsonSpan(answer.value).value))
      && (answer.Success? && answer.value != "" && ('{' !in answer.value || '}' !in answer.value) ==>
            g.result == Failure(InvalidJsonFormat))
  {
  }

  /** As written, the criteria text lands where the template names the
      parameters (twice), and the parameter list where it expects the criteria. */
  lemma StepsPromptSwapsArguments(criteria: Option<string>, params: seq<Param>)
    ensures var prompt := PromptText(StepsPrompt(criteria, params));
      var c := criteria.GetOr("");
      var second := |StepsHead| + |c| + |StepsMiddle|;
      && Occurs(prompt, c, |StepsHead|)
      && Occurs(prompt, c, second)
      && Occurs(prompt, ParamsString(params), second + |c| + |StepsBeforeCriteria|)
      && Occurs(prompt, CriteriaHeading, second + |c| + |StepsBeforeCriteria| - |CriteriaHeading|)
  {
    StepsTextLayout(criteria.GetOr(""), ParamsString(params));
  }

  /** Where the two arguments of a step prompt land in its text. */
  lemma StepsTextLayout(c: string, ps: string)
    ensures var prompt := PromptText(EvaluationStepsPrompt(c, ps));
      var second := |StepsHead| + |c| + |StepsMiddle|;
      && Occurs(prompt, c, |StepsHead|)
      && Occurs(prompt, c, second)
      && Occurs(prompt, ps, second + |c| + |StepsBeforeCriteria|)
      && Occurs(prompt, CriteriaHeading, second + |c| + |StepsBeforeCriteria| - |CriteriaHeading|)
  {
    StepsPromptLayout(c, ps);
  }

  // ---------------------------------------------------------------------------
  // _aEvaluate

  /** The score and reason `_aEvaluate` resolves to. */
  datatype Evaluation = Evaluation(score: Num, reason: string)

  /** The scoring prompt: the numbered steps, the text of the test case and the parameter list. */
  function ScorePrompt(steps: seq<string>, testCase: TestCase, params: seq<Param>): Prompt
  {
    EvaluationResultsPrompt(NumberEvaluationSteps(steps), FieldTexts(testCase, params), ParamsString(params))
  }

  /** trimAndLoadJson on a scoring answer. */
  function ReadScore(answer: string, o: Oracles): Result<ScoreDoc>
  {
    TrimAndLoadJson(answer, o.parseScore)
  }

  /** The score picked once the log-probability answer is read: the raw score in
      strict mode, otherwise the weighted score, or the raw score when weighting throws. */
  function ChooseScore(strict: bool, doc: ScoreDoc, response: RawResponse): Num
  {
    if strict then Finite(doc.score as real)
    else
      match WeightedSummedScore(doc.score, response.logprobs)
      case Success(weighted) => weighted
      case Failure(_) => Finite(doc.score as real)
  }

  /** The log-probability call and the reading of its content both succeeded. */
  predicate PrimarySucceeds(prompt: Prompt, o: Oracles) {
    var raw := o.generateRaw(prompt, "", true, 20);
    raw.Success? && ReadScore(raw.value.content, o).Success?
  }

  /** _aEvaluate: one call with log-probabilities (20 alternatives); if that call
      or the reading of its answer throws, one plain call whose reading decides. */
  function Evaluate(steps: seq<string>, testCase: TestCase, params: seq<Param>, strict: bool, o: Oracles): Traced<Evaluation>
  {
    var prompt := ScorePrompt(steps, testCase, params);
    var rawCall := RawScoreCall(prompt, "", true, 20);
    if PrimarySucceeds(prompt, o) then
      var response := o.generateRaw(prompt, "", true, 20).value;
      var doc := ReadScore(response.content, o).value;
      Traced(Success(Evaluation(ChooseScore(strict, doc, response), doc.reason)), [rawCall])
    else
      Traced(FallbackEvaluation(prompt, o), [rawCall, FallbackScoreCall(prompt, "")])
  }

  /** The plain call of the fallback, read: the raw score and reason, or the error. */
  function FallbackEvaluation(prompt: Prompt, o: Oracles): Result<Evaluation>
  {
    match o.generate(prompt, "")
    case Failure(e) => Failure(e)
    case Success(answer) =>
      match ReadScore(answer, o)
      case Failure(e) => Failure(e)
      case Success(doc) => Success(Evaluation(Finite(doc.score as real), doc.reason))
  }

  /** Strict mode: the raw score, and no weighting. */
  lemma ChooseScoreStrict(doc: ScoreDoc, response: RawResponse)
    ensures ChooseScore(true, doc, response) == Finite(doc.score as real)
  {
  }

  /** Otherwise the weighted score of the first token spelling the raw score. */
  lemma ChooseScoreWeighted(doc: ScoreDoc, response: RawResponse, i: int)
    requires response.logprobs.Some?
    requires FirstMatchAt(response.logprobs.value, IntToDecimal(doc.score), i)
    ensures ChooseScore(false, doc, response) == WeightedScore.WeightedScore(response.logprobs.value[i].topLogprobs)
  {
    var r := WeightedSummedScore(doc.score, response.logprobs);
    var j :| FirstMatchAt(response.logprobs.value, IntToDecimal(doc.score), j) && r.value == WeightedScore.WeightedScore(response.logprobs.value[j].topLogprobs);
  }

  /** No log-probabilities, or no token spelling the raw score: the raw score. */
  lemma ChooseScoreUnweighted(doc: ScoreDoc, response: RawResponse)
    requires response.logprobs.None? ||
      forall k :: 0 <= k < |response.logprobs.value| ==> response.logprobs.value[k].token != IntToDecimal(doc.score)
    ensures ChooseScore(false, doc, response) == Finite(doc.score as real)
  {
  }

  /** The first matching token has no counted alternative: the score is NaN,
      and no fallback to the raw score happens. */
  lemma ChooseScoreNoSurvivors(doc: ScoreDoc, response: RawResponse, i: int)
    requires response.logprobs.Some?
    requires FirstMatchAt(response.logprobs.value, IntToDecimal(doc.score), i)
    requires forall j :: 0 <= j < |response.logprobs.value[i].topLogprobs| ==>
      !Survives(response.logprobs.value[i].topLogprobs[j])
    ensures ChooseScore(false, doc, response) == NaN
  {
    ChooseScoreWeighted(doc, response, i);
    NoSurvivorsGiveNaN(response.logprobs.value[i].topLogprobs);
  }

  /** Every counted alternative of every emitted token keys to an integer in `lo..hi`. */
  predicate AlternativesWithin(response: RawResponse, lo: int, hi: int) {
    response.logprobs.Some? ==>
      forall k, j :: 0 <= k < |response.logprobs.value| && 0 <= j < |response.logprobs.value[k].topLogprobs| ==>
        KeyWithin(response.logprobs.value[k].topLogprobs[j], lo, hi)
  }

  /** A counted alternative keys to an integer in `lo..hi`. */
  predicate KeyWithin(a: Alternative, lo: int, hi: int) {
    Survives(a) ==> KeyOf(a).IntKey? && lo <= KeyOf(a).value <= hi
  }

  /** A judge that keeps to a scale keeps the chosen score on it, or the score is NaN. */
  lemma ChooseScoreWithin(strict: bool, doc: ScoreDoc, response: RawResponse, lo: int, hi: int)
    requires lo <= doc.score <= hi
    requires AlternativesWithin(response, lo, hi)
    ensures var r := ChooseScore(strict, doc, response);
      r.NaN? || lo as real <= r.value <= hi as real
  {
    if !strict && response.logprobs.Some? {
      var tokens := response.logprobs.value;
      match FirstMatch(tokens, IntToDecimal(doc.score))
      case None =>
      case Some(i) =>
        var alts := tokens[i].topLogprobs;
        ChooseScoreWeighted(doc, response, i);
        if exists j :: 0 <= j < |alts| && Survives(alts[j]) {
          WeightedScoreBounds(alts, lo, hi);
        } else {
          NoSurvivorsGiveNaN(alts);
        }
    }
  }

  /** The primary path: one call, and the score chosen from its answer. */
  lemma EvaluatePrimary(steps: seq<string>, testCase: TestCase, params: seq<Param>, strict: bool, o: Oracles)
    requires PrimarySucceeds(ScorePrompt(steps, testCase, params), o)
    ensures var prompt := ScorePrompt(steps, testCase, params);
      var response := o.generateRaw(prompt, "", true, 20).value;
      var doc := ReadScore(response.content, o).value;
      var e := Evaluate(steps, testCase, params, strict, o);
      && e.calls == [RawScoreCall(prompt, "", true, 20)]
      && e.result == Success(Evaluation(ChooseScore(strict, doc, response), doc.reason))
  {
  }

  /** The fallback: a second, plain call with the same prompt, whose reading
      gives the raw score and reason, or whose error propagates. */
  lemma EvaluateFallback(steps: seq<string>, testCase: TestCase, params: seq<Param>, strict: bool, o: Oracles)
    requires !PrimarySucceeds(ScorePrompt(steps, testCase, params), o)
    ensures var prompt := ScorePrompt(steps, testCase, params);
      var e := Evaluate(steps, testCase, params, strict, o);
      var answer := o.generate(prompt, "");
      && e.calls == [RawScoreCall(prompt, "", true, 20), FallbackScoreCall(prompt, "")]
      && (answer.Failure? ==> e.result == Failure(answer.error))
      && (answer.Success? && ReadScore(answer.value, o).Failure? ==> e.result == Failure(ReadScore(answer.value, o).error))
      && (answer.Success? && ReadScore(answer.value, o).Success? ==>
            var doc := ReadScore(answer.value, o).value;
            e.result == Success(Evaluation(Finite(doc.score as real), doc.reason)))
  {
  }

  /** Every score `_aEvaluate` can return lies on the judge's scale, or is NaN. */
  lemma EvaluateWithin(steps: seq<string>, testCase: TestCase, params: seq<Param>, strict: bool, o: Oracles, lo: int, hi: int)
    requires forall answer :: o.parseScore(answer).Success? ==> lo <= o.parseScore(answer).value.score <= hi
    requires forall prompt :: o.generateRaw(prompt, "", true, 20).Success? ==>
      AlternativesWithin(o.generateRaw(prompt, "", true, 20).value, lo, hi)
    ensures var e := Evaluate(steps, testCase, params, strict, o);
      e.result.Success? ==> e.result.value.score.NaN? || lo as real <= e.result.value.score.value <= hi as real
  {
    var prompt := ScorePrompt(steps, testCase, params);
    if PrimarySucceeds(prompt, o) {
      var response := o.generateRaw(prompt, "", true, 20).value;
      var span := ExtractJsonSpan(response.content).value;
      assert o.parseScore(span).Success?;
      ChooseScoreWithin(strict, ReadScore(response.content, o).value, response, lo, hi);
    } else {
      var answer := o.generate(prompt, "");
      if answer.Success? && ReadScore(answer.value, o).Success? {
        assert o.parseScore(ExtractJsonSpan(answer.value).value).Success?;
      }
    }
  }

  // ---------------------------------------------------------------------------
  // aMeasure

  /** Strict mode never weights: every score it returns is a finite raw score. */
  lemma EvaluateStrictIsFinite(steps: seq<string>, testCase: TestCase, params: seq<Param>, o: Oracles)
    ensures var e := Evaluate(steps, testCase, params, true, o);
      e.result.Success? ==> e.result.value.score.Finite?
  {
  }

  // ---------------------------------------------------------------------------
  // aMeasure

  /** `score / 10`. */
  function Tenth(score: Num): (r: Num)
    ensures r.Finite? <==> score.Finite?
    ensures r.Finite? ==> r.value * 10.0 == score.value
  {
    if score.Finite? then Finite(score.value / 10.0) else NaN
  }

  /** The stored score: a tenth of the evaluation's score, set to 0 in strict
      mode when below the threshold (a NaN score is never below it). */
  function Normalize(score: Num, strict: bool, threshold: real): Num
  {
    var s := Tenth(score);
    if strict && Less(s, threshold) then Finite(0.0) else s
  }

  /** Outside strict mode the stored score is the tenth. */
  lemma NormalizeLenient(score: Num, threshold: real)
    ensures Normalize(score, false, threshold) == Tenth(score)
  {
  }

  /** In strict mode a score below the threshold becomes 0 and any other stays the tenth. */
  lemma NormalizeStrict(score: Num, threshold: real)
    ensures Less(Tenth(score), threshold) ==> Normalize(score, true, threshold) == Finite(0.0)
    ensures !Less(Tenth(score), threshold) ==> Normalize(score, true, threshold) == Tenth(score)
  {
  }

  /** With a positive threshold, strict mode never changes the verdict: the
      metric succeeds exactly when the tenth reaches the threshold. */
  lemma NormalizeKeepsVerdict(score: Num, strict: bool, threshold: real)
    requires !strict || threshold > 0.0
    ensures AtLeast(Normalize(score, strict, threshold), threshold) <==> AtLeast(Tenth(score), threshold)
  {
  }

  /** In strict mode a finite score is stored as 0 or as a score that passes. */
  lemma NormalizeStrictAllOrNothing(score: Num, threshold: real)
    requires score.Finite?
    ensures var r := Normalize(score, true, threshold);
      r == Finite(0.0) || AtLeast(r, threshold)
  {
  }

  /** A score on the 0..10 scale (or NaN) is stored on the 0..1 scale (or NaN). */
  lemma NormalizeWithinUnit(score: Num, strict: bool, threshold: real)
    requires score.NaN? || 0.0 <= score.value <= 10.0
    ensures var r := Normalize(score, strict, threshold);
      r.NaN? || 0.0 <= r.value <= 1.0
  {
  }

  /** The configuration fixed at construction that aMeasure reads. */
  datatype Settings = Settings(evaluationParams: seq<Param>, criteria: Option<string>, threshold: real, strictMode: bool)

  /** The fields aMeasure updates. */
  datatype MetricState = MetricState(
    evaluationSteps: Option<seq<string>>,
    score: Option<Num>,
    reason: Option<string>,
    success: Option<bool>,
    evaluationCost: Option<real>,
    verboseLogs: Option<string>)

  /** What aMeasure resolves to. */
  datatype Answer = Answer(score: Num, reason: string)

  /** One aMeasure: the new fields, its result or the error it throws, and the judge calls it issued. */
  datatype Measured = Measured(state: MetricState, result: Result<Answer>, calls: seq<JudgeCall>)

  const NoReason: string := "No reason provided"

  /** The text of the verbose logs. */
  function MeasureLogs(steps: seq<string>, score: Num, reason: string, o: Oracles): string
  {
    ConstructVerboseLogs(["Evaluation Steps:\n" + PrettifyList(steps), "Score: " + o.formatNumber(score) + "\nReason: " + reason])
  }

  /** The fields once an evaluation is in: its normalised score, its reason,
      the verdict and the logs. */
  function Recorded(settings: Settings, st: MetricState, steps: seq<string>, e: Evaluation, o: Oracles): MetricState
  {
    var score := Normalize(e.score, settings.strictMode, settings.threshold);
    st.(score := Some(score), reason := Some(e.reason),
        success := Some(AtLeast(score, settings.threshold)),
        verboseLogs := Some(MeasureLogs(steps, score, e.reason, o)))
  }

  /** The object aMeasure resolves to. */
  function Reply(settings: Settings, e: Evaluation): Answer
  {
    Answer(Normalize(e.score, settings.strictMode, settings.threshold), if Truthy(e.reason) then e.reason else NoReason)
  }

  /** aMeasure from `_aEvaluate` on, with the steps in place. */
  function AfterSteps(settings: Settings, st: MetricState, testCase: TestCase, o: Oracles): Measured
    requires st.evaluationSteps.Some?
  {
    var steps := st.evaluationSteps.value;
    var ev := Evaluate(steps, testCase, settings.evaluationParams, settings.strictMode, o);
    match ev.result
    case Failure(e) => Measured(st, Failure(e), ev.calls)
    case Success(e) => Measured(Recorded(settings, st, steps, e, o), Success(Reply(settings, e)), ev.calls)
  }

  /** aMeasure from the step generation on; a failed generation leaves the steps unset. */
  function AfterCheck(settings: Settings, st: MetricState, testCase: TestCase, o: Oracles): Measured
  {
    var gen := GenerateSteps(st.evaluationSteps, settings.criteria, settings.evaluationParams, o);
    match gen.result
    case Failure(e) => Measured(st, Failure(e), gen.calls)
    case Success(steps) =>
      var m := AfterSteps(settings, st.(evaluationSteps := Some(steps)), testCase, o);
      Measured(m.state, m.result, gen.calls + m.calls)
  }

  /** With the steps cached, aMeasure goes straight to `_aEvaluate`. */
  lemma AfterCheckCached(settings: Settings, st: MetricState, testCase: TestCase, o: Oracles)
    requires st.evaluationSteps.Some?
    ensures AfterCheck(settings, st, testCase, o) == AfterSteps(settings, st, testCase, o)
  {
    assert st.(evaluationSteps := Some(st.evaluationSteps.value)) == st;
  }

  /** A failed generation ends aMeasure with its error and the fields unchanged. */
  lemma AfterCheckFailed(settings: Settings, st: MetricState, testCase: TestCase, o: Oracles)
    requires st.evaluationSteps.None?
    requires GenerateSteps(None, settings.criteria, settings.evaluationParams, o).result.Failure?
    ensures var gen := GenerateSteps(None, settings.criteria, settings.evaluationParams, o);
      AfterCheck(settings, st, testCase, o) == Measured(st, Failure(gen.result.error), gen.calls)
  {
  }

  /** Freshly generated steps are stored before `_aEvaluate` runs, and the
      generation call comes first. */
  lemma AfterCheckGenerated(settings: Settings, st: MetricState, testCase: TestCase, o: Oracles, steps: seq<string>)
    requires st.evaluationSteps.None?
    requires GenerateSteps(None, settings.criteria, settings.evaluationParams, o).result == Success(steps)
    ensures var m := AfterSteps(settings, st.(evaluationSteps := Some(steps)), testCase, o);
      AfterCheck(settings, st, testCase, o) ==
        Measured(m.state, m.result, GenerateSteps(None, settings.criteria, settings.evaluationParams, o).calls + m.calls)
  {
  }

  /** aMeasure: check the parameters, reset the cost, generate the steps unless
      cached, evaluate, then store the score, reason, verdict and logs. A throw
      leaves the fields as they were when it happened. */
  function Measure(settings: Settings, st: MetricState, testCase: TestCase, o: Oracles): Measured
  {
    match FirstMissing(testCase, settings.evaluationParams)
    case Some(p) => Measured(st, Failure(MissingParameter(p)), [])
    case None => AfterCheck(settings, st.(evaluationCost := Some(0.0)), testCase, o)
  }

  /** A parameter missing from the test case: its error, no call, no field changed. */
  lemma MeasureMissingParameter(settings: Settings, st: MetricState, testCase: TestCase, o: Oracles, i: int)
    requires FirstMissingAt(testCase, settings.evaluationParams, i)
    ensures Measure(settings, st, testCase, o) ==
      Measured(st, Failure(MissingParameter(settings.evaluationParams[i])), [])
  {
    FirstMissingIsAt(testCase, settings.evaluationParams, i);
  }

  /** `_aEvaluate` issues only scoring calls. */
  lemma EvaluateIssuesNoStepsCall(steps: seq<string>, testCase: TestCase, params: seq<Param>, strict: bool, o: Oracles)
    ensures var calls := Evaluate(steps, testCase, params, strict, o).calls;
      forall k :: 0 <= k < |calls| ==> !calls[k].StepsCall?
  {
    if PrimarySucceeds(ScorePrompt(steps, testCase, params), o) {
      EvaluatePrimary(steps, testCase, params, strict, o);
    } else {
      EvaluateFallback(steps, testCase, params, strict, o);
    }
  }

  /** Cached steps: no step-generation call, and the cached steps stay. */
  lemma MeasureCachedIssuesNoStepsCall(settings: Settings, st: MetricState, testCase: TestCase, o: Oracles)
    requires st.evaluationSteps.Some?
    ensures var m := Measure(settings, st, testCase, o);
      && (forall k :: 0 <= k < |m.calls| ==> !m.calls[k].StepsCall?)
      && m.state.evaluationSteps == st.evaluationSteps
  {
    if FirstMissing(testCase, settings.evaluationParams).None? {
      var st1 := st.(evaluationCost := Some(0.0));
      var m := AfterSteps(settings, st1.(evaluationSteps := st.evaluationSteps), testCase, o);
      assert st1.(evaluationSteps := st.evaluationSteps) == st1;
      assert Measure(settings, st, testCase, o).calls == [] + m.calls;
      EvaluateIssuesNoStepsCall(st.evaluationSteps.value, testCase, settings.evaluationParams, settings.strictMode, o);
    }
  }

  /** An empty list of steps counts as cached. */
  lemma MeasureEmptyStepsAreCached(settings: Settings, st: MetricState, testCase: TestCase, o: Oracles)
    requires st.evaluationSteps == Some([])
    ensures var m := Measure(settings, st, testCase, o);
      forall k :: 0 <= k < |m.calls| ==> !m.calls[k].StepsCall?
  {
    MeasureCachedIssuesNoStepsCall(settings, st, testCase, o);
  }

  /** Without cached steps and with every parameter present, the first call generates the steps. */
  lemma MeasureUncachedGeneratesSteps(settings: Settings, st: MetricState, testCase: TestCase, o: Oracles)
    requires st.evaluationSteps.None?
    requires forall k :: 0 <= k < |settings.evaluationParams| ==> settings.evaluationParams[k] in testCase
    ensures var m := Measure(settings, st, testCase, o);
      |m.calls| >= 1 && m.calls[0] == StepsCall(StepsPrompt(settings.criteria, settings.evaluationParams), "")
  {
  }

  /** A measure that gets past the parameter check and the step generation
      leaves the steps cached, even when `_aEvaluate` then throws, so a second
      measure on the same metric issues no step-generation call and keeps the
      same steps. */
  lemma SecondMeasureReusesSteps(settings: Settings, st: MetricState, first: TestCase, o1: Oracles, second: TestCase, o2: Oracles)
    requires FirstMissing(first, settings.evaluationParams).None?
    requires GenerateSteps(st.evaluationSteps, settings.criteria, settings.evaluationParams, o1).result.Success?
    ensures var m1 := Measure(settings, st, first, o1);
      var m2 := Measure(settings, m1.state, second, o2);
      && m1.state.evaluationSteps.Some?
      && (forall k :: 0 <= k < |m2.calls| ==> !m2.calls[k].StepsCall?)
      && m2.state.evaluationSteps == m1.state.evaluationSteps
  {
    var m1 := Measure(settings, st, first, o1);
    assert m1.state.evaluationSteps.Some?;
    MeasureCachedIssuesNoStepsCall(settings, m1.state, second, o2);
  }

  /** A successful measure stores the evaluation it made: the fields are those
      `Recorded` gives and the answer is `Reply`, for the steps it used. */
  lemma MeasureSucceeds(settings: Settings, st: MetricState, testCase: TestCase, o: Oracles)
    requires Measure(settings, st, testCase, o).result.Success?
    ensures var m := Measure(settings, st, testCase, o);
      var steps := m.state.evaluationSteps;
      && steps.Some?
      && GenerateSteps(st.evaluationSteps, settings.criteria, settings.evaluationParams, o).result == Success(steps.value)
      && var e := Evaluate(steps.value, testCase, settings.evaluationParams, settings.strictMode, o).result;
      && e.Success?
      && m.state == Recorded(settings, st.(evaluationCost := Some(0.0), evaluationSteps := steps), steps.value, e.value, o)
      && m.result == Success(Reply(settings, e.value))
  {
  }

  /** The stored score is the normalised one and the verdict compares it with
      the threshold; the logs hold the numbered steps and then the score line,
      separated by "\n \n". */
  lemma RecordedFields(settings: Settings, st: MetricState, steps: seq<string>, e: Evaluation, o: Oracles)
    ensures var r := Recorded(settings, st, steps, e, o);
      var score := Normalize(e.score, settings.strictMode, settings.threshold);
      && r.score == Some(score) && r.reason == Some(e.reason)
      && r.success == Some(AtLeast(score, settings.threshold))
      && r.evaluationSteps == st.evaluationSteps && r.evaluationCost == st.evaluationCost
      && r.verboseLogs == Some("Evaluation Steps:\n" + PrettifyList(steps) + "\n \n" +
                               ("Score: " + o.formatNumber(score) + "\nReason: " + e.reason))
  {
    var score := Normalize(e.score, settings.strictMode, settings.threshold);
    VerboseLogsTwo("Evaluation Steps:\n" + PrettifyList(steps), "Score: " + o.formatNumber(score) + "\nReason: " + e.reason);
  }

  /** The answer carries the stored score, and "No reason provided" in place of an empty reason. */
  lemma ReplyReason(settings: Settings, e: Evaluation)
    ensures Reply(settings, e).score == Normalize(e.score, settings.strictMode, settings.threshold)
    ensures e.reason == "" ==> Reply(settings, e).reason == NoReason
    ensures e.reason != "" ==> Reply(settings, e).reason == e.reason
  {
  }

  /** A throw after the parameter check leaves score, reason, verdict and logs as they were. */
  lemma MeasureFailureKeepsResults(settings: Settings, st: MetricState, testCase: TestCase, o: Oracles)
    requires Measure(settings, st, testCase, o).result.Failure?
    ensures var m := Measure(settings, st, testCase, o);
      && m.state.score == st.score && m.state.reason == st.reason
      && m.state.success == st.success && m.state.verboseLogs == st.verboseLogs
  {
  }

  /** In strict mode the answer's score is 0 or a passing score. */
  lemma MeasureStrictAllOrNothing(settings: Settings, st: MetricState, testCase: TestCase, o: Oracles)
    requires settings.strictMode
    requires Measure(settings, st, testCase, o).result.Success?
    ensures var score := Measure(settings, st, testCase, o).result.value.score;
      score == Finite(0.0) || AtLeast(score, settings.threshold)
  {
    MeasureSucceeds(settings, st, testCase, o);
    var steps := Measure(settings, st, testCase, o).state.evaluationSteps.value;
    EvaluateStrictIsFinite(steps, testCase, settings.evaluationParams, o);
    var e := Evaluate(steps, testCase, settings.evaluationParams, true, o).result.value;
    NormalizeStrictAllOrNothing(e.score, settings.threshold);
  }

  /** A judge on the 0..10 scale gives an answer on the 0..1 scale, or NaN. */
  lemma MeasureWithinUnit(settings: Settings, st: MetricState, testCase: TestCase, o: Oracles)
    requires forall answer :: o.parseScore(answer).Success? ==> 0 <= o.parseScore(answer).value.score <= 10
    requires forall prompt :: o.generateRaw(prompt, "", true, 20).Success? ==>
      AlternativesWithin(o.generateRaw(prompt, "", true, 20).value, 0, 10)
    requires Measure(settings, st, testCase, o).result.Success?
    ensures var score := Measure(settings, st, testCase, o).result.value.score;
      score.NaN? || 0.0 <= score.value <= 1.0
  {
    MeasureSucceeds(settings, st, testCase, o);
    var steps := Measure(settings, st, testCase, o).state.evaluationSteps.value;
    EvaluateWithin(steps, testCase, settings.evaluationParams, settings.strictMode, o, 0, 10);
    var e := Evaluate(steps, testCase, settings.evaluationParams, settings.strictMode, o).result.value;
    NormalizeWithinUnit(e.score, settings.strictMode, settings.threshold);
  }

  // ---------------------------------------------------------------------------
  // The metric object

  const DefaultModelName: string := "gpt-4o-mini"
  const DefaultThreshold: real := 0.5

  class GEval {
    const name: string
    const evaluationParams: seq<Param>
    const criteria: Option<string>
    const threshold: real
    const strictMode: bool
    const asyncMode: bool
    const verboseMode: bool
    const includeGEvalSuffix: bool
    /** The judge model's name; the judge's behaviour is passed to each measure. */
    const evaluationModel: string

    var evaluationSteps: Option<seq<string>>
    var score: Option<Num>
    var reason: Option<string>
    var success: Option<bool>
    var evaluationCost: Option<real>
    var verboseLogs: Option<string>

    /** Every judge call issued by this metric, in order. */
    ghost var judgeCalls: seq<JudgeCall>

    /** A model given by name, or none, in which case the default model is used.
        The optional arguments default as in the source. */
    constructor(name: string, evaluationParams: seq<Param>, criteria: Option<string> := None,
                evaluationSteps: Option<seq<string>> := None, model: Option<string> := None,
                threshold: real := DefaultThreshold, asyncMode: bool := true, strictMode: bool := false,
                verboseMode: bool := false, includeGEvalSuffix: bool := true)
      ensures this.name == name && this.evaluationParams == evaluationParams && this.criteria == criteria
      ensures this.threshold == threshold && this.strictMode == strictMode && this.asyncMode == asyncMode
      ensures this.verboseMode == verboseMode && this.includeGEvalSuffix == includeGEvalSuffix
      ensures this.evaluationModel == model.GetOr(DefaultModelName)
      ensures State() == MetricState(evaluationSteps, None, None, None, None, None)
      ensures judgeCalls == []
    {
      this.name := name;
      this.evaluationParams := evaluationParams;
      this.criteria := criteria;
      this.threshold := threshold;
      this.strictMode := strictMode;
      this.asyncMode := asyncMode;
      this.verboseMode := verboseMode;
      this.includeGEvalSuffix := includeGEvalSuffix;
      this.evaluationModel := model.GetOr(DefaultModelName);
      this.evaluationSteps := evaluationSteps;
      this.score := None;
      this.reason := None;
      this.success := None;
      this.evaluationCost := None;
      this.verboseLogs := None;
      judgeCalls := [];
    }

    function Config(): Settings {
      Settings(evaluationParams, criteria, threshold, strictMode)
    }

    function State(): MetricState
      reads this
    {
      MetricState(evaluationSteps, score, reason, success, evaluationCost, verboseLogs)
    }

    /** _aGenerateEvaluationSteps. */
    method AGenerateEvaluationSteps(o: Oracles) returns (r: Result<seq<string>>, ghost calls: seq<JudgeCall>)
      ensures r == GenerateSteps(evaluationSteps, criteria, evaluationParams, o).result
      ensures calls == GenerateSteps(evaluationSteps, criteria, evaluationParams, o).calls
    {
      if evaluationSteps.Some? {
        return Success(evaluationSteps.value), [];
      }
      var paramsString := ParamsString(evaluationParams);
      var prompt := EvaluationStepsPrompt(criteria.GetOr(""), paramsString);
      calls := [StepsCall(prompt, "")];
      var result := o.generate(prompt, "");
      if result.Failure? {
        return Failure(result.error), calls;
      }
      if !Truthy(result.value) {
        return Failure(StepsFailure), calls;
      }
      r := TrimAndLoadJson(result.value, o.parseSteps);
    }

    /** _aEvaluate, on the steps already in place. */
    method AEvaluate(testCase: TestCase, o: Oracles) returns (r: Result<Evaluation>, ghost calls: seq<JudgeCall>)
      requires evaluationSteps.Some?
      ensures r == Evaluate(evaluationSteps.value, testCase, evaluationParams, strictMode, o).result
      ensures calls == Evaluate(evaluationSteps.value, testCase, evaluationParams, strictMode, o).calls
    {
      var text := BuildFieldText(testCase, evaluationParams);
      var paramsString := ParamsString(evaluationParams);
      var prompt := EvaluationResultsPrompt(NumberEvaluationSteps(evaluationSteps.value), text, paramsString);
      calls := [RawScoreCall(prompt, "", true, 20)];
      var result := o.generateRaw(prompt, "", true, 20);
      if result.Success? {
        var data := TrimAndLoadJson(result.value.content, o.parseScore);
        if data.Success? {
          var score := PickScore(data.value, result.value);
          return Success(Evaluation(score, data.value.reason)), calls;
        }
      }
      calls := calls + [FallbackScoreCall(prompt, "")];
      r := AFallback(prompt, o);
    }

    /** The score of a read log-probability answer: raw in strict mode, else weighted when weighting succeeds. */
    method PickScore(doc: ScoreDoc, response: RawResponse) returns (score: Num)
      ensures score == ChooseScore(strictMode, doc, response)
    {
      if strictMode {
        return Finite(doc.score as real);
      }
      var weighted := GenerateWeightedSummedScore(doc.score, response);
      if weighted.Success? {
        return weighted.value;
      }
      score := Finite(doc.score as real);
    }

    /** The fallback call of `_aEvaluate` and the reading of its answer. */
    method AFallback(prompt: Prompt, o: Oracles) returns (r: Result<Evaluation>)
      ensures r == FallbackEvaluation(prompt, o)
    {
      var fallbackResult := o.generate(prompt, "");
      if fallbackResult.Failure? {
        return Failure(fallbackResult.error);
      }
      var data := TrimAndLoadJson(fallbackResult.value, o.parseScore);
      if data.Failure? {
        return Failure(data.error);
      }
      r := Success(Evaluation(Finite(data.value.score as real), data.value.reason));
    }

    /** The assignments after `_aEvaluate`: score, reason, the strict zeroing, success and the logs. */
    method RecordScore(e: Evaluation, o: Oracles) returns (answer: Answer)
      requires evaluationSteps.Some?
      modifies this
      ensures State() == Recorded(Config(), old(State()), old(evaluationSteps.value), e, o)
      ensures answer == Reply(Config(), e)
      ensures judgeCalls == old(judgeCalls)
    {
      score := Some(Tenth(e.score));
      reason := Some(e.reason);
      if strictMode && Less(score.value, threshold) {
        score := Some(Finite(0.0));
      }
      success := Some(AtLeast(score.value, threshold));
      verboseLogs := Some(MeasureLogs(evaluationSteps.value, score.value, reason.value, o));
      answer := Answer(score.value, if Truthy(reason.value) then reason.value else NoReason);
    }

    /** aMeasure from `_aEvaluate` on. */
    method EvaluateAndRecord(testCase: TestCase, o: Oracles) returns (r: Result<Answer>)
      requires evaluationSteps.Some?
      modifies this
      ensures var m := AfterSteps(Config(), old(State()), testCase, o);
        State() == m.state && r == m.result && judgeCalls == old(judgeCalls) + m.calls
    {
      var evaluation;
      ghost var calls;
      evaluation, calls := AEvaluate(testCase, o);
      judgeCalls := judgeCalls + calls;
      if evaluation.Failure? {
        return Failure(evaluation.error);
      }
      var answer := RecordScore(evaluation.value, o);
      r := Success(answer);
    }

    /** aMeasure from `this.evaluationSteps || await this._aGenerateEvaluationSteps()` on. */
    method GenerateAndEvaluate(testCase: TestCase, o: Oracles) returns (r: Result<Answer>)
      modifies this
      ensures var m := AfterCheck(Config(), old(State()), testCase, o);
        State() == m.state && r == m.result && judgeCalls == old(judgeCalls) + m.calls
    {
      if evaluationSteps.Some? {
        AfterCheckCached(Config(), State(), testCase, o);
        r := EvaluateAndRecord(testCase, o);
      } else {
        r := GenerateThenEvaluate(testCase, o);
      }
    }

    /** The uncached case: generate the steps, keep them, then evaluate. */
    method GenerateThenEvaluate(testCase: TestCase, o: Oracles) returns (r: Result<Answer>)
      requires evaluationSteps.None?
      modifies this
      ensures var m := AfterCheck(Config(), old(State()), testCase, o);
        State() == m.state && r == m.result && judgeCalls == old(judgeCalls) + m.calls
    {
      ghost var before := State();
      var generated;
      ghost var calls;
      generated, calls := AGenerateEvaluationSteps(o);
      judgeCalls := judgeCalls + calls;
      if generated.Failure? {
        AfterCheckFailed(Config(), before, testCase, o);
        return Failure(generated.error);
      }
      evaluationSteps := Some(generated.value);
      assert State() == before.(evaluationSteps := Some(generated.value));
      AfterCheckGenerated(Config(), before, testCase, o, generated.value);
      r := EvaluateAndRecord(testCase, o);
    }

    /** aMeasure: the fields and the judge calls move as `Measure` says. */
    method AMeasure(testCase: TestCase, o: Oracles) returns (r: Result<Answer>)
      modifies this
      ensures var m := Measure(Config(), old(State()), testCase, o);
        State() == m.state && r == m.result && judgeCalls == old(judgeCalls) + m.calls
    {
      var check := CheckLLMTestCaseParams(testCase, evaluationParams);
      if check.Fail? {
        ghost var i :| FirstMissingAt(testCase, evaluationParams, i) && check.error == MissingParameter(evaluationParams[i]);
        FirstMissingIsAt(testCase, evaluationParams, i);
        return Failure(check.error);
      }
      evaluationCost := Some(0.0);
      r := GenerateAndEvaluate(testCase, o);
    }

    /** isSuccessful: the last verdict, false before any. */
    function IsSuccessful(): (r: bool)
      reads this
      ensures r <==> success == Some(true)
    {
      success.GetOr(false)
    }

    /** __name: the name, with " (GEval)" appended when the suffix is on. */
    function MetricName(): (r: string)
      ensures |name| <= |r| && r[..|name|] == name
      ensures includeGEvalSuffix <==> r[|name|..] == " (GEval)"
      ensures !includeGEvalSuffix <==> r == name
    {
      if includeGEvalSuffix then name + " (GEval)" else name
    }
  }
}
