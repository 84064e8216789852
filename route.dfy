/** The POST handler of the evaluation endpoint: it validates the request body,
    builds the test case and the list of judged parameters, runs one measure
    of a fresh metric, and maps what it throws to a server error. */
module GEvalRoute {
  import opened JsRuntime
  import opened Interfaces
  import opened JudgeModel
  import opened MetricUtils
  import opened GEvalMetric

  /** The fields the handler reads from the parsed body; None is an absent
      field or `null`. */
  datatype RequestBody = RequestBody(
    name: Option<string>,
    input: Option<string>,
    actualOutput: Option<string>,
    expectedOutput: Option<string>,
    context: Option<string>,
    retrievalContext: Option<string>,
    criteria: Option<string>)

  /** What the handler answers. */
  datatype Response =
    | Ok(score: Num, reason: string)
    | BadRequest(error: string)
    | ServerError(error: string, details: string)

  /** The HTTP status of a response. */
  function Status(response: Response): (r: int)
    ensures r == 200 <==> response.Ok?
    ensures r == 400 <==> response.BadRequest?
    ensures r == 500 <==> response.ServerError?
  {
    match response
    case Ok(_, _) => 200
    case BadRequest(_) => 400
    case ServerError(_, _) => 500
  }

  const MissingFields: string := "Missing required fields: name, input, or actualOutput"
  const ProcessingFailed: string := "Failed to process GEval request"
  const UnknownError: string := "Unknown error"

  /** The model the handler hands to the metric: a client built with only an
      API key, which defaults to this model. */
  const RouteModelName: string := "gpt-4o"

  /** `!value` for a field: absent, `null` or the empty string. */
  predicate Falsy(value: Option<string>) {
    value.None? || !Truthy(value.value)
  }

  /** `value || ''`. */
  function OrEmpty(value: Option<string>): (r: string)
    ensures Falsy(value) <==> r == ""
    ensures !Falsy(value) ==> r == value.value
  {
    if Falsy(value) then "" else value.value
  }

  /** `value || null`. */
  function OrNull(value: Option<string>): (r: Option<string>)
    ensures r.None? <==> Falsy(value)
    ensures r.Some? ==> r == value && Truthy(r.value)
  {
    if Falsy(value) then None else value
  }

  /** The catch clause: the message of an `Error`, otherwise "Unknown error". */
  function ServerFailure(e: Thrown): (r: Response)
    ensures r.ServerError? && r.error == ProcessingFailed
    ensures e.Error? ==> r.details == e.message
    ensures e.NonError? ==> r.details == UnknownError
  {
    ServerError(ProcessingFailed, if e.Error? then e.message else UnknownError)
  }

  /** One of `name`, `input` and `actualOutput` is falsy. */
  predicate RequiredMissing(b: RequestBody) {
    Falsy(b.name) || Falsy(b.input) || Falsy(b.actualOutput)
  }

  /** The body field a parameter is read from. */
  function Field(b: RequestBody, p: Param): Option<string>
  {
    match p
    case Input => b.input
    case ActualOutput => b.actualOutput
    case ExpectedOutput => b.expectedOutput
    case Context => b.context
    case RetrievalContext => b.retrievalContext
  }

  /** The test case the handler builds: input and actual output as given,
      the optional fields defaulting to the empty string. */
  function TestCaseOf(b: RequestBody): TestCase
  {
    map[Input := OrEmpty(b.input), ActualOutput := OrEmpty(b.actualOutput),
        ExpectedOutput := OrEmpty(b.expectedOutput), Context := OrEmpty(b.context),
        RetrievalContext := OrEmpty(b.retrievalContext)]
  }

  /** The parameters in the enumeration's fixed order. */
  const AllParams: seq<Param> := [Input, ActualOutput, ExpectedOutput, Context, RetrievalContext]

  /** A parameter's position in the fixed order. */
  function Rank(p: Param): nat
  {
    match p
    case Input => 0
    case ActualOutput => 1
    case ExpectedOutput => 2
    case Context => 3
    case RetrievalContext => 4
  }

  /** Whether the handler judges a parameter: always for input and actual
      output, otherwise when its field is truthy. */
  predicate Selected(b: RequestBody, p: Param) {
    p == Input || p == ActualOutput || !Falsy(Field(b, p))
  }

  /** The parameters of `ps` the handler judges, in the order of `ps`. */
  function SelectFrom(b: RequestBody, ps: seq<Param>): seq<Param>
  {
    if ps == [] then []
    else (if Selected(b, ps[0]) then [ps[0]] else []) + SelectFrom(b, ps[1..])
  }

  /** The judged parameters: the selected ones in the fixed order. */
  function EvaluationParams(b: RequestBody): seq<Param>
  {
    SelectFrom(b, AllParams)
  }

  /** The metric's configuration as the handler builds it: the judged
      parameters, `criteria || null`, and the metric's defaults for the
      threshold (0.5) and strict mode (off). */
  function RouteSettings(b: RequestBody): Settings
  {
    Settings(EvaluationParams(b), OrNull(b.criteria), DefaultThreshold, false)
  }

  /** A fresh metric built with `evaluationSteps = null`. */
  const FreshState: MetricState := MetricState(None, None, None, None, None, None)

  /** The handler: a body that did not parse is a server error, a missing
      required field a bad request; otherwise one measure, whose answer is the
      response and whose throw is a server error. */
  function Handle(body: Result<RequestBody>, o: Oracles): Response
  {
    match body
    case Failure(e) => ServerFailure(e)
    case Success(b) =>
      if RequiredMissing(b) then BadRequest(MissingFields)
      else
        match Measure(RouteSettings(b), FreshState, TestCaseOf(b), o).result
        case Failure(e) => ServerFailure(e)
        case Success(a) => Ok(a.score, a.reason)
  }

  /** The pushes of the handler: start with input and actual output, then
      append each optional parameter whose field is truthy. */
  method PrepareParams(b: RequestBody) returns (params: seq<Param>)
    ensures params == EvaluationParams(b)
  {
    params := [Input, ActualOutput];
    if !Falsy(b.expectedOutput) {
      params := params + [ExpectedOutput];
    }
    if !Falsy(b.context) {
      params := params + [Context];
    }
    if !Falsy(b.retrievalContext) {
      params := params + [RetrievalContext];
    }
    EvaluationParamsUnfold(b);
  }

  /** The selection over the fixed order, written out. */
  lemma EvaluationParamsUnfold(b: RequestBody)
    ensures EvaluationParams(b) ==
      [Input, ActualOutput]
      + (if !Falsy(b.expectedOutput) then [ExpectedOutput] else [])
      + (if !Falsy(b.context) then [Context] else [])
      + (if !Falsy(b.retrievalContext) then [RetrievalContext] else [])
  {
    var tail4: seq<Param> := [RetrievalContext];
    var tail3: seq<Param> := [Context, RetrievalContext];
    var tail2: seq<Param> := [ExpectedOutput, Context, RetrievalContext];
    var tail1: seq<Param> := [ActualOutput, ExpectedOutput, Context, RetrievalContext];
    assert tail4[1..] == [];
    assert SelectFrom(b, tail4) == (if !Falsy(b.retrievalContext) then [RetrievalContext] else []);
    assert tail3[1..] == tail4;
    assert SelectFrom(b, tail3) == (if !Falsy(b.context) then [Context] else []) + SelectFrom(b, tail4);
    assert tail2[1..] == tail3;
    assert SelectFrom(b, tail2) == (if !Falsy(b.expectedOutput) then [ExpectedOutput] else []) + SelectFrom(b, tail3);
    assert tail1[1..] == tail2;
    assert SelectFrom(b, tail1) == [ActualOutput] + SelectFrom(b, tail2);
    assert AllParams[1..] == tail1;
    assert EvaluationParams(b) == [Input] + SelectFrom(b, tail1);
  }

  /** POST. */
  method Post(body: Result<RequestBody>, o: Oracles) returns (response: Response)
    ensures response == Handle(body, o)
  {
    if body.Failure? {
      return ServerFailure(body.error);
    }
    var b := body.value;
    if Falsy(b.name) || Falsy(b.input) || Falsy(b.actualOutput) {
      return BadRequest(MissingFields);
    }
    var testCase := TestCaseOf(b);
    var evaluationParams := PrepareParams(b);
    var gEval := new GEval(b.name.value, evaluationParams, OrNull(b.criteria), None, Some(RouteModelName));
    var r := gEval.AMeasure(testCase, o);
    if r.Failure? {
      return ServerFailure(r.error);
    }
    response := Ok(r.value.score, r.value.reason);
  }

  // ---------------------------------------------------------------------------
  // Properties

  /** The handler answers 400 exactly when the body parsed and one of the
      required fields is falsy, and then with the fixed message. */
  lemma BadRequestIffRequiredMissing(body: Result<RequestBody>, o: Oracles)
    ensures Status(Handle(body, o)) == 400 <==> body.Success? && RequiredMissing(body.value)
    ensures Status(Handle(body, o)) == 400 ==> Handle(body, o) == BadRequest(MissingFields)
  {
  }

  /** A selected parameter belongs to the list, and only those do. */
  lemma {:induction false} SelectFromMembers(b: RequestBody, ps: seq<Param>, p: Param)
    ensures p in SelectFrom(b, ps) <==> p in ps && Selected(b, p)
  {
    if ps != [] {
      SelectFromMembers(b, ps[1..], p);
      assert ps == [ps[0]] + ps[1..];
    }
  }

  /** The judged parameters: input and actual output first, then the optional
      parameters whose field is truthy and no other, in the fixed order, so
      between two and five of them and no parameter twice. */
  lemma EvaluationParamsShape(b: RequestBody)
    ensures var params := EvaluationParams(b);
      && 2 <= |params| <= 5
      && params[..2] == [Input, ActualOutput]
      && (forall p :: p in params <==> Selected(b, p))
      && (forall i, j :: 0 <= i < j < |params| ==> Rank(params[i]) < Rank(params[j]))
      && (forall i, j :: 0 <= i < j < |params| ==> params[i] != params[j])
  {
    var params := EvaluationParams(b);
    EvaluationParamsUnfold(b);
    forall p ensures p in params <==> Selected(b, p) {
      SelectFromMembers(b, AllParams, p);
    }
  }

  /** Every key of the test case is present; input and actual output carry the
      request's text, each optional field its text or the empty string. */
  lemma TestCaseDefaults(b: RequestBody)
    requires !RequiredMissing(b)
    ensures var testCase := TestCaseOf(b);
      && (forall p :: p in testCase)
      && testCase[Input] == b.input.value && testCase[ActualOutput] == b.actualOutput.value
      && (forall p :: p != Input && p != ActualOutput ==>
            testCase[p] == (if Falsy(Field(b, p)) then "" else Field(b, p).value))
  {
    var testCase := TestCaseOf(b);
    forall p ensures p in testCase {
      match p
      case Input =>
      case ActualOutput =>
      case ExpectedOutput =>
      case Context =>
      case RetrievalContext =>
    }
  }

  /** Every judged parameter is a key of the test case with a non-empty value,
      so the required-parameter check passes and each judged parameter is kept
      by the projection onto non-empty values. */
  lemma JudgedParamsArePresent(b: RequestBody)
    requires !RequiredMissing(b)
    ensures FirstMissing(TestCaseOf(b), EvaluationParams(b)).None?
    ensures Projection(TestCaseOf(b), EvaluationParams(b)).Keys == set p | p in EvaluationParams(b)
  {
    var testCase := TestCaseOf(b);
    var params := EvaluationParams(b);
    EvaluationParamsShape(b);
    TestCaseDefaults(b);
    forall p | p in params ensures p in testCase && Truthy(testCase[p]) {
      assert Selected(b, p);
    }
  }

  /** For a well-formed body the measure goes past the parameter check: its
      outcome is that of step generation and evaluation on a metric whose cost
      is reset. */
  lemma ParameterCheckCannotFail(b: RequestBody, o: Oracles)
    requires !RequiredMissing(b)
    ensures Measure(RouteSettings(b), FreshState, TestCaseOf(b), o) ==
      AfterCheck(RouteSettings(b), FreshState.(evaluationCost := Some(0.0)), TestCaseOf(b), o)
  {
    JudgedParamsArePresent(b);
  }

  /** The first judge call of every measure the handler runs generates the
      evaluation steps, from the request's criteria and the judged parameters. */
  lemma RouteAlwaysGeneratesSteps(b: RequestBody, o: Oracles)
    requires !RequiredMissing(b)
    ensures var m := Measure(RouteSettings(b), FreshState, TestCaseOf(b), o);
      |m.calls| >= 1 && m.calls[0] == StepsCall(StepsPrompt(OrNull(b.criteria), EvaluationParams(b)), "")
  {
    JudgedParamsArePresent(b);
    MeasureUncachedGeneratesSteps(RouteSettings(b), FreshState, TestCaseOf(b), o);
  }

  /** A well-formed body gets 200 with the measure's answer, or 500 with the
      message of what the measure threw ("Unknown error" for a non-Error). */
  lemma WellFormedOutcome(b: RequestBody, o: Oracles)
    requires !RequiredMissing(b)
    ensures var m := Measure(RouteSettings(b), FreshState, TestCaseOf(b), o);
      var response := Handle(Success(b), o);
      && (m.result.Success? ==> response == Ok(m.result.value.score, m.result.value.reason))
      && (m.result.Failure? ==>
            response == ServerError(ProcessingFailed, if m.result.error.Error? then m.result.error.message else UnknownError))
  {
  }

  /** A body that could not be read is a 500 carrying the parse error's message. */
  lemma UnreadableBodyIsServerError(e: Thrown, o: Oracles)
    ensures Handle(Failure(e), o) == ServerError(ProcessingFailed, if e.Error? then e.message else UnknownError)
  {
  }
}
