/** Helpers shared by metrics: the required-parameter check, the projection of
    test cases onto their non-empty parameters, and the verbose log text. */
module MetricUtils {
  import opened JsRuntime
  import opened Interfaces

  // ---------------------------------------------------------------------------
  // checkLLMTestCaseParams

  /** `i` is the first index of `required` whose parameter is not a key of the test case. */
  predicate FirstMissingAt(testCase: TestCase, required: seq<Param>, i: int) {
    0 <= i < |required| && required[i] !in testCase &&
    forall k :: 0 <= k < i ==> required[k] in testCase
  }

  /** The first required parameter that is not a key of the test case. */
  function FirstMissing(testCase: TestCase, required: seq<Param>): (r: Option<Param>)
    ensures r.None? <==> forall k :: 0 <= k < |required| ==> required[k] in testCase
    ensures r.Some? ==> exists i :: FirstMissingAt(testCase, required, i) && required[i] == r.value
  {
    if required == [] then None
    else if required[0] !in testCase then
      assert FirstMissingAt(testCase, required, 0);
      Some(required[0])
    else
      var rest := FirstMissing(testCase, required[1..]);
      assert rest.Some? ==> exists i :: FirstMissingAt(testCase, required, i) && required[i] == rest.value by {
        if rest.Some? {
          var i :| FirstMissingAt(testCase, required[1..], i) && required[1..][i] == rest.value;
          assert FirstMissingAt(testCase, required, i + 1) by {
            forall k | 0 <= k < i + 1 ensures required[k] in testCase {
              if k > 0 { assert required[k] == required[1..][k - 1]; }
            }
          }
        }
      }
      rest
  }

  function MissingParameter(p: Param): Thrown {
    Error("Missing parameter: " + ParamValue(p))
  }

  /** checkLLMTestCaseParams: passes when every required parameter is a key of
      the test case (an empty value passes), and otherwise throws for the first
      one that is not. */
  method CheckLLMTestCaseParams(testCase: TestCase, required: seq<Param>) returns (r: Outcome)
    ensures r.Pass? <==> forall k :: 0 <= k < |required| ==> required[k] in testCase
    ensures r.Fail? ==> exists i :: FirstMissingAt(testCase, required, i) && r.error == MissingParameter(required[i])
  {
    for i := 0 to |required|
      invariant forall k :: 0 <= k < i ==> required[k] in testCase
    {
      if required[i] !in testCase {
        assert FirstMissingAt(testCase, required, i);
        return Fail(MissingParameter(required[i]));
      }
    }
    return Pass;
  }

  /** The first missing parameter is the one at the first index missing from the test case. */
  lemma FirstMissingIsAt(testCase: TestCase, required: seq<Param>, i: int)
    requires FirstMissingAt(testCase, required, i)
    ensures FirstMissing(testCase, required) == Some(required[i])
  {
    var r := FirstMissing(testCase, required);
    var j :| FirstMissingAt(testCase, required, j) && required[j] == r.value;
    if i != j {
      assert false;
    }
  }

  // ---------------------------------------------------------------------------
  // processLLMTestCases

  /** The record built for one test case: the listed parameters whose value is
      non-empty, each mapped to its value. */
  function Projection(testCase: TestCase, params: seq<Param>): map<Param, string>
  {
    map p | p in params && p in testCase && Truthy(testCase[p]) :: testCase[p]
  }

  /** The inner `forEach` of processLLMTestCases: fills a fresh record. */
  method ProjectTestCase(testCase: TestCase, params: seq<Param>) returns (result: map<Param, string>)
    ensures result.Keys == set p | p in params && p in testCase && Truthy(testCase[p])
    ensures forall p :: p in result ==> result[p] == testCase[p]
  {
    result := map[];
    for i := 0 to |params|
      invariant result.Keys == set p | p in params[..i] && p in testCase && Truthy(testCase[p])
      invariant forall p :: p in result ==> result[p] == testCase[p]
    {
      var param := params[i];
      if param in testCase && Truthy(testCase[param]) {
        result := result[param := testCase[param]];
      }
      assert params[..i + 1] == params[..i] + [param];
    }
    assert params[..|params|] == params;
  }

  /** processLLMTestCases: one record per test case, in order. */
  method ProcessLLMTestCases(testCases: seq<TestCase>, params: seq<Param>) returns (records: seq<map<Param, string>>)
    ensures |records| == |testCases|
    ensures forall i :: 0 <= i < |testCases| ==> records[i] == Projection(testCases[i], params)
  {
    records := [];
    for i := 0 to |testCases|
      invariant |records| == i
      invariant forall k :: 0 <= k < i ==> records[k] == Projection(testCases[k], params)
    {
      var record := ProjectTestCase(testCases[i], params);
      records := records + [record];
    }
  }

  // ---------------------------------------------------------------------------
  // constructVerboseLogs

  /** constructVerboseLogs: all items but the last joined by " \n \n", then
      "\n \n" and the last item (`undefined` for an empty list). The metric's
      verboseMode only decides whether the text is also written to the console,
      so it is not an argument here. */
  function ConstructVerboseLogs(items: seq<string>): string
  {
    var n := |items|;
    Join(if n == 0 then [] else items[..n - 1], " \n \n") + "\n \n" + (if n == 0 then "undefined" else items[n - 1])
  }

  /** Two items: only the final separator "\n \n" appears between them. */
  lemma VerboseLogsTwo(a: string, b: string)
    ensures ConstructVerboseLogs([a, b]) == a + "\n \n" + b
  {
    assert [a, b][..1] == [a];
  }

  /** One item: the separator comes first. */
  lemma VerboseLogsOne(a: string)
    ensures ConstructVerboseLogs([a]) == "\n \n" + a
  {
    assert [a][..0] == [];
  }

  /** Three or more items: every separator is " \n \n" except the final one. */
  lemma VerboseLogsMany(items: seq<string>)
    requires |items| >= 3
    ensures var n := |items|;
      ConstructVerboseLogs(items) == Join(items[..n - 2], " \n \n") + " \n \n" + items[n - 2] + "\n \n" + items[n - 1]
  {
    var n := |items|;
    assert items[..n - 1] == items[..n - 2] + [items[n - 2]];
    JoinSnoc(items[..n - 2], items[n - 2], " \n \n");
  }
}
