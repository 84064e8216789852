/** The declarations the metric is written against: the evaluation parameters
    (the `LLMTestCaseParams` enumeration) and the shape of a test case. */
module Interfaces {

  /** The five fields of a test case that a metric can judge. */
  datatype Param = Input | ActualOutput | ExpectedOutput | Context | RetrievalContext

  /** The enumeration's string value, which is also the test-case key. */
  function ParamValue(p: Param): string
  {
    match p
    case Input => "input"
    case ActualOutput => "actualOutput"
    case ExpectedOutput => "expectedOutput"
    case Context => "context"
    case RetrievalContext => "retrievalContext"
  }

  /** A test case: the keys it has and their string values. A key may be
      present with the empty string as its value. */
  type TestCase = map<Param, string>
}
