/** The judge (the chat-completion client) and `JSON.parse`, seen from the metric:
    foreign code whose answers are inputs of the model. */
module JudgeModel {
  import opened JsRuntime
  import opened GEvalTemplate

  /** One entry of a token's `top_logprobs`: the candidate text and its linear
      probability, that is `Math.exp` of the reported log-probability. */
  datatype Alternative = Alternative(token: string, probability: real)

  /** One emitted token with its alternatives. */
  datatype TokenLogprobs = TokenLogprobs(token: string, topLogprobs: seq<Alternative>)

  /** What `generateRawResponse` resolves to: the content and, when
      `logprobResult.content` is an array, the per-token log-probabilities. */
  datatype RawResponse = RawResponse(content: string, logprobs: Option<seq<TokenLogprobs>>)

  /** A parsed scoring answer `{score, reason}`. */
  datatype ScoreDoc = ScoreDoc(score: int, reason: string)

  /** The foreign operations one evaluation may use:
      - generate(systemPrompt, userPrompt): the plain completion call;
      - generateRaw(systemPrompt, userPrompt, logprobs, topLogprobs): the call with log-probabilities;
      the system prompt is always one of the metric's prompts, read by the judge as its `PromptText`;
      - parseSteps(json): `JSON.parse(json).steps`, throwing on invalid JSON;
      - parseScore(json): `JSON.parse(json)` read as `{score, reason}`, throwing on invalid JSON;
      - formatNumber(n): the text `${n}` gives for a number. */
  datatype Oracles = Oracles(
    generate: (Prompt, string) -> Result<string>,
    generateRaw: (Prompt, string, bool, int) -> Result<RawResponse>,
    parseSteps: string -> Result<seq<string>>,
    parseScore: string -> Result<ScoreDoc>,
    formatNumber: Num -> string)

  /** A call issued to the judge, tagged with the call site that issued it. */
  datatype JudgeCall =
    | StepsCall(systemPrompt: Prompt, userPrompt: string)
    | RawScoreCall(systemPrompt: Prompt, userPrompt: string, logprobs: bool, topLogprobs: int)
    | FallbackScoreCall(systemPrompt: Prompt, userPrompt: string)
}
