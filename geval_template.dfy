/** The two prompt templates of the metric: each is one fixed text with its
    arguments spliced in. Both are total: they cannot fail. */
module GEvalTemplate {

  // The templates are indented text: every line after the first starts with
  // eight spaces, and the empty-looking lines hold two.
  const Indented: string := "\n        "
  const Spacer: string := "\n  "

  // The fixed pieces of the step-generation template, in order.
  const StepsHead: string := Indented + "Given an evaluation criteria which outlines how you should judge the "
  const StepsMiddle: string :=
    ", " + Indented + "generate 3-4 concise evaluation steps based on the criteria below. "
    + Indented + "You MUST make it clear how to evaluate "
  const StepsBeforeHeading: string := " in relation to one another." + Spacer + Indented
  const CriteriaHeading: string := "Evaluation Criteria:" + Indented
  const StepsBeforeCriteria: string := StepsBeforeHeading + CriteriaHeading
  const StepsTail: string :=
    Spacer + Indented + "**"
    + Indented + "IMPORTANT: Please make sure to only return in JSON format, "
    + "with the \"steps\" key as a list of strings. "
    + Indented + "No words or explanation is needed."
    + Indented + "Example JSON:"
    + Indented + "{"
    + Indented + "  \"steps\": <list_of_strings>"
    + Indented + "}"
    + Indented + "**"
    + Spacer + Indented + "JSON:"
    + "\n      "

  // The fixed pieces of the scoring template, in order.
  const ResultsHead: string :=
    Indented + "Given the evaluation steps, return a JSON with two keys: "
    + Indented + "1) a `score` key ranging from 0 - 10, "
    + "with 10 being that it follows the criteria outlined in the steps "
    + Indented + "and 0 being that it does not, and "
    + Indented + "2) a `reason` key, a reason for the given score, "
    + "but DO NOT QUOTE THE SCORE in your reason. "
    + Indented + "Please mention specific information from "
  const ResultsBeforeSteps: string :=
    " in your reason, but be very concise with it!" + Spacer + Indented + "Evaluation Steps:" + Indented
  const ResultsBeforeText: string := Spacer + Indented
  const ResultsTail: string :=
    Spacer + Indented + "**"
    + Indented + "IMPORTANT: Please make sure to only return in JSON format, "
    + "with the \"score\" and \"reason\" key. "
    + Indented + "No words or explanation is needed."
    + Spacer + Indented + "Example JSON:"
    + Indented + "{"
    + Indented + "  \"score\": 0,"
    + Indented + "  \"reason\": \"The text does not follow the evaluation steps provided.\""
    + Indented + "}"
    + Indented + "**"
    + Spacer + Indented + "JSON:"
    + "\n      "

  /** generateEvaluationSteps(parameters, criteria). */
  function GenerateEvaluationSteps(parameters: string, criteria: string): string
  {
    StepsHead + parameters + StepsMiddle + parameters + StepsBeforeCriteria + criteria + StepsTail
  }

  /** generateEvaluationResults(evaluationSteps, text, parameters). */
  function GenerateEvaluationResults(evaluationSteps: string, text: string, parameters: string): string
  {
    ResultsHead + parameters + ResultsBeforeSteps + evaluationSteps + ResultsBeforeText + text + ResultsTail
  }

  /** `s[at..at + |piece|]` is `piece`. */
  predicate Occurs(s: string, piece: string, at: int) {
    0 <= at && at + |piece| <= |s| && s[at..at + |piece|] == piece
  }

  /** Where the three arguments of a seven-piece template land. */
  lemma SplicedLayout(a: string, x: string, b: string, y: string, c: string, z: string, d: string)
    ensures var s := a + x + b + y + c + z + d;
      && Occurs(s, x, |a|)
      && Occurs(s, b, |a| + |x|)
      && Occurs(s, y, |a| + |x| + |b|)
      && Occurs(s, c, |a| + |x| + |b| + |y|)
      && Occurs(s, z, |a| + |x| + |b| + |y| + |c|)
      && |s| == |a| + |x| + |b| + |y| + |c| + |z| + |d|
  {
    var s := a + x + b + y + c + z + d;
    var i := |a| + |x| + |b| + |y| + |c|;
    assert s[|a|..|a| + |x|] == x;
    assert s[|a| + |x|..|a| + |x| + |b|] == b;
    assert s[|a| + |x| + |b|..|a| + |x| + |b| + |y|] == y;
    assert s[i - |c|..i] == c;
    assert s[i..i + |z|] == z;
  }

  /** A seven-piece template with fixed pieces determines its arguments once
      the lengths of the first two are known. */
  lemma SplicedInjective(a: string, b: string, c: string, d: string,
                         x1: string, y1: string, z1: string, x2: string, y2: string, z2: string)
    requires |x1| == |x2| && |y1| == |y2|
    requires a + x1 + b + y1 + c + z1 + d == a + x2 + b + y2 + c + z2 + d
    ensures x1 == x2 && y1 == y2 && z1 == z2
  {
    var s := a + x1 + b + y1 + c + z1 + d;
    SplicedLayout(a, x1, b, y1, c, z1, d);
    SplicedLayout(a, x2, b, y2, c, z2, d);
    var at := |a| + |x1| + |b| + |y1| + |c|;
    assert z1 == s[at..at + |z1|] == z2;
  }

  /** The end of an occurring piece occurs too. */
  lemma OccursSuffix(s: string, front: string, back: string, at: int)
    requires Occurs(s, front + back, at)
    ensures Occurs(s, back, at + |front|)
  {
    assert s[at + |front|..at + |front| + |back|] == (front + back)[|front|..];
  }

  /** Where the arguments of a template land when its third fixed piece ends in a marked heading. */
  lemma HeadedLayout(a: string, x: string, b: string, y: string, c: string, heading: string, z: string, d: string)
    ensures var s := a + x + b + y + (c + heading) + z + d;
      var first := |a|;
      var second := first + |x| + |b|;
      var atZ := second + |y| + |c + heading|;
      && Occurs(s, x, first)
      && Occurs(s, y, second)
      && Occurs(s, heading, atZ - |heading|)
      && Occurs(s, z, atZ)
      && first + |x| <= second
      && second + |y| <= atZ - |heading|
      && |s| == atZ + |z| + |d|
  {
    var s := a + x + b + y + (c + heading) + z + d;
    SplicedLayout(a, x, b, y, c + heading, z, d);
    OccursSuffix(s, c, heading, |a| + |x| + |b| + |y|);
  }

  /** The step prompt holds `parameters` twice, then the criteria heading directly
      followed by `criteria`, all in that order, and then the fixed tail. */
  lemma StepsPromptLayout(parameters: string, criteria: string)
    ensures var prompt := GenerateEvaluationSteps(parameters, criteria);
      var first := |StepsHead|;
      var second := first + |parameters| + |StepsMiddle|;
      var atCriteria := second + |parameters| + |StepsBeforeCriteria|;
      && Occurs(prompt, parameters, first)
      && Occurs(prompt, parameters, second)
      && Occurs(prompt, CriteriaHeading, atCriteria - |CriteriaHeading|)
      && Occurs(prompt, criteria, atCriteria)
      && first + |parameters| <= second
      && second + |parameters| <= atCriteria - |CriteriaHeading|
      && |prompt| == atCriteria + |criteria| + |StepsTail|
  {
    HeadedLayout(StepsHead, parameters, StepsMiddle, parameters, StepsBeforeHeading, CriteriaHeading, criteria, StepsTail);
  }

  /** Arguments can be read back from a step prompt once the length of
      `parameters` is known, so different arguments give different prompts. */
  lemma StepsPromptInjective(p1: string, c1: string, p2: string, c2: string)
    requires |p1| == |p2|
    requires GenerateEvaluationSteps(p1, c1) == GenerateEvaluationSteps(p2, c2)
    ensures p1 == p2 && c1 == c2
  {
    SplicedInjective(StepsHead, StepsMiddle, StepsBeforeCriteria, StepsTail, p1, p1, c1, p2, p2, c2);
  }

  /** The scoring prompt holds `parameters`, then `evaluationSteps`, then `text`, in that order. */
  lemma ResultsPromptLayout(evaluationSteps: string, text: string, parameters: string)
    ensures var prompt := GenerateEvaluationResults(evaluationSteps, text, parameters);
      var atParameters := |ResultsHead|;
      var atSteps := atParameters + |parameters| + |ResultsBeforeSteps|;
      var atText := atSteps + |evaluationSteps| + |ResultsBeforeText|;
      && Occurs(prompt, parameters, atParameters)
      && Occurs(prompt, evaluationSteps, atSteps)
      && Occurs(prompt, text, atText)
      && atParameters + |parameters| <= atSteps
      && atSteps + |evaluationSteps| <= atText
      && |prompt| == atText + |text| + |ResultsTail|
  {
    SplicedLayout(ResultsHead, parameters, ResultsBeforeSteps, evaluationSteps, ResultsBeforeText, text, ResultsTail);
  }

  /** Given the lengths of its first and last arguments, the scoring prompt determines all three. */
  lemma ResultsPromptInjective(s1: string, t1: string, p1: string, s2: string, t2: string, p2: string)
    requires |p1| == |p2| && |s1| == |s2|
    requires GenerateEvaluationResults(s1, t1, p1) == GenerateEvaluationResults(s2, t2, p2)
    ensures s1 == s2 && t1 == t2 && p1 == p2
  {
    SplicedInjective(ResultsHead, ResultsBeforeSteps, ResultsBeforeText, ResultsTail, p1, s1, t1, p2, s2, t2);
  }

  /** A prompt the metric sends: the template it fills and the arguments it
      fills it with. The judge reads its text, `PromptText`. */
  datatype Prompt =
    | EvaluationStepsPrompt(parameters: string, criteria: string)
    | EvaluationResultsPrompt(evaluationSteps: string, text: string, parameters: string)

  /** The text of a prompt: its template with the arguments spliced in. */
  function PromptText(prompt: Prompt): string
  {
    match prompt
    case EvaluationStepsPrompt(parameters, criteria) => GenerateEvaluationSteps(parameters, criteria)
    case EvaluationResultsPrompt(evaluationSteps, text, parameters) => GenerateEvaluationResults(evaluationSteps, text, parameters)
  }
}
