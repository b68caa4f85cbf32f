/** `EvaluatorAgent`: asks the language model to score both drafts, replaces the decision
    the model proposes by the workflow's own rule and records the verdict in the shared
    state. */
module EvaluatorAgent {
  import opened Wrappers
  import opened Strings
  import opened Json
  import opened AgentState
  import opened LanguageSupport
  import opened LlmOracle

  // ---------------------------------------------------------------- parsing the reply

  /** The evaluation `_parse_evaluation_response` returns when the reply holds none. */
  const FallbackEvaluation: Object := map[
    "overall_score" := JInt(50),
    "scores_by_chapter" := JArr([]),
    "strengths" := JArr([JStr("Contenido generado")]),
    "weaknesses" := JArr([JStr("No se pudo evaluar completamente")]),
    "suggestions" := JArr([JStr("Revisar manualmente")]),
    "decision" := JStr("improve"),
    "improvement_instructions" := JStr("Mejorar la estructura y claridad del contenido")]

  /** A decoded object is accepted as an evaluation when it has an overall score. */
  predicate IsEvaluation(o: Object) {
    "overall_score" in o
  }

  /** `_parse_evaluation_response`; `decode` is `json.loads`, `None` standing for a decoding
      error. */
  function ParseEvaluationResponse(response: string, decode: string -> Option<Object>): Object {
    match ObjectSlice(response)
    case None => FallbackEvaluation
    case Some(text) =>
      match decode(text)
      case None => FallbackEvaluation
      case Some(evaluation) => if IsEvaluation(evaluation) then evaluation else FallbackEvaluation
  }

  /** The fallback scores 50, scores no chapter and proposes to improve. */
  lemma FallbackEvaluationShape()
    ensures IsEvaluation(FallbackEvaluation) && FallbackEvaluation["overall_score"] == JInt(50)
    ensures FallbackEvaluation["scores_by_chapter"] == JArr([])
    ensures FallbackEvaluation["decision"] == JStr("improve")
  {
  }

  /** Whatever the reply, the result has an overall score: it is the decoded `{`…`}` slice of
      the reply when that decodes and has one, the fallback otherwise; a reply in which no
      `}` follows a `{` always gives the fallback. */
  lemma ParsedEvaluation(response: string, decode: string -> Option<Object>)
    ensures IsEvaluation(ParseEvaluationResponse(response, decode))
    ensures var slice := ObjectSlice(response);
      if slice.Some? && decode(slice.value).Some? && IsEvaluation(decode(slice.value).value)
      then ParseEvaluationResponse(response, decode) == decode(slice.value).value
      else ParseEvaluationResponse(response, decode) == FallbackEvaluation
    ensures !(exists i, j :: 0 <= i < j < |response| && response[i] == '{' && response[j] == '}') ==>
      ParseEvaluationResponse(response, decode) == FallbackEvaluation
  {
    FallbackEvaluationShape();
    ObjectSliceSpec(response);
  }

  // ---------------------------------------------------------------- the decision rule

  datatype Decision = Improve | Accept | Reject

  function DecisionName(d: Decision): string {
    match d
    case Improve => "improve"
    case Accept => "accept"
    case Reject => "reject"
  }

  /** The rule that overrides the model's own decision: improve while the score is below the
      threshold and iterations remain, accept from the threshold on, reject otherwise.
      Comparing a score that is not a number with the threshold raises `TypeError`. */
  function Decide(score: Json, threshold: real, iterationCount: int, maxIterations: int): (r: Result<Decision>)
    ensures r.Ok? <==> AsNumber(score).Some?
    ensures r == Ok(Improve) <==> AsNumber(score).Some? && AsNumber(score).value < threshold && iterationCount < maxIterations
    ensures r == Ok(Accept) <==> AsNumber(score).Some? && AsNumber(score).value >= threshold
    ensures r == Ok(Reject) <==> AsNumber(score).Some? && AsNumber(score).value < threshold && iterationCount >= maxIterations
  {
    match AsNumber(score)
    case None => Err(TypeError("'<' not supported between the score and a float"))
    case Some(s) =>
      if s < threshold && iterationCount < maxIterations then Ok(Improve)
      else if s >= threshold then Ok(Accept)
      else Ok(Reject)
  }

  /** The worked examples of the rule, threshold 70 and at most 3 iterations. A score of 60
      with the iterations used up is rejected: the forgiveness of a near miss happens in the
      workflow's router, not here. */
  lemma DecisionExamples()
    ensures Decide(JInt(75), 70.0, 0, 3) == Ok(Accept)
    ensures Decide(JInt(60), 70.0, 0, 3) == Ok(Improve)
    ensures Decide(JInt(60), 70.0, 3, 3) == Ok(Reject)
    ensures Decide(JInt(30), 70.0, 3, 3) == Ok(Reject)
    ensures Decide(JStr("75"), 70.0, 0, 3).Err?
  {
  }

  /** 2^1024 - 2^970: a real of at least this magnitude rounds past the largest double, so
      Python's float arithmetic gives an infinity for it and int-by-int division raises. */
  const FloatOverflow: int := 179769313486231580793728971405303415079934132710037826936173778980444968292764750946649017977587207096330286416692887910946555547851940402630657488671505820681908902000708383676273854845817711531764475730270069855571366959622842914819860834936475292719074168444365510704342711559699508093042880177904174497792

  /** 2^63: one past the largest index-sized integer, the largest repeat count a string
      accepts. */
  const IndexBound: int := 0x8000_0000_0000_0000

  /** The smallest magnitude of an int score whose bar fails. Dividing `20 * score` by 100
      rounds the quotient score/5 to a float once; a quotient of 2^63 - 2^9 or more rounds
      to 2^63, whose truncation no longer fits an index, and one of -(2^63 - 2^9) or less
      rounds to -2^63, which makes the other repeat count, 20 minus it, too large. */
  const IntBarLimit: int := 5 * (IndexBound - 512)

  /** The smallest magnitude of a float score whose bar fails: 5 * 2^63, whose product with
      20 and quotient by 100 are exact and give 2^63. The next float below it gives a bar
      length below 2^63 after both roundings. */
  const FloatBarLimit: real := 5.0 * IndexBound as real

  /** The error of the score bar: `score_filled = int(20 * overall_score / 100)`, then
      `"█" * score_filled + "░" * (20 - score_filled)`.
      - An int score is divided as an int. The division raises `OverflowError` once the
        quotient is too large for a float.
      - A float score's product with 20 may become infinite, which `int` refuses with
        `OverflowError`.
      - Otherwise a repeat count outside the index-sized integers, that is a bar length
        above 2^63 - 1 or below 21 - 2^63, raises `OverflowError`.
      The float bound is exact for every value a float can hold. A bar that fits an index
      but not in memory is outside the model. Any score of ordinary size passes. */
  function ScoreBarError(score: Json): (r: Option<Error>)
    ensures r.Some? ==> r.value.OverflowError? && (score.JInt? || score.JFloat?)
    ensures AsNumber(score).Some? && -100.0 <= AsNumber(score).value <= 100.0 ==> r.None?
    ensures score.JInt? ==> (r.Some? <==> score.i >= IntBarLimit || score.i <= -IntBarLimit)
    ensures score.JFloat? ==> (r.Some? <==> score.r >= FloatBarLimit || score.r <= -FloatBarLimit)
    ensures score.JInt? && (score.i * 20 >= 100 * FloatOverflow || score.i * 20 <= -100 * FloatOverflow) ==>
      r == Some(OverflowError("integer division result too large for a float"))
    ensures score.JFloat? && (score.r * 20.0 >= FloatOverflow as real || score.r * 20.0 <= -FloatOverflow as real) ==>
      r == Some(OverflowError("cannot convert float infinity to integer"))
  {
    match score
    case JInt(i) =>
      if i >= 5 * FloatOverflow || i <= -5 * FloatOverflow then
        Some(OverflowError("integer division result too large for a float"))
      else if i >= IntBarLimit || i <= -IntBarLimit then
        Some(OverflowError("cannot fit 'int' into an index-sized integer"))
      else None
    case JFloat(x) =>
      if 20.0 * x >= FloatOverflow as real || 20.0 * x <= -FloatOverflow as real then
        Some(OverflowError("cannot convert float infinity to integer"))
      else if x >= FloatBarLimit || x <= -FloatBarLimit then
        Some(OverflowError("cannot fit 'int' into an index-sized integer"))
      else None
    case _ => None
  }

  /** A score of 10^20 decides, but its bar length does not fit an index, so the verdict
      fails; the same holds for a score of -10^20. */
  lemma HugeScoreFails(s: StateValue)
    ensures Verdict(map["overall_score" := JInt(100_000_000_000_000_000_000)], s).Err?
    ensures Verdict(map["overall_score" := JInt(-100_000_000_000_000_000_000)], s).Err?
  {
  }

  /** The first error the log of the verdict raises: the score bar, then the first three
      strengths and weaknesses, which are sliced when there are any, and the improvement
      instructions of an "improve" verdict. */
  function LogError(evaluation: Object, d: Decision): Option<Error> {
    var bar := ScoreBarError(Get(evaluation, "overall_score", JInt(0)));
    var strengths := Get(evaluation, "strengths", JArr([]));
    var weaknesses := Get(evaluation, "weaknesses", JArr([]));
    var instructions := Get(evaluation, "improvement_instructions", JNull);
    if bar.Some? then bar
    else if Truthy(strengths) && !Sliceable(strengths) then Some(TypeError("strengths are not subscriptable"))
    else if Truthy(weaknesses) && !Sliceable(weaknesses) then Some(TypeError("weaknesses are not subscriptable"))
    else if d == Improve && Truthy(instructions) && !Sliceable(instructions) then
      Some(TypeError("improvement instructions are not subscriptable"))
    else None
  }

  /** The snapshot of one pass that goes into `feedback_history`. */
  function Entry(evaluation: Object, iteration: int): FeedbackEntry {
    FeedbackEntry(
      iteration,
      Get(evaluation, "overall_score", JInt(0)),
      Get(evaluation, "decision", JNull),
      Get(evaluation, "improvement_instructions", JStr("")),
      Get(evaluation, "scores_by_chapter", JArr([])))
  }

  /** The state `evaluate` leaves once the reply is parsed into `evaluation`. */
  function Verdict(evaluation: Object, s: StateValue): Result<StateValue> {
    var score := Get(evaluation, "overall_score", JInt(0));
    match Decide(score, s.qualityThreshold, s.iterationCount, s.maxIterations)
    case Err(e) => Err(e)
    case Ok(d) =>
      var decided := evaluation["decision" := JStr(DecisionName(d))];
      match LogError(decided, d)
      case Some(e) => Err(e)
      case None => Ok(s.(evaluation := Some(decided), feedbackHistory := s.feedbackHistory + [Entry(decided, s.iterationCount)]))
  }

  /** The verdict stands exactly when the score decides and the decided evaluation logs no
      error; it is then the evaluation with its decision replaced, and one more feedback entry
      for this iteration behind the old ones. Nothing else changes. A decided score too large
      for the score bar fails with the bar's `OverflowError`. */
  lemma VerdictSpec(evaluation: Object, s: StateValue)
    ensures var r := Verdict(evaluation, s);
      var d := Decide(Get(evaluation, "overall_score", JInt(0)), s.qualityThreshold, s.iterationCount, s.maxIterations);
      && (r.Ok? <==> d.Ok? && LogError(evaluation["decision" := JStr(DecisionName(d.value))], d.value).None?)
      && (d.Ok? && ScoreBarError(Get(evaluation, "overall_score", JInt(0))).Some? ==>
            r == Err(ScoreBarError(Get(evaluation, "overall_score", JInt(0))).value))
      && (r.Ok? ==>
            var t := r.value;
            && t == s.(evaluation := t.evaluation, feedbackHistory := t.feedbackHistory)
            && t.evaluation == Some(evaluation["decision" := JStr(DecisionName(d.value))])
            && |t.feedbackHistory| == |s.feedbackHistory| + 1
            && t.feedbackHistory[..|s.feedbackHistory|] == s.feedbackHistory
            && t.feedbackHistory[|s.feedbackHistory|].iteration == s.iterationCount
            && t.feedbackHistory[|s.feedbackHistory|].decision == JStr(DecisionName(d.value))
            && t.feedbackHistory[|s.feedbackHistory|].overallScore == Get(evaluation, "overall_score", JInt(0)))
  {
    var d := Decide(Get(evaluation, "overall_score", JInt(0)), s.qualityThreshold, s.iterationCount, s.maxIterations);
    if d.Ok? {
      var decided := evaluation["decision" := JStr(DecisionName(d.value))];
      var history := s.feedbackHistory + [Entry(decided, s.iterationCount)];
      assert history[..|s.feedbackHistory|] == s.feedbackHistory;
    }
  }

  // ---------------------------------------------------------------- the prompt

  /** How much of each chapter the judge sees. */
  const PreviewLength: nat := 2000

  const EvaluationHeadEs: string := @"Evalúa la calidad del siguiente contenido generado para un audiobook.

Criterios de evaluación:
1. Claridad y comprensibilidad (0-25 puntos)
2. Estructura y organización (0-25 puntos)
3. Completitud del tema (0-25 puntos)
4. Apropiado para formato audiobook (0-15 puntos)
5. Calidad de escritura (0-10 puntos)

"

  const EvaluationHeadEn: string := @"Evaluate the quality of the following generated content for an audiobook.

Evaluation criteria:
1. Clarity and comprehensibility (0-25 points)
2. Structure and organization (0-25 points)
3. Topic completeness (0-25 points)
4. Appropriate for audiobook format (0-15 points)
5. Writing quality (0-10 points)

"

  const Generator1Header: string := "\n=== CONTENIDO DEL GENERADOR 1 ===\n"
  const Generator2Header: string := "\n=== CONTENIDO DEL GENERADOR 2 ===\n"

  /** The rubric the prompt opens with, Spanish exactly for "es". */
  function EvaluationHead(language: string): string {
    if language == "es" then EvaluationHeadEs else EvaluationHeadEn
  }

  /** `content[:2000]`. */
  function Preview(content: string): (p: string)
    ensures |p| == if |content| <= PreviewLength then |content| else PreviewLength
    ensures p == content[..|p|]
  {
    if |content| <= PreviewLength then content else content[..PreviewLength]
  }

  /** The line that introduces a chapter; it says "Capítulo" whatever the language. */
  function ChapterHeading(ch: ChapterRecord): string {
    "\n--- Cap\U{ED}tulo " + IntToString(ch.chapterNumber) + ": " + ch.chapterTitle + " ---\n"
  }

  /** What one chapter contributes: its heading, then at most its first 2000 characters and
      an ellipsis. */
  function ChapterBlock(ch: ChapterRecord): string {
    ChapterHeading(ch) + (Preview(ch.content) + "...\n")
  }

  /** The blocks of the chapters, in order. */
  function Blocks(chapters: seq<ChapterRecord>): string {
    Joined(chapters, ChapterBlock)
  }

  function Joined(chapters: seq<ChapterRecord>, block: ChapterRecord -> string): string {
    if chapters == [] then "" else Joined(chapters[..|chapters| - 1], block) + block(chapters[|chapters| - 1])
  }

  /** A generator's part of the prompt: nothing for an empty draft, otherwise its header and
      the blocks of its chapters in order. */
  function Section(header: string, chapters: seq<ChapterRecord>): string {
    if chapters == [] then "" else header + Blocks(chapters)
  }

  /** `_build_evaluation_prompt`, given the rubric it opens with and the answer format it
      closes with. */
  function EvaluationPrompt(head: string, contentV1: seq<ChapterRecord>, contentV2: seq<ChapterRecord>, format: string): string {
    head + Section(Generator1Header, contentV1) + Section(Generator2Header, contentV2) + "\n\n" + format
  }

  lemma Regroup<T>(a: seq<T>, b: seq<T>, c: seq<T>)
    ensures a + b + c == a + (b + c)
  {
  }

  lemma {:induction false} JoinedConcat(a: seq<ChapterRecord>, b: seq<ChapterRecord>, block: ChapterRecord -> string)
    ensures Joined(a + b, block) == Joined(a, block) + Joined(b, block)
    decreases |b|
  {
    if b == [] {
      assert a + b == a;
    } else {
      var n := |b| - 1;
      assert (a + b)[..|a + b| - 1] == a + b[..n];
      JoinedConcat(a, b[..n], block);
      Regroup(Joined(a, block), Joined(b[..n], block), block(b[n]));
    }
  }

  /** Chapter `k`'s block, its heading, a preview of at most 2000 characters and an ellipsis,
      comes right after the blocks of the chapters before it and right before the blocks of
      the chapters after it: the chapters appear in order, each cut to its first 2000
      characters. */
  lemma BlockInPlace(chapters: seq<ChapterRecord>, k: nat)
    requires k < |chapters|
    ensures Blocks(chapters) == Blocks(chapters[..k])
      + (ChapterHeading(chapters[k]) + (chapters[k].content[..|Preview(chapters[k].content)|] + "...\n"))
      + Blocks(chapters[k + 1..])
    ensures |Preview(chapters[k].content)| <= PreviewLength
  {
    assert chapters == chapters[..k] + [chapters[k]] + chapters[k + 1..];
    JoinedConcat(chapters[..k] + [chapters[k]], chapters[k + 1..], ChapterBlock);
    JoinedConcat(chapters[..k], [chapters[k]], ChapterBlock);
    assert Joined([chapters[k]], ChapterBlock) == ChapterBlock(chapters[k]) by {
      assert [chapters[k]][..0] == [];
    }
  }

  /** A generator's section is there exactly when its draft has chapters, and then it starts
      with the generator's header. */
  lemma SectionPresence(header: string, chapters: seq<ChapterRecord>)
    requires header != []
    ensures Section(header, chapters) == [] <==> chapters == []
    ensures chapters != [] ==> |Section(header, chapters)| >= |header| && Section(header, chapters)[..|header|] == header
  {
  }

  /** One generator's loop of `_build_evaluation_prompt`: the header, then for each chapter
      its heading and its preview. */
  method AppendSection(prompt: string, header: string, chapters: seq<ChapterRecord>) returns (p: string)
    ensures p == prompt + Section(header, chapters)
  {
    p := prompt;
    if chapters != [] {
      p := p + header;
      var i := 0;
      while i < |chapters|
        invariant 0 <= i <= |chapters|
        invariant p == prompt + header + Blocks(chapters[..i])
      {
        assert chapters[..i + 1][..i] == chapters[..i];
        ghost var before := p;
        p := p + ChapterHeading(chapters[i]);
        p := p + (Preview(chapters[i].content) + "...\n");
        Regroup(before, ChapterHeading(chapters[i]), Preview(chapters[i].content) + "...\n");
        Regroup(prompt + header, Blocks(chapters[..i]), ChapterBlock(chapters[i]));
        i := i + 1;
      }
      assert chapters[..i] == chapters;
      Regroup(prompt, header, Blocks(chapters));
    }
  }

  /** `_build_evaluation_prompt`, given the rubric and the answer format for the language. */
  method BuildEvaluationPrompt(head: string, contentV1: seq<ChapterRecord>, contentV2: seq<ChapterRecord>, format: string)
    returns (prompt: string)
    ensures prompt == EvaluationPrompt(head, contentV1, contentV2, format)
  {
    prompt := head;
    prompt := AppendSection(prompt, Generator1Header, contentV1);
    prompt := AppendSection(prompt, Generator2Header, contentV2);
    prompt := prompt + "\n\n" + format;
  }

  const NoContent: string := "No hay contenido para evaluar."

  class Evaluator {
    const llm: LlmClient
    const decode: string -> Option<Object>
    /** The evaluator's system prompt, the rubric and the answer format, by language. */
    const systemPrompt: string -> string
    const rubric: string -> string
    const answerFormat: string -> string

    constructor (llm: LlmClient, decode: string -> Option<Object>)
      ensures this.llm == llm && this.decode == decode
      ensures forall language :: systemPrompt(language) == GetSystemPrompt(language, "evaluator")
      ensures forall language :: rubric(language) == EvaluationHead(language)
      ensures forall language :: answerFormat(language) == GetEvaluationPrompt(language)
    {
      this.llm := llm;
      this.decode := decode;
      systemPrompt := language => GetSystemPrompt(language, "evaluator");
      rubric := EvaluationHead;
      answerFormat := GetEvaluationPrompt;
    }

    /** The request the evaluator sends for two drafts. */
    function EvaluationRequest(contentV1: seq<ChapterRecord>, contentV2: seq<ChapterRecord>, language: string): Request {
      Request(EvaluationPrompt(rubric(language), contentV1, contentV2, answerFormat(language)), systemPrompt(language), 0.3)
    }

    /** What `evaluate` makes of a state when the model's reply is the one to request number
        `n`: with neither draft present the `ValueError` it raises before asking anything;
        otherwise the verdict on the parsed reply (see `Verdict`). */
    function Outcome(s: StateValue, n: nat): Result<StateValue> {
      if s.contentV1 == [] && s.contentV2 == [] then Err(ValueError(NoContent))
      else
        var q := EvaluationRequest(s.contentV1, s.contentV2, s.language);
        Verdict(ParseEvaluationResponse(llm.reply(n, q.prompt, q.systemPrompt), decode), s)
    }

    /** `evaluate`: asks the model once, unless neither draft is present, and the state
        becomes the outcome; on an error the state stays as it was. */
    method Evaluate(st: GenerationState) returns (r: Result<()>)
      modifies st, llm
      ensures old(st.contentV1) == [] && old(st.contentV2) == [] ==> llm.requests == old(llm.requests)
      ensures old(st.contentV1) != [] || old(st.contentV2) != [] ==>
        llm.requests == old(llm.requests) + [EvaluationRequest(old(st.contentV1), old(st.contentV2), old(st.language))]
      ensures var o := Outcome(old(st.Value()), |old(llm.requests)|);
        && (o.Err? ==> r == Err(o.error) && st.Value() == old(st.Value()))
        && (o.Ok? ==> r == Ok(()) && st.Value() == o.value)
    {
      if st.contentV1 == [] && st.contentV2 == [] {
        return Err(ValueError(NoContent));
      }
      var prompt := BuildEvaluationPrompt(rubric(st.language), st.contentV1, st.contentV2, answerFormat(st.language));
      var response := llm.Generate(prompt, systemPrompt(st.language), 0.3);
      var evaluation := ParseEvaluationResponse(response, decode);
      var v := Verdict(evaluation, st.Value());
      if v.Err? {
        return Err(v.error);
      }
      VerdictSpec(evaluation, st.Value());
      st.SetEvaluation(v.value.evaluation, v.value.feedbackHistory);
      r := Ok(());
    }
  }
}
