/** The state the agents share while the workflow runs, and the records stored in it.
    The Python state is a `dict`; here it is an object with one field per key, updated
    in place by the agents and the workflow nodes. */
module AgentState {
  import opened Wrappers
  import opened Json
  import opened Strings

  /** One generated chapter, the `dict` `_generate_chapter_content` returns. */
  datatype ChapterRecord = ChapterRecord(
    chapterNumber: int,
    chapterTitle: string,
    content: string,
    wordCount: nat,
    agentId: string)

  /** One entry of `feedback_history`, the `dict` the evaluator appends after each pass;
      the values other than the iteration come from the evaluation as decoded. */
  datatype FeedbackEntry = FeedbackEntry(
    iteration: int,
    overallScore: Json,
    decision: Json,
    improvementInstructions: Json,
    scoresByChapter: Json)

  /** A snapshot of every field of the state. An absent chapter list (`None`) is the
      empty list: every reader of those lists only tests their truthiness. */
  datatype StateValue = StateValue(
    topic: string,
    language: string,
    plan: Option<Object>,
    contentV1: seq<ChapterRecord>,
    contentV2: seq<ChapterRecord>,
    evaluation: Option<Object>,
    feedbackHistory: seq<FeedbackEntry>,
    iterationCount: int,
    maxIterations: int,
    qualityThreshold: real,
    finalContent: seq<ChapterRecord>,
    metadata: Object)

  /** The iteration limit and the quality threshold the application uses when the
      environment sets neither `MAX_ITERATIONS` nor `QUALITY_THRESHOLD`. */
  const DefaultMaxIterations: int := 3
  const DefaultQualityThreshold: real := 70.0

  /** `ContentGenerationState`. */
  class GenerationState {
    var topic: string
    var language: string
    var plan: Option<Object>
    var contentV1: seq<ChapterRecord>
    var contentV2: seq<ChapterRecord>
    var evaluation: Option<Object>
    var feedbackHistory: seq<FeedbackEntry>
    var iterationCount: int
    var maxIterations: int
    var qualityThreshold: real
    var finalContent: seq<ChapterRecord>
    var metadata: Object

    /** The state the application builds before running the workflow: the stripped topic,
        nothing planned, generated or evaluated yet, iteration 0, and the limit and the
        threshold read from the environment (`DefaultMaxIterations` and
        `DefaultQualityThreshold` when it sets none). */
    constructor Initial(topic: string, language: string, maxIterations: int, qualityThreshold: real)
      ensures Value() == StateValue(Strip(topic), language, None, [], [], None, [], 0,
                                    maxIterations, qualityThreshold, [], map[])
    {
      this.topic := Strip(topic);
      this.language := language;
      plan := None;
      contentV1 := [];
      contentV2 := [];
      evaluation := None;
      feedbackHistory := [];
      iterationCount := 0;
      this.maxIterations := maxIterations;
      this.qualityThreshold := qualityThreshold;
      finalContent := [];
      metadata := map[];
    }

    /** The two keys `plan` writes; nothing else changes. */
    method SetPlan(plan: Option<Object>, metadata: Object)
      modifies this
      ensures Value() == old(Value()).(plan := plan, metadata := metadata)
    {
      this.plan := plan;
      this.metadata := metadata;
    }

    /** The key the first generator writes; nothing else changes. */
    method SetContentV1(content: seq<ChapterRecord>)
      modifies this
      ensures Value() == old(Value()).(contentV1 := content)
    {
      contentV1 := content;
    }

    /** The key the second generator writes; nothing else changes. */
    method SetContentV2(content: seq<ChapterRecord>)
      modifies this
      ensures Value() == old(Value()).(contentV2 := content)
    {
      contentV2 := content;
    }

    /** The two keys `evaluate` writes; nothing else changes. */
    method SetEvaluation(evaluation: Option<Object>, feedbackHistory: seq<FeedbackEntry>)
      modifies this
      ensures Value() == old(Value()).(evaluation := evaluation, feedbackHistory := feedbackHistory)
    {
      this.evaluation := evaluation;
      this.feedbackHistory := feedbackHistory;
    }

    /** A write of `iteration_count`; nothing else changes. */
    method SetIterationCount(count: int)
      modifies this
      ensures Value() == old(Value()).(iterationCount := count)
    {
      iterationCount := count;
    }

    /** A write of `final_content`; nothing else changes. */
    method SetFinalContent(content: seq<ChapterRecord>)
      modifies this
      ensures Value() == old(Value()).(finalContent := content)
    {
      finalContent := content;
    }

    /** A write of `metadata`; nothing else changes. */
    method SetMetadata(metadata: Object)
      modifies this
      ensures Value() == old(Value()).(metadata := metadata)
    {
      this.metadata := metadata;
    }

    function Value(): StateValue
      reads this
    {
      StateValue(topic, language, plan, contentV1, contentV2, evaluation, feedbackHistory,
                 iterationCount, maxIterations, qualityThreshold, finalContent, metadata)
    }
  }
}
