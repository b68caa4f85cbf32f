/** `content_generation_workflow`: the graph that runs the agents. The planner runs once,
    then the two generators and the evaluator run in a loop until the router leaves it, to
    the merge and the formatting of the book, or straight to the end. */
module ContentGenerationWorkflow {
  import opened Wrappers
  import opened Json
  import opened AgentState
  import opened LlmOracle
  import PlannerAgent
  import ContentGeneratorAgent
  import EvaluatorAgent
  import ContentFormatter

  // ---------------------------------------------------------------- the graph

  /** The nodes of the graph; `End` is LangGraph's `END`. */
  datatype Node = Planner | Generator1 | Generator2 | Evaluator | Merge | Format | End

  /** The edges of `create_content_generation_workflow`, the three branches of the
      evaluator's conditional edge included. */
  predicate Edge(a: Node, b: Node) {
    match a
    case Planner => b == Generator1
    case Generator1 => b == Generator2
    case Generator2 => b == Evaluator
    case Evaluator => b == Generator1 || b == Merge || b == End
    case Merge => b == Format
    case Format => b == End
    case End => false
  }

  /** The path map of the conditional edge: the node each answer of the router leads to;
      any other answer is not a route. */
  function Route(answer: Json): Option<Node> {
    if answer == JStr("improve") then Some(Generator1)
    else if answer == JStr("accept") then Some(Merge)
    else if answer == JStr("reject") then Some(End)
    else None
  }

  /** The node after `node`, given the router's answer (read only after the evaluator). */
  function Next(node: Node, answer: Json): Option<Node>
    requires node != End
  {
    match node
    case Planner => Some(Generator1)
    case Generator1 => Some(Generator2)
    case Generator2 => Some(Evaluator)
    case Evaluator => Route(answer)
    case Merge => Some(Format)
    case Format => Some(End)
  }

  /** The transitions are exactly the edges: every step taken follows an edge, and every
      edge is taken for some answer of the router. */
  lemma NextIsEdges(a: Node, b: Node)
    ensures Edge(a, b) <==> a != End && exists answer :: Next(a, answer) == Some(b)
  {
    if Edge(a, b) {
      var answer := if b == Generator1 then JStr("improve") else if b == Merge then JStr("accept") else JStr("reject");
      assert Next(a, answer) == Some(b);
    }
  }

  /** `should_improve`: "improve" without an evaluation; otherwise the evaluation's decision
      (default "improve"), except that an "improve" once the iterations are used up becomes
      "accept". */
  function ShouldImprove(evaluation: Option<Object>, iterationCount: int, maxIterations: int): Json {
    if evaluation.None? || evaluation.value == map[] then JStr("improve")
    else
      var decision := Get(evaluation.value, "decision", JStr("improve"));
      if iterationCount >= maxIterations && decision == JStr("improve") then JStr("accept")
      else decision
  }

  /** What the router answers: "improve" when there is no evaluation; "improve" only while
      iterations remain; otherwise the stored decision, unless that is "improve" with the
      iterations used up, which becomes "accept". */
  lemma ShouldImproveSpec(evaluation: Option<Object>, iterationCount: int, maxIterations: int)
    ensures evaluation.None? || evaluation.value == map[] ==> ShouldImprove(evaluation, iterationCount, maxIterations) == JStr("improve")
    ensures evaluation.Some? && evaluation.value != map[] ==>
      var decision := Get(evaluation.value, "decision", JStr("improve"));
      var answer := ShouldImprove(evaluation, iterationCount, maxIterations);
      && (answer == JStr("improve") <==> decision == JStr("improve") && iterationCount < maxIterations)
      && (answer == JStr("accept") <==> decision == JStr("accept") || (decision == JStr("improve") && iterationCount >= maxIterations))
      && (answer != decision ==> decision == JStr("improve") && answer == JStr("accept"))
  {
  }

  /** After a successful evaluation and the increment of the counter, the router always
      answers with a route. It answers "improve" only while iterations remain after this
      pass, and "reject" only when the pass itself began with the iterations used up. */
  lemma RouteAfterVerdict(evaluation: Object, s: StateValue)
    requires EvaluatorAgent.Verdict(evaluation, s).Ok?
    ensures var t := EvaluatorAgent.Verdict(evaluation, s).value;
      var answer := ShouldImprove(t.evaluation, s.iterationCount + 1, s.maxIterations);
      && Route(answer).Some?
      && (answer == JStr("improve") ==> s.iterationCount + 1 < s.maxIterations)
      && (answer == JStr("reject") ==> s.iterationCount >= s.maxIterations)
  {
    var d := EvaluatorAgent.Decide(Get(evaluation, "overall_score", JInt(0)), s.qualityThreshold, s.iterationCount, s.maxIterations);
    var decided := evaluation["decision" := JStr(EvaluatorAgent.DecisionName(d.value))];
    assert Get(decided, "decision", JStr("improve")) == JStr(EvaluatorAgent.DecisionName(d.value));
  }

  // ---------------------------------------------------------------- runs

  /** A sequence of nodes that follows the edges. */
  ghost predicate Follows(trace: seq<Node>) {
    forall i, j :: 0 <= i < |trace| && 0 <= j < |trace| && j == i + 1 ==> Edge(trace[i], trace[j])
  }

  /** One more node of the cycle on a trace of the cycle: the trace still follows the edges
      from the planner, still holds none of the last three nodes, and counts one more
      evaluator exactly when the node is the evaluator. */
  lemma CycleStep(trace: seq<Node>, node: Node)
    requires node in {Planner, Generator1, Generator2, Evaluator}
    requires Follows(trace) && (trace != [] ==> trace[0] == Planner && Edge(trace[|trace| - 1], node))
    requires Merge !in trace && Format !in trace && End !in trace
    ensures var t := trace + [node];
      && Follows(t) && t[0] == (if trace == [] then node else Planner) && t[|t| - 1] == node
      && Merge !in t && Format !in t && End !in t
      && multiset(t)[Evaluator] == multiset(trace)[Evaluator] + (if node == Evaluator then 1 else 0)
  {
    var t := trace + [node];
    forall i, j | 0 <= i < |t| && 0 <= j < |t| && j == i + 1
      ensures Edge(t[i], t[j])
    {
      if j < |trace| {
        assert t[i] == trace[i] && t[j] == trace[j];
      }
    }
    assert multiset(t) == multiset(trace) + multiset{node};
  }

  /** The end of a run through the merge and the format nodes. */
  lemma ReachMerge(refined: seq<Node>)
    requires Follows(refined) && refined != [] && Edge(refined[|refined| - 1], Merge)
    ensures var t := refined + [Merge, Format, End];
      && Follows(t) && t[0] == refined[0]
      && t[|t| - 3] == Merge && t[|t| - 2] == Format && t[|t| - 1] == End
      && multiset(t)[Evaluator] == multiset(refined)[Evaluator]
  {
    var t := refined + [Merge, Format, End];
    var n := |refined|;
    forall i, j | 0 <= i < |t| && 0 <= j < |t| && j == i + 1
      ensures Edge(t[i], t[j])
    {
      if j < n {
        assert t[i] == refined[i] && t[j] == refined[j];
      }
    }
    assert multiset(t) == multiset(refined) + multiset{Merge, Format, End};
  }

  /** The end of a run straight from the evaluator. */
  lemma ReachEnd(refined: seq<Node>)
    requires Follows(refined) && refined != [] && Format !in refined && Edge(refined[|refined| - 1], End)
    ensures var t := refined + [End];
      && Follows(t) && t[0] == refined[0] && t[|t| - 1] == End && t[|t| - 2] != Format
      && multiset(t)[Evaluator] == multiset(refined)[Evaluator]
  {
    var t := refined + [End];
    forall i, j | 0 <= i < |t| && 0 <= j < |t| && j == i + 1
      ensures Edge(t[i], t[j])
    {
      if j < |refined| {
        assert t[i] == refined[i] && t[j] == refined[j];
      }
    }
    assert multiset(t) == multiset(refined) + multiset{End};
  }

  /** Consecutive nodes of a sequence that follows the edges are joined by an edge. */
  lemma {:induction false} FollowsPairs(trace: seq<Node>, k: nat)
    requires Follows(trace) && 1 <= k < |trace|
    ensures Edge(trace[k - 1], trace[k])
    decreases |trace|
  {
    if k < |trace| - 1 {
      var front := trace[..|trace| - 1];
      FollowsPairs(front, k);
      assert front[k - 1] == trace[k - 1] && front[k] == trace[k];
    }
  }

  /** A rank that every step inside one iteration lowers. */
  function Rank(node: Node): nat {
    match node
    case Planner => 6
    case Generator1 => 5
    case Generator2 => 4
    case Evaluator => 3
    case Merge => 2
    case Format => 1
    case End => 0
  }

  /** The path `format_node` passes on, the default of `format_to_audiobook_text`. */
  const OutputPath: string := "converted_book.txt"

  /** The compiled graph, holding the agents built by `create_content_generation_workflow`,
      each with its own language-model client. */
  class Workflow {
    const planner: PlannerAgent.Planner
    const generator1: ContentGeneratorAgent.Generator
    const generator2: ContentGeneratorAgent.Generator
    const evaluator: EvaluatorAgent.Evaluator

    constructor (plannerLlm: LlmClient, generator1Llm: LlmClient, generator2Llm: LlmClient,
                 evaluatorLlm: LlmClient, decode: string -> Option<Object>)
      ensures planner.llm == plannerLlm && evaluator.llm == evaluatorLlm
      ensures generator1.llm == generator1Llm && generator1.agentId == "generator1"
      ensures generator2.llm == generator2Llm && generator2.agentId == "generator2"
    {
      planner := new PlannerAgent.Planner(plannerLlm, decode);
      generator1 := new ContentGeneratorAgent.Generator(generator1Llm, "generator1");
      generator2 := new ContentGeneratorAgent.Generator(generator2Llm, "generator2");
      evaluator := new EvaluatorAgent.Evaluator(evaluatorLlm, decode);
    }

    /** `evaluator_node`: `evaluate`, then one more iteration counted once it succeeds. */
    method EvaluatorNode(st: GenerationState) returns (r: Result<()>)
      modifies st, evaluator.llm
      ensures var o := evaluator.Outcome(old(st.Value()), |old(evaluator.llm.requests)|);
        && (o.Err? ==> r == Err(o.error) && st.Value() == old(st.Value()))
        && (o.Ok? ==> r == Ok(()) && st.Value() == o.value.(iterationCount := old(st.iterationCount) + 1))
    {
      r := evaluator.Evaluate(st);
      if r.Ok? {
        st.SetIterationCount(st.iterationCount + 1);
      }
    }

    /** `merge_node`: the merge of the two drafts under the evaluation becomes the final
        content; nothing else changes. */
    method MergeNode(st: GenerationState) returns (r: Result<()>)
      modifies st
      ensures var m := ContentFormatter.MergedContent(old(st.contentV1), old(st.contentV2), old(st.evaluation));
        && (m.Err? ==> r == Err(m.error) && st.Value() == old(st.Value()))
        && (m.Ok? ==> r == Ok(()) && st.Value() == old(st.Value()).(finalContent := m.value))
    {
      var merged := ContentFormatter.MergeBestContent(st.contentV1, st.contentV2, st.evaluation);
      if merged.Err? {
        return Err(merged.error);
      }
      st.SetFinalContent(merged.value);
      r := Ok(());
    }

    /** `format_node`: with some final content, the book text is built (and written to
        `OutputPath`) and the path is recorded in the metadata, the other entries kept;
        without, nothing happens. */
    method FormatNode(st: GenerationState) returns (book: Option<string>)
      modifies st
      ensures old(st.finalContent) == [] ==> book == None && st.Value() == old(st.Value())
      ensures old(st.finalContent) != [] ==>
        && book == Some(ContentFormatter.AudiobookText(old(st.finalContent), old(st.language)))
        && st.Value() == old(st.Value()).(metadata := old(st.metadata)["formatted_output_path" := JStr(OutputPath)])
    {
      book := None;
      if st.finalContent != [] {
        var text, path := ContentFormatter.FormatToAudiobookText(st.finalContent, OutputPath, st.language);
        book := Some(text);
        st.SetMetadata(st.metadata["formatted_output_path" := JStr(path)]);
      }
    }

    /** `planner_node`: `plan`, then the edge to the first generator. The state takes the
        plan parsed from the one reply and `planning_completed`, or stays as it was when the
        summary log raises; the counter, the limit and the final content are never touched. */
    method PlannerNode(st: GenerationState) returns (r: Result<Node>)
      modifies st, planner.llm
      ensures planner.llm.requests == old(planner.llm.requests) + [planner.PlanRequest(old(st.language), old(st.topic))]
      ensures var request := planner.PlanRequest(old(st.language), old(st.topic));
        var plan := PlannerAgent.ParsePlanResponse(planner.llm.reply(|old(planner.llm.requests)|, request.prompt, request.systemPrompt), planner.decode);
        && (PlannerAgent.SummaryError(plan).Some? ==> r.Err? && st.Value() == old(st.Value()))
        && (PlannerAgent.SummaryError(plan).None? ==>
              r == Ok(Generator1)
              && st.Value() == old(st.Value()).(plan := Some(plan), metadata := old(st.metadata)["planning_completed" := JBool(true)]))
      ensures r.Ok? ==> r.value == Generator1
      ensures st.iterationCount == old(st.iterationCount) && st.maxIterations == old(st.maxIterations)
      ensures st.finalContent == old(st.finalContent)
    {
      var done := planner.Plan(st);
      r := if done.Ok? then Ok(Generator1) else Err(done.error);
    }

    /** `evaluator_node` followed by `should_improve` and the path map: the counter goes up by
        one; the way back to the first generator is taken only while iterations remain, and
        the way to the end only when the pass began with them used up. */
    method EvaluatorRoute(st: GenerationState) returns (r: Result<Node>)
      modifies st, evaluator.llm
      ensures st.maxIterations == old(st.maxIterations)
      ensures r.Err? ==> st.iterationCount == old(st.iterationCount)
      ensures r.Ok? ==>
        && r.value in {Generator1, Merge, End}
        && st.iterationCount == old(st.iterationCount) + 1
        && (r.value == Generator1 ==> st.iterationCount < st.maxIterations)
        && (r.value == End ==> old(st.iterationCount) >= st.maxIterations)
    {
      ghost var s := st.Value();
      ghost var q := evaluator.EvaluationRequest(st.contentV1, st.contentV2, st.language);
      ghost var evaluation := EvaluatorAgent.ParseEvaluationResponse(evaluator.llm.reply(|evaluator.llm.requests|, q.prompt, q.systemPrompt), evaluator.decode);
      var done := EvaluatorNode(st);
      if done.Err? {
        return Err(done.error);
      }
      RouteAfterVerdict(evaluation, s);
      var answer := ShouldImprove(st.evaluation, st.iterationCount, st.maxIterations);
      r := Ok(Route(answer).value);
    }

    /** `generator1_node` and `generator2_node`: `generate`, whose new state (the draft
        stored under the generator's own key) or error this is; the counter, the limit and
        the final content stay as they were. The first node's write of `iteration_count` puts
        back the value it read. */
    method GeneratorNode(generator: ContentGeneratorAgent.Generator, st: GenerationState, next: Node) returns (r: Result<Node>)
      modifies st, generator.llm
      ensures var run := ContentGeneratorAgent.Generated(old(st.Value()), generator.agentId, generator.basePrompt(old(st.language)),
          generator.template, generator.build, generator.llm.reply, |old(generator.llm.requests)|);
        && generator.llm.requests == old(generator.llm.requests) + run.requests
        && (run.result.Ok? ==> r == Ok(next) && st.Value() == run.result.value)
        && (run.result.Err? ==> r.Err? && st.Value() == old(st.Value()))
      ensures r.Ok? ==> r.value == next
      ensures st.iterationCount == old(st.iterationCount) && st.maxIterations == old(st.maxIterations)
      ensures st.finalContent == old(st.finalContent)
    {
      ghost var s := st.Value();
      ghost var n := |generator.llm.requests|;
      var done := generator.Generate(st);
      if done.Err? {
        return Err(done.error);
      }
      ContentGeneratorAgent.GeneratedStores(s, generator.agentId, generator.basePrompt(s.language), generator.template, generator.build, generator.llm.reply, n);
      r := Ok(next);
    }

    /** One node of the cycle, then the edge out of it. Only the evaluator counts an
        iteration; it goes back to the first generator only while iterations remain, and to
        the end only when it began with them used up. */
    method Visit(node: Node, st: GenerationState) returns (next: Result<Node>)
      requires node in {Planner, Generator1, Generator2, Evaluator}
      modifies st, planner.llm, generator1.llm, generator2.llm, evaluator.llm
      ensures st.maxIterations == old(st.maxIterations)
      ensures st.iterationCount == old(st.iterationCount) + (if node == Evaluator && next.Ok? then 1 else 0)
      ensures next.Ok? ==> Edge(node, next.value)
      ensures next.Ok? && node == Evaluator && next.value == Generator1 ==> st.iterationCount < st.maxIterations
      ensures next.Ok? && next.value == End ==> old(st.iterationCount) >= st.maxIterations
    {
      match node {
        case Planner =>
          next := PlannerNode(st);
        case Generator1 =>
          next := GeneratorNode(generator1, st, Generator2);
        case Generator2 =>
          next := GeneratorNode(generator2, st, Evaluator);
        case Evaluator =>
          next := EvaluatorRoute(st);
      }
    }

    /** The refinement loop of the graph: the planner, then the two generators and the
        evaluator until the router leaves the loop, for the merge or for the end. `trace`
        lists the nodes that completed.

        Each evaluator pass adds one to the counter, and the loop goes round again only while
        iterations remain. From a state with iterations remaining the loop never leaves for
        the end: "reject" needs a pass that began with the iterations used up. */
    method Refine(st: GenerationState) returns (r: Result<Node>, trace: seq<Node>)
      modifies st, planner.llm, generator1.llm, generator2.llm, evaluator.llm
      ensures Follows(trace) && (trace != [] ==> trace[0] == Planner)
      ensures Merge !in trace && Format !in trace && End !in trace
      ensures r.Ok? ==> r.value in {Merge, End} && trace != [] && Edge(trace[|trace| - 1], r.value)
      ensures st.maxIterations == old(st.maxIterations)
      ensures st.iterationCount == old(st.iterationCount) + multiset(trace)[Evaluator]
      ensures old(st.iterationCount) < old(st.maxIterations) ==>
        st.iterationCount <= st.maxIterations && (r.Ok? ==> r.value == Merge)
    {
      ghost var bounded := st.iterationCount < st.maxIterations;
      var node := Planner;
      trace := [];
      while node !in {Merge, End}
        invariant node in {Planner, Generator1, Generator2, Evaluator, Merge, End}
        invariant Follows(trace) && (trace != [] ==> trace[0] == Planner)
        invariant trace == [] <==> node == Planner
        invariant trace != [] ==> Edge(trace[|trace| - 1], node)
        invariant Merge !in trace && Format !in trace && End !in trace
        invariant st.maxIterations == old(st.maxIterations)
        invariant st.iterationCount == old(st.iterationCount) + multiset(trace)[Evaluator]
        invariant bounded ==> st.iterationCount <= st.maxIterations && node != End
        invariant bounded && node != Merge ==> st.iterationCount < st.maxIterations
        decreases if st.iterationCount < st.maxIterations then st.maxIterations - st.iterationCount else 0, Rank(node)
      {
        var next := Visit(node, st);
        if next.Err? {
          return Err(next.error), trace;
        }
        CycleStep(trace, node);
        trace := trace + [node];
        node := next.value;
      }
      r := Ok(node);
    }

    /** The merge node, then the format node: the final content is the merge of the drafts
        under the evaluation, and the book is its text. The counter and the limit stay. */
    method MergeAndFormat(st: GenerationState) returns (r: Result<()>, book: Option<string>)
      modifies st
      ensures st.iterationCount == old(st.iterationCount) && st.maxIterations == old(st.maxIterations)
      ensures r.Ok? ==>
        && ContentFormatter.MergedContent(st.contentV1, st.contentV2, st.evaluation) == Ok(st.finalContent)
        && book == (if st.finalContent == [] then None else Some(ContentFormatter.AudiobookText(st.finalContent, st.language)))
    {
      book := None;
      r := MergeNode(st);
      if r.Err? {
        return;
      }
      ghost var merging := st.Value();
      book := FormatNode(st);
      assert st.contentV1 == merging.contentV1 && st.contentV2 == merging.contentV2;
      assert st.evaluation == merging.evaluation && st.finalContent == merging.finalContent;
      assert st.language == merging.language;
    }

    /** The compiled graph's `invoke`: the refinement loop, then, when the router accepts,
        the merge and the format nodes. `trace` lists the nodes that completed, then `End`
        once reached; `book` is the text the format node built, if any.

        A run that starts with iterations remaining keeps within the limit and, when it
        completes, ends through the merge and the format nodes. A run that ends through them
        leaves as final content the merge of the last drafts under the last evaluation, and
        the book is that content's text. */
    method Run(st: GenerationState) returns (r: Result<()>, trace: seq<Node>, book: Option<string>)
      modifies st, planner.llm, generator1.llm, generator2.llm, evaluator.llm
      ensures Follows(trace) && (trace != [] ==> trace[0] == Planner)
      ensures r.Ok? <==> trace != [] && trace[|trace| - 1] == End
      ensures st.maxIterations == old(st.maxIterations)
      ensures st.iterationCount == old(st.iterationCount) + multiset(trace)[Evaluator]
      ensures old(st.iterationCount) < old(st.maxIterations) ==>
        && st.iterationCount <= st.maxIterations
        && (r.Ok? ==> |trace| >= 3 && trace[|trace| - 3] == Merge && trace[|trace| - 2] == Format && trace[|trace| - 1] == End)
      ensures r.Ok? && |trace| >= 2 && trace[|trace| - 2] == Format ==>
        && ContentFormatter.MergedContent(st.contentV1, st.contentV2, st.evaluation) == Ok(st.finalContent)
        && book == (if st.finalContent == [] then None else Some(ContentFormatter.AudiobookText(st.finalContent, st.language)))
    {
      book := None;
      var next;
      next, trace := Refine(st);
      assert trace != [] ==> trace[|trace| - 1] in trace;
      if next.Err? {
        return Err(next.error), trace, book;
      }
      if next.value == End {
        ReachEnd(trace);
        trace := trace + [End];
        return Ok(()), trace, book;
      }
      var finished;
      finished, book := MergeAndFormat(st);
      if finished.Err? {
        return Err(finished.error), trace, book;
      }
      assert old(st.iterationCount) < old(st.maxIterations) ==> next.value == Merge;
      ReachMerge(trace);
      trace := trace + [Merge, Format, End];
      r := Ok(());
    }
  }
}
