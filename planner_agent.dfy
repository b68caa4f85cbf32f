/** `PlannerAgent`: asks the language model for a chapter plan and keeps the plan in the
    shared state, falling back to a one-chapter plan when the reply holds none. */
module PlannerAgent {
  import opened Wrappers
  import opened Json
  import opened AgentState
  import opened LanguageSupport
  import opened LlmOracle

  /** The only chapter of the fallback plan. */
  const FallbackChapter: Json := JObj(map[
    "number" := JInt(1),
    "title" := JStr("Introducci\U{F3}n"),
    "topics" := JArr([JStr("Introducci\U{F3}n al tema")]),
    "estimated_length" := JInt(1000)])

  /** The plan `_parse_plan_response` returns when the reply holds no usable plan. */
  const FallbackPlan: Object := map[
    "chapters" := JArr([FallbackChapter]),
    "total_estimated_length" := JInt(1000)]

  /** A decoded object is accepted as a plan when it binds "chapters" to a list, empty or not. */
  predicate IsPlan(o: Object) {
    "chapters" in o && o["chapters"].JArr?
  }

  /** `_parse_plan_response`; `decode` is `json.loads`, `None` standing for a decoding error
      (a text that starts with `{` and decodes is always an object). */
  function ParsePlanResponse(response: string, decode: string -> Option<Object>): Object {
    match ObjectSlice(response)
    case None => FallbackPlan
    case Some(text) =>
      match decode(text)
      case None => FallbackPlan
      case Some(plan) => if IsPlan(plan) then plan else FallbackPlan
  }

  /** The fallback plan has one chapter, number 1, "Introducción", about "Introducción al
      tema", of 1000 words, and 1000 words in all. */
  lemma FallbackPlanShape()
    ensures IsPlan(FallbackPlan) && FallbackPlan["chapters"].items == [FallbackChapter]
    ensures FallbackPlan["total_estimated_length"] == JInt(1000)
    ensures FallbackChapter.JObj? && FallbackChapter.fields["number"] == JInt(1)
    ensures FallbackChapter.fields["title"] == JStr("Introducci\U{F3}n")
    ensures FallbackChapter.fields["topics"] == JArr([JStr("Introducci\U{F3}n al tema")])
    ensures FallbackChapter.fields["estimated_length"] == JInt(1000)
  {
  }

  /** Whatever the reply, the result is a plan: the decoded object when a `{`…`}` slice of the
      reply decodes to a plan, the fallback plan otherwise. In particular a reply in which
      no `}` follows a `{` always gives the fallback. */
  lemma ParsedPlan(response: string, decode: string -> Option<Object>)
    ensures IsPlan(ParsePlanResponse(response, decode))
    ensures var slice := ObjectSlice(response);
      if slice.Some? && decode(slice.value).Some? && IsPlan(decode(slice.value).value)
      then ParsePlanResponse(response, decode) == decode(slice.value).value
      else ParsePlanResponse(response, decode) == FallbackPlan
    ensures !(exists i, j :: 0 <= i < j < |response| && response[i] == '{' && response[j] == '}') ==>
      ParsePlanResponse(response, decode) == FallbackPlan
  {
    FallbackPlanShape();
    ObjectSliceSpec(response);
  }

  /** An accepted plan may have no chapters at all. */
  lemma EmptyPlanAccepted(response: string, decode: string -> Option<Object>)
    requires ObjectSlice(response).Some?
    requires decode(ObjectSlice(response).value) == Some(map["chapters" := JArr([])])
    ensures ParsePlanResponse(response, decode)["chapters"] == JArr([])
  {
  }

  /** The first error the rows of the planner's summary table raise, from one chapter entry
      on: `len(ch.get("topics", []))` and `ch.get("title", "Sin título")[:30]`. */
  function RowsError(chapters: seq<Json>): Option<Error>
    requires forall k :: 0 <= k < |chapters| ==> chapters[k].JObj?
  {
    if chapters == [] then None
    else
      var ch := chapters[0].fields;
      if !HasLen(Get(ch, "topics", JArr([]))) then Some(TypeError("object has no len()"))
      else if !Sliceable(Get(ch, "title", JStr("Sin t\U{ED}tulo"))) then Some(TypeError("object is not subscriptable"))
      else RowsError(chapters[1..])
  }

  /** The summary the planner logs reads every chapter entry: the list of titles raises
      `AttributeError` on an entry that is not a `dict`, then the table rows raise
      `TypeError` on topics without a length or a title that cannot be sliced. */
  function SummaryError(plan: Object): Option<Error>
    requires IsPlan(plan)
  {
    var chapters := plan["chapters"].items;
    if exists k :: 0 <= k < |chapters| && !chapters[k].JObj? then Some(AttributeError("object has no attribute 'get'"))
    else RowsError(chapters)
  }

  /** The summary of a plan raises exactly when some chapter entry is not a `dict`, has
      topics without a length or a title that cannot be sliced. */
  lemma {:induction false} SummaryErrorIff(plan: Object)
    requires IsPlan(plan)
    ensures SummaryError(plan).None? <==>
      forall k :: 0 <= k < |plan["chapters"].items| ==>
        var ch := plan["chapters"].items[k];
        ch.JObj? && HasLen(Get(ch.fields, "topics", JArr([]))) && Sliceable(Get(ch.fields, "title", JStr("Sin t\U{ED}tulo")))
  {
    var chapters := plan["chapters"].items;
    if forall k :: 0 <= k < |chapters| ==> chapters[k].JObj? {
      RowsErrorIff(chapters);
    }
  }

  lemma {:induction false} RowsErrorIff(chapters: seq<Json>)
    requires forall k :: 0 <= k < |chapters| ==> chapters[k].JObj?
    ensures RowsError(chapters).None? <==>
      forall k :: 0 <= k < |chapters| ==>
        HasLen(Get(chapters[k].fields, "topics", JArr([]))) && Sliceable(Get(chapters[k].fields, "title", JStr("Sin t\U{ED}tulo")))
    decreases |chapters|
  {
    if chapters != [] {
      RowsErrorIff(chapters[1..]);
      assert forall k :: 1 <= k < |chapters| ==> chapters[1..][k - 1] == chapters[k];
    }
  }

  /** The fallback plan's summary raises nothing. */
  lemma FallbackSummaryOk()
    ensures SummaryError(FallbackPlan).None?
  {
    FallbackPlanShape();
    var chapters := FallbackPlan["chapters"].items;
    assert chapters == [FallbackChapter] && chapters[1..] == [];
    assert Get(FallbackChapter.fields, "topics", JArr([])).JArr?;
    assert Get(FallbackChapter.fields, "title", JStr("Sin t\U{ED}tulo")).JStr?;
    assert RowsError(chapters) == RowsError(chapters[1..]);
  }

  class Planner {
    const llm: LlmClient
    const decode: string -> Option<Object>
    /** `LanguageSupport.get_system_prompt` and `get_planning_prompt`. */
    const systemPrompt: (string, string) -> string
    const planningPrompt: (string, string, string) -> string

    constructor (llm: LlmClient, decode: string -> Option<Object>)
      ensures this.llm == llm && this.decode == decode
      ensures forall language, agentType :: systemPrompt(language, agentType) == GetSystemPrompt(language, agentType)
      ensures forall language, topic, size :: planningPrompt(language, topic, size) == GetPlanningPrompt(language, topic, size)
    {
      this.llm := llm;
      this.decode := decode;
      systemPrompt := GetSystemPrompt;
      planningPrompt := GetPlanningPrompt;
    }

    /** The request the planner sends: the planning prompt for the state's language and
        topic, at the default (medium) size, under the planner's system prompt. */
    function PlanRequest(language: string, topic: string): Request {
      Request(planningPrompt(language, topic, "medium"), systemPrompt(language, "planner"), 0.7)
    }

    /** `plan`: one request to the model; the plan parsed from the reply goes into the state
        and `planning_completed` into its metadata, the other metadata entries kept. The
        summary log may raise first, leaving the state as it was. */
    method Plan(st: GenerationState) returns (r: Result<()>)
      modifies st, llm
      ensures llm.requests == old(llm.requests) + [PlanRequest(old(st.language), old(st.topic))]
      ensures var request := PlanRequest(old(st.language), old(st.topic));
        var plan := ParsePlanResponse(llm.reply(|old(llm.requests)|, request.prompt, request.systemPrompt), decode);
        IsPlan(plan)
        && (SummaryError(plan).Some? ==> r == Err(SummaryError(plan).value) && st.Value() == old(st.Value()))
        && (SummaryError(plan).None? ==>
              r == Ok(())
              && st.Value() == old(st.Value()).(plan := Some(plan), metadata := old(st.metadata)["planning_completed" := JBool(true)]))
    {
      var request := PlanRequest(st.language, st.topic);
      var response := llm.Generate(request.prompt, request.systemPrompt, request.temperature);
      var plan := ParsePlanResponse(response, decode);
      ParsedPlan(response, decode);
      var failure := SummaryError(plan);
      if failure.Some? {
        return Err(failure.value);
      }
      st.SetPlan(Some(plan), st.metadata["planning_completed" := JBool(true)]);
      r := Ok(());
    }
  }
}
