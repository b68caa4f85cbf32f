/** `ContentGeneratorAgent`: writes one draft of the book, one language-model request per
    chapter of the plan, taking the evaluator's latest feedback into account, and stores the
    draft under its own key of the shared state. */
module ContentGeneratorAgent {
  import opened Wrappers
  import opened Strings
  import opened Json
  import opened AgentState
  import opened LanguageSupport
  import opened LlmOracle

  // ---------------------------------------------------------------- feedback selection

  /** Whether an entry of `scores_by_chapter` is about chapter `n`: its "chapter" equals `n`
      as Python compares numbers. */
  predicate AboutChapter(item: Json, n: int)
    requires item.JObj?
  {
    EqualsInt(Get(item.fields, "chapter", JNull), n)
  }

  /** The `next(...)` of `_generate_chapter_content`: the "feedback" (default "") of the first
      entry about chapter `n`, `None` when no entry is. Entries are read one at a time up to
      the first match, and reading one that is not a `dict` raises `AttributeError`. */
  function ChapterFeedback(items: seq<Json>, n: int): Result<Option<Json>> {
    if items == [] then Ok(None)
    else if !items[0].JObj? then Err(AttributeError("'str' object has no attribute 'get'"))
    else if AboutChapter(items[0], n) then Ok(Some(Get(items[0].fields, "feedback", JStr(""))))
    else ChapterFeedback(items[1..], n)
  }

  /** The feedback found is that of the first entry about the chapter. */
  lemma {:induction false} ChapterFeedbackFirst(items: seq<Json>, n: int, j: nat)
    requires j < |items| && items[j].JObj? && AboutChapter(items[j], n)
    requires forall k :: 0 <= k < j ==> items[k].JObj? && !AboutChapter(items[k], n)
    ensures ChapterFeedback(items, n) == Ok(Some(Get(items[j].fields, "feedback", JStr(""))))
    decreases j
  {
    if j > 0 {
      assert items[0].JObj? && !AboutChapter(items[0], n);
      ChapterFeedbackFirst(items[1..], n, j - 1);
    }
  }

  /** When no entry is about the chapter, there is no chapter feedback. */
  lemma {:induction false} ChapterFeedbackAbsent(items: seq<Json>, n: int)
    requires forall k :: 0 <= k < |items| ==> items[k].JObj? && !AboutChapter(items[k], n)
    ensures ChapterFeedback(items, n) == Ok(None)
    decreases |items|
  {
    if items != [] {
      assert items[0].JObj? && !AboutChapter(items[0], n);
      ChapterFeedbackAbsent(items[1..], n);
    }
  }

  /** The chapter-specific note of a prompt: taken from the latest feedback entry when there is
      one, and kept only when it is truthy. */
  function FeedbackNote(feedback: Option<FeedbackEntry>, n: int): (r: Result<Option<string>>)
    ensures feedback.None? ==> r == Ok(None)
    ensures r.Ok? && r.value.Some? ==>
      && feedback.Some?
      && DictItems(feedback.value.scoresByChapter).Ok?
      && var f := ChapterFeedback(DictItems(feedback.value.scoresByChapter).value, n);
         f.Ok? && f.value.Some? && Truthy(f.value.value) && Render(f.value.value) == Ok(r.value.value)
  {
    if feedback.None? then Ok(None)
    else match DictItems(feedback.value.scoresByChapter)
      case Err(e) => Err(e)
      case Ok(items) =>
        match ChapterFeedback(items, n)
        case Err(e) => Err(e)
        case Ok(None) => Ok(None)
        case Ok(Some(j)) =>
          if !Truthy(j) then Ok(None)
          else match Render(j)
            case Err(e) => Err(e)
            case Ok(t) => Ok(Some(t))
  }

  // ---------------------------------------------------------------- prompts

  /** What `_generate_chapter_content` reads from a plan chapter: its number, its title, its
      topics as prompt bullets and its estimated length as text. */
  datatype ChapterFields = ChapterFields(number: int, title: string, bullets: seq<string>, estimatedLength: string)

  /** `f"- {t}" for t in items`. */
  function Bullets(items: seq<Json>): (r: Result<seq<string>>)
    ensures r.Ok? ==> |r.value| == |items|
    ensures r.Ok? ==> forall k :: 0 <= k < |items| ==> Render(items[k]).Ok? && r.value[k] == "- " + Render(items[k]).value
  {
    if items == [] then Ok([])
    else match Render(items[0])
      case Err(e) => Err(e)
      case Ok(t) =>
        match Bullets(items[1..])
        case Err(e) => Err(e)
        case Ok(rest) => Ok(["- " + t] + rest)
  }

  /** The bullets of the chapter's topics. A string is iterated character by character; the
      iteration order of a non-empty `dict` is not modelled; other values are not iterable. */
  function TopicBullets(topics: Json): (r: Result<seq<string>>)
    ensures topics.JArr? ==> r == Bullets(topics.items)
  {
    match topics
    case JArr(items) => Bullets(items)
    case JStr(s) => Ok(seq(|s|, i requires 0 <= i < |s| => "- " + [s[i]]))
    case JObj(m) => if m == map[] then Ok([]) else Err(Unsupported("iteration order of a dict"))
    case _ => Err(TypeError("object is not iterable"))
  }

  /** `chapter.get("number", 1)`, `chapter.get("title", "")`, the topics (default none) and
      `chapter.get("estimated_length", 1000)`. The model carries on only with an integer number
      and a string title. */
  function ReadChapter(chapter: Object): (r: Result<ChapterFields>)
    ensures r.Ok? ==> Get(chapter, "number", JInt(1)) == JInt(r.value.number)
    ensures r.Ok? ==> Get(chapter, "title", JStr("")) == JStr(r.value.title)
    ensures r.Ok? ==> TopicBullets(Get(chapter, "topics", JArr([]))) == Ok(r.value.bullets)
    ensures r.Ok? ==> Render(Get(chapter, "estimated_length", JInt(1000))) == Ok(r.value.estimatedLength)
    ensures "number" !in chapter && "title" !in chapter && r.Ok? ==> r.value.number == 1 && r.value.title == ""
  {
    var number := Get(chapter, "number", JInt(1));
    var title := Get(chapter, "title", JStr(""));
    if !number.JInt? then Err(Unsupported("a chapter number that is not an integer"))
    else if !title.JStr? then Err(Unsupported("a chapter title that is not a string"))
    else match TopicBullets(Get(chapter, "topics", JArr([])))
      case Err(e) => Err(e)
      case Ok(bullets) =>
        match Render(Get(chapter, "estimated_length", JInt(1000)))
        case Err(e) => Err(e)
        case Ok(len) => Ok(ChapterFields(number.i, title.s, bullets, len))
  }

  const RequirementsEs: string := @"

El contenido debe ser:
- Claro y fácil de entender cuando se escucha
- Bien estructurado con párrafos cortos
- Incluir ejemplos prácticos cuando sea apropiado
- Apropiado para formato audiobook (evitar referencias visuales)
- Progresivo y lógico

Escribe el contenido completo del capítulo:"

  const RequirementsEn: string := @"

The content must be:
- Clear and easy to understand when listening
- Well-structured with short paragraphs
- Include practical examples when appropriate
- Appropriate for audiobook format (avoid visual references)
- Progressive and logical

Write the complete chapter content:"

  /** The user prompt for one chapter, Spanish exactly when the language code is "es". */
  function UserPrompt(language: string, f: ChapterFields, topic: string): string {
    if language == "es" then
      "Escribe el contenido completo del Cap\U{ED}tulo " + IntToString(f.number) + ": " + f.title
        + "\n\nTema principal del audiobook: " + topic
        + "\n\nTemas a cubrir en este cap\U{ED}tulo:\n" + Join(f.bullets, "\n")
        + "\n\nLongitud estimada: aproximadamente " + f.estimatedLength + " palabras"
        + RequirementsEs
    else
      "Write the complete content for Chapter " + IntToString(f.number) + ": " + f.title
        + "\n\nMain topic of the audiobook: " + topic
        + "\n\nTopics to cover in this chapter:\n" + Join(f.bullets, "\n")
        + "\n\nEstimated length: approximately " + f.estimatedLength + " words"
        + RequirementsEn
  }

  const ChapterNoteLead: string := "\n\nFeedback espec\U{ED}fico para este cap\U{ED}tulo:\n"
  const InstructionsLead: string := "\n\nFeedback de la iteraci\U{F3}n anterior:\n"

  /** The chapter prompt: the user prompt, then the chapter-specific note when there is one. */
  function ChapterPrompt(userPrompt: string, note: Option<string>): (p: string)
    ensures note.None? ==> p == userPrompt
    ensures note.Some? ==> p == userPrompt + ChapterNoteLead + note.value && |p| > |userPrompt|
  {
    if note.Some? then userPrompt + ChapterNoteLead + note.value else userPrompt
  }

  /** The generator's system prompt: the latest improvement instructions are appended exactly
      when there is feedback and this is not the first iteration. Rendering instructions that
      are not text can fail, and so can slicing them for the log. */
  function GeneratorSystemPrompt(base: string, history: seq<FeedbackEntry>, iterationCount: int): (r: Result<string>)
    ensures !(history != [] && iterationCount > 0) ==> r == Ok(base)
    ensures r.Ok? ==> (r.value == base <==> !(history != [] && iterationCount > 0))
    ensures r.Ok? && history != [] && iterationCount > 0 ==>
      var instructions := history[|history| - 1].improvementInstructions;
      Render(instructions).Ok? && r.value == base + InstructionsLead + Render(instructions).value
  {
    if history != [] && iterationCount > 0 then
      var instructions := history[|history| - 1].improvementInstructions;
      match Render(instructions)
      case Err(e) => Err(e)
      case Ok(t) =>
        if !Sliceable(instructions) then Err(TypeError("improvement instructions are not subscriptable"))
        else Ok(base + InstructionsLead + t)
    else Ok(base)
  }

  // ---------------------------------------------------------------- one generation pass

  /** What stays fixed over one pass: the agent, the topic and language, the system prompt,
      the latest feedback entry, and the user-prompt template. */
  datatype Context = Context(
    agentId: string,
    topic: string,
    language: string,
    systemPrompt: string,
    feedback: Option<FeedbackEntry>,
    template: (string, ChapterFields, string) -> string)

  /** The request for one plan chapter, and what is read from the chapter; a chapter that is
      not a `dict` raises `AttributeError`. */
  function ChapterRequest(chapter: Json, c: Context): Result<(ChapterFields, Request)> {
    if !chapter.JObj? then Err(AttributeError("'str' object has no attribute 'get'"))
    else match ReadChapter(chapter.fields)
      case Err(e) => Err(e)
      case Ok(f) =>
        match FeedbackNote(c.feedback, f.number)
        case Err(e) => Err(e)
        case Ok(note) => Ok((f, Request(ChapterPrompt(c.template(c.language, f, c.topic), note), c.systemPrompt, 0.8)))
  }

  /** The record `_generate_chapter_content` returns for a chapter and the model's text. */
  function Record(f: ChapterFields, content: string, agentId: string): (r: ChapterRecord)
    ensures r.content == content && r.wordCount == |Words(content)|
    ensures r.chapterNumber == f.number && r.chapterTitle == f.title && r.agentId == agentId
  {
    ChapterRecord(f.number, f.title, content, |Words(content)|, agentId)
  }

  /** A way of building the request for a chapter. */
  type Builder = (Json, Context) -> Result<(ChapterFields, Request)>

  /** The requests made and records produced by a pass over some chapters, and the error that
      stopped it, if any. */
  datatype Pass = Pass(requests: seq<Request>, records: seq<ChapterRecord>, error: Option<Error>)

  /** The loop of `generate`, given the model's replies: chapter by chapter, one request and
      one record, until a chapter raises. `n` is the number of requests made before. */
  function GeneratePass(chapters: seq<Json>, build: Builder, c: Context, reply: (nat, string, string) -> string, n: nat): Pass
    decreases |chapters|
  {
    if chapters == [] then Pass([], [], None)
    else match build(chapters[0], c)
      case Err(e) => Pass([], [], Some(e))
      case Ok((f, q)) =>
        var rest := GeneratePass(chapters[1..], build, c, reply, n + 1);
        Pass([q] + rest.requests, [Record(f, reply(n, q.prompt, q.systemPrompt), c.agentId)] + rest.records, rest.error)
  }

  /** A pass makes one request per record. A pass that completes makes one per chapter; a
      pass that stops does so at the first chapter that raises, after one request per
      earlier chapter. */
  lemma {:induction false} PassLength(chapters: seq<Json>, build: Builder, c: Context, reply: (nat, string, string) -> string, n: nat)
    ensures var p := GeneratePass(chapters, build, c, reply, n);
      && |p.requests| == |p.records|
      && (p.error.None? ==> |p.records| == |chapters|)
      && (p.error.Some? ==> |p.records| < |chapters| && build(chapters[|p.records|], c) == Err(p.error.value))
    decreases |chapters|
  {
    if chapters != [] && build(chapters[0], c).Ok? {
      PassLength(chapters[1..], build, c, reply, n + 1);
      var rest := GeneratePass(chapters[1..], build, c, reply, n + 1);
      if rest.error.Some? {
        assert chapters[1..][|rest.records|] == chapters[|rest.records| + 1];
      }
    }
  }

  /** Record `k` of a pass comes from chapter `k`: it holds what is read from the chapter and
      the model's reply to request `n + k`, which is the chapter's request. */
  lemma {:induction false} PassAt(chapters: seq<Json>, build: Builder, c: Context, reply: (nat, string, string) -> string, n: nat, k: nat)
    requires k < |GeneratePass(chapters, build, c, reply, n).records|
    ensures var p := GeneratePass(chapters, build, c, reply, n);
      && k < |chapters|
      && build(chapters[k], c).Ok?
      && k < |p.requests|
      && p.requests[k] == build(chapters[k], c).value.1
      && p.records[k] == Record(build(chapters[k], c).value.0,
                                reply(n + k, p.requests[k].prompt, p.requests[k].systemPrompt), c.agentId)
    decreases k
  {
    if k > 0 {
      PassAt(chapters[1..], build, c, reply, n + 1, k - 1);
      assert chapters[1..][k - 1] == chapters[k];
    }
  }

  /** What a pass makes, chapter by chapter: as many requests as records; chapter `k`, below
      the number of records, builds, and its request and record are the `k`-th ones, the
      record holding reply number `n + k`; the pass ends at the last chapter or at the first
      one that raises, with that error. */
  ghost predicate PassShape(p: Pass, chapters: seq<Json>, build: Builder, c: Context, reply: (nat, string, string) -> string, n: nat) {
    && |p.requests| == |p.records| && |p.records| <= |chapters|
    && (p.error.None? ==> |p.records| == |chapters|)
    && (p.error.Some? ==> |p.records| < |chapters| && build(chapters[|p.records|], c) == Err(p.error.value))
    && forall k {:trigger chapters[k]} :: 0 <= k < |p.records| ==>
         && build(chapters[k], c).Ok?
         && p.requests[k] == build(chapters[k], c).value.1
         && p.records[k] == Record(build(chapters[k], c).value.0,
                                   reply(n + k, p.requests[k].prompt, p.requests[k].systemPrompt), c.agentId)
  }

  /** `GeneratePass` has that shape. */
  lemma PassShaped(chapters: seq<Json>, build: Builder, c: Context, reply: (nat, string, string) -> string, n: nat)
    ensures PassShape(GeneratePass(chapters, build, c, reply, n), chapters, build, c, reply, n)
  {
    var p := GeneratePass(chapters, build, c, reply, n);
    PassLength(chapters, build, c, reply, n);
    forall k | 0 <= k < |p.records|
      ensures build(chapters[k], c).Ok? && p.requests[k] == build(chapters[k], c).value.1
      ensures p.records[k] == Record(build(chapters[k], c).value.0,
                                     reply(n + k, p.requests[k].prompt, p.requests[k].systemPrompt), c.agentId)
    {
      PassAt(chapters, build, c, reply, n, k);
    }
  }

  /** One more element of a prefix. */
  lemma TakeNext<T>(s: seq<T>, i: nat)
    requires i < |s|
    ensures s[..i + 1] == s[..i] + [s[i]]
  {
  }

  /** The prefix as long as the sequence. */
  lemma TakeAll<T>(s: seq<T>)
    ensures s[..|s|] == s
  {
  }

  // ---------------------------------------------------------------- the whole call

  /** The requests `generate` makes and the state it leaves. */
  datatype Run = Run(requests: seq<Request>, result: Result<StateValue>)

  const NoPlan: string := "No hay plan disponible. Debe ejecutarse el planificador primero."

  /** The draft goes to `content_v1` for the agent "generator1" and to `content_v2` for any
      other agent. */
  function Stored(s: StateValue, agentId: string, records: seq<ChapterRecord>): StateValue {
    if agentId == "generator1" then s.(contentV1 := records) else s.(contentV2 := records)
  }

  /** The latest feedback entry, when there is one. */
  function Latest(history: seq<FeedbackEntry>): Option<FeedbackEntry> {
    if history == [] then None else Some(history[|history| - 1])
  }

  /** `generate` from state `s`, given the model's replies and the number `n` of requests made
      before: no plan raises `ValueError`; chapters without a length raise `TypeError`; then
      the system prompt, then the pass over the chapters, each chapter's request built by
      `build`. */
  function Generated(s: StateValue, agentId: string, basePrompt: string,
                     template: (string, ChapterFields, string) -> string, build: Builder,
                     reply: (nat, string, string) -> string, n: nat): Run
  {
    if s.plan.None? || s.plan.value == map[] then Run([], Err(ValueError(NoPlan)))
    else
      var chapters := Get(s.plan.value, "chapters", JArr([]));
      if !HasLen(chapters) then Run([], Err(TypeError("object has no len()")))
      else match GeneratorSystemPrompt(basePrompt, s.feedbackHistory, s.iterationCount)
        case Err(e) => Run([], Err(e))
        case Ok(systemPrompt) =>
          match DictItems(chapters)
          case Err(e) => Run([], Err(e))
          case Ok(items) =>
            var c := Context(agentId, s.topic, s.language, systemPrompt, Latest(s.feedbackHistory), template);
            var p := GeneratePass(items, build, c, reply, n);
            if p.error.Some? then Run(p.requests, Err(p.error.value))
            else Run(p.requests, Ok(Stored(s, agentId, p.records)))
  }

  /** Every record of a pass over plan chapters holds the number and title read from its
      chapter, the word count of its text and the agent's id. */
  lemma PassRecords(items: seq<Json>, c: Context, reply: (nat, string, string) -> string, n: nat)
    ensures var p := GeneratePass(items, ChapterRequest, c, reply, n);
      && |p.records| <= |items|
      && forall k :: 0 <= k < |p.records| ==>
        && items[k].JObj?
        && Get(items[k].fields, "number", JInt(1)) == JInt(p.records[k].chapterNumber)
        && Get(items[k].fields, "title", JStr("")) == JStr(p.records[k].chapterTitle)
        && p.records[k].wordCount == |Words(p.records[k].content)|
        && p.records[k].agentId == c.agentId
  {
    PassLength(items, ChapterRequest, c, reply, n);
    var p := GeneratePass(items, ChapterRequest, c, reply, n);
    forall k | 0 <= k < |p.records|
      ensures items[k].JObj?
      ensures Get(items[k].fields, "number", JInt(1)) == JInt(p.records[k].chapterNumber)
      ensures Get(items[k].fields, "title", JStr("")) == JStr(p.records[k].chapterTitle)
      ensures p.records[k].wordCount == |Words(p.records[k].content)|
      ensures p.records[k].agentId == c.agentId
    {
      PassAt(items, ChapterRequest, c, reply, n, k);
      var f := ReadChapter(items[k].fields);
      assert f.Ok? && ChapterRequest(items[k], c).value.0 == f.value;
    }
  }

  /** A successful `generate` stores the records of the pass, one per plan chapter, under the
      agent's own key; the other draft and every other field are unchanged. */
  lemma GeneratedStores(s: StateValue, agentId: string, basePrompt: string,
                        template: (string, ChapterFields, string) -> string, build: Builder,
                        reply: (nat, string, string) -> string, n: nat)
    requires Generated(s, agentId, basePrompt, template, build, reply, n).result.Ok?
    ensures s.plan.Some? && s.plan.value != map[]
    ensures var t := Generated(s, agentId, basePrompt, template, build, reply, n).result.value;
      var draft := if agentId == "generator1" then t.contentV1 else t.contentV2;
      var chapters := Get(s.plan.value, "chapters", JArr([]));
      && DictItems(chapters).Ok?
      && |draft| == |DictItems(chapters).value|
      && (agentId == "generator1" ==> t == s.(contentV1 := draft))
      && (agentId != "generator1" ==> t == s.(contentV2 := draft))
  {
    var chapters := Get(s.plan.value, "chapters", JArr([]));
    var systemPrompt := GeneratorSystemPrompt(basePrompt, s.feedbackHistory, s.iterationCount).value;
    var items := DictItems(chapters).value;
    var c := Context(agentId, s.topic, s.language, systemPrompt, Latest(s.feedbackHistory), template);
    PassLength(items, build, c, reply, n);
  }

  /** With the requests of `_generate_chapter_content`, each stored record holds the number
      and title of its plan chapter, in plan order, the word count of its text and the
      agent's id. The chapter-specific feedback is looked up whenever there is a feedback
      entry, whatever the iteration. */
  lemma GeneratedSpec(s: StateValue, agentId: string, basePrompt: string,
                      template: (string, ChapterFields, string) -> string,
                      reply: (nat, string, string) -> string, n: nat)
    requires Generated(s, agentId, basePrompt, template, ChapterRequest, reply, n).result.Ok?
    ensures s.plan.Some? && s.plan.value != map[]
    ensures var t := Generated(s, agentId, basePrompt, template, ChapterRequest, reply, n).result.value;
      var draft := if agentId == "generator1" then t.contentV1 else t.contentV2;
      var chapters := Get(s.plan.value, "chapters", JArr([]));
      && DictItems(chapters).Ok?
      && |draft| == |DictItems(chapters).value|
      && forall k :: 0 <= k < |draft| ==>
           var ch := DictItems(chapters).value[k];
           && ch.JObj?
           && Get(ch.fields, "number", JInt(1)) == JInt(draft[k].chapterNumber)
           && Get(ch.fields, "title", JStr("")) == JStr(draft[k].chapterTitle)
           && draft[k].wordCount == |Words(draft[k].content)|
           && draft[k].agentId == agentId
  {
    var chapters := Get(s.plan.value, "chapters", JArr([]));
    var systemPrompt := GeneratorSystemPrompt(basePrompt, s.feedbackHistory, s.iterationCount).value;
    var items := DictItems(chapters).value;
    var c := Context(agentId, s.topic, s.language, systemPrompt, Latest(s.feedbackHistory), template);
    PassLength(items, ChapterRequest, c, reply, n);
    PassRecords(items, c, reply, n);
  }

  class Generator {
    const agentId: string
    const llm: LlmClient
    /** The generator's system prompt by language, the user-prompt template, and the way a
        chapter's request is built. */
    const basePrompt: string -> string
    const template: (string, ChapterFields, string) -> string
    const build: Builder

    constructor (llm: LlmClient, agentId: string)
      ensures this.llm == llm && this.agentId == agentId
      ensures forall language :: basePrompt(language) == GetSystemPrompt(language, "generator")
      ensures forall language, f, topic :: template(language, f, topic) == UserPrompt(language, f, topic)
      ensures build == ChapterRequest
    {
      this.llm := llm;
      this.agentId := agentId;
      basePrompt := language => GetSystemPrompt(language, "generator");
      template := UserPrompt;
      build := ChapterRequest;
    }

    /** `_generate_chapter_content`: the chapter's request (see `ChapterRequest`), then one
        call to the model, whose text becomes the record; a chapter that raises does so before
        any request. */
    method GenerateChapterContent(chapter: Json, c: Context) returns (r: Result<ChapterRecord>)
      modifies llm
      ensures var cr := build(chapter, c);
        && (cr.Err? ==> r == Err(cr.error) && llm.requests == old(llm.requests))
        && (cr.Ok? ==>
              && llm.requests == old(llm.requests) + [cr.value.1]
              && r == Ok(Record(cr.value.0, llm.reply(|old(llm.requests)|, cr.value.1.prompt, cr.value.1.systemPrompt), c.agentId)))
    {
      var cr := build(chapter, c);
      if cr.Err? {
        return Err(cr.error);
      }
      var (f, request) := cr.value;
      var content := llm.Generate(request.prompt, request.systemPrompt, request.temperature);
      r := Ok(Record(f, content, c.agentId));
    }

    /** The loop of `generate` over the plan chapters, against the pass `p` it makes (see
        `PassShape`): the requests of the pass, then its records or the error that stopped it. */
    method GenerateChapters(items: seq<Json>, c: Context, ghost p: Pass) returns (r: Result<seq<ChapterRecord>>)
      requires PassShape(p, items, build, c, llm.reply, |llm.requests|)
      modifies llm
      ensures llm.requests == old(llm.requests) + p.requests
      ensures r == (if p.error.Some? then Err(p.error.value) else Ok(p.records))
    {
      ghost var n := |llm.requests|;
      ghost var done: seq<Request> := [];
      var generated: seq<ChapterRecord> := [];
      var i := 0;
      while i < |items|
        invariant i <= |p.records|
        invariant done == p.requests[..i] && generated == p.records[..i]
        invariant llm.requests == old(llm.requests) + done && |llm.requests| == n + i
      {
        var record := GenerateChapterContent(items[i], c);
        if record.Err? {
          TakeAll(p.requests);
          return Err(record.error);
        }
        TakeNext(p.requests, i);
        TakeNext(p.records, i);
        done := done + [p.requests[i]];
        generated := generated + [record.value];
        i := i + 1;
      }
      TakeAll(p.requests);
      TakeAll(p.records);
      r := Ok(generated);
    }

    /** `generate`: see `Generated` for the requests and the new state; on an error the state
        is left as it was. */
    method Generate(st: GenerationState) returns (r: Result<()>)
      modifies st, llm
      ensures var run := Generated(old(st.Value()), agentId, basePrompt(old(st.language)), template, build, llm.reply, |old(llm.requests)|);
        && llm.requests == old(llm.requests) + run.requests
        && (run.result.Err? ==> r == Err(run.result.error) && st.Value() == old(st.Value()))
        && (run.result.Ok? ==> r == Ok(()) && st.Value() == run.result.value)
    {
      if st.plan.None? || st.plan.value == map[] {
        return Err(ValueError(NoPlan));
      }
      var chapters := Get(st.plan.value, "chapters", JArr([]));
      if !HasLen(chapters) {
        return Err(TypeError("object has no len()"));
      }
      var systemPrompt := GeneratorSystemPrompt(basePrompt(st.language), st.feedbackHistory, st.iterationCount);
      if systemPrompt.Err? {
        return Err(systemPrompt.error);
      }
      var items := DictItems(chapters);
      if items.Err? {
        return Err(items.error);
      }
      var c := Context(agentId, st.topic, st.language, systemPrompt.value, Latest(st.feedbackHistory), template);
      PassShaped(items.value, build, c, llm.reply, |llm.requests|);
      var drafted := GenerateChapters(items.value, c, GeneratePass(items.value, build, c, llm.reply, |llm.requests|));
      if drafted.Err? {
        return Err(drafted.error);
      }
      var generated := drafted.value;
      if agentId == "generator1" {
        st.SetContentV1(generated);
      } else {
        st.SetContentV2(generated);
      }
      r := Ok(());
    }
  }
}
