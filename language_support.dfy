/** The language and size tables and the prompt texts shared by the agents: supported
    languages, audiobook sizes, system prompts per agent, TTS settings and the planning
    and evaluation prompts. Lookups by an unknown code fall back the way the Python
    class methods do. */
module LanguageSupport {
  import opened Wrappers
  import opened Strings

  datatype Language = Spanish | English

  /** The enum value of a language. */
  function Code(l: Language): string {
    match l
    case Spanish => "es"
    case English => "en"
  }

  /** `Language(code)`: `None` where Python raises `ValueError`. */
  function ParseLanguage(code: string): (r: Option<Language>)
    ensures r.Some? ==> Code(r.value) == code
    ensures r.None? ==> forall l: Language :: Code(l) != code
  {
    if code == "es" then Some(Spanish) else if code == "en" then Some(English) else None
  }

  /** The language a lookup uses: the parsed one, or Spanish when the code is unknown. */
  function ResolveLanguage(code: string): Language {
    match ParseLanguage(code)
    case Some(l) => l
    case None => Spanish
  }

  lemma {:induction false} ParseCode(l: Language)
    ensures ParseLanguage(Code(l)) == Some(l)
    ensures ResolveLanguage(Code(l)) == l
  {
    match l
    case Spanish =>
    case English =>
  }

  datatype AudiobookSize = Short | Medium | Long

  function SizeName(s: AudiobookSize): string {
    match s
    case Short => "short"
    case Medium => "medium"
    case Long => "long"
  }

  /** `AudiobookSize(name)`: `None` where Python raises `ValueError`. */
  function ParseSize(name: string): (r: Option<AudiobookSize>)
    ensures r.Some? ==> SizeName(r.value) == name
    ensures r.None? ==> forall s: AudiobookSize :: SizeName(s) != name
  {
    if name == "short" then Some(Short)
    else if name == "medium" then Some(Medium)
    else if name == "long" then Some(Long)
    else None
  }

  datatype SizeConfig = SizeConfig(
    chaptersMin: nat,
    chaptersMax: nat,
    wordsPerChapter: nat,
    totalWordsTarget: nat,
    durationMinutes: string,
    descriptionEs: string,
    descriptionEn: string)

  /** `SIZE_CONFIG`. */
  function SizeTable(s: AudiobookSize): SizeConfig {
    match s
    case Short => SizeConfig(3, 4, 1200, 5000, "30-40", "Corto (~30 minutos)", "Short (~30 minutes)")
    case Medium => SizeConfig(5, 7, 1500, 10000, "60-80", "Mediano (~1 hora)", "Medium (~1 hour)")
    case Long => SizeConfig(8, 12, 2000, 20000, "2-3 horas", "Largo (~2-3 horas)", "Long (~2-3 hours)")
  }

  /** Each size's chapter range is non-empty, and a larger size asks for more chapters,
      longer chapters and more words in total. */
  lemma SizesGrow()
    ensures forall s: AudiobookSize :: 0 < SizeTable(s).chaptersMin <= SizeTable(s).chaptersMax
    ensures SizeTable(Short).chaptersMax < SizeTable(Medium).chaptersMin
    ensures SizeTable(Medium).chaptersMax < SizeTable(Long).chaptersMin
    ensures SizeTable(Short).wordsPerChapter < SizeTable(Medium).wordsPerChapter < SizeTable(Long).wordsPerChapter
    ensures SizeTable(Short).totalWordsTarget < SizeTable(Medium).totalWordsTarget < SizeTable(Long).totalWordsTarget
  {
  }

  /** `get_size_config`: an unknown size name gets the medium configuration. */
  function GetSizeConfig(size: string): (c: SizeConfig)
    ensures ParseSize(size).Some? ==> c == SizeTable(ParseSize(size).value)
    ensures ParseSize(size).None? ==> c == SizeTable(Medium)
  {
    match ParseSize(size)
    case Some(s) => SizeTable(s)
    case None => SizeTable(Medium)
  }

  // ---------------------------------------------------------------- system prompts

  const PlannerPromptEs: string := @"Eres un arquitecto de contenido educativo con más de 20 años de experiencia diseñando bestsellers de no-ficción, cursos online premiados y audiobooks exitosos.

TU ESPECIALIDAD: Crear estructuras de contenido que mantienen la atención del oyente, facilitan el aprendizaje y generan impacto real.

PRINCIPIOS QUE SIGUES:
1. **Progresión Lógica**: De conceptos simples a complejos
2. **Ganchos de Apertura**: Cada capítulo comienza capturando interés
3. **Aplicación Práctica**: Teoría siempre conectada con uso real
4. **Ritmo Narrativo**: Alternar entre explicación, ejemplos y reflexión
5. **Cierre Memorable**: Cada capítulo termina con un insight potente

RESTRICCIONES ABSOLUTAS:
- Responde SIEMPRE en ESPAÑOL
- Usa ""Capítulo"" (nunca ""Chapter"")
- Títulos atractivos y descriptivos
- Formato JSON válido obligatorio"

  const GeneratorPromptEs: string := @"Eres un escritor profesional especializado en contenido educativo para audiobooks EN ESPAÑOL. Tu trabajo ha sido narrado por locutores profesionales y tus libros tienen miles de reproducciones.

⚠️ REGLA CRÍTICA DE IDIOMA:
- ESCRIBES EXCLUSIVAMENTE EN ESPAÑOL
- NUNCA uses palabras en inglés como ""Chapter"", ""Part"", ""Section""
- SIEMPRE usa: ""Capítulo"", ""Parte"", ""Sección""
- TODO el contenido debe estar 100% en español

TU ESTILO DISTINTIVO:
- **Voz Conversacional**: Como si explicaras a un amigo inteligente
- **Claridad Absoluta**: Conceptos complejos en palabras simples
- **Ritmo Natural**: Frases que fluyen al ser leídas en voz alta
- **Ejemplos Vividos**: Ilustraciones concretas y memorables
- **Transiciones Suaves**: Conexiones fluidas entre ideas

TÉCNICAS QUE APLICAS:
1. Comenzar con algo que enganche (pregunta, dato sorprendente, escenario)
2. Desarrollar ideas en párrafos cortos (3-5 oraciones máximo)
3. Usar analogías para conceptos abstractos
4. Incluir mini-resúmenes después de secciones densas
5. Cerrar con una idea que invite a la reflexión

PROHIBIDO ABSOLUTAMENTE:
- Palabras en inglés (Chapter, Part, Section, Introduction, Conclusion)
- Referencias visuales (""como puedes ver"", ""en el gráfico"")
- Listas con viñetas (narrar todo de forma continua)
- Jerga técnica sin explicar
- Párrafos de más de 100 palabras"

  const EvaluatorPromptEs: string := @"Eres un editor senior de una editorial líder en audiobooks educativos. Has evaluado cientos de manuscritos y sabes exactamente qué funciona cuando el contenido se escucha.

TU PROCESO DE EVALUACIÓN:

**1. CLARIDAD AUDITIVA (0-25 puntos)**
- ¿Se entiende perfectamente al escuchar?
- ¿Las frases son de longitud adecuada para audio?
- ¿Hay pausas naturales y ritmo apropiado?

**2. ESTRUCTURA NARRATIVA (0-25 puntos)**
- ¿Fluye lógicamente de principio a fin?
- ¿Hay transiciones claras entre secciones?
- ¿El oyente nunca se pierde?

**3. COBERTURA DEL TEMA (0-25 puntos)**
- ¿Se abordan todos los aspectos importantes?
- ¿La profundidad es apropiada para el formato?
- ¿Hay equilibrio entre teoría y práctica?

**4. ENGAGEMENT (0-15 puntos)**
- ¿Mantiene el interés del oyente?
- ¿Hay suficientes ejemplos y casos?
- ¿El tono es apropiado y consistente?

**5. CALIDAD DE ESCRITURA (0-10 puntos)**
- ¿El español es correcto y natural?
- ¿Se evitan repeticiones innecesarias?
- ¿El vocabulario es accesible pero no simplista?

Responde SIEMPRE en ESPAÑOL con formato JSON válido."

  const PlannerPromptEn: string := @"You are an educational content architect with 20+ years of experience designing bestselling non-fiction books, award-winning online courses, and successful audiobooks.

YOUR SPECIALTY: Creating content structures that maintain listener attention, facilitate learning, and generate real impact.

PRINCIPLES YOU FOLLOW:
1. **Logical Progression**: From simple to complex concepts
2. **Opening Hooks**: Each chapter starts by capturing interest
3. **Practical Application**: Theory always connected with real use
4. **Narrative Rhythm**: Alternate between explanation, examples, and reflection
5. **Memorable Closings**: Each chapter ends with a powerful insight

ABSOLUTE CONSTRAINTS:
- Always respond in ENGLISH
- Create attractive and descriptive titles
- Mandatory valid JSON format"

  const GeneratorPromptEn: string := @"You are a professional writer specialized in educational audiobook content. Your work has been narrated by professional voice actors and your books have thousands of plays.

YOUR DISTINCTIVE STYLE:
- **Conversational Voice**: Like explaining to a smart friend
- **Absolute Clarity**: Complex concepts in simple words
- **Natural Rhythm**: Sentences that flow when read aloud
- **Vivid Examples**: Concrete and memorable illustrations
- **Smooth Transitions**: Fluid connections between ideas

TECHNIQUES YOU APPLY:
1. Start with something engaging (question, surprising fact, scenario)
2. Develop ideas in short paragraphs (3-5 sentences max)
3. Use analogies for abstract concepts
4. Include mini-summaries after dense sections
5. Close with a thought-provoking idea

FORBIDDEN:
- Visual references (""as you can see"", ""in the graph"")
- Bulleted lists (narrate everything continuously)
- Unexplained technical jargon
- Paragraphs over 100 words

LANGUAGE: Write EVERYTHING in ENGLISH."

  const EvaluatorPromptEn: string := @"You are a senior editor at a leading educational audiobook publisher. You have evaluated hundreds of manuscripts and know exactly what works when content is listened to.

YOUR EVALUATION PROCESS:

**1. AUDITORY CLARITY (0-25 points)**
- Is it perfectly understandable when listening?
- Are sentences of appropriate length for audio?
- Are there natural pauses and appropriate rhythm?

**2. NARRATIVE STRUCTURE (0-25 points)**
- Does it flow logically from start to finish?
- Are there clear transitions between sections?
- Does the listener ever get lost?

**3. TOPIC COVERAGE (0-25 points)**
- Are all important aspects addressed?
- Is the depth appropriate for the format?
- Is there balance between theory and practice?

**4. ENGAGEMENT (0-15 points)**
- Does it maintain listener interest?
- Are there enough examples and cases?
- Is the tone appropriate and consistent?

**5. WRITING QUALITY (0-10 points)**
- Is the English correct and natural?
- Are unnecessary repetitions avoided?
- Is the vocabulary accessible but not simplistic?

Always respond in ENGLISH with valid JSON format."

  /** The three agent kinds that have a system prompt. */
  predicate IsAgentType(agentType: string) {
    agentType == "planner" || agentType == "generator" || agentType == "evaluator"
  }

  /** `SYSTEM_PROMPTS[l].get(agentType, "")`. */
  function SystemPromptTable(l: Language, agentType: string): string {
    match l
    case Spanish =>
      if agentType == "planner" then PlannerPromptEs
      else if agentType == "generator" then GeneratorPromptEs
      else if agentType == "evaluator" then EvaluatorPromptEs
      else ""
    case English =>
      if agentType == "planner" then PlannerPromptEn
      else if agentType == "generator" then GeneratorPromptEn
      else if agentType == "evaluator" then EvaluatorPromptEn
      else ""
  }

  /** `get_system_prompt`: the table entry for the resolved language. */
  function GetSystemPrompt(language: string, agentType: string): string {
    SystemPromptTable(ResolveLanguage(language), agentType)
  }

  /** Every agent kind has a non-empty prompt in both languages, and only those do; an
      unknown language code reads the Spanish prompts. */
  lemma SystemPromptDefined(language: string, agentType: string)
    ensures GetSystemPrompt(language, agentType) != [] <==> IsAgentType(agentType)
    ensures ParseLanguage(language).None? ==> GetSystemPrompt(language, agentType) == SystemPromptTable(Spanish, agentType)
  {
  }

  // ---------------------------------------------------------------- TTS settings and names

  datatype TtsConfig = TtsConfig(languageCode: string, voiceOptions: seq<string>, defaultVoice: string)

  /** `TTS_CONFIG`. */
  function TtsTable(l: Language): TtsConfig {
    TtsConfig(Code(l), ["male", "female"], "female")
  }

  /** `get_tts_config`: the table entry for the resolved language; its default voice is one of
      its options and its code names the resolved language. */
  function GetTtsConfig(language: string): (c: TtsConfig)
    ensures c.defaultVoice in c.voiceOptions
    ensures c.languageCode == Code(ResolveLanguage(language))
    ensures ParseLanguage(language).Some? ==> c.languageCode == language
  {
    TtsTable(ResolveLanguage(language))
  }

  /** `LANGUAGE_NAMES`. */
  function LanguageName(l: Language): string {
    match l
    case Spanish => "Español"
    case English => "English"
  }

  /** `get_language_name`: the display name, or the code itself when it is not supported. */
  function GetLanguageName(language: string): (r: string)
    ensures ParseLanguage(language).None? ==> r == language
    ensures ParseLanguage(language).Some? ==> r == LanguageName(ParseLanguage(language).value)
  {
    match ParseLanguage(language)
    case Some(l) => LanguageName(l)
    case None => language
  }

  /** `validate_language`. */
  function ValidateLanguage(language: string): (b: bool)
    ensures b <==> (language == "es" || language == "en")
    ensures b <==> exists l: Language :: Code(l) == language
  {
    ParseCode(Spanish);
    ParseLanguage(language).Some?
  }

  /** The description a size is shown with in a language; `description_es` for codes
      other than "es" and "en". */
  function Description(c: SizeConfig, language: string): string {
    if language == "en" then c.descriptionEn else c.descriptionEs
  }

  /** `get_size_choices`: (description, value) pairs for the three sizes in order; every value
      names a size and carries that size's description. */
  function GetSizeChoices(language: string): (r: seq<(string, string)>)
    ensures |r| == 3
    ensures forall i :: 0 <= i < |r| ==>
      ParseSize(r[i].1).Some? && r[i].0 == Description(GetSizeConfig(r[i].1), language)
    ensures [r[0].1, r[1].1, r[2].1] == [SizeName(Short), SizeName(Medium), SizeName(Long)]
  {
    [(Description(SizeTable(Short), language), "short"),
     (Description(SizeTable(Medium), language), "medium"),
     (Description(SizeTable(Long), language), "long")]
  }

  // ---------------------------------------------------------------- planning and evaluation

  /** `{chapters_min}-{chapters_max}`, the chapter range the planning prompt asks for. */
  function ChapterRange(c: SizeConfig): string {
    IntToString(c.chaptersMin) + "-" + IntToString(c.chaptersMax)
  }

  const PlanningHeadEs: string := @"## TAREA: Diseñar la estructura de un audiobook" + "\n\n**TEMA:** "

  const PlanningHeadEn: string := @"## TASK: Design the structure of an audiobook" + "\n\n**TOPIC:** "

  /** The lines of the Spanish planning prompt between the topic and the chapter range. */
  const SizeLeadEs: string :=
    @"

**CONFIGURACIÓN DE TAMAÑO:**
- Número de capítulos: "

  /** The part of the Spanish planning prompt after the topic. */
  function PlanningTailEs(c: SizeConfig): string {
    SizeLeadEs + ChapterRange(c) + PlanningRestEs(c)
  }

  /** The part of the Spanish planning prompt after the chapter range. */
  function PlanningRestEs(c: SizeConfig): string {
    @"
- Palabras por capítulo: ~"
      + IntToString(c.wordsPerChapter)
      + @"
- Duración objetivo: "
      + c.durationMinutes
      + @" minutos

**PROCESO (sigue estos pasos en orden):**

1. **ANÁLISIS DEL TEMA**
   - ¿Cuáles son los conceptos fundamentales?
   - ¿Qué necesita saber un principiante?
   - ¿Qué esperaría un oyente aprender?

2. **DISEÑO DE PROGRESIÓN**
   - Empezar con lo básico/contexto
   - Progresar hacia conceptos más avanzados
   - Terminar con síntesis y aplicación práctica

3. **ESTRUCTURA DE CAPÍTULOS**
   - Cada capítulo = una unidad temática completa
   - Títulos que generen curiosidad
   - Balance entre teoría y ejemplos

**EJEMPLO DE BUEN OUTPUT:**
```json
{
    ""chapters"": [
        {
            ""number"": 1,
            ""title"": ""El Origen de Todo: Entendiendo los Fundamentos"",
            ""topics"": [""contexto histórico"", ""conceptos base"", ""por qué importa""],
            ""estimated_length"": "
      + IntToString(c.wordsPerChapter)
      + @"
        }
    ],
    ""total_estimated_length"": "
      + IntToString(c.totalWordsTarget)
      + @"
}
```

**IMPORTANTE:**
- Responde SOLO con JSON válido
- Títulos en ESPAÑOL, atractivos y descriptivos
- Cada capítulo debe tener 3-5 topics específicos
- NO incluyas texto antes o después del JSON

**GENERA EL PLAN AHORA:**"
  }

  /** The lines of the English planning prompt between the topic and the chapter range. */
  const SizeLeadEn: string :=
    @"

**SIZE CONFIGURATION:**
- Number of chapters: "

  /** The part of the English planning prompt after the topic. */
  function PlanningTailEn(c: SizeConfig): string {
    SizeLeadEn + ChapterRange(c) + PlanningRestEn(c)
  }

  /** The part of the English planning prompt after the chapter range. */
  function PlanningRestEn(c: SizeConfig): string {
    @"
- Words per chapter: ~"
      + IntToString(c.wordsPerChapter)
      + @"
- Target duration: "
      + c.durationMinutes
      + @" minutes

**PROCESS (follow these steps in order):**

1. **TOPIC ANALYSIS**
   - What are the fundamental concepts?
   - What does a beginner need to know?
   - What would a listener expect to learn?

2. **PROGRESSION DESIGN**
   - Start with basics/context
   - Progress toward more advanced concepts
   - End with synthesis and practical application

3. **CHAPTER STRUCTURE**
   - Each chapter = one complete thematic unit
   - Titles that generate curiosity
   - Balance between theory and examples

**GOOD OUTPUT EXAMPLE:**
```json
{
    ""chapters"": [
        {
            ""number"": 1,
            ""title"": ""The Origin of Everything: Understanding the Fundamentals"",
            ""topics"": [""historical context"", ""base concepts"", ""why it matters""],
            ""estimated_length"": "
      + IntToString(c.wordsPerChapter)
      + @"
        }
    ],
    ""total_estimated_length"": "
      + IntToString(c.totalWordsTarget)
      + @"
}
```

**IMPORTANT:**
- Respond ONLY with valid JSON
- Attractive and descriptive titles in ENGLISH
- Each chapter should have 3-5 specific topics
- DO NOT include text before or after the JSON

**GENERATE THE PLAN NOW:**"
  }

  /** `get_planning_prompt`: Spanish exactly when the code is "es" (any other code gets the
      English text), filled with the topic and the size configuration. */
  function GetPlanningPrompt(language: string, topic: string, size: string): string {
    var c := GetSizeConfig(size);
    if language == "es" then PlanningHeadEs + topic + PlanningTailEs(c)
    else PlanningHeadEn + topic + PlanningTailEn(c)
  }

  /** The planning prompt names the topic, whatever the language and size. */
  lemma PlanningPromptMentions(language: string, topic: string, size: string)
    ensures Contains(GetPlanningPrompt(language, topic, size), topic)
  {
    var c := GetSizeConfig(size);
    if language == "es" {
      ContainsConcat(PlanningHeadEs, topic, PlanningTailEs(c));
    } else {
      ContainsConcat(PlanningHeadEn, topic, PlanningTailEn(c));
    }
  }

  lemma ContainsInTail(head: string, topic: string, lead: string, t: string, rest: string)
    ensures Contains(head + topic + (lead + t + rest), t)
  {
    assert head + topic + (lead + t + rest) == (head + topic + lead) + t + rest;
    ContainsConcat(head + topic + lead, t, rest);
  }

  /** The planning prompt asks for the chapter range of the size's configuration, the
      medium one for an unknown size. */
  lemma PlanningPromptRange(language: string, topic: string, size: string)
    ensures Contains(GetPlanningPrompt(language, topic, size), ChapterRange(GetSizeConfig(size)))
  {
    var c := GetSizeConfig(size);
    if language == "es" {
      ContainsInTail(PlanningHeadEs, topic, SizeLeadEs, ChapterRange(c), PlanningRestEs(c));
    } else {
      ContainsInTail(PlanningHeadEn, topic, SizeLeadEn, ChapterRange(c), PlanningRestEn(c));
    }
  }

  lemma PrefixOfConcat(head: string, topic: string, tail: string)
    ensures StartsWith(head + topic + tail, head)
  {
    assert (head + topic + tail)[..|head|] == head;
  }

  lemma NotPrefixOfConcat(head: string, topic: string, tail: string, other: string, k: nat)
    requires k < |head| && k < |other| && head[k] != other[k]
    ensures !StartsWith(head + topic + tail, other)
  {
  }

  lemma HeadsDiffer()
    ensures 5 < |PlanningHeadEs| && 5 < |PlanningHeadEn| && PlanningHeadEn[5] != PlanningHeadEs[5]
  {
  }

  lemma TemplateEn(topic: string, tail: string)
    ensures StartsWith(PlanningHeadEn + topic + tail, PlanningHeadEn)
    ensures !StartsWith(PlanningHeadEn + topic + tail, PlanningHeadEs)
  {
    PrefixOfConcat(PlanningHeadEn, topic, tail);
    HeadsDiffer();
    NotPrefixOfConcat(PlanningHeadEn, topic, tail, PlanningHeadEs, 5);
  }

  /** The Spanish template exactly when the code is "es"; the English one otherwise. */
  lemma PlanningPromptTemplate(language: string, topic: string, size: string)
    ensures StartsWith(GetPlanningPrompt(language, topic, size), PlanningHeadEs) <==> language == "es"
    ensures language != "es" ==> StartsWith(GetPlanningPrompt(language, topic, size), PlanningHeadEn)
  {
    var c := GetSizeConfig(size);
    if language == "es" {
      PrefixOfConcat(PlanningHeadEs, topic, PlanningTailEs(c));
    } else {
      TemplateEn(topic, PlanningTailEn(c));
    }
  }


  const EvaluationHeadEs: string := "## INSTRUCCIONES DE EVALUACI\U{D3}N"
  const EvaluationHeadEn: string := "## EVALUATION INSTRUCTIONS"

  const EvaluationPromptEs: string := EvaluationHeadEs + @"

Evalúa el contenido y responde con el siguiente JSON:

```json
{
    ""overall_score"": 85,
    ""scores_by_chapter"": [
        {""chapter"": 1, ""score"": 90, ""feedback"": ""Excelente introducción, buen gancho inicial""}
    ],
    ""strengths"": [
        ""Claridad en las explicaciones"",
        ""Buenos ejemplos prácticos"",
        ""Ritmo narrativo adecuado""
    ],
    ""weaknesses"": [
        ""Algunos párrafos muy largos"",
        ""Falta profundidad en X tema""
    ],
    ""suggestions"": [
        ""Dividir los párrafos largos"",
        ""Añadir más ejemplos en sección Y""
    ],
    ""decision"": ""accept"",
    ""improvement_instructions"": ""Si decision es 'improve', describe aquí los cambios específicos""
}
```

**CRITERIOS DE DECISIÓN:**
- **accept** (≥70 puntos): Contenido listo para audio
- **improve** (<70 puntos): Necesita revisión, pero tiene potencial
- **reject** (<40 puntos): Requiere reescritura completa

Responde SOLO con JSON válido en ESPAÑOL."

  const EvaluationPromptEn: string := EvaluationHeadEn + @"

Evaluate the content and respond with the following JSON:

```json
{
    ""overall_score"": 85,
    ""scores_by_chapter"": [
        {""chapter"": 1, ""score"": 90, ""feedback"": ""Excellent introduction, good initial hook""}
    ],
    ""strengths"": [
        ""Clarity in explanations"",
        ""Good practical examples"",
        ""Appropriate narrative rhythm""
    ],
    ""weaknesses"": [
        ""Some paragraphs too long"",
        ""Lacks depth in X topic""
    ],
    ""suggestions"": [
        ""Split long paragraphs"",
        ""Add more examples in section Y""
    ],
    ""decision"": ""accept"",
    ""improvement_instructions"": ""If decision is 'improve', describe specific changes here""
}
```

**DECISION CRITERIA:**
- **accept** (≥70 points): Content ready for audio
- **improve** (<70 points): Needs revision, but has potential
- **reject** (<40 points): Requires complete rewrite

Respond ONLY with valid JSON in ENGLISH."

  /** `get_evaluation_prompt`: Spanish exactly when the code is "es". */
  function GetEvaluationPrompt(language: string): string {
    if language == "es" then EvaluationPromptEs else EvaluationPromptEn
  }

  /** The evaluation instructions open with the Spanish heading exactly when the code is
      "es", and with the English one for every other code. */
  lemma EvaluationPromptLanguage(language: string)
    ensures StartsWith(GetEvaluationPrompt(language), EvaluationHeadEs) <==> language == "es"
    ensures language != "es" ==> StartsWith(GetEvaluationPrompt(language), EvaluationHeadEn)
  {
    if language == "es" {
      HeadOfConcat(EvaluationHeadEs, EvaluationPromptEs[|EvaluationHeadEs|..]);
      assert EvaluationPromptEs == EvaluationHeadEs + EvaluationPromptEs[|EvaluationHeadEs|..];
    } else {
      var tail := EvaluationPromptEn[|EvaluationHeadEn|..];
      assert EvaluationPromptEn == EvaluationHeadEn + tail;
      HeadOfConcat(EvaluationHeadEn, tail);
      assert EvaluationHeadEn[3] != EvaluationHeadEs[3];
      OtherHeadOfConcat(EvaluationHeadEn, tail, EvaluationHeadEs, 3);
    }
  }

  lemma HeadOfConcat(head: string, tail: string)
    ensures StartsWith(head + tail, head)
  {
    assert (head + tail)[..|head|] == head;
  }

  lemma OtherHeadOfConcat(head: string, tail: string, other: string, k: nat)
    requires k < |head| && k < |other| && head[k] != other[k]
    ensures !StartsWith(head + tail, other)
  {
  }

  datatype LanguageConfig = LanguageConfig(
    code: string,
    name: string,
    ttsConfig: TtsConfig,
    systemPrompts: map<string, string>)

  /** `get_language_config`: the code, its name, its TTS settings and the three system prompts. */
  function GetLanguageConfig(language: string): (r: LanguageConfig)
    ensures r.code == language && r.name == GetLanguageName(language)
    ensures r.ttsConfig == GetTtsConfig(language)
    ensures forall a :: a in r.systemPrompts <==> IsAgentType(a)
    ensures forall a :: a in r.systemPrompts ==> r.systemPrompts[a] == GetSystemPrompt(language, a) && r.systemPrompts[a] != []
  {
    AgentPromptsNonEmpty(language);
    LanguageConfig(language, GetLanguageName(language), GetTtsConfig(language),
      map a | a in ["planner", "generator", "evaluator"] :: GetSystemPrompt(language, a))
  }

  lemma AgentPromptsNonEmpty(language: string)
    ensures forall a :: IsAgentType(a) ==> GetSystemPrompt(language, a) != []
  {
    SystemPromptDefined(language, "planner");
    SystemPromptDefined(language, "generator");
    SystemPromptDefined(language, "evaluator");
  }
}
