# AI audiobook creator: a Dafny model of the content-refinement core

The system turns a topic into the text of an audiobook. A planner asks a language model
for a chapter plan; two generators each write every chapter of the plan; an evaluator
scores both drafts and decides to accept them, to send them back for improvement, or to
reject them. The loop runs until the drafts are accepted or the iteration limit is
reached. The accepted drafts are then merged chapter by chapter into one book text, which
is cleaned up for speech synthesis: chapter headings are recognised, files are named,
and each part of a line is assigned a narrator or a dialogue voice.

This project models that core in Dafny and proves what it promises. There is one module
per source file:

- `AgentState` (`agent_state.dfy`): the shared state. It is a class with one field per
  key of the Python state dict. Each node's update is a method that says which keys it
  writes and that every other key keeps its value.
- `LlmOracle` (`llm_oracle.dfy`): the language-model client. It is a class that records
  every request it is sent and answers with an uninterpreted oracle `reply(n, prompt,
  system)`, where `n` is the number of earlier requests.
- `PlannerAgent`, `ContentGeneratorAgent`, `EvaluatorAgent` (`planner_agent.dfy`,
  `content_generator_agent.dfy`, `evaluator_agent.dfy`): the three agents.
  - Each is a class holding its client.
  - Parsing takes the `{`…`}` slice of a reply, decodes it with an oracle, and falls back
    to a fixed plan or evaluation.
  - The generator's per-chapter loop is proved against a reference "pass".
  - The evaluator's decision rule is a function.
  - The evaluator's prompt is built by loops proved against the prompt they produce.
- `ContentGenerationWorkflow` (`workflow.dfy`): the graph.
  - The graph's edges are a relation over node names.
  - The nodes are methods over the state.
  - The refinement loop is a method whose termination measure is `max_iterations -
    iteration_count`.
  - Lemmas build the path the run takes through the graph.
- `ContentFormatter` (`content_formatter.dfy`): the merge of the two drafts, the
  sentence-packing line splitter and the text of the book file.
- `TextPreprocessing`, `AudioUtils`, `VoiceMapping`, `LanguageSupport`: the text
  utilities and the lookup tables.
- `Wrappers`, `Strings` and `Json`: helper modules.
  - `Wrappers` holds the `Option` and `Result` types.
  - `Strings` models Python's `str` methods, with one fixed whitespace predicate.
  - `Json` models JSON values and dict helpers.

Points of the code worth knowing when reading the model:

- The planner parses the reply's outermost braces as JSON, with no repair step, and always
  asks for the medium size (agents/planner_agent.py:25-110). Its fallback is the
  one-chapter plan.
- With score 60, threshold 70, iteration 3 and limit 3, the decision is `reject`
  (agents/evaluator_agent.py:76-82), and the router ends the run without merging.
- A Python exception becomes an `Err` value: `ValueError`, the `TypeError` of an
  unorderable score, a failed slice, or the `OverflowError` of the evaluator's score bar.

## Model

| member | source | states |
|---|---|---|
| AgentState.GenerationState.Initial | app.py:148-161 | the state the application starts a run with: the stripped topic and the given language, no plan, drafts, evaluation, history or final content, iteration 0, the iteration limit and quality threshold read from the environment (app.py:31-32, default 3 and 70.0), empty metadata |
| AgentState.GenerationState.SetPlan | agents/planner_agent.py:79-82 | the planner's update writes `plan` and `metadata` and leaves every other key as it was |
| AgentState.GenerationState.SetContentV1 | agents/content_generator_agent.py:100-101 | the first generator writes `content_v1` and nothing else |
| AgentState.GenerationState.SetContentV2 | agents/content_generator_agent.py:102-103 | the second generator writes `content_v2` and nothing else |
| AgentState.GenerationState.SetEvaluation | agents/evaluator_agent.py:117-129 | the evaluator writes `evaluation` and `feedback_history` and nothing else |
| AgentState.GenerationState.SetIterationCount | workflows/content_generation_workflow.py:127 | a write of `iteration_count` changes nothing else |
| AgentState.GenerationState.SetFinalContent | workflows/content_generation_workflow.py:150 | a write of `final_content` changes nothing else |
| AgentState.GenerationState.SetMetadata | workflows/content_generation_workflow.py:195-196 | a write of `metadata` changes nothing else |
| LlmOracle.LlmClient.Generate | utils/llm_client.py:70-126 | a call records exactly one more request (prompt, system prompt, temperature) and answers the oracle's reply to that request |
| PlannerAgent.FallbackPlanShape | agents/planner_agent.py:112-123 | the fallback plan has exactly one chapter: number 1, "Introducción", topics ["Introducción al tema"], 1000 words; total length 1000 |
| PlannerAgent.ParsedPlan | agents/planner_agent.py:96-123 | the result always binds "chapters" to a list; it is the decoded `{`…`}` slice when that decodes to a plan, the fallback otherwise; a reply with no `}` after a `{` always gives the fallback |
| PlannerAgent.EmptyPlanAccepted | agents/planner_agent.py:107-108 | a decoded plan whose chapter list is empty is accepted as it is |
| PlannerAgent.SummaryErrorIff | agents/planner_agent.py:60-77 | the planner's summary log raises exactly when some chapter entry is not a dict, has topics without a length, or has a title that cannot be sliced |
| PlannerAgent.RowsErrorIff | agents/planner_agent.py:69-76 | the table rows raise exactly when some entry's topics have no length or its title cannot be sliced |
| PlannerAgent.FallbackSummaryOk | agents/planner_agent.py:60-77 | the summary of the fallback plan raises nothing |
| PlannerAgent.Planner.constructor | agents/planner_agent.py:16-23 | the planner keeps its client and uses the language tables' system and planning prompts |
| PlannerAgent.Planner.Plan | agents/planner_agent.py:25-84 | exactly one request: the planning prompt for the state's language and topic at the medium size, temperature 0.7; on success the parsed plan goes into `plan` and `planning_completed = True` into the metadata, the other entries kept and nothing else changed; if the summary log raises, the state is unchanged |
| EvaluatorAgent.FallbackEvaluationShape | agents/evaluator_agent.py:218-227 | the fallback evaluation scores 50, scores no chapter and proposes "improve" |
| EvaluatorAgent.ParsedEvaluation | agents/evaluator_agent.py:203-227 | the result always has an overall score; it is the decoded `{`…`}` slice when that decodes and has "overall_score", the fallback otherwise; a reply with no `}` after a `{` always gives the fallback |
| EvaluatorAgent.Decide | agents/evaluator_agent.py:76-82 | improve iff score < threshold and iterations remain; accept iff score ≥ threshold; reject iff score < threshold and iterations are used up; a non-numeric score raises TypeError |
| EvaluatorAgent.DecisionExamples | agents/evaluator_agent.py:76-82 | with threshold 70 and limit 3: 75 is accepted, 60 with iterations left is improved, 60 and 30 with iterations used up are rejected, a string score raises |
| EvaluatorAgent.ScoreBarError | agents/evaluator_agent.py:91-94 | the score bar raises only `OverflowError`, only for an int or float score, never for a score between -100 and 100; it raises exactly when the bar length `int(20 * score / 100)` makes a repeat count that does not fit an index, that is for an int score of magnitude at least 5 * (2^63 - 2^9) and a float score of magnitude at least 5 * 2^63; an int quotient too large for a float and a float product that overflows to infinity give their own messages |
| EvaluatorAgent.HugeScoreFails | agents/evaluator_agent.py:91-94 | a score of 10^20 or -10^20 decides, but the verdict fails on the score bar |
| EvaluatorAgent.VerdictSpec | agents/evaluator_agent.py:75-131 | the verdict stands iff the score decides and the log raises nothing; a decided score whose bar length does not fit an index fails with the bar's `OverflowError`; the stored evaluation is the parsed one with its decision replaced by the rule's; one feedback entry is appended with the pre-increment iteration, the final decision and the score; the earlier entries and every other field are unchanged |
| EvaluatorAgent.Preview | agents/evaluator_agent.py:178 | a chapter contributes its first min(len, 2000) characters, a prefix of its content |
| EvaluatorAgent.BlockInPlace | agents/evaluator_agent.py:173-185 | chapter k's block (heading, at most 2000 characters, "...") sits between the blocks of the chapters before and after it |
| EvaluatorAgent.SectionPresence | agents/evaluator_agent.py:173-185 | a generator's section is empty iff its draft is empty, and otherwise starts with its header |
| EvaluatorAgent.AppendSection | agents/evaluator_agent.py:174-178 | one generator's loop appends exactly that generator's section to the prompt |
| EvaluatorAgent.BuildEvaluationPrompt | agents/evaluator_agent.py:133-191 | the prompt is the rubric, generator 1's section, generator 2's section, a blank line and the answer format |
| EvaluatorAgent.Evaluator.constructor | agents/evaluator_agent.py:16-23 | the evaluator keeps its client and uses the language tables' evaluator system prompt and answer format |
| EvaluatorAgent.Evaluator.Evaluate | agents/evaluator_agent.py:25-131 | with both drafts empty: ValueError, no request, state unchanged; otherwise exactly one request (temperature 0.3) and the state becomes the verdict on the parsed reply, or stays unchanged on an error |
| ContentGenerationWorkflow.NextIsEdges | workflows/content_generation_workflow.py:44-68 | a step is possible from a to b iff (a, b) is an edge of the graph: planner→generator1→generator2→evaluator, evaluator→generator1/merge/END, merge→format→END |
| ContentGenerationWorkflow.ShouldImproveSpec | workflows/content_generation_workflow.py:208-232 | no evaluation gives "improve"; otherwise "improve" iff the decision is improve and iterations remain, "accept" iff the decision is accept or an improve with iterations used up; any other answer is the decision unchanged |
| ContentGenerationWorkflow.RouteAfterVerdict | workflows/content_generation_workflow.py:120-134 | after a successful evaluation and the increment, the router always names a route; "improve" only while iterations remain, "reject" only if the pass began with the iterations used up |
| ContentGenerationWorkflow.CycleStep | workflows/content_generation_workflow.py:49-62 | extending a run inside the loop by a node reachable along an edge keeps it a path of the graph, counting one more evaluator pass iff the node is the evaluator |
| ContentGenerationWorkflow.ReachMerge | workflows/content_generation_workflow.py:59-68 | a loop path that may go to merge extends to a path through merge, format and END with no further evaluator pass |
| ContentGenerationWorkflow.ReachEnd | workflows/content_generation_workflow.py:60 | a loop path that may go to END extends to a path ending there, not through format |
| ContentGenerationWorkflow.Workflow.constructor | workflows/content_generation_workflow.py:25-41 | the graph holds a planner, generators "generator1" and "generator2" and an evaluator, each with its own client |
| ContentGenerationWorkflow.Workflow.PlannerNode | workflows/content_generation_workflow.py:73-85 | sends exactly one request, built from the old language and topic; if the parsed plan has a summary error it fails and the state is unchanged, otherwise it goes to generator1 and the new state is the old one with `plan` set to the parsed plan and `planning_completed` set in the metadata (counter, limit and final content untouched) |
| ContentGenerationWorkflow.Workflow.GeneratorNode | workflows/content_generation_workflow.py:88-117 | appends exactly the requests of the agent's `generate` run on the old state; on success it takes the node's edge and the new state is that run's result, on failure it fails with the state unchanged; the counter (generator1's write puts back the value it read), the limit and the final content stay alone |
| ContentGenerationWorkflow.Workflow.EvaluatorNode | workflows/content_generation_workflow.py:120-134 | the state becomes the outcome of `evaluate` with `iteration_count` one higher; on an error the state is unchanged |
| ContentGenerationWorkflow.Workflow.EvaluatorRoute | workflows/content_generation_workflow.py:120-134 | the counter goes up by exactly one per successful pass; the route is generator1 only while iterations remain and END only when the pass began with them used up |
| ContentGenerationWorkflow.Workflow.MergeNode | workflows/content_generation_workflow.py:137-150 | `final_content` becomes `merge_best_content(content_v1, content_v2, evaluation)` and no other field changes |
| ContentGenerationWorkflow.Workflow.FormatNode | workflows/content_generation_workflow.py:180-197 | with empty final content nothing changes; otherwise the book text is built in the state's language and `formatted_output_path` is added to the metadata, the other entries kept and no other field changed |
| ContentGenerationWorkflow.Workflow.Visit | workflows/content_generation_workflow.py:36-62 | one node of the loop, then an edge out of it; only a successful evaluator pass counts an iteration |
| ContentGenerationWorkflow.Workflow.Refine | workflows/content_generation_workflow.py:44-62 | the loop follows the edges from the planner, counts one iteration per evaluator pass and leaves for merge or END; from iteration 0 < limit it never exceeds the limit and never leaves for END (termination by `max_iterations - iteration_count`) |
| ContentGenerationWorkflow.Workflow.MergeAndFormat | workflows/content_generation_workflow.py:137-197 | the final content is the merge of the drafts under the evaluation and the book is its text (none when empty); the counter and the limit stay |
| ContentGenerationWorkflow.Workflow.Run | workflows/content_generation_workflow.py:44-70 | the run follows the graph from the planner and succeeds iff it reaches END; the counter rises by the number of evaluator passes; started with iterations remaining it stays within the limit and ends through merge, format and END, with the merged content and its book text |
| ContentGeneratorAgent.ChapterFeedbackFirst | agents/content_generator_agent.py:172-180 | the chapter feedback is the "feedback" (default "") of the first `scores_by_chapter` entry whose "chapter" equals the chapter's number |
| ContentGeneratorAgent.ChapterFeedbackAbsent | agents/content_generator_agent.py:172-180 | with no entry about the chapter there is no chapter feedback |
| ContentGeneratorAgent.FeedbackNote | agents/content_generator_agent.py:171-182 | no latest feedback entry gives no note; a note is produced only from a truthy chapter feedback, rendered as text |
| ContentGeneratorAgent.Bullets | agents/content_generator_agent.py:140 | one bullet `"- " + str(t)` per topic, in order |
| ContentGeneratorAgent.TopicBullets | agents/content_generator_agent.py:130-140 | a list of topics gives exactly its bullets |
| ContentGeneratorAgent.ReadChapter | agents/content_generator_agent.py:128-131 | the number (default 1), title (default ""), topics (default none) and estimated length (default 1000) are the chapter's own values |
| ContentGeneratorAgent.ChapterPrompt | agents/content_generator_agent.py:181-182 | the chapter prompt is the user prompt, with the chapter-specific note appended exactly when there is one |
| ContentGeneratorAgent.GeneratorSystemPrompt | agents/content_generator_agent.py:56-62 | the latest improvement instructions are appended to the system prompt exactly when the history is non-empty and `iteration_count > 0`; otherwise the prompt is the language's generator prompt unchanged |
| ContentGeneratorAgent.Record | agents/content_generator_agent.py:191-197 | the record holds the chapter's number and title, the model's text, its whitespace word count and the agent id |
| ContentGeneratorAgent.PassLength | agents/content_generator_agent.py:64-80 | one request per record; a complete pass has one record per chapter; a pass that stops does so at the first chapter that raises |
| ContentGeneratorAgent.PassAt | agents/content_generator_agent.py:69-80 | record k comes from plan chapter k and holds the reply to the k-th request, which is that chapter's request |
| ContentGeneratorAgent.PassShaped | agents/content_generator_agent.py:64-80 | the pass has the chapter-by-chapter shape the loop is proved against |
| ContentGeneratorAgent.PassRecords | agents/content_generator_agent.py:128-197 | every record holds the number and title of its plan chapter, the word count of its text and the agent id |
| ContentGeneratorAgent.GeneratedStores | agents/content_generator_agent.py:38-105 | a successful `generate` needs a non-empty plan; it stores one record per plan chapter under `content_v1` iff the agent is "generator1", otherwise under `content_v2`; every other field is unchanged |
| ContentGeneratorAgent.GeneratedSpec | agents/content_generator_agent.py:65-80 | the stored draft has one record per plan chapter, in plan order, each with that chapter's number and title, the word count of its content and the agent id |
| ContentGeneratorAgent.Generator.constructor | agents/content_generator_agent.py:15-24 | the agent keeps its client and id and uses the language tables' generator prompt and the chapter request of `_generate_chapter_content` |
| ContentGeneratorAgent.Generator.GenerateChapterContent | agents/content_generator_agent.py:107-197 | a chapter that raises makes no request; otherwise exactly one request (the chapter prompt, temperature 0.8) whose reply becomes the record |
| ContentGeneratorAgent.Generator.GenerateChapters | agents/content_generator_agent.py:64-85 | the loop makes exactly the pass's requests, in order, and returns its records or the error that stopped it |
| ContentGeneratorAgent.Generator.Generate | agents/content_generator_agent.py:26-105 | no plan (absent or empty) raises ValueError with no request; otherwise the requests and the new state are those of the pass (see `GeneratedStores`); on any error the state is unchanged |
| ContentFormatter.CleanedFinished | integration/content_formatter.py:84-90 | a blank piece is skipped; any other is stripped and completed with "." when it lacks a final mark, giving a finished sentence |
| ContentFormatter.SentencesFinished | integration/content_formatter.py:80-90 | every sentence the splitter packs is non-empty, starts with no whitespace and ends in `.`, `!` or `?` |
| ContentFormatter.JoinFinished | integration/content_formatter.py:97-103 | finished sentences joined by spaces make a finished line that stripping leaves unchanged |
| ContentFormatter.PackedStep | integration/content_formatter.py:93-100 | the loop body on one sentence closes the current line when it would exceed the maximum, and otherwise starts or extends it |
| ContentFormatter.SplitStep | integration/content_formatter.py:83-100 | one pass of the loop packs exactly the piece's completed sentence, or nothing for a blank piece |
| ContentFormatter.PackedFinish | integration/content_formatter.py:102-103 | closing the last non-empty line gives the lines of all the groups |
| ContentFormatter.SplitParagraphForTts | integration/content_formatter.py:67-105 | the lines returned are those of the sentence packing of `text.split(". ")` |
| ContentFormatter.PackPieces | integration/content_formatter.py:79-105 | the loop over the pieces and the final close produce exactly the packing's lines |
| ContentFormatter.PackPiece | integration/content_formatter.py:83-100 | one piece: skipped when blank, else stripped, completed and packed |
| ContentFormatter.PackSentence | integration/content_formatter.py:93-100 | one finished sentence: the strings after the pass stand for the packing with that sentence added |
| ContentFormatter.PackShape | integration/content_formatter.py:93-103 | the packing of finished sentences is well packed: no empty line, every multi-sentence line within the maximum, every line too full for the next line's first sentence, and the lines hold exactly the sentences in order |
| ContentFormatter.JoinEachFlatten | integration/content_formatter.py:94-103 | the lines joined by spaces are the grouped sentences joined by spaces |
| ContentFormatter.TtsLinesFinished | integration/content_formatter.py:88-103 | every line is non-empty, has no surrounding whitespace and ends in `.`, `!` or `?` |
| ContentFormatter.TtsLinesKeepSentences | integration/content_formatter.py:80-103 | the lines joined by single spaces equal the stripped, completed, non-blank sentences joined by single spaces; there are no lines iff there is no such sentence |
| ContentFormatter.TtsLinesBounded | integration/content_formatter.py:93-103 | a line of two or more sentences is at most `max_line_length` long; each line is closed only because the next sentence did not fit |
| ContentFormatter.InsertOrdered | integration/content_formatter.py:34 | inserting a record keeps the order by chapter number and adds exactly that record |
| ContentFormatter.InsertStable | integration/content_formatter.py:34 | an inserted record goes after the records with the same number |
| ContentFormatter.SortByNumberSpec | integration/content_formatter.py:34 | the chapters are sorted by ascending number, are a permutation of the input, and keep the input order among equal numbers (a stable sort) |
| ContentFormatter.ChapterLinesParts | integration/content_formatter.py:39-54 | the lines appended for one chapter are that chapter's block |
| ContentFormatter.ParagraphStep | integration/content_formatter.py:49-54 | one pass of the paragraph loop adds the paragraph's split lines and a blank line, or nothing for a blank paragraph |
| ContentFormatter.AppendParagraphLines | integration/content_formatter.py:48-54 | the paragraph loop appends exactly the lines of the paragraphs |
| ContentFormatter.FormatToAudiobookText | integration/content_formatter.py:13-65 | the text built is the chapters' blocks in ascending number order joined by line feeds; the returned path is the output path |
| ContentFormatter.ParagraphLinesShape | integration/content_formatter.py:49-54 | a paragraph gives nothing iff it is blank, else finished lines followed by one blank line |
| ContentFormatter.ParagraphsLinesShape | integration/content_formatter.py:47-54 | the paragraph lines are blank or finished sentences, the last one blank |
| ContentFormatter.ChapterLinesShape | integration/content_formatter.py:30-54 | a chapter's block starts "Capítulo N" for "es" and "Chapter N" otherwise, has the title line only when the title is non-empty, then a blank line, then lines that are blank or finished sentences, ending blank |
| ContentFormatter.ByNumberKeyed | integration/content_formatter.py:138-139 | every record of the chapter dictionary sits under its own chapter number |
| ContentFormatter.ByNumberSpec | integration/content_formatter.py:138-139 | the dictionary's keys are exactly the chapter numbers that occur, each bound to the last record with that number |
| ContentFormatter.InsertKeySpec | integration/content_formatter.py:143 | inserting a key keeps the list strictly ascending and adds exactly that key |
| ContentFormatter.SortedKeysSpec | integration/content_formatter.py:143 | the merged keys are strictly ascending (each once) and are exactly the numbers given |
| ContentFormatter.ScoreEntriesSpec | integration/content_formatter.py:134-135 | the scores comprehension succeeds iff every element is a dict with a hashable chapter, and then holds one (chapter, score default 0) pair per element in order; otherwise it raises the first element's error |
| ContentFormatter.ScoreEntriesErr | integration/content_formatter.py:135 | an error part-way through is the comprehension's error |
| ContentFormatter.ScoreOfLast | integration/content_formatter.py:135 | the score found for a chapter is the one stored last under an equal key |
| ContentFormatter.ScoreOfAbsent | integration/content_formatter.py:155 | a chapter that no pair names scores 0 |
| ContentFormatter.ChooseAllSpec | integration/content_formatter.py:145-169 | one choice per key, in key order, exactly when every choice succeeds |
| ContentFormatter.ChooseAllErr | integration/content_formatter.py:145-169 | the first failing choice is the loop's error |
| ContentFormatter.KeysIndexed | integration/content_formatter.py:143-147 | every merged key is a key of one of the two chapter dictionaries |
| ContentFormatter.CollectScores | integration/content_formatter.py:134-135 | the loop builds exactly the scores comprehension |
| ContentFormatter.IndexByNumber | integration/content_formatter.py:138-139 | the loop builds exactly the chapter dictionary |
| ContentFormatter.MergeBestContent | integration/content_formatter.py:107-171 | the method returns exactly `MergedContent` |
| ContentFormatter.ChooseChapters | integration/content_formatter.py:142-171 | the loop over the sorted numbers returns exactly the choices in key order, or the first error |
| ContentFormatter.MergeWithEmptyDraft | integration/content_formatter.py:124-131 | both drafts empty give []; an empty first draft gives the second as it is; an empty second draft gives the first as it is, not re-sorted |
| ContentFormatter.MergedAt | integration/content_formatter.py:143-169 | merged chapter i is the choice for the i-th smallest chapter number and carries that number |
| ContentFormatter.MergedChapters | integration/content_formatter.py:138-169 | with both drafts non-empty the merge has exactly one chapter per number in either draft, in strictly ascending order, each a record of one of the drafts |
| ContentFormatter.MapValueFrom | integration/content_formatter.py:138-139 | every value of the chapter dictionary is one of the records |
| ContentFormatter.MergeOnlyInFirst | integration/content_formatter.py:149-152 | a number only the first draft has takes that draft's last record with that number |
| ContentFormatter.MergeOnlyInSecond | integration/content_formatter.py:149-150 | a number only the second draft has takes that draft's last record with that number |
| ContentFormatter.MergeInBoth | integration/content_formatter.py:153-169 | for a number both drafts have, both scores are the same value: score 0 or missing takes the first draft's record only if its content is strictly longer (ties go to the second); any other score always takes the first |
| ContentFormatter.ChooseFails | integration/content_formatter.py:153-169 | a choice raises iff both drafts have the number and its score is None or a dict, which Python cannot compare |
| ContentFormatter.MergeFails | integration/content_formatter.py:133-169 | with both drafts non-empty the merge raises iff the scores cannot be read or a shared chapter's score is None or a dict |
| ContentFormatter.MergeWithoutScores | integration/content_formatter.py:134-163 | without scores the merge cannot raise and every chapter scores 0, so shared chapters go to the strictly longer text |
| TextPreprocessing.DigitRun | utils/text_preprocessing.py:182 | the `\d` run at a position: every character in it is a digit and the next one is not |
| TextPreprocessing.TimeMatchAt | utils/text_preprocessing.py:182-183 | a time match `h:mm` with optional AM/PM spans at least four characters and stays within the line |
| TextPreprocessing.RatioMatchAt | utils/text_preprocessing.py:187-188 | a ratio match `a:b` spans at least three characters and stays within the line |
| TextPreprocessing.CollapseSpaces | utils/text_preprocessing.py:194 | collapsing whitespace runs leaves an empty string only from an empty one and keeps whether the text starts with whitespace |
| TextPreprocessing.CollapseSpacesShape | utils/text_preprocessing.py:194 | after `re.sub(r'\s+', ' ', …)` every whitespace character is a plain space and no two are adjacent |
| TextPreprocessing.CollapseSpacesChars | utils/text_preprocessing.py:194 | collapsing adds no character other than a space |
| TextPreprocessing.TimeSubChars | utils/text_preprocessing.py:182-183 | the time substitution adds no character other than `.` and a space |
| TextPreprocessing.RatioSubChars | utils/text_preprocessing.py:187-188 | the ratio substitution adds no character other than a space and `a` |
| TextPreprocessing.ResolvedLineChars | utils/text_preprocessing.py:167-196 | `_resolve_colon_conflicts` leaves no colon in the line and adds only `.`, space, `a` and `-` |
| TextPreprocessing.ResolvedLineSpacing | utils/text_preprocessing.py:193-196 | the rewritten line is stripped, its whitespace is plain spaces and never doubled |
| TextPreprocessing.MovePunctuationInsideQuotes | utils/text_preprocessing.py:199-215 | moving end marks inside quotes keeps the length and the characters with their counts (a permutation) |
| TextPreprocessing.MoveInsideTail | utils/text_preprocessing.py:213 | a quote and an end mark closing a line are swapped, and the text before them is processed as on its own |
| TextPreprocessing.MoveInsideExamples | utils/text_preprocessing.py:203-204 | the documented example: `"Hola".` becomes `"Hola."` |
| TextPreprocessing.MoveInsideNoop | utils/text_preprocessing.py:213 | a line where no quote is directly followed by `.`, `!`, `?` or `…` is unchanged |
| TextPreprocessing.WordRun | utils/text_preprocessing.py:130 | the `\w` run at a position: every character in it is a word character and the next one is not; word characters are exact up to U+00FF, superscript digits and vulgar fractions included |
| TextPreprocessing.PunctuatedDialogueEnding | utils/text_preprocessing.py:117-134 | each of the three punctuated-dialogue patterns ends the line with a quote or a sentence-ending mark |
| TextPreprocessing.AddPunctuationInsideDialogue | utils/text_preprocessing.py:147-164 | unpunctuated dialogue gets a full stop just before its closing quote and nothing else changes, after which it is no longer unpunctuated; any other line is returned unchanged |
| TextPreprocessing.AddPunctuationExample | utils/text_preprocessing.py:152-162 | the documented example: `"Hola"` becomes `"Hola."` |
| TextPreprocessing.FinishLineShape | utils/text_preprocessing.py:52-78 | the dialogue/terminal/title/comma/default cascade never yields an empty line, adds at most a full stop, and ends a colon-free line in `.`, `!`, `?`, `;`, `,`, a quote or `…` |
| TextPreprocessing.ProcessLineShape | utils/text_preprocessing.py:32-78 | for one line: blank stays empty, non-blank stays non-empty, skipped lines (very short or ending in an abbreviation) are only stripped, every other line loses its colons and ends in a pause mark |
| TextPreprocessing.ProcessLineChars | utils/text_preprocessing.py:32-78 | a processed line holds only the raw line's characters plus `.`, space, `a` and `-` |
| TextPreprocessing.ProcessedLines | utils/text_preprocessing.py:29-80 | one output line per input line |
| TextPreprocessing.PreprocessTextForTts | utils/text_preprocessing.py:12-80 | the loop joins, with line feeds, every line processed with its own index |
| TextPreprocessing.ProcessedLinesNoLineFeed | utils/text_preprocessing.py:32-78 | processing a line never introduces a line feed |
| TextPreprocessing.PreprocessKeepsLines | utils/text_preprocessing.py:29-80 | the result splits back into exactly the processed lines, so the line count of the text is kept |
| TextPreprocessing.NormalizeUnicodeCharacters | utils/text_preprocessing.py:218-242 | the loop applies the eight `str.replace` calls in dictionary order |
| TextPreprocessing.ReplacedUpToConcat | utils/text_preprocessing.py:239-240 | the chain of replacements distributes over concatenation |
| TextPreprocessing.ReplacedOneChar | utils/text_preprocessing.py:228-240 | on one character the chain of replacements gives its ASCII equivalent (curly quotes to `"`/`'`, dashes to `-`, ellipsis to `...`, no-break space to space) |
| TextPreprocessing.NormalizeUnicodeMeaning | utils/text_preprocessing.py:218-242 | the replacement loop equals the character-by-character reference definition |
| TextPreprocessing.NormalizedPlain | utils/text_preprocessing.py:218-242 | no replaced character survives normalisation, and normalising twice is normalising once |
| TextPreprocessing.PlainUnchanged | utils/text_preprocessing.py:218-242 | a text without any of the eight characters is left unchanged |
| TextPreprocessing.NonBlankStrippedShape | utils/text_preprocessing.py:256 | every kept line is non-empty, already stripped, and contains no line boundary |
| TextPreprocessing.NormalizeLineBreaksShape | utils/text_preprocessing.py:245-257 | the result's lines are exactly the stripped non-blank input lines, and normalising again changes nothing |
| TextPreprocessing.FixQuotes | utils/text_preprocessing.py:280-293 | a line ends with an even number of double quotes; an even line is untouched; an odd one gains exactly one quote at the front or the back |
| TextPreprocessing.FixLines | utils/text_preprocessing.py:276-295 | the loop keeps each non-blank line, fixed, in order, and drops the blank ones |
| TextPreprocessing.FixUnterminatedQuotes | utils/text_preprocessing.py:260-297 | the text's lines are joined after the quote-fixing loop |
| TextPreprocessing.FixQuotesLine | utils/text_preprocessing.py:276-295 | fixing a non-blank single line yields a non-blank single line with an even number of double quotes |
| TextPreprocessing.FixedLinesShape | utils/text_preprocessing.py:276-295 | every kept line is non-blank, one line, and has balanced double quotes |
| TextPreprocessing.FixedLinesIdempotent | utils/text_preprocessing.py:276-295 | running the quote fixing over its own output keeps every line and changes none |
| TextPreprocessing.FixedTextShape | utils/text_preprocessing.py:260-297 | every line of the fixed text is non-blank with balanced quotes, and fixing the text twice is fixing it once |
| TextPreprocessing.PreprocessFullText | utils/text_preprocessing.py:300-322 | Unicode normalisation, then line breaks, then quote fixing, then the punctuation pass, in that order |
| TextPreprocessing.FullTextLinesNonEmpty | utils/text_preprocessing.py:300-322 | a fully preprocessed text is empty or has no empty line |
| TextPreprocessing.DialogueMatchFrom | utils/text_preprocessing.py:336 | the leftmost match of `"[^"]+"` starts at or after the position, opens and closes with a double quote, holds at least one character and no double quote inside |
| TextPreprocessing.DialogueSplit | utils/text_preprocessing.py:336 | `re.split` with a capturing group gives an odd number of pieces (text, match, text, …) |
| TextPreprocessing.DialogueSplitConcat | utils/text_preprocessing.py:336 | the pieces of the split, concatenated, give back the text |
| TextPreprocessing.DialogueSplitQuoted | utils/text_preprocessing.py:336 | every odd-numbered piece is one complete quoted passage |
| TextPreprocessing.Annotate | utils/text_preprocessing.py:341-343 | a piece keeps its text and is dialogue exactly when it starts and ends with a double quote |
| TextPreprocessing.SplitAndAnnotateText | utils/text_preprocessing.py:325-346 | the loop annotates the non-empty pieces of the split, in order |
| TextPreprocessing.AnnotatedConcat | utils/text_preprocessing.py:339-344 | dropping empty pieces loses no text |
| TextPreprocessing.AnnotatedNonEmpty | utils/text_preprocessing.py:340 | no segment has empty text |
| TextPreprocessing.SegmentsSpellText | utils/text_preprocessing.py:325-346 | the segments, concatenated, are exactly the input text |
| TextPreprocessing.RemoveChars | utils/text_preprocessing.py:371 | a character is kept exactly when it is in the text and not in the punctuation set |
| TextPreprocessing.OnlyPunctuationMeaning | utils/text_preprocessing.py:349-374 | a line is "only punctuation" exactly when every character is whitespace or in the set |
| TextPreprocessing.TypographicQuotesOnly | utils/text_preprocessing.py:368 | a line of curly quotes is not punctuation under the set as written, and is under the intended set |
| TextPreprocessing.QuotesNotInWrittenSet | utils/text_preprocessing.py:368 | the curly double quotes are outside the set as written |
| TextPreprocessing.QuotesInIntendedSet | utils/text_preprocessing.py:368 | the curly double quotes are inside the intended set |
| AudioUtils.TokenRun | utils/audio_utils.py:199-202 | the `[\w-]` run at a position: every character in it is a token character and the next one is not; word characters are exact up to U+00FF, superscript digits and vulgar fractions included |
| AudioUtils.LabelToken | utils/audio_utils.py:199-207 | a label followed by whitespace captures a non-empty token of `[\w-]` characters |
| AudioUtils.HeadingFromMeaning | utils/audio_utils.py:205-231 | the pattern loop answers true exactly when some remaining pattern captures a digit string or a Roman numeral |
| AudioUtils.HeadingMeaning | utils/audio_utils.py:183-231 | `check_if_chapter_heading` holds exactly when one of the four patterns finds a label, whitespace, then ASCII digits or a Roman numeral (word2number absent) |
| AudioUtils.LatinNumeralsNoHeading | utils/audio_utils.py:209-229 | "Chapter 2½" and "Chapter 1²" are no headings: the token takes the fraction or the superscript, and is then neither digits `int` accepts nor a Roman numeral |
| AudioUtils.ChapterTokenNoHeading | utils/audio_utils.py:198-231 | "Chapter", one space and a whole `[\w-]` token that is not a number is no heading under any of the four patterns |
| AudioUtils.PatternTokenLabel | utils/audio_utils.py:198-207 | a pattern that captures a token has one of its labels followed by whitespace at the start |
| AudioUtils.HeadingNeedsLabel | utils/audio_utils.py:198-231 | text that does not start with a label and whitespace is never a heading |
| AudioUtils.DigitsMakeHeading | utils/audio_utils.py:209-215 | a label, whitespace and a digit run make a heading whatever follows |
| AudioUtils.DetectChaptersInText | utils/audio_utils.py:234-276 | the loop over the text's lines returns the chapters of the reference scan, the last one kept when it has lines |
| AudioUtils.ScanHoldsLines | utils/audio_utils.py:255-270 | the closed chapters and the open one hold every input line once, in order, headings stripped |
| AudioUtils.ScanStarts | utils/audio_utils.py:264-268 | every chapter's start line is where its lines begin in the input |
| AudioUtils.ScanFilling | utils/audio_utils.py:249-253 | the open chapter is empty only before the first line, when it is the introduction at line 0 |
| AudioUtils.ScanOpens | utils/audio_utils.py:255-270 | every chapter opens with its stripped heading as title and first line, or is the leading introduction, and holds no later heading |
| AudioUtils.ChaptersShape | utils/audio_utils.py:234-276 | at least one chapter for any text; the chapters hold every line once and in order; each starts where its lines begin, opens on its heading (or the introduction) and has no inner heading |
| AudioUtils.ChaptersOrdered | utils/audio_utils.py:234-276 | the chapters hold as many lines as the input and their start lines strictly increase |
| AudioUtils.DetectedChaptersShape | utils/audio_utils.py:234-276 | for a text: at least one chapter, one chapter line per text line, strictly increasing start lines |
| AudioUtils.StartLinesIncrease | utils/audio_utils.py:260-274 | chapters laid out one after another, none empty, start at strictly increasing lines |
| AudioUtils.ReplaceAllRemoves | utils/audio_utils.py:290-292 | a character one replacement removes and none introduces is absent after the chain |
| AudioUtils.KeepSafe | utils/audio_utils.py:295-296 | the character filter keeps the length |
| AudioUtils.ReplacedHasNoDotOrSlash | utils/audio_utils.py:290-292 | after the replacements no `.` or `/` is left |
| AudioUtils.WordsSafe | utils/audio_utils.py:299 | splitting safe text on whitespace gives words of safe characters |
| AudioUtils.KeepSafeShape | utils/audio_utils.py:295-296 | without `.` and `/`, the filter leaves only letters, digits, `-`, `_` and whitespace |
| AudioUtils.SanitizedShape | utils/audio_utils.py:279-301 | a sanitised name is empty or non-empty words of `[a-zA-Z0-9_-]` separated by single spaces |
| AudioUtils.ReplaceAllSkip | utils/audio_utils.py:290-292 | replacements of characters the text lacks change nothing |
| AudioUtils.AmpersandsSpelledOut | utils/audio_utils.py:290-292 | a text free of the eleven removed characters only has `&` spelled out as `and` |
| AudioUtils.AmpersandSpelledOut | utils/audio_utils.py:279-301 | `sanitize_filename("&")` is `and` |
| AudioUtils.SanitizedSingleWord | utils/audio_utils.py:295-299 | text the replacements turn into one safe word sanitises to that word |
| AudioUtils.SingleWordStable | utils/audio_utils.py:295-299 | a safe word passes the filter and the whitespace normalisation unchanged |
| AudioUtils.AddChapterMarkers | utils/audio_utils.py:304-327 | the loop joins the lines with a marker entry inserted before each heading line |
| AudioUtils.MarkersRemovable | utils/audio_utils.py:314-327 | dropping the marker entries gives back the input lines unchanged and in order |
| AudioUtils.MarkersPrecedeHeadings | utils/audio_utils.py:320-323 | every marker entry is followed by the heading line it names |
| AudioUtils.ChapterMarkersShape | utils/audio_utils.py:304-327 | for a text: its lines can be read back from the marked output, and each marker precedes the heading it announces |
| AudioUtils.CleanForSpeech | utils/audio_utils.py:158 | no double quote or backslash is left, and no character is added |
| AudioUtils.RequestFor | utils/audio_utils.py:149-158 | narration gets the narrator voice and everything else the dialogue voice; the text is the stripped part, cleaned |
| AudioUtils.SelectLineParts | utils/audio_utils.py:139-158 | an empty or punctuation-only line, under the punctuation set as written, gives `None`; otherwise one request per spoken part of the split line, in order |
| AudioUtils.SelectParts | utils/audio_utils.py:149-158 | the loop over the annotated parts yields exactly the requests for the spoken parts, in order |
| AudioUtils.SelectPart | utils/audio_utils.py:150-158 | a part gets a request exactly when its stripped text is neither empty nor punctuation only, and the request is its cleaned text in its type's voice |
| AudioUtils.UnquotedLineParts | utils/audio_utils.py:139-158 | a line without double quotes or backslashes, unpadded and not punctuation only, is sent whole in the narrator's voice |
| AudioUtils.QuotesLineSpoken | utils/audio_utils.py:139-158 | the line `“”` is sent to speech synthesis unchanged in the narrator's voice, though the intended punctuation set would skip it |
| AudioUtils.RequestTextSpeakable | utils/audio_utils.py:149-158 | the text sent for a spoken part has no `"` or `\` and still has a character that is neither whitespace nor punctuation |
| AudioUtils.RequestsFromParts | utils/audio_utils.py:148-158 | each request comes from one selected part with its voice, and there are no more requests than parts |
| AudioUtils.RequestsShape | utils/audio_utils.py:148-158 | every request speaks one spoken part in its type's voice, cleaned and with something left to say |
| AudioUtils.LineRequestsShape | utils/audio_utils.py:139-158 | for a line: every request speaks one of its spoken parts, in its type's voice, cleaned and with something left to say |
| VoiceMapping.ScoreIndex | utils/voice_mapping.py:61-73 | a score-map key, `"0"` to `"10"`, stands for a position of at most 10 |
| VoiceMapping.DefaultTableShape | utils/voice_mapping.py:48-120 | each engine of the default table has 11-entry score maps and names no empty voice |
| VoiceMapping.LookupEngine | utils/voice_mapping.py:142-146 | the engine is found, by lower-cased name, exactly when the table has it; otherwise `ValueError` |
| VoiceMapping.GetNarratorAndDialogueVoices | utils/voice_mapping.py:123-157 | `ValueError` for an unknown engine; `male` picks the male pair and every other gender the female pair |
| VoiceMapping.VoiceForScoreKey | utils/voice_mapping.py:186-205 | the voice for a key is in the selected score map, and it fails only for an unknown engine |
| VoiceMapping.GetNarratorVoiceForCharacter | utils/voice_mapping.py:208-238 | the narrator's voice is the score map's entry for 0 |
| VoiceMapping.ScoreOutsideRangeFallsBack | utils/voice_mapping.py:193-205 | a score from 0 to 10 selects its own entry; any other score falls back to the narrator's voice |
| VoiceMapping.ScoreIndexOfInt | utils/voice_mapping.py:199-201 | `str(score)` is a key exactly for the scores 0 to 10, and stands for that score |
| VoiceMapping.FindVoiceForCharacter | utils/voice_mapping.py:241-271 | the narrator (in either language) gets the score-0 voice; without a `scores` map, or when the name is not listed in it, a character gets the voice of score 5; a listed character whose entry is not a dict is an error; a listed dict entry gets the voice of its `gender_score` key (5 when the key is missing, the score-rounding voice when it is an int); any voice returned is in the selected score map |
| VoiceMapping.GetAvailableVoices | utils/voice_mapping.py:274-311 | no voice list for an unknown engine; otherwise the set of non-empty voices the entry names |
| VoiceMapping.CollectVoices | utils/voice_mapping.py:295-309 | the loop collects the pair voices and both score maps' values; minus the empty string that is the voice set |
| VoiceMapping.ValidateVoice | utils/voice_mapping.py:324-336 | a voice is valid exactly when the engine is known and offers it |
| VoiceMapping.SelectedVoicesAreAvailable | utils/voice_mapping.py:123-336 | every voice the selection functions return passes `validate_voice` for the same engine |
| LanguageSupport.ParseLanguage | utils/language_support.py:14-17 | `Language(code)` succeeds exactly for the two enum values, and gives the language with that code |
| LanguageSupport.ParseCode | utils/language_support.py:14-17 | parsing a language's own code gives it back |
| LanguageSupport.ParseSize | utils/language_support.py:20-24 | `AudiobookSize(name)` succeeds exactly for the three enum values |
| LanguageSupport.SizesGrow | utils/language_support.py:28-56 | each chapter range is non-empty and a larger size asks for more chapters, more words per chapter and more words in total |
| LanguageSupport.GetSizeConfig | utils/language_support.py:307-321 | a known size gets its table entry and an unknown one the medium entry |
| LanguageSupport.SystemPromptDefined | utils/language_support.py:238-253 | the prompt is non-empty exactly for planner, generator and evaluator; an unknown language reads the Spanish prompts |
| LanguageSupport.GetTtsConfig | utils/language_support.py:256-270 | the default voice is one of the options and the code names the resolved language (Spanish for an unknown code) |
| LanguageSupport.GetLanguageName | utils/language_support.py:273-287 | a supported code gets its display name; any other code is returned as is |
| LanguageSupport.ValidateLanguage | utils/language_support.py:290-304 | true exactly for `es` and `en`, the codes of the enum |
| LanguageSupport.GetSizeChoices | utils/language_support.py:324-339 | three choices, short, medium, long, each carrying its size's description in the language (Spanish for other codes) |
| LanguageSupport.PlanningPromptMentions | utils/language_support.py:342-412 | the planning prompt contains the topic, in either language and for any size |
| LanguageSupport.GetLanguageConfig | utils/language_support.py:540-557 | the code, its name and TTS settings, and exactly the three agent prompts, each non-empty |
| VoiceMapping.NarratorIsScoreZero | utils/voice_mapping.py:56-118 | in the default table each engine's narrator voice of either gender is that gender's score-map entry for 0 |
| VoiceMapping.NarratorVoicesAgree | utils/voice_mapping.py:123-238 | the narrator voice for characters (score 0) is the narrator of the narrator/dialogue pair, and both fail on the same engines |
| LanguageSupport.PlanningPromptRange | utils/language_support.py:354-362 | the planning prompt contains `{chapters_min}-{chapters_max}` of the size's configuration (medium for an unknown size), in either language |
| LanguageSupport.PlanningPromptTemplate | utils/language_support.py:356-407 | the prompt starts with the Spanish heading exactly when the code is `es`, and with the English one otherwise |
| LanguageSupport.EvaluationPromptLanguage | utils/language_support.py:456-535 | the evaluation instructions open with the Spanish heading exactly when the code is `es`, and with the English one otherwise |

## Left out

- The language model behind `LLMClient.generate` (utils/llm_client.py) is network I/O, so it is an oracle. The oracle's reply stands for the already-stripped content. A failing network call, which raises, is not modelled: every request gets a reply. The OpenAI and LangChain client setup and the per-agent environment configuration are left out for the same reason.
- `VoiceMapping.LookupEngine`: the error text for an unknown engine is the short `ValueError` message; the longer message of get_narrator_and_dialogue_voices, which also lists the available engines (utils/voice_mapping.py:145-146), is not reproduced. Error messages in general are modelled only as far as the model needs to tell errors apart.
- `json.loads` is an oracle from a string to an optional JSON object. A float is held as its exact value; NaN and the infinities are not represented, and `str()` of a float is left out (see the next item).
- A JSON shape from the model that Python would carry on with dynamically ends the model's run with an `Unsupported` error instead. The cases are:
  - a dict where a chapter list is expected, whose iteration order Python fixes;
  - `str()` of a float, list or dict interpolated into a prompt;
  - a chapter number or title of another type in the generator.
- The LangGraph `StateGraph` machinery is replaced by the explicit edge relation and the `Refine`/`Run` loops.
- ContentGenerationWorkflow.Workflow.Run: does not model LangGraph's default recursion limit of 25 steps, which applies because app.py:174 streams the graph without a configuration. A run whose evaluator keeps asking for improvements takes 1 + 3 * max_iterations + 2 node steps, so with `MAX_ITERATIONS` (app.py:31) of 8 or more the stream raises `GraphRecursionError` (caught and reported at app.py:216), while `Run` ends through merge, format and END. The limit belongs to the library, which is not part of this model.
- Logging is left out because it is console output. The log code that can raise is modelled as error paths: the planner's summary table (`PlannerAgent.SummaryErrorIff`), and the evaluator's score bar and slices of strengths, weaknesses and instructions (`EvaluatorAgent.ScoreBarError`, `EvaluatorAgent.LogError`).
- EvaluatorAgent.ScoreBarError: a bar length that fits an index but whose string does not fit in memory raises `MemoryError` in Python (a score of 10^18 asks for a bar of 2 * 10^17 characters). That depends on the memory available, so the model lets such a score through.
- AgentState.GenerationState.Initial: reading `MAX_ITERATIONS` and `QUALITY_THRESHOLD` from the environment (app.py:31-32) is I/O; the constructor takes both values as parameters, and the `ValueError` of an unparsable value is not modelled.
- The state's `state.get(key, default)` reads become fields that are always present. An absent chapter list is the empty list, since every reader only tests its truthiness.
- In generator1's node, the write of `iteration_count` puts back the value it just read, so it is modelled as leaving the counter unchanged.
- `ContentGeneratorAgent.Generator.constructor`: the request builder is a constant the constructor sets to `ChapterRequest`. It is a constant so the loop's proof does not unfold it.
- Speech synthesis is left out because it is network I/O with random jittered delays: `generate_audio_with_retry`, `check_tts_service_health`, and the audio byte buffers of `generate_line_audio_with_voices`. Only the part selection is modelled. The `None` returned for an empty combined buffer depends on the synthesis results, so it is left out too.
- `estimate_audio_duration` and `get_audio_generation_progress` are left out: they are float arithmetic and formatting.
- File I/O is left out:
  - the directory creation and the write in `format_to_audiobook_text` (the text it writes is modelled, and the path is a parameter);
  - `load_voice_mappings` and `get_voice_map_path`, replaced by the default table;
  - `get_tts_model_from_env`.
- `word2number` is a foreign library and is treated as absent. A heading token that is not made of digits is accepted only through the Roman-numeral check.
- Unicode detail: Python's `strip`, `split` and `splitlines` use one fixed whitespace and line-boundary predicate, and `lower`/`upper` change the ASCII and Latin-1 letters only (A-Z, À-Þ and their lower-case forms).
- AudioUtils.HeadingMeaning: `\d` and `str.isdigit` are modelled as ASCII 0-9. In Latin-1 this gives Python's answer: `isdigit` also holds for ², ³ and ¹, but `int` then raises `ValueError` and the pattern is skipped. Above U+00FF it does not: a heading numbered with other decimal digits, such as "Chapter ٣" (U+0663), is a heading in Python but not in the model. The same holds for the `\d` of the time and ratio patterns (`TextPreprocessing.DigitRun`).
- TextPreprocessing.WordRun: `\w` is exact up to U+00FF and approximated above it (whitespace and the punctuation and symbol blocks U+2000-U+2BFF and U+3000-U+303F are the only non-word characters there), so other punctuation or symbols above U+00FF count as word characters, which shifts the `\b` of the time and ratio patterns.
- AudioUtils.TokenRun: the same approximation of `\w` above U+00FF; a token may run on through such a character where Python's `[\w-]+` stops.
- `_is_title_or_heading` is modelled with the lowered substring test of the code. Its `total_lines` argument is unused in the code and is dropped.
- integration/audiobook_adapter.py, app.py (except the initial state), scripts/, utils/rich_logger.py and the tests are not part of this model. They hold the audio pipeline's file, subprocess and speech calls, the user interface and console output. The adapter calls `preprocess_full_text` with one argument more than the function takes; that call is outside the model.
- The quality threshold is a `real`. It is only compared, never computed.

## Findings

| source | as written | input that shows it | evidently intended | confidence | as-written member | corrected member |
|---|---|---|---|---|---|---|
| utils/text_preprocessing.py:368 | `'—–""''…‚„‹›«»‰‱'` is read as two adjacent literals, `'—–""'` and `'…‚„‹›«»‰‱'`. The quotes in it are plain ASCII `"`, so none of the typographic quotes “ ” ‘ ’ is in `extended_punctuation`. | the line `“”`: `is_only_punctuation` returns False, so the line is sent to speech synthesis | the typographic double and single quotes count as punctuation, so a line holding only them is skipped | not executed | TextPreprocessing.TypographicQuotesOnly | TextPreprocessing.IsOnlyPunctuation |

`TextPreprocessing.IsOnlyPunctuationAsWritten` and `TextPreprocessing.QuotesNotInWrittenSet` model the set as written. `TextPreprocessing.IsOnlyPunctuation` and `TextPreprocessing.QuotesInIntendedSet` model the intended set, and `TextPreprocessing.OnlyPunctuationMeaning` states what either set means. The part selection in `AudioUtils` (`AudioUtils.SelectLineParts`) follows the code and uses the set as written. `AudioUtils.QuotesLineSpoken` shows the effect: the line `“”` is sent to speech synthesis, while the intended set classes it as punctuation only.
