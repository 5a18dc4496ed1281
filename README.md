# Jarvis Study Buddy: a verified model of its core

Jarvis Study Buddy is a single-page study assistant. It has a chat with
"Jarvis" that answers with canned replies, a to-do list, a topic tracker, a
resume editor, a quiz screen and a project idea generator. Its state lives
in the `useJarvis` hook and is mirrored to browser storage. One server-side
function asks an AI gateway for project ideas and normalises its answer.

This project models that core in Dafny and proves what it promises. There
is one module per source file, plus three shared modules:

- `Seqs` (seqs.dfy): `Option`, `filter` with its multiset and subsequence
  laws, and delete-by-index.
- `JsText` (js_text.dfy): the JavaScript string operations the code uses.
  These are `trim` (with ECMAScript's white-space set), `toLowerCase`,
  `indexOf`/`includes`, `Number#toString` on naturals and `padStart`.
- `Json` (json.dfy): JavaScript values as `JSON.parse` yields them, plus
  `undefined` and `Date`. It also gives truthiness, `||`, property reads
  that throw on `null`/`undefined`, and object spread.
- `Storage` (storage.dfy): `loadFromStorage` and `saveToStorage`.
- `UseJarvis` (use_jarvis.dfy): the reply classifier, the reducers behind
  each handler, and the hook state as the class `Session`.
- `TodoList`, `StudyAssistant`, `ResumeBuilder` (todo_list.dfy,
  study_assistant.dfy, resume_builder.dfy): the panels' derived views and
  edits.
- `ResumeEntries` (resume_entries.dfy): the resume's list entries as heap
  objects, to show the in-place edit described under Findings.
- `ExamMode` (exam_mode.dfy): the quiz screen, as the class `ExamSession`
  with a session invariant.
- `ProjectIdeasFn` (project_ideas_fn.dfy): the idea-generation function.

Clock readings (`Date.now()`, `new Date()`) are natural-number parameters in
milliseconds. Network replies, the environment's API key, `JSON.parse` and
`JSON.stringify` are inputs.

Two behaviours of the code are worth stating outright:

- The assistant's reply is not streamed: `handleSendMessage` appends one
  finished reply.
- Ids are derived from the clock and their uniqueness is not enforced, so
  uniqueness is proved only under conditions. See `TodoIdsStayUnique`,
  `TurnIdsDistinct` and `NextTurnCanReuseReplyId`.

## Model

| member | source | states |
|---|---|---|
| UseJarvis.ClassifyByPriority | src/hooks/useJarvis.ts:14-42 | the reply chosen is that of the first keyword group the lower-cased message contains, tried in the order greeting, task, study, resume, project; the fallback when none matches |
| UseJarvis.ClassifyIgnoresCase | src/hooks/useJarvis.ts:14 | a message and its lower-cased form get the same reply kind |
| UseJarvis.Quote | src/hooks/useJarvis.ts:42 | the fallback quotes the message itself when it has at most 50 characters, otherwise its first 50 characters followed by "..." |
| UseJarvis.GenerateAIResponse | src/hooks/useJarvis.ts:10-43 | the fallback reply is the fixed prefix, the quote and the fixed suffix; a greeting gets the greeting text |
| UseJarvis.GeneratedIdea | src/hooks/useJarvis.ts:327-361 | the idea added by "Generate Ideas" is an advanced one whose id is the clock reading in decimal |
| UseJarvis.AddTodo | src/hooks/useJarvis.ts:256-269 | the new todo is unfinished, has the given text and priority (medium by default), the clock reading as id and creation time, and no deadline; it goes in front of the unchanged old list |
| UseJarvis.ToggleTodo | src/hooks/useJarvis.ts:271-279 | same length; a todo's completed flag flips exactly when its id matches, and nothing else changes |
| UseJarvis.ToggleTodoTwice | src/hooks/useJarvis.ts:271-279 | toggling the same id twice restores the list |
| UseJarvis.DeleteTodo | src/hooks/useJarvis.ts:281-287 | the result holds exactly the todos with another id, each as often as before, in their original order; an absent id changes nothing |
| UseJarvis.DeleteUndoesAdd | src/hooks/useJarvis.ts:256-287 | deleting a todo just added under a fresh id restores the list |
| UseJarvis.TodoScenario | src/hooks/useJarvis.ts:256-287 | adding "Buy milk" with high priority to an empty list, toggling it and deleting it leaves an empty list |
| UseJarvis.TodoIdsStayUnique | src/hooks/useJarvis.ts:256-279 | adding with a fresh clock id and toggling keep todo ids unique |
| UseJarvis.SelectTopic | src/hooks/useJarvis.ts:290-300 | a not-started topic moves every topic with its id to in progress at 10% and leaves the others; any other topic changes nothing |
| UseJarvis.SelectTopicLaws | src/hooks/useJarvis.ts:290-300 | selecting keeps every progress within 0 to 100, and selecting the same topic again changes nothing more |
| UseJarvis.TurnIdsDistinct | src/hooks/useJarvis.ts:210-232 | the user message and the reply of one turn get different ids when the clock does not go backwards |
| UseJarvis.NextTurnCanReuseReplyId | src/hooks/useJarvis.ts:210-232 | a user message sent one millisecond after a reply's clock reading takes that reply's id |
| UseJarvis.Session.constructor | src/hooks/useJarvis.ts:188-205 | the hook starts idle, not listening, not generating, with each slot's loaded value |
| UseJarvis.Session.BeginSend | src/hooks/useJarvis.ts:209-224 | the user message is appended, the state becomes thinking, and listening stops |
| UseJarvis.Session.DeliverReply | src/hooks/useJarvis.ts:231-245 | the reply is appended and the state becomes speaking |
| UseJarvis.Session.FinishSend | src/hooks/useJarvis.ts:248-250 | the state returns to idle |
| UseJarvis.Session.HandleSendMessage | src/hooks/useJarvis.ts:208-253 | exactly the user message and then the reply are appended, and the turn ends idle and not listening |
| UseJarvis.Session.HandleAddTodo | src/hooks/useJarvis.ts:256-269 | the todo list becomes `AddTodo` of the old one |
| UseJarvis.Session.HandleToggleTodo | src/hooks/useJarvis.ts:271-279 | the todo list becomes `ToggleTodo` of the old one |
| UseJarvis.Session.HandleDeleteTodo | src/hooks/useJarvis.ts:281-287 | the todo list becomes `DeleteTodo` of the old one |
| UseJarvis.Session.HandleSelectTopic | src/hooks/useJarvis.ts:290-304 | topics are updated by `SelectTopic`, then "I want to study <name>" is sent as a turn |
| UseJarvis.Session.HandleStartExam | src/hooks/useJarvis.ts:306-308 | sends the fixed exam request as a turn |
| UseJarvis.Session.HandleUpdateResume | src/hooks/useJarvis.ts:311-314 | the resume is replaced as a whole |
| UseJarvis.Session.HandleGenerateResumeContent | src/hooks/useJarvis.ts:316-318 | sends "Generate content for my resume <section> section" as a turn |
| UseJarvis.Session.BeginGenerateIdeas | src/hooks/useJarvis.ts:321-322 | the busy flag is raised |
| UseJarvis.Session.FinishGenerateIdeas | src/hooks/useJarvis.ts:327-371 | the new idea is prepended to the unchanged old ideas and the busy flag drops |
| UseJarvis.Session.HandleSetIsListening | src/hooks/useJarvis.ts:375-382 | listening always sets the listening state; stopping returns to idle only from listening and leaves any other state |
| Storage.MapOrThrow | src/hooks/useJarvis.ts:82-93 | a map over stored items succeeds exactly when every element's conversion does, and then keeps length and order |
| Storage.LoadCases | src/hooks/useJarvis.ts:75-101 | a missing or empty entry and a parse error give the default; other keys yield the parsed value verbatim |
| Storage.LoadMessagesRehydrates | src/hooks/useJarvis.ts:81-86 | a stored message array loads with the same length, each timestamp turned into a date and every other field kept; one null entry or unconvertible timestamp gives the default |
| Storage.LoadTodosRehydrates | src/hooks/useJarvis.ts:88-94 | a stored todo array loads with createdAt as a date and deadline as a date when truthy, else undefined; one null entry or unconvertible date gives the default |
| Storage.SaveToStorage | src/hooks/useJarvis.ts:104-110 | a successful write stores the stringified value under the key; a failed write leaves storage as it was |
| Storage.SaveThenLoad | src/hooks/useJarvis.ts:75-110 | for keys without date fields, saving and then loading gives the value back whenever parse undoes stringify |
| JsText.TrimSpec | src/components/jarvis/TodoList.tsx:37-38 | `trim` removes white space, and only white space, from both ends |
| JsText.TrimEmptyIffBlank | src/components/jarvis/TodoList.tsx:37 | trimming leaves nothing exactly when the text is all white space |
| JsText.IndexOf | src/hooks/useJarvis.ts:17 | the result is the first position at or after the start where the text occurs, or none when it occurs nowhere there |
| JsText.NatToString | src/hooks/useJarvis.ts:210 | decimal digits, at least one, with no leading zero |
| Json.Or | supabase/functions/generate-project-ideas/index.ts:126-130 | `a || b` is `a` when `a` is truthy and `b` otherwise |
| Json.Get | src/hooks/useJarvis.ts:83 | reading a property throws exactly on null and undefined; an object yields its field or undefined; other values yield undefined, which is what every read of a named field in the code gets |
| TodoList.TodoPartition | src/components/jarvis/TodoList.tsx:43-56 | the active and completed lists split the todos: exactly the unfinished and the finished ones, in order, with counts adding up to the total |
| TodoList.HandleSubmit | src/components/jarvis/TodoList.tsx:35-41 | blank input adds nothing and keeps the field; otherwise the trimmed, non-empty text is added with medium priority and the field clears |
| StudyAssistant.FilteredTopics | src/components/jarvis/StudyAssistant.tsx:46-48 | with no subject selected (null or empty) all topics; otherwise exactly that subject's topics, each as often as before, in order |
| StudyAssistant.CompletedCount | src/components/jarvis/StudyAssistant.tsx:50 | the number of positions holding a completed topic; zero exactly when none is completed; all exactly when every topic is completed |
| Seqs.FilterCountsPositions | src/components/jarvis/StudyAssistant.tsx:50 | the length of a filtered list is the number of positions whose element passes the test |
| StudyAssistant.OverallProgress | src/components/jarvis/StudyAssistant.tsx:51 | 0 for no topics, always between 0 and 100, and 100 exactly when every topic is completed |
| StudyAssistant.Percent | src/components/jarvis/StudyAssistant.tsx:51 | the percentage times the number of topics is a hundred times the completed count; it lies in [0, 100] and is 100 exactly when all are completed |
| ResumeBuilder.SetPersonal | src/components/jarvis/ResumeBuilder.tsx:96-135 | the edited personal field takes the value and the other fields and lists are unchanged |
| ResumeBuilder.SetPersonalLaws | src/components/jarvis/ResumeBuilder.tsx:96-135 | writing a field's own value changes nothing, and a second write overrides the first |
| ResumeBuilder.AddEducation | src/components/jarvis/ResumeBuilder.tsx:28-33 | one all-empty entry is appended, and nothing else changes |
| ResumeBuilder.AddExperience | src/components/jarvis/ResumeBuilder.tsx:35-40 | one all-empty entry is appended, and nothing else changes |
| ResumeBuilder.AddSkill | src/components/jarvis/ResumeBuilder.tsx:42-47 | one empty skill is appended, and nothing else changes |
| ResumeBuilder.DeleteEducation | src/components/jarvis/ResumeBuilder.tsx:157-158 | the entry at the index is removed and the rest keep their order; an index out of range changes nothing |
| ResumeBuilder.DeleteExperience | src/components/jarvis/ResumeBuilder.tsx:219-220 | the entry at the index is removed and the rest keep their order; an index out of range changes nothing |
| ResumeBuilder.DeleteSkill | src/components/jarvis/ResumeBuilder.tsx:301-302 | the skill at the index is removed and the rest keep their order; an index out of range changes nothing |
| ResumeBuilder.DeleteUndoesAdd | src/components/jarvis/ResumeBuilder.tsx:28-47 | deleting the entry just added restores the resume |
| ResumeBuilder.EditEducation | src/components/jarvis/ResumeBuilder.tsx:166-190 | only the chosen field of the chosen entry changes, to the new value |
| ResumeBuilder.EditExperience | src/components/jarvis/ResumeBuilder.tsx:230-263 | only the chosen field of the chosen entry changes, to the new value |
| ResumeBuilder.EditSkill | src/components/jarvis/ResumeBuilder.tsx:292-294 | only the chosen skill changes, to the new value |
| ResumeEntries.EditEducationInPlace | src/components/jarvis/ResumeBuilder.tsx:167-169 | as written: the "copied" list is the same list of entries, and the entry shared with the previous resume is modified |
| ResumeEntries.EditExperienceInPlace | src/components/jarvis/ResumeBuilder.tsx:230-232 | as written: the same for experience entries |
| ResumeEntries.PreviousResumeSeesEdit | src/components/jarvis/ResumeBuilder.tsx:167-169 | an edit made through the copy changes the previous resume's entry from "MIT" to "Stanford" |
| ResumeEntries.EditEducationCopied | src/components/jarvis/ResumeBuilder.tsx:167-169 | corrected: a fresh entry replaces the slot and no entry of the previous resume changes |
| ResumeEntries.EditExperienceCopied | src/components/jarvis/ResumeBuilder.tsx:230-232 | corrected: the same for experience entries |
| ResumeEntries.PreviousResumeKeptByCopy | src/components/jarvis/ResumeBuilder.tsx:167-169 | with the corrected edit the previous resume still reads "MIT" and the new one "Stanford" |
| ExamMode.QuestionCount | src/components/jarvis/ExamMode.tsx:39-43 | each difficulty asks for between 5 and 10 questions |
| ExamMode.QuestionCountIncreases | src/components/jarvis/ExamMode.tsx:39-43 | easy asks for fewer questions than medium, and medium fewer than hard |
| ExamMode.InProgressTopics | src/components/jarvis/ExamMode.tsx:58 | exactly the topics in progress or completed, each as often as in the list, in their original order |
| ExamMode.ToggleTopic | src/components/jarvis/ExamMode.tsx:60-66 | a selected id is removed with every copy and the others are kept in order; an unselected id is appended; the id is selected afterwards exactly when it was not before |
| ExamMode.ToggleTopicTwice | src/components/jarvis/ExamMode.tsx:60-66 | toggling an id twice restores which ids are selected |
| ExamMode.ToggleTopicKeepsNoDuplicates | src/components/jarvis/ExamMode.tsx:60-66 | a selection without repeats never gains one |
| ExamMode.FindTopic | src/components/jarvis/ExamMode.tsx:79 | the topic found is the first one with the id; none exactly when no topic has it |
| ExamMode.QuizRequestFor | src/components/jarvis/ExamMode.tsx:78-98 | the request asks for the difficulty's question count, at that difficulty, with subject "Engineering" |
| ExamMode.FormatTimeReadsBack | src/components/jarvis/ExamMode.tsx:165-170 | the text ends in a colon and two digits under 60, and minutes times 60 plus seconds read back gives the whole seconds elapsed |
| ExamMode.ExamSession.constructor | src/components/jarvis/ExamMode.tsx:45-56 | the screen starts in setup with medium difficulty and nothing selected, asked or answered |
| ExamMode.ExamSession.ToggleTopicSelection | src/components/jarvis/ExamMode.tsx:60-66 | the selection becomes `ToggleTopic` of the old one, keeping the session invariant |
| ExamMode.ExamSession.SetDifficulty | src/components/jarvis/ExamMode.tsx:232 | the difficulty takes the chosen level, keeping the session invariant |
| ExamMode.ExamSession.StartExam | src/components/jarvis/ExamMode.tsx:68-99 | with no topic selected nothing changes and no request is made; otherwise the stage becomes loading, the start time is recorded and the request for the selected topics is sent |
| ExamMode.ExamSession.ReceiveQuiz | src/components/jarvis/ExamMode.tsx:100-118 | a non-empty question list starts the quiz; a failure shows the service's error or "Failed to generate questions"; a missing or empty list shows "No questions received"; both failures return to setup |
| ExamMode.ExamSession.HandleAnswer | src/components/jarvis/ExamMode.tsx:121-138 | a second answer is ignored; a first answer is selected, recorded with its correctness, scored when correct, and shows the explanation; the score always counts the correct records |
| ExamMode.ExamSession.NextQuestion | src/components/jarvis/ExamMode.tsx:140-150 | before the last question it moves on and clears the answer; at the last it records the end time, shows results and reports the score and question count |
| ExamMode.ExamSession.RestartExam | src/components/jarvis/ExamMode.tsx:152-163 | everything returns to its initial value except the difficulty, which is kept |
| ProjectIdeasFn.FenceAtIsOccurrence | supabase/functions/generate-project-ideas/index.ts:114 | a fence position is exactly an occurrence of three backticks |
| ProjectIdeasFn.FindFence | supabase/functions/generate-project-ideas/index.ts:114 | the scan returns the first fence at or after the start, or none when no fence starts there |
| ProjectIdeasFn.FindFenceFinds | supabase/functions/generate-project-ideas/index.ts:114 | the scan returns a given fence when no fence starts before it |
| ProjectIdeasFn.MatchFence | supabase/functions/generate-project-ideas/index.ts:114 | the regular expression matches exactly when two fences occur at least three characters apart; the match opens at the first fence, its capture starts after the optional `json` tag and the white space that follows, and it closes at the first fence from there |
| ProjectIdeasFn.UnfencedReplyIsTrimmed | supabase/functions/generate-project-ideas/index.ts:114-115 | a reply without a pair of fences, such as one cut off after its opening fence, is parsed whole, trimmed |
| ProjectIdeasFn.FencedReplyYieldsBody | supabase/functions/generate-project-ideas/index.ts:114-115 | a fenced block, tagged `json` or not, yields its trimmed body whatever follows it, when no fence starts before it or inside the body (runs of one or two backticks are allowed) |
| ProjectIdeasFn.IdeaIdInjective | supabase/functions/generate-project-ideas/index.ts:125 | an idea id determines both the clock reading and the index it was built from |
| ProjectIdeasFn.FormatIdea | supabase/functions/generate-project-ideas/index.ts:124-131 | a null idea throws; otherwise the id is clock-index, the difficulty is the request's, title and description are truthy, tags is an array, and the snippet is truthy or null |
| ProjectIdeasFn.FormatIdeaKeepsGivenFields | supabase/functions/generate-project-ideas/index.ts:126-130 | truthy title, description and snippet and array tags pass through; the snippet falls back to code_snippet; anything else takes its default |
| ProjectIdeasFn.FormatIdeas | supabase/functions/generate-project-ideas/index.ts:124-131 | formatting succeeds exactly when no element is null or undefined, and then formats each element at its index |
| ProjectIdeasFn.FormattedIdeasWellFormed | supabase/functions/generate-project-ideas/index.ts:124-131 | one idea per element, in order, each with the request's difficulty, and no two with the same id |
| ProjectIdeasFn.ParseIdeas | supabase/functions/generate-project-ideas/index.ts:112-121 | content that is not a string, text that does not parse, and a parse giving null fail; a parsed array is the ideas as is; a parsed object gives its truthy `ideas` field, otherwise itself |
| ProjectIdeasFn.Handle | supabase/functions/generate-project-ideas/index.ts:14-146 | a preflight exactly for OPTIONS; failures are 429, 402 or 500, with 429 and 402 only as the gateway's own status; success only after an ok gateway reply to a request whose prompt values convert to text, with every idea at the request's difficulty |
| ProjectIdeasFn.UnconvertiblePromptFails | supabase/functions/generate-project-ideas/index.ts:55-61 | a count, skill or difficulty that cannot become text, such as an object with its own `toString` field, gives a 500 before the gateway is called |
| ProjectIdeasFn.GatewayErrorsMapped | supabase/functions/generate-project-ideas/index.ts:82-100 | a gateway 429 or 402 is passed on with its user message, and every other non-ok status becomes a 500 "Failed to generate project ideas" |
| ProjectIdeasFn.MissingKeyReportedFirst | supabase/functions/generate-project-ideas/index.ts:20-26 | a missing or empty API key gives a 500 "LOVABLE_API_KEY is not configured" whatever the gateway would say |
| ProjectIdeasFn.SuccessfulResponse | supabase/functions/generate-project-ideas/index.ts:102-138 | a success has one idea per element of the model's array, each with a truthy title and description, array tags and a distinct id |
| ProjectIdeasFn.FencedIdeasAccepted | supabase/functions/generate-project-ideas/index.ts:102-138 | a reply holding a `json`-fenced ideas object, with no other fence before it or inside it, succeeds with exactly those ideas, normalised |
| ProjectIdeasFn.IdeasFromContent | supabase/functions/generate-project-ideas/index.ts:111-131 | after non-empty content, every failure is a 500 and every idea carries the request's difficulty |
| ProjectIdeasFn.OkReplyYieldsIdeas | supabase/functions/generate-project-ideas/index.ts:102-138 | an ok reply whose content parses to an array of objects yields exactly those objects, formatted |

## Findings

| source | as written | input that shows it | evidently intended | confidence | as-written member | corrected member |
|---|---|---|---|---|---|---|
| src/components/jarvis/ResumeBuilder.tsx:167-169 (and 178-180, 188-190, 230-263) | `[...resume.education]` copies only references, so `newEdu[index].school = value` modifies the entry that the current resume state also holds | a resume with one education entry whose school is "MIT"; type "Stanford" into its school field | the surrounding `{ ...resume, education: newEdu }` builds a new resume, so the edit should replace the entry rather than modify the old state | medium, not executed | ResumeEntries.PreviousResumeSeesEdit | ResumeEntries.EditEducationCopied |

The rest of the model edits resumes as values (`ResumeBuilder.EditEducation`
and the others), which is the corrected behaviour.

## Left out

- Rendering, styling, toasts, focus handling and the voice input component are not modelled. They are presentation only.
- Speech synthesis (`speak`) and the simulated delays (`setTimeout`) are not modelled. Neither affects state except through the order of steps, which the `Session` step methods keep.
- The catch branch of `handleSendMessage` is not modelled. The placeholder reply and `speak` never reject, so the branch cannot be reached.
- Concurrent handler calls are not modelled. Two sends in flight at once could interleave their appends.
- Persistence after each handler is not tied into `Session`. Every handler saves the slot it just set. That write is modelled once, by `Storage.SaveToStorage`, not repeated in each handler.
- The typed state is not converted to and from JSON. `Storage` works on `Json` values; `JSON.parse` and `JSON.stringify` are abstract functions.
- `localStorage.getItem` throwing is not modelled. A missing entry gives the same default.
- Calls to the quiz generation function and the `generate-quiz` server function are not modelled. The reply is an input of `ExamSession.ReceiveQuiz`.
- The prompt texts, the gateway model name and the CORS headers are not modelled. They do not affect the response's status or content. Only whether the values the user prompt interpolates convert to text is modelled, by `ProjectIdeasFn.PromptConverts`.
- The idea count's default (`count = 3`) is not modelled. The count only appears in the prompt, and the default converts to text.
- `response.text()` throwing on a non-ok reply is not modelled.
- The wording of TypeErrors and SyntaxErrors raised by the runtime is not modelled. `ProjectIdeasFn.ErrorText.RuntimeError` stands for such a message.
- JSON numbers are integers; floating point is not modelled.
- StudyAssistant.OverallProgress: computed on exact rationals, not floating point. Its exact relation to the counts is stated on `Percent`, which it returns for a non-empty list.
- JsText.ToLower: maps only A to Z. JavaScript's full Unicode case mapping is not modelled.
- UseJarvis.Quote: counts characters, where JavaScript's `slice` counts UTF-16 code units. They differ only for characters outside the Basic Multilingual Plane.
- ExamMode.FormatTimeReadsBack: covers non-negative elapsed times only. The elapsed time is always an end time minus a start time.
- ExamMode.ExamSession.StartExam: requires the setup stage. The start button is only shown there.
- ExamMode.ExamSession.ToggleTopicSelection and ExamMode.ExamSession.SetDifficulty: require a valid session only. The source offers them in the setup stage.
- ExamMode.ToggleTopicTwice: states that the set of selected ids is restored, not the order. A removed id that is appended again goes to the end.
- ResumeEntries: models the in-place edit for education and experience entries only. Skills are strings, which cannot be shared this way.
- Json.Spread: a string's characters are copied as one-character strings by index. Other string properties are not modelled.
- ExamMode.QuizReply: a failed reply carries the text shown to the user. Where reading the failure body throws, that text is the runtime's error message, which is not modelled.
