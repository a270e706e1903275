# h2s teaching tools: the deterministic rules, modelled in Dafny

The h2s repository is a set of teaching tools built around a language model:

- a test-paper question generator;
- a PDF knowledge base with retrieval-augmented answers;
- a timetable and lesson-plan scheduler;
- a document generator driven by templates.

Around the model calls sit small rules that decide what the tools actually do. This project models those rules and proves their properties:

- **Quiz.** The marking rule, how the requested question count is split across types, and the fixed fallback questions. Also the individual-generation loop that de-duplicates questions, the top-level `generate` loop, and how retrieved documents are formatted into the prompt context.
- **Rag.** The `RAGSystem` state: the in-memory index, its on-disk snapshot, the retriever and the QA chain. It covers start-up loading, ingest (create or append, then save) and `query`.
- **Scheduler.** Recovery of a JSON object from the model's text, the choice between the timetable and lesson-plan templates, and the success/error envelope. The repository has two copies of this class, in `scheduling/backend/scheduler.py` and `teacher_scheduler/backend/scheduler.py`. They are identical in these methods, but the second copy's line numbers are one lower, so one module models both.
- **DocumentRoutes.** Listing templates, validating a generation request against its template, and validating an uploaded template. Upload has a status-code quirk.
- **Session.** The defaults merged into a Streamlit session, and reading a value with a fallback.
- **Syllabus.** The case-insensitive syllabus lookup.
- **Json.** Shared vocabulary: parsed JSON values, dicts as ordered key/value lists, and Python's truthiness and substring `in`.

The language model, the JSON parser and serialiser, the PDF loader, the text splitter, the embedder, FAISS, the random draws and the file system are all foreign code. They appear as function-typed parameters or as values given to the model; a raised exception is an explicit outcome, except where a line under "## Left out" says a step is assumed not to raise. Stateful code is modelled as classes whose methods update fields. These are `RAGSystem` and the session map. The source's loops stay loops, proved against recursive specification functions. The exceptions are the two short key searches in the document routes, the `for` loops of `generate_document` and `upload_template`. They are modelled as the recursive functions DocumentRoutes.FirstMissingField and DocumentRoutes.CheckKeys. The pure code is modelled as functions.

Python semantics are modelled explicitly:

- `round` rounds half to even, done on integer half-units;
- `//` on a positive divisor;
- truthiness;
- `find` and `rfind` return -1 when the character is absent;
- a slice is empty when its end is not past its start;
- dicts keep insertion order;
- Starlette's `str(HTTPException)` is `"400: <detail>"`.

## Model

| member | source | states |
|---|---|---|
| Quiz.DifficultyHalves | quiz_generator/api/question_generator.py:212-213 | the difficulty increment is at most one mark, in half-units, and is zero exactly for anything other than medium or hard; medium adds one half-unit (0.5) and hard two (1) |
| Quiz.BloomHalves | quiz_generator/api/question_generator.py:214-215 | the Bloom increment is at most one mark, in half-units, and is zero exactly for levels outside application, analysis, evaluation and creation; application and analysis add one half-unit (0.5), evaluation and creation two (1) |
| Quiz.RoundHalfEven | quiz_generator/api/question_generator.py:216 | Python's round of a half-unit total: exact on whole numbers, otherwise the even one of the two neighbours |
| Quiz.CalculateMarks | quiz_generator/api/question_generator.py:210-216 | the marks are always 1, 2 or 3 |
| Quiz.MarksMatchTable | quiz_generator/api/question_generator.py:210-216 | the marking rule agrees with an independent 3x3 table over the two increments |
| Quiz.EasyPlainBloomGivesOne | quiz_generator/api/question_generator.py:211-216 | easy with a Bloom level outside the four named ones gives 1 mark |
| Quiz.HardTopBloomGivesThree | quiz_generator/api/question_generator.py:211-216 | hard with evaluation or creation gives 3 marks |
| Quiz.HalfwayTotalsRoundToEven | quiz_generator/api/question_generator.py:210-216 | the ties 2.5 (hard+application, medium+creation) and 1.5 (medium+remember) give 2 |
| Quiz.MarksMonotoneInDifficulty | quiz_generator/api/question_generator.py:211-216 | for any Bloom level, the marks never decrease from easy to medium to hard |
| Quiz.MarksMonotoneInBloom | quiz_generator/api/question_generator.py:211-216 | for any difficulty, the marks never decrease from other levels to application/analysis to evaluation/creation |
| Quiz.PerTypeQuota | quiz_generator/api/question_generator.py:91-94 | the per-type count is at least 1; it is the floor quotient of the total by the number of types, or 1 when the total is smaller than that number |
| Quiz.FallbackQuestion | quiz_generator/api/question_generator.py:135-156 | the MCQ fallback has the four placeholder options, answer "Option 1" and 1 mark; the other fallback has no options, a sample answer, and 1 mark exactly when easy, else 2 |
| Quiz.FallbackMarksAgainstMarkingRule | quiz_generator/api/question_generator.py:149-156 | the open fallback scores what the marking rule gives a "remember" question exactly when the difficulty is easy, medium or hard |
| Quiz.IndividualRun | quiz_generator/api/question_generator.py:162-199 | the specification of the individual loop: from the collected questions and seen texts, each call appends a fallback when it raises, the reply's question when it is new and non-empty, and nothing otherwise, until the quota is reached or the replies run out |
| Quiz.Accepts | quiz_generator/api/question_generator.py:182-183 | a reply is taken exactly when it is a dict whose question is present, non-empty and not among the texts already seen |
| Quiz.AcceptedQuestion | quiz_generator/api/question_generator.py:182-192 | an accepted reply becomes a question with the reply's text, the requested type, the reply's options (or []), no answer key, the drawn difficulty and Bloom level, and the marks the marking rule gives those draws |
| Quiz.IndividualRunLength | quiz_generator/api/question_generator.py:164-199 | the loop only extends its list, by at most one per call, so when it stops it holds exactly the quota |
| Quiz.IndividualRunDistinct | quiz_generator/api/question_generator.py:162-192 | the texts taken from the model are pairwise distinct |
| Quiz.IndividualQuestions | quiz_generator/api/question_generator.py:158-201 | the while loop computes the specification run: exactly `num` questions when it finishes within the given calls, all of the requested type, with the texts taken from the model pairwise distinct |
| Quiz.AllRaisedGivesFallbacks | quiz_generator/api/question_generator.py:168-199 | when every call raises, the quota is filled with fallback questions built from the draws, in order |
| Quiz.BatchQuestion | quiz_generator/api/question_generator.py:112-124 | a batch entry keeps the requested type, its text (or "Question about {topic}") and its options (or []); it records its own difficulty and Bloom level or else the draws; its marks are the marking rule over its own levels, falling back to "easy" and "remember", so 1 to 3 |
| Quiz.BatchDefaultsScoreOne | quiz_generator/api/question_generator.py:117-123 | an entry without difficulty and Bloom level scores 1 mark whatever the random draws recorded for it |
| Quiz.BatchPrefix | quiz_generator/api/question_generator.py:109-126 | at most one question per entry: one for every entry when the batch succeeds, fewer when it fails |
| Quiz.BatchPrefixSucceeds | quiz_generator/api/question_generator.py:109-126 | the batch succeeds exactly when every entry is a dict |
| Quiz.BatchPrefixConverts | quiz_generator/api/question_generator.py:112-124 | the questions are the conversions of the leading entries, in order, and a failed batch stopped at an entry that is not a dict |
| Quiz.ConvertBatch | quiz_generator/api/question_generator.py:112-124 | the loop over the batch entries produces the specification prefix and success flag |
| Quiz.TypeQuestions | quiz_generator/api/question_generator.py:96-132 | the specification of one type's questions: the converted batch entries, followed by the individual run when the batch raised at any point |
| Quiz.Generated | quiz_generator/api/question_generator.py:90-133 | the specification of `generate`'s result after the first n types: the earlier types' questions followed by type n's |
| Quiz.TypeBatch | quiz_generator/api/question_generator.py:96-132 | one type's questions: the converted batch entries, followed by the individual loop's questions when the batch failed |
| Quiz.Generate | quiz_generator/api/question_generator.py:90-133 | the loop over types yields, type by type, the batch questions, followed by the individual questions when the batch failed |
| Quiz.IndividualRunShape | quiz_generator/api/question_generator.py:185-197 | every question from the individual loop has the requested type and 1 to 3 marks |
| Quiz.TypeQuestionsShape | quiz_generator/api/question_generator.py:96-132 | every question produced for one type has that type and 1 to 3 marks |
| Quiz.GeneratedShape | quiz_generator/api/question_generator.py:90-133 | every generated question has one of the requested types and 1 to 3 marks |
| Quiz.TypeQuestionsAllFallback | quiz_generator/api/question_generator.py:126-132 | a type whose batch failed and whose individual calls all raised gets exactly its quota, all with an answer key |
| Quiz.GeneratedAllFallback | quiz_generator/api/question_generator.py:91-132 | when every batch call fails and every individual call raises, each type contributes exactly its quota, all fallback questions |
| Quiz.DictGet | quiz_generator/api/question_generator.py:26-27 | `dict.get`: the stored value for a present key, else the default |
| Quiz.FormatDoc | quiz_generator/api/question_generator.py:26-27 | a document is formatted exactly when it has a source, as "Source: {source}, Page: {page}" then "Content: {text}" on the next line, with "N/A" for a missing page and "" for a missing text |
| Quiz.JoinBlocks | quiz_generator/api/question_generator.py:25 | `"\n\n".join`: empty for no blocks, the block itself for one, and otherwise starting with the first block |
| Quiz.JoinBlocksSnoc | quiz_generator/api/question_generator.py:25 | appending a block to a non-empty list appends a blank line and the block to the join, so the blocks appear in order separated by "\n\n" |
| Quiz.FormatAll | quiz_generator/api/question_generator.py:25-28 | one block per retrieved document, in order |
| Quiz.GetContext | quiz_generator/api/question_generator.py:14-33 | a context exists exactly when the call succeeds with status 200 and a non-empty document list whose every document has a source; the context is then the formatted blocks of the documents, in retrieval order, joined by blank lines |
| Quiz.JoinBlocksHasPart | quiz_generator/api/question_generator.py:25-29 | every block occurs in the blank-line-joined context |
| Quiz.ContextHoldsEveryDocument | quiz_generator/api/question_generator.py:23-30 | the context contains the formatted block of every retrieved document |
| Quiz.ChooseContext | quiz_generator/api/question_generator.py:85-87 | a non-empty caller context wins; otherwise the fetched context, or "" |
| Rag.Metadata | rag_backend/app/rag.py:102 | the metadata of each chunk, one per chunk, in order |
| Rag.ChainAnswer | rag_backend/app/rag.py:99-103 | the specification of the QA chain call: retrieve 3 chunks for the question, answer from them, and return the answer with the chunks' metadata, or the error sentinel when a step raises |
| Rag.RagSystem.constructor | rag_backend/app/rag.py:12-24 | after start-up, an index and a QA chain exist exactly when a snapshot exists and loads; the index is then the snapshot |
| Rag.RagSystem.LoadVectorStore | rag_backend/app/rag.py:26-38 | a readable snapshot becomes the index with the chain set up; a failed load leaves no index and no chain |
| Rag.RagSystem.SetupRetriever | rag_backend/app/rag.py:40-62 | nothing happens without an index; otherwise the retriever uses k = 3 and the QA chain is set |
| Rag.RagSystem.IngestPdf | rag_backend/app/rag.py:64-91 | a load or split failure leaves everything unchanged; ingest creates the index from the chunks or appends them in order; a successful save stores the in-memory index, sets the chain and reports the page and chunk counts |
| Rag.RagSystem.Query | rag_backend/app/rag.py:93-106 | with no QA chain the answer is "No knowledge base available" with no sources; otherwise it is the chain's answer with retrieval k = 3, whatever `top_k` is |
| Rag.ChainAnswerCases | rag_backend/app/rag.py:98-106 | any failure in the chain gives "Error processing your query" with no sources; otherwise the sources are the retrieved chunks' metadata, in retrieval order |
| Rag.StartupQuery | rag_backend/app/rag.py:18-24 | a system started over a loadable snapshot answers from it; it answers with the sentinel when there is no snapshot or it fails to load |
| Rag.IngestTwice | rag_backend/app/rag.py:79-88 | two successful ingests index the first chunks followed by the second, and the snapshot equals that index |
| Rag.SaveFailureOnFirstIngest | rag_backend/app/rag.py:79-86 | when the first save fails the chunks stay in memory but no chain exists, so queries get the sentinel; a later ingest appends to them |
| Scheduler.Find | scheduling/backend/scheduler.py:75 | -1 exactly when '{' is absent, else its first index |
| Scheduler.RFind | scheduling/backend/scheduler.py:76 | -1 exactly when '}' is absent, else its last index |
| Scheduler.Slice | scheduling/backend/scheduler.py:79 | the slice has j - i characters, those of the string from index i on, and none when its end is not past its start |
| Scheduler.ParseFailure | scheduling/backend/scheduler.py:82 | the failure dict has exactly the keys error and raw_response, with error "Failed to parse response" and the response verbatim as raw_response |
| Scheduler.BraceSlice | scheduling/backend/scheduler.py:75-79 | no slice exactly when a brace is missing; otherwise exactly the text from the first '{' to the last '}' inclusive, which is empty exactly when the last '}' comes before the first '{' |
| Scheduler.BraceSliceOccursOnce | scheduling/backend/scheduler.py:75-79 | a slice from the first '{' to the last '}' occurs in the response only at its own start |
| Scheduler.CleanJsonResponse | scheduling/backend/scheduler.py:68-82 | the direct parse wins; else the parse of the brace slice; else the failure dict with the response unchanged |
| Scheduler.ClosingBeforeOpeningGivesEmptySlice | teacher_scheduler/backend/scheduler.py:74-81 | when the last '}' precedes the first '{', the slice is empty and the failure dict results |
| Scheduler.CleanJsonResponseOrigin | teacher_scheduler/backend/scheduler.py:67-81 | the result is always the parse of the response, the parse of a piece of it, or the failure dict carrying it verbatim |
| Scheduler.PlanType | scheduling/backend/scheduler.py:93 | the plan type is the prefix of the type before its first underscore, or the whole type |
| Scheduler.PreferencesText | scheduling/backend/scheduler.py:103 | truthy preferences are sent as their JSON text, others as "None" |
| Scheduler.EnvelopeJson | scheduling/backend/scheduler.py:108-114 | success is {status: "success", schedule}; a non-dict reply is {status: "error", message, raw_response}; an exception is {status: "error", message}, with the keys in that order and the envelope's values |
| Scheduler.Wrap | scheduling/backend/scheduler.py:100-114 | success exactly for a dict reply; a non-dict gives the non-dict message with raw_response; an exception gives the prefix followed by its text |
| Scheduler.GenerateSchedule | scheduling/backend/scheduler.py:84-114 | a missing schedule_type or input_content raises a KeyError; otherwise an envelope is returned |
| Scheduler.TimetableDispatch | scheduling/backend/scheduler.py:89-105 | a timetable type sends the input unchanged to the weekly_timetable template with an empty plan type |
| Scheduler.LessonPlanDispatch | scheduling/backend/scheduler.py:92-105 | any other type uses lesson_plan with "Plan Type: {plan_type}\nRequirements: {input}", passing the plan type only when the type contains "lesson_plan" |
| Scheduler.TimetableLessonPlanFails | teacher_scheduler/backend/scheduler.py:88-113 | a type containing both "timetable" and "lesson_plan" reads an unassigned plan_type: the model is not called and the envelope reports the error |
| Scheduler.TimetableLessonPlanNamesBoth | teacher_scheduler/backend/scheduler.py:88 | "timetable_lesson_plan" is such a type |
| Scheduler.PlanTypeOfPrefixed | teacher_scheduler/backend/scheduler.py:92 | the plan type of "{p}_{rest}" is p for any p without an underscore (so "daily_lesson_plan" gives "daily"), and a type without an underscore is its own plan type |
| Scheduler.EmptyPreferencesAreNone | teacher_scheduler/backend/scheduler.py:86-102 | absent or empty preferences are sent as "None" |
| Scheduler.RefineSchedule | scheduling/backend/scheduler.py:116-142 | the same envelope around the refinement call, with the prefix "Refinement failed: " |
| DocumentRoutes.LoadTemplate | documents_generator/api/document_routes.py:52 | no template exactly when no stored id matches; otherwise a stored template under that id |
| DocumentRoutes.GetTemplates | documents_generator/api/document_routes.py:35-46 | one entry per stored template, in store order, with its id, name, description and required fields copied |
| DocumentRoutes.MakeRequest | documents_generator/api/document_routes.py:13-17 | language defaults to "English" and formality to "formal" |
| DocumentRoutes.FirstMissingField | documents_generator/api/document_routes.py:57-60 | the first required field, in declared order, whose name is not among the details; none exactly when all are present |
| DocumentRoutes.NotFoundDetail | documents_generator/api/document_routes.py:54 | the 404 detail "Template '{id}' not found" |
| DocumentRoutes.MissingFieldDetail | documents_generator/api/document_routes.py:62 | the 400 detail "Missing required field: {name} - {description}", the description defaulting to "" |
| DocumentRoutes.GenerateDocument | documents_generator/api/document_routes.py:49-85 | unknown template gives 404 "Template '{id}' not found"; the first missing field gives 400 with its name and description; a raising generation call gives FastAPI's 500; success exactly when all required names are present and generation returns, echoing type, language, formality, template name and details |
| DocumentRoutes.ExtraDetailsAccepted | documents_generator/api/document_routes.py:57-71 | extra detail keys never turn a request that passed validation into a 404 or a 400; only the generation call can still fail it, with a 500 |
| DocumentRoutes.KeyIn | documents_generator/api/document_routes.py:102 | on a dict, `in` is key membership |
| DocumentRoutes.CheckKeys | documents_generator/api/document_routes.py:101-103 | all keys pass exactly when each is present; otherwise the reported key is the first absent one; a dict never raises |
| DocumentRoutes.BadRequestText | documents_generator/api/document_routes.py:113 | Starlette's `str()` of a 400 HTTPException, "400: {detail}" |
| DocumentRoutes.UploadParsed | documents_generator/api/document_routes.py:99-109 | a file is written only for a dict with all five keys, and exactly when the response is a success; every failure is 500 |
| DocumentRoutes.UploadTemplate | documents_generator/api/document_routes.py:87-113 | malformed JSON gives 400 "Invalid JSON format"; nothing is saved unless the content is a dict with all five keys; every other failure is 500 |
| DocumentRoutes.FirstAbsentKeyReported | documents_generator/api/document_routes.py:100-103 | on a dict the key check reports the first absent key in the order id, name, description, prompt_template, required_fields |
| DocumentRoutes.MissingKeySurfacesAs500 | documents_generator/api/document_routes.py:101-113 | the missing-key 400 is caught by the generic handler: status 500 with detail "400: Template missing required key: {key}", and nothing saved |
| DocumentRoutes.CompleteTemplateIsSaved | documents_generator/api/document_routes.py:105-109 | a dict with all five keys is saved as "{id}.json" and answered with "Template '{name}' uploaded successfully" |
| Session.Merged | teacher_scheduler/session_manager.py:19-21 | the specification of `init_session_state`'s loop: each default, in order, is written when its key is missing; the keys already present remain |
| Session.MergedKeys | teacher_scheduler/session_manager.py:19-21 | after initialisation the keys are those already present plus every default key |
| Session.MergedKeepsExisting | teacher_scheduler/session_manager.py:19-21 | keys already present keep their values |
| Session.MergedFillsDefault | teacher_scheduler/session_manager.py:5-21 | a missing default key gets its default value |
| Session.MergedOtherKeysUntouched | teacher_scheduler/session_manager.py:19-21 | keys outside the defaults are neither added nor changed |
| Session.MergedNoop | teacher_scheduler/session_manager.py:19-21 | when every default key is present initialisation changes nothing |
| Session.MergedIdempotent | teacher_scheduler/session_manager.py:19-21 | initialising twice is the same as initialising once |
| Session.DefaultsDistinct | teacher_scheduler/session_manager.py:5-17 | the seven default keys are pairwise distinct |
| Session.DefaultsFillAbsent | teacher_scheduler/session_manager.py:5-21 | a session holding none of the default keys receives every default value |
| Session.FreshSession | teacher_scheduler/session_manager.py:5-17 | a fresh session holds exactly the defaults: current_schedule is None and multi_input is {document: None, text: "", voice: ""} |
| Session.SessionState.InitSessionState | teacher_scheduler/session_manager.py:3-21 | the loop writes each missing default into the session, giving the specification merge |
| Session.SessionState.SafeGet | teacher_scheduler/session_manager.py:23-26 | initialises, then returns the stored value, or the caller's default for an absent key |
| Session.SafeGetCases | teacher_scheduler/session_manager.py:23-26 | on a default key the result is the stored value, never the caller's default; on an absent non-default key it is the caller's default |
| Syllabus.LowerChar | quiz_generator/api/syllabus_mapping.py:17 | `str.lower` on one character: A to Z move to a to z, everything else is kept |
| Syllabus.Lower | quiz_generator/api/syllabus_mapping.py:17 | `str.lower`: the same length, each character lowered |
| Syllabus.GetRelatedTopics | quiz_generator/api/syllabus_mapping.py:16-17 | the topics listed for the lower-cased subject and the exact grade, or the empty list |
| Syllabus.TopicsExactlyForListedPairs | quiz_generator/api/syllabus_mapping.py:2-17 | topics exist exactly for mathematics and science, grades 5 to 7, so an unknown subject or an unlisted grade gives the empty list |
| Syllabus.LowerIdempotent | quiz_generator/api/syllabus_mapping.py:17 | lowering twice is lowering once |
| Syllabus.SubjectMatchIgnoresCase | quiz_generator/api/syllabus_mapping.py:17 | subjects that differ only in letter case give the same topics |
| Syllabus.MathematicsGradeFive | quiz_generator/api/syllabus_mapping.py:4-17 | "mathematics" in any letter case with grade "5" gives Numbers, Operations, Fractions, Geometry, Measurement |
| Json.Truthy | scheduling/backend/scheduler.py:103 | Python truthiness of a parsed value: false for None, False, 0 and empty strings, lists and dicts |
| Json.IsDict | scheduling/backend/scheduler.py:108 | `isinstance(value, dict)`: the value is a JSON object |
| Json.Contains | scheduling/backend/scheduler.py:89 | `sub in s` on strings, by scanning for a prefix at each position |
| Json.ContainsAt | scheduling/backend/scheduler.py:89 | `sub in s` holds exactly when `sub` occurs at some index of `s` |
| Json.Get | documents_generator/api/document_routes.py:106 | `d[key]` for a present key: the value paired with the key's first occurrence, no earlier field having that key |

## Left out

- Language-model calls, prompt templates and `JsonOutputParser`: replaced by oracles, which are replies, outcomes or function parameters. The prompt texts are not modelled.
- `_select_from_distribution`: a random weighted choice over float weights. Its draws are given as inputs.
- Quiz.IndividualQuestions: the draws are assumed not to raise. `random.choices` raises on an empty distribution or a zero total weight, and the two draws come before the loop's `try`. Such an exception would escape `generate`, and the API would answer with a 500; this is not modelled.
- Quiz.BatchQuestion: the draws are assumed not to raise. Both draws are made eagerly for every entry inside the batch `try`. A raising draw would end the batch there and fall back to individual generation, as a non-dict entry does. The model does not give a dict entry that way out.
- Quiz.IndividualQuestions: the source loop has no bound and calls the model until it has `num` questions. The model runs over a finite list of replies and reports with `complete` whether the quota was reached before the replies ran out. Non-termination, when the model keeps repeating itself, is therefore not modelled.
- Quiz.BatchItem: an entry whose `.get` succeeds but whose values have unexpected types is not modelled. Only dict versus non-dict entries are.
- `RAGClient.get_context`: the HTTP request is a parameter. Document metadata values arrive rendered as text, and a body without `results.source_documents` is modelled like an empty list. In the source it raises a KeyError, which is caught and gives None; the outcome is the same.
- PDF loading, `RecursiveCharacterTextSplitter`, the embedder, FAISS search and persistence: each step's outcome is a parameter. The index is the sequence of its chunks.
- Rag.RagSystem.IngestPdf: an embedding failure during `add_documents` is assumed to leave the index as it was. A partial append is not modelled. A `save_local` that raises is likewise assumed to leave the old snapshot as it was. A partially written snapshot is not modelled.
- Rag.RagSystem.SetupRetriever: building the retriever and the chain is assumed not to raise.
- Rag.RagSystem.Query: printing the error is not modelled; only the returned value is.
- `generate_with_context` in `scheduling/backend/scheduler.py`: a direct pass-through to the chain, with no rule of its own.
- Scheduler.GenerateSchedule: the message of the UnboundLocalError is CPython 3.11's wording. Other versions word it differently.
- DocumentRoutes: templates are assumed well-formed, with a name, a description, a prompt template and a list of fields. A stored template that lacks these keys is not modelled. Neither is pydantic's validation of the response models.
- DocumentRoutes.UploadTemplate: several things are parameters rather than modelled behaviour:
  - the messages of exceptions raised by foreign code (directory creation, indexing a non-dict, writing the file);
  - Python's `str()` of the id and the name;
  - the JSON parser.

  A UnicodeDecodeError from undecodable bytes is not modelled, and the written file is modelled by its name and parsed content, not its text.
- Quiz.Accepts: a reply's question is an optional string. The source also accepts a truthy value of another type, and a value that cannot be hashed makes the `in seen` test raise a TypeError, which leads to the fallback; neither is modelled. Likewise a reply's options are an optional list of strings: `response.get("options", [])` returns None or a value that is not a list when the key holds one, and Quiz.Reply cannot express that.
- Json.Json: numbers are integers only, so a float in an uploaded template or a model reply is not modelled.
- Json.Get: returns the value of a key's first occurrence, while `json.loads` keeps the last one of duplicate keys. DocumentRoutes.UploadParsed reads the id and the name with Get from parser results that are not required to have distinct keys, so a parsed object with duplicate keys is not modelled faithfully.
- DocumentRoutes.KeyIn: the TypeError messages are CPython's wording; other versions may word them differently.
- DocumentRoutes.BadRequestText: "400: {detail}" is the `str()` of Starlette's HTTPException in the versions that define it that way; other versions may differ.
- DocumentRoutes.GenerateDocument: FastAPI's 500 for an uncaught exception is modelled by its status and its plain-text body only; the server log is not modelled.
- Syllabus.Lower: only ASCII letters are lowered. That is exact for the subjects in the table, but the model does not follow `str.lower` on other Unicode letters.
- Floating point: the 0.5 increments of the marking rule are integer half-units. This is exact.
- The Streamlit UIs, FastAPI wiring, PDF/Excel/audio extraction, configuration and the enum-only model files are outside this model.
- `teacher-document-tool/core/template_manager.py` is not part of this model. Its templates are an example of the store's contents.

## Findings

| source | as written | input that shows it | evidently intended | confidence | as-written member | corrected member |
|---|---|---|---|---|---|---|
| quiz_generator/api/question_generator.py:169 | `_generate_individual_questions` calls `self.chain.invoke`, but `QuestionGenerator.__init__` (lines 37-76) only sets `batch_chain`. Every individual attempt raises AttributeError and appends a fallback question. | any call after the batch fails, e.g. a batch reply that is not a dict | a per-question chain whose dict replies are accepted, de-duplicated and marked by the marking rule | high (not executed) | Quiz.AllRaisedGivesFallbacks | Quiz.IndividualQuestions |

The as-written behaviour is the all-`Raised` oracle. Quiz.AllRaisedGivesFallbacks and Quiz.GeneratedAllFallback show that it fills every quota with fallback questions. Quiz.IndividualQuestions models the intended loop over any oracle replies and proves that the texts it accepts are distinct (Quiz.IndividualRunDistinct).
