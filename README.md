# Interview bot: a verified model of the server-side core

This Dafny project models the server-side logic of an AI interview bot. It has four parts.

- **The voice interview.** A process-wide map holds one record per session: the settings, the conversation so far, a phase (greeting, questions, ending), a question counter and a start time. `start` creates a record and greets the candidate. `voice` and `voice_stream` run one spoken turn:
  - audio gates: undecodable, or too few bytes;
  - a transcript gate: fewer than five non-space characters;
  - the phase step and the end test (question budget exceeded, or under 30 seconds left);
  - the history appends and the writes to the durable store.

  `caption` has its own byte gate, `evaluate` asks for a scorecard, and `end` forgets the session. The Python server (`VoiceServer`) and its TypeScript twin (`ExpressRoutes`) are modelled separately, as classes whose fields are the session map and the log of store writes. They share one transition function (`Conversation.Decide`).
- **Handling of language-model output.**
  - The interviewer prompt: a windowed, speaker-labelled transcript, six turns for the Ollama service and eight for the Gemini one.
  - Cleaning of replies (`**` removed, then stripped), the fixed fallback replies, the streamed fragments, and the evaluation with fence stripping and a default scorecard (`LlmText`, `OllamaAi`, `Gemini`).
  - The scoring route (`ScoreRoute`): gibberish detection, answer labelling, extraction of the braced object, the selection-chance cap.
  - The question route (`QuestionsRoute`).
  - The character scanner both routes use to blank control characters inside JSON string literals (`JsonClean`).
- **The resume name heuristic** (`Resume`).
- **The scripted question-and-answer backend** (`ScriptedInterview`, `CodeScoring`): a second session map with a current-question index, answers and a running score; the fixed three-question script; the code-scoring pipeline; and the single-output scorer.

Everything outside the program's own logic becomes a parameter: the wall clock (`nowMs`), speech recognition and synthesis, the language model (`llm`, `stream`, `model`, `ai`, `opener`), JSON parsing (`parse`), the random choice among fallbacks (`pick`), uuids (`freshId`, `token`), the code runner (`run`) and the syntax-tree analyser (`analyze`). The durable store is an append-only sequence of the writes the handlers issue. Where the code's own comments and its behaviour differ, the model follows the behaviour; those points are listed under "Left out" and "Findings". The one exception is the first finding: the TypeScript server stores the corrected record, as noted under "Left out".

## Model

| member | source | states |
|---|---|---|
| Conversation.Decide | api_py/main.py:250-261 | greeting moves to question 1, questions moves the counter up by one, ending keeps both; shouldEnd holds iff the counter exceeds the budget or time is low, and then the phase is ending |
| Conversation.DecideMovesForward | api_py/main.py:250-261 | on a coherent session the phase never goes back and never returns to greeting, the counter never decreases (it grows by exactly one unless ending), and the result is coherent |
| VoiceServer.TruncDiv | api_py/main.py:321 | division truncating toward zero, as `int()` of a float quotient: the remainder has the sign of the dividend and is smaller than the divisor |
| VoiceServer.ReportedSeconds | api_py/main.py:321 | `max(0, int(time_remaining))` is never negative, is 0 under one second, and otherwise is the whole seconds left |
| VoiceServer.ReportedSecondsIsClampedFloor | api_py/main.py:321 | truncating then clamping at zero equals flooring then clamping |
| VoiceServer.StartConfig | api_py/main.py:122-130 | the stored config takes each request field or the request model's default (general, intermediate, 5, 10, empty stack) |
| VoiceServer.DurationOf | api_py/main.py:106 | `duration or 30`: the sent duration when non-zero, else 30 |
| VoiceServer.NewSession | api_py/main.py:122-138 | a new record holds exactly one AI turn with the greeting, phase greeting, counter 0, the given config and start time, and is coherent |
| VoiceServer.Lookup | api_py/main.py:191-197 | a known id gives its record; an unknown id gives the default config, empty history, greeting, counter 0, started now |
| VoiceServer.TooShortCases | api_py/main.py:208 | the empty transcript is too short, and an accepted transcript has at least five characters |
| VoiceServer.ShortTurn | api_py/main.py:208-222 | a too-short answer appends exactly the user's turn and leaves phase, counter, config and start time unchanged |
| VoiceServer.Advance | api_py/main.py:238-291 | an accepted answer appends exactly the user turn then the AI turn, applies `Decide`, keeps config and start time, and keeps coherence with the phase and counter moving forward only |
| VoiceServer.ContextEndsWithAnswer | api_py/main.py:264-274 | the six-turn window handed to the interviewer ends with the answer being replied to |
| VoiceServer.DemoId | api_py/main.py:100 | a locally made id starts with `demo-` and has a timestamp after it |
| VoiceServer.TurnWrites | api_py/main.py:298-310 | an accepted turn writes the user row then the AI row (confidence 1.0) iff the store is configured and the id is non-empty and not a demo id; otherwise nothing |
| VoiceServer.DemoNeverPersisted | api_py/main.py:298 | a demo session's turns never reach the durable store |
| VoiceServer.UnreadableReply | api_py/main.py:162-175 | undecodable audio: empty transcript, shouldEnd false, no timeRemaining, the stored history, phase and counter (phase questions and budget 5 for an unknown id) |
| VoiceServer.Validated | api_py/main.py:56-66 | a reply passes the `VoiceResponse` check iff it carries `timeRemaining`, and is then sent unchanged; otherwise the answer is 500 |
| VoiceServer.QuietReply | api_py/main.py:176-188 | audio under 4000 bytes: empty transcript, shouldEnd false, timeRemaining equal to the full time limit in seconds (600 for an unknown id) |
| VoiceServer.TextEvents | api_py/main.py:390-392 | one text event per fragment, in order |
| VoiceServer.TextsOfTextEvents | api_py/main.py:389-392 | reading back the texts of the text events gives exactly the fragments |
| VoiceServer.Caption | api_py/main.py:429-438 | caption is "" for undecodable audio or fewer than 3000 bytes, else the recognized transcript |
| VoiceServer.NextPhase | api_py/main.py:250-261 | the step-by-step updates of phase, counter and shouldEnd agree with `Decide` |
| VoiceServer.ShortReply | api_py/main.py:225-235 | the repeat message, shouldEnd false, the history with the user turn, phase and counter as they were, clamped seconds left |
| VoiceServer.AcceptedReply | api_py/main.py:312-322 | the reply carries the advanced history, phase and counter; shouldEnd holds iff the counter exceeds the budget or time is low, and then the phase is ending |
| VoiceServer.Relay | api_py/main.py:389-392 | the streaming loop's accumulated text is the concatenation of the fragments, and its events are one text event per fragment |
| VoiceServer.ShortFinal | api_py/main.py:351-366 | a too-short streamed turn sends one final event: the repeat message, shouldEnd false, phase and counter unchanged |
| VoiceServer.AcceptedFinal | api_py/main.py:415-425 | the final event of an accepted streamed turn carries the decided phase and counter, and shouldEnd holds iff the budget is exceeded or time is low |
| VoiceServer.StreamSpellsReply | api_py/main.py:389-425 | the text events of an accepted streamed turn concatenate to the aiResponse of its final event |
| VoiceServer.StoreKeepsCoherent | api_py/main.py:286-291 | storing a coherent record, or deleting one, keeps every stored record coherent |
| VoiceServer.InterviewServer.constructor | api_py/main.py:31 | the server starts with no sessions and an empty store log |
| VoiceServer.InterviewServer.Start | api_py/main.py:92-154 | a demo id when there is no user, no store, or no id back; the session insert only when attempted; the greeting row only for a non-demo id; the new record holds the greeting as its only turn |
| VoiceServer.InterviewServer.Voice | api_py/main.py:156-322 | undecodable audio is answered with 500, because its reply lacks the required `timeRemaining`, and quiet audio is served `QuietReply`; both change nothing; a too-short transcript stores only the user turn and writes nothing; an accepted one stores `Advance` of the record and writes `TurnWrites` |
| VoiceServer.InterviewServer.AcceptAnswer | api_py/main.py:237-322 | the accepted branch stores the advanced record, logs the two turn rows for a persisted id, and replies with the decided phase and counter |
| VoiceServer.InterviewServer.VoiceStream | api_py/main.py:324-427 | a too-short transcript sends only the final event and leaves the record unchanged except for the non-empty user turn of a known session; an accepted one streams the fragments, then a final event with their concatenation, and stores and writes as `voice` does |
| VoiceServer.InterviewServer.StoreTurn | api_py/main.py:286-309 | the advanced record replaces the session's entry, every record stays one the handlers can produce, and the user and AI turn rows are logged exactly for a persisted id |
| VoiceServer.InterviewServer.StreamAnswer | api_py/main.py:368-425 | the accepted branch of the stream: text events for the filtered fragments, then the final event; the record advanced with the concatenated reply |
| VoiceServer.InterviewServer.Evaluate | api_py/main.py:440-450 | the `EvaluateResponse` check applied to the scorecard of the stored conversation with its field and difficulty, or of an empty conversation with the defaults; a served scorecard is parsed or well shaped, and 500 comes only from a parsed reply that lacks a required key |
| VoiceServer.ValidatedScorecard | api_py/main.py:71-76 | a scorecard passes the `EvaluateResponse` check iff it has all five keys, and is then sent unchanged; otherwise the answer is 500 |
| VoiceServer.InterviewServer.End | api_py/main.py:452-466 | removes exactly the given id, and logs a completion only for a persisted id |
| ExpressRoutes.OrInt | api/routes/interview.ts:52-53 | `x \|\| d` on numbers: 0 falls back to the default |
| ExpressRoutes.OrStr | api/routes/interview.ts:50-51 | `x \|\| d` on strings: "" falls back to the default |
| ExpressRoutes.ClampedSeconds | api/routes/interview.ts:167 | the reported seconds are non-negative, at least the remaining seconds, and equal to them when those are non-negative |
| ExpressRoutes.LowTimeOfTwins | api/routes/interview.ts:133-136 | the whole-second test holds exactly when at most 29 000 ms remain, and it implies the millisecond test of the Python server |
| ExpressRoutes.StartConfigOf | api/routes/interview.ts:49-56 | each falsy field is replaced by its default (general, intermediate, 5, 10), so none of them is falsy in the result |
| ExpressRoutes.SessionIdOf | api/routes/interview.ts:34-40 | the store's non-empty id, else a `demo-` id; never "" |
| ExpressRoutes.GreetingWrites | api/routes/interview.ts:64-71 | the greeting row is written iff the id is not a demo id |
| ExpressRoutes.VoiceAiRequest | api/routes/interview.ts:139-145 | the generator sees the whole history including the new answer, and the interview type defaults to technical |
| ExpressRoutes.JsTurnWrites | api/routes/interview.ts:153-156 | both turn rows are written iff the id is not a demo id |
| ExpressRoutes.JsShortReply | api/routes/interview.ts:112-129 | the repeat message, shouldEnd false, the history with the user turn, phase and counter unchanged, clamped seconds |
| ExpressRoutes.JsAcceptedReply | api/routes/interview.ts:158-168 | the advanced history, phase and counter; shouldEnd holds iff the budget is exceeded or fewer than 30 whole seconds remain |
| ExpressRoutes.StreamAdvance | api/routes/interview.ts:191-200 | a streamed turn appends the user turn only when the transcript is non-empty, always appends the reply, always applies `Decide`, and keeps coherence |
| ExpressRoutes.StreamAiRequest | api/routes/interview.ts:196-197 | the stream's generator sees the history with the transcript only when it is non-empty |
| ExpressRoutes.Stored | api/routes/interview.ts:200 | a full session as a stored record keeps every field |
| ExpressRoutes.StreamRecordAsWritten | api/routes/interview.ts:200 | the spread of a missing session stores a record with no config and no start time; a known session stores its advanced record |
| ExpressRoutes.StreamOnUnknownIdBreaksVoice | api/routes/interview.ts:184-200 | a stream turn on an unknown id leaves a record that `/voice` cannot serve, although it holds the reply |
| ExpressRoutes.StreamRecord | api/routes/interview.ts:184-200 | the record the stream computed with, advanced; always servable, with the default config for an unknown id, and equal to the as-written record for a known one |
| ExpressRoutes.JsCaption | api/routes/interview.ts:213-227 | 400 iff there is no audio, 500 when recognition throws, else the transcript |
| ExpressRoutes.ExpressServer.constructor | api/routes/interview.ts:7 | the server starts with no sessions and an empty store log |
| ExpressRoutes.ExpressServer.Start | api/routes/interview.ts:10-84 | 400 and no change without userId or interviewType; otherwise the insert is logged, a 500 on a synthesis failure, else the new session with the greeting as its only turn and the greeting row for a non-demo id |
| ExpressRoutes.ExpressServer.Voice | api/routes/interview.ts:87-173 | 400 without audio or id and 500 on a recognition failure, both with no change; a too-short transcript stores only the user turn; an accepted one stores `Advance` and writes both rows unless the id is a demo id or synthesis failed |
| ExpressRoutes.ExpressServer.RecordShortAnswer | api/routes/interview.ts:112-129 | the user turn reaches a known session even when synthesis then fails; on success the record with the user turn is stored and nothing is written |
| ExpressRoutes.ExpressServer.AcceptAnswer | api/routes/interview.ts:131-168 | the advanced record is stored before synthesis; the turn rows are written only when synthesis succeeds |
| ExpressRoutes.ExpressServer.VoiceStream | api/routes/interview.ts:176-210 | no transcript gate: every turn with audio and an id advances phase and counter and stores the record; nothing is written to the durable store |
| ExpressRoutes.ExpressServer.StreamTurn | api/routes/interview.ts:189-205 | the stream's record and final event once the transcript is known: the decided phase and counter, and shouldEnd iff the budget is exceeded or time is low |
| ExpressRoutes.ExpressServer.End | api/routes/interview.ts:229-246 | 400 and no change without an id; otherwise removes exactly that id, asks the store to complete it, and answers 500 iff the update failed |
| LlmText.ConversationTextAppend | api_py/services/ollama_ai.py:100-103 | the transcript of two stretches of history is the first's followed by the second's |
| LlmText.ConversationTextSnoc | api_py/services/ollama_ai.py:101-103 | appending a turn appends exactly its labelled line |
| LlmText.ConversationTextAround | api_py/services/ollama_ai.py:100-103 | every turn contributes its own line in place, between the lines of the turns before and after it |
| LlmText.BuildConversation | api_py/services/ollama_ai.py:240-243 | the `+=` loop builds the transcript of all turns, oldest first |
| LlmText.LastN | api_py/services/ollama_ai.py:101 | `history[-n:]` has min(n, length) turns and is a suffix of the history |
| LlmText.OlderTurnsIgnored | api_py/services/ollama_ai.py:101 | turns older than the window never reach the prompt |
| LlmText.LevelOf | api_py/services/ollama_ai.py:124-140 | beginner and advanced select their own instructions; any other difficulty selects the intermediate ones |
| LlmText.TurnPrompt | api_py/services/ollama_ai.py:110-150 | the goodbye prompt iff the phase is ending; otherwise the level of the difficulty and the whole minutes left |
| LlmText.CleanReply | api_py/services/ollama_ai.py:157 | a cleaned reply contains no `**` and is no longer than the raw text |
| LlmText.StripKeepsAbsence | api_py/services/ollama_ai.py:157 | stripping whitespace never creates an occurrence of a pattern |
| LlmText.Fallback | api_py/services/ollama_ai.py:163-168 | the random choice is one of the three fixed fallback replies |
| LlmText.TurnReply | api_py/services/ollama_ai.py:156-168 | a failed generation gives a fixed fallback; a successful one gives the cleaned text, free of `**` |
| LlmText.GreetingFallback | api_py/services/ollama_ai.py:85 | the fallback greeting names the field right after its opening words |
| LlmText.GreetingReply | api_py/services/ollama_ai.py:72-85 | without text the greeting names the field; with text it contains no `**` |
| LlmText.OpeningTopic | api_py/services/gemini.py:196-198 | the first technology when the stack is non-empty, else the interview type |
| LlmText.DefaultEvaluation | api_py/services/ollama_ai.py:283-304 | the default scorecard is well shaped (four categories, three strengths, three improvements) with overall 70 and categories 70, 75, 68, 65 |
| LlmText.StripFences | api_py/services/ollama_ai.py:269 | no code fence survives, and the text does not grow |
| LlmText.EvaluationOf | api_py/services/ollama_ai.py:268-280 | the default scorecard on a failed call or a parse failure; otherwise the parse of the fence-stripped text |
| LlmText.EvaluationNeverFails | api_py/services/ollama_ai.py:275-280 | whatever the backend and the parser do, the result is a parsed scorecard or the well-shaped default |
| OllamaAi.InterviewReply | api_py/services/ollama_ai.py:88-168 | a fixed fallback when generation fails, else the cleaned text free of `**`, over the six-turn prompt |
| OllamaAi.ReplySeesSixTurns | api_py/services/ollama_ai.py:101 | the reply depends on the last six turns only |
| OllamaAi.GenerateInterviewResponse | api_py/services/ollama_ai.py:88-168 | building the transcript with the loop gives the reply of `InterviewReply` |
| OllamaAi.NonEmptyPieces | api_py/services/ollama_ai.py:56-64 | the generator yields only non-empty pieces, no more than there are lines |
| OllamaAi.GeneratorChunks | api_py/services/ollama_ai.py:37-69 | the non-empty pieces, followed by a single "" when the request failed |
| OllamaAi.StreamGenerate | api_py/services/ollama_ai.py:37-69 | the generator loop yields exactly `GeneratorChunks` |
| OllamaAi.NonEmpty | api_py/services/ollama_ai.py:225-227 | the filter keeps exactly the non-empty chunks, and keeps everything when all are non-empty |
| OllamaAi.Fragments | api_py/services/ollama_ai.py:170-230 | the streamed fragments are all non-empty: the pieces, plus the fallback line when another exception escaped |
| OllamaAi.NonEmptyFixesPieces | api_py/services/ollama_ai.py:225-227 | the filter drops exactly the "" a failed request adds |
| OllamaAi.RequestErrorIsSilent | api_py/services/ollama_ai.py:67-69 | a failed request streams the same fragments as a completed one over the same lines |
| OllamaAi.StreamInterviewResponse | api_py/services/ollama_ai.py:170-230 | the streamed reply is `Fragments` of the body for the six-turn prompt |
| OllamaAi.KeepNonEmpty | api_py/services/ollama_ai.py:225-227 | the `if chunk: yield chunk` loop yields exactly the non-empty chunks in order |
| OllamaAi.InitialGreeting | api_py/services/ollama_ai.py:72-85 | without text the greeting names the field; with text it contains no `**` |
| OllamaAi.InitialQuestion | api_py/services/ollama_ai.py:308-310 | the greeting is about the first technology, else the interview type |
| OllamaAi.Evaluation | api_py/services/ollama_ai.py:233-280 | the default on a failed call, and always either well shaped or the parse of the fence-stripped reply |
| OllamaAi.GenerateEvaluation | api_py/services/ollama_ai.py:233-280 | the loop-built transcript gives the scorecard of `Evaluation` |
| Gemini.ChosenKey | api_py/services/gemini.py:13-15 | `GEMINI_API_KEY or GOOGLE_API_KEY`; empty iff both are empty |
| Gemini.InterviewReply | api_py/services/gemini.py:40-114 | a fixed fallback when generation fails, else the cleaned text free of `**`, over the eight-turn prompt |
| Gemini.ReplySeesEightTurns | api_py/services/gemini.py:53 | the reply depends on the last eight turns only |
| Gemini.GeminiService.constructor | api_py/services/gemini.py:8 | no client exists at first |
| Gemini.GeminiService.GetClient | api_py/services/gemini.py:10-17 | an existing client is kept; otherwise one is made from the chosen key, or the call fails without a key; success iff a client exists afterwards |
| Gemini.GeminiService.GenerateInterviewResponse | api_py/services/gemini.py:40-114 | a fixed fallback when no client can be made; otherwise `InterviewReply` |
| Gemini.GeminiService.GenerateInitialGreeting | api_py/services/gemini.py:20-37 | without a client the greeting names the field; otherwise the cleaned greeting or the fallback |
| Gemini.GeminiService.GenerateInitialQuestion | api_py/services/gemini.py:196-198 | greets about the first technology, else the interview type, at the intermediate level |
| Gemini.GeminiService.GenerateEvaluation | api_py/services/gemini.py:117-168 | the default scorecard without a client; otherwise the evaluation of the full transcript; always parsed or well shaped |
| JsonClean.Clean | routes/score.py:12-30 | each input character gives exactly one output character |
| JsonClean.StateAfterStep | routes/score.py:15-29 | reading one more character moves the two flags by one step |
| JsonClean.CleanJsonString | routes/score.py:7-30 | the scanning loop with its two flags computes `Clean` |
| JsonClean.EscapeOnlyInString | routes/score.py:19-21 | a pending escape only ever happens inside a literal |
| JsonClean.CleanChangesOnlyControls | routes/score.py:22-29 | a character changes iff it is a control character inside a literal and not after a backslash; it becomes a space; nothing outside literals changes |
| JsonClean.EscapedCharCopied | routes/score.py:16-21 | a character after a backslash in a literal is copied verbatim, and the scanner is afterwards still inside the literal with no pending escape |
| JsonClean.CleanKeepsStates | routes/questions.py:14-28 | the scanner passes through the same flags on the cleaned text as on the original |
| JsonClean.CleanIdempotent | routes/questions.py:6-29 | cleaning twice is cleaning once |
| JsonClean.PySlice | routes/score.py:147 | Python's `raw[start:end]`: empty when end is not after start, else the slice |
| JsonClean.Extract | routes/score.py:142-145 | none iff the opening or the closing bracket is missing; otherwise the text from the first opening bracket to the last closing one |
| JsonClean.TransportStatus | routes/score.py:158-163 | 503 iff the model is unreachable, 500 for any other failure of the call |
| ScoreRoute.LetterRun | routes/score.py:47 | the longest prefix of ASCII letters |
| ScoreRoute.Words | routes/score.py:47 | every word found is a non-empty run of ASCII letters |
| ScoreRoute.WordsIffLetter | routes/score.py:47-49 | a text has words iff it has an ASCII letter |
| ScoreRoute.LooksRealScan | routes/score.py:52-65 | the streak-counting loop decides exactly `looks_real`: short words pass, five non-vowels in a row fail, otherwise real iff there is a vowel |
| ScoreRoute.StreakCounts | routes/score.py:57-62 | after k non-vowels in a row the streak is at least k |
| ScoreRoute.FiveConsonantsNotReal | routes/score.py:57-62 | a word with five non-vowels in a row does not look real |
| ScoreRoute.RealCount | routes/score.py:67 | the number of real-looking words is at most the number of words |
| ScoreRoute.AllRealCounted | routes/score.py:67 | when every word looks real, all of them are counted |
| ScoreRoute.GibberishCases | routes/score.py:42-70 | blank, the two placeholders, under three characters, or no letters: gibberish; past those, gibberish iff real words are under 40% |
| ScoreRoute.RealWordsNotGibberish | routes/score.py:67-70 | a text past the early cases whose words all look real is not gibberish |
| ScoreRoute.Label | routes/score.py:78-83 | SKIPPED iff "(Skipped)" or empty; GIBBERISH iff neither of those and gibberish; no label otherwise |
| ScoreRoute.NoAnswerIsGibberish | routes/score.py:78-81 | "(No answer given)" is labelled gibberish, not skipped |
| ScoreRoute.PlaceholderIsGibberish | routes/score.py:42-43 | a text that strips to "(No answer given)" is gibberish whatever its words |
| ScoreRoute.AnnotateQa | routes/score.py:72-85 | the accumulating loop produces the numbered, labelled entries `Annotated` |
| ScoreRoute.AnnotatedExtends | routes/score.py:75-84 | the annotation of more pairs starts with the annotation of the first ones: entries are numbered by position |
| ScoreRoute.FirstEntryIsOne | routes/score.py:75 | the first entry is numbered 1 |
| ScoreRoute.NumberedExtends | routes/score.py:75-84 | for any entry text, numbering more pairs only appends to the text of the first ones |
| ScoreRoute.NumberedFirst | routes/score.py:75 | for any entry text, the numbered text starts with the first pair's entry, numbered 1 |
| ScoreRoute.ResumeSummary | routes/score.py:103 | "Not provided" for no resume, else its first 800 characters |
| ScoreRoute.CappedChance | routes/score.py:151 | `min(value-or-50, 95)`: never above 95, 50 when absent, the value when at most 95 |
| ScoreRoute.ScoreInterview | routes/score.py:88-163 | 503 iff unreachable; served iff the model replied and its braced object parses after cleaning, and then with the chance capped at 95 and the token; every other outcome (another call failure, missing braces, a failed parse) is 500 |
| QuestionsRoute.PromptOf | routes/questions.py:39-41 | field, level and total default to Software Engineering, Intermediate and 5 |
| QuestionsRoute.Prefix | routes/questions.py:75 | Python's `[:n]` is a prefix of length min(n, length), counting from the end for a negative n |
| QuestionsRoute.PrefixIdempotent | routes/questions.py:75 | cutting to `total` twice is cutting once |
| QuestionsRoute.ParsedQuestions | routes/questions.py:64-73 | nothing when the bracketed array is missing; when it is present, exactly the parse of the cleaned array |
| QuestionsRoute.GenerateQuestions | routes/questions.py:37-84 | 503 iff unreachable; served iff the reply holds an array that parses, and then a prefix of it of at most `total` items, all of it when it has no more; every other outcome (another call failure, no array, a failed parse) is 500 |
| Resume.SplitLines | routes/resume.py:12 | `split('\n')` gives at least one piece, none containing a newline |
| Resume.FirstNewline | routes/resume.py:12 | the first newline of the text |
| Resume.NonBlank | routes/resume.py:12 | the stripped non-blank lines: no more than the lines, each non-empty with no space at either end |
| Resume.Candidates | routes/resume.py:13 | at most five lines are examined |
| Resume.FirstQualifying | routes/resume.py:13-18 | the index of the first qualifying line; every earlier line is rejected |
| Resume.NameAmong | routes/resume.py:13-19 | "Candidate" or one of the lines; a returned line qualifies; "Candidate" when none does |
| Resume.ExtractName | routes/resume.py:10-19 | "Candidate" or one of the first five non-blank lines, with none of `@`, a digit, `\|`, `â`, `€`, `¢`, at most five words and under 50 characters |
| Resume.ExtractNameIsEarliest | routes/resume.py:13-18 | the returned line is the earliest qualifying one among the first five |
| Resume.BulletLineIsTakenAsName | routes/resume.py:15 | a resume whose first candidate line is the bullet item "• Go" gets that line as its name |
| Resume.BulletLineQualifies | routes/resume.py:15-17 | the bullet line "• Go" passes every test of the search as written |
| Resume.SameSearchWithoutBullets | routes/resume.py:15 | on lines without a bullet, adding the bullet to the rejected class changes nothing |
| Resume.ExtractNameSkippingBullets | routes/resume.py:15 | the corrected search never returns a line with a bullet, meets the same tests, and agrees with the search as written when there is no bullet |
| ScriptedInterview.StatusOf | backend/app/api/interview.py:53-65 | an uncaught error is HTTP 500; a bad session or a non-code question is 400 |
| ScriptedInterview.SessionStore.constructor | backend/app/services/interview_session.py:3 | the store starts empty |
| ScriptedInterview.SessionStore.StartSession | backend/app/services/interview_session.py:5-13 | a fresh id with the record (user, question 0, no answers, score 0); every other session unchanged |
| ScriptedInterview.SessionStore.GetSession | backend/app/services/interview_session.py:15-19 | the stored record iff the id is known, else the invalid-session error |
| ScriptedInterview.SessionStore.AdvanceQuestion | backend/app/services/interview_session.py:21-22 | the current question of that one session goes up by exactly one; nothing else changes |
| ScriptedInterview.ProgressOf | backend/app/api/interview.py:46-49 | finished with the score iff the index has passed the last question, else the question now due |
| ScriptedInterview.CodeProgressOf | backend/app/api/interview.py:89-97 | finished with the score iff past the last question, else the code result with the question now due |
| ScriptedInterview.StartInterview | backend/app/api/interview.py:27-33 | a new session and the first question |
| ScriptedInterview.SubmitText | backend/app/api/interview.py:35-49 | accepted iff the session exists, its index is in range and the question is a text question; then the evaluator's points are added, one answer appended and the index advanced; otherwise a crash with nothing changed; no session is lost or goes back |
| ScriptedInterview.SubmitCode | backend/app/api/interview.py:51-98 | 400 iff the session is unknown, a crash iff the index is past the end or the code at a code question does not parse, 400 iff the question is not a code question, all with nothing changed; accepted iff none of these, and then the scored result is added, recorded, and the index advanced |
| ScriptedInterview.AcceptCode | backend/app/api/interview.py:80-97 | records the scored answer, adds its final score, advances by one, and replies with the progress |
| ScriptedInterview.CodeQuestionsHaveCases | backend/app/data/questions.py:1-23 | every code question of the script has test cases, so scoring it never divides by zero |
| ScriptedInterview.ScriptRunsToTheEnd | backend/app/api/interview.py:35-98 | from a fresh session, two text answers then one code answer finish with the sum of the three scores; text is accepted exactly at the first two questions, code at the third |
| CodeScoring.Verdicts | backend/app/services/code_evaluation_pipeline.py:16-19 | one pass/fail verdict per test case |
| CodeScoring.CountTrue | backend/app/services/code_evaluation_pipeline.py:19 | the count of passes is at most the number of verdicts |
| CodeScoring.CountTrueAll | backend/app/services/code_evaluation_pipeline.py:16-19 | the count reaches the length iff every verdict is a pass |
| CodeScoring.CountTrueNone | backend/app/services/code_evaluation_pipeline.py:16-19 | the count is zero iff no verdict is a pass |
| CodeScoring.PassCount | backend/app/services/code_evaluation_pipeline.py:12-19 | 0 <= passed <= total |
| CodeScoring.PassCountFull | backend/app/services/code_evaluation_pipeline.py:12-19 | passed equals total iff every case's stripped output equals its stripped expectation |
| CodeScoring.PassCountZero | backend/app/services/code_evaluation_pipeline.py:12-19 | passed is zero iff no case passes |
| CodeScoring.Correctness | backend/app/services/code_evaluation_pipeline.py:21 | `passed/total*70` lies in [0, 70]; it is 70 iff all pass and 0 iff none do |
| CodeScoring.StructureScore | backend/app/services/code_evaluation_pipeline.py:26-32 | one of 0, 10, 20, 30; 30 iff all three checks hold, 0 iff none does |
| CodeScoring.Scored | backend/app/services/code_evaluation_pipeline.py:12-42 | no result iff the analysis fails on unparsable code; otherwise the analysis as given, passed = the pass count <= total = number of cases, and the final score in [0, 100] |
| CodeScoring.CountPasses | backend/app/services/code_evaluation_pipeline.py:12-20 | the test-case loop counts exactly `PassCount`, the cases whose stripped output matches |
| CodeScoring.EvaluateCodeSubmission | backend/app/services/code_evaluation_pipeline.py:4-42 | the counted passes and the accumulated structure points compute `Scored`, with no result when the analysis raises |
| CodeScoring.AllPassingScores | backend/app/services/code_evaluation_pipeline.py:21-35 | passing every case scores at least 70, and exactly 100 iff the structure checks all hold |
| CodeScoring.NonePassingScores | backend/app/services/code_evaluation_pipeline.py:21-35 | passing no case scores at most 30 |
| CodeScoring.EvaluateCode | backend/app/services/evaluator.py:1-15 | one of 0, 10, 70, 80; at least 70 iff the output equals the expectation; 10 or 80 iff the output is non-empty |

## Left out

- Prompt wording: prompts are structured values holding what varies (transcript, window, level, minutes, phase), not the template text.
- Base64 decoding, the `audioData` strings of replies and the TTS/STT engines: audio is a byte sequence or undecodable, and recognition and synthesis are function parameters.
- JSON parsing (`json.loads`, `JSON.parse`) is the parameter `parse`, a partial function. For the scorecard it yields each of the five keys, or nothing for a key that is missing. The `"raw"` field of the 500 replies is not modelled.
- HTTP transports to Ollama and Gemini, and the TypeScript `gemini.ts` and `speech.ts` services: these are parameters (`llm`, `stream`, `model`, `ai`, `opener`, `recognize`, `synthesize`).
- `random.choice` among the fallbacks is the parameter `pick`. The uuid of a new scripted session is the parameter `freshId`, assumed unused, as a fresh uuid is. The score token is the parameter `token`.
- Floating point: `round(..., 2)` of the code score and of the final score, the float division in `is_gibberish` (modelled exactly as `real * 5 < 2 * words`), and sub-millisecond precision of `time.time()` (time is whole milliseconds).
- `backend/app/services/text_evaluator.py` (sentence similarity) is the parameter `evaluateText`. `code_runner.py` and `code_analyzer.py` are the parameters `run` and `analyze`; `analyze` gives no analysis for code that `ast.parse` rejects.
- The numpy conversion loop of `submit_code_answer` (backend/app/api/interview.py:70-77) is the identity on the modelled result.
- Concurrency on the session maps: handlers run one at a time.
- The duplicated `end` handler of api_py/main.py:468-482 is identical to the first and modelled once.
- PDF reading and the file checks of `parse_resume` (routes/resume.py:21-48): only the name heuristic is modelled.
- Gemini's `hasattr(response, "text")` branch: the SDK's text is one value of `llm`.
- Unicode: `str.strip` and `str.split` use the characters of Python's `str.isspace` and `String.trim` those of JavaScript's WhiteSpace and LineTerminator, both as fixed code-point sets; `\d`, which also matches non-ASCII decimal digits in Python, is modelled as ASCII digits only.
- Store failures other than the TypeScript `/end` update: durable writes always succeed in the model.
- `int(data.get('total', 5))` raising on a non-numeric value, and a non-integer `selection_chance`, are not modelled: both values are integers in the model.
- CodeScoring.EvaluateCodeSubmission: requires at least one test case; the source divides by zero on an empty list, and every code question of the script has cases (`CodeQuestionsHaveCases`).
- ScriptedInterview.SessionStore.AdvanceQuestion: requires a known id; its callers always pass one, so its KeyError is unreachable.
- ScriptedInterview.SessionStore.StartSession: requires the fresh id to be unused, standing in for uuid uniqueness.
- VoiceServer.InterviewServer.VoiceStream: the aliased append of a too-short, non-empty transcript reaches the stored record of a known session. The code does this, so the model does too, although the comment at api_py/main.py:349 says a too-short turn does not advance the interview (it indeed leaves phase and counter as they were).
- VoiceServer.InterviewServer.Start: a store id that itself starts with `demo-` still gets its greeting row written, because the source tests the `demo` flag and not the prefix. "Demo sessions are never persisted" is therefore stated for the turn writes (`DemoNeverPersisted`), not for `start`.
- ExpressRoutes.ExpressServer.VoiceStream: for a session id that was never started, the server stores the corrected record `StreamRecord` (the default config and a start time of now), not the config-less record api/routes/interview.ts:200 stores; so a later `/voice` on that id is served with the default config here, where the code answers 500. The as-written record and its consequence are `StreamRecordAsWritten` and `StreamOnUnknownIdBreaksVoice` (see "Findings").
- ExpressRoutes.ExpressServer.StreamTurn: stores `StreamRecord` for the same reason as `VoiceStream` above.
- LlmText.ConversationTextAround: the transcript is characterised line by line through concatenation rather than by character offsets.

## Findings

| source | as written | input that shows it | evidently intended | confidence | as-written member | corrected member |
|---|---|---|---|---|---|---|
| api/routes/interview.ts:200 | `{ ...(session\|\|{}), conversationHistory, phase, questionNumber }` stores a record without `config` or `startTime` for an id that has no session | `/voice_stream` with a sessionId never started, then `/voice` on the same id: `session.config.questionCount` throws and every later `/voice` answers 500 | store the default session the handler computed with, config and start time included | not executed | ExpressRoutes.StreamOnUnknownIdBreaksVoice | ExpressRoutes.StreamRecord |
| routes/resume.py:15 | the character class `[@\d\|â€¢]` holds the three characters of the mis-decoded bullet, not the bullet `•` itself | a resume whose first non-blank line is `• Go`: that line is returned as the candidate's name | reject lines containing the bullet `•` | not executed | Resume.BulletLineIsTakenAsName | Resume.ExtractNameSkippingBullets |
