/**
 * The Ollama-backed interviewer (api_py/services/ollama_ai.py): the prompt of
 * a turn over the last six turns, the blocking and the streamed reply, the
 * greeting and the evaluation. The HTTP transport is a parameter: `llm` maps
 * a prompt to the generated text, or to `None` when the call raised; `stream`
 * maps a prompt to the lines of the streamed body and how it ended.
 */
module OllamaAi {
  import opened Wrappers
  import opened Text
  import opened Conversation
  import opened LlmText

  /** `history[-6:]`: the turns a prompt of this service sees. */
  const Window: nat := 6

  /** The prompt of one turn, over the transcript of the last six turns. */
  function PromptFor(transcript: string, ctx: GenerationContext): Prompt {
    TurnPrompt(transcript, ctx, ConversationText(LastN(ctx.history, Window)))
  }

  /** The blocking reply to one accepted turn (`generate_interview_response`). */
  function InterviewReply(transcript: string, ctx: GenerationContext, llm: Prompt -> Option<string>, pick: nat): (r: string)
    ensures llm(PromptFor(transcript, ctx)).None? ==> r in FallbackReplies
    ensures llm(PromptFor(transcript, ctx)).Some? ==> r == CleanReply(llm(PromptFor(transcript, ctx)).value) && !Contains(r, "**")
  {
    TurnReply(llm(PromptFor(transcript, ctx)), pick)
  }

  /** The reply depends on the last six turns only: older history never reaches the backend. */
  lemma {:induction false} ReplySeesSixTurns(transcript: string, ctx: GenerationContext, older: seq<Turn>,
                                             llm: Prompt -> Option<string>, pick: nat)
    requires |ctx.history| >= Window
    ensures InterviewReply(transcript, ctx.(history := older + ctx.history), llm, pick)
         == InterviewReply(transcript, ctx, llm, pick)
  {
    OlderTurnsIgnored(older, ctx.history, Window);
  }

  /** `generate_interview_response`: builds the transcript with its loop, then asks the backend. */
  method GenerateInterviewResponse(transcript: string, ctx: GenerationContext, llm: Prompt -> Option<string>, pick: nat)
    returns (r: string)
    ensures r == InterviewReply(transcript, ctx, llm, pick)
  {
    var conversation := BuildConversation(LastN(ctx.history, Window));
    var prompt := TurnPrompt(transcript, ctx, conversation);
    r := TurnReply(llm(prompt), pick);
  }

  // ---------------------------------------------------------------- streaming

  /** One line of the streamed response body. */
  datatype StreamLine =
    | Blank                        // an empty keep-alive line
    | Unparsable                   // a line that is not a JSON object
    | Piece(response: string)      // a JSON object; `response` is its text or ""

  /** How the streamed request ended. */
  datatype StreamEnd =
    | Completed
    | RequestError                 // the HTTP layer raised
    | OtherError                   // any other exception, seen by the caller

  datatype StreamBody = StreamBody(lines: seq<StreamLine>, end: StreamEnd)

  /** The non-empty `response` texts of `lines`, in order. */
  function NonEmptyPieces(lines: seq<StreamLine>): (r: seq<string>)
    ensures |r| <= |lines|
    ensures forall i :: 0 <= i < |r| ==> r[i] != ""
  {
    if lines == [] then []
    else
      var last := lines[|lines| - 1];
      NonEmptyPieces(lines[..|lines| - 1]) + (if last.Piece? && last.response != "" then [last.response] else [])
  }

  /** What `stream_generate_with_ollama` yields: the non-empty pieces, then `""` if the request failed. */
  function GeneratorChunks(body: StreamBody): (r: seq<string>)
    ensures body.end == RequestError ==> |r| >= 1 && r[|r| - 1] == "" && r[..|r| - 1] == NonEmptyPieces(body.lines)
    ensures body.end != RequestError ==> r == NonEmptyPieces(body.lines)
  {
    NonEmptyPieces(body.lines) + (if body.end == RequestError then [""] else [])
  }

  /** `stream_generate_with_ollama`: skips blank and unparsable lines and empty pieces. */
  method StreamGenerate(body: StreamBody) returns (chunks: seq<string>)
    ensures chunks == GeneratorChunks(body)
  {
    chunks := [];
    for i := 0 to |body.lines|
      invariant chunks == NonEmptyPieces(body.lines[..i])
    {
      assert body.lines[..i + 1][..i] == body.lines[..i];
      var line := body.lines[i];
      if line.Piece? && line.response != "" {
        chunks := chunks + [line.response];
      }
    }
    assert body.lines[..|body.lines|] == body.lines;
    if body.end == RequestError {
      chunks := chunks + [""];
    }
  }

  /** The line streamed when the generation fails outright. */
  const StreamFallback: string := "Let's continue. Could you share a concrete example from your recent work?"

  /** The non-empty members of `chunks`, in order. */
  function NonEmpty(chunks: seq<string>): (r: seq<string>)
    ensures |r| <= |chunks|
    ensures forall i :: 0 <= i < |r| ==> r[i] != ""
    ensures (forall i :: 0 <= i < |chunks| ==> chunks[i] != "") ==> r == chunks
  {
    if chunks == [] then []
    else NonEmpty(chunks[..|chunks| - 1]) + (if chunks[|chunks| - 1] != "" then [chunks[|chunks| - 1]] else [])
  }

  /**
   * What `stream_interview_response` yields for a body: the non-empty chunks
   * of the generator, then the fallback line when another exception escaped.
   */
  function Fragments(body: StreamBody): (r: seq<string>)
    ensures forall i :: 0 <= i < |r| ==> r[i] != ""
    ensures body.end != OtherError ==> r == NonEmptyPieces(body.lines)
    ensures body.end == OtherError ==> r == NonEmptyPieces(body.lines) + [StreamFallback]
  {
    NonEmptyFixesPieces(body.lines);
    NonEmpty(GeneratorChunks(body)) + (if body.end == OtherError then [StreamFallback] else [])
  }

  /** Filtering the generator's chunks drops exactly the `""` a failed request adds. */
  lemma NonEmptyFixesPieces(lines: seq<StreamLine>)
    ensures NonEmpty(NonEmptyPieces(lines)) == NonEmptyPieces(lines)
    ensures NonEmpty(NonEmptyPieces(lines) + [""]) == NonEmptyPieces(lines)
  {
    var ps := NonEmptyPieces(lines);
    assert (ps + [""])[..|ps|] == ps;
  }

  /** A failed request and a completed one over the same lines stream the same fragments. */
  lemma RequestErrorIsSilent(lines: seq<StreamLine>)
    ensures Fragments(StreamBody(lines, RequestError)) == Fragments(StreamBody(lines, Completed))
    ensures Fragments(StreamBody(lines, Completed)) == NonEmptyPieces(lines)
  {
  }

  /** `stream_interview_response`: builds the prompt, then filters what the generator yields. */
  method StreamInterviewResponse(transcript: string, ctx: GenerationContext, stream: Prompt -> StreamBody)
    returns (fragments: seq<string>)
    ensures fragments == Fragments(stream(PromptFor(transcript, ctx)))
  {
    var conversation := BuildConversation(LastN(ctx.history, Window));
    assert TurnPrompt(transcript, ctx, conversation) == PromptFor(transcript, ctx);
    var body := stream(TurnPrompt(transcript, ctx, conversation));
    var chunks := StreamGenerate(body);
    fragments := KeepNonEmpty(chunks);
    if body.end == OtherError {
      fragments := fragments + [StreamFallback];
    }
  }

  /** The `if chunk: yield chunk` loop over the generator. */
  method KeepNonEmpty(chunks: seq<string>) returns (fragments: seq<string>)
    ensures fragments == NonEmpty(chunks)
  {
    fragments := [];
    for i := 0 to |chunks|
      invariant fragments == NonEmpty(chunks[..i])
    {
      assert chunks[..i + 1][..i] == chunks[..i];
      if chunks[i] != "" {
        fragments := fragments + [chunks[i]];
      }
    }
    assert chunks[..|chunks|] == chunks;
  }

  // ---------------------------------------------------------------- greeting and evaluation

  /** `generate_initial_greeting`: the cleaned greeting, or the fallback naming the field. */
  function InitialGreeting(field: string, difficulty: string, llm: Prompt -> Option<string>): (r: string)
    ensures llm(GreetingPrompt(field, difficulty)).None? ==> Contains(r, field)
    ensures llm(GreetingPrompt(field, difficulty)).Some? ==> !Contains(r, "**")
  {
    GreetingReply(field, llm(GreetingPrompt(field, difficulty)))
  }

  /** `generate_initial_question`: greets about the first technology, else the interview type, at the intermediate level. */
  function InitialQuestion(interviewType: string, techStack: seq<string>, llm: Prompt -> Option<string>): (r: string)
    ensures techStack != [] && llm(GreetingPrompt(techStack[0], "intermediate")).None? ==> Contains(r, techStack[0])
    ensures techStack == [] && llm(GreetingPrompt(interviewType, "intermediate")).None? ==> Contains(r, interviewType)
    ensures llm(GreetingPrompt(OpeningTopic(interviewType, techStack), "intermediate")).Some? ==> !Contains(r, "**")
  {
    InitialGreeting(OpeningTopic(interviewType, techStack), "intermediate", llm)
  }

  /** The evaluation of a whole interview: the parsed scorecard or the default one. */
  function Evaluation(history: seq<Turn>, field: string, difficulty: string,
                      llm: Prompt -> Option<string>, parse: string -> Option<Scorecard>): (c: Scorecard)
    ensures var out := llm(EvaluationPrompt(field, difficulty, ConversationText(history)));
      && (out.None? ==> c == DefaultEvaluation())
      && (WellShaped(c) || (out.Some? && parse(StripFences(out.value)) == Some(c)))
  {
    var out := llm(EvaluationPrompt(field, difficulty, ConversationText(history)));
    EvaluationNeverFails(out, parse);
    EvaluationOf(out, parse)
  }

  /** `generate_evaluation`: the full transcript, built by its loop, is evaluated. */
  method GenerateEvaluation(history: seq<Turn>, field: string, difficulty: string,
                            llm: Prompt -> Option<string>, parse: string -> Option<Scorecard>)
    returns (c: Scorecard)
    ensures c == Evaluation(history, field, difficulty, llm, parse)
  {
    var conversation := BuildConversation(history);
    c := EvaluationOf(llm(EvaluationPrompt(field, difficulty, conversation)), parse);
  }
}
