/**
 * The Gemini-backed interviewer (api_py/services/gemini.py): the same reply,
 * greeting and evaluation as the Ollama service, with an eight-turn window,
 * no "avoid practical" preference, and a client created on first use from
 * the environment. The two API keys are parameters (`""` when unset); `llm`
 * stands for the SDK call, `None` when it raised.
 */
module Gemini {
  import opened Wrappers
  import opened Text
  import opened Conversation
  import opened LlmText

  /** `history[-8:]`: the turns a prompt of this service sees. */
  const Window: nat := 8

  /** Why no client could be made: neither key is set. */
  datatype ClientError = MissingApiKey

  /** The key a new client is made with: `GEMINI_API_KEY or GOOGLE_API_KEY`. */
  function ChosenKey(geminiKey: string, googleKey: string): (k: string)
    ensures geminiKey != "" ==> k == geminiKey
    ensures geminiKey == "" ==> k == googleKey
    ensures k == "" <==> geminiKey == "" && googleKey == ""
  {
    if geminiKey != "" then geminiKey else googleKey
  }

  /** The reply to one accepted turn once a client exists. */
  function InterviewReply(transcript: string, ctx: GenerationContext, llm: Prompt -> Option<string>, pick: nat): (r: string)
    ensures var p := TurnPrompt(transcript, ctx.(avoidPractical := false), ConversationText(LastN(ctx.history, Window)));
      && (llm(p).None? ==> r in FallbackReplies)
      && (llm(p).Some? ==> r == CleanReply(llm(p).value) && !Contains(r, "**"))
  {
    TurnReply(llm(TurnPrompt(transcript, ctx.(avoidPractical := false), ConversationText(LastN(ctx.history, Window)))), pick)
  }

  /** The reply depends on the last eight turns only. */
  lemma {:induction false} ReplySeesEightTurns(transcript: string, ctx: GenerationContext, older: seq<Turn>,
                                               llm: Prompt -> Option<string>, pick: nat)
    requires |ctx.history| >= Window
    ensures InterviewReply(transcript, ctx.(history := older + ctx.history), llm, pick)
         == InterviewReply(transcript, ctx, llm, pick)
  {
    OlderTurnsIgnored(older, ctx.history, Window);
  }

  /** The module-level `_client`, made lazily and then kept. */
  class GeminiService {
    /** The key of the client made so far, if any. */
    var client: Option<string>

    constructor ()
      ensures client == None
    {
      client := None;
    }

    /** `get_client()`: the existing client, else a new one from the environment, else an error. */
    method GetClient(geminiKey: string, googleKey: string) returns (r: Result<string, ClientError>)
      modifies this
      ensures old(client).Some? ==> client == old(client) && r == Ok(old(client).value)
      ensures old(client).None? && ChosenKey(geminiKey, googleKey) == "" ==> client == None && r == Err(MissingApiKey)
      ensures old(client).None? && ChosenKey(geminiKey, googleKey) != "" ==>
        client == Some(ChosenKey(geminiKey, googleKey)) && r == Ok(ChosenKey(geminiKey, googleKey))
      ensures r.Ok? <==> client.Some?
    {
      if client.None? {
        var key := ChosenKey(geminiKey, googleKey);
        if key == "" {
          return Err(MissingApiKey);
        }
        client := Some(key);
      }
      r := Ok(client.value);
    }

    /**
     * `generate_interview_response`: a missing client is one more failure that
     * ends in a fixed fallback.
     */
    method GenerateInterviewResponse(transcript: string, ctx: GenerationContext, geminiKey: string, googleKey: string,
                                     llm: Prompt -> Option<string>, pick: nat)
      returns (r: string)
      modifies this
      ensures old(client).None? && ChosenKey(geminiKey, googleKey) == "" ==> r in FallbackReplies && client == None
      ensures old(client).Some? || ChosenKey(geminiKey, googleKey) != "" ==>
        r == InterviewReply(transcript, ctx, llm, pick) && client.Some?
    {
      var conversation := BuildConversation(LastN(ctx.history, Window));
      var prompt := TurnPrompt(transcript, ctx.(avoidPractical := false), conversation);
      var c := GetClient(geminiKey, googleKey);
      if c.Err? {
        r := Fallback(pick);
      } else {
        r := TurnReply(llm(prompt), pick);
      }
    }

    /** `generate_initial_greeting`: the fallback naming the field when no client or no text. */
    method GenerateInitialGreeting(field: string, difficulty: string, geminiKey: string, googleKey: string,
                                   llm: Prompt -> Option<string>)
      returns (r: string)
      modifies this
      ensures old(client).None? && ChosenKey(geminiKey, googleKey) == "" ==> Contains(r, field)
      ensures old(client).Some? || ChosenKey(geminiKey, googleKey) != "" ==>
        r == GreetingReply(field, llm(GreetingPrompt(field, difficulty)))
    {
      var c := GetClient(geminiKey, googleKey);
      if c.Err? {
        r := GreetingFallback(field);
      } else {
        r := GreetingReply(field, llm(GreetingPrompt(field, difficulty)));
      }
    }

    /** `generate_initial_question`: greets about the first technology, else the interview type. */
    method GenerateInitialQuestion(interviewType: string, techStack: seq<string>, geminiKey: string, googleKey: string,
                                   llm: Prompt -> Option<string>)
      returns (r: string)
      modifies this
      ensures old(client).None? && ChosenKey(geminiKey, googleKey) == "" ==> Contains(r, OpeningTopic(interviewType, techStack))
      ensures old(client).Some? || ChosenKey(geminiKey, googleKey) != "" ==>
        r == GreetingReply(OpeningTopic(interviewType, techStack), llm(GreetingPrompt(OpeningTopic(interviewType, techStack), "intermediate")))
    {
      r := GenerateInitialGreeting(OpeningTopic(interviewType, techStack), "intermediate", geminiKey, googleKey, llm);
    }

    /** `generate_evaluation`: the default scorecard when no client exists. */
    method GenerateEvaluation(history: seq<Turn>, field: string, difficulty: string, geminiKey: string, googleKey: string,
                              llm: Prompt -> Option<string>, parse: string -> Option<Scorecard>)
      returns (c: Scorecard)
      modifies this
      ensures old(client).None? && ChosenKey(geminiKey, googleKey) == "" ==> c == DefaultEvaluation()
      ensures old(client).Some? || ChosenKey(geminiKey, googleKey) != "" ==>
        c == EvaluationOf(llm(EvaluationPrompt(field, difficulty, ConversationText(history))), parse)
      ensures WellShaped(c) || exists raw :: parse(raw) == Some(c)
    {
      var conversation := BuildConversation(history);
      var got := GetClient(geminiKey, googleKey);
      if got.Err? {
        c := DefaultEvaluation();
      } else {
        var out := llm(EvaluationPrompt(field, difficulty, conversation));
        c := EvaluationOf(out, parse);
        EvaluationNeverFails(out, parse);
      }
    }
  }
}
