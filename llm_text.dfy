/**
 * Text handling around the language-model backends, common to
 * api_py/services/ollama_ai.py and api_py/services/gemini.py: the labelled
 * conversation transcript and its window, the difficulty lookup, the prompt
 * a request is turned into, clean-up of generated text, the canned fallbacks
 * and the default scorecard.
 */
module LlmText {
  import opened Wrappers
  import opened Text
  import opened Conversation

  // ---------------------------------------------------------------- transcript

  /** `"Candidate"` for the user's turns, `"Interviewer"` for every other speaker. */
  function SpeakerLabel(s: Speaker): string {
    if s == User then "Candidate" else "Interviewer"
  }

  /** The line `f"{speaker}: {turn['text']}\n"` one turn contributes. */
  function TurnLine(t: Turn): string {
    SpeakerLabel(t.speaker) + ": " + t.text + "\n"
  }

  /** The lines of all `turns`, oldest first. */
  function ConversationText(turns: seq<Turn>): string {
    if turns == [] then "" else ConversationText(turns[..|turns| - 1]) + TurnLine(turns[|turns| - 1])
  }

  /** The transcript of two stretches of history is the first's followed by the second's. */
  lemma {:induction false} ConversationTextAppend(a: seq<Turn>, b: seq<Turn>)
    ensures ConversationText(a + b) == ConversationText(a) + ConversationText(b)
    decreases |b|
  {
    if b == [] {
      assert a + b == a;
    } else {
      var init, last := b[..|b| - 1], b[|b| - 1];
      assert b == init + [last];
      assert a + b == (a + init) + [last];
      ConversationTextAppend(a, init);
      ConversationTextSnoc(a + init, last);
      ConversationTextSnoc(init, last);
      JoinAssociates(ConversationText(a), ConversationText(init), TurnLine(last));
    }
  }

  lemma JoinAssociates(x: string, y: string, z: string)
    ensures (x + y) + z == x + (y + z)
  {
  }

  /** Appending a turn appends its line. */
  lemma ConversationTextSnoc(turns: seq<Turn>, t: Turn)
    ensures ConversationText(turns + [t]) == ConversationText(turns) + TurnLine(t)
  {
    assert (turns + [t])[..|turns|] == turns;
  }

  /**
   * Each turn contributes its own line, in place: a turn between two stretches
   * of history has its line between theirs.
   */
  lemma ConversationTextAround(pre: seq<Turn>, x: Turn, post: seq<Turn>)
    ensures ConversationText(pre + [x] + post) == ConversationText(pre) + TurnLine(x) + ConversationText(post)
  {
    ConversationTextAppend(pre + [x], post);
    ConversationTextSnoc(pre, x);
  }

  /** The `for turn in history: conversation_text += ...` loop. */
  method BuildConversation(turns: seq<Turn>) returns (text: string)
    ensures text == ConversationText(turns)
  {
    text := "";
    var i := 0;
    while i < |turns|
      invariant 0 <= i <= |turns|
      invariant text == ConversationText(turns[..i])
    {
      assert turns[..i + 1][..i] == turns[..i];
      text := text + TurnLine(turns[i]);
      i := i + 1;
    }
    assert turns[..|turns|] == turns;
  }

  /** Python's `history[-n:]`: the last `n` turns, or all of them when there are fewer. */
  function LastN(history: seq<Turn>, n: nat): (w: seq<Turn>)
    ensures |w| == if |history| <= n then |history| else n
    ensures w == history[|history| - |w|..]
  {
    if |history| <= n then history else history[|history| - n..]
  }

  /** Turns older than the window never reach the prompt. */
  lemma {:induction false} OlderTurnsIgnored(older: seq<Turn>, recent: seq<Turn>, n: nat)
    requires |recent| >= n
    ensures LastN(older + recent, n) == LastN(recent, n)
  {
    var h := older + recent;
    assert h[|h| - n..] == recent[|recent| - n..] by {
      var x, y := h[|h| - n..], recent[|recent| - n..];
      forall k | 0 <= k < n ensures x[k] == y[k] {
        assert x[k] == h[|h| - n + k] == recent[|recent| - n + k];
      }
    }
  }

  // ---------------------------------------------------------------- prompts

  /** The three instruction levels of `difficulty_instructions`. */
  datatype Level = Beginner | Intermediate | Advanced

  /** `difficulty_instructions.get(difficulty, difficulty_instructions["intermediate"])`. */
  function LevelOf(difficulty: string): (l: Level)
    ensures l == Beginner <==> difficulty == "beginner"
    ensures l == Advanced <==> difficulty == "advanced"
    ensures l == Intermediate <==> difficulty != "beginner" && difficulty != "advanced"
  {
    if difficulty == "beginner" then Beginner
    else if difficulty == "advanced" then Advanced
    else Intermediate
  }

  /**
   * The request a service sends to its backend, by the template it fills in.
   * The wording of each template is not modelled, only what is filled in.
   */
  datatype Prompt =
    | GreetingPrompt(field: string, difficulty: string)
    | GoodbyePrompt(field: string, conversation: string, transcript: string)
    | QuestionPrompt(field: string, difficulty: string, level: Level, questionNumber: int,
                     totalQuestions: int, minutesRemaining: int, avoidPractical: bool,
                     conversation: string, transcript: string)
    | EvaluationPrompt(field: string, difficulty: string, conversation: string)

  /** The generation context the server hands to the service for one accepted turn. */
  datatype GenerationContext = GenerationContext(
    sessionId: string,
    interviewType: string,
    field: string,
    difficulty: string,
    questionNumber: int,
    totalQuestions: int,
    phase: Phase,
    timeRemainingMs: int,
    history: seq<Turn>,
    avoidPractical: bool)

  /**
   * The prompt for one turn: the goodbye template in the ending phase, the
   * question template otherwise, over the transcript of the last `window` turns.
   * `int(time_remaining // 60)` is a floor division, as Dafny's `/` is for a
   * positive divisor.
   */
  function TurnPrompt(transcript: string, ctx: GenerationContext, conversation: string): (p: Prompt)
    ensures p.GoodbyePrompt? <==> ctx.phase == Ending
    ensures p.QuestionPrompt? ==> p.level == LevelOf(ctx.difficulty)
    ensures p.QuestionPrompt? ==> p.minutesRemaining * 60000 <= ctx.timeRemainingMs < (p.minutesRemaining + 1) * 60000
  {
    if ctx.phase == Ending then GoodbyePrompt(ctx.field, conversation, transcript)
    else QuestionPrompt(ctx.field, ctx.difficulty, LevelOf(ctx.difficulty), ctx.questionNumber,
                        ctx.totalQuestions, ctx.timeRemainingMs / 60000, ctx.avoidPractical,
                        conversation, transcript)
  }

  // ---------------------------------------------------------------- replies

  /** `text.strip()` by the transport, then `.replace("**", "").strip()`. */
  function CleanReply(raw: string): (r: string)
    ensures !Contains(r, "**")
    ensures |r| <= |raw|
  {
    var stripped := PyStrip(raw);
    var unbolded := RemoveAll(stripped, Run('*', 2));
    RemoveRunLeavesNone(stripped, '*', 2);
    StripKeepsAbsence(unbolded, Run('*', 2));
    assert Run('*', 2) == "**";
    PyStrip(unbolded)
  }

  /** Stripping whitespace never creates an occurrence of a pattern. */
  lemma StripKeepsAbsence(s: string, p: string)
    requires !Contains(s, p)
    ensures !Contains(PyStrip(s), p)
  {
    var l := TrimLeft(s, IsPySpace);
    AbsentFromSlice(s, p, |s| - |l|, |s|);
    assert s[|s| - |l|..|s|] == l;
    var r := TrimRight(l, IsPySpace);
    AbsentFromSlice(l, p, 0, |r|);
  }

  /** The three canned replies used when generation fails. */
  const FallbackReplies: seq<string> := [
    "That's a good point. Can you tell me more about your approach to solving problems in this area?",
    "I see. What would you say is the most challenging aspect of working with this technology?",
    "Interesting perspective. How do you typically handle situations where you need to learn something new quickly?"
  ]

  /** `random.choice(fallbacks)`: the choice is the parameter `pick`. */
  function Fallback(pick: nat): (r: string)
    ensures r in FallbackReplies
  {
    FallbackReplies[pick % |FallbackReplies|]
  }

  /**
   * The reply of a blocking turn: the cleaned generated text, or one of the
   * fixed fallbacks when the backend raised (`outcome == None`).
   */
  function TurnReply(outcome: Option<string>, pick: nat): (r: string)
    ensures outcome.None? ==> r in FallbackReplies
    ensures outcome.Some? ==> r == CleanReply(outcome.value) && !Contains(r, "**")
  {
    match outcome
    case None => Fallback(pick)
    case Some(raw) => CleanReply(raw)
  }

  const GreetingOpening: string := "Hello! Welcome to your "
  const GreetingMiddle: string := " interview. I'm your AI interviewer today. Before we begin, please tell me a little about yourself and your experience with "

  /** The greeting used when generation fails; it names the interview field twice. */
  function GreetingFallback(field: string): (r: string)
    ensures OccursAt(r, field, |GreetingOpening|)
  {
    var r := GreetingOpening + field + GreetingMiddle + field + ".";
    assert r[|GreetingOpening|..|GreetingOpening| + |field|] == field;
    r
  }

  /** The opening line: the cleaned greeting, or the fallback that names the field. */
  function GreetingReply(field: string, outcome: Option<string>): (r: string)
    ensures outcome.None? ==> Contains(r, field)
    ensures outcome.Some? ==> !Contains(r, "**")
  {
    match outcome
    case None => GreetingFallback(field)
    case Some(raw) => CleanReply(raw)
  }

  /** The topic `generate_initial_question` greets with: the first technology, else the interview type. */
  function OpeningTopic(interviewType: string, techStack: seq<string>): (t: string)
    ensures techStack != [] ==> t == techStack[0]
    ensures techStack == [] ==> t == interviewType
  {
    if techStack != [] then techStack[0] else interviewType
  }

  // ---------------------------------------------------------------- evaluation

  datatype Category = Category(name: string, score: int, feedback: string)

  /**
   * The evaluation as `generate_evaluation` returns it: a parsed JSON object,
   * read key by key. A key is `None` when it is missing or its value is not
   * of the type the route's `EvaluateResponse` declares for it.
   */
  datatype Scorecard = Scorecard(
    overallScore: Option<int>,
    categories: Option<seq<Category>>,
    strengths: Option<seq<string>>,
    improvements: Option<seq<string>>,
    summary: Option<string>)

  /** Every key `EvaluateResponse` requires is present with its declared type. */
  predicate Complete(c: Scorecard) {
    c.overallScore.Some? && c.categories.Some? && c.strengths.Some? && c.improvements.Some? && c.summary.Some?
  }

  /** The shape the evaluation prompt asks for: four categories, three strengths and improvements, scores in 0..100. */
  predicate WellShaped(c: Scorecard) {
    && Complete(c)
    && 0 <= c.overallScore.value <= 100
    && |c.categories.value| == 4
    && (forall i :: 0 <= i < 4 ==> 0 <= c.categories.value[i].score <= 100)
    && |c.strengths.value| == 3
    && |c.improvements.value| == 3
  }

  /** The categories of `_default_evaluation()`. */
  const DefaultCategories: seq<Category> := [
    Category("Technical Knowledge", 70, "Showed solid understanding of core concepts."),
    Category("Communication", 75, "Explained thoughts clearly and concisely."),
    Category("Problem Solving", 68, "Demonstrated logical approach to problems."),
    Category("Depth of Understanding", 65, "Could explore topics more deeply.")
  ]

  const DefaultStrengths: seq<string> := [
    "Good foundational knowledge",
    "Clear communication style",
    "Willing to engage with questions"
  ]

  const DefaultImprovements: seq<string> := [
    "Provide more specific examples",
    "Explore edge cases in answers",
    "Elaborate on implementation details"
  ]

  const DefaultSummary: string :=
    "The candidate showed good overall performance with solid fundamentals. There's room to grow in providing more detailed technical explanations and exploring edge cases."

  /** `_default_evaluation()`: the fixed scorecard returned when evaluation cannot be had. */
  function DefaultEvaluation(): (c: Scorecard)
    ensures WellShaped(c)
    ensures c.overallScore == Some(70)
    ensures c.categories.value[0].score == 70 && c.categories.value[1].score == 75
    ensures c.categories.value[2].score == 68 && c.categories.value[3].score == 65
  {
    Scorecard(Some(70), Some(DefaultCategories), Some(DefaultStrengths), Some(DefaultImprovements), Some(DefaultSummary))
  }

  /** `text.strip().replace("```json", "").replace("```", "").strip()`: no fence survives. */
  function StripFences(raw: string): (r: string)
    ensures !Contains(r, "```")
    ensures |r| <= |raw|
  {
    var once := RemoveAll(PyStrip(raw), "```json");
    var twice := RemoveAll(once, Run('`', 3));
    RemoveRunLeavesNone(once, '`', 3);
    StripKeepsAbsence(twice, Run('`', 3));
    assert Run('`', 3) == "```";
    PyStrip(twice)
  }

  /**
   * `generate_evaluation` after the backend call: the parsed scorecard of the
   * fence-stripped text, or the default when the backend raised or the text
   * does not parse. `parse` stands for `json.loads`.
   */
  function EvaluationOf(outcome: Option<string>, parse: string -> Option<Scorecard>): (c: Scorecard)
    ensures outcome.None? ==> c == DefaultEvaluation()
    ensures outcome.Some? && parse(StripFences(outcome.value)).None? ==> c == DefaultEvaluation()
    ensures outcome.Some? && parse(StripFences(outcome.value)).Some? ==> c == parse(StripFences(outcome.value)).value
  {
    match outcome
    case None => DefaultEvaluation()
    case Some(raw) => parse(StripFences(raw)).GetOr(DefaultEvaluation())
  }

  /** Whatever the backend or the parser do, the scorecard is a parsed one or the well-shaped default. */
  lemma EvaluationNeverFails(outcome: Option<string>, parse: string -> Option<Scorecard>)
    ensures var c := EvaluationOf(outcome, parse);
      WellShaped(c) || (outcome.Some? && parse(StripFences(outcome.value)) == Some(c))
  {
  }
}
