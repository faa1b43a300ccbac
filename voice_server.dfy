/**
 * The Python voice-interview server (api_py/main.py): the process-wide map of
 * sessions and the handlers `start`, `voice`, `voice_stream`, `caption`,
 * `evaluate` and `end`. The wall clock is the parameter `nowMs`
 * (milliseconds); speech recognition, speech synthesis and the language model
 * are function parameters; the durable store is an append-only log of the
 * writes the handlers issue, made only when the store is configured.
 */
module VoiceServer {
  import opened Wrappers
  import opened Text
  import opened Conversation
  import opened LlmText
  import OllamaAi

  // ---------------------------------------------------------------- time

  /** Division truncating toward zero, as Python's `int()` of a quotient does. */
  function TruncDiv(a: int, b: int): (q: int)
    requires b > 0
    ensures a >= 0 ==> 0 <= a - b * q < b
    ensures a < 0 ==> -b < a - b * q <= 0
  {
    if a >= 0 then a / b else -((-a) / b)
  }

  /** Milliseconds left of the session's time limit at `nowMs`. */
  function RemainingMs(s: Session, nowMs: int): int {
    s.config.timeLimit * 60000 - (nowMs - s.startMs)
  }

  /** `time_remaining < 30`, the time half of the end test. */
  predicate LowTime(remMs: int) {
    remMs < 30000
  }

  /** `max(0, int(time_remaining))`: whole seconds left, never negative. */
  function ReportedSeconds(remMs: int): (r: int)
    ensures r >= 0
    ensures remMs < 1000 ==> r == 0
    ensures remMs >= 0 ==> r * 1000 <= remMs < r * 1000 + 1000
  {
    var t := TruncDiv(remMs, 1000);
    if t > 0 then t else 0
  }

  /** Truncating and then clamping at zero is the same as flooring and then clamping. */
  lemma ReportedSecondsIsClampedFloor(remMs: int)
    ensures ReportedSeconds(remMs) == if remMs / 1000 > 0 then remMs / 1000 else 0
  {
    if remMs < 0 {
      assert remMs / 1000 < 0;
    }
  }

  // ---------------------------------------------------------------- session records

  /** The `start` request after the request model applied its defaults to omitted fields. */
  datatype StartRequest = StartRequest(
    userId: string,                 // "" when absent or null
    interviewType: string,
    field: Option<string>,
    techStack: Option<seq<string>>,
    difficulty: Option<string>,
    questionCount: Option<int>,
    timeLimit: Option<int>,
    duration: Option<int>)          // None when sent as null; omitted means Some(30)

  /** The config `start` stores, with the request model's defaults for omitted fields. */
  function StartConfig(req: StartRequest): (c: Config)
    ensures c.field == req.field.GetOr("general") && c.difficulty == req.difficulty.GetOr("intermediate")
    ensures c.questionCount == req.questionCount.GetOr(5) && c.timeLimit == req.timeLimit.GetOr(10)
    ensures c.interviewType == req.interviewType && c.techStack == req.techStack.GetOr([])
  {
    Config(req.field.GetOr("general"), req.difficulty.GetOr("intermediate"), req.questionCount.GetOr(5),
           req.timeLimit.GetOr(10), req.interviewType, req.techStack.GetOr([]))
  }

  /** `req.duration or 30`. */
  function DurationOf(req: StartRequest): (d: int)
    ensures d != 0
    ensures req.duration.Some? && req.duration.value != 0 ==> d == req.duration.value
  {
    if req.duration.Some? && req.duration.value != 0 then req.duration.value else 30
  }

  /** The record `start` stores: the greeting as the only turn, phase greeting, counter 0. */
  function NewSession(config: Config, greeting: string, nowMs: int): (s: Session)
    ensures s.history == [Turn(Ai, greeting)] && s.phase == Greeting && s.questionNumber == 0
    ensures s.config == config && s.startMs == nowMs
    ensures Coherent(s)
  {
    Session(config, [Turn(Ai, greeting)], Greeting, 0, nowMs)
  }

  /** The record `voice` and `voice_stream` use for an id they do not know. */
  const DefaultConfig: Config := Config("general", "intermediate", 5, 10, "", [])

  /** `session_data.get(id, {...})`: the stored record, or a fresh default one started now. */
  function Lookup(sessions: map<string, Session>, id: string, nowMs: int): (s: Session)
    ensures id in sessions ==> s == sessions[id]
    ensures id !in sessions ==> s.config == DefaultConfig && s.history == [] && s.phase == Greeting
                                && s.questionNumber == 0 && s.startMs == nowMs
    ensures (id in sessions ==> Coherent(sessions[id])) ==> Coherent(s)
  {
    if id in sessions then sessions[id] else Session(DefaultConfig, [], Greeting, 0, nowMs)
  }

  /** `not t or len(t.strip()) < 5`: a transcript too short to count as an answer. */
  predicate TooShort(t: string) {
    |PyStrip(t)| < 5
  }

  /** The empty transcript is always too short; one with five non-space characters in a row never is. */
  lemma TooShortCases(t: string)
    ensures t == "" ==> TooShort(t)
    ensures !TooShort(t) ==> |t| >= 5
  {
  }

  /** A rejected answer: the user's turn is recorded, nothing else moves. */
  function ShortTurn(s: Session, t: string): (r: Session)
    ensures |r.history| == |s.history| + 1 && r.history[..|s.history|] == s.history
    ensures r.history[|s.history|] == Turn(User, t)
    ensures r.phase == s.phase && r.questionNumber == s.questionNumber
    ensures r.config == s.config && r.startMs == s.startMs
    ensures Coherent(s) ==> Coherent(r)
  {
    var h := s.history + [Turn(User, t)];
    assert h[..|s.history|] == s.history;
    s.(history := h)
  }

  /**
   * An accepted answer: the user's turn and the interviewer's reply are
   * recorded and the phase transition of `Decide` is applied.
   */
  function Advance(s: Session, t: string, answer: string, lowTime: bool): (r: Session)
    ensures |r.history| == |s.history| + 2 && r.history[..|s.history|] == s.history
    ensures r.history[|s.history|] == Turn(User, t) && r.history[|s.history| + 1] == Turn(Ai, answer)
    ensures r.config == s.config && r.startMs == s.startMs
    ensures var d := Decide(s.phase, s.questionNumber, s.config.questionCount, lowTime);
      r.phase == d.phase && r.questionNumber == d.questionNumber
    ensures Coherent(s) ==> Coherent(r) && Rank(r.phase) >= Rank(s.phase) && r.questionNumber >= s.questionNumber
    ensures r.phase != Greeting
  {
    var d := Decide(s.phase, s.questionNumber, s.config.questionCount, lowTime);
    var h := s.history + [Turn(User, t), Turn(Ai, answer)];
    assert h[..|s.history|] == s.history;
    s.(history := h, phase := d.phase, questionNumber := d.questionNumber)
  }

  /** The context `voice` and `voice_stream` hand to the interviewer for an accepted answer. */
  function TurnContext(sessionId: string, interviewType: string, s: Session, t: string, nowMs: int): GenerationContext {
    var d := Decide(s.phase, s.questionNumber, s.config.questionCount, LowTime(RemainingMs(s, nowMs)));
    GenerationContext(sessionId, interviewType, s.config.field, s.config.difficulty, d.questionNumber,
                      s.config.questionCount, d.phase, RemainingMs(s, nowMs), s.history + [Turn(User, t)], false)
  }

  /** The interviewer sees the answer it replies to as the newest turn of its window. */
  lemma ContextEndsWithAnswer(sessionId: string, interviewType: string, s: Session, t: string, nowMs: int)
    ensures var ctx := TurnContext(sessionId, interviewType, s, t, nowMs);
      var w := LastN(ctx.history, OllamaAi.Window);
      |w| >= 1 && w[|w| - 1] == Turn(User, t)
  {
  }

  // ---------------------------------------------------------------- durable store

  /** One write the handlers send to the durable store. */
  datatype StoreWrite =
    | SessionInsert(userId: string, interviewType: string, techStack: seq<string>, duration: int)
    | TurnInsert(sessionId: string, speaker: Speaker, text: string, confidence: real)
    | CompletionUpdate(sessionId: string)

  /** Ids made up locally when there is no durable session. */
  predicate IsDemoId(id: string) {
    StartsWith(id, "demo-")
  }

  /** `f"demo-{int(time.time()*1000)}"`. */
  function DemoId(nowMs: nat): (id: string)
    ensures IsDemoId(id) && |id| > 5
  {
    "demo-" + NatToString(nowMs)
  }

  /** The guard of every write after `start`: a configured store and a non-empty, non-demo id. */
  predicate Persisted(configured: bool, id: string) {
    configured && id != "" && !IsDemoId(id)
  }

  /** The two rows an accepted turn writes, or none. */
  function TurnWrites(configured: bool, id: string, t: string, confidence: real, answer: string): (w: seq<StoreWrite>)
    ensures |w| == 0 || |w| == 2
    ensures w != [] <==> Persisted(configured, id)
    ensures w != [] ==> w[0] == TurnInsert(id, User, t, confidence) && w[1] == TurnInsert(id, Ai, answer, 1.0)
  {
    if Persisted(configured, id) then [TurnInsert(id, User, t, confidence), TurnInsert(id, Ai, answer, 1.0)] else []
  }

  /** A demo session's turns never reach the durable store. */
  lemma DemoNeverPersisted(configured: bool, id: string, t: string, confidence: real, answer: string)
    requires IsDemoId(id)
    ensures TurnWrites(configured, id, t, confidence, answer) == []
    ensures !Persisted(configured, id)
  {
  }

  // ---------------------------------------------------------------- replies

  /** What speech recognition reports. */
  datatype Recognition = Recognition(transcript: string, confidence: real)

  /** The audio of a request: base64 that did not decode, or the decoded bytes. */
  datatype Audio = Undecodable | Decoded(bytes: Bytes)

  /** Fewer decoded bytes than this are treated as silence by `voice`. */
  const MinVoiceBytes: nat := 4000

  /** Fewer decoded bytes than this give an empty caption. */
  const MinCaptionBytes: nat := 3000

  const UnreadableMessage: string := "I couldn't process the audio. Please try again."
  const QuietMessage: string := "I didn't catch that. Please speak again."
  const RepeatMessage: string := "I couldn\U{2019}t hear that clearly. Please repeat your answer."

  /** The `start` reply. */
  datatype StartReply = StartReply(sessionId: string, greeting: string, audio: Bytes, config: Config)

  /** The `voice` reply; `timeRemaining` is missing from the reply to undecodable audio. */
  datatype VoiceReply = VoiceReply(
    userTranscript: string,
    aiResponse: string,
    audio: Bytes,
    history: seq<Turn>,
    questionNumber: int,
    totalQuestions: int,
    phase: Phase,
    shouldEnd: bool,
    timeRemaining: Option<int>)

  /** The reply to audio that is not base64, read from the stored record or its defaults. */
  function UnreadableReply(sessions: map<string, Session>, id: string): (r: VoiceReply)
    ensures r.userTranscript == "" && !r.shouldEnd && r.timeRemaining.None? && r.aiResponse == UnreadableMessage
    ensures id in sessions ==> r.history == sessions[id].history && r.phase == sessions[id].phase
                               && r.questionNumber == sessions[id].questionNumber
    ensures id !in sessions ==> r.history == [] && r.phase == Questions && r.questionNumber == 0 && r.totalQuestions == 5
  {
    if id in sessions then
      var s := sessions[id];
      VoiceReply("", UnreadableMessage, [], s.history, s.questionNumber, s.config.questionCount, s.phase, false, None)
    else VoiceReply("", UnreadableMessage, [], [], 0, 5, Questions, false, None)
  }

  /**
   * The route's check of the returned dict against `VoiceResponse`, where
   * `timeRemaining` is required: a reply without it is answered with 500.
   */
  function Validated(r: VoiceReply): (out: Result<VoiceReply, int>)
    ensures out.Ok? <==> r.timeRemaining.Some?
    ensures out.Ok? ==> out.value == r
    ensures out.Err? ==> out.error == 500
  {
    if r.timeRemaining.Some? then Ok(r) else Err(500)
  }

  /**
   * The route's check of the returned dict against `EvaluateResponse`, whose
   * five keys are all required: an incomplete scorecard is answered with 500.
   */
  function ValidatedScorecard(c: Scorecard): (out: Result<Scorecard, int>)
    ensures out.Ok? <==> Complete(c)
    ensures out.Ok? ==> out.value == c
    ensures out.Err? ==> out.error == 500
  {
    if Complete(c) then Ok(c) else Err(500)
  }

  /** The reply to audio under the byte threshold: the full time limit, in seconds. */
  function QuietReply(sessions: map<string, Session>, id: string): (r: VoiceReply)
    ensures r.userTranscript == "" && !r.shouldEnd && r.aiResponse == QuietMessage
    ensures id in sessions ==> r.history == sessions[id].history && r.phase == sessions[id].phase
                               && r.timeRemaining == Some(sessions[id].config.timeLimit * 60)
    ensures id !in sessions ==> r.history == [] && r.phase == Questions && r.timeRemaining == Some(600)
  {
    if id in sessions then
      var s := sessions[id];
      VoiceReply("", QuietMessage, [], s.history, s.questionNumber, s.config.questionCount, s.phase, false,
                 Some(s.config.timeLimit * 60))
    else VoiceReply("", QuietMessage, [], [], 0, 5, Questions, false, Some(600))
  }

  /** One line of the `voice_stream` body. */
  datatype StreamEvent =
    | TextEvent(text: string)
    | FinalEvent(aiResponse: string, audio: Bytes, questionNumber: int, totalQuestions: int,
                 phase: Phase, shouldEnd: bool, timeRemaining: int)

  /** The fragments, in order, joined. */
  function Concat(fragments: seq<string>): (r: string)
    ensures |r| >= (if fragments == [] then 0 else |fragments[|fragments| - 1]|)
  {
    if fragments == [] then "" else Concat(fragments[..|fragments| - 1]) + fragments[|fragments| - 1]
  }

  /** One text event per fragment, in order. */
  function TextEvents(fragments: seq<string>): (r: seq<StreamEvent>)
    ensures |r| == |fragments|
    ensures forall i :: 0 <= i < |r| ==> r[i] == TextEvent(fragments[i])
  {
    if fragments == [] then [] else TextEvents(fragments[..|fragments| - 1]) + [TextEvent(fragments[|fragments| - 1])]
  }

  /** The texts of the text events of a stream. */
  function Texts(events: seq<StreamEvent>): seq<string> {
    if events == [] then []
    else Texts(events[..|events| - 1]) + (if events[|events| - 1].TextEvent? then [events[|events| - 1].text] else [])
  }

  /** Reading back the text events gives the fragments they were made from. */
  lemma {:induction false} TextsOfTextEvents(fragments: seq<string>)
    ensures Texts(TextEvents(fragments)) == fragments
    decreases |fragments|
  {
    if fragments != [] {
      var init := fragments[..|fragments| - 1];
      var es := TextEvents(fragments);
      assert es[..|es| - 1] == TextEvents(init);
      TextsOfTextEvents(init);
    }
  }

  /** `caption`: the transcript of audio long enough to caption, else "". */
  function Caption(audio: Audio, recognize: Bytes -> Recognition): (t: string)
    ensures audio.Undecodable? ==> t == ""
    ensures audio.Decoded? && |audio.bytes| < MinCaptionBytes ==> t == ""
    ensures audio.Decoded? && |audio.bytes| >= MinCaptionBytes ==> t == recognize(audio.bytes).transcript
  {
    match audio
    case Undecodable => ""
    case Decoded(bytes) => if |bytes| < MinCaptionBytes then "" else recognize(bytes).transcript
  }

  /** The phase bookkeeping of an accepted answer, updated step by step as the handlers do. */
  method NextPhase(phase: Phase, questionNumber: int, total: int, lowTime: bool)
    returns (phase': Phase, questionNumber': int, shouldEnd: bool)
    ensures Decision(phase', questionNumber', shouldEnd) == Decide(phase, questionNumber, total, lowTime)
  {
    phase', questionNumber' := phase, questionNumber;
    if phase' == Greeting {
      phase', questionNumber' := Questions, 1;
    } else if phase' == Questions {
      questionNumber' := questionNumber' + 1;
    }
    shouldEnd := false;
    if questionNumber' > total || lowTime {
      phase', shouldEnd := Ending, true;
    }
  }

  /** The reply to a too-short transcript: the repeat request, the counter and phase as they were. */
  function ShortReply(s: Session, t: string, nowMs: int, audio: Bytes): (r: VoiceReply)
    ensures r.userTranscript == t && r.aiResponse == RepeatMessage && !r.shouldEnd
    ensures r.history == ShortTurn(s, t).history
    ensures r.phase == s.phase && r.questionNumber == s.questionNumber && r.totalQuestions == s.config.questionCount
    ensures r.timeRemaining == Some(ReportedSeconds(RemainingMs(s, nowMs)))
  {
    VoiceReply(t, RepeatMessage, audio, ShortTurn(s, t).history, s.questionNumber, s.config.questionCount, s.phase,
               false, Some(ReportedSeconds(RemainingMs(s, nowMs))))
  }

  /** The reply to an accepted answer: the new counter and phase, and whether the interview is over. */
  function AcceptedReply(s: Session, t: string, answer: string, nowMs: int, audio: Bytes): (r: VoiceReply)
    ensures var next := Advance(s, t, answer, LowTime(RemainingMs(s, nowMs)));
      r.history == next.history && r.phase == next.phase && r.questionNumber == next.questionNumber
    ensures r.userTranscript == t && r.aiResponse == answer && r.totalQuestions == s.config.questionCount
    ensures r.shouldEnd <==> r.questionNumber > s.config.questionCount || LowTime(RemainingMs(s, nowMs))
    ensures r.shouldEnd ==> r.phase == Ending
    ensures r.timeRemaining == Some(ReportedSeconds(RemainingMs(s, nowMs)))
  {
    var low := LowTime(RemainingMs(s, nowMs));
    var d := Decide(s.phase, s.questionNumber, s.config.questionCount, low);
    VoiceReply(t, answer, audio, Advance(s, t, answer, low).history, d.questionNumber, s.config.questionCount,
               d.phase, d.shouldEnd, Some(ReportedSeconds(RemainingMs(s, nowMs))))
  }

  /** The handler's loop over the fragments: each is sent as a text event and added to the reply. */
  method Relay(fragments: seq<string>) returns (aiText: string, events: seq<StreamEvent>)
    ensures aiText == Concat(fragments)
    ensures events == TextEvents(fragments)
  {
    aiText := "";
    events := [];
    for i := 0 to |fragments|
      invariant aiText == Concat(fragments[..i])
      invariant events == TextEvents(fragments[..i])
    {
      assert fragments[..i + 1][..i] == fragments[..i];
      aiText := aiText + fragments[i];
      events := events + [TextEvent(fragments[i])];
    }
    assert fragments[..|fragments|] == fragments;
  }

  /** The only event of a too-short streamed turn. */
  function ShortFinal(s: Session, nowMs: int, audio: Bytes): (e: StreamEvent)
    ensures e.FinalEvent? && e.aiResponse == RepeatMessage && !e.shouldEnd
    ensures e.phase == s.phase && e.questionNumber == s.questionNumber && e.totalQuestions == s.config.questionCount
    ensures e.timeRemaining == ReportedSeconds(RemainingMs(s, nowMs))
  {
    FinalEvent(RepeatMessage, audio, s.questionNumber, s.config.questionCount, s.phase, false,
               ReportedSeconds(RemainingMs(s, nowMs)))
  }

  /** The last event of an accepted streamed turn. */
  function AcceptedFinal(s: Session, answer: string, nowMs: int, audio: Bytes): (e: StreamEvent)
    ensures e.FinalEvent? && e.aiResponse == answer && e.totalQuestions == s.config.questionCount
    ensures var d := Decide(s.phase, s.questionNumber, s.config.questionCount, LowTime(RemainingMs(s, nowMs)));
      e.phase == d.phase && e.questionNumber == d.questionNumber
    ensures e.shouldEnd <==> e.questionNumber > s.config.questionCount || LowTime(RemainingMs(s, nowMs))
    ensures e.timeRemaining == ReportedSeconds(RemainingMs(s, nowMs))
  {
    var d := Decide(s.phase, s.questionNumber, s.config.questionCount, LowTime(RemainingMs(s, nowMs)));
    FinalEvent(answer, audio, d.questionNumber, s.config.questionCount, d.phase, d.shouldEnd,
               ReportedSeconds(RemainingMs(s, nowMs)))
  }

  /** The text events of an accepted streamed turn spell out the reply its final event carries. */
  lemma StreamSpellsReply(fragments: seq<string>, s: Session, nowMs: int, audio: Bytes)
    ensures var events := TextEvents(fragments) + [AcceptedFinal(s, Concat(fragments), nowMs, audio)];
      Concat(Texts(events)) == events[|events| - 1].aiResponse
  {
    var final := AcceptedFinal(s, Concat(fragments), nowMs, audio);
    var events := TextEvents(fragments) + [final];
    assert events[..|events| - 1] == TextEvents(fragments);
    assert events[|events| - 1] == final && final.FinalEvent?;
    assert Texts(events) == Texts(TextEvents(fragments));
    TextsOfTextEvents(fragments);
  }

  // ---------------------------------------------------------------- the server

  /** Every record of the map is one the handlers can produce. */
  predicate AllCoherent(sessions: map<string, Session>) {
    forall id | id in sessions :: Coherent(sessions[id])
  }

  /** Storing a coherent record, or removing one, keeps every record coherent. */
  lemma StoreKeepsCoherent(sessions: map<string, Session>, id: string, s: Session)
    requires AllCoherent(sessions) && Coherent(s)
    ensures AllCoherent(sessions[id := s]) && AllCoherent(sessions - {id})
  {
  }

  /** The module-level `session_data` and the durable store it writes to. */
  class InterviewServer {
    var sessions: map<string, Session>
    var storeLog: seq<StoreWrite>
    const storeConfigured: bool

    /** Every stored record is one the handlers can produce. */
    predicate Valid()
      reads this
    {
      AllCoherent(sessions)
    }

    constructor (configured: bool)
      ensures sessions == map[] && storeLog == [] && storeConfigured == configured
      ensures Valid()
    {
      sessions := map[];
      storeLog := [];
      storeConfigured := configured;
    }

    /**
     * `start`: picks the session id (the store's, else a demo id), greets,
     * and stores a record holding the greeting as its only turn.
     */
    method Start(req: StartRequest, nowMs: nat, insertedId: string, llm: Prompt -> Option<string>,
                 synthesize: string -> Bytes)
      returns (reply: StartReply)
      requires Valid()
      modifies this
      ensures Valid()
      ensures reply.greeting == OllamaAi.InitialGreeting(StartConfig(req).field, StartConfig(req).difficulty, llm)
      ensures reply.config == StartConfig(req) && reply.audio == synthesize(reply.greeting)
      ensures sessions == old(sessions)[reply.sessionId := NewSession(StartConfig(req), reply.greeting, nowMs)]
      ensures var attempted := req.userId != "" && storeConfigured;
        var row := SessionInsert(req.userId, req.interviewType, req.techStack.GetOr([]), DurationOf(req));
        && (!attempted ==> reply.sessionId == DemoId(nowMs) && storeLog == old(storeLog))
        && (attempted && insertedId == "" ==> reply.sessionId == DemoId(nowMs) && storeLog == old(storeLog) + [row])
        && (attempted && insertedId != "" ==>
              reply.sessionId == insertedId
              && storeLog == old(storeLog) + [row, TurnInsert(insertedId, Ai, reply.greeting, 1.0)])
    {
      var demo := false;
      var sessionId: string;
      if req.userId == "" || !storeConfigured {
        demo := true;
        sessionId := DemoId(nowMs);
      } else {
        storeLog := storeLog + [SessionInsert(req.userId, req.interviewType, req.techStack.GetOr([]), DurationOf(req))];
        sessionId := insertedId;
        if sessionId == "" {
          demo := true;
          sessionId := DemoId(nowMs);
        }
      }
      var config := StartConfig(req);
      var greeting := OllamaAi.InitialGreeting(config.field, config.difficulty, llm);
      var audio := synthesize(greeting);
      StoreKeepsCoherent(sessions, sessionId, NewSession(config, greeting, nowMs));
      sessions := sessions[sessionId := NewSession(config, greeting, nowMs)];
      if !demo && sessionId != "" {
        storeLog := storeLog + [TurnInsert(sessionId, Ai, greeting, 1.0)];
      }
      reply := StartReply(sessionId, greeting, audio, config);
    }

    /**
     * `voice`: one blocking turn. Unreadable or quiet audio changes nothing,
     * and the reply built for unreadable audio lacks `timeRemaining`, so the
     * response check turns it into a 500; a too-short transcript records the
     * user's turn only; an accepted one moves the phase, records both turns
     * and writes them to the store.
     */
    method Voice(audio: Audio, sessionId: string, interviewType: string, nowMs: int,
                 recognize: Bytes -> Recognition, llm: Prompt -> Option<string>, pick: nat,
                 synthesize: string -> Bytes)
      returns (out: Result<VoiceReply, int>)
      requires Valid()
      modifies this
      ensures Valid()
      ensures out.Err? <==> audio.Undecodable?
      ensures audio.Undecodable? ==>
        sessions == old(sessions) && storeLog == old(storeLog) && out == Err(500)
      ensures audio.Decoded? && |audio.bytes| < MinVoiceBytes ==>
        sessions == old(sessions) && storeLog == old(storeLog) && out == Ok(QuietReply(old(sessions), sessionId))
      ensures audio.Decoded? && |audio.bytes| >= MinVoiceBytes ==>
        var s := Lookup(old(sessions), sessionId, nowMs);
        var heard := recognize(audio.bytes);
        var t := heard.transcript;
        && (TooShort(t) ==>
              && sessions == old(sessions)[sessionId := ShortTurn(s, t)]
              && storeLog == old(storeLog)
              && out == Ok(ShortReply(s, t, nowMs, synthesize(RepeatMessage))))
        && (!TooShort(t) ==>
              var answer := OllamaAi.InterviewReply(t, TurnContext(sessionId, interviewType, s, t, nowMs), llm, pick);
              var low := LowTime(RemainingMs(s, nowMs));
              && sessions == old(sessions)[sessionId := Advance(s, t, answer, low)]
              && storeLog == old(storeLog) + TurnWrites(storeConfigured, sessionId, t, heard.confidence, answer)
              && out == Ok(AcceptedReply(s, t, answer, nowMs, synthesize(answer))))
    {
      if audio.Undecodable? {
        return Validated(UnreadableReply(sessions, sessionId));
      }
      if |audio.bytes| < MinVoiceBytes {
        return Validated(QuietReply(sessions, sessionId));
      }
      var s := Lookup(sessions, sessionId, nowMs);
      var heard := recognize(audio.bytes);
      if TooShort(heard.transcript) {
        StoreKeepsCoherent(sessions, sessionId, ShortTurn(s, heard.transcript));
        sessions := sessions[sessionId := ShortTurn(s, heard.transcript)];
        out := Validated(ShortReply(s, heard.transcript, nowMs, synthesize(RepeatMessage)));
      } else {
        var reply := AcceptAnswer(sessionId, interviewType, s, heard, nowMs, llm, pick, synthesize);
        out := Validated(reply);
      }
    }

    /** The accepted branch of `voice`: the phase step, the reply, both turns stored and written. */
    method AcceptAnswer(sessionId: string, interviewType: string, s: Session, heard: Recognition, nowMs: int,
                        llm: Prompt -> Option<string>, pick: nat, synthesize: string -> Bytes)
      returns (reply: VoiceReply)
      requires Valid() && Coherent(s)
      modifies this
      ensures Valid()
      ensures var t := heard.transcript;
        var answer := OllamaAi.InterviewReply(t, TurnContext(sessionId, interviewType, s, t, nowMs), llm, pick);
        && sessions == old(sessions)[sessionId := Advance(s, t, answer, LowTime(RemainingMs(s, nowMs)))]
        && storeLog == old(storeLog) + TurnWrites(storeConfigured, sessionId, t, heard.confidence, answer)
        && reply == AcceptedReply(s, t, answer, nowMs, synthesize(answer))
    {
      var t := heard.transcript;
      var remMs := RemainingMs(s, nowMs);
      var phase, questionNumber, shouldEnd := NextPhase(s.phase, s.questionNumber, s.config.questionCount, LowTime(remMs));
      var history := s.history + [Turn(User, t)];
      var ctx := GenerationContext(sessionId, interviewType, s.config.field, s.config.difficulty, questionNumber,
                                   s.config.questionCount, phase, remMs, history, false);
      var answer := OllamaAi.GenerateInterviewResponse(t, ctx, llm, pick);
      history := history + [Turn(Ai, answer)];
      var next := s.(history := history, phase := phase, questionNumber := questionNumber);
      assert next == Advance(s, t, answer, LowTime(remMs));
      StoreTurn(sessionId, next, t, heard.confidence, answer);
      reply := VoiceReply(t, answer, synthesize(answer), history, questionNumber, s.config.questionCount, phase,
                          shouldEnd, Some(ReportedSeconds(remMs)));
    }

    /** Both turns of an accepted answer: the advanced record stored, the user's and the AI's rows written. */
    method StoreTurn(sessionId: string, next: Session, t: string, confidence: real, answer: string)
      requires Valid() && Coherent(next)
      modifies this
      ensures Valid()
      ensures sessions == old(sessions)[sessionId := next]
      ensures storeLog == old(storeLog) + TurnWrites(storeConfigured, sessionId, t, confidence, answer)
    {
      StoreKeepsCoherent(sessions, sessionId, next);
      sessions := sessions[sessionId := next];
      storeLog := storeLog + TurnWrites(storeConfigured, sessionId, t, confidence, answer);
    }

    /**
     * `voice_stream`: one streamed turn. A missing transcript is "". For a known
     * session the non-empty transcript is appended to the stored history before
     * the length test, so a too-short one stays recorded although the record is
     * not otherwise touched; an accepted one streams the reply's fragments and
     * then a final event carrying their concatenation.
     */
    method VoiceStream(heard: Option<Recognition>, sessionId: string, interviewType: string, nowMs: int,
                       stream: Prompt -> OllamaAi.StreamBody, synthesize: string -> Bytes)
      returns (events: seq<StreamEvent>)
      requires Valid()
      modifies this
      ensures Valid()
      ensures var s := Lookup(old(sessions), sessionId, nowMs);
        var t := if heard.Some? then heard.value.transcript else "";
        var accepted := heard.Some? && !TooShort(heard.value.transcript);
        && (!accepted ==>
              && events == [ShortFinal(s, nowMs, synthesize(RepeatMessage))]
              && storeLog == old(storeLog)
              && sessions == (if sessionId in old(sessions) && t != "" then old(sessions)[sessionId := ShortTurn(s, t)]
                              else old(sessions)))
        && (accepted ==>
              var fragments := OllamaAi.Fragments(stream(OllamaAi.PromptFor(t, TurnContext(sessionId, interviewType, s, t, nowMs))));
              var answer := Concat(fragments);
              && events == TextEvents(fragments) + [AcceptedFinal(s, answer, nowMs, synthesize(answer))]
              && sessions == old(sessions)[sessionId := Advance(s, t, answer, LowTime(RemainingMs(s, nowMs)))]
              && storeLog == old(storeLog) + TurnWrites(storeConfigured, sessionId, t, heard.value.confidence, answer))
    {
      var t := if heard.Some? then heard.value.transcript else "";
      var s := Lookup(sessions, sessionId, nowMs);
      if heard.None? || TooShort(t) {
        // the append through the aliased history list, the only trace of a too-short turn
        if t != "" && sessionId in sessions {
          StoreKeepsCoherent(sessions, sessionId, ShortTurn(s, t));
          sessions := sessions[sessionId := ShortTurn(s, t)];
        }
        events := [ShortFinal(s, nowMs, synthesize(RepeatMessage))];
      } else {
        // the aliased append is overwritten by the record stored at the end of the turn
        events := StreamAnswer(sessionId, interviewType, s, heard.value, nowMs, stream, synthesize);
      }
    }

    /** The accepted branch of `voice_stream`: the fragments as they come, then the final event. */
    method StreamAnswer(sessionId: string, interviewType: string, s: Session, heard: Recognition, nowMs: int,
                        stream: Prompt -> OllamaAi.StreamBody, synthesize: string -> Bytes)
      returns (events: seq<StreamEvent>)
      requires Valid() && Coherent(s)
      modifies this
      ensures Valid()
      ensures var t := heard.transcript;
        var fragments := OllamaAi.Fragments(stream(OllamaAi.PromptFor(t, TurnContext(sessionId, interviewType, s, t, nowMs))));
        var answer := Concat(fragments);
        && events == TextEvents(fragments) + [AcceptedFinal(s, answer, nowMs, synthesize(answer))]
        && sessions == old(sessions)[sessionId := Advance(s, t, answer, LowTime(RemainingMs(s, nowMs)))]
        && storeLog == old(storeLog) + TurnWrites(storeConfigured, sessionId, t, heard.confidence, answer)
    {
      var t := heard.transcript;
      var remMs := RemainingMs(s, nowMs);
      var phase, questionNumber, shouldEnd := NextPhase(s.phase, s.questionNumber, s.config.questionCount, LowTime(remMs));
      var ctx := TurnContext(sessionId, interviewType, s, t, nowMs);
      var fragments := OllamaAi.StreamInterviewResponse(t, ctx, stream);
      var aiText;
      aiText, events := Relay(fragments);
      var next := s.(history := s.history + [Turn(User, t), Turn(Ai, aiText)], phase := phase, questionNumber := questionNumber);
      assert next == Advance(s, t, aiText, LowTime(remMs));
      StoreTurn(sessionId, next, t, heard.confidence, aiText);
      var final := FinalEvent(aiText, synthesize(aiText), questionNumber, s.config.questionCount, phase,
                              shouldEnd, ReportedSeconds(remMs));
      assert final == AcceptedFinal(s, aiText, nowMs, synthesize(aiText));
      events := events + [final];
    }

    /**
     * `evaluate`: the scorecard of the stored conversation, or of an empty one
     * with the default config, as the response check lets it through: a parsed
     * reply missing a required key is answered with 500.
     */
    method Evaluate(sessionId: string, llm: Prompt -> Option<string>, parse: string -> Option<Scorecard>)
      returns (out: Result<Scorecard, int>)
      ensures sessionId in sessions ==>
        out == ValidatedScorecard(OllamaAi.Evaluation(sessions[sessionId].history, sessions[sessionId].config.field,
                                                      sessions[sessionId].config.difficulty, llm, parse))
      ensures sessionId !in sessions ==>
        out == ValidatedScorecard(OllamaAi.Evaluation([], "general", "intermediate", llm, parse))
      ensures out.Ok? ==> WellShaped(out.value) || exists raw :: parse(raw) == Some(out.value)
      ensures out.Err? ==> out.error == 500 && exists raw :: parse(raw).Some? && !Complete(parse(raw).value)
    {
      var c;
      if sessionId in sessions {
        var s := sessions[sessionId];
        c := OllamaAi.GenerateEvaluation(s.history, s.config.field, s.config.difficulty, llm, parse);
      } else {
        c := OllamaAi.GenerateEvaluation([], "general", "intermediate", llm, parse);
      }
      out := ValidatedScorecard(c);
    }

    /** `end`: forgets the session and marks a durable one completed. */
    method End(sessionId: string)
      requires Valid()
      modifies this
      ensures Valid()
      ensures sessions == old(sessions) - {sessionId}
      ensures storeLog == old(storeLog) + (if Persisted(storeConfigured, sessionId) then [CompletionUpdate(sessionId)] else [])
    {
      if sessionId in sessions {
        sessions := sessions - {sessionId};
      }
      if Persisted(storeConfigured, sessionId) {
        storeLog := storeLog + [CompletionUpdate(sessionId)];
      }
    }
  }
}
