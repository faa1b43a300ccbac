/**
 * The TypeScript twin of the voice-interview server (api/routes/interview.ts):
 * the same session map and phase transition as the Python server, with
 * JavaScript's falsy-value defaults, whole-second time arithmetic, no length
 * gate on the streamed turn, and every thrown error answered with HTTP 500.
 * Speech recognition (`None` when it threw), speech synthesis (`None` when it
 * threw), the opening question and the reply generator are parameters; the
 * durable store is the append-only log of the writes the routes issue.
 */
module ExpressRoutes {
  import opened Wrappers
  import opened Text
  import opened Conversation
  import opened VoiceServer

  /** How a route answers: 400, 500, or a JSON body. */
  datatype Outcome<T> = BadRequest | ServerError | Done(value: T)

  /** `x || d` on a number: 0 is falsy. */
  function OrInt(x: int, d: int): (r: int)
    ensures x != 0 ==> r == x
    ensures x == 0 ==> r == d
  {
    if x == 0 then d else x
  }

  /** `x || d` on a string: "" is falsy. */
  function OrStr(x: string, d: string): (r: string)
    ensures x != "" ==> r == x
    ensures x == "" ==> r == d
  {
    if x == "" then d else x
  }

  // ---------------------------------------------------------------- time

  /** `timeLimit * 60 - Math.floor(elapsedMs / 1000)`: whole seconds left. */
  function RemainingSeconds(s: Session, nowMs: int): int {
    s.config.timeLimit * 60 - (nowMs - s.startMs) / 1000
  }

  /** `timeRemaining < 30`, on whole seconds. */
  predicate JsLowTime(s: Session, nowMs: int) {
    RemainingSeconds(s, nowMs) < 30
  }

  /** `Math.max(0, timeRemaining)`. */
  function ClampedSeconds(s: Session, nowMs: int): (r: int)
    ensures r >= 0 && r >= RemainingSeconds(s, nowMs)
    ensures RemainingSeconds(s, nowMs) >= 0 ==> r == RemainingSeconds(s, nowMs)
  {
    if RemainingSeconds(s, nowMs) > 0 then RemainingSeconds(s, nowMs) else 0
  }

  /**
   * The two servers agree on when time is short except in one second: the
   * TypeScript test holds exactly when at most 29 seconds remain, the Python
   * one as soon as fewer than 30 do.
   */
  lemma LowTimeOfTwins(s: Session, nowMs: int)
    ensures JsLowTime(s, nowMs) <==> RemainingMs(s, nowMs) <= 29000
    ensures JsLowTime(s, nowMs) ==> LowTime(RemainingMs(s, nowMs))
  {
    var e := nowMs - s.startMs;
    var m := s.config.timeLimit * 60;
    assert RemainingMs(s, nowMs) == 1000 * m - e;
    var q, r := e / 1000, e % 1000;
    assert e == 1000 * q + r && 0 <= r < 1000;
    if q >= m - 29 {
      assert 1000 * q >= 1000 * (m - 29);
    } else {
      assert 1000 * q <= 1000 * (m - 30);
    }
  }

  // ---------------------------------------------------------------- start

  /** The `/start` body; absent fields read as their falsy value. */
  datatype StartBody = StartBody(
    userId: string,
    interviewType: string,
    techStack: seq<string>,
    duration: int,
    field: string,
    difficulty: string,
    questionCount: int,
    timeLimit: int)

  /** The config `/start` stores: each falsy field replaced by its default. */
  function StartConfigOf(body: StartBody): (c: Config)
    ensures c.field == OrStr(body.field, "general") && c.difficulty == OrStr(body.difficulty, "intermediate")
    ensures c.questionCount == OrInt(body.questionCount, 5) && c.timeLimit == OrInt(body.timeLimit, 10)
    ensures c.interviewType == body.interviewType && c.techStack == body.techStack
    ensures c.field != "" && c.difficulty != "" && c.questionCount != 0 && c.timeLimit != 0
  {
    Config(OrStr(body.field, "general"), OrStr(body.difficulty, "intermediate"), OrInt(body.questionCount, 5),
           OrInt(body.timeLimit, 10), body.interviewType, body.techStack)
  }

  /** `session?.id || null`, then `demo-<now>` when there is none. */
  function SessionIdOf(insertedId: Option<string>, nowMs: nat): (id: string)
    ensures insertedId.Some? && insertedId.value != "" ==> id == insertedId.value
    ensures insertedId.None? || insertedId.value == "" ==> id == DemoId(nowMs)
    ensures id != ""
  {
    if insertedId.Some? && insertedId.value != "" then insertedId.value else DemoId(nowMs)
  }

  /** The greeting row `/start` writes, unless the id is a demo id. */
  function GreetingWrites(id: string, greeting: string): (w: seq<StoreWrite>)
    ensures w == [] <==> IsDemoId(id)
    ensures w != [] ==> w == [TurnInsert(id, Ai, greeting, 1.0)]
  {
    if IsDemoId(id) then [] else [TurnInsert(id, Ai, greeting, 1.0)]
  }

  // ---------------------------------------------------------------- turns

  /** What the reply generator is given: the whole conversation, not a window of it. */
  datatype AiRequest = AiRequest(transcript: string, interviewType: string, techStack: seq<string>,
                                 previousTurns: seq<Turn>)

  /** The bodies of `/voice` and `/voice_stream`; absent fields read as "". */
  datatype VoiceBody = VoiceBody(audioData: string, sessionId: string, interviewType: string)

  /** `!t || t.trim().length < 5`. */
  predicate JsTooShort(t: string) {
    |JsTrim(t)| < 5
  }

  /** The request `/voice` sends for an accepted answer: the history already holds the answer. */
  function VoiceAiRequest(body: VoiceBody, s: Session, t: string): (q: AiRequest)
    ensures q.previousTurns == s.history + [Turn(User, t)]
    ensures q.interviewType == OrStr(body.interviewType, "technical") && q.techStack == s.config.techStack
    ensures q.transcript == t
  {
    AiRequest(t, OrStr(body.interviewType, "technical"), s.config.techStack, s.history + [Turn(User, t)])
  }

  /** The two rows an accepted `/voice` turn writes, or none for a demo id. */
  function JsTurnWrites(id: string, t: string, confidence: real, answer: string): (w: seq<StoreWrite>)
    ensures w == [] <==> IsDemoId(id)
    ensures w != [] ==> w == [TurnInsert(id, User, t, confidence), TurnInsert(id, Ai, answer, 1.0)]
  {
    if IsDemoId(id) then [] else [TurnInsert(id, User, t, confidence), TurnInsert(id, Ai, answer, 1.0)]
  }

  /** The reply to a too-short transcript. */
  function JsShortReply(s: Session, t: string, nowMs: int, audio: Bytes): (r: VoiceReply)
    ensures r.userTranscript == t && r.aiResponse == RepeatMessage && !r.shouldEnd
    ensures r.history == ShortTurn(s, t).history && r.phase == s.phase && r.questionNumber == s.questionNumber
    ensures r.timeRemaining == Some(ClampedSeconds(s, nowMs))
  {
    VoiceReply(t, RepeatMessage, audio, ShortTurn(s, t).history, s.questionNumber, s.config.questionCount,
               s.phase, false, Some(ClampedSeconds(s, nowMs)))
  }

  /** The reply to an accepted answer. */
  function JsAcceptedReply(s: Session, t: string, answer: string, nowMs: int, audio: Bytes): (r: VoiceReply)
    ensures var next := Advance(s, t, answer, JsLowTime(s, nowMs));
      r.history == next.history && r.phase == next.phase && r.questionNumber == next.questionNumber
    ensures r.userTranscript == t && r.aiResponse == answer
    ensures r.shouldEnd <==> r.questionNumber > s.config.questionCount || JsLowTime(s, nowMs)
    ensures r.timeRemaining == Some(ClampedSeconds(s, nowMs))
  {
    var d := Decide(s.phase, s.questionNumber, s.config.questionCount, JsLowTime(s, nowMs));
    VoiceReply(t, answer, audio, Advance(s, t, answer, JsLowTime(s, nowMs)).history, d.questionNumber,
               s.config.questionCount, d.phase, d.shouldEnd, Some(ClampedSeconds(s, nowMs)))
  }

  /**
   * A streamed turn: the transcript joins the history only when non-empty, the
   * reply always does, and the phase moves as for an accepted answer.
   */
  function StreamAdvance(s: Session, t: string, answer: string, lowTime: bool): (r: Session)
    ensures r.history == s.history + (if t != "" then [Turn(User, t)] else []) + [Turn(Ai, answer)]
    ensures var d := Decide(s.phase, s.questionNumber, s.config.questionCount, lowTime);
      r.phase == d.phase && r.questionNumber == d.questionNumber
    ensures r.config == s.config && r.startMs == s.startMs
    ensures Coherent(s) ==> Coherent(r)
  {
    var d := Decide(s.phase, s.questionNumber, s.config.questionCount, lowTime);
    s.(history := s.history + (if t != "" then [Turn(User, t)] else []) + [Turn(Ai, answer)],
       phase := d.phase, questionNumber := d.questionNumber)
  }

  /** The request `/voice_stream` sends: possibly an empty transcript, over the whole history. */
  function StreamAiRequest(body: VoiceBody, s: Session, t: string): (q: AiRequest)
    ensures q.previousTurns == s.history + (if t != "" then [Turn(User, t)] else [])
    ensures q.interviewType == OrStr(body.interviewType, "technical") && q.techStack == s.config.techStack
  {
    AiRequest(t, OrStr(body.interviewType, "technical"), s.config.techStack,
              s.history + (if t != "" then [Turn(User, t)] else []))
  }

  // ---------------------------------------------------------------- the record voice_stream stores

  /** A stored record as the routes can leave it: the spread of a missing session has no config and no start time. */
  datatype StoredRecord = StoredRecord(config: Option<Config>, history: seq<Turn>, phase: Phase,
                                       questionNumber: int, startMs: Option<int>)

  /** A full session, as a stored record. */
  function Stored(s: Session): (r: StoredRecord)
    ensures r.config == Some(s.config) && r.startMs == Some(s.startMs)
    ensures r.history == s.history && r.phase == s.phase && r.questionNumber == s.questionNumber
  {
    StoredRecord(Some(s.config), s.history, s.phase, s.questionNumber, Some(s.startMs))
  }

  /**
   * A record `/voice` can serve: it reads `config.questionCount` and
   * `config.timeLimit` of the stored record, which throw when it has no config.
   */
  predicate Servable(r: StoredRecord) {
    r.config.Some?
  }

  /**
   * `{ ...(session||{}), conversationHistory, phase, questionNumber }` as
   * written: for an id with no session, the defaults the handler computed with
   * are not stored.
   */
  function StreamRecordAsWritten(session: Option<Session>, t: string, answer: string, nowMs: int): (r: StoredRecord)
    ensures session.None? ==> r.config.None? && r.startMs.None? && !Servable(r)
    ensures session.Some? ==> r == Stored(StreamAdvance(session.value, t, answer, JsLowTime(session.value, nowMs)))
  {
    var s := if session.Some? then session.value else Session(DefaultConfig, [], Greeting, 0, nowMs);
    var next := StreamAdvance(s, t, answer, JsLowTime(s, nowMs));
    if session.Some? then Stored(next)
    else StoredRecord(None, next.history, next.phase, next.questionNumber, None)
  }

  /** A stream turn on an id that was never started leaves a record every later `/voice` on it fails on. */
  lemma StreamOnUnknownIdBreaksVoice(t: string, answer: string, nowMs: int)
    ensures !Servable(StreamRecordAsWritten(None, t, answer, nowMs))
    ensures StreamRecordAsWritten(None, t, answer, nowMs).history[|StreamRecordAsWritten(None, t, answer, nowMs).history| - 1]
         == Turn(Ai, answer)
  {
  }

  /** The record `/voice_stream` is meant to store: the session it computed with, advanced, defaults included. */
  function StreamRecord(sessions: map<string, Session>, id: string, t: string, answer: string, nowMs: int): (r: Session)
    ensures var s := Lookup(sessions, id, nowMs);
      r == StreamAdvance(s, t, answer, JsLowTime(s, nowMs))
    ensures Servable(Stored(r))
    ensures id !in sessions ==> r.config == DefaultConfig && r.startMs == nowMs
    ensures id in sessions ==> Stored(r) == StreamRecordAsWritten(Some(sessions[id]), t, answer, nowMs)
    ensures AllCoherent(sessions) ==> Coherent(r)
  {
    var s := Lookup(sessions, id, nowMs);
    StreamAdvance(s, t, answer, JsLowTime(s, nowMs))
  }

  /** `/caption`: 400 without audio, 500 when recognition throws, else the transcript. */
  function JsCaption(audioData: string, recognize: string -> Option<Recognition>): (out: Outcome<string>)
    ensures out == BadRequest <==> audioData == ""
    ensures audioData != "" && recognize(audioData).None? ==> out == ServerError
    ensures audioData != "" && recognize(audioData).Some? ==> out == Done(recognize(audioData).value.transcript)
  {
    if audioData == "" then BadRequest
    else if recognize(audioData).None? then ServerError
    else Done(recognize(audioData).value.transcript)
  }

  // ---------------------------------------------------------------- the server

  /** The module-level `sessionData` and the durable store it writes to. */
  class ExpressServer {
    var sessions: map<string, Session>
    var storeLog: seq<StoreWrite>

    /** Every stored record is one the routes can produce. */
    predicate Valid()
      reads this
    {
      AllCoherent(sessions)
    }

    constructor ()
      ensures sessions == map[] && storeLog == [] && Valid()
    {
      sessions := map[];
      storeLog := [];
    }

    /**
     * `/start`: the insert is always attempted; without an id back the session
     * gets a demo id. The greeting row is written unless the id is a demo id.
     */
    method Start(body: StartBody, nowMs: nat, insertedId: Option<string>, opener: (string, seq<string>) -> string,
                 synthesize: string -> Option<Bytes>)
      returns (out: Outcome<StartReply>)
      requires Valid()
      modifies this
      ensures Valid()
      ensures body.userId == "" || body.interviewType == "" ==>
        out == BadRequest && sessions == old(sessions) && storeLog == old(storeLog)
      ensures body.userId != "" && body.interviewType != "" ==>
        var id := SessionIdOf(insertedId, nowMs);
        var greeting := opener(body.interviewType, body.techStack);
        var row := SessionInsert(body.userId, body.interviewType, body.techStack, OrInt(body.duration, 30));
        && (synthesize(greeting).None? ==>
              out == ServerError && sessions == old(sessions) && storeLog == old(storeLog) + [row])
        && (synthesize(greeting).Some? ==>
              && out == Done(StartReply(id, greeting, synthesize(greeting).value, StartConfigOf(body)))
              && sessions == old(sessions)[id := NewSession(StartConfigOf(body), greeting, nowMs)]
              && storeLog == old(storeLog) + [row] + GreetingWrites(id, greeting))
    {
      if body.userId == "" || body.interviewType == "" {
        return BadRequest;
      }
      storeLog := storeLog + [SessionInsert(body.userId, body.interviewType, body.techStack, OrInt(body.duration, 30))];
      var id := SessionIdOf(insertedId, nowMs);
      var greeting := opener(body.interviewType, body.techStack);
      var audio := synthesize(greeting);
      if audio.None? {
        return ServerError;
      }
      var config := StartConfigOf(body);
      StoreKeepsCoherent(sessions, id, NewSession(config, greeting, nowMs));
      sessions := sessions[id := NewSession(config, greeting, nowMs)];
      storeLog := storeLog + GreetingWrites(id, greeting);
      out := Done(StartReply(id, greeting, audio.value, config));
    }

    /**
     * `/voice`: one blocking turn. A too-short transcript is recorded (through
     * the shared history list even when synthesis then throws); an accepted one
     * moves the phase, records both turns, and writes them unless the id is a
     * demo id.
     */
    method Voice(body: VoiceBody, nowMs: int, recognize: string -> Option<Recognition>, ai: AiRequest -> string,
                 synthesize: string -> Option<Bytes>)
      returns (out: Outcome<VoiceReply>)
      requires Valid()
      modifies this
      ensures Valid()
      ensures body.audioData == "" || body.sessionId == "" || recognize(body.audioData).None? ==>
        sessions == old(sessions) && storeLog == old(storeLog)
        && out == (if body.audioData == "" || body.sessionId == "" then BadRequest else ServerError)
      ensures body.audioData != "" && body.sessionId != "" && recognize(body.audioData).Some? ==>
        var id := body.sessionId;
        var s := Lookup(old(sessions), id, nowMs);
        var heard := recognize(body.audioData).value;
        var t := heard.transcript;
        && (JsTooShort(t) ==>
              && storeLog == old(storeLog)
              && (synthesize(RepeatMessage).None? ==>
                    out == ServerError &&
                    sessions == (if id in old(sessions) then old(sessions)[id := ShortTurn(s, t)] else old(sessions)))
              && (synthesize(RepeatMessage).Some? ==>
                    out == Done(JsShortReply(s, t, nowMs, synthesize(RepeatMessage).value)) &&
                    sessions == old(sessions)[id := ShortTurn(s, t)]))
        && (!JsTooShort(t) ==>
              var answer := ai(VoiceAiRequest(body, s, t));
              && sessions == old(sessions)[id := Advance(s, t, answer, JsLowTime(s, nowMs))]
              && (synthesize(answer).None? ==> out == ServerError && storeLog == old(storeLog))
              && (synthesize(answer).Some? ==>
                    out == Done(JsAcceptedReply(s, t, answer, nowMs, synthesize(answer).value)) &&
                    storeLog == old(storeLog) + JsTurnWrites(id, t, heard.confidence, answer)))
    {
      if body.audioData == "" || body.sessionId == "" {
        return BadRequest;
      }
      var heard := recognize(body.audioData);
      if heard.None? {
        return ServerError;
      }
      var s := Lookup(sessions, body.sessionId, nowMs);
      if JsTooShort(heard.value.transcript) {
        out := RecordShortAnswer(body.sessionId, s, heard.value.transcript, nowMs, synthesize);
      } else {
        out := AcceptAnswer(body, s, heard.value, nowMs, ai, synthesize);
      }
    }

    /** The too-short branch of `/voice`. */
    method RecordShortAnswer(id: string, s: Session, t: string, nowMs: int, synthesize: string -> Option<Bytes>)
      returns (out: Outcome<VoiceReply>)
      requires Valid() && Coherent(s)
      requires id in sessions ==> s == sessions[id]
      modifies this
      ensures Valid() && storeLog == old(storeLog)
      ensures synthesize(RepeatMessage).None? ==>
        out == ServerError &&
        sessions == (if id in old(sessions) then old(sessions)[id := ShortTurn(s, t)] else old(sessions))
      ensures synthesize(RepeatMessage).Some? ==>
        out == Done(JsShortReply(s, t, nowMs, synthesize(RepeatMessage).value)) &&
        sessions == old(sessions)[id := ShortTurn(s, t)]
    {
      // the push reaches a stored session through its shared history list at once
      var known := id in sessions;
      if known {
        StoreKeepsCoherent(sessions, id, ShortTurn(s, t));
        sessions := sessions[id := ShortTurn(s, t)];
      }
      var audio := synthesize(RepeatMessage);
      if audio.None? {
        return ServerError;
      }
      StoreKeepsCoherent(sessions, id, ShortTurn(s, t));
      sessions := sessions[id := ShortTurn(s, t)];
      out := Done(JsShortReply(s, t, nowMs, audio.value));
    }

    /** The accepted branch of `/voice`. */
    method AcceptAnswer(body: VoiceBody, s: Session, heard: Recognition, nowMs: int, ai: AiRequest -> string,
                        synthesize: string -> Option<Bytes>)
      returns (out: Outcome<VoiceReply>)
      requires Valid() && Coherent(s)
      modifies this
      ensures Valid()
      ensures var t := heard.transcript;
        var answer := ai(VoiceAiRequest(body, s, t));
        && sessions == old(sessions)[body.sessionId := Advance(s, t, answer, JsLowTime(s, nowMs))]
        && (synthesize(answer).None? ==> out == ServerError && storeLog == old(storeLog))
        && (synthesize(answer).Some? ==>
              out == Done(JsAcceptedReply(s, t, answer, nowMs, synthesize(answer).value)) &&
              storeLog == old(storeLog) + JsTurnWrites(body.sessionId, t, heard.confidence, answer))
    {
      var t := heard.transcript;
      var phase, questionNumber, shouldEnd :=
        NextPhase(s.phase, s.questionNumber, s.config.questionCount, RemainingSeconds(s, nowMs) < 30);
      var answer := ai(AiRequest(t, OrStr(body.interviewType, "technical"), s.config.techStack,
                                 s.history + [Turn(User, t)]));
      var next := s.(history := s.history + [Turn(User, t), Turn(Ai, answer)], phase := phase,
                     questionNumber := questionNumber);
      assert next == Advance(s, t, answer, JsLowTime(s, nowMs));
      StoreKeepsCoherent(sessions, body.sessionId, next);
      sessions := sessions[body.sessionId := next];
      var audio := synthesize(answer);
      if audio.None? {
        return ServerError;
      }
      storeLog := storeLog + JsTurnWrites(body.sessionId, t, heard.confidence, answer);
      out := Done(VoiceReply(t, answer, audio.value, next.history, questionNumber, s.config.questionCount, phase,
                             shouldEnd, Some(ClampedSeconds(s, nowMs))));
    }

    /**
     * `/voice_stream`: no length gate; the turn always advances and the reply
     * is sent as one final event. Nothing is written to the durable store. An
     * id never started gets the corrected record `StreamRecord`, not the
     * config-less one the code stores (`StreamRecordAsWritten`).
     */
    method VoiceStream(body: VoiceBody, nowMs: int, recognize: string -> Option<Recognition>, ai: AiRequest -> string,
                       synthesize: string -> Option<Bytes>)
      returns (out: Outcome<StreamEvent>)
      requires Valid()
      modifies this
      ensures Valid() && storeLog == old(storeLog)
      ensures body.audioData == "" || body.sessionId == "" || recognize(body.audioData).None? ==>
        sessions == old(sessions)
        && out == (if body.audioData == "" || body.sessionId == "" then BadRequest else ServerError)
      ensures body.audioData != "" && body.sessionId != "" && recognize(body.audioData).Some? ==>
        var id := body.sessionId;
        var s := Lookup(old(sessions), id, nowMs);
        var t := recognize(body.audioData).value.transcript;
        var answer := ai(StreamAiRequest(body, s, t));
        var next := StreamRecord(old(sessions), id, t, answer, nowMs);
        && sessions == old(sessions)[id := next]
        && (synthesize(answer).None? ==> out == ServerError)
        && (synthesize(answer).Some? ==>
              out == Done(FinalEvent(answer, synthesize(answer).value, next.questionNumber, s.config.questionCount,
                                     next.phase, next.questionNumber > s.config.questionCount || JsLowTime(s, nowMs),
                                     ClampedSeconds(s, nowMs))))
    {
      if body.audioData == "" || body.sessionId == "" {
        return BadRequest;
      }
      var heard := recognize(body.audioData);
      if heard.None? {
        return ServerError;
      }
      out := StreamTurn(body, Lookup(sessions, body.sessionId, nowMs), heard.value.transcript, nowMs, ai, synthesize);
    }

    /** The turn of `/voice_stream` once the transcript is known. */
    method StreamTurn(body: VoiceBody, s: Session, t: string, nowMs: int, ai: AiRequest -> string,
                      synthesize: string -> Option<Bytes>)
      returns (out: Outcome<StreamEvent>)
      requires Valid() && s == Lookup(sessions, body.sessionId, nowMs)
      modifies this
      ensures Valid() && storeLog == old(storeLog)
      ensures var answer := ai(StreamAiRequest(body, s, t));
        var next := StreamRecord(old(sessions), body.sessionId, t, answer, nowMs);
        && sessions == old(sessions)[body.sessionId := next]
        && (synthesize(answer).None? ==> out == ServerError)
        && (synthesize(answer).Some? ==>
              out == Done(FinalEvent(answer, synthesize(answer).value, next.questionNumber, s.config.questionCount,
                                     next.phase, next.questionNumber > s.config.questionCount || JsLowTime(s, nowMs),
                                     ClampedSeconds(s, nowMs))))
    {
      var phase, questionNumber, shouldEnd :=
        NextPhase(s.phase, s.questionNumber, s.config.questionCount, RemainingSeconds(s, nowMs) < 30);
      var history := s.history;
      if t != "" {
        history := history + [Turn(User, t)];
      }
      var request := AiRequest(t, OrStr(body.interviewType, "technical"), s.config.techStack, history);
      assert request == StreamAiRequest(body, s, t);
      var answer := ai(request);
      history := history + [Turn(Ai, answer)];
      var next := s.(history := history, phase := phase, questionNumber := questionNumber);
      assert next == StreamRecord(sessions, body.sessionId, t, answer, nowMs);
      StoreKeepsCoherent(sessions, body.sessionId, next);
      sessions := sessions[body.sessionId := next];
      var audio := synthesize(answer);
      if audio.None? {
        return ServerError;
      }
      out := Done(FinalEvent(answer, audio.value, questionNumber, s.config.questionCount, phase, shouldEnd,
                             ClampedSeconds(s, nowMs)));
    }

    /** `/end`: forgets the session and always asks the store to complete it; a store error is a 500. */
    method End(sessionId: string, updateFails: bool) returns (out: Outcome<string>)
      requires Valid()
      modifies this
      ensures Valid()
      ensures sessionId == "" ==> out == BadRequest && sessions == old(sessions) && storeLog == old(storeLog)
      ensures sessionId != "" ==>
        && sessions == old(sessions) - {sessionId}
        && storeLog == old(storeLog) + [CompletionUpdate(sessionId)]
        && out == (if updateFails then ServerError else Done("completed"))
    {
      if sessionId == "" {
        return BadRequest;
      }
      StoreKeepsCoherent(sessions, sessionId, NewSession(DefaultConfig, "", 0));
      sessions := sessions - {sessionId};
      storeLog := storeLog + [CompletionUpdate(sessionId)];
      out := if updateFails then ServerError else Done("completed");
    }
  }
}
