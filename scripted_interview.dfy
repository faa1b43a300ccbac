/**
 * The scripted question-and-answer interview of the backend: the in-memory
 * session store (backend/app/services/interview_session.py), the fixed
 * question list (backend/app/data/questions.py) and the three handlers of
 * backend/app/api/interview.py. The session id generator, the text evaluator,
 * the code runner and the code analyser are parameters; the analyser gives
 * `None` for code that does not parse.
 */
module ScriptedInterview {
  import opened Wrappers
  import opened CodeScoring

  // ---------------------------------------------------------------- questions

  datatype Question =
    | TextQuestion(id: int, question: string, idealAnswer: string)
    | CodeQuestion(id: int, question: string, testCases: seq<TestCase>)

  const RestQuestion := "Explain what a REST API is."
  const RestIdeal := "REST API is a stateless communication system between client and server using HTTP."
  const TupleQuestion := "What is the difference between list and tuple in Python?"
  const TupleIdeal := "Lists are mutable while tuples are immutable in Python."
  const SquareQuestion := "Write a program to print square of a number."

  /** `QUESTIONS`: two text questions, then one code question with two test cases. */
  const Questions: seq<Question> := [
    TextQuestion(1, RestQuestion, RestIdeal),
    TextQuestion(2, TupleQuestion, TupleIdeal),
    CodeQuestion(3, SquareQuestion, [TestCase("5", "25"), TestCase("2", "4")])
  ]

  // ---------------------------------------------------------------- session records

  /** An answer as stored: the text, or the code with its question and result. */
  datatype Answer =
    | TextAnswer(text: string)
    | CodeAnswer(question: string, code: string, result: CodeResult)

  /** One session: its user, the index of the current question, the answers so far and the running score. */
  datatype Record = Record(userId: string, currentQuestion: nat, answers: seq<Answer>, score: real)

  /** Why a handler fails: HTTP 400 for a bad session or a non-code question, 500 for an uncaught exception. */
  datatype Failure = InvalidSession | NotCodeQuestion | Crash

  function StatusOf(f: Failure): (code: int)
    ensures code == 500 <==> f == Crash
    ensures code == 400 <==> f != Crash
  {
    if f == Crash then 500 else 400
  }

  /** The record an answer leaves behind: one more answer, the points added, the next question. */
  function Answered(r: Record, a: Answer, points: real): Record {
    Record(r.userId, r.currentQuestion + 1, r.answers + [a], r.score + points)
  }

  /** No session disappears, changes user or goes back a question. */
  ghost predicate Grows(before: map<string, Record>, after: map<string, Record>) {
    forall id :: id in before ==>
      id in after && after[id].userId == before[id].userId &&
      before[id].currentQuestion <= after[id].currentQuestion
  }

  // ---------------------------------------------------------------- the store

  /** The module-level `_sessions` dictionary and its three operations. */
  class SessionStore {
    var sessions: map<string, Record>

    constructor ()
      ensures sessions == map[]
    {
      sessions := map[];
    }

    /**
     * `start_session`: a fresh record under a new id. The id is the uuid the
     * source draws; a fresh uuid is not already in use.
     */
    method StartSession(userId: string, freshId: string) returns (id: string)
      requires freshId !in sessions
      modifies this
      ensures id == freshId
      ensures sessions == old(sessions)[id := Record(userId, 0, [], 0.0)]
      ensures Grows(old(sessions), sessions)
    {
      id := freshId;
      sessions := sessions[id := Record(userId, 0, [], 0.0)];
    }

    /** `get_session`: the stored record, or the failure for an unknown id. */
    function GetSession(id: string): (r: Result<Record, Failure>)
      reads this
      ensures r.Ok? <==> id in sessions
      ensures r.Ok? ==> r.value == sessions[id]
      ensures r.Err? ==> r.error == InvalidSession
    {
      if id in sessions then Ok(sessions[id]) else Err(InvalidSession)
    }

    /** `advance_question`: the current question of one session moves on by one; nothing else changes. */
    method AdvanceQuestion(id: string)
      requires id in sessions
      modifies this
      ensures sessions == old(sessions)[id := old(sessions)[id].(currentQuestion := old(sessions)[id].currentQuestion + 1)]
      ensures Grows(old(sessions), sessions)
    {
      var r := sessions[id];
      sessions := sessions[id := r.(currentQuestion := r.currentQuestion + 1)];
    }
  }

  // ---------------------------------------------------------------- the handlers

  /** What a handler reports after an accepted answer. */
  datatype Progress = Finished(finalScore: real) | Next(question: Question)

  /** Finished once the index has run past the last question, else the question now due. */
  function ProgressOf(r: Record): (p: Progress)
    ensures p.Finished? <==> r.currentQuestion >= |Questions|
    ensures p.Finished? ==> p.finalScore == r.score
    ensures p.Next? ==> p.question == Questions[r.currentQuestion]
  {
    if r.currentQuestion >= |Questions| then Finished(r.score) else Next(Questions[r.currentQuestion])
  }

  /** The code handler's reply: the code result travels with the next question only. */
  datatype CodeProgress = CodeFinished(finalScore: real) | CodeNext(codeResult: CodeResult, question: Question)

  /** Finished with the total once the index has run past the last question, else the result and the question now due. */
  function CodeProgressOf(r: Record, result: CodeResult): (p: CodeProgress)
    ensures p.CodeFinished? <==> r.currentQuestion >= |Questions|
    ensures p.CodeFinished? ==> p.finalScore == r.score
    ensures p.CodeNext? ==> p.codeResult == result && p.question == Questions[r.currentQuestion]
  {
    if r.currentQuestion >= |Questions| then CodeFinished(r.score) else CodeNext(result, Questions[r.currentQuestion])
  }

  /** `start_interview_api`: a new session and the first question. */
  method StartInterview(store: SessionStore, userId: string, freshId: string) returns (id: string, question: Question)
    requires freshId !in store.sessions
    modifies store
    ensures id == freshId && question == Questions[0]
    ensures store.sessions == old(store.sessions)[id := Record(userId, 0, [], 0.0)]
  {
    id := store.StartSession(userId, freshId);
    question := Questions[0];
  }

  /**
   * `submit_text_answer`. An unknown session, an index past the end and a
   * code question (it has no ideal answer) all raise uncaught, leaving every
   * session as it was; otherwise the evaluator's points are added, the answer
   * appended and the session advanced.
   */
  method SubmitText(store: SessionStore, sessionId: string, answer: string,
                    evaluateText: (string, string) -> real) returns (out: Result<Progress, Failure>)
    modifies store
    ensures out.Err? ==> out.error == Crash && store.sessions == old(store.sessions)
    ensures out.Ok? <==>
      && sessionId in old(store.sessions)
      && old(store.sessions)[sessionId].currentQuestion < |Questions|
      && Questions[old(store.sessions)[sessionId].currentQuestion].TextQuestion?
    ensures out.Ok? ==>
      var r := old(store.sessions)[sessionId];
      var r' := Answered(r, TextAnswer(answer), evaluateText(answer, Questions[r.currentQuestion].idealAnswer));
      && store.sessions == old(store.sessions)[sessionId := r']
      && out.value == ProgressOf(r')
    ensures Grows(old(store.sessions), store.sessions)
  {
    var session := store.GetSession(sessionId);
    if session.Err? {
      return Err(Crash);
    }
    var r := session.value;
    if r.currentQuestion >= |Questions| || !Questions[r.currentQuestion].TextQuestion? {
      return Err(Crash);
    }
    var q := Questions[r.currentQuestion];
    var score := evaluateText(answer, q.idealAnswer);
    store.sessions := store.sessions[sessionId := r.(score := r.score + score, answers := r.answers + [TextAnswer(answer)])];
    store.AdvanceQuestion(sessionId);
    out := Ok(ProgressOf(store.sessions[sessionId]));
  }

  /**
   * `submit_code_answer`. An unknown session is a 400, an index past the end
   * raises uncaught, a question that is not a code question is a 400, and
   * code that does not parse raises uncaught from the analysis; all four
   * leave every session as it was. Otherwise the submission is scored against
   * the question's test cases, its final score added, the answer recorded and
   * the session advanced.
   */
  method SubmitCode(store: SessionStore, sessionId: string, code: string,
                    run: (string, string) -> string, analyze: string -> Option<Analysis>)
    returns (out: Result<CodeProgress, Failure>)
    modifies store
    ensures out.Err? ==> store.sessions == old(store.sessions)
    ensures out == Err(InvalidSession) <==> sessionId !in old(store.sessions)
    ensures out == Err(Crash) <==>
      && sessionId in old(store.sessions)
      && var i := old(store.sessions)[sessionId].currentQuestion;
         i >= |Questions| || (Questions[i].CodeQuestion? && analyze(code).None?)
    ensures out == Err(NotCodeQuestion) <==>
      && sessionId in old(store.sessions)
      && old(store.sessions)[sessionId].currentQuestion < |Questions|
      && !Questions[old(store.sessions)[sessionId].currentQuestion].CodeQuestion?
    ensures out.Ok? <==>
      && sessionId in old(store.sessions)
      && var i := old(store.sessions)[sessionId].currentQuestion;
         i < |Questions| && Questions[i].CodeQuestion? && analyze(code).Some?
    ensures out.Ok? ==>
      var r := old(store.sessions)[sessionId];
      var q := Questions[r.currentQuestion];
      var result := Scored(code, q.testCases, run, analyze).value;
      var r' := Answered(r, CodeAnswer(q.question, code, result), result.finalScore);
      && store.sessions == old(store.sessions)[sessionId := r']
      && out.value == CodeProgressOf(r', result)
    ensures Grows(old(store.sessions), store.sessions)
  {
    var session := store.GetSession(sessionId);
    if session.Err? {
      return Err(InvalidSession);
    }
    var r := session.value;
    if r.currentQuestion >= |Questions| {
      return Err(Crash);
    }
    var q := Questions[r.currentQuestion];
    if !q.CodeQuestion? {
      return Err(NotCodeQuestion);
    }
    CodeQuestionsHaveCases(r.currentQuestion);
    var result := EvaluateCodeSubmission(code, q.testCases, run, analyze);
    if result.None? {
      return Err(Crash);
    }
    var reply := AcceptCode(store, sessionId, q, code, result.value);
    out := Ok(reply);
  }

  /** The accepted branch of `submit_code_answer`: record the scored answer, advance, reply. */
  method AcceptCode(store: SessionStore, sessionId: string, q: Question, code: string, result: CodeResult)
    returns (reply: CodeProgress)
    requires sessionId in store.sessions && q.CodeQuestion? && |q.testCases| > 0
    modifies store
    ensures var r := old(store.sessions)[sessionId];
      var r' := Answered(r, CodeAnswer(q.question, code, result), result.finalScore);
      && store.sessions == old(store.sessions)[sessionId := r']
      && reply == CodeProgressOf(r', result)
  {
    var r := store.sessions[sessionId];
    var entry := CodeAnswer(q.question, code, result);
    store.sessions := store.sessions[sessionId := r.(score := r.score + result.finalScore, answers := r.answers + [entry])];
    store.AdvanceQuestion(sessionId);
    var r' := store.sessions[sessionId];
    reply := CodeProgressOf(r', result);
  }

  // ---------------------------------------------------------------- the script

  /** Every code question of the script has test cases, so scoring it never divides by zero. */
  lemma CodeQuestionsHaveCases(i: nat)
    requires i < |Questions| && Questions[i].CodeQuestion?
    ensures |Questions[i].testCases| > 0
  {
  }

  /**
   * The whole script from a fresh session: two text answers then one code
   * answer finish the interview with the sum of the three scores; the text
   * handler accepts exactly the first two questions and the code handler
   * exactly the third.
   */
  lemma ScriptRunsToTheEnd(userId: string, a1: string, a2: string, t1: real, t2: real, c: Answer, final: real)
    ensures var r0 := Record(userId, 0, [], 0.0);
      var r1 := Answered(r0, TextAnswer(a1), t1);
      var r2 := Answered(r1, TextAnswer(a2), t2);
      var r3 := Answered(r2, c, final);
      && ProgressOf(r1) == Next(Questions[1]) && ProgressOf(r2) == Next(Questions[2])
      && ProgressOf(r3) == Finished(t1 + t2 + final)
      && r3.answers == [TextAnswer(a1), TextAnswer(a2), c]
      && Questions[r0.currentQuestion].TextQuestion? && Questions[r1.currentQuestion].TextQuestion?
      && Questions[r2.currentQuestion].CodeQuestion?
  {
  }
}
