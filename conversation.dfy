/**
 * The data model of a voice interview session, shared by the Python server
 * (api_py/main.py) and its TypeScript twin (api/routes/interview.ts), and the
 * phase transition both apply to an accepted turn.
 */
module Conversation {

  /** Raw audio or synthesized speech. */
  type Bytes = seq<bv8>

  datatype Speaker = User | Ai

  /** One utterance: a candidate answer or an interviewer line. */
  datatype Turn = Turn(speaker: Speaker, text: string)

  /** The conversation moves forward only: greeting, then questions, then ending. */
  datatype Phase = Greeting | Questions | Ending

  function Rank(p: Phase): nat {
    match p
    case Greeting => 0
    case Questions => 1
    case Ending => 2
  }

  /** The interview settings fixed at start; `timeLimit` is in minutes. */
  datatype Config = Config(
    field: string,
    difficulty: string,
    questionCount: int,
    timeLimit: int,
    interviewType: string,
    techStack: seq<string>)

  /** One entry of the in-memory session map; `startMs` is the wall clock at creation. */
  datatype Session = Session(
    config: Config,
    history: seq<Turn>,
    phase: Phase,
    questionNumber: int,
    startMs: int)

  /** A session state the handlers can produce: the counter is 0 exactly while greeting. */
  predicate Coherent(s: Session) {
    && s.questionNumber >= 0
    && (s.phase == Greeting ==> s.questionNumber == 0)
    && (s.phase == Questions ==> s.questionNumber >= 1)
  }

  /** What an accepted turn decides: the next phase, the counter and whether to wrap up. */
  datatype Decision = Decision(phase: Phase, questionNumber: int, shouldEnd: bool)

  /**
   * The phase transition of an accepted turn: greeting moves to question 1,
   * a question moves to the next one, ending stays put; the interview then ends
   * when the question budget is exceeded or time is short (`lowTime`).
   */
  function Decide(phase: Phase, qn: int, total: int, lowTime: bool): (d: Decision)
    ensures d.shouldEnd <==> (d.questionNumber > total || lowTime)
    ensures d.shouldEnd ==> d.phase == Ending
    ensures !d.shouldEnd ==> d.phase == (if phase == Ending then Ending else Questions)
    ensures phase == Greeting ==> d.questionNumber == 1
    ensures phase == Questions ==> d.questionNumber == qn + 1
    ensures phase == Ending ==> d.questionNumber == qn && d.phase == Ending
  {
    var next := if phase == Greeting then 1 else if phase == Questions then qn + 1 else qn;
    var end := next > total || lowTime;
    Decision(if end || phase == Ending then Ending else Questions, next, end)
  }

  /**
   * The transition only moves forward, never returns to the greeting, and never
   * lowers the counter of a coherent session; the result is coherent again.
   */
  lemma DecideMovesForward(s: Session, total: int, lowTime: bool)
    requires Coherent(s)
    ensures var d := Decide(s.phase, s.questionNumber, total, lowTime);
      && Rank(d.phase) >= Rank(s.phase)
      && d.phase != Greeting
      && d.questionNumber >= s.questionNumber
      && (s.phase != Ending ==> d.questionNumber == s.questionNumber + 1)
      && Coherent(s.(phase := d.phase, questionNumber := d.questionNumber))
  {
  }
}
