/**
 * Scoring of code answers in the scripted interview backend: the test-case
 * pipeline of backend/app/services/code_evaluation_pipeline.py (pass counting
 * plus three structure checks) and the single-output scorer of
 * backend/app/services/evaluator.py. Running the code and analysing its syntax
 * tree are the parameters `run` and `analyze`; the analyser gives `None` for
 * code that does not parse, where `ast.parse` raises.
 */
module CodeScoring {
  import opened Wrappers
  import opened Text

  /** One test case: what is fed to the program and what it should print. */
  datatype TestCase = TestCase(input: string, output: string)

  /** What the syntax-tree analyser reports about a program. */
  datatype Analysis = Analysis(loops: int, functions: int, recursion: bool)

  /** What `evaluate_code_submission` returns. */
  datatype CodeResult = CodeResult(passedCases: nat, totalCases: nat, analysis: Analysis, finalScore: real)

  /** A test passes when the output and the expectation agree once stripped. */
  predicate Passes(output: string, expected: string) {
    PyStrip(output) == PyStrip(expected)
  }

  predicate PassesCase(code: string, c: TestCase, run: (string, string) -> string) {
    Passes(run(code, c.input), c.output)
  }

  /** Whether each case passes, in order. */
  function Verdicts(code: string, cases: seq<TestCase>, run: (string, string) -> string): (v: seq<bool>)
    ensures |v| == |cases|
  {
    seq(|cases|, i requires 0 <= i < |cases| => PassesCase(code, cases[i], run))
  }

  /** The number of `true` entries. */
  function CountTrue(v: seq<bool>): (n: nat)
    ensures n <= |v|
  {
    if v == [] then 0 else CountTrue(v[..|v| - 1]) + (if v[|v| - 1] then 1 else 0)
  }

  /** Counting one more entry adds one exactly when it is `true`. */
  lemma CountTrueStep(v: seq<bool>, i: nat)
    requires i < |v|
    ensures CountTrue(v[..i + 1]) == CountTrue(v[..i]) + (if v[i] then 1 else 0)
  {
    assert v[..i + 1][..i] == v[..i];
  }

  /** All entries are `true` exactly when the count is the length. */
  lemma {:induction false} CountTrueAll(v: seq<bool>)
    ensures CountTrue(v) == |v| <==> forall i :: 0 <= i < |v| ==> v[i]
  {
    if v != [] {
      var init := v[..|v| - 1];
      CountTrueAll(init);
      assert forall i :: 0 <= i < |init| ==> init[i] == v[i];
    }
  }

  /** No entry is `true` exactly when the count is zero. */
  lemma {:induction false} CountTrueNone(v: seq<bool>)
    ensures CountTrue(v) == 0 <==> forall i :: 0 <= i < |v| ==> !v[i]
  {
    if v != [] {
      var init := v[..|v| - 1];
      CountTrueNone(init);
      assert forall i :: 0 <= i < |init| ==> init[i] == v[i];
    }
  }

  /** The number of cases the program passes. */
  function PassCount(code: string, cases: seq<TestCase>, run: (string, string) -> string): (n: nat)
    ensures n <= |cases|
  {
    CountTrue(Verdicts(code, cases, run))
  }

  /** Every case passes exactly when the count reaches the number of cases. */
  lemma PassCountFull(code: string, cases: seq<TestCase>, run: (string, string) -> string)
    ensures PassCount(code, cases, run) == |cases| <==> forall i :: 0 <= i < |cases| ==> PassesCase(code, cases[i], run)
  {
    var v := Verdicts(code, cases, run);
    CountTrueAll(v);
    forall i | 0 <= i < |cases| ensures v[i] == PassesCase(code, cases[i], run) { }
  }

  /** No case passes exactly when the count is zero. */
  lemma PassCountZero(code: string, cases: seq<TestCase>, run: (string, string) -> string)
    ensures PassCount(code, cases, run) == 0 <==> forall i :: 0 <= i < |cases| ==> !PassesCase(code, cases[i], run)
  {
    var v := Verdicts(code, cases, run);
    CountTrueNone(v);
    forall i | 0 <= i < |cases| ensures v[i] == PassesCase(code, cases[i], run) { }
  }

  /** `(passed / total) * 70`, exactly. */
  function Correctness(passed: nat, total: nat): (c: real)
    requires 0 < total && passed <= total
    ensures 0.0 <= c <= 70.0
    ensures c == 70.0 <==> passed == total
    ensures c == 0.0 <==> passed == 0
  {
    (passed as real / total as real) * 70.0
  }

  /** Ten points for each of: at most one loop, at least one function, no recursion. */
  function StructureScore(a: Analysis): (s: int)
    ensures s == 0 || s == 10 || s == 20 || s == 30
    ensures s == 30 <==> a.loops <= 1 && a.functions >= 1 && !a.recursion
    ensures s == 0 <==> a.loops > 1 && a.functions < 1 && a.recursion
  {
    (if a.loops <= 1 then 10 else 0) + (if a.functions >= 1 then 10 else 0) + (if !a.recursion then 10 else 0)
  }

  /**
   * What `evaluate_code_submission` computes: the cases passed, their number,
   * the analysis and the weighted correctness plus the structure points; no
   * result when the code does not parse, where the analysis raises. The
   * source divides by the number of cases, so it needs at least one.
   */
  function Scored(code: string, cases: seq<TestCase>, run: (string, string) -> string,
                  analyze: string -> Option<Analysis>): (r: Option<CodeResult>)
    requires |cases| > 0
    ensures r.None? <==> analyze(code).None?
    ensures r.Some? ==> r.value.analysis == analyze(code).value
    ensures r.Some? ==> r.value.passedCases == PassCount(code, cases, run) <= r.value.totalCases == |cases|
    ensures r.Some? ==> 0.0 <= r.value.finalScore <= 100.0
  {
    var passed := PassCount(code, cases, run);
    match analyze(code)
    case None => None
    case Some(a) => Some(CodeResult(passed, |cases|, a, Correctness(passed, |cases|) + StructureScore(a) as real))
  }

  /** The test-case loop of `evaluate_code_submission`: one pass counted per matching output. */
  method CountPasses(code: string, cases: seq<TestCase>, run: (string, string) -> string) returns (passed: nat)
    ensures passed == PassCount(code, cases, run)
  {
    ghost var v := Verdicts(code, cases, run);
    passed := 0;
    for i := 0 to |cases|
      invariant passed == CountTrue(v[..i])
    {
      CountTrueStep(v, i);
      var output := run(code, cases[i].input);
      if PyStrip(output) == PyStrip(cases[i].output) {
        passed := passed + 1;
      }
    }
    assert v[..|cases|] == v;
  }

  /**
   * `evaluate_code_submission`: the counted passes and the accumulated
   * structure points; `None` when the analysis raises on code that does not parse.
   */
  method EvaluateCodeSubmission(code: string, cases: seq<TestCase>, run: (string, string) -> string,
                                analyze: string -> Option<Analysis>) returns (result: Option<CodeResult>)
    requires |cases| > 0
    ensures result == Scored(code, cases, run, analyze)
  {
    var passed := CountPasses(code, cases, run);
    var total := |cases|;
    var correctness := Correctness(passed, total);
    var analysis := analyze(code);
    if analysis.None? {
      return None;
    }
    var astResult := analysis.value;
    var structure := 0;
    if astResult.loops <= 1 {
      structure := structure + 10;
    }
    if astResult.functions >= 1 {
      structure := structure + 10;
    }
    if !astResult.recursion {
      structure := structure + 10;
    }
    assert structure == StructureScore(astResult);
    result := Some(CodeResult(passed, total, astResult, correctness + structure as real));
  }

  /** A program that passes every case scores at least 70, and exactly 100 when it is also well structured. */
  lemma AllPassingScores(code: string, cases: seq<TestCase>, run: (string, string) -> string, a: Analysis)
    requires |cases| > 0 && forall i :: 0 <= i < |cases| ==> PassesCase(code, cases[i], run)
    ensures var score := Correctness(PassCount(code, cases, run), |cases|) + StructureScore(a) as real;
      && 70.0 <= score
      && (score == 100.0 <==> a.loops <= 1 && a.functions >= 1 && !a.recursion)
  {
    PassCountFull(code, cases, run);
  }

  /** A program that passes no case scores only its structure points, at most 30. */
  lemma NonePassingScores(code: string, cases: seq<TestCase>, run: (string, string) -> string, a: Analysis)
    requires |cases| > 0 && forall i :: 0 <= i < |cases| ==> !PassesCase(code, cases[i], run)
    ensures Correctness(PassCount(code, cases, run), |cases|) + StructureScore(a) as real <= 30.0
  {
    PassCountZero(code, cases, run);
  }

  /** `evaluate_code`: 70 points for the expected output, 10 more for any output at all. */
  method EvaluateCode(output: string, expected: string) returns (score: int)
    ensures score == 0 || score == 10 || score == 70 || score == 80
    ensures score >= 70 <==> output == expected
    ensures score == 10 || score == 80 <==> output != ""
  {
    score := 0;
    if output == expected {
      score := score + 70;
    }
    if |output| > 0 {
      score := score + 10;
    }
  }
}
