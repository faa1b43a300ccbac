/**
 * The interview scoring route (routes/score.py): answers are labelled as
 * skipped or gibberish by a word-shape test before the transcript goes to the
 * model, and the model's scorecard is cut out of its reply, cleaned, parsed,
 * and has its selection chance capped at 95. The HTTP call is the parameter
 * `model`, the JSON parser the parameter `parse`, and the random token the
 * parameter `token`.
 */
module ScoreRoute {
  import opened Wrappers
  import opened Text
  import opened JsonClean

  // ---------------------------------------------------------------- words

  /** The length of the run of ASCII letters `s` starts with. */
  function LetterRun(s: string): (k: nat)
    ensures k <= |s|
    ensures forall i :: 0 <= i < k ==> IsAsciiLetter(s[i])
    ensures k < |s| ==> !IsAsciiLetter(s[k])
    decreases |s|
  {
    if s != [] && IsAsciiLetter(s[0]) then 1 + LetterRun(s[1..]) else 0
  }

  predicate AllLetters(w: string) {
    forall i :: 0 <= i < |w| ==> IsAsciiLetter(w[i])
  }

  predicate HasLetter(s: string) {
    exists i :: 0 <= i < |s| && IsAsciiLetter(s[i])
  }

  /** `re.findall(r'[a-zA-Z]+', s)`: the maximal runs of ASCII letters, in order. */
  function Words(s: string): (ws: seq<string>)
    ensures forall i :: 0 <= i < |ws| ==> ws[i] != "" && AllLetters(ws[i])
    decreases |s|
  {
    if s == [] then []
    else if !IsAsciiLetter(s[0]) then Words(s[1..])
    else
      var k := LetterRun(s);
      [s[..k]] + Words(s[k..])
  }

  /** A text has words exactly when it has a letter. */
  lemma {:induction false} WordsIffLetter(s: string)
    ensures Words(s) != [] <==> HasLetter(s)
    decreases |s|
  {
    if s != [] && !IsAsciiLetter(s[0]) {
      WordsIffLetter(s[1..]);
      if HasLetter(s[1..]) {
        var i :| 0 <= i < |s[1..]| && IsAsciiLetter(s[1..][i]);
        assert IsAsciiLetter(s[i + 1]);
      }
      if HasLetter(s) {
        var i :| 0 <= i < |s| && IsAsciiLetter(s[i]);
        assert s[1..][i - 1] == s[i];
      }
    } else if s != [] {
      assert IsAsciiLetter(s[0]);
    }
  }

  // ---------------------------------------------------------------- looks_real

  predicate IsVowel(c: char) {
    c in "aeiouAEIOU"
  }

  /** The number of non-vowels `w` ends with: the consonant streak after reading `w`. */
  function TrailingStreak(w: string): nat {
    if w == [] then 0
    else if IsVowel(w[|w| - 1]) then 0
    else TrailingStreak(w[..|w| - 1]) + 1
  }

  /** The streak never reaches 5 while reading `w`. */
  predicate NoLongStreak(w: string) {
    forall n :: 0 <= n <= |w| ==> TrailingStreak(w[..n]) < 5
  }

  predicate HasVowel(w: string) {
    exists i :: 0 <= i < |w| && IsVowel(w[i])
  }

  /** `looks_real`: short words pass; otherwise no five non-vowels in a row, and some vowel. */
  predicate LooksReal(w: string) {
    |w| <= 2 || (NoLongStreak(w) && HasVowel(w))
  }

  /** `looks_real`, the loop that counts the consonant streak and gives up at 5. */
  method LooksRealScan(w: string) returns (looksReal: bool)
    ensures looksReal == LooksReal(w)
  {
    if |w| <= 2 {
      return true;
    }
    var hasVowel := HasVowel(w);
    var streak := 0;
    for i := 0 to |w|
      invariant streak == TrailingStreak(w[..i])
      invariant forall n :: 0 <= n <= i ==> TrailingStreak(w[..n]) < 5
    {
      assert w[..i + 1][..i] == w[..i];
      if !IsVowel(w[i]) {
        streak := streak + 1;
        if streak >= 5 {
          assert TrailingStreak(w[..i + 1]) >= 5;
          return false;
        }
      } else {
        streak := 0;
      }
    }
    assert w[..|w|] == w;
    looksReal := hasVowel;
  }

  /** The streak after `k` non-vowels in a row is at least `k`. */
  lemma {:induction false} StreakCounts(w: string, i: nat, k: nat)
    requires i + k <= |w|
    requires forall j :: i <= j < i + k ==> !IsVowel(w[j])
    ensures TrailingStreak(w[..i + k]) >= k
  {
    if k > 0 {
      StreakCounts(w, i, k - 1);
      assert w[..i + k][..i + k - 1] == w[..i + k - 1];
    }
  }

  /** A word with five non-vowels in a row does not look real. */
  lemma FiveConsonantsNotReal(w: string, i: nat)
    requires i + 5 <= |w|
    requires forall j :: i <= j < i + 5 ==> !IsVowel(w[j])
    ensures !LooksReal(w)
  {
    StreakCounts(w, i, 5);
  }

  /** The number of words that look real. */
  function RealCount(ws: seq<string>): (n: nat)
    ensures n <= |ws|
  {
    if ws == [] then 0 else RealCount(ws[..|ws| - 1]) + (if LooksReal(ws[|ws| - 1]) then 1 else 0)
  }

  /** When every word looks real, all of them are counted. */
  lemma {:induction false} AllRealCounted(ws: seq<string>)
    requires forall i :: 0 <= i < |ws| ==> LooksReal(ws[i])
    ensures RealCount(ws) == |ws|
  {
    if ws != [] {
      AllRealCounted(ws[..|ws| - 1]);
    }
  }

  // ---------------------------------------------------------------- is_gibberish

  /** `is_gibberish`: blank, a placeholder, under 3 characters, no words, or under 40% real words. */
  predicate IsGibberish(text: string) {
    var t := PyStrip(text);
    if t == "" || t == "(Skipped)" || t == "(No answer given)" then true
    else if |t| < 3 then true
    else
      var ws := Words(t);
      ws == [] || RealCount(ws) * 5 < 2 * |ws|
  }

  /**
   * The early cases all count as gibberish; past them, the verdict is the
   * word ratio, so a text whose words all look real is never gibberish.
   */
  lemma GibberishCases(text: string)
    ensures var t := PyStrip(text);
      && (t in {"", "(Skipped)", "(No answer given)"} || |t| < 3 || !HasLetter(t) ==> IsGibberish(text))
      && (t !in {"", "(Skipped)", "(No answer given)"} && |t| >= 3 && HasLetter(t) ==>
            (IsGibberish(text) <==> RealCount(Words(t)) * 5 < 2 * |Words(t)|))
  {
    WordsIffLetter(PyStrip(text));
  }

  /** A text with a word, none of whose words looks made up, is not gibberish. */
  lemma RealWordsNotGibberish(text: string)
    requires var t := PyStrip(text); t !in {"", "(Skipped)", "(No answer given)"} && |t| >= 3 && HasLetter(t)
    requires forall i :: 0 <= i < |Words(PyStrip(text))| ==> LooksReal(Words(PyStrip(text))[i])
    ensures !IsGibberish(text)
  {
    WordsIffLetter(PyStrip(text));
    AllRealCounted(Words(PyStrip(text)));
  }

  // ---------------------------------------------------------------- annotate_qa

  /** One entry of `qa_pairs`; a missing key reads as "". */
  datatype QaPair = QaPair(question: string, answer: string)

  const SkippedLabel: string := "[SKIPPED - Score this answer as 0]"
  const GibberishLabel: string := "[GIBBERISH/INCOHERENT - Score this answer as 0 across all metrics]"

  /** The label of a stripped answer. */
  function Label(a: string): (l: string)
    ensures l == SkippedLabel <==> a == "(Skipped)" || a == ""
    ensures l == GibberishLabel <==> a != "(Skipped)" && a != "" && IsGibberish(a)
    ensures l == "" <==> a != "(Skipped)" && a != "" && !IsGibberish(a)
  {
    if a == "(Skipped)" || a == "" then SkippedLabel
    else if IsGibberish(a) then GibberishLabel
    else ""
  }

  /** The placeholder of an unanswered question is not skipped but labelled gibberish. */
  lemma NoAnswerIsGibberish(a: string)
    requires a == "(No answer given)"
    ensures Label(a) == GibberishLabel
  {
    assert a[0] == '(' && a[|a| - 1] == ')';
    StripOfUnpadded(a);
    PlaceholderIsGibberish(a);
    assert |a| != |"(Skipped)"|;
  }

  /** A text that strips to a placeholder is gibberish, whatever its words. */
  lemma PlaceholderIsGibberish(text: string)
    requires PyStrip(text) == "(No answer given)"
    ensures IsGibberish(text)
  {
  }

  /** `f"Q{i}: {q}\nA{i}: {a} {label}\n\n"`. */
  function EntryText(i: nat, q: string, a: string, tag: string): string {
    "Q" + NatToString(i) + ": " + q + "\nA" + NatToString(i) + ": " + a + " " + tag + "\n\n"
  }

  /** The entry of one pair: its stripped answer and that answer's label. */
  function Entry(i: nat, p: QaPair): string {
    var a := PyStrip(p.answer);
    EntryText(i, p.question, a, Label(a))
  }

  /** The texts `entry` gives the pairs, numbered from 1, one after the other. */
  function Numbered(pairs: seq<QaPair>, entry: (nat, QaPair) -> string): string {
    if pairs == [] then "" else Numbered(pairs[..|pairs| - 1], entry) + entry(|pairs|, pairs[|pairs| - 1])
  }

  /** The annotated entries of `pairs`. */
  function Annotated(pairs: seq<QaPair>): string {
    Numbered(pairs, Entry)
  }

  /** `annotate_qa`, the loop accumulating the entries. */
  method AnnotateQa(pairs: seq<QaPair>) returns (annotated: string)
    ensures annotated == Annotated(pairs)
  {
    annotated := "";
    for i := 0 to |pairs|
      invariant annotated == Annotated(pairs[..i])
    {
      var p := pairs[i];
      var a := PyStrip(p.answer);
      var tag: string;
      if a == "(Skipped)" || a == "" {
        tag := SkippedLabel;
      } else if IsGibberish(a) {
        tag := GibberishLabel;
      } else {
        tag := "";
      }
      var entry := EntryText(i + 1, p.question, a, tag);
      EntryOfPair(i + 1, p, a, tag);
      NumberedStep(pairs, i, Entry);
      annotated := annotated + entry;
    }
    assert pairs[..|pairs|] == pairs;
  }

  /** The text the loop builds for a pair is its entry. */
  lemma EntryOfPair(i: nat, p: QaPair, a: string, tag: string)
    requires a == PyStrip(p.answer) && tag == Label(a)
    ensures EntryText(i, p.question, a, tag) == Entry(i, p)
  {
  }

  /** The annotation of more pairs extends the annotation of the first ones: entries are numbered by position. */
  lemma AnnotatedExtends(pairs: seq<QaPair>, k: nat)
    requires k <= |pairs|
    ensures StartsWith(Annotated(pairs), Annotated(pairs[..k]))
  {
    NumberedExtends(pairs, k, Entry);
  }

  /** Numbering more pairs only appends to the text of the first ones. */
  lemma {:induction false} NumberedExtends(pairs: seq<QaPair>, k: nat, entry: (nat, QaPair) -> string)
    requires k <= |pairs|
    ensures StartsWith(Numbered(pairs, entry), Numbered(pairs[..k], entry))
    decreases |pairs|
  {
    if k < |pairs| {
      var init := pairs[..|pairs| - 1];
      assert init[..k] == pairs[..k];
      NumberedExtends(init, k, entry);
      var a := Numbered(init, entry);
      var e := entry(|pairs|, pairs[|pairs| - 1]);
      assert Numbered(pairs, entry)[..|a|] == a;
      assert Numbered(pairs, entry)[..|Numbered(pairs[..k], entry)|] == a[..|Numbered(pairs[..k], entry)|];
    } else {
      assert pairs[..k] == pairs;
    }
  }

  /** The first entry is numbered 1. */
  lemma FirstEntryIsOne(pairs: seq<QaPair>)
    requires pairs != []
    ensures StartsWith(Annotated(pairs), Entry(1, pairs[0]))
  {
    NumberedFirst(pairs, Entry);
  }

  /** The numbered text starts with the first pair's entry, numbered 1. */
  lemma NumberedFirst(pairs: seq<QaPair>, entry: (nat, QaPair) -> string)
    requires pairs != []
    ensures StartsWith(Numbered(pairs, entry), entry(1, pairs[0]))
  {
    NumberedExtends(pairs, 1, entry);
    NumberedStep(pairs, 0, entry);
    assert pairs[..0] == [];
  }

  /** Numbering one more pair appends its entry, numbered by its position. */
  lemma NumberedStep(pairs: seq<QaPair>, i: nat, entry: (nat, QaPair) -> string)
    requires i < |pairs|
    ensures Numbered(pairs[..i + 1], entry) == Numbered(pairs[..i], entry) + entry(i + 1, pairs[i])
  {
    assert pairs[..i + 1][..i] == pairs[..i];
  }

  // ---------------------------------------------------------------- score_interview

  /** The `/api/score` body, with the route's defaults for missing keys. */
  datatype ScoreRequest = ScoreRequest(field: Option<string>, level: Option<string>, qaPairs: seq<QaPair>,
                                       resumeText: string)

  /** What the model is asked: the position, the start of the resume, and the labelled answers. */
  datatype ScorePrompt = ScorePrompt(field: string, level: string, resume: string, qa: string)

  /** `resume_text[:800] if resume_text else 'Not provided'`. */
  function ResumeSummary(t: string): (r: string)
    ensures t == "" ==> r == "Not provided"
    ensures t != "" ==> |r| <= 800 && StartsWith(t, r) && (|t| >= 800 ==> |r| == 800) && (|t| < 800 ==> r == t)
  {
    if t == "" then "Not provided" else if |t| <= 800 then t else t[..800]
  }

  function PromptOf(req: ScoreRequest): ScorePrompt {
    ScorePrompt(req.field.GetOr("General"), req.level.GetOr("Intermediate"), ResumeSummary(req.resumeText),
                Annotated(req.qaPairs))
  }

  /** The scorecard as parsed: its `selection_chance` if present, and its other keys, uninterpreted. */
  datatype ScoreJson = ScoreJson(selectionChance: Option<int>, rest: map<string, string>)

  /** The body sent back: the scorecard with the capped chance and the token. */
  datatype ScoreBody = ScoreBody(selectionChance: int, tokenId: string, rest: map<string, string>)

  /** `min(result.get('selection_chance', 50), 95)`. */
  function CappedChance(chance: Option<int>): (c: int)
    ensures c <= 95
    ensures chance.None? ==> c == 50
    ensures chance.Some? && chance.value <= 95 ==> c == chance.value
    ensures chance.Some? && chance.value > 95 ==> c == 95
  {
    var v := chance.GetOr(50);
    if v < 95 then v else 95
  }

  /**
   * `score_interview`: 503 when the model is unreachable, 500 for any other
   * failure or when the reply has no braced object or it does not parse;
   * otherwise the capped scorecard with its token.
   */
  function ScoreInterview(req: ScoreRequest, model: ScorePrompt -> ModelReply, parse: string -> Option<ScoreJson>,
                          token: string): (out: RouteReply<ScoreBody>)
    ensures model(PromptOf(req)).ConnectionRefused? <==> out == Status(503)
    ensures !out.Served? && !model(PromptOf(req)).ConnectionRefused? ==> out == Status(500)
    ensures out.Served? <==>
      && model(PromptOf(req)).Replied?
      && var j := Extract(PyStrip(model(PromptOf(req)).response), '{', '}');
         j.Some? && parse(Clean(j.value)).Some?
    ensures out.Served? ==>
      && model(PromptOf(req)).Replied?
      && var raw := PyStrip(model(PromptOf(req)).response);
         var j := Extract(raw, '{', '}');
         && j.Some? && parse(Clean(j.value)).Some?
         && out.body == ScoreBody(CappedChance(parse(Clean(j.value)).value.selectionChance), token,
                                  parse(Clean(j.value)).value.rest)
    ensures out.Served? ==> out.body.selectionChance <= 95
    ensures model(PromptOf(req)).Replied? && Extract(PyStrip(model(PromptOf(req)).response), '{', '}').None? ==>
      out == Status(500)
  {
    var reply := model(PromptOf(req));
    if !reply.Replied? then Status(TransportStatus(reply))
    else
      var raw := PyStrip(reply.response);
      var j := Extract(raw, '{', '}');
      if j.None? then Status(500)
      else
        var parsed := parse(Clean(j.value));
        if parsed.None? then Status(500)
        else Served(ScoreBody(CappedChance(parsed.value.selectionChance), token, parsed.value.rest))
  }
}
