/**
 * The name heuristic of the resume route (routes/resume.py): the first of the
 * first five non-blank lines that has no `@`, digit, `|` or any of the
 * characters `â`, `€`, `¢`, at most five words and fewer than fifty
 * characters, else "Candidate". Reading the PDF is not part of this model.
 */
module Resume {
  import opened Text

  /** `s.split('\n')`: the pieces between newlines; there is always at least one. */
  function SplitLines(s: string): (r: seq<string>)
    ensures |r| >= 1
    ensures forall i :: 0 <= i < |r| ==> '\n' !in r[i]
    decreases |s|
  {
    if '\n' !in s then [s]
    else
      var k := FirstNewline(s);
      [s[..k]] + SplitLines(s[k + 1..])
  }

  function FirstNewline(s: string): (k: nat)
    requires '\n' in s
    ensures k < |s| && s[k] == '\n' && '\n' !in s[..k]
  {
    var k := Find(s, '\n');
    assert forall i :: 0 <= i < k ==> s[..k][i] == s[i];
    k
  }

  /** `[l.strip() for l in lines if l.strip()]`. */
  function NonBlank(lines: seq<string>): (r: seq<string>)
    ensures |r| <= |lines|
    ensures forall i :: 0 <= i < |r| ==> r[i] != "" && !IsPySpace(r[i][0]) && !IsPySpace(r[i][|r[i]| - 1])
  {
    if lines == [] then []
    else
      var t := PyStrip(lines[|lines| - 1]);
      NonBlank(lines[..|lines| - 1]) + (if t != "" then [t] else [])
  }

  /** The lines the search looks at: the first five non-blank ones, stripped. */
  function Candidates(text: string): (r: seq<string>)
    ensures |r| <= 5
  {
    var lines := NonBlank(SplitLines(text));
    if |lines| <= 5 then lines else lines[..5]
  }

  /** `[@\d\|â€¢]` as written: the characters a name line may not contain (digits ASCII only). */
  predicate Banned(c: char) {
    c == '@' || IsAsciiDigit(c) || c == '|' || c == 'â' || c == '€' || c == '¢'
  }

  predicate HasBanned(line: string, banned: char -> bool) {
    exists i :: 0 <= i < |line| && banned(line[i])
  }

  /** `len(line.split())`: the number of maximal runs of non-whitespace characters. */
  function WordCount(s: string): nat {
    if s == [] then 0
    else
      var n := |s| - 1;
      WordCount(s[..n]) + (if !IsPySpace(s[n]) && (n == 0 || IsPySpace(s[n - 1])) then 1 else 0)
  }

  /** A line that can be the name, for a given set of banned characters. */
  predicate Qualifies(line: string, banned: char -> bool) {
    !HasBanned(line, banned) && WordCount(line) <= 5 && |line| < 50
  }

  /** The index of the first qualifying line of `lines`, or `|lines|` when there is none. */
  function FirstQualifying(lines: seq<string>, banned: char -> bool): (k: nat)
    ensures k <= |lines|
    ensures k < |lines| ==> Qualifies(lines[k], banned)
    ensures forall j :: 0 <= j < k ==> !Qualifies(lines[j], banned)
  {
    if lines == [] then 0
    else if Qualifies(lines[0], banned) then 0
    else 1 + FirstQualifying(lines[1..], banned)
  }

  /** The line a search with `banned` settles on: the earliest qualifying candidate, else "Candidate". */
  function NameAmong(lines: seq<string>, banned: char -> bool): (r: string)
    ensures r == "Candidate" || r in lines
    ensures r != "Candidate" ==> Qualifies(r, banned)
    ensures (forall i :: 0 <= i < |lines| ==> !Qualifies(lines[i], banned)) ==> r == "Candidate"
  {
    var k := FirstQualifying(lines, banned);
    if k < |lines| then lines[k] else "Candidate"
  }

  /** `extract_name_from_text` as written. */
  function ExtractName(text: string): (r: string)
    ensures r == "Candidate" || r in Candidates(text)
    ensures r != "Candidate" ==> !HasBanned(r, Banned) && WordCount(r) <= 5 && |r| < 50
  {
    NameAmong(Candidates(text), Banned)
  }

  /**
   * The returned line is the earliest qualifying one among the first five:
   * every line before it is rejected.
   */
  lemma ExtractNameIsEarliest(text: string)
    ensures var lines := Candidates(text);
      var k := FirstQualifying(lines, Banned);
      && (k < |lines| ==> ExtractName(text) == lines[k])
      && (forall j :: 0 <= j < k ==> !Qualifies(lines[j], Banned))
      && (k == |lines| ==> ExtractName(text) == "Candidate")
  {
  }

  // ---------------------------------------------------------------- the bullet

  /**
   * `â€¢` is the UTF-8 encoding of the bullet `•` read as Windows-1252; the
   * class was evidently meant to hold the bullet itself.
   */
  predicate BannedIntended(c: char) {
    Banned(c) || c == '•'
  }

  /** A resume whose first non-blank line is a bullet point gets that bullet point as its name. */
  lemma BulletLineIsTakenAsName(text: string)
    requires Candidates(text) != [] && Candidates(text)[0] == "• Go"
    ensures ExtractName(text) == "• Go"
  {
    BulletLineQualifies();
  }

  /** The bullet line passes every test of the search as written. */
  lemma BulletLineQualifies()
    ensures Qualifies("• Go", Banned)
  {
    var t := "• Go";
    assert !HasBanned(t, Banned);
    assert t[..1][..0] == [] && WordCount(t[..1]) == 1;
    assert t[..2][..1] == t[..1] && WordCount(t[..2]) == 1;
    assert t[..3][..2] == t[..2] && WordCount(t[..3]) == 2;
    assert t[..3] == t[..|t| - 1];
    assert WordCount(t) == 2;
  }

  /** On lines without a bullet the two searches stop at the same line. */
  lemma {:induction false} SameSearchWithoutBullets(lines: seq<string>)
    requires forall i :: 0 <= i < |lines| ==> '•' !in lines[i]
    ensures FirstQualifying(lines, BannedIntended) == FirstQualifying(lines, Banned)
  {
    if lines != [] {
      assert HasBanned(lines[0], BannedIntended) == HasBanned(lines[0], Banned);
      SameSearchWithoutBullets(lines[1..]);
    }
  }

  /** The name search with the bullet in the rejected class. */
  function ExtractNameSkippingBullets(text: string): (r: string)
    ensures r == "Candidate" || r in Candidates(text)
    ensures r != "Candidate" ==> '•' !in r && !HasBanned(r, Banned) && WordCount(r) <= 5 && |r| < 50
    ensures (forall i :: 0 <= i < |Candidates(text)| ==> '•' !in Candidates(text)[i]) ==> r == ExtractName(text)
  {
    var lines := Candidates(text);
    var r := NameAmong(lines, BannedIntended);
    assert r != "Candidate" ==> !HasBanned(r, BannedIntended);
    if forall i :: 0 <= i < |lines| ==> '•' !in lines[i] then
      SameSearchWithoutBullets(lines);
      r
    else r
  }
}
