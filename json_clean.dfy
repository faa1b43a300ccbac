/**
 * What the scoring and question routes (routes/score.py, routes/questions.py)
 * do to a model's raw reply before parsing it: cut out the text from the first
 * opening bracket to the last closing one, then `clean_json_string`, a
 * one-pass scanner that blanks control characters inside JSON string literals
 * and leaves everything else alone. Both routes carry identical copies of the
 * scanner; it is defined once here.
 */
module JsonClean {
  import opened Wrappers
  import opened Text

  // ---------------------------------------------------------------- the scanner

  /** The scanner's two flags: inside a string literal, and the previous character was a backslash there. */
  datatype ScanState = ScanState(inString: bool, escapeNext: bool)

  const Initial: ScanState := ScanState(false, false)

  /** A control character: code point under 0x20. */
  predicate IsControl(c: char) {
    (c as int) < 0x20
  }

  /** The flags after reading `c`. */
  function NextState(st: ScanState, c: char): ScanState {
    if st.escapeNext then ScanState(st.inString, false)
    else if c == '\\' && st.inString then ScanState(true, true)
    else if c == '"' then ScanState(!st.inString, false)
    else st
  }

  /** The character written for `c`: a space for a bare control character inside a literal. */
  function OutChar(st: ScanState, c: char): char {
    if !st.escapeNext && c != '\\' && c != '"' && st.inString && IsControl(c) then ' ' else c
  }

  /** The flags after reading all of `s`. */
  function StateAfter(s: string): ScanState {
    if s == [] then Initial else NextState(StateAfter(s[..|s| - 1]), s[|s| - 1])
  }

  /** What `clean_json_string` returns: each character replaced by what the scanner writes for it. */
  function Clean(s: string): (r: string)
    ensures |r| == |s|
  {
    seq(|s|, i requires 0 <= i < |s| => OutChar(StateAfter(s[..i]), s[i]))
  }

  /** Reading one more character moves the flags by one step. */
  lemma StateAfterStep(s: string, i: nat)
    requires i < |s|
    ensures StateAfter(s[..i + 1]) == NextState(StateAfter(s[..i]), s[i])
  {
    assert s[..i + 1][..i] == s[..i];
  }

  /** `clean_json_string`, the loop over the characters with its two flags. */
  method CleanJsonString(s: string) returns (r: string)
    ensures r == Clean(s)
  {
    var result: seq<char> := [];
    var inString := false;
    var escapeNext := false;
    for i := 0 to |s|
      invariant |result| == i
      invariant ScanState(inString, escapeNext) == StateAfter(s[..i])
      invariant forall j :: 0 <= j < i ==> result[j] == Clean(s)[j]
    {
      StateAfterStep(s, i);
      var ch := s[i];
      if escapeNext {
        result := result + [ch];
        escapeNext := false;
      } else if ch == '\\' && inString {
        result := result + [ch];
        escapeNext := true;
      } else if ch == '"' {
        result := result + [ch];
        inString := !inString;
      } else if inString && IsControl(ch) {
        result := result + [' '];
      } else {
        result := result + [ch];
      }
    }
    r := result;
  }

  /** A pending escape only ever happens inside a literal. */
  lemma {:induction false} EscapeOnlyInString(s: string)
    ensures StateAfter(s).escapeNext ==> StateAfter(s).inString
    decreases |s|
  {
    if s != [] {
      EscapeOnlyInString(s[..|s| - 1]);
    }
  }

  /**
   * The only characters the scanner changes are control characters inside a
   * literal that do not follow a backslash, and each of those becomes a space;
   * in particular everything outside literals is copied unchanged.
   */
  lemma CleanChangesOnlyControls(s: string, i: nat)
    requires i < |s|
    ensures var st := StateAfter(s[..i]);
      && (Clean(s)[i] != s[i] <==> st.inString && !st.escapeNext && IsControl(s[i]))
      && (Clean(s)[i] != s[i] ==> Clean(s)[i] == ' ')
      && (!st.inString ==> Clean(s)[i] == s[i])
  {
    EscapeOnlyInString(s[..i]);
  }

  /** A character after a backslash inside a literal is copied verbatim and never closes the literal. */
  lemma EscapedCharCopied(s: string, i: nat)
    requires i < |s| && StateAfter(s[..i]).escapeNext
    ensures Clean(s)[i] == s[i]
    ensures StateAfter(s[..i + 1]) == ScanState(true, false)
  {
    EscapeOnlyInString(s[..i]);
    StateAfterStep(s, i);
  }

  /** The scanner passes through the same flags on the cleaned text as on the original. */
  lemma {:induction false} CleanKeepsStates(s: string, i: nat)
    requires i <= |s|
    ensures StateAfter(Clean(s)[..i]) == StateAfter(s[..i])
  {
    if i > 0 {
      CleanKeepsStates(s, i - 1);
      StateAfterStep(s, i - 1);
      StateAfterStep(Clean(s), i - 1);
    }
  }

  /** Cleaning twice is cleaning once. */
  lemma CleanIdempotent(s: string)
    ensures Clean(Clean(s)) == Clean(s)
  {
    var c := Clean(s);
    forall i | 0 <= i < |s| ensures Clean(c)[i] == c[i] {
      CleanKeepsStates(s, i);
    }
  }

  // ---------------------------------------------------------------- extraction

  /** Python's `s[a:b]` for `0 <= a`, `b <= len(s)`: empty when `b <= a`. */
  function PySlice(s: string, a: nat, b: nat): (r: string)
    requires a <= |s| && b <= |s|
    ensures b <= a ==> r == ""
    ensures a < b ==> r == s[a..b]
  {
    if b <= a then "" else s[a..b]
  }

  /**
   * `raw[raw.find(open) : raw.rfind(close) + 1]`, or `None` when either
   * bracket is missing.
   */
  function Extract(raw: string, open: char, close: char): (r: Option<string>)
    ensures r.None? <==> open !in raw || close !in raw
    ensures r.Some? && r.value != "" ==>
      && r.value[0] == open && r.value[|r.value| - 1] == close
      && 0 <= Find(raw, open) < RFind(raw, close) + 1
      && open !in raw[..Find(raw, open)]
      && close !in raw[RFind(raw, close) + 1..]
      && r.value == raw[Find(raw, open)..RFind(raw, close) + 1]
    ensures r.Some? && r.value == "" ==> RFind(raw, close) < Find(raw, open)
  {
    var start := Find(raw, open);
    var end := RFind(raw, close) + 1;
    if start == -1 || end == 0 then None else Some(PySlice(raw, start, end))
  }

  /** How the HTTP call to the model ended. */
  datatype ModelReply =
    | ConnectionRefused            // `requests.exceptions.ConnectionError`
    | CallFailed                   // any other exception before the reply text was read
    | Replied(response: string)    // the `response` field of the reply, "" when missing

  /** What a route sends back: a JSON body, or an error status. */
  datatype RouteReply<T> = Served(body: T) | Status(code: int)

  /** The status a route answers a failed model call with. */
  function TransportStatus(reply: ModelReply): (code: int)
    requires !reply.Replied?
    ensures code == 503 <==> reply.ConnectionRefused?
    ensures code == 500 <==> reply.CallFailed?
  {
    if reply.ConnectionRefused? then 503 else 500
  }
}
