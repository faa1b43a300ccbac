/**
 * String primitives the services rely on, with the semantics of the languages
 * they are written in: Python's `str.strip`, `str.find`, `str.rfind`,
 * `str.replace(p, "")` and `str.startswith`, JavaScript's `String.prototype.trim`,
 * and decimal rendering of a natural number.
 */
module Text {

  /** Python's `str.isspace` for one character: bidi classes WS, B, S and category Zs. */
  predicate IsPySpace(c: char) {
    var n := c as int;
    (0x09 <= n <= 0x0D) || (0x1C <= n <= 0x20) || n == 0x85 || n == 0xA0 || n == 0x1680
    || (0x2000 <= n <= 0x200A) || n == 0x2028 || n == 0x2029 || n == 0x202F || n == 0x205F || n == 0x3000
  }

  /** The characters JavaScript's `trim` removes: WhiteSpace and LineTerminator. */
  predicate IsJsSpace(c: char) {
    var n := c as int;
    (0x09 <= n <= 0x0D) || n == 0x20 || n == 0xA0 || n == 0x1680 || (0x2000 <= n <= 0x200A)
    || n == 0x2028 || n == 0x2029 || n == 0x202F || n == 0x205F || n == 0x3000 || n == 0xFEFF
  }

  predicate IsAsciiDigit(c: char) { '0' <= c <= '9' }

  predicate IsAsciiLetter(c: char) { ('a' <= c <= 'z') || ('A' <= c <= 'Z') }

  /** Drops the leading characters satisfying `ws`; what is left is a suffix of `s`. */
  function TrimLeft(s: string, ws: char -> bool): (r: string)
    ensures |r| <= |s| && r == s[|s| - |r|..]
    ensures r != [] ==> !ws(r[0])
    ensures forall i :: 0 <= i < |s| - |r| ==> ws(s[i])
    decreases |s|
  {
    if s != [] && ws(s[0]) then TrimLeft(s[1..], ws) else s
  }

  /** Drops the trailing characters satisfying `ws`; what is left is a prefix of `s`. */
  function TrimRight(s: string, ws: char -> bool): (r: string)
    ensures |r| <= |s| && r == s[..|r|]
    ensures r != [] ==> !ws(r[|r| - 1])
    ensures forall i :: |r| <= i < |s| ==> ws(s[i])
    decreases |s|
  {
    if s != [] && ws(s[|s| - 1]) then TrimRight(s[..|s| - 1], ws) else s
  }

  /** Python's `s.strip()`. */
  function PyStrip(s: string): (r: string)
    ensures |r| <= |s|
    ensures r == [] <==> forall i :: 0 <= i < |s| ==> IsPySpace(s[i])
    ensures r != [] ==> !IsPySpace(r[0]) && !IsPySpace(r[|r| - 1])
  {
    var l := TrimLeft(s, IsPySpace);
    var r := TrimRight(l, IsPySpace);
    r
  }

  /** A string that neither starts nor ends with whitespace is its own `strip()`. */
  lemma StripOfUnpadded(s: string)
    requires s != [] && !IsPySpace(s[0]) && !IsPySpace(s[|s| - 1])
    ensures PyStrip(s) == s
  {
    assert TrimLeft(s, IsPySpace) == s;
  }

  /** Stripping twice is stripping once. */
  lemma StripIdempotent(s: string)
    ensures PyStrip(PyStrip(s)) == PyStrip(s)
  {
    if PyStrip(s) != [] {
      StripOfUnpadded(PyStrip(s));
    }
  }

  /** JavaScript's `s.trim()`. */
  function JsTrim(s: string): (r: string)
    ensures |r| <= |s|
    ensures r == [] <==> forall i :: 0 <= i < |s| ==> IsJsSpace(s[i])
    ensures r != [] ==> !IsJsSpace(r[0]) && !IsJsSpace(r[|r| - 1])
  {
    var l := TrimLeft(s, IsJsSpace);
    var r := TrimRight(l, IsJsSpace);
    r
  }

  /** Python's `s.startswith(p)`. */
  predicate StartsWith(s: string, p: string) {
    |p| <= |s| && s[..|p|] == p
  }

  /** `p` occurs in `s` at offset `i`. */
  predicate OccursAt(s: string, p: string, i: int) {
    0 <= i && i + |p| <= |s| && s[i..i + |p|] == p
  }

  /** Python's `p in s` for strings. */
  predicate Contains(s: string, p: string) {
    exists i | 0 <= i <= |s| - |p| :: OccursAt(s, p, i)
  }

  /**
   * Python's `s.replace(p, "")`: scanning left to right, each occurrence of `p`
   * that does not overlap an earlier removed one is deleted.
   */
  function RemoveAll(s: string, p: string): (r: string)
    requires |p| > 0
    ensures |r| <= |s|
    decreases |s|
  {
    if |s| < |p| then s
    else if s[..|p|] == p then RemoveAll(s[|p|..], p)
    else [s[0]] + RemoveAll(s[1..], p)
  }

  /** `k` copies of the character `c`, such as `**` or a code fence. */
  function Run(c: char, k: nat): (r: string)
    ensures |r| == k && forall i :: 0 <= i < k ==> r[i] == c
  {
    seq(k, _ => c)
  }

  predicate StartsWithRun(t: string, c: char, j: nat) {
    j <= |t| && forall i :: 0 <= i < j ==> t[i] == c
  }

  /** If what survives removal of `c`-runs starts with `j <= k` copies of `c`, so did the input. */
  lemma {:induction false} SurvivorHeadRun(t: string, c: char, k: nat, j: nat)
    requires 1 <= k && j <= k
    requires StartsWithRun(RemoveAll(t, Run(c, k)), c, j)
    ensures StartsWithRun(t, c, j)
    decreases |t|
  {
    var p := Run(c, k);
    if |t| < k {
    } else if t[..k] == p {
      forall i | 0 <= i < j ensures t[i] == c { assert t[..k][i] == c; }
    } else if j > 0 {
      var rest := RemoveAll(t[1..], p);
      assert RemoveAll(t, p) == [t[0]] + rest;
      assert StartsWithRun(rest, c, j - 1) by {
        forall i | 0 <= i < j - 1 ensures rest[i] == c { assert RemoveAll(t, p)[i + 1] == rest[i]; }
      }
      SurvivorHeadRun(t[1..], c, k, j - 1);
      assert t[0] == RemoveAll(t, p)[0];
    }
  }

  /**
   * Removing every run of `k` copies of one character leaves no such run behind:
   * `s.replace("**", "")` contains no `**`, and `s.replace("```", "")` no fence.
   */
  lemma {:induction false} RemoveRunLeavesNone(s: string, c: char, k: nat)
    requires k >= 1
    ensures !Contains(RemoveAll(s, Run(c, k)), Run(c, k))
    decreases |s|
  {
    var p := Run(c, k);
    var r := RemoveAll(s, p);
    if |s| < k {
    } else if s[..k] == p {
      RemoveRunLeavesNone(s[k..], c, k);
    } else {
      var rest := RemoveAll(s[1..], p);
      RemoveRunLeavesNone(s[1..], c, k);
      assert r == [s[0]] + rest;
      forall i | 0 <= i <= |r| - k ensures !OccursAt(r, p, i) {
        if i > 0 {
          assert r[i..i + k] == rest[i - 1..i - 1 + k];
          assert !OccursAt(rest, p, i - 1);
        } else if r[0] == c && StartsWithRun(rest, c, k - 1) {
          SurvivorHeadRun(s[1..], c, k, k - 1);
          RunFromHeadAndTail(s, c, k);
          assert false;
        } else {
          assert r[0] != c || exists m :: 0 <= m < k - 1 && rest[m] != c;
          if r[0] == c {
            var m :| 0 <= m < k - 1 && rest[m] != c;
            assert r[m + 1] != p[m + 1];
            assert r[..k] != p by { assert r[..k][m + 1] == r[m + 1]; }
          } else {
            assert r[..k] != p by { assert r[..k][0] == r[0]; }
          }
        }
      }
    }
  }

  /** A string that starts with `c` followed by `k - 1` more copies of `c` starts with the run. */
  lemma RunFromHeadAndTail(s: string, c: char, k: nat)
    requires 1 <= k <= |s| && s[0] == c && StartsWithRun(s[1..], c, k - 1)
    ensures s[..k] == Run(c, k)
  {
    forall m | 0 <= m < k ensures s[..k][m] == Run(c, k)[m] {
      if m > 0 { assert s[1..][m - 1] == s[m]; }
    }
  }

  /** A string in which `p` does not occur has no slice in which it occurs. */
  lemma AbsentFromSlice(s: string, p: string, a: nat, b: nat)
    requires a <= b <= |s| && !Contains(s, p)
    ensures !Contains(s[a..b], p)
  {
    forall i | 0 <= i <= (b - a) - |p| ensures !OccursAt(s[a..b], p, i) {
      var t, u := s[a..b], s[a + i..a + i + |p|];
      forall j | 0 <= j < |p| ensures t[i + j] == u[j] { }
      assert t[i..i + |p|] == u;
      assert !OccursAt(s, p, a + i);
    }
  }

  /** Python's `s.find(c)`: the first index holding `c`, or -1. */
  function Find(s: string, c: char): (r: int)
    ensures -1 <= r < |s|
    ensures r == -1 <==> c !in s
    ensures r >= 0 ==> s[r] == c && forall i :: 0 <= i < r ==> s[i] != c
    decreases |s|
  {
    if s == [] then -1
    else if s[0] == c then 0
    else
      var k := Find(s[1..], c);
      if k == -1 then -1 else k + 1
  }

  /** Python's `s.rfind(c)`: the last index holding `c`, or -1. */
  function RFind(s: string, c: char): (r: int)
    ensures -1 <= r < |s|
    ensures r == -1 <==> c !in s
    ensures r >= 0 ==> s[r] == c && forall i :: r < i < |s| ==> s[i] != c
    decreases |s|
  {
    if s == [] then -1
    else if s[|s| - 1] == c then |s| - 1
    else RFind(s[..|s| - 1], c)
  }

  function DigitChar(d: nat): char
    requires d < 10
  {
    ('0' as int + d) as char
  }

  /** Python's `str(n)` / `f"{n}"` for a non-negative integer. */
  function NatToString(n: nat): (r: string)
    ensures |r| >= 1
    ensures forall i :: 0 <= i < |r| ==> IsAsciiDigit(r[i])
    ensures (r[0] == '0') <==> n == 0
  {
    if n < 10 then [DigitChar(n)] else NatToString(n / 10) + [DigitChar(n % 10)]
  }
}
