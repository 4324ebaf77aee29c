/**
 * The Python `str` operations the scripts rely on, over Dafny strings (sequences of Unicode scalar values):
 * whitespace as `str.isspace` and the regular-expression class `\s` see it, `strip`, substring search,
 * `replace`, `join`, `splitlines`, `ljust` and `str(int)`.
 */
module Text {
  import opened Wrappers

  /** Python's `str.isspace()` on one character; `str.strip()` and the regex class `\s` use the same set. */
  predicate IsSpace(c: char) {
    c == ' ' || '\t' <= c <= '\r' || '\U{1C}' <= c <= '\U{1F}' || c == '\U{85}' || c == '\U{A0}'
    || c == '\U{1680}' || '\U{2000}' <= c <= '\U{200A}' || c == '\U{2028}' || c == '\U{2029}'
    || c == '\U{202F}' || c == '\U{205F}' || c == '\U{3000}'
  }

  predicate IsBlank(s: string) {
    forall i :: 0 <= i < |s| ==> IsSpace(s[i])
  }

  /** Neither end of `s` is whitespace (vacuously true of the empty string). */
  predicate Tight(s: string) {
    s == [] || (!IsSpace(s[0]) && !IsSpace(s[|s| - 1]))
  }

  /** `s.lstrip()`: a suffix of `s` that does not start with whitespace (`TrimStartBlank`: all it drops is). */
  function TrimStart(s: string): (r: string)
    ensures |r| <= |s| && r == s[|s| - |r|..]
    ensures r == [] || !IsSpace(r[0])
  {
    if |s| > 0 && IsSpace(s[0]) then TrimStart(s[1..]) else s
  }

  /** `lstrip` removes only whitespace, so it removes exactly the longest whitespace prefix. */
  lemma {:induction false} TrimStartBlank(s: string)
    ensures IsBlank(s[..|s| - |TrimStart(s)|])
    decreases |s|
  {
    if |s| > 0 && IsSpace(s[0]) {
      TrimStartBlank(s[1..]);
      assert s[..|s| - |TrimStart(s)|] == [s[0]] + s[1..][..|s[1..]| - |TrimStart(s[1..])|];
    }
  }

  /** `s.rstrip()`: a prefix of `s` that does not end with whitespace (`TrimEndBlank`: all it drops is). */
  function TrimEnd(s: string): (r: string)
    ensures |r| <= |s| && r == s[..|r|]
    ensures r == [] || !IsSpace(r[|r| - 1])
  {
    if |s| > 0 && IsSpace(s[|s| - 1]) then TrimEnd(s[..|s| - 1]) else s
  }

  /** `rstrip` removes only whitespace, so it removes exactly the longest whitespace suffix. */
  lemma {:induction false} TrimEndBlank(s: string)
    ensures IsBlank(s[|TrimEnd(s)|..])
    decreases |s|
  {
    if |s| > 0 && IsSpace(s[|s| - 1]) {
      var s' := s[..|s| - 1];
      TrimEndBlank(s');
      assert s[|TrimEnd(s)|..] == s'[|TrimEnd(s')|..] + [s[|s| - 1]];
    }
  }

  /** `s.strip()` */
  function Strip(s: string): string
  {
    TrimEnd(TrimStart(s))
  }

  /** How many leading characters `strip` removes. */
  function StripStart(s: string): (a: nat)
    ensures a <= |s|
  {
    |s| - |TrimStart(s)|
  }

  /** What `strip` keeps: the infix of `s` that starts after the blank prefix. */
  lemma {:induction false} StripInfix(s: string)
    ensures StripStart(s) + |Strip(s)| <= |s|
    ensures Strip(s) == s[StripStart(s)..StripStart(s) + |Strip(s)|]
  {
    var t := TrimStart(s);
    var r := TrimEnd(t);
    var a := |s| - |t|;
    assert s[a..][..|r|] == s[a..a + |r|];
  }

  /** What `strip` removes: whitespace only, on both sides. */
  lemma {:induction false} StripRemovesBlank(s: string)
    ensures StripStart(s) + |Strip(s)| <= |s|
    ensures IsBlank(s[..StripStart(s)]) && IsBlank(s[StripStart(s) + |Strip(s)|..])
  {
    var t := TrimStart(s);
    var r := TrimEnd(t);
    var a := StripStart(s);
    TrimStartBlank(s);
    TrimEndBlank(t);
    assert t == s[a..];
    assert t[|r|..] == s[a + |r|..];
  }

  /** Neither end of a stripped string is whitespace. */
  lemma {:induction false} StripTight(s: string)
    ensures Tight(Strip(s))
  {
    var t := TrimStart(s);
    var r := TrimEnd(t);
    if r != [] {
      assert r[0] == t[0];
    }
  }

  lemma {:induction false} StripShape(s: string)
    ensures StripStart(s) + |Strip(s)| <= |s|
    ensures Strip(s) == s[StripStart(s)..StripStart(s) + |Strip(s)|]
    ensures IsBlank(s[..StripStart(s)]) && IsBlank(s[StripStart(s) + |Strip(s)|..])
    ensures Tight(Strip(s))
  {
    StripInfix(s);
    StripRemovesBlank(s);
    StripTight(s);
  }

  /** Stripping a string whose ends are not whitespace leaves it as it is. */
  lemma {:induction false} TightStrip(s: string)
    requires Tight(s)
    ensures Strip(s) == s
  {
    assert TrimStart(s) == s;
  }

  lemma {:induction false} StripIdempotent(s: string)
    ensures Strip(Strip(s)) == Strip(s)
  {
    StripShape(s);
    TightStrip(Strip(s));
  }

  /** `s.strip()` is empty exactly when `s` is all whitespace (so `not s.strip()` tests for a blank line). */
  lemma {:induction false} StripEmptyIffBlank(s: string)
    ensures Strip(s) == [] <==> IsBlank(s)
  {
    StripShape(s);
    var a := StripStart(s);
    if Strip(s) != [] {
      assert s[a] == Strip(s)[0];
    } else {
      assert s == s[..a] + s[a..];
    }
  }

  /** `pat` occurs in `s` starting at index `i`. */
  predicate At(s: string, i: int, pat: string) {
    0 <= i && i + |pat| <= |s| && s[i..i + |pat|] == pat
  }

  /** Python's `pat in s` on strings. */
  predicate Contains(s: string, pat: string) {
    exists i :: 0 <= i <= |s| && At(s, i, pat)
  }

  /** `s.find(pat, from)`: the first occurrence at or after `from`. */
  function Find(s: string, pat: string, from: nat): (r: Option<nat>)
    ensures r.Some? ==> from <= r.value && At(s, r.value, pat)
    ensures r.Some? ==> forall j :: from <= j < r.value ==> !At(s, j, pat)
    ensures r.None? ==> forall j :: from <= j ==> !At(s, j, pat)
    decreases |s| - from
  {
    if from + |pat| > |s| then None
    else if At(s, from, pat) then Some(from)
    else Find(s, pat, from + 1)
  }

  /** An occurrence inside a slice is an occurrence in the whole string, shifted by the slice's start. */
  lemma {:induction false} AtSlice(s: string, lo: int, hi: int, i: int, pat: string)
    requires 0 <= lo <= hi <= |s|
    requires At(s[lo..hi], i, pat)
    ensures At(s, lo + i, pat)
  {
    forall j | lo + i <= j < lo + i + |pat| ensures s[j] == pat[j - lo - i] {
      assert s[j] == s[lo..hi][j - lo];
    }
  }

  /** An occurrence in `s` that starts at or after `lo` and ends by `hi` is an occurrence in `s[lo..hi]`. */
  lemma {:induction false} AtInSlice(s: string, lo: int, hi: int, i: int, pat: string)
    requires 0 <= lo <= i && i + |pat| <= hi <= |s|
    requires At(s, i, pat)
    ensures At(s[lo..hi], i - lo, pat)
  {
    var sub := s[lo..hi];
    forall k | 0 <= k < |pat| ensures sub[i - lo + k] == pat[k] {
      assert sub[i - lo + k] == s[i + k] == s[i..i + |pat|][k];
    }
    assert sub[i - lo..i - lo + |pat|] == pat;
  }

  /** Stripping never creates an occurrence: what `Strip(s)` contains, `s` contains. */
  lemma {:induction false} StripKeepsAbsence(s: string, pat: string)
    requires !Contains(s, pat)
    ensures !Contains(Strip(s), pat)
  {
    StripShape(s);
    var a := StripStart(s);
    var r := Strip(s);
    if Contains(r, pat) {
      var i :| At(r, i, pat);
      AtSlice(s, a, a + |r|, i, pat);
      assert false;
    }
  }

  /** Python's `s.replace(pat, rep)`: every non-overlapping occurrence, scanning left to right. */
  function Replace(s: string, pat: string, rep: string): string
    requires |pat| > 0
    decreases |s|
  {
    if |s| < |pat| then s
    else if s[..|pat|] == pat then rep + Replace(s[|pat|..], pat, rep)
    else [s[0]] + Replace(s[1..], pat, rep)
  }

  /** Replacing one character by another maps the string character by character, so none of the old one is left. */
  lemma {:induction false} ReplaceChar(s: string, c: char, d: char)
    requires c != d
    ensures var r := Replace(s, [c], [d]);
      |r| == |s| && forall i :: 0 <= i < |s| ==> r[i] == (if s[i] == c then d else s[i])
    ensures c !in Replace(s, [c], [d])
    decreases |s|
  {
    if |s| > 0 {
      ReplaceChar(s[1..], c, d);
    }
  }

  /** Python's `sep.join(parts)` */
  function Join(parts: seq<string>, sep: string): string
  {
    if |parts| == 0 then ""
    else if |parts| == 1 then parts[0]
    else parts[0] + sep + Join(parts[1..], sep)
  }

  /** The line boundaries of Python's `str.splitlines()`. */
  predicate IsLineBreak(c: char) {
    c == '\n' || c == '\r' || c == '\U{B}' || c == '\U{C}' || '\U{1C}' <= c <= '\U{1E}'
    || c == '\U{85}' || c == '\U{2028}' || c == '\U{2029}'
  }

  predicate NoLineBreak(s: string) {
    forall i :: 0 <= i < |s| ==> !IsLineBreak(s[i])
  }

  /** The first line boundary at or after `i`, or `|s|`. */
  function LineEnd(s: string, i: nat): (j: nat)
    requires i <= |s|
    ensures i <= j <= |s| && (j < |s| ==> IsLineBreak(s[j]))
    ensures forall k :: i <= k < j ==> !IsLineBreak(s[k])
    decreases |s| - i
  {
    if i == |s| || IsLineBreak(s[i]) then i else LineEnd(s, i + 1)
  }

  /** Python's `s.splitlines()`: `\r\n` is one boundary, and a final boundary does not open an empty line. */
  function SplitLines(s: string): (r: seq<string>)
    ensures s == [] <==> r == []
    ensures forall k :: 0 <= k < |r| ==> NoLineBreak(r[k])
    decreases |s|
  {
    if s == [] then []
    else
      var j := LineEnd(s, 0);
      if j == |s| then [s]
      else
        var next := if s[j] == '\r' && j + 1 < |s| && s[j + 1] == '\n' then j + 2 else j + 1;
        [s[..j]] + SplitLines(s[next..])
  }

  function Spaces(n: nat): (r: string)
    ensures |r| == n && IsBlank(r)
  {
    seq(n, _ => ' ')
  }

  /** Python's `s.ljust(width)`: pads with spaces on the right, never truncates. */
  function LJust(s: string, width: int): (r: string)
    ensures |r| == if |s| >= width then |s| else width
    ensures r[..|s|] == s && IsBlank(r[|s|..])
  {
    if |s| >= width then s else s + Spaces(width - |s|)
  }

  function Digit(d: nat): char
    requires d < 10
  {
    "0123456789"[d]
  }

  /** Python's `str(n)` for an integer. */
  function IntToString(n: int): string
    decreases if n < 0 then 1 - n else n
  {
    if n < 0 then "-" + IntToString(-n)
    else if n < 10 then [Digit(n)]
    else IntToString(n / 10) + [Digit(n % 10)]
  }
}
