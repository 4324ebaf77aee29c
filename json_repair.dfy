/**
 * optm_generation/match.py, the layered JSON recovery: `fix_and_parse_json` retries a failed parse after five
 * fixed textual rewrites, and `extract_json_from_string` tries the first ```json block, then its repair, then
 * the whole stripped text, and otherwise hands back what it was given.
 *
 * Each rewrite is a left-to-right scan that resumes behind a replaced match, as `str.replace` and `re.sub` do.
 */
module JsonRepair {
  import opened Wrappers
  import opened Text
  import opened Python
  import opened CodeBlock

  /** What a character contributes to `Essential`: nothing for whitespace and commas, itself otherwise. */
  function Counted(c: char): string {
    if IsSpace(c) || c == ',' then [] else [c]
  }

  /** The text with whitespace and commas left out: what the two comma rewrites must not change. */
  function Essential(s: string): string
    decreases |s|
  {
    if s == [] then [] else Counted(s[0]) + Essential(s[1..])
  }

  lemma EssentialPrepend(c: char, u: string)
    ensures Essential([c] + u) == Counted(c) + Essential(u)
  {
    assert ([c] + u)[1..] == u;
  }

  lemma {:induction false} EssentialConcat(a: string, b: string)
    ensures Essential(a + b) == Essential(a) + Essential(b)
    decreases |a|
  {
    if a != [] {
      assert (a + b)[0] == a[0] && (a + b)[1..] == a[1..] + b;
      EssentialConcat(a[1..], b);
    } else {
      assert a + b == b;
    }
  }

  /** A whitespace prefix adds nothing. */
  lemma {:induction false} EssentialSkip(s: string, n: nat)
    requires n <= |s| && forall k :: 0 <= k < n ==> IsSpace(s[k])
    ensures Essential(s) == Essential(s[n..])
    decreases n
  {
    if n > 0 {
      EssentialSkip(s[1..], n - 1);
      assert s[1..][n - 1..] == s[n..];
    }
  }

  /** Where the whitespace run starting at `p` ends, when `s[p..q]` is whitespace and `s[q]` is not. */
  lemma SkipSpaceStops(s: string, p: nat, q: nat)
    requires p <= q < |s| && IsBlank(s[p..q]) && !IsSpace(s[q])
    ensures SkipSpace(s, p) == q
  {
  }

  /** A character, a whitespace run, a character and the rest: only the two characters and the rest count. */
  lemma EssentialSplit(t: string, j: nat)
    requires 1 <= j < |t| && forall k :: 1 <= k < j ==> IsSpace(t[k])
    ensures Essential(t) == Counted(t[0]) + (Counted(t[j]) + Essential(t[j + 1..]))
  {
    assert Essential(t) == Counted(t[0]) + Essential(t[1..]);
    assert Essential(t[1..]) == Essential(t[j..]) by {
      var u := t[1..];
      forall k | 0 <= k < j - 1 ensures IsSpace(u[k]) {
        assert u[k] == t[k + 1];
      }
      EssentialSkip(u, j - 1);
      assert u[j - 1..] == t[j..];
    }
    assert Essential(t[j..]) == Counted(t[j]) + Essential(t[j + 1..]) by {
      assert t[j..][0] == t[j] && t[j..][1..] == t[j + 1..];
    }
  }

  /** Keeping the first character and replacing the rest by text with the same essential part keeps it. */
  lemma EssentialCons(t: string, u: string)
    requires t != [] && Essential(u) == Essential(t[1..])
    ensures Essential([t[0]] + u) == Essential(t)
  {
    EssentialPrepend(t[0], u);
  }

  // ---------------------------------------------------------------- rewrite 1: NUL escapes

  /** `.replace("\\0", "\\\\0").replace("'\0'", "'\\\\0'")` */
  function EscapeNul(s: string): string {
    Replace(Replace(s, "\\0", "\\\\0"), "'\0'", "'\\\\0'")
  }

  /** `str.replace` leaves a string without the pattern as it is. */
  lemma {:induction false} ReplaceAbsent(s: string, pat: string, rep: string)
    requires |pat| > 0 && !Contains(s, pat)
    ensures Replace(s, pat, rep) == s
    decreases |s|
  {
    if |s| >= |pat| {
      assert !At(s, 0, pat);
      assert s[..|pat|] != pat;
      if Contains(s[1..], pat) {
        var i :| 0 <= i <= |s[1..]| && At(s[1..], i, pat);
        assert s[1..] == s[1..|s|];
        AtSlice(s, 1, |s|, i, pat);
        assert false;
      }
      ReplaceAbsent(s[1..], pat, rep);
    }
  }

  /** Text without a backslash-zero pair and without a quoted NUL goes through the first rewrite unchanged. */
  lemma EscapeNulPlain(s: string)
    requires !Contains(s, "\\0") && !Contains(s, "'\0'")
    ensures EscapeNul(s) == s
  {
    ReplaceAbsent(s, "\\0", "\\\\0");
    ReplaceAbsent(s, "'\0'", "'\\\\0'");
  }

  // ---------------------------------------------------------------- rewrite 2: strings split across lines

  /** `"\s*\n\s*"` matches at the start of `t`: a quote, whitespace holding a newline, and a quote right behind it. */
  predicate RejoinsAt(t: string)
    requires t != []
  {
    t[0] == '"' && var j := SkipSpace(t, 1); j < |t| && t[j] == '"' && '\n' in t[1..j]
  }

  /** `re.sub(r'"\s*\n\s*"', '",\n"', t)` */
  function Rejoin(t: string): string
    decreases |t|
  {
    if t == [] then []
    else if RejoinsAt(t) then "\",\n\"" + Rejoin(t[SkipSpace(t, 1) + 1..])
    else [t[0]] + Rejoin(t[1..])
  }

  /** Two quoted strings separated by whitespace holding a newline are joined by `",\n"`. */
  lemma RejoinPair(w: string, rest: string)
    requires IsBlank(w) && '\n' in w
    ensures Rejoin("\"" + w + "\"" + rest) == "\",\n\"" + Rejoin(rest)
  {
    var t := "\"" + w + "\"" + rest;
    assert t[1..|w| + 1] == w;
    SkipSpaceStops(t, 1, |w| + 1);
    assert t[|w| + 2..] == rest;
  }

  /** Rejoining only adds commas and changes whitespace: every other character is kept, in order. */
  lemma {:induction false} RejoinKeeps(t: string)
    ensures Essential(Rejoin(t)) == Essential(t)
    decreases |t|
  {
    if t != [] {
      if RejoinsAt(t) {
        var j := SkipSpace(t, 1);
        RejoinKeeps(t[j + 1..]);
        RejoinKeepsAt(t);
      } else {
        RejoinKeeps(t[1..]);
        EssentialCons(t, Rejoin(t[1..]));
      }
    }
  }

  /** The step of `RejoinKeeps` where the pattern matches: both quotes survive, the rest is rejoined. */
  lemma RejoinKeepsAt(t: string)
    requires t != [] && RejoinsAt(t)
    requires Essential(Rejoin(t[SkipSpace(t, 1) + 1..])) == Essential(t[SkipSpace(t, 1) + 1..])
    ensures Essential(Rejoin(t)) == Essential(t)
  {
    var j := SkipSpace(t, 1);
    var rest := t[j + 1..];
    assert Rejoin(t) == "\",\n\"" + Rejoin(rest);
    EssentialJoined(Rejoin(rest));
    assert Essential(t) == ['"'] + (['"'] + Essential(rest)) by {
      EssentialSplit(t, j);
      assert Counted(t[0]) == Counted(t[j]) == "\"";
    }
  }

  /** The replacement `",\n"` counts as its two quotes. */
  lemma EssentialJoined(u: string)
    ensures Essential("\",\n\"" + u) == ['"'] + (['"'] + Essential(u))
  {
    EssentialConcat("\",\n\"", u);
    assert Essential("\",\n\"") == "\"\"" by {
      assert Counted('"') == "\"" && Counted(',') == [] && Counted('\n') == [];
    }
  }

  // ---------------------------------------------------------------- rewrite 3: stray backslashes

  /** The characters after a backslash that the repair leaves alone: `n t r " \ u 0`. */
  predicate Escapable(c: char) {
    c == 'n' || c == 't' || c == 'r' || c == '"' || c == '\\' || c == 'u' || c == '0'
  }

  /** The backslash at `k` is not followed by one of those characters (one at the very end included). */
  predicate Stray(s: string, k: nat)
    requires k < |s|
  {
    s[k] == '\\' && !(k + 1 < |s| && Escapable(s[k + 1]))
  }

  /** `re.sub(r'\\(?![ntr"\\u0])', r'\\\\', s[i..])`, judging each backslash by what follows it in `s`. */
  function DoubleFrom(s: string, i: nat): string
    requires i <= |s|
    decreases |s| - i
  {
    if i == |s| then []
    else (if Stray(s, i) then "\\\\" else [s[i]]) + DoubleFrom(s, i + 1)
  }

  function DoubleStray(s: string): string {
    DoubleFrom(s, 0)
  }

  /** The stray backslashes among positions `i .. k-1`. */
  function StrayBetween(s: string, i: nat, k: nat): nat
    requires i <= k <= |s|
    decreases k - i
  {
    if k == i then 0 else StrayBetween(s, i, k - 1) + (if Stray(s, k - 1) then 1 else 0)
  }

  lemma {:induction false} StrayBetweenFront(s: string, i: nat, k: nat)
    requires i < k <= |s|
    ensures StrayBetween(s, i, k) == (if Stray(s, i) then 1 else 0) + StrayBetween(s, i + 1, k)
    decreases k - i
  {
    if k > i + 1 {
      StrayBetweenFront(s, i, k - 1);
    }
  }

  /**
   * The repair doubles exactly the stray backslashes: every character of `s[i..]` reappears, shifted right by
   * the number of stray backslashes before it; a stray one is followed by a second backslash; and the length
   * grows by exactly the number of stray backslashes, so nothing else is inserted.
   */
  lemma {:induction false} DoubleShape(s: string, i: nat, k: nat)
    requires i <= k < |s|
    ensures var r := DoubleFrom(s, i);
      var p := (k - i) + StrayBetween(s, i, k);
      && |r| == (|s| - i) + StrayBetween(s, i, |s|)
      && p < |r| && r[p] == s[k]
      && (Stray(s, k) ==> p + 1 < |r| && r[p + 1] == '\\')
    decreases k - i
  {
    var r := DoubleFrom(s, i);
    var piece := if Stray(s, i) then "\\\\" else [s[i]];
    StrayBetweenFront(s, i, |s|);
    if k == i {
      DoubleLength(s, i + 1);
    } else {
      DoubleShape(s, i + 1, k);
      StrayBetweenFront(s, i, k);
      var p' := (k - i - 1) + StrayBetween(s, i + 1, k);
      assert r[|piece| + p'] == DoubleFrom(s, i + 1)[p'];
      if Stray(s, k) {
        assert r[|piece| + p' + 1] == DoubleFrom(s, i + 1)[p' + 1];
      }
    }
  }

  lemma {:induction false} DoubleLength(s: string, i: nat)
    requires i <= |s|
    ensures |DoubleFrom(s, i)| == (|s| - i) + StrayBetween(s, i, |s|)
    decreases |s| - i
  {
    if i < |s| {
      DoubleLength(s, i + 1);
      StrayBetweenFront(s, i, |s|);
    }
  }

  // ---------------------------------------------------------------- rewrite 4: trailing commas

  /** `,\s*([}\]])` matches at the start of `t`: a comma, whitespace, and a closing bracket right behind it. */
  predicate UncommasAt(t: string)
    requires t != []
  {
    t[0] == ',' && var j := SkipSpace(t, 1); j < |t| && (t[j] == '}' || t[j] == ']')
  }

  /** `re.sub(r',\s*([}\]])', r'\1', t)` */
  function Uncomma(t: string): string
    decreases |t|
  {
    if t == [] then []
    else if UncommasAt(t) then [t[SkipSpace(t, 1)]] + Uncomma(t[SkipSpace(t, 1) + 1..])
    else [t[0]] + Uncomma(t[1..])
  }

  /** A comma followed only by whitespace and a closing bracket goes, with the whitespace; the bracket stays. */
  lemma UncommaPair(w: string, b: char, rest: string)
    requires IsBlank(w) && (b == '}' || b == ']')
    ensures Uncomma("," + w + [b] + rest) == [b] + Uncomma(rest)
  {
    var t := "," + w + [b] + rest;
    assert t[1..|w| + 1] == w;
    SkipSpaceStops(t, 1, |w| + 1);
    assert t[|w| + 2..] == rest;
  }

  /** Removing trailing commas removes only commas and whitespace: every other character is kept, in order. */
  lemma {:induction false} UncommaKeeps(t: string)
    ensures Essential(Uncomma(t)) == Essential(t)
    decreases |t|
  {
    if t != [] {
      if UncommasAt(t) {
        var j := SkipSpace(t, 1);
        UncommaKeeps(t[j + 1..]);
        UncommaKeepsAt(t);
      } else {
        UncommaKeeps(t[1..]);
        EssentialCons(t, Uncomma(t[1..]));
      }
    }
  }

  /** The step of `UncommaKeeps` where the pattern matches: the comma goes, the bracket stays. */
  lemma UncommaKeepsAt(t: string)
    requires t != [] && UncommasAt(t)
    requires Essential(Uncomma(t[SkipSpace(t, 1) + 1..])) == Essential(t[SkipSpace(t, 1) + 1..])
    ensures Essential(Uncomma(t)) == Essential(t)
  {
    var j := SkipSpace(t, 1);
    var rest := t[j + 1..];
    EssentialSplit(t, j);
    EssentialPrepend(t[j], Uncomma(rest));
  }

  // ---------------------------------------------------------------- rewrite 5: single quotes

  /** `if "'" in s and '"' not in s: s = s.replace("'", '"')` */
  function Requote(s: string): (r: string)
    ensures |r| == |s|
    ensures '"' in s ==> r == s
    ensures '\'' !in r || '"' in s
    ensures '"' !in s ==> forall i :: 0 <= i < |s| ==> r[i] == (if s[i] == '\'' then '"' else s[i])
  {
    ReplaceChar(s, '\'', '"');
    if '\'' in s && '"' !in s then Replace(s, "'", "\"") else s
  }

  // ---------------------------------------------------------------- fix_and_parse_json

  /** The five rewrites in the order the function applies them. */
  function Repair(s: string): string {
    Requote(Uncomma(DoubleStray(Rejoin(EscapeNul(s)))))
  }

  /** `attempt_parse`: the parse, or None when the text does not parse or parses to JSON `null`. */
  function Attempt(rt: Runtime, s: string): Option<Json> {
    match rt.loads(s)
    case Some(v) => if v.JNull? then None else Some(v)
    case None => None
  }

  /** The message of the ValueError, `f"Line {line_no}: JSON parsing failed after fixes."`. */
  function FailedMessage(lineNo: int): string {
    "Line " + IntToString(lineNo) + ": JSON parsing failed after fixes."
  }

  /**
   * `fix_and_parse_json`: text that already parses is returned parsed with no rewrite applied; otherwise the
   * repaired text's parse; otherwise a ValueError. The JSON text `null` counts as a failure at both stages.
   */
  function FixAndParse(rt: Runtime, s: string, lineNo: int): (r: Result<Json, PyError>)
    ensures Attempt(rt, s).Some? ==> r == Ok(Attempt(rt, s).value)
    ensures Attempt(rt, s).None? ==> r.Ok? == Attempt(rt, Repair(s)).Some?
    ensures Attempt(rt, s).None? && r.Ok? ==> r.value == Attempt(rt, Repair(s)).value
    ensures r.Ok? ==> r.value != JNull
    ensures r.Err? ==> r.error == ValueError(FailedMessage(lineNo))
  {
    match Attempt(rt, s)
    case Some(v) => Ok(v)
    case None =>
      match Attempt(rt, Repair(s))
      case Some(v) => Ok(v)
      case None => Err(ValueError(FailedMessage(lineNo)))
  }

  // ---------------------------------------------------------------- extract_json_from_string

  /**
   * An opening "```json" at `i`, with `json` in any case; under `re.IGNORECASE` the long s (U+017F) also
   * stands for `s`.
   */
  predicate JsonTagAt(s: string, i: nat) {
    i + 7 <= |s| && s[i..i + 3] == Fence
    && (s[i + 3] == 'j' || s[i + 3] == 'J')
    && (s[i + 4] == 's' || s[i + 4] == 'S' || s[i + 4] == '\U{017F}')
    && (s[i + 5] == 'o' || s[i + 5] == 'O')
    && (s[i + 6] == 'n' || s[i + 6] == 'N')
  }

  /** The first opening tag at or after `from`. */
  function FindJsonTag(s: string, from: nat): (r: Option<nat>)
    ensures r.Some? ==> from <= r.value && JsonTagAt(s, r.value)
    ensures r.Some? ==> forall j :: from <= j < r.value ==> !JsonTagAt(s, j)
    ensures r.None? ==> forall j :: from <= j ==> !JsonTagAt(s, j)
    decreases |s| - from
  {
    if from + 7 > |s| then None
    else if JsonTagAt(s, from) then Some(from)
    else FindJsonTag(s, from + 1)
  }

  /**
   * The group of `re.search(r"```json(.*?)```", s, re.DOTALL | re.IGNORECASE)`: from the first opening tag to
   * the first fence after it. When that tag has no fence after it, no later tag has one either.
   */
  function JsonBlock(s: string): Option<string> {
    match FindJsonTag(s, 0)
    case None => None
    case Some(i) =>
      match Find(s, Fence, i + 7)
      case None => None
      case Some(c) => Some(s[i + 7..c])
  }

  /**
   * `extract_json_from_string`, which never raises: a non-string or blank value is returned as it is;
   * otherwise the first ```json block (or the whole stripped text when there is none) is parsed, then
   * repaired and parsed, then the whole stripped text is parsed, and the original value is the last resort.
   * `lineNo` only goes into messages.
   */
  function ExtractJson(rt: Runtime, raw: Json, lineNo: int): Json {
    if !raw.JStr? then raw
    else
      var s := Strip(raw.s);
      if s == [] then raw
      else
        var inner := match JsonBlock(s) case Some(b) => Strip(b) case None => s;
        match rt.loads(inner)
        case Some(v) => v
        case None =>
          match FixAndParse(rt, inner, lineNo)
          case Ok(v) => v
          case Err(_) =>
            match rt.loads(s)
            case Some(v) => v
            case None => raw
  }

  /** Non-strings and blank strings come back unchanged. */
  lemma ExtractUnchanged(rt: Runtime, raw: Json, lineNo: int)
    requires !raw.JStr? || IsBlank(raw.s)
    ensures ExtractJson(rt, raw, lineNo) == raw
  {
    if raw.JStr? {
      StripEmptyIffBlank(raw.s);
    }
  }

  /**
   * When nothing parses (not the block, not its repair, not the whole stripped text), the value comes back
   * unchanged; and it comes back unchanged only then, or when one of those parses gives the value itself.
   */
  lemma ExtractLastResort(rt: Runtime, raw: Json, lineNo: int)
    requires raw.JStr? && !IsBlank(raw.s)
    ensures var s := Strip(raw.s);
      var inner := match JsonBlock(s) case Some(b) => Strip(b) case None => s;
      var r := ExtractJson(rt, raw, lineNo);
      && (rt.loads(inner).Some? ==> r == rt.loads(inner).value)
      && (rt.loads(inner).None? && Attempt(rt, Repair(inner)).Some? ==> r == Attempt(rt, Repair(inner)).value)
      && (rt.loads(inner).None? && Attempt(rt, Repair(inner)).None? && rt.loads(s).Some? ==> r == rt.loads(s).value)
      && (rt.loads(inner).None? && Attempt(rt, Repair(inner)).None? && rt.loads(s).None? ==> r == raw)
  {
    StripEmptyIffBlank(raw.s);
    var s := Strip(raw.s);
    var inner := match JsonBlock(s) case Some(b) => Strip(b) case None => s;
    if rt.loads(inner).None? {
      assert Attempt(rt, inner).None?;
    }
  }

  /** What `main` stores in `analysis`: the list dumped with indent 2 inside a ```json fence. */
  function Fenced(rt: Runtime, items: seq<Json>): string {
    "```json\n" + rt.dumpsIndented(JArr(items)) + "\n```"
  }

  /** Surrounding newlines are stripped off text whose ends are not whitespace. */
  lemma StripNewlines(d: string)
    requires d != [] && Tight(d)
    ensures Strip("\n" + d + "\n") == d
  {
    var x := "\n" + d + "\n";
    var y := d + "\n";
    assert x[1..] == y && y[0] == d[0];
    assert TrimStart(y) == y;
    assert TrimStart(x) == y;
    assert y[..|y| - 1] == d;
    assert TrimEnd(d) == d;
    assert TrimEnd(y) == d;
  }

  /** The block of a dump wrapped the way `main` wraps it is the dump between two newlines. */
  lemma FencedBlock(d: string)
    requires !Contains(d, Fence)
    ensures JsonBlock("```json\n" + d + "\n```") == Some("\n" + d + "\n")
  {
    FencedTag(d);
    FencedClose(d, 7);
    FencedInside(d);
  }

  /** What lies between the tag and the closing fence. */
  lemma FencedInside(d: string)
    ensures ("```json\n" + d + "\n```")[7..|d| + 9] == "\n" + d + "\n"
  {
  }

  /** The wrapped dump starts and ends with a backtick, so stripping leaves it alone. */
  lemma FencedTight(d: string)
    ensures Strip("```json\n" + d + "\n```") == "```json\n" + d + "\n```"
  {
    var f := "```json\n" + d + "\n```";
    assert f[0] == '`' && f[|f| - 1] == '`';
    TightStrip(f);
  }

  /** The wrapped dump opens with the tag. */
  lemma FencedTag(d: string)
    ensures FindJsonTag("```json\n" + d + "\n```", 0) == Some(0)
  {
    var f := "```json\n" + d + "\n```";
    assert f[0..3] == Fence && f[3..7] == "json";
    assert JsonTagAt(f, 0);
  }

  /** The first fence at or after `c`, up to the closing one, is the closing one. */
  lemma {:induction false} FencedClose(d: string, c: nat)
    requires !Contains(d, Fence) && 7 <= c <= |d| + 9
    ensures Find("```json\n" + d + "\n```", Fence, c) == Some(|d| + 9)
    decreases |d| + 9 - c
  {
    var f := "```json\n" + d + "\n```";
    if c < |d| + 9 {
      NoInnerFence(d, c);
      FencedClose(d, c + 1);
    } else {
      assert f[|d| + 9..|d| + 12] == Fence;
    }
  }

  /** No fence starts between the opening tag and the closing fence. */
  lemma NoInnerFence(d: string, c: nat)
    requires !Contains(d, Fence) && 7 <= c < |d| + 9
    ensures !At("```json\n" + d + "\n```", c, Fence)
  {
    var f := "```json\n" + d + "\n```";
    if At(f, c, Fence) {
      assert f[c..c + 3] == Fence;
      assert f[c] == '`' && f[c + 1] == '`' && f[c + 2] == '`';
      assert f[7] == '\n' && f[|d| + 8] == '\n';
      assert f[8..|d| + 8] == d;
      AtInSlice(f, 8, |d| + 8, c, Fence);
      assert false;
    }
  }

  /** The wrapped dump is not blank. */
  lemma FencedNotBlank(d: string)
    ensures Strip("```json\n" + d + "\n```") != []
  {
    FencedTight(d);
  }

  /** The block of the wrapped dump, stripped, is the dump. */
  lemma FencedBlockParses(rt: Runtime, d: string, v: Json)
    requires d != [] && Tight(d) && !Contains(d, Fence)
    requires rt.loads(d) == Some(v)
    ensures var f := "```json\n" + d + "\n```";
      JsonBlock(Strip(f)).Some? && rt.loads(Strip(JsonBlock(Strip(f)).value)) == Some(v)
  {
    FencedTight(d);
    FencedBlock(d);
    StripNewlines(d);
  }

  /** A fenced text whose block parses comes back as the parsed value. */
  lemma FencedParses(rt: Runtime, d: string, v: Json, lineNo: int)
    requires d != [] && Tight(d) && !Contains(d, Fence)
    requires rt.loads(d) == Some(v)
    ensures ExtractJson(rt, JStr("```json\n" + d + "\n```"), lineNo) == v
  {
    FencedBlockParses(rt, d, v);
    FencedNotBlank(d);
    ExtractBlock(rt, JStr("```json\n" + d + "\n```"), v, lineNo);
  }

  /**
   * What `main` writes into `analysis` reads back as the list of matches it wrote, as long as the matches
   * hold no float and the dump itself holds no ``` (a condition that quotes a fence would end the block early).
   */
  lemma FencedRoundTrip(rt: Runtime, ms: seq<Json>, lineNo: int)
    requires Sound(rt) && Dumpable(JArr(ms)) && !Contains(rt.dumpsIndented(JArr(ms)), Fence)
    ensures ExtractJson(rt, JStr(Fenced(rt, ms)), lineNo) == JArr(ms)
  {
    var d := rt.dumpsIndented(JArr(ms));
    assert rt.loads(d) == Some(JArr(ms));
    assert d != [] && Tight(d);
    FencedParses(rt, d, JArr(ms), lineNo);
  }

  /** The first ```json block of a non-blank text, when it parses once stripped, is the result. */
  lemma ExtractBlock(rt: Runtime, raw: Json, v: Json, lineNo: int)
    requires raw.JStr? && Strip(raw.s) != [] && JsonBlock(Strip(raw.s)).Some?
    requires rt.loads(Strip(JsonBlock(Strip(raw.s)).value)) == Some(v)
    ensures ExtractJson(rt, raw, lineNo) == v
  {
  }
}
