/**
 * optm_generation_old/zzz.py: `count_printf_in_analysis` counts, among the first `max_lines` lines of a
 * JSON-lines file, the records whose `prompt` field (despite the function's name) contains `printf`.
 * A line that is not JSON is reported and skipped but still uses up one of the `max_lines` slots; any
 * other exception (a value that is not an object, a prompt that `in` cannot search) ends the call.
 */
module ZzzOld {
  import opened Wrappers
  import opened Text
  import opened Python

  const Needle := "printf"
  const PromptKey := "prompt"

  /**
   * What one parsed line adds to the count: 1 when the prompt contains the needle, 0 otherwise or when the
   * line is not JSON; AttributeError for JSON other than an object, and TypeError from `in` for a prompt
   * that is null, a bool or a number.
   */
  function ValueCount(parsed: Option<Json>, needle: string): (r: Result<nat, PyError>)
    ensures r.Ok? ==> r.value <= 1
    ensures r.Err? ==> r.error == AttributeError || r.error == TypeError
  {
    match parsed
    case None => Ok(0)
    case Some(v) =>
      if !v.JObj? then Err(AttributeError)
      else
        match PyContains(GetOr(v.fields, PromptKey, JStr("")), needle)
        case Err(e) => Err(e)
        case Ok(found) => Ok(if found then 1 else 0)
  }

  /** What one line adds to the count: the line is stripped before `json.loads`. */
  function LineCount(rt: Runtime, line: string, needle: string): (r: Result<nat, PyError>)
    ensures r.Ok? ==> r.value <= 1
    ensures r.Err? ==> r.error == AttributeError || r.error == TypeError
  {
    ValueCount(rt.loads(Strip(line)), needle)
  }

  /** The loop's view of one line: what it adds to the count. */
  function LineFn(rt: Runtime): string -> Result<nat, PyError> {
    line => LineCount(rt, line, Needle)
  }

  /** A per-line count that adds at most one. */
  ghost predicate AtMostOne(f: string -> Result<nat, PyError>) {
    forall line :: f(line).Ok? ==> f(line).value <= 1
  }

  /** The count over the given lines; the first line that raises ends the call. */
  function CountIn(f: string -> Result<nat, PyError>, lines: seq<string>): Result<nat, PyError>
    decreases |lines|
  {
    if lines == [] then Ok(0)
    else
      match CountIn(f, lines[..|lines| - 1])
      case Err(e) => Err(e)
      case Ok(c) =>
        match f(lines[|lines| - 1])
        case Err(e) => Err(e)
        case Ok(d) => Ok(c + d)
  }

  /** How many lines the loop reads: `max_lines` of them, none when it is not positive, all when fewer. */
  function Examined(maxLines: int, count: nat): (r: nat)
    ensures r <= count && (maxLines >= 0 ==> r <= maxLines)
    ensures r < count ==> r == Max(0, maxLines)
  {
    if maxLines <= 0 then 0 else if maxLines < count then maxLines else count
  }

  function Max(a: int, b: int): int {
    if a < b then b else a
  }

  /** `count_printf_in_analysis` on a file of the given lines. */
  function CountPrintf(rt: Runtime, lines: seq<string>, maxLines: int): Result<nat, PyError> {
    CountIn(LineFn(rt), lines[..Examined(maxLines, |lines|)])
  }

  /** The loop of `count_printf_in_analysis`, with its early `break`. */
  method CountPrintfInAnalysis(rt: Runtime, lines: seq<string>, maxLines: int) returns (r: Result<nat, PyError>)
    ensures r == CountPrintf(rt, lines, maxLines)
  {
    var count: nat := 0;
    for i := 0 to |lines|
      invariant i <= Max(0, maxLines)
      invariant CountIn(LineFn(rt), lines[..i]) == Ok(count)
    {
      if i >= maxLines {
        return Ok(count);
      }
      var next := CountThrough(rt, lines, i, count);
      if next.Err? {
        CountStops(LineFn(rt), lines, i + 1, Examined(maxLines, |lines|));
        return next;
      }
      count := next.value;
    }
    assert lines[..|lines|] == lines;
    return Ok(count);
  }

  /** The body of the loop: the count once line `i` is read too. */
  method CountThrough(rt: Runtime, lines: seq<string>, i: nat, count: nat) returns (r: Result<nat, PyError>)
    requires i < |lines| && CountIn(LineFn(rt), lines[..i]) == Ok(count)
    ensures r == CountIn(LineFn(rt), lines[..i + 1])
  {
    var d := CheckLine(rt, lines[i]);
    if d.Err? {
      CountFails(LineFn(rt), lines, i);
      return d;
    }
    CountNext(LineFn(rt), lines, i, count, d.value);
    return Ok(count + d.value);
  }

  /** What the loop does with one line. */
  method CheckLine(rt: Runtime, line: string) returns (d: Result<nat, PyError>)
    ensures d == LineFn(rt)(line)
  {
    var obj := rt.loads(Strip(line));
    d := Ok(0);
    if obj.Some? {
      if !obj.value.JObj? {
        return Err(AttributeError);
      }
      var analysis := GetOr(obj.value.fields, PromptKey, JStr(""));
      var found := PyContains(analysis, Needle);
      if found.Err? {
        return Err(found.error);
      }
      if found.value {
        d := Ok(1);
      }
    }
  }

  /** A line that counts adds its count. */
  lemma CountNext(f: string -> Result<nat, PyError>, lines: seq<string>, i: nat, c: nat, d: nat)
    requires i < |lines| && CountIn(f, lines[..i]) == Ok(c) && f(lines[i]) == Ok(d)
    ensures CountIn(f, lines[..i + 1]) == Ok(c + d)
  {
    assert lines[..i + 1][..i] == lines[..i];
  }

  /** A line that raises, after lines that did not, ends the count with its error. */
  lemma CountFails(f: string -> Result<nat, PyError>, lines: seq<string>, i: nat)
    requires i < |lines| && CountIn(f, lines[..i]).Ok? && f(lines[i]).Err?
    ensures CountIn(f, lines[..i + 1]) == f(lines[i])
  {
    assert lines[..i + 1][..i] == lines[..i];
  }

  /** Once a line has raised, the lines after it change nothing. */
  lemma {:induction false} CountStops(f: string -> Result<nat, PyError>, lines: seq<string>, j: nat, k: nat)
    requires j <= k <= |lines| && CountIn(f, lines[..j]).Err?
    ensures CountIn(f, lines[..k]) == CountIn(f, lines[..j])
    decreases k
  {
    if j < k {
      CountStops(f, lines, j, k - 1);
      assert lines[..k][..k - 1] == lines[..k - 1];
    }
  }

  /**
   * Over any lines: the count is produced exactly when no line raises, the error is the first raising
   * line's, and a per-line count of at most one adds up to at most the number of lines.
   */
  lemma {:induction false} CountInBounds(f: string -> Result<nat, PyError>, lines: seq<string>)
    ensures CountIn(f, lines).Ok? <==> forall k :: 0 <= k < |lines| ==> f(lines[k]).Ok?
    ensures CountIn(f, lines).Err? ==> exists k :: 0 <= k < |lines| && f(lines[k]) == CountIn(f, lines)
    ensures AtMostOne(f) && CountIn(f, lines).Ok? ==> CountIn(f, lines).value <= |lines|
    decreases |lines|
  {
    if lines != [] {
      var before := lines[..|lines| - 1];
      CountInBounds(f, before);
      assert forall k :: 0 <= k < |before| ==> before[k] == lines[k];
    }
  }

  /** The per-line count of the script adds at most one and raises only AttributeError or TypeError. */
  lemma LineFnShape(rt: Runtime)
    ensures AtMostOne(LineFn(rt))
    ensures forall line :: LineFn(rt)(line).Err? ==> LineFn(rt)(line).error in {AttributeError, TypeError}
  {
  }

  /**
   * The count never exceeds `max_lines` nor the number of lines in the file, and the only errors are
   * AttributeError and TypeError.
   */
  lemma CountBound(rt: Runtime, lines: seq<string>, maxLines: int)
    ensures CountPrintf(rt, lines, maxLines).Ok? ==> CountPrintf(rt, lines, maxLines).value <= |lines|
    ensures CountPrintf(rt, lines, maxLines).Ok? && maxLines >= 0 ==> CountPrintf(rt, lines, maxLines).value <= maxLines
    ensures CountPrintf(rt, lines, maxLines).Err? ==> CountPrintf(rt, lines, maxLines).error in {AttributeError, TypeError}
  {
    LineFnShape(rt);
    CountInBounds(LineFn(rt), lines[..Examined(maxLines, |lines|)]);
  }

  /** The count adds up over consecutive parts of the file, as long as neither raises. */
  lemma {:induction false} CountSplit(f: string -> Result<nat, PyError>, a: seq<string>, b: seq<string>)
    requires CountIn(f, a).Ok? && CountIn(f, b).Ok?
    ensures CountIn(f, a + b) == Ok(CountIn(f, a).value + CountIn(f, b).value)
    decreases |b|
  {
    if b != [] {
      var b' := b[..|b| - 1];
      var last := b[|b| - 1];
      assert (a + b)[..|a + b| - 1] == a + b' && (a + b)[|a + b| - 1] == last;
      CountSplit(f, a, b');
    } else {
      assert a + b == a;
    }
  }

  /**
   * Only the first `max_lines` lines are read, whatever they hold: a line that is not JSON uses up its slot
   * just as a record does.
   */
  lemma WindowOnly(rt: Runtime, lines: seq<string>, more: seq<string>, maxLines: int)
    requires |lines| >= maxLines
    ensures CountPrintf(rt, lines + more, maxLines) == CountPrintf(rt, lines, maxLines)
  {
    var n := Examined(maxLines, |lines|);
    assert Examined(maxLines, |lines + more|) == n;
    assert (lines + more)[..n] == lines[..n];
  }

  /**
   * A record counts by its `prompt` alone: a string prompt counts exactly when it contains the needle, a
   * missing prompt counts as the empty string does (not at all), and a null prompt raises TypeError.
   */
  lemma PromptOnly(obj: Dict, needle: string)
    requires needle != []
    ensures var p := Get(obj, PromptKey);
      && (p.Some? && p.value.JStr? ==> ValueCount(Some(JObj(obj)), needle) == Ok(if Contains(p.value.s, needle) then 1 else 0))
      && (p == None ==> ValueCount(Some(JObj(obj)), needle) == Ok(0))
      && (p == Some(JNull) ==> ValueCount(Some(JObj(obj)), needle) == Err(TypeError))
  {
    var p := Get(obj, PromptKey);
    if p == None {
      assert !Contains("", needle);
    }
  }
}
