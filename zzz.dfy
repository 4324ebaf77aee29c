/**
 * optm_generation/zzz.py: reads the first 100 lines of a statistics file and lists, by line number from 1,
 * the records whose `is_correct_best@1` is exactly `False`, and the records whose flag is exactly `True`
 * but whose numeric `speedup_best@1` is below 1.1, counting both. Lines that are not JSON are skipped; a
 * JSON line that is not an object stops the script (`.get` raises AttributeError).
 */
module Zzz {
  import opened Wrappers
  import opened Python

  /** Only file lines 1 to `Window` are read. */
  const Window: nat := 100
  const FlagKey := "is_correct_best@1"
  const SpeedupKey := "speedup_best@1"

  /** What the script does with one record. */
  datatype Kind = Incorrect | Slow | Uncounted

  /** `isinstance(speedup, (int, float))`: a bool is an int in Python, so `True` and `False` pass. */
  predicate Numeric(v: Option<Json>) {
    v.Some? && (v.value.JInt? || v.value.JBool? || v.value.JFloat?)
  }

  /** `speedup < 1.1` for a numeric value; a bool compares as 0 or 1. */
  predicate BelowThreshold(v: Json)
    requires v.JInt? || v.JBool? || v.JFloat?
  {
    match v
    case JInt(n) => (n as real) < 1.1
    case JBool(b) => true
    case JFloat(r) => r < 1.1
  }

  /** The `if`/`elif` of the loop: `is False` and `is True` admit only the two bools, not 0, 1 or a missing key. */
  function Classify(obj: Dict): Kind {
    var flag := Get(obj, FlagKey);
    var speedup := Get(obj, SpeedupKey);
    if flag == Some(JBool(false)) then Incorrect
    else if flag == Some(JBool(true)) && Numeric(speedup) && BelowThreshold(speedup.value) then Slow
    else Uncounted
  }

  /**
   * One line: a line `json.loads` rejects is skipped (`continue`), a value other than an object raises
   * AttributeError at `obj.get`, and a record is classified.
   */
  function LineKind(rt: Runtime, line: string): Result<Kind, PyError> {
    match rt.loads(line)
    case None => Ok(Uncounted)
    case Some(v) => if v.JObj? then Ok(Classify(v.fields)) else Err(AttributeError)
  }

  /** The two counters and the two lists of line numbers the script prints. */
  datatype Report = Report(falseCount: nat, falseLines: seq<nat>, lowCount: nat, lowLines: seq<nat>)

  /** The report after the given lines, numbered from 1; the first line that raises stops the script. */
  function Tally(rt: Runtime, lines: seq<string>): Result<Report, PyError>
    decreases |lines|
  {
    if lines == [] then Ok(Report(0, [], 0, []))
    else
      match Tally(rt, lines[..|lines| - 1])
      case Err(e) => Err(e)
      case Ok(r) =>
        var n := |lines|;
        match LineKind(rt, lines[n - 1])
        case Err(e) => Err(e)
        case Ok(Incorrect) => Ok(r.(falseCount := r.falseCount + 1, falseLines := r.falseLines + [n]))
        case Ok(Slow) => Ok(r.(lowCount := r.lowCount + 1, lowLines := r.lowLines + [n]))
        case Ok(Uncounted) => Ok(r)
  }

  function Min(a: int, b: int): int {
    if a < b then a else b
  }

  /** The whole script on a file of the given lines: the report on its first `Window` lines. */
  function Script(rt: Runtime, lines: seq<string>): Result<Report, PyError> {
    Tally(rt, lines[..Min(Window, |lines|)])
  }

  /** The script's loop, with the counters and lists as variables. */
  method Count(rt: Runtime, lines: seq<string>) returns (r: Result<Report, PyError>)
    ensures r == Script(rt, lines)
  {
    var falseCount, trueButLowSpeedupCount := 0, 0;
    var falseLines: seq<nat>, trueLowSpeedupLines: seq<nat> := [], [];
    var idx := 0;
    while idx < |lines|
      invariant 0 <= idx <= Min(Window, |lines|)
      invariant Tally(rt, lines[..idx]) == Ok(Report(falseCount, falseLines, trueButLowSpeedupCount, trueLowSpeedupLines))
    {
      var i := idx + 1;
      if i > Window {
        break;
      }
      var line := lines[idx];
      assert lines[..i][..idx] == lines[..idx];
      var obj := rt.loads(line);
      if obj.None? {
        idx := i;
        continue;
      }
      if !obj.value.JObj? {
        TallyStops(rt, lines, i, Min(Window, |lines|));
        return Err(AttributeError);
      }
      var isCorrect := Get(obj.value.fields, FlagKey);
      var speedup := Get(obj.value.fields, SpeedupKey);
      if isCorrect == Some(JBool(false)) {
        falseCount := falseCount + 1;
        falseLines := falseLines + [i];
      } else if isCorrect == Some(JBool(true)) && Numeric(speedup) && BelowThreshold(speedup.value) {
        trueButLowSpeedupCount := trueButLowSpeedupCount + 1;
        trueLowSpeedupLines := trueLowSpeedupLines + [i];
      }
      idx := i;
    }
    r := Ok(Report(falseCount, falseLines, trueButLowSpeedupCount, trueLowSpeedupLines));
  }

  /** A list of line numbers in strictly increasing order. */
  predicate Increasing(xs: seq<nat>) {
    forall a, b :: 0 <= a < b < |xs| ==> xs[a] < xs[b]
  }

  /** The report is well formed: each counter is its list's length and each list is strictly increasing. */
  predicate Consistent(r: Report) {
    r.falseCount == |r.falseLines| && r.lowCount == |r.lowLines| && Increasing(r.falseLines) && Increasing(r.lowLines)
  }

  /** Once a line has raised, the lines after it change nothing. */
  lemma {:induction false} TallyStops(rt: Runtime, lines: seq<string>, j: nat, k: nat)
    requires j <= k <= |lines| && Tally(rt, lines[..j]).Err?
    ensures Tally(rt, lines[..k]) == Tally(rt, lines[..j])
    decreases k
  {
    if j < k {
      TallyStops(rt, lines, j, k - 1);
      assert lines[..k][..k - 1] == lines[..k - 1];
    }
  }

  /** The report is produced exactly when no line raises, and the only error is AttributeError. */
  lemma {:induction false} TallyOk(rt: Runtime, lines: seq<string>)
    ensures Tally(rt, lines).Ok? <==> forall k :: 0 <= k < |lines| ==> LineKind(rt, lines[k]).Ok?
    ensures Tally(rt, lines).Err? ==> Tally(rt, lines).error == AttributeError
    decreases |lines|
  {
    if lines != [] {
      var n := |lines|;
      var before := lines[..n - 1];
      TallyOk(rt, before);
      assert forall k :: 0 <= k < n - 1 ==> before[k] == lines[k];
    }
  }

  /** Every number in `xs` is a line number from 1 to `n`. */
  predicate Bounded(xs: seq<nat>, n: nat) {
    forall a :: 0 <= a < |xs| ==> 1 <= xs[a] <= n
  }

  /** A report is consistent, and lists only numbers of the lines read. */
  lemma {:induction false} TallyConsistent(rt: Runtime, lines: seq<string>)
    requires Tally(rt, lines).Ok?
    ensures var r := Tally(rt, lines).value;
      Consistent(r) && Bounded(r.falseLines, |lines|) && Bounded(r.lowLines, |lines|)
    decreases |lines|
  {
    if lines != [] {
      var n := |lines|;
      var before := lines[..n - 1];
      assert Tally(rt, before).Ok?;
      TallyConsistent(rt, before);
      var r := Tally(rt, before).value;
      Appended(r.falseLines, n);
      Appended(r.lowLines, n);
    }
  }

  /** Appending the next line number keeps a list of earlier line numbers increasing and in range. */
  lemma Appended(xs: seq<nat>, n: nat)
    requires n >= 1 && Increasing(xs) && Bounded(xs, n - 1)
    ensures Increasing(xs + [n]) && Bounded(xs + [n], n) && Bounded(xs, n)
  {
  }

  /** The list of the lines of a category. */
  function Listed(r: Report, kind: Kind): seq<nat>
    requires kind != Uncounted
  {
    if kind == Incorrect then r.falseLines else r.lowLines
  }

  /** A report lists exactly the lines of a category. */
  lemma {:induction false} TallyListed(rt: Runtime, lines: seq<string>, kind: Kind)
    requires Tally(rt, lines).Ok? && kind != Uncounted
    ensures forall m :: m in Listed(Tally(rt, lines).value, kind) <==> 1 <= m <= |lines| && LineKind(rt, lines[m - 1]) == Ok(kind)
    decreases |lines|
  {
    if lines != [] {
      var n := |lines|;
      var before := lines[..n - 1];
      assert Tally(rt, before).Ok?;
      TallyListed(rt, before, kind);
      var r, r' := Tally(rt, before).value, Tally(rt, lines).value;
      var added := if LineKind(rt, lines[n - 1]) == Ok(kind) then [n] else [];
      assert Listed(r', kind) == Listed(r, kind) + added;
      forall m
        ensures m in Listed(r', kind) <==> 1 <= m <= n && LineKind(rt, lines[m - 1]) == Ok(kind)
      {
        assert m in Listed(r', kind) <==> m in Listed(r, kind) || m in added;
        if 1 <= m < n {
          assert before[m - 1] == lines[m - 1];
        }
      }
    }
  }

  /**
   * What the script prints: line `n` is listed as false exactly when it is one of the first `Window` lines
   * and its record's flag is exactly `False`, and as low-speedup exactly when its record is in the other
   * category; no line is in both lists, each counter is its list's length and the lists are increasing.
   */
  lemma ScriptReport(rt: Runtime, lines: seq<string>)
    requires Script(rt, lines).Ok?
    ensures var r := Script(rt, lines).value;
      && Consistent(r)
      && (forall n :: n in r.falseLines <==> 1 <= n <= Min(Window, |lines|) && LineKind(rt, lines[n - 1]) == Ok(Incorrect))
      && (forall n :: n in r.lowLines <==> 1 <= n <= Min(Window, |lines|) && LineKind(rt, lines[n - 1]) == Ok(Slow))
      && (forall n :: !(n in r.falseLines && n in r.lowLines))
  {
    var window := lines[..Min(Window, |lines|)];
    TallyConsistent(rt, window);
    TallyListed(rt, window, Incorrect);
    TallyListed(rt, window, Slow);
    var r := Script(rt, lines).value;
    assert Listed(r, Incorrect) == r.falseLines && Listed(r, Slow) == r.lowLines;
    forall n
      ensures n in r.falseLines <==> 1 <= n <= Min(Window, |lines|) && LineKind(rt, lines[n - 1]) == Ok(Incorrect)
      ensures n in r.lowLines <==> 1 <= n <= Min(Window, |lines|) && LineKind(rt, lines[n - 1]) == Ok(Slow)
    {
      if 1 <= n <= |window| {
        assert window[n - 1] == lines[n - 1];
      }
    }
  }

  /**
   * The script prints its report exactly when none of the first `Window` lines holds JSON other than an
   * object (a line that is not JSON is skipped); otherwise it stops with AttributeError.
   */
  lemma ScriptOk(rt: Runtime, lines: seq<string>)
    ensures Script(rt, lines).Ok? <==>
      forall k :: 0 <= k < Min(Window, |lines|) ==> rt.loads(lines[k]).None? || rt.loads(lines[k]).value.JObj?
    ensures Script(rt, lines).Err? ==> Script(rt, lines).error == AttributeError
  {
    var window := lines[..Min(Window, |lines|)];
    TallyOk(rt, window);
    assert forall k :: 0 <= k < |window| ==> window[k] == lines[k];
  }

  /** Only the first `Window` lines matter: whatever follows them changes nothing. */
  lemma WindowOnly(rt: Runtime, lines: seq<string>, more: seq<string>)
    requires |lines| >= Window
    ensures Script(rt, lines + more) == Script(rt, lines)
  {
    assert (lines + more)[..Window] == lines[..Window];
  }

  /** `is False` and `is True` are identity tests: an integer flag 0 or 1 never counts, nor does a missing one. */
  lemma FlagExact(obj: Dict)
    requires Get(obj, FlagKey) == Some(JInt(0)) || Get(obj, FlagKey) == Some(JInt(1)) || Get(obj, FlagKey) == None
    ensures Classify(obj) == Uncounted
  {
  }

  /**
   * A record flagged `True` counts as low-speedup for a bool speedup (`True < 1.1` holds) and for an
   * integer speedup up to 1, but not for a missing, string or null speedup.
   */
  lemma SpeedupTypes(obj: Dict)
    requires Get(obj, FlagKey) == Some(JBool(true))
    ensures var s := Get(obj, SpeedupKey);
      && (s.Some? && s.value.JBool? ==> Classify(obj) == Slow)
      && (s.Some? && s.value.JInt? ==> (Classify(obj) == Slow <==> s.value.i <= 1))
      && (s == None || (s.Some? && (s.value.JStr? || s.value.JNull?)) ==> Classify(obj) == Uncounted)
  {
  }
}
