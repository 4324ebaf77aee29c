/**
 * What the stage scripts share: reading a JSONL file into records tagged with their line number in `__idx`,
 * and the error text a record gets when every attempt failed.
 */
module Stage {
  import opened Wrappers
  import opened Text
  import opened Python
  import opened Retry
  import opened Reorder

  /** `f"Error after {max_retries} attempts: {last_err}"` */
  function ErrorAfter(maxRetries: int, err: string): (r: string)
    ensures |r| > |err| && r[|r| - |err|..] == err
  {
    "Error after " + IntToString(maxRetries) + " attempts: " + err
  }

  /** `data["__idx"] = i` */
  function Tag(d: Dict, i: int): Dict {
    Put(d, "__idx", JInt(i))
  }

  predicate ParsesToDict(rt: Runtime, line: string) {
    rt.loads(line).Some? && rt.loads(line).value.JObj?
  }

  /**
   * The loading loop of the scripts that skip a bad line: `data = json.loads(line); data["__idx"] = i` inside
   * `try`, so a line that does not parse, or parses to something other than a dict (where the item
   * assignment raises TypeError), is left out.
   */
  function Loaded(rt: Runtime, lines: seq<string>): seq<Dict> {
    if lines == [] then []
    else
      var n := |lines| - 1;
      Loaded(rt, lines[..n]) + (if ParsesToDict(rt, lines[n]) then [Tag(rt.loads(lines[n]).value.fields, n)] else [])
  }

  lemma TagIdx(d: Dict, i: int)
    ensures IdxOf(Tag(d, i)) == i
  {
  }

  /** At most one record per line. */
  lemma {:induction false} LoadedLength(rt: Runtime, lines: seq<string>)
    ensures |Loaded(rt, lines)| <= |lines|
    decreases |lines|
  {
    if lines != [] {
      LoadedLength(rt, lines[..|lines| - 1]);
    }
  }

  /** The loaded records' tags are line numbers. */
  lemma {:induction false} LoadedBounds(rt: Runtime, lines: seq<string>)
    ensures forall k :: 0 <= k < |Loaded(rt, lines)| ==> 0 <= IdxOf(Loaded(rt, lines)[k]) < |lines|
    decreases |lines|
  {
    if lines != [] {
      var n := |lines| - 1;
      LoadedBounds(rt, lines[..n]);
      if ParsesToDict(rt, lines[n]) {
        TagIdx(rt.loads(lines[n]).value.fields, n);
      }
    }
  }

  /** The loaded records' tags strictly increase. */
  lemma {:induction false} LoadedIncreasing(rt: Runtime, lines: seq<string>)
    ensures StrictlyIncreasing(Loaded(rt, lines))
    decreases |lines|
  {
    if lines != [] {
      var n := |lines| - 1;
      var before := Loaded(rt, lines[..n]);
      LoadedIncreasing(rt, lines[..n]);
      LoadedBounds(rt, lines[..n]);
      if ParsesToDict(rt, lines[n]) {
        var d := rt.loads(lines[n]).value.fields;
        TagIdx(d, n);
        var recs := before + [Tag(d, n)];
        forall i, j | 0 <= i < j < |recs| ensures IdxOf(recs[i]) < IdxOf(recs[j]) {
          assert recs[i] == before[i];
        }
      }
    }
  }

  /** Reading one more line appends its record, when it holds a dict. */
  lemma LoadedSnoc(rt: Runtime, lines: seq<string>, i: nat)
    requires i < |lines|
    ensures Loaded(rt, lines[..i + 1])
      == Loaded(rt, lines[..i]) + (if ParsesToDict(rt, lines[i]) then [Tag(rt.loads(lines[i]).value.fields, i)] else [])
  {
    assert lines[..i + 1][..i] == lines[..i];
  }

  /** Every loaded record is the dict on line `__idx`, tagged with that line number. */
  lemma {:induction false} LoadedFromLine(rt: Runtime, lines: seq<string>, k: nat)
    requires k < |Loaded(rt, lines)|
    ensures 0 <= IdxOf(Loaded(rt, lines)[k]) < |lines|
    ensures var i := IdxOf(Loaded(rt, lines)[k]);
      ParsesToDict(rt, lines[i]) && Loaded(rt, lines)[k] == Tag(rt.loads(lines[i]).value.fields, i)
    decreases |lines|
  {
    var n := |lines| - 1;
    var prefix := lines[..n];
    var before := Loaded(rt, prefix);
    if k < |before| {
      LoadedFromLine(rt, prefix, k);
      assert Loaded(rt, lines)[k] == before[k];
      assert prefix[IdxOf(before[k])] == lines[IdxOf(before[k])];
    } else {
      LoadedLength(rt, prefix);
      TagIdx(rt.loads(lines[n]).value.fields, n);
    }
  }

  /** Every line that holds a dict is loaded. */
  lemma {:induction false} LoadedComplete(rt: Runtime, lines: seq<string>, i: nat)
    requires i < |lines| && ParsesToDict(rt, lines[i])
    ensures exists k :: 0 <= k < |Loaded(rt, lines)| && IdxOf(Loaded(rt, lines)[k]) == i
    decreases |lines|
  {
    var n := |lines| - 1;
    var before := Loaded(rt, lines[..n]);
    if i < n {
      LoadedComplete(rt, lines[..n], i);
      var k :| 0 <= k < |before| && IdxOf(before[k]) == i;
      assert Loaded(rt, lines)[k] == before[k];
    } else {
      var d := rt.loads(lines[n]).value.fields;
      assert IdxOf(Tag(d, n)) == n;
      assert Loaded(rt, lines)[|before|] == Tag(d, n);
    }
  }

  /**
   * The text a stage stores in its field once the loop is over: the stripped answer, or the error text after
   * the last attempt; None where the loop fell through and the coroutine returned None.
   */
  function Stored(outcome: Outcome, maxRetries: int): (r: Option<string>)
    ensures r.Some? <==> !outcome.FellThrough?
    ensures outcome.Succeeded? ==> r == Some(Strip(outcome.text)) && Tight(r.value)
    ensures outcome.Exhausted? ==> r == Some(ErrorAfter(maxRetries, outcome.lastError))
  {
    match outcome
    case Succeeded(t) => StripTight(t); Some(Strip(t))
    case Exhausted(e) => Some(ErrorAfter(maxRetries, e))
    case FellThrough => None
  }

  /** The text stored when at least one attempt is allowed, as the scripts' `main` runs the loop: never None. */
  function Reported(replies: nat -> Reply, maxRetries: int): (r: string)
    requires maxRetries >= 1
    ensures Stored(Retries(replies, maxRetries).outcome, maxRetries) == Some(r)
  {
    RetriesShape(replies, maxRetries);
    Stored(Retries(replies, maxRetries).outcome, maxRetries).value
  }

  /** The first answer within `maxRetries` attempts is stored, stripped. */
  lemma ReportedFirstAnswer(replies: nat -> Reply, maxRetries: int, j: nat)
    requires 1 <= j <= maxRetries && replies(j).Answer?
    requires forall i :: 1 <= i < j ==> replies(i).Failure?
    ensures Reported(replies, maxRetries) == Strip(replies(j).text)
  {
    RetriesFirstAnswer(replies, maxRetries, j);
  }

  /** When every attempt fails, the error of the last one is stored. */
  lemma ReportedAllFail(replies: nat -> Reply, maxRetries: int)
    requires 1 <= maxRetries
    requires forall i :: 1 <= i <= maxRetries ==> replies(i).Failure?
    ensures Reported(replies, maxRetries) == ErrorAfter(maxRetries, replies(maxRetries).error)
  {
    RetriesAllFail(replies, maxRetries);
  }

  /** The loading loop of `main`, for the scripts that skip a line they cannot load. */
  method LoadRecords(rt: Runtime, lines: seq<string>) returns (records: seq<Dict>)
    ensures records == Loaded(rt, lines)
  {
    records := [];
    for i := 0 to |lines|
      invariant records == Loaded(rt, lines[..i])
    {
      assert lines[..i + 1][..i] == lines[..i];
      var parsed := rt.loads(lines[i]);
      if parsed.Some? && parsed.value.JObj? {
        records := records + [Tag(parsed.value.fields, i)];
      }
    }
    assert lines[..|lines|] == lines;
  }

  /** The loading loop with `if i >= limit: break`, for the scripts that skip a line they cannot load. */
  method LoadFirstRecords(rt: Runtime, lines: seq<string>, limit: nat) returns (records: seq<Dict>)
    ensures records == Loaded(rt, FirstLines(lines, limit))
  {
    records := [];
    var i := 0;
    while i < |lines|
      invariant i <= |lines| && i <= limit
      invariant records == Loaded(rt, lines[..i])
    {
      if i >= limit {
        break;
      }
      assert lines[..i + 1][..i] == lines[..i];
      var parsed := rt.loads(lines[i]);
      if parsed.Some? && parsed.value.JObj? {
        records := records + [Tag(parsed.value.fields, i)];
      }
      i := i + 1;
    }
    assert i == |lines| ==> lines[..i] == lines;
  }

  /** Removing the tag again after assigning another field leaves the loaded dict with that field assigned. */
  lemma Untag(d: Dict, i: int, field: string, v: Json)
    requires !HasKey(d, "__idx") && field != "__idx"
    ensures Pop(Put(Tag(d, i), field, v), "__idx") == Put(d, field, v)
  {
    PopPutCommute(Tag(d, i), "__idx", field, v);
    PopPutNew(d, "__idx", JInt(i));
  }

  /** The output file, one JSON line per record, each with its `__idx` popped first. */
  function Written(rt: Runtime, results: seq<Dict>): (out: seq<string>)
    ensures |out| == |results|
  {
    seq(|results|, k requires 0 <= k < |results| => rt.dumps(JObj(Pop(results[k], "__idx"))))
  }

  /** `for r in results: r.pop("__idx", None); f.write(json.dumps(r, ensure_ascii=False) + "\n")` */
  method WriteRecords(rt: Runtime, results: seq<Dict>) returns (out: seq<string>)
    ensures out == Written(rt, results)
  {
    out := [];
    for k := 0 to |results|
      invariant out == Written(rt, results[..k])
    {
      out := out + [rt.dumps(JObj(Pop(results[k], "__idx")))];
    }
    assert results[..|results|] == results;
  }

  /** The output file when `__idx` stays: one JSON line per record, dumped as it is. */
  function Dumped(rt: Runtime, results: seq<Dict>): (out: seq<string>)
    ensures |out| == |results|
  {
    seq(|results|, k requires 0 <= k < |results| => rt.dumps(JObj(results[k])))
  }

  /** `for r in results: f.write(json.dumps(r, ensure_ascii=False) + "\n")` */
  method DumpRecords(rt: Runtime, results: seq<Dict>) returns (out: seq<string>)
    ensures out == Dumped(rt, results)
  {
    out := [];
    for k := 0 to |results|
      invariant out == Dumped(rt, results[..k])
    {
      out := out + [rt.dumps(JObj(results[k]))];
    }
    assert results[..|results|] == results;
  }

  /** The first `limit` lines, as `for i, line in enumerate(f): if i >= limit: break` reads them. */
  function FirstLines(lines: seq<string>, limit: nat): (r: seq<string>)
    ensures |r| == (if |lines| <= limit then |lines| else limit) && r == lines[..|r|]
    ensures |lines| <= limit ==> r == lines
  {
    if |lines| <= limit then lines else lines[..limit]
  }
}
