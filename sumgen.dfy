/**
 * optm_generation/sumgen.py: asks the service for a summary of each of the first hundred records' source
 * code and writes the records back in file order, `__idx` included.
 */
module SumGen {
  import opened Wrappers
  import opened Text
  import opened Python
  import opened Retry
  import opened Reorder
  import opened Stage

  /** `summarize_code`'s default `max_retries`, which `main` uses. */
  const MaxRetries: int := 100

  /** `main` reads lines 0 .. 99 only. */
  const LineLimit: nat := 100

  const Instruction: string :=
    "Summarize the purpose of the following code and place the summary in a txt code block without outputting other content.\n"

  /** The one message's content: the instruction, then `str(record.get("src_code", ""))`. */
  function SummaryPrompt(rt: Runtime, record: Dict): (p: string)
    ensures |p| >= |Instruction| && p[..|Instruction|] == Instruction
    ensures !HasKey(record, "src_code") ==> p == Instruction
  {
    Instruction + Str(rt, GetOr(record, "src_code", JStr("")))
  }

  /** What `summarize_code` returns (None where the loop falls through) and the calls it made. */
  datatype Step = Step(record: Option<Dict>, trace: seq<Event>)

  /** There is no short cut: the request is sent whatever the record holds. */
  function SummaryAfter(record: Dict, replies: nat -> Reply, maxRetries: int): Step {
    var run := Retries(replies, maxRetries);
    match Stored(run.outcome, maxRetries)
    case Some(a) => Step(Some(Put(record, "summary", JStr(a))), run.trace)
    case None => Step(None, run.trace)
  }

  /** `summarize_code` */
  method SummarizeCode(record: Dict, replies: nat -> Reply, maxRetries: int) returns (result: Option<Dict>, trace: seq<Event>)
    ensures Step(result, trace) == SummaryAfter(record, replies, maxRetries)
  {
    var run := RunRetries(replies, maxRetries);
    trace := run.trace;
    match run.outcome {
      case Succeeded(t) => result := Some(Put(record, "summary", JStr(Strip(t))));
      case Exhausted(e) => result := Some(Put(record, "summary", JStr(ErrorAfter(maxRetries, e))));
      case FellThrough => result := None;
    }
  }

  /** Every record gets at least one call, at most `maxRetries`, even one without `src_code`. */
  lemma SummaryCalls(record: Dict, replies: nat -> Reply, maxRetries: int)
    requires maxRetries >= 1
    ensures 1 <= CallCount(SummaryAfter(record, replies, maxRetries).trace) <= maxRetries
  {
    RetriesBound(replies, maxRetries);
  }

  /**
   * With the default `max_retries` the record always comes back with `summary` assigned and nothing else
   * changed: there is no short cut, so it is always the text the retry loop reports.
   */
  lemma SummaryStored(record: Dict, replies: nat -> Reply)
    ensures SummaryAfter(record, replies, MaxRetries).record == Some(Put(record, "summary", JStr(Reported(replies, MaxRetries))))
  {
    var _ := Reported(replies, MaxRetries);
  }

  /** The record `main`'s run of `summarize_code` gives back: the loaded record with `summary` assigned, its tag kept. */
  function Finished(record: Dict, replies: nat -> Reply): (r: Dict)
    ensures r == Put(record, "summary", JStr(Reported(replies, MaxRetries)))
    ensures IdxOf(r) == IdxOf(record)
  {
    SummaryStored(record, replies);
    PutOther(record, "summary", JStr(Reported(replies, MaxRetries)), "__idx");
    SummaryAfter(record, replies, MaxRetries).record.value
  }

  /** The records after `summarize_code`, in load order: each with `summary` assigned. */
  function Processed(records: seq<Dict>, service: nat -> nat -> Reply): (done: seq<Dict>)
    ensures |done| == |records|
  {
    seq(|records|, i requires 0 <= i < |records| => Finished(records[i], service(i)))
  }

  /** `summarize_code` keeps every record's `__idx`, so the processed records' tags still strictly increase. */
  lemma ProcessedIncreasing(records: seq<Dict>, service: nat -> nat -> Reply)
    requires StrictlyIncreasing(records)
    ensures StrictlyIncreasing(Processed(records, service))
  {
    var done := Processed(records, service);
    forall i, j | 0 <= i < j < |done| ensures IdxOf(done[i]) < IdxOf(done[j]) {
      assert done[i] == Finished(records[i], service(i)) && done[j] == Finished(records[j], service(j));
    }
  }

  /** The first line that does not hold a dict, if there is one. */
  function FirstBad(rt: Runtime, lines: seq<string>): (r: Option<nat>)
    ensures r.None? <==> forall i :: 0 <= i < |lines| ==> ParsesToDict(rt, lines[i])
    ensures r.Some? ==> (r.value < |lines| && !ParsesToDict(rt, lines[r.value])
      && forall i :: 0 <= i < r.value ==> ParsesToDict(rt, lines[i]))
    decreases |lines|
  {
    if lines == [] then None
    else if !ParsesToDict(rt, lines[0]) then Some(0)
    else
      match FirstBad(rt, lines[1..])
      case None =>
        assert forall i :: 1 <= i < |lines| ==> lines[i] == lines[1..][i - 1];
        None
      case Some(k) =>
        assert forall i :: 1 <= i < k + 1 ==> lines[i] == lines[1..][i - 1];
        Some(k + 1)
  }

  /**
   * The loading loop: `record = json.loads(line); record["__idx"] = i` outside any `try`, so the first line
   * that does not parse raises JSONDecodeError, the first that is not a dict raises TypeError, and otherwise
   * every line becomes a record.
   */
  function LoadStrict(rt: Runtime, lines: seq<string>): Result<seq<Dict>, PyError> {
    match FirstBad(rt, lines)
    case Some(i) => if rt.loads(lines[i]).None? then Err(DecodeError) else Err(TypeError)
    case None => Ok(Loaded(rt, lines))
  }

  /** When every line holds a dict, every line becomes a record... */
  lemma {:induction false} AllLoaded(rt: Runtime, lines: seq<string>)
    requires forall i :: 0 <= i < |lines| ==> ParsesToDict(rt, lines[i])
    ensures |Loaded(rt, lines)| == |lines|
    decreases |lines|
  {
    if lines != [] {
      AllLoaded(rt, lines[..|lines| - 1]);
    }
  }

  /** ... and only then. */
  lemma {:induction false} LoadedFull(rt: Runtime, lines: seq<string>, i: nat)
    requires |Loaded(rt, lines)| == |lines| && i < |lines|
    ensures ParsesToDict(rt, lines[i])
    decreases |lines|
  {
    var n := |lines| - 1;
    var prefix := lines[..n];
    LoadedLength(rt, prefix);
    if i < n {
      LoadedFull(rt, prefix, i);
      assert prefix[i] == lines[i];
    }
  }

  lemma LoadedOnlyIfAll(rt: Runtime, lines: seq<string>)
    requires |Loaded(rt, lines)| == |lines|
    ensures forall i :: 0 <= i < |lines| ==> ParsesToDict(rt, lines[i])
  {
    forall i | 0 <= i < |lines| ensures ParsesToDict(rt, lines[i]) {
      LoadedFull(rt, lines, i);
    }
  }

  /** The first line that fails, reached after `i` records, decides the error. */
  lemma LoadStrictErr(rt: Runtime, lines: seq<string>, i: nat)
    requires i < |lines| && |Loaded(rt, lines[..i])| == i && !ParsesToDict(rt, lines[i])
    ensures LoadStrict(rt, lines) == if rt.loads(lines[i]).None? then Err(DecodeError) else Err(TypeError)
  {
    forall j | 0 <= j < i ensures ParsesToDict(rt, lines[j]) {
      LoadedFull(rt, lines[..i], j);
      assert lines[..i][j] == lines[j];
    }
  }

  /** When every line became a record, loading succeeds with those records. */
  lemma LoadStrictOk(rt: Runtime, lines: seq<string>)
    requires |Loaded(rt, lines)| == |lines|
    ensures LoadStrict(rt, lines) == Ok(Loaded(rt, lines))
  {
    LoadedOnlyIfAll(rt, lines);
  }

  method LoadRecords(rt: Runtime, lines: seq<string>) returns (r: Result<seq<Dict>, PyError>)
    ensures r == LoadStrict(rt, FirstLines(lines, LineLimit))
  {
    ghost var first := FirstLines(lines, LineLimit);
    var records: seq<Dict> := [];
    var i := 0;
    while i < |lines|
      invariant i <= |first|
      invariant records == Loaded(rt, first[..i]) && |records| == i
    {
      if i >= LineLimit {
        break;
      }
      assert first[i] == lines[i];
      var parsed := rt.loads(lines[i]);
      if parsed.None? || !parsed.value.JObj? {
        LoadStrictErr(rt, first, i);
        return if parsed.None? then Err(DecodeError) else Err(TypeError);
      }
      LoadedSnoc(rt, first, i);
      records := records + [Tag(parsed.value.fields, i)];
      i := i + 1;
    }
    assert first[..i] == first;
    LoadStrictOk(rt, first);
    return Ok(records);
  }

  /** The `as_completed` loop over `summarize_code` tasks, in the order the tasks complete. */
  method Complete(records: seq<Dict>, service: nat -> nat -> Reply, order: seq<nat>) returns (results: seq<Dict>)
    requires IsPermutation(order, |records|)
    ensures PermutationBoundsHold(order, |records|)
    ensures results == Pick(Processed(records, service), order)
  {
    ghost var done := Processed(records, service);
    PermutationBounds(order, |records|);
    results := [];
    for j := 0 to |order|
      invariant results == Pick(done, order[..j])
    {
      var r, _ := SummarizeCode(records[order[j]], service(order[j]), MaxRetries);
      SummaryStored(records[order[j]], service(order[j]));
      assert r == Some(done[order[j]]);
      PickSnoc(done, order, j);
      results := results + [r.value];
    }
    assert order[..|order|] == order;
  }

  /** What `main` writes when loading succeeds: every record, in file order, `__idx` still in it. */
  function SummaryFile(rt: Runtime, lines: seq<string>, service: nat -> nat -> Reply): Result<seq<string>, PyError> {
    match LoadStrict(rt, FirstLines(lines, LineLimit))
    case Err(e) => Err(e)
    case Ok(records) =>
      var done := Processed(records, service);
      Ok(Dumped(rt, done))
  }

  /** `main`, as `ProcessFile`; the file written does not depend on the completion order `order`. */
  method ProcessFile(rt: Runtime, lines: seq<string>, service: nat -> nat -> Reply, order: seq<nat>)
    returns (out: Result<seq<string>, PyError>)
    requires LoadStrict(rt, FirstLines(lines, LineLimit)).Ok? ==> IsPermutation(order, |FirstLines(lines, LineLimit)|)
    ensures out == SummaryFile(rt, lines, service)
  {
    var loaded := LoadRecords(rt, lines);
    if loaded.Err? {
      return Err(loaded.error);
    }
    var records := loaded.value;
    AllLoaded(rt, FirstLines(lines, LineLimit));
    var results := Complete(records, service, order);
    ghost var done := Processed(records, service);
    LoadedIncreasing(rt, FirstLines(lines, LineLimit));
    ProcessedIncreasing(records, service);
    RestoreOrder(done, order);
    assert results == Pick(done, order);
    results := SortByIdx(results);
    assert results == done;
    var written := DumpRecords(rt, results);
    return Ok(written);
  }

  /**
   * When every line among the first hundred holds a dict, one line is written per input line, in file order:
   * the dict on that line with `__idx` set to the line number and `summary` assigned after it.
   */
  lemma SummaryFileLines(rt: Runtime, lines: seq<string>, service: nat -> nat -> Reply, k: nat)
    requires forall i :: 0 <= i < |FirstLines(lines, LineLimit)| ==> ParsesToDict(rt, lines[i])
    requires k < |FirstLines(lines, LineLimit)|
    ensures var out := SummaryFile(rt, lines, service);
      && out.Ok? && |out.value| == |FirstLines(lines, LineLimit)|
      && out.value[k] == rt.dumps(JObj(Put(Tag(rt.loads(lines[k]).value.fields, k), "summary", JStr(Reported(service(k), MaxRetries)))))
  {
    var first := FirstLines(lines, LineLimit);
    assert forall i :: 0 <= i < |first| ==> ParsesToDict(rt, first[i]);
    AllLoaded(rt, first);
    LoadedFromLine(rt, first, k);
    LoadedIncreasing(rt, first);
    LoadedBounds(rt, first);
    var recs := Loaded(rt, first);
    IdxIsPosition(recs, |first|);
    assert first[k] == lines[k];
  }

  /** The written record keeps its line number in `__idx`, next to the new `summary`. */
  lemma SummaryKeepsIdx(d: Dict, k: nat, summary: string)
    ensures var r := Put(Tag(d, k), "summary", JStr(summary));
      Get(r, "__idx") == Some(JInt(k)) && Get(r, "summary") == Some(JStr(summary))
  {
    PutOther(Tag(d, k), "summary", JStr(summary), "__idx");
  }

  /** Strictly increasing tags below `n` on `n` records are exactly the positions. */
  lemma {:induction false} IdxIsPosition(recs: seq<Dict>, n: nat)
    requires |recs| == n && StrictlyIncreasing(recs) && forall k :: 0 <= k < n ==> 0 <= IdxOf(recs[k]) < n
    ensures forall k :: 0 <= k < n ==> IdxOf(recs[k]) == k
  {
    forall k | 0 <= k < n ensures IdxOf(recs[k]) == k {
      AtLeastPosition(recs, k);
      AtMostPosition(recs, n, k);
    }
  }

  lemma {:induction false} AtLeastPosition(recs: seq<Dict>, k: nat)
    requires k < |recs| && StrictlyIncreasing(recs) && forall i :: 0 <= i < |recs| ==> 0 <= IdxOf(recs[i])
    ensures IdxOf(recs[k]) >= k
    decreases k
  {
    if k > 0 {
      AtLeastPosition(recs, k - 1);
    }
  }

  lemma {:induction false} AtMostPosition(recs: seq<Dict>, n: nat, k: nat)
    requires k < |recs| == n && StrictlyIncreasing(recs) && forall i :: 0 <= i < n ==> IdxOf(recs[i]) < n
    ensures IdxOf(recs[k]) <= k
    decreases n - k
  {
    if k < n - 1 {
      AtMostPosition(recs, n, k + 1);
    }
  }
}
