/**
 * optm_generation/extract_feature.py: asks the service for the optimisation features of the first hundred
 * records' source code, and writes the records back in file order.
 */
module ExtractFeature {
  import opened Wrappers
  import opened Text
  import opened Python
  import opened Retry
  import opened Reorder
  import opened Stage

  /** `process_program`'s default `max_retries`, which `main` uses. */
  const MaxRetries: int := 100

  /** `main` reads lines 0 .. 99 only. */
  const LineLimit: nat := 100

  const SystemPrompt: string :=
    "You are an expert C/C++ assistant that extracts optimization features from unoptimized code versions."

  /**
   * The `messages` argument: one dict display that names "role" and "content" twice, so the later
   * entries win.
   */
  function Request(prompt: string): seq<Dict> {
    [DictLiteral([], [("role", JStr("system")), ("content", JStr(SystemPrompt)), ("role", JStr("user")), ("content", JStr(prompt))])]
  }

  /** The request carries exactly one message: the user's, whose content is the prompt. */
  lemma SingleUserMessage(prompt: string)
    ensures Request(prompt) == [[("role", JStr("user")), ("content", JStr(prompt))]]
  {
    var role, content := "role", "content";
    assert role != content;
    var e := [(role, JStr("system")), (content, JStr(SystemPrompt)), (role, JStr("user")), (content, JStr(prompt))];
    var d1 := [(role, JStr("system"))];
    assert Put([], role, JStr("system")) == d1;
    var d2 := [(role, JStr("system")), (content, JStr(SystemPrompt))];
    assert Put(d1, content, JStr(SystemPrompt)) == d2 by {
      assert d1[1..] == [];
    }
    var d3 := [(role, JStr("user")), (content, JStr(SystemPrompt))];
    assert Put(d2, role, JStr("user")) == d3 by {
      assert d2[1..] == [(content, JStr(SystemPrompt))];
    }
    var d4 := [(role, JStr("user")), (content, JStr(prompt))];
    assert Put(d3, content, JStr(prompt)) == d4 by {
      assert d3[1..] == [(content, JStr(SystemPrompt))];
      assert d3[1..][1..] == [];
    }
    assert e[1..][1..][1..][1..] == [];
    assert DictLiteral([], e) == DictLiteral(d1, e[1..]) == DictLiteral(d2, e[1..][1..]) == DictLiteral(d3, e[1..][1..][1..]);
  }

  /** `not src_code`, read with `record.get("src_code", "")`. */
  predicate NoSource(record: Dict) {
    !Truthy(GetOr(record, "src_code", JStr("")))
  }

  /** What `process_program` returns (None where the loop falls through) and the calls it made. */
  datatype Step = Step(record: Option<Dict>, trace: seq<Event>)

  function ProgramAfter(record: Dict, replies: nat -> Reply, maxRetries: int): Step {
    if NoSource(record) then Step(Some(Put(record, "optimized_features", JStr(""))), [])
    else
      var run := Retries(replies, maxRetries);
      match Stored(run.outcome, maxRetries)
      case Some(a) => Step(Some(Put(record, "optimized_features", JStr(a))), run.trace)
      case None => Step(None, run.trace)
  }

  /** `process_program` */
  method ProcessProgram(record: Dict, replies: nat -> Reply, maxRetries: int) returns (result: Option<Dict>, trace: seq<Event>)
    ensures Step(result, trace) == ProgramAfter(record, replies, maxRetries)
  {
    if NoSource(record) {
      return Some(Put(record, "optimized_features", JStr(""))), [];
    }
    var run := RunRetries(replies, maxRetries);
    trace := run.trace;
    match run.outcome {
      case Succeeded(t) => result := Some(Put(record, "optimized_features", JStr(Strip(t))));
      case Exhausted(e) => result := Some(Put(record, "optimized_features", JStr(ErrorAfter(maxRetries, e))));
      case FellThrough => result := None;
    }
  }

  /** No call for a record without source code; otherwise at most `maxRetries` calls, and at least one when allowed. */
  lemma ProgramCalls(record: Dict, replies: nat -> Reply, maxRetries: int)
    ensures var s := ProgramAfter(record, replies, maxRetries);
      && (NoSource(record) ==> s.trace == [])
      && (!NoSource(record) && maxRetries >= 1 ==> 1 <= CallCount(s.trace) <= maxRetries)
      && (maxRetries < 1 ==> CallCount(s.trace) == 0)
  {
    RetriesBound(replies, maxRetries);
  }

  /** The text `main`'s run of `process_program` stores in `optimized_features`. */
  function Features(record: Dict, replies: nat -> Reply): string {
    if NoSource(record) then "" else Reported(replies, MaxRetries)
  }

  /**
   * With the default `max_retries` the record always comes back with `optimized_features` assigned and
   * nothing else changed: empty without source code, else the text the retry loop reports.
   */
  lemma ProgramFeatures(record: Dict, replies: nat -> Reply)
    ensures ProgramAfter(record, replies, MaxRetries).record
      == Some(Put(record, "optimized_features", JStr(Features(record, replies))))
  {
    var _ := Reported(replies, MaxRetries);
  }

  /** The record `main`'s run of `process_program` gives back: the loaded record with `optimized_features` assigned, its tag kept. */
  function Finished(record: Dict, replies: nat -> Reply): (r: Dict)
    ensures r == Put(record, "optimized_features", JStr(Features(record, replies)))
    ensures IdxOf(r) == IdxOf(record)
  {
    ProgramFeatures(record, replies);
    PutOther(record, "optimized_features", JStr(Features(record, replies)), "__idx");
    ProgramAfter(record, replies, MaxRetries).record.value
  }

  /** The records after `process_program`, in load order: each with `optimized_features` assigned. */
  function Processed(records: seq<Dict>, service: nat -> nat -> Reply): (done: seq<Dict>)
    ensures |done| == |records|
  {
    seq(|records|, i requires 0 <= i < |records| => Finished(records[i], service(i)))
  }

  /** `process_program` keeps every record's `__idx`, so the processed records' tags still strictly increase. */
  lemma ProcessedIncreasing(records: seq<Dict>, service: nat -> nat -> Reply)
    requires StrictlyIncreasing(records)
    ensures StrictlyIncreasing(Processed(records, service))
  {
    var done := Processed(records, service);
    forall i, j | 0 <= i < j < |done| ensures IdxOf(done[i]) < IdxOf(done[j]) {
      assert done[i] == Finished(records[i], service(i)) && done[j] == Finished(records[j], service(j));
    }
  }

  /** What `main` writes: the records of lines 0 .. 99 that load, in file order, without `__idx`. */
  function FeatureFile(rt: Runtime, lines: seq<string>, service: nat -> nat -> Reply): seq<string> {
    Written(rt, Processed(Loaded(rt, FirstLines(lines, LineLimit)), service))
  }

  /** The `as_completed` loop over `process_program` tasks, in the order the tasks complete. */
  method Complete(records: seq<Dict>, service: nat -> nat -> Reply, order: seq<nat>) returns (results: seq<Dict>)
    requires IsPermutation(order, |records|)
    ensures PermutationBoundsHold(order, |records|)
    ensures results == Pick(Processed(records, service), order)
  {
    ghost var done := Processed(records, service);
    PermutationBounds(order, |records|);
    results := [];
    for j := 0 to |order|
      invariant results == Pick(done, order[..j])
    {
      var r, _ := ProcessProgram(records[order[j]], service(order[j]), MaxRetries);
      ProgramFeatures(records[order[j]], service(order[j]));
      assert r == Some(done[order[j]]);
      PickSnoc(done, order, j);
      results := results + [r.value];
    }
    assert order[..|order|] == order;
  }

  /** `main`, as `ProcessFile`; the file written does not depend on the completion order `order`. */
  method ProcessFile(rt: Runtime, lines: seq<string>, service: nat -> nat -> Reply, order: seq<nat>) returns (out: seq<string>)
    requires IsPermutation(order, |Loaded(rt, FirstLines(lines, LineLimit))|)
    ensures out == FeatureFile(rt, lines, service)
  {
    var records := LoadFirstRecords(rt, lines, LineLimit);
    var results := Complete(records, service, order);
    ghost var done := Processed(records, service);
    LoadedIncreasing(rt, FirstLines(lines, LineLimit));
    ProcessedIncreasing(records, service);
    RestoreOrder(done, order);
    assert results == Pick(done, order);
    results := SortByIdx(results);
    assert results == done;
    out := WriteRecords(rt, results);
  }

  /**
   * At most one output line per line among the first hundred, one for each that holds a dict, in file order;
   * each is that dict with `optimized_features` assigned.
   */
  lemma FeatureFileLines(rt: Runtime, lines: seq<string>, service: nat -> nat -> Reply, k: nat)
    requires k < |Loaded(rt, FirstLines(lines, LineLimit))|
    ensures |FeatureFile(rt, lines, service)| <= LineLimit
    ensures 0 <= IdxOf(Loaded(rt, FirstLines(lines, LineLimit))[k]) < LineLimit
    ensures 0 <= IdxOf(Loaded(rt, FirstLines(lines, LineLimit))[k]) < |lines|
    ensures var i := IdxOf(Loaded(rt, FirstLines(lines, LineLimit))[k]);
      ParsesToDict(rt, lines[i]) &&
      var d := rt.loads(lines[i]).value.fields;
      !HasKey(d, "__idx") ==>
        FeatureFile(rt, lines, service)[k]
          == rt.dumps(JObj(Put(d, "optimized_features", JStr(Features(Loaded(rt, FirstLines(lines, LineLimit))[k], service(k))))))
  {
    var first := FirstLines(lines, LineLimit);
    LoadedFromLine(rt, first, k);
    LoadedLength(rt, first);
    var rec := Loaded(rt, first)[k];
    var i := IdxOf(rec);
    assert first[i] == lines[i];
    var d := rt.loads(lines[i]).value.fields;
    if !HasKey(d, "__idx") {
      Untag(d, i, "optimized_features", JStr(Features(rec, service(k))));
    }
  }
}
