/**
 * optm_generation/featuregen.py: asks the service for an analysis of each record's source/target pair,
 * with the retry loop inside a concurrency semaphore, and writes the records back in file order.
 */
module FeatureGen {
  import opened Wrappers
  import opened Text
  import opened Python
  import opened Retry
  import opened Reorder
  import opened Stage

  /** `process_item`'s default `max_retries`, which `main` uses. */
  const MaxRetries: int := 100

  /** `not src_code and not tgt_code`, both read with `record.get(key, "")`. */
  predicate NothingToAnalyse(record: Dict) {
    !Truthy(GetOr(record, "src_code", JStr(""))) && !Truthy(GetOr(record, "tgt_code", JStr("")))
  }

  /** What `process_item` returns (None where the loop falls through) and what it did. */
  datatype Step = Step(record: Option<Dict>, trace: seq<Event>)

  function ItemAfter(record: Dict, replies: nat -> Reply, maxRetries: int): Step {
    if NothingToAnalyse(record) then Step(Some(Put(record, "analysis", JStr(""))), [])
    else
      var run := Retries(replies, maxRetries);
      var trace := [Acquire] + run.trace + [Release];
      match Stored(run.outcome, maxRetries)
      case Some(a) => Step(Some(Put(record, "analysis", JStr(a))), trace)
      case None => Step(None, trace)
  }

  /** `process_item` */
  method ProcessItem(record: Dict, replies: nat -> Reply, maxRetries: int) returns (result: Option<Dict>, trace: seq<Event>)
    ensures Step(result, trace) == ItemAfter(record, replies, maxRetries)
  {
    if NothingToAnalyse(record) {
      return Some(Put(record, "analysis", JStr(""))), [];
    }
    trace := [Acquire];
    var run := RunRetries(replies, maxRetries);
    trace := trace + run.trace + [Release];
    match run.outcome {
      case Succeeded(t) => result := Some(Put(record, "analysis", JStr(Strip(t))));
      case Exhausted(e) => result := Some(Put(record, "analysis", JStr(ErrorAfter(maxRetries, e))));
      case FellThrough => result := None;
    }
  }

  /**
   * The calls: none (and no semaphore) for a record with nothing to analyse; otherwise all of them between
   * acquiring and releasing the semaphore, at most `maxRetries` of them, and at least one when allowed.
   */
  lemma ItemCalls(record: Dict, replies: nat -> Reply, maxRetries: int)
    ensures var s := ItemAfter(record, replies, maxRetries);
      && (NothingToAnalyse(record) ==> s.trace == [])
      && (!NothingToAnalyse(record) ==>
            |s.trace| >= 2 && s.trace[0] == Acquire && s.trace[|s.trace| - 1] == Release
            && Acquire !in s.trace[1..] && Release !in s.trace[..|s.trace| - 1]
            && (maxRetries >= 1 ==> 1 <= CallCount(s.trace) <= maxRetries)
            && (maxRetries < 1 ==> CallCount(s.trace) == 0))
  {
    if !NothingToAnalyse(record) {
      var run := Retries(replies, maxRetries);
      assert ItemAfter(record, replies, maxRetries).trace == [Acquire] + run.trace + [Release];
      assert Acquire !in run.trace && Release !in run.trace by {
        RetriesShape(replies, maxRetries);
        if maxRetries >= 1 {
          ScheduleEvents(1, LastAttempt(replies, maxRetries, 1));
        }
      }
      Bracketed(run.trace);
      RetriesBound(replies, maxRetries);
    }
  }

  /** A trace between an acquire and a release that holds neither: the semaphore brackets every call in it. */
  lemma Bracketed(t: seq<Event>)
    requires Acquire !in t && Release !in t
    ensures var tr := [Acquire] + t + [Release];
      && |tr| >= 2 && tr[0] == Acquire && tr[|tr| - 1] == Release
      && Acquire !in tr[1..] && Release !in tr[..|tr| - 1]
      && CallCount(tr) == CallCount(t)
  {
    var tr := [Acquire] + t + [Release];
    CallCountAppend([Acquire], t);
    CallCountAppend([Acquire] + t, [Release]);
    assert CallCount([Acquire]) == 0 by { assert [Acquire][1..] == []; }
    assert CallCount([Release]) == 0 by { assert [Release][1..] == []; }
    assert tr[1..] == t + [Release];
    assert tr[..|tr| - 1] == [Acquire] + t;
  }

  /** The text `main`'s run of `process_item` stores in `analysis`. */
  function Analysis(record: Dict, replies: nat -> Reply): string {
    if NothingToAnalyse(record) then "" else Reported(replies, MaxRetries)
  }

  /**
   * With the default `max_retries` the record always comes back, with `analysis` assigned and nothing else
   * changed: empty when there is nothing to analyse, else the text the retry loop reports.
   */
  lemma ItemAnalysis(record: Dict, replies: nat -> Reply)
    ensures ItemAfter(record, replies, MaxRetries).record == Some(Put(record, "analysis", JStr(Analysis(record, replies))))
  {
    var _ := Reported(replies, MaxRetries);
  }

  /** The record `main`'s run of `process_item` gives back: the loaded record, its tag kept. */
  function Finished(record: Dict, replies: nat -> Reply): (r: Dict)
    ensures r == Put(record, "analysis", JStr(Analysis(record, replies)))
    ensures IdxOf(r) == IdxOf(record)
  {
    ItemAnalysis(record, replies);
    PutOther(record, "analysis", JStr(Analysis(record, replies)), "__idx");
    ItemAfter(record, replies, MaxRetries).record.value
  }

  /** The records after `process_item`, in load order: each with `analysis` assigned (featuregen.py). */
  function Processed(records: seq<Dict>, service: nat -> nat -> Reply): (done: seq<Dict>)
    ensures |done| == |records|
  {
    seq(|records|, i requires 0 <= i < |records| => Finished(records[i], service(i)))
  }

  /** `process_item` keeps every record's `__idx`, so the processed records' tags still strictly increase. */
  lemma ProcessedIncreasing(records: seq<Dict>, service: nat -> nat -> Reply)
    requires StrictlyIncreasing(records)
    ensures StrictlyIncreasing(Processed(records, service))
  {
    var done := Processed(records, service);
    forall i, j | 0 <= i < j < |done| ensures IdxOf(done[i]) < IdxOf(done[j]) {
      assert done[i] == Finished(records[i], service(i)) && done[j] == Finished(records[j], service(j));
    }
  }

  /** What `main` writes: each parsed record in file order, after `process_item`, without `__idx`. */
  function FeatureFile(rt: Runtime, lines: seq<string>, service: nat -> nat -> Reply): seq<string> {
    Written(rt, Processed(Loaded(rt, lines), service))
  }

  /** The `as_completed` loop over `process_item` tasks: the finished records in the order the tasks complete. */
  method Complete(records: seq<Dict>, service: nat -> nat -> Reply, order: seq<nat>) returns (results: seq<Dict>)
    requires IsPermutation(order, |records|)
    ensures PermutationBoundsHold(order, |records|)
    ensures results == Pick(Processed(records, service), order)
  {
    ghost var done := Processed(records, service);
    PermutationBounds(order, |records|);
    results := [];
    for j := 0 to |order|
      invariant results == Pick(done, order[..j])
    {
      var r, _ := ProcessItem(records[order[j]], service(order[j]), MaxRetries);
      ItemAnalysis(records[order[j]], service(order[j]));
      assert r == Some(done[order[j]]);
      PickSnoc(done, order, j);
      results := results + [r.value];
    }
    assert order[..|order|] == order;
  }

  /**
   * `main`, as `ProcessFile`: `lines` are the input file's lines, `service(i)` answers the calls made for the `i`-th task,
   * and `order` is the order in which the tasks complete. The file written does not depend on `order`.
   */
  method ProcessFile(rt: Runtime, lines: seq<string>, service: nat -> nat -> Reply, order: seq<nat>) returns (out: seq<string>)
    requires IsPermutation(order, |Loaded(rt, lines)|)
    ensures out == FeatureFile(rt, lines, service)
  {
    var records := LoadRecords(rt, lines);
    var results := Complete(records, service, order);
    ghost var done := Processed(records, service);
    LoadedIncreasing(rt, lines);
    ProcessedIncreasing(records, service);
    RestoreOrder(done, order);
    assert results == Pick(done, order);
    results := SortByIdx(results);
    assert results == done;
    out := WriteRecords(rt, results);
  }

  /**
   * One output line per line that holds a dict, in file order; each is that dict with `analysis` assigned
   * (when the dict had no `__idx` of its own, the tag leaves no trace).
   */
  lemma FeatureFileLines(rt: Runtime, lines: seq<string>, service: nat -> nat -> Reply, k: nat)
    requires k < |Loaded(rt, lines)|
    ensures |FeatureFile(rt, lines, service)| == |Loaded(rt, lines)|
    ensures 0 <= IdxOf(Loaded(rt, lines)[k]) < |lines| && ParsesToDict(rt, lines[IdxOf(Loaded(rt, lines)[k])])
    ensures var d := rt.loads(lines[IdxOf(Loaded(rt, lines)[k])]).value.fields;
      !HasKey(d, "__idx") ==>
        FeatureFile(rt, lines, service)[k] == rt.dumps(JObj(Put(d, "analysis", JStr(Analysis(Loaded(rt, lines)[k], service(k))))))
  {
    LoadedFromLine(rt, lines, k);
    var rec := Loaded(rt, lines)[k];
    var i := IdxOf(rec);
    var d := rt.loads(lines[i]).value.fields;
    if !HasKey(d, "__idx") {
      Untag(d, i, "analysis", JStr(Analysis(rec, service(k))));
    }
  }
}
