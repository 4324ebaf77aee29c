/**
 * optm_generation/optmgen.py: pairs each line of the feature file with the same line of the summary file,
 * asks the service for an optimised program, and writes one record per line in file order.
 */
module OptmGen {
  import opened Wrappers
  import opened Text
  import opened Python
  import opened Retry
  import opened Reorder
  import opened Stage
  import opened CodeBlock

  /** `process_line`'s default `max_retries`, which `main` uses. */
  const MaxRetries: int := 100

  /** The message of the ValueError `main` raises when the two files differ in length. */
  const Mismatch: string := "match.jsonl 和 sum.jsonl 行数不一致，请检查。"

  const StrategiesHead: string := "Here are list of optimization strategies:\n"
  const SummaryHead: string := "Here is a summary of the source code to help you understand it:\n"

  /** What `process_line` reads from its two lines before it builds the prompt. */
  datatype Inputs = Inputs(data: Dict, summary: Json, analysis: string, src: Json)

  /**
   * `json.loads(line)`, `json.loads(summary)`, `data.get("src_code", "")`, `data.get("analysis", "")`,
   * `extract_code_block(analysis_raw)` and `summary_data.get("summary", "")`, in this order: the exception of
   * the first that fails, or what they read. (Both versions of the script read their lines this way.)
   */
  function ReadInputs(rt: Runtime, line: string, summaryLine: string): Result<Inputs, PyError> {
    match rt.loads(line)
    case None => Err(DecodeError)
    case Some(data) =>
      match rt.loads(summaryLine)
      case None => Err(DecodeError)
      case Some(summaryData) =>
        if !data.JObj? then Err(AttributeError)
        else
          var src := GetOr(data.fields, "src_code", JStr(""));
          var raw := GetOr(data.fields, "analysis", JStr(""));
          if !raw.JStr? then Err(TypeError)
          else if !summaryData.JObj? then Err(AttributeError)
          else Ok(Inputs(data.fields, GetOr(summaryData.fields, "summary", JStr("")), ExtractCodeBlock(raw.s), src))
  }

  /**
   * A line can be read exactly when it holds a dict whose `analysis` (if any) is a string and its summary line
   * holds a dict; the record then starts from the line's dict.
   */
  lemma ReadInputsOk(rt: Runtime, line: string, summaryLine: string)
    ensures var r := ReadInputs(rt, line, summaryLine);
      && (r.Ok? <==> (ParsesToDict(rt, line) && rt.loads(summaryLine).Some? && rt.loads(summaryLine).value.JObj?
                      && GetOr(rt.loads(line).value.fields, "analysis", JStr("")).JStr?))
      && (r.Ok? ==> r.value.data == rt.loads(line).value.fields)
  {
  }

  /**
   * How a script builds its prompt from the extracted strategies, `str(code_summary)` and `str(src_code)`.
   * The per-line functions take it as a parameter; `main` passes `Prompt`.
   */
  type Template = (string, string, string) -> string

  /** A prompt that holds the strategies first, then the summary, and ends with the source code and `tail`. */
  function Around(instructions: string, analysis: string, summary: string, src: string, tail: string): (p: string)
    ensures At(p, |StrategiesHead|, analysis)
    ensures At(p, |StrategiesHead| + |analysis| + 2 + |SummaryHead|, summary)
    ensures |p| >= |src| + |tail| && p[|p| - |src| - |tail|..] == src + tail
  {
    Layout(StrategiesHead, analysis, "\n\n" + SummaryHead, summary, "\n\n" + instructions, src + tail);
    StrategiesHead + analysis + ("\n\n" + SummaryHead) + summary + ("\n\n" + instructions) + (src + tail)
  }

  /** Where the parts of a concatenation lie. */
  lemma Layout(a: string, b: string, c: string, d: string, e: string, f: string)
    ensures var p := a + b + c + d + e + f;
      At(p, |a|, b) && At(p, |a| + |b| + |c|, d) && p[|p| - |f|..] == f
  {
    var p := a + b + c + d + e + f;
    assert p[|a|..|a| + |b|] == b;
    assert p[|a| + |b| + |c|..|a| + |b| + |c| + |d|] == d;
    assert p[|p| - |f|..] == f;
  }

  /**
   * The prompt of this script: the strategies first, then the summary, then the fixed instructions, and the
   * source code last, followed by a line break.
   */
  function Prompt(analysis: string, summary: string, src: string): (p: string)
  {
    Around(Instructions, analysis, summary, src, "\n")
  }

  /** The fixed instructions between the summary and the source code. */
  const Instructions: string :=
    "Now optimize the following C++ code by applying the above optimization strategies one by one.\n"
    + "\n"
    + "For each step:\n"
    + "1. State which optimization strategy is applied.\n"
    + "2. Explain why this optimization improves performance.\n"
    + "3. Explain why this modification does not change the logical behavior of the program "
    + "(provide a brief reasoning or input/output comparison).\n"
    + "4. Output the complete optimized C++ code after applying this step. Always output a full, "
    + "independently compilable program.\n"
    + "\n"
    + "Important constraints:\n"
    + "- The optimized code must preserve the original functionality and logic exactly.\n"
    + "- If an optimization risks breaking correctness or changing behavior, skip it and explain why.\n"
    + "- Always include required headers and ensure all macros are properly defined.\n"
    + "- Each intermediate code must be syntactically correct and compilable.\n"
    + "\n"
    + "At the final step:\n"
    + "- Combine all valid optimizations into one complete program.\n"
    + "- Double-check and explicitly confirm that the final code is logically equivalent to the original.\n"
    + "- Ensure the final code includes `#include <bits/stdc++.h>` and all macros are correctly defined.\n"
    + "\n"
    + "Here is the original source code:\n"

  /** The prompt of a line, with `str()` of the summary and the source code as the f-string formats them. */
  function LinePrompt(rt: Runtime, template: Template, inputs: Inputs): string {
    template(inputs.analysis, Str(rt, inputs.summary), Str(rt, inputs.src))
  }

  /** `out_obj` after `out_obj["summary"]`, `["prompt"]`, `["completion"]` and `["generated_answers"]` are assigned. */
  function Fill(d: Dict, summary: Json, prompt: string, completion: string, answers: seq<Json>): Dict {
    Put(Put(Put(Put(d, "summary", summary), "prompt", JStr(prompt)), "completion", JStr(completion)),
      "generated_answers", JArr(answers))
  }

  /** The filled record holds the four fields it was given and every other field of the copied dict. */
  lemma FillFields(d: Dict, summary: Json, prompt: string, completion: string, answers: seq<Json>, k: string)
    ensures var r := Fill(d, summary, prompt, completion, answers);
      && Get(r, "summary") == Some(summary) && Get(r, "prompt") == Some(JStr(prompt))
      && Get(r, "completion") == Some(JStr(completion)) && Get(r, "generated_answers") == Some(JArr(answers))
      && (k != "summary" && k != "prompt" && k != "completion" && k != "generated_answers" ==> Get(r, k) == Get(d, k))
  {
    var d1 := Put(d, "summary", summary);
    var d2 := Put(d1, "prompt", JStr(prompt));
    var d3 := Put(d2, "completion", JStr(completion));
    PutOther(d1, "prompt", JStr(prompt), "summary");
    PutOther(d2, "completion", JStr(completion), "summary");
    PutOther(d3, "generated_answers", JArr(answers), "summary");
    PutOther(d2, "completion", JStr(completion), "prompt");
    PutOther(d3, "generated_answers", JArr(answers), "prompt");
    PutOther(d3, "generated_answers", JArr(answers), "completion");
    if k != "summary" && k != "prompt" && k != "completion" && k != "generated_answers" {
      PutOther(d, "summary", summary, k);
      PutOther(d1, "prompt", JStr(prompt), k);
      PutOther(d2, "completion", JStr(completion), k);
      PutOther(d3, "generated_answers", JArr(answers), k);
    }
  }

  /** Popping `__idx` from a filled, tagged copy of a dict without `__idx` gives the filled dict. */
  lemma FillUntag(d: Dict, i: int, summary: Json, prompt: string, completion: string, answers: seq<Json>)
    requires !HasKey(d, "__idx")
    ensures Pop(Fill(Tag(d, i), summary, prompt, completion, answers), "__idx") == Fill(d, summary, prompt, completion, answers)
  {
    var t := Tag(d, i);
    var t1 := Put(t, "summary", summary);
    var t2 := Put(t1, "prompt", JStr(prompt));
    var t3 := Put(t2, "completion", JStr(completion));
    PopPutCommute(t3, "__idx", "generated_answers", JArr(answers));
    PopPutCommute(t2, "__idx", "completion", JStr(completion));
    PopPutCommute(t1, "__idx", "prompt", JStr(prompt));
    PopPutCommute(t, "__idx", "summary", summary);
    PopPutNew(d, "__idx", JInt(i));
  }

  /** The record's `__idx` is the one it was tagged with. */
  lemma FillIdx(d: Dict, i: int, summary: Json, prompt: string, completion: string, answers: seq<Json>)
    ensures IdxOf(Fill(Tag(d, i), summary, prompt, completion, answers)) == i
  {
    FillFields(Tag(d, i), summary, prompt, completion, answers, "__idx");
  }

  /** The `completion` and `generated_answers` a record gets when the loop ends with `outcome`. */
  function Answered(outcome: Outcome): (r: (string, seq<Json>))
    requires !outcome.FellThrough?
    ensures outcome.Succeeded? ==> r == (outcome.text, [JStr(ExtractCodeBlock(outcome.text))])
    ensures outcome.Exhausted? ==> r == ("Error: " + outcome.lastError, [])
  {
    match outcome
    case Succeeded(t) => (t, [JStr(ExtractCodeBlock(t))])
    case Exhausted(e) => ("Error: " + e, [])
  }

  /** What `process_line` returns once it has read its inputs: None where the loop falls through. */
  function Completed(inputs: Inputs, prompt: string, idx: int, outcome: Outcome): Option<Dict> {
    if outcome.FellThrough? then None
    else
      var (completion, answers) := Answered(outcome);
      Some(Fill(Tag(inputs.data, idx), inputs.summary, prompt, completion, answers))
  }

  /** What `process_line` returns (an exception, or a record or None) and the calls and sleeps it made. */
  datatype Step = Step(result: Result<Option<Dict>, PyError>, trace: seq<Event>)

  function LineAfter(rt: Runtime, template: Template, idx: int, line: string, summaryLine: string, replies: nat -> Reply, maxRetries: int): Step {
    match ReadInputs(rt, line, summaryLine)
    case Err(e) => Step(Err(e), [])
    case Ok(inputs) =>
      var run := Retries(replies, maxRetries);
      Step(Ok(Completed(inputs, LinePrompt(rt, template, inputs), idx, run.outcome)), run.trace)
  }

  /** `process_line` */
  method ProcessLine(rt: Runtime, template: Template, idx: int, line: string, summaryLine: string, replies: nat -> Reply, maxRetries: int)
    returns (result: Result<Option<Dict>, PyError>, trace: seq<Event>)
    ensures Step(result, trace) == LineAfter(rt, template, idx, line, summaryLine, replies, maxRetries)
  {
    var read := ReadInputs(rt, line, summaryLine);
    if read.Err? {
      return Err(read.error), [];
    }
    var inputs := read.value;
    var prompt := template(inputs.analysis, Str(rt, inputs.summary), Str(rt, inputs.src));
    var run := RunRetries(replies, maxRetries);
    trace := run.trace;
    var completion: string, answers: seq<Json>;
    match run.outcome {
      case FellThrough =>
        return Ok(None), trace;
      case Succeeded(t) =>
        completion, answers := t, [JStr(ExtractCodeBlock(t))];
      case Exhausted(e) =>
        completion, answers := "Error: " + e, [];
    }
    assert (completion, answers) == Answered(run.outcome);
    var out := inputs.data;
    out := Put(out, "__idx", JInt(idx));
    out := Put(out, "summary", inputs.summary);
    out := Put(out, "prompt", JStr(prompt));
    out := Put(out, "completion", JStr(completion));
    out := Put(out, "generated_answers", JArr(answers));
    assert out == Fill(Tag(inputs.data, idx), inputs.summary, LinePrompt(rt, template, inputs), completion, answers);
    result := Ok(Some(out));
  }

  /**
   * No call for a line that cannot be read; otherwise at most `maxRetries` calls (at least one when allowed),
   * a sleep only after a failed attempt that is not the last, and None without any call when `maxRetries < 1`.
   */
  lemma LineCalls(rt: Runtime, template: Template, idx: int, line: string, summaryLine: string, replies: nat -> Reply, maxRetries: int)
    ensures var s := LineAfter(rt, template, idx, line, summaryLine, replies, maxRetries);
      && (ReadInputs(rt, line, summaryLine).Err? ==> s.result.Err? && s.trace == [])
      && (ReadInputs(rt, line, summaryLine).Ok? && maxRetries >= 1 ==> s.result.Ok? && s.result.value.Some? && 1 <= CallCount(s.trace) <= maxRetries)
      && (ReadInputs(rt, line, summaryLine).Ok? && maxRetries < 1 ==> s.result == Ok(None) && s.trace == [])
      && (forall e :: e in s.trace && e.Sleep? ==> 1 <= e.attempt < maxRetries && replies(e.attempt).Failure?)
  {
    match ReadInputs(rt, line, summaryLine)
    case Err(_) =>
    case Ok(inputs) =>
      var run := Retries(replies, maxRetries);
      assert LineAfter(rt, template, idx, line, summaryLine, replies, maxRetries)
        == Step(Ok(Completed(inputs, LinePrompt(rt, template, inputs), idx, run.outcome)), run.trace);
      RetriesShape(replies, maxRetries);
      RetriesBound(replies, maxRetries);
      RetriesSleeps(replies, maxRetries);
  }

  /** With the default `max_retries`, a line that can be read always gives its record back. */
  lemma LineFinished(rt: Runtime, template: Template, idx: int, line: string, summaryLine: string, replies: nat -> Reply)
    ensures var s := LineAfter(rt, template, idx, line, summaryLine, replies, MaxRetries);
      match ReadInputs(rt, line, summaryLine)
      case Ok(inputs) => s.result == Ok(Some(Finished(rt, template, inputs, idx, replies)))
      case Err(e) => s.result == Err(e)
  {
  }

  /** The first answer within `maxRetries` attempts becomes the completion, and its last code block the one answer. */
  lemma LineAnswered(rt: Runtime, template: Template, idx: int, line: string, summaryLine: string, replies: nat -> Reply, maxRetries: int, j: nat)
    requires ReadInputs(rt, line, summaryLine).Ok?
    requires 1 <= j <= maxRetries && replies(j).Answer?
    requires forall i :: 1 <= i < j ==> replies(i).Failure?
    ensures var inputs := ReadInputs(rt, line, summaryLine).value;
      LineAfter(rt, template, idx, line, summaryLine, replies, maxRetries).result
        == Ok(Some(Fill(Tag(inputs.data, idx), inputs.summary, LinePrompt(rt, template, inputs),
                        replies(j).text, [JStr(ExtractCodeBlock(replies(j).text))])))
  {
    var inputs := ReadInputs(rt, line, summaryLine).value;
    RetriesFirstAnswer(replies, maxRetries, j);
    assert LineAfter(rt, template, idx, line, summaryLine, replies, maxRetries).result
      == Ok(Completed(inputs, LinePrompt(rt, template, inputs), idx, Retries(replies, maxRetries).outcome));
  }

  /** When every attempt fails the record is still returned, with the last error and no answers. */
  lemma LineExhausted(rt: Runtime, template: Template, idx: int, line: string, summaryLine: string, replies: nat -> Reply, maxRetries: int)
    requires ReadInputs(rt, line, summaryLine).Ok?
    requires 1 <= maxRetries && forall i :: 1 <= i <= maxRetries ==> replies(i).Failure?
    ensures var inputs := ReadInputs(rt, line, summaryLine).value;
      LineAfter(rt, template, idx, line, summaryLine, replies, maxRetries).result
        == Ok(Some(Fill(Tag(inputs.data, idx), inputs.summary, LinePrompt(rt, template, inputs), "Error: " + replies(maxRetries).error, [])))
  {
    var inputs := ReadInputs(rt, line, summaryLine).value;
    RetriesAllFail(replies, maxRetries);
    assert LineAfter(rt, template, idx, line, summaryLine, replies, maxRetries).result
      == Ok(Completed(inputs, LinePrompt(rt, template, inputs), idx, Retries(replies, maxRetries).outcome));
  }

  /** What the record of line `idx` gets with the default `max_retries`: the loop never falls through. */
  function Answered100(replies: nat -> Reply): (string, seq<Json>) {
    RetriesShape(replies, MaxRetries);
    Answered(Retries(replies, MaxRetries).outcome)
  }

  /** The record `main`'s task for line `idx` returns, once the line has been read. */
  function Finished(rt: Runtime, template: Template, inputs: Inputs, idx: int, replies: nat -> Reply): (r: Dict)
    ensures IdxOf(r) == idx
    ensures Some(r) == Completed(inputs, LinePrompt(rt, template, inputs), idx, Retries(replies, MaxRetries).outcome)
  {
    RetriesShape(replies, MaxRetries);
    var (completion, answers) := Answered100(replies);
    FillIdx(inputs.data, idx, inputs.summary, LinePrompt(rt, template, inputs), completion, answers);
    Fill(Tag(inputs.data, idx), inputs.summary, LinePrompt(rt, template, inputs), completion, answers)
  }

  /** Every line and its summary line can be read: the only case in which `main` writes anything. */
  predicate AllRead(rt: Runtime, lines: seq<string>, summaries: seq<string>)
    requires |lines| == |summaries|
  {
    forall i :: 0 <= i < |lines| ==> ReadInputs(rt, lines[i], summaries[i]).Ok?
  }

  /** What awaiting the task of line `i` gives: the exception `process_line` raises, or the record it returns. */
  function Task(rt: Runtime, template: Template, lines: seq<string>, summaries: seq<string>, service: nat -> nat -> Reply, i: nat): Result<Dict, PyError>
    requires |lines| == |summaries| && i < |lines|
  {
    match ReadInputs(rt, lines[i], summaries[i])
    case Err(e) => Err(e)
    case Ok(inputs) => Ok(Finished(rt, template, inputs, i, service(i)))
  }

  /** The tasks of all lines, in line order: the list `main` hands to `as_completed`. */
  function Tasks(rt: Runtime, template: Template, lines: seq<string>, summaries: seq<string>, service: nat -> nat -> Reply): (r: seq<Result<Dict, PyError>>)
    requires |lines| == |summaries|
    ensures |r| == |lines|
  {
    Build((i: nat) requires i < |lines| => Task(rt, template, lines, summaries, service, i), |lines|)
  }

  lemma TasksAt(rt: Runtime, template: Template, lines: seq<string>, summaries: seq<string>, service: nat -> nat -> Reply, i: nat)
    requires |lines| == |summaries| && i < |lines|
    ensures Tasks(rt, template, lines, summaries, service)[i] == Task(rt, template, lines, summaries, service, i)
  {
    BuildAt((i: nat) requires i < |lines| => Task(rt, template, lines, summaries, service, i), |lines|, i);
  }

  /** The records the tasks return, in line order (a task that raised has none; the empty dict stands in). */
  function Records(tasks: seq<Result<Dict, PyError>>): (done: seq<Dict>)
    ensures |done| == |tasks|
  {
    seq(|tasks|, i requires 0 <= i < |tasks| => if tasks[i].Ok? then tasks[i].value else [])
  }

  /** The records of all lines' tasks, in line order. */
  function Processed(rt: Runtime, template: Template, lines: seq<string>, summaries: seq<string>, service: nat -> nat -> Reply): (done: seq<Dict>)
    requires |lines| == |summaries|
    ensures |done| == |lines|
  {
    Records(Tasks(rt, template, lines, summaries, service))
  }

  /**
   * The task of line `i` raises exactly the exception of reading the line, and otherwise returns the line's
   * record, tagged with `i`.
   */
  lemma TaskRead(rt: Runtime, template: Template, lines: seq<string>, summaries: seq<string>, service: nat -> nat -> Reply, i: nat)
    requires |lines| == |summaries| && i < |lines|
    ensures var t := Tasks(rt, template, lines, summaries, service)[i];
      var read := ReadInputs(rt, lines[i], summaries[i]);
      && (t.Ok? <==> read.Ok?)
      && (t.Err? ==> read == Err(t.error))
      && (t.Ok? ==> t.value == Finished(rt, template, read.value, i, service(i)) && IdxOf(t.value) == i)
      && (t.Ok? ==> Processed(rt, template, lines, summaries, service)[i] == t.value)
  {
    TasksAt(rt, template, lines, summaries, service, i);
  }

  /** Every task returns a record exactly when every line can be read. */
  lemma AllTasksOk(rt: Runtime, template: Template, lines: seq<string>, summaries: seq<string>, service: nat -> nat -> Reply)
    requires |lines| == |summaries|
    ensures (forall i :: 0 <= i < |lines| ==> Tasks(rt, template, lines, summaries, service)[i].Ok?)
      <==> AllRead(rt, lines, summaries)
  {
    forall i | 0 <= i < |lines|
      ensures Tasks(rt, template, lines, summaries, service)[i].Ok? <==> ReadInputs(rt, lines[i], summaries[i]).Ok?
    {
      TaskRead(rt, template, lines, summaries, service, i);
    }
  }

  /** When every line can be read, the records' `__idx` values are their line numbers, so they strictly increase. */
  lemma ProcessedIncreasing(rt: Runtime, template: Template, lines: seq<string>, summaries: seq<string>, service: nat -> nat -> Reply)
    requires |lines| == |summaries| && AllRead(rt, lines, summaries)
    ensures StrictlyIncreasing(Processed(rt, template, lines, summaries, service))
  {
    var done := Processed(rt, template, lines, summaries, service);
    forall i | 0 <= i < |done| ensures IdxOf(done[i]) == i {
      TaskRead(rt, template, lines, summaries, service, i);
    }
  }

  /** What `main` writes when every line can be read: one record per line, in line order, without `__idx`. */
  function OptmFile(rt: Runtime, template: Template, lines: seq<string>, summaries: seq<string>, service: nat -> nat -> Reply): seq<string>
    requires |lines| == |summaries|
  {
    Written(rt, Processed(rt, template, lines, summaries, service))
  }

  /** Running `process_line` for line `i` with the default `max_retries` is what the task of line `i` gives. */
  lemma TaskResult(rt: Runtime, template: Template, lines: seq<string>, summaries: seq<string>, service: nat -> nat -> Reply, i: nat)
    requires |lines| == |summaries| && i < |lines|
    ensures LineAfter(rt, template, i, lines[i], summaries[i], service(i), MaxRetries).result
      == match Tasks(rt, template, lines, summaries, service)[i]
         case Ok(d) => Ok(Some(d))
         case Err(e) => Err(e)
  {
    LineFinished(rt, template, i, lines[i], summaries[i], service(i));
    TasksAt(rt, template, lines, summaries, service, i);
  }

  /** `await coro` for the task of line `i`, which runs `process_line` with the default `max_retries`. */
  method AwaitTask(rt: Runtime, template: Template, lines: seq<string>, summaries: seq<string>, service: nat -> nat -> Reply, i: nat)
    returns (res: Result<Dict, PyError>)
    requires |lines| == |summaries| && i < |lines|
    ensures res == Tasks(rt, template, lines, summaries, service)[i]
  {
    var r, _ := ProcessLine(rt, template, i, lines[i], summaries[i], service(i), MaxRetries);
    TaskResult(rt, template, lines, summaries, service, i);
    if r.Err? {
      return Err(r.error);
    }
    return Ok(r.value.value);
  }

  /**
   * The `as_completed` loop, with the tasks completing in the order `order`: the records in that order, or the
   * exception of the first task in that order that raised.
   */
  method Complete(rt: Runtime, template: Template, lines: seq<string>, summaries: seq<string>, service: nat -> nat -> Reply, order: seq<nat>)
    returns (r: Result<seq<Dict>, PyError>)
    requires |lines| == |summaries| && IsPermutation(order, |lines|)
    ensures PermutationBoundsHold(order, |lines|)
    ensures var tasks := Tasks(rt, template, lines, summaries, service);
      && (r.Ok? <==> forall i :: 0 <= i < |lines| ==> tasks[i].Ok?)
      && (r.Ok? ==> r.value == Pick(Records(tasks), order))
      && (r.Err? ==> exists j :: 0 <= j < |order| && tasks[order[j]] == Err(r.error)
                                && forall k :: 0 <= k < j ==> tasks[order[k]].Ok?)
  {
    ghost var tasks := Tasks(rt, template, lines, summaries, service);
    PermutationBounds(order, |lines|);
    var results := [];
    for j := 0 to |order|
      invariant results == Pick(Records(tasks), order[..j])
      invariant forall k :: 0 <= k < j ==> tasks[order[k]].Ok?
    {
      var res := AwaitTask(rt, template, lines, summaries, service, order[j]);
      if res.Err? {
        return Err(res.error);
      }
      PickSnoc(Records(tasks), order, j);
      results := results + [res.value];
    }
    forall i | 0 <= i < |lines| ensures tasks[i].Ok? {
      PermutationCovers(order, |lines|, i);
    }
    assert order[..|order|] == order;
    return Ok(results);
  }

  /**
   * `main`, as `ProcessFile`: a ValueError before any task when the files differ in length; otherwise the
   * exception of a line that cannot be read, or, whatever the completion order `order`, one record per line
   * in line order.
   */
  method ProcessFile(rt: Runtime, template: Template, lines: seq<string>, summaries: seq<string>, service: nat -> nat -> Reply, order: seq<nat>)
    returns (out: Result<seq<string>, PyError>)
    requires |lines| == |summaries| ==> IsPermutation(order, |lines|)
    ensures |lines| != |summaries| ==> out == Err(ValueError(Mismatch))
    ensures out.Ok? <==> |lines| == |summaries| && AllRead(rt, lines, summaries)
    ensures out.Ok? ==> out.value == OptmFile(rt, template, lines, summaries, service)
    ensures out.Err? && |lines| == |summaries| ==>
      exists i :: 0 <= i < |lines| && ReadInputs(rt, lines[i], summaries[i]) == Err(out.error)
  {
    if |lines| != |summaries| {
      return Err(ValueError(Mismatch));
    }
    var r := Complete(rt, template, lines, summaries, service, order);
    AllTasksOk(rt, template, lines, summaries, service);
    if r.Err? {
      ghost var tasks := Tasks(rt, template, lines, summaries, service);
      ghost var j :| 0 <= j < |order| && tasks[order[j]] == Err(r.error);
      TaskRead(rt, template, lines, summaries, service, order[j]);
      return Err(r.error);
    }
    ghost var done := Processed(rt, template, lines, summaries, service);
    ProcessedIncreasing(rt, template, lines, summaries, service);
    RestoreOrder(done, order);
    var results := SortByIdx(r.value);
    assert results == done;
    var written := WriteRecords(rt, results);
    return Ok(written);
  }

  /**
   * When every line can be read, line `k` of the output is line `k`'s dict with the summary, the prompt, the
   * completion and the answers assigned (and, when the dict had no `__idx` of its own, no `__idx`).
   */
  lemma OptmFileLines(rt: Runtime, template: Template, lines: seq<string>, summaries: seq<string>, service: nat -> nat -> Reply, k: nat)
    requires |lines| == |summaries| && AllRead(rt, lines, summaries) && k < |lines|
    ensures |OptmFile(rt, template, lines, summaries, service)| == |lines|
    ensures var inputs := ReadInputs(rt, lines[k], summaries[k]).value;
      var (completion, answers) := Answered100(service(k));
      inputs.data == rt.loads(lines[k]).value.fields &&
      (!HasKey(inputs.data, "__idx") ==>
        OptmFile(rt, template, lines, summaries, service)[k]
          == rt.dumps(JObj(Fill(inputs.data, inputs.summary, LinePrompt(rt, template, inputs), completion, answers))))
  {
    ReadInputsOk(rt, lines[k], summaries[k]);
    TaskRead(rt, template, lines, summaries, service, k);
    var inputs := ReadInputs(rt, lines[k], summaries[k]).value;
    var (completion, answers) := Answered100(service(k));
    if !HasKey(inputs.data, "__idx") {
      FillUntag(inputs.data, k, inputs.summary, LinePrompt(rt, template, inputs), completion, answers);
    }
  }
}
