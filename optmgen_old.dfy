/**
 * optm_generation_old/optmgen.py: the earlier version of the optimisation script. It reads its two lines
 * as the newer version does (`OptmGen.ReadInputs`), makes exactly one service call per line without any
 * retry, and processes the lines one after another, stopping at the first exception.
 */
module OptmGenOld {
  import opened Wrappers
  import opened Python
  import opened Retry
  import opened CodeBlock
  import opened Reorder
  import opened OptmGen
  import Stage

  /** The message of the ValueError `main` raises when the two files differ in length. */
  const Mismatch: string := "feature.jsonl 和 sum.jsonl 行数不一致，请检查。"

  /** The fixed instructions between the summary and the source code. */
  const Instructions: string :=
    "Now optimize the following C++ code by applying the above optimization strategies one by one. "
    + "After optimizing the C++ code, make sure all required headers are included and all macros are correctly defined.\n\n"

  /**
   * The prompt of this script: the strategies, the summary, the instructions, and the source code last with
   * nothing after it. (`Around` states where each part lies.)
   */
  function Prompt(analysis: string, summary: string, src: string): string {
    Around(Instructions, analysis, summary, src, "")
  }

  /**
   * What `process_line` returns once it has read its inputs and the service has replied: the exception the
   * call raised, or the copied dict with the four fields assigned.
   */
  function LineRecord(rt: Runtime, template: Template, inputs: Inputs, reply: Reply): Result<Dict, PyError> {
    match reply
    case Failure(e) => Err(ServiceError(e))
    case Answer(t) => Ok(Fill(inputs.data, inputs.summary, LinePrompt(rt, template, inputs), t, [JStr(ExtractCodeBlock(t))]))
  }

  /** What `process_line` returns for a pair of lines, given the service's reply to its one call. */
  function LineAfter(rt: Runtime, template: Template, line: string, summaryLine: string, reply: Reply): Result<Dict, PyError> {
    match ReadInputs(rt, line, summaryLine)
    case Err(e) => Err(e)
    case Ok(inputs) => LineRecord(rt, template, inputs, reply)
  }

  /** `process_line`; `calls` is the number of service calls it made. */
  method ProcessLine(rt: Runtime, template: Template, line: string, summaryLine: string, reply: Reply)
    returns (result: Result<Dict, PyError>, calls: nat)
    ensures result == LineAfter(rt, template, line, summaryLine, reply)
    ensures calls == if ReadInputs(rt, line, summaryLine).Ok? then 1 else 0
  {
    var read := ReadInputs(rt, line, summaryLine);
    if read.Err? {
      return Err(read.error), 0;
    }
    var inputs := read.value;
    var prompt := template(inputs.analysis, Str(rt, inputs.summary), Str(rt, inputs.src));
    calls := 1;
    match reply {
      case Failure(e) =>
        return Err(ServiceError(e)), calls;
      case Answer(completion) =>
        var extracted := ExtractCodeBlock(completion);
        var out := inputs.data;
        out := Put(out, "summary", inputs.summary);
        out := Put(out, "prompt", JStr(prompt));
        out := Put(out, "completion", JStr(completion));
        out := Put(out, "generated_answers", JArr([JStr(extracted)]));
        result := Ok(out);
    }
  }

  /**
   * A line that can be read and is answered gives the line's dict with `summary`, `prompt`, `completion` and
   * `generated_answers = [extract_code_block(completion)]` assigned and every other field kept; a failing call
   * propagates its exception, as there is no retry.
   */
  lemma LineFields(rt: Runtime, template: Template, line: string, summaryLine: string, reply: Reply, k: string)
    requires ReadInputs(rt, line, summaryLine).Ok?
    ensures var inputs := ReadInputs(rt, line, summaryLine).value;
      var r := LineAfter(rt, template, line, summaryLine, reply);
      && (reply.Failure? ==> r == Err(ServiceError(reply.error)))
      && (reply.Answer? ==>
            r.Ok?
            && Get(r.value, "summary") == Some(inputs.summary)
            && Get(r.value, "prompt") == Some(JStr(LinePrompt(rt, template, inputs)))
            && Get(r.value, "completion") == Some(JStr(reply.text))
            && Get(r.value, "generated_answers") == Some(JArr([JStr(ExtractCodeBlock(reply.text))]))
            && (k != "summary" && k != "prompt" && k != "completion" && k != "generated_answers" ==>
                  Get(r.value, k) == Get(rt.loads(line).value.fields, k)))
  {
    var inputs := ReadInputs(rt, line, summaryLine).value;
    ReadInputsOk(rt, line, summaryLine);
    assert LineAfter(rt, template, line, summaryLine, reply) == LineRecord(rt, template, inputs, reply);
    if reply.Answer? {
      FillFields(inputs.data, inputs.summary, LinePrompt(rt, template, inputs), reply.text,
        [JStr(ExtractCodeBlock(reply.text))], k);
    }
  }

  /** What `process_line` did for one pair of lines: what it returned or raised, and how many calls it made. */
  datatype Handled = Handled(result: Result<Dict, PyError>, calls: nat)

  function LineStep(rt: Runtime, template: Template, line: string, summaryLine: string, reply: Reply): Handled {
    Handled(LineAfter(rt, template, line, summaryLine, reply), if ReadInputs(rt, line, summaryLine).Ok? then 1 else 0)
  }

  /** The steps of all lines, in line order, each with the service's reply for that line. */
  function Steps(rt: Runtime, template: Template, lines: seq<string>, summaries: seq<string>, service: nat -> Reply): (r: seq<Handled>)
    requires |lines| == |summaries|
    ensures |r| == |lines|
  {
    Build((i: nat) requires i < |lines| => LineStep(rt, template, lines[i], summaries[i], service(i)), |lines|)
  }

  lemma StepsAt(rt: Runtime, template: Template, lines: seq<string>, summaries: seq<string>, service: nat -> Reply, i: nat)
    requires |lines| == |summaries| && i < |lines|
    ensures Steps(rt, template, lines, summaries, service)[i] == LineStep(rt, template, lines[i], summaries[i], service(i))
  {
    BuildAt((i: nat) requires i < |lines| => LineStep(rt, template, lines[i], summaries[i], service(i)), |lines|, i);
  }

  /** Processes line `i`: what `ProcessLine` returns for it, as the list of steps records it. */
  method RunLine(rt: Runtime, template: Template, lines: seq<string>, summaries: seq<string>, service: nat -> Reply, i: nat)
    returns (h: Handled)
    requires |lines| == |summaries| && i < |lines|
    ensures h == Steps(rt, template, lines, summaries, service)[i]
  {
    var result, calls := ProcessLine(rt, template, lines[i], summaries[i], service(i));
    StepsAt(rt, template, lines, summaries, service, i);
    h := Handled(result, calls);
  }

  /** Running steps one after another: the records, or the exception of the first step that raised. */
  function Sequential(steps: seq<Handled>): Result<seq<Dict>, PyError> {
    if steps == [] then Ok([])
    else
      match Sequential(steps[..|steps| - 1])
      case Err(e) => Err(e)
      case Ok(rs) =>
        match steps[|steps| - 1].result
        case Err(e) => Err(e)
        case Ok(r) => Ok(rs + [r])
  }

  /** The calls made by steps run one after another, up to and including the step that raised. */
  function SequentialCalls(steps: seq<Handled>): nat {
    if steps == [] then 0
    else
      var before := steps[..|steps| - 1];
      SequentialCalls(before) + (if Sequential(before).Err? then 0 else steps[|steps| - 1].calls)
  }

  /** Running steps succeeds exactly when every step does, and then gives one record per step, in order. */
  lemma {:induction false} SequentialOk(steps: seq<Handled>)
    ensures var r := Sequential(steps);
      && (r.Ok? <==> forall i :: 0 <= i < |steps| ==> steps[i].result.Ok?)
      && (r.Ok? ==> |r.value| == |steps| && forall i :: 0 <= i < |steps| ==> r.value[i] == steps[i].result.value)
    decreases |steps|
  {
    if steps != [] {
      var before := steps[..|steps| - 1];
      SequentialOk(before);
      assert forall i :: 0 <= i < |before| ==> before[i] == steps[i];
    }
  }

  /**
   * When running steps stops, it stops at the first step that raised, with that step's exception, and has
   * made the calls of that step and of every step before it.
   */
  lemma {:induction false} SequentialErr(steps: seq<Handled>)
    requires Sequential(steps).Err?
    ensures exists f :: (0 <= f < |steps| && steps[f].result == Err(Sequential(steps).error)
      && (forall i :: 0 <= i < f ==> steps[i].result.Ok?)
      && SequentialCalls(steps) == SequentialCalls(steps[..f]) + steps[f].calls)
    decreases |steps|
  {
    var before := steps[..|steps| - 1];
    assert forall i :: 0 <= i < |before| ==> before[i] == steps[i];
    if Sequential(before).Err? {
      SequentialErr(before);
      var f :| 0 <= f < |before| && before[f].result == Err(Sequential(before).error)
        && (forall i :: 0 <= i < f ==> before[i].result.Ok?)
        && SequentialCalls(before) == SequentialCalls(before[..f]) + before[f].calls;
      assert before[..f] == steps[..f];
    } else {
      SequentialOk(before);
      assert steps[..|steps| - 1] == before;
    }
  }

  /** When every step returns, each made its calls. */
  lemma {:induction false} SequentialOkCalls(steps: seq<Handled>)
    requires Sequential(steps).Ok?
    ensures SequentialCalls(steps) == Total(steps)
    decreases |steps|
  {
    if steps != [] {
      var before := steps[..|steps| - 1];
      SequentialOk(steps);
      SequentialOk(before);
      SequentialOkCalls(before);
    }
  }

  /** The calls of all steps. */
  function Total(steps: seq<Handled>): nat {
    if steps == [] then 0 else Total(steps[..|steps| - 1]) + steps[|steps| - 1].calls
  }

  /** Once a step has raised, the later steps change nothing: no record, no call. */
  lemma {:induction false} SequentialStays(steps: seq<Handled>, m: nat)
    requires m <= |steps| && Sequential(steps[..m]).Err?
    ensures Sequential(steps) == Sequential(steps[..m])
    ensures SequentialCalls(steps) == SequentialCalls(steps[..m])
    decreases |steps| - m
  {
    if m < |steps| {
      assert steps[..m + 1][..m] == steps[..m];
      SequentialStays(steps, m + 1);
    } else {
      assert steps[..m] == steps;
    }
  }

  /**
   * `main`, as `ProcessFile`: a ValueError before any call when the files differ in length; otherwise the
   * lines are processed in order, the first exception ends the run with nothing written, and otherwise
   * every record is written in line order. `calls` is the number of service calls made.
   */
  method ProcessFile(rt: Runtime, template: Template, lines: seq<string>, summaries: seq<string>, service: nat -> Reply)
    returns (out: Result<seq<string>, PyError>, calls: nat)
    ensures |lines| != |summaries| ==> out == Err(ValueError(Mismatch)) && calls == 0
    ensures |lines| == |summaries| ==>
      var steps := Steps(rt, template, lines, summaries, service);
      && calls == SequentialCalls(steps)
      && out == match Sequential(steps)
                case Ok(rs) => Ok(Stage.Dumped(rt, rs))
                case Err(e) => Err(e)
  {
    if |lines| != |summaries| {
      return Err(ValueError(Mismatch)), 0;
    }
    ghost var steps := Steps(rt, template, lines, summaries, service);
    var results: seq<Dict> := [];
    calls := 0;
    for i := 0 to |lines|
      invariant Sequential(steps[..i]) == Ok(results)
      invariant calls == SequentialCalls(steps[..i])
    {
      var h := RunLine(rt, template, lines, summaries, service, i);
      assert steps[..i + 1][..i] == steps[..i];
      calls := calls + h.calls;
      if h.result.Err? {
        SequentialStays(steps, i + 1);
        return Err(h.result.error), calls;
      }
      results := results + [h.result.value];
    }
    assert steps[..|lines|] == steps;
    var written := Stage.DumpRecords(rt, results);
    return Ok(written), calls;
  }
}
