/**
 * optm_generation/k4gen.py: sends each line's few-shot `input` to the service behind a fixed instruction,
 * with tenacity retrying a failing call up to five attempts, and writes every line back with the answer, or
 * the error text, in `generated_answers`, in input order.
 */
module K4Gen {
  import opened Wrappers
  import opened Text
  import opened Python
  import opened Retry
  import opened Reorder

  /** `stop_after_attempt(5)` */
  const MaxAttempts: int := 5

  /** The content of the system message. */
  const System: string := "You are an expert C/C++ assistant that generates optimized code from slower code versions."

  /** The instruction in front of the examples in the user message. */
  const Preamble: string :=
    "You are given several pairs of 'slower version' and 'optimized version' C/C++ code snippets. "
    + "Carefully learn the optimization patterns from the given examples, and then generate the optimized "
    + "version for the final slower code at the end.\n\n"

  /** One chat message, `{"role": ..., "content": ...}`. */
  datatype Message = Message(role: string, content: string)

  /**
   * `build_prompt`: exactly two messages, the system message first and then the user message, which is the
   * fixed instruction followed by the examples, so that the examples end the user message unchanged.
   */
  function BuildPrompt(userInput: string): (msgs: seq<Message>)
    ensures |msgs| == 2
    ensures msgs[0] == Message("system", System)
    ensures msgs[1].role == "user"
    ensures |msgs[1].content| == |Preamble| + |userInput|
    ensures msgs[1].content[..|Preamble|] == Preamble
    ensures msgs[1].content[|Preamble|..] == userInput
  {
    [Message("system", System), Message("user", Preamble + userInput)]
  }

  /** The text `process_line` stores: the stripped answer, or `f"ERROR: {e}"` of the RetryError after five failures. */
  function Answer(rt: Runtime, outcome: Outcome): string {
    match outcome
    case Succeeded(t) => Strip(t)
    case Exhausted(e) => "ERROR: " + rt.retryError(e)
    case FellThrough => "ERROR: " + rt.retryError("")
  }

  /** `str(data.get("input", ""))`: what the f-string puts behind the instruction. */
  function UserInput(rt: Runtime, data: Dict): string {
    Str(rt, GetOr(data, "input", JStr("")))
  }

  /**
   * What `process_line` returns for one line, given the service's reply to each attempt: JSONDecodeError
   * for a line that does not parse, AttributeError (from `data.get`) for one that is not an object, and
   * otherwise the dumped dict with `generated_answers` assigned; the call's failures never escape.
   */
  function LineResult(rt: Runtime, line: string, replies: nat -> Reply): Result<string, PyError> {
    match rt.loads(line)
    case None => Err(DecodeError)
    case Some(v) =>
      if !v.JObj? then Err(AttributeError)
      else Ok(rt.dumps(JObj(Put(v.fields, "generated_answers", JStr(Answer(rt, Retries(replies, MaxAttempts).outcome))))))
  }

  /**
   * `process_line`. `sent` is the list of messages every attempt sends, when the line was read, and `trace`
   * the calls and backoff sleeps of the retry.
   */
  method ProcessLine(rt: Runtime, line: string, replies: nat -> Reply)
    returns (result: Result<string, PyError>, sent: Option<seq<Message>>, trace: seq<Event>)
    ensures result == LineResult(rt, line, replies)
    ensures result.Err? <==> sent.None?
    ensures sent.Some? ==> sent.value == BuildPrompt(UserInput(rt, rt.loads(line).value.fields))
    ensures trace == if sent.Some? then Retries(replies, MaxAttempts).trace else []
  {
    var parsed := rt.loads(line);
    if parsed.None? {
      return Err(DecodeError), None, [];
    }
    if !parsed.value.JObj? {
      return Err(AttributeError), None, [];
    }
    var data := parsed.value.fields;
    var userInput := Str(rt, GetOr(data, "input", JStr("")));
    sent := Some(BuildPrompt(userInput));
    var run := RunRetries(replies, MaxAttempts);
    trace := run.trace;
    match run.outcome {
      case Succeeded(t) => data := Put(data, "generated_answers", JStr(Strip(t)));
      case Exhausted(e) => data := Put(data, "generated_answers", JStr("ERROR: " + rt.retryError(e)));
      case FellThrough => data := Put(data, "generated_answers", JStr("ERROR: " + rt.retryError("")));
    }
    result := Ok(rt.dumps(JObj(data)));
  }

  /**
   * Five attempts always end the loop with an answer or with the last error, never by falling through, and
   * make between one and five calls.
   */
  lemma AnswerReported(rt: Runtime, replies: nat -> Reply)
    ensures var run := Retries(replies, MaxAttempts);
      && !run.outcome.FellThrough?
      && 1 <= CallCount(run.trace) <= MaxAttempts
      && (run.outcome.Succeeded? ==> Answer(rt, run.outcome) == Strip(run.outcome.text))
      && (run.outcome.Exhausted? ==> Answer(rt, run.outcome) == "ERROR: " + rt.retryError(replies(MaxAttempts).error))
  {
    RetriesShape(replies, MaxAttempts);
    RetriesBound(replies, MaxAttempts);
    if Retries(replies, MaxAttempts).outcome.Exhausted? {
      forall i | 1 <= i <= MaxAttempts ensures replies(i).Failure? {
        if replies(i).Answer? {
          RetriesFirstAnswerAny(replies, i);
        }
      }
      RetriesAllFail(replies, MaxAttempts);
    }
  }

  /** An answer within the five attempts means the loop does not end exhausted. */
  lemma RetriesFirstAnswerAny(replies: nat -> Reply, j: nat)
    requires 1 <= j <= MaxAttempts && replies(j).Answer?
    ensures Retries(replies, MaxAttempts).outcome.Succeeded?
  {
    if forall i :: 1 <= i < j ==> replies(i).Failure? {
      RetriesFirstAnswer(replies, MaxAttempts, j);
    } else {
      var i :| 1 <= i < j && replies(i).Answer?;
      RetriesFirstAnswerAny(replies, i);
    }
  }

  /**
   * A line holding an object never makes `process_line` raise: it comes back with `generated_answers` set
   * to the stripped first answer, or to the error text when all five attempts fail, and every other field
   * as it was.
   */
  lemma LineContained(rt: Runtime, line: string, replies: nat -> Reply, k: string)
    requires rt.loads(line).Some? && rt.loads(line).value.JObj?
    ensures var data := rt.loads(line).value.fields;
      var answer := Answer(rt, Retries(replies, MaxAttempts).outcome);
      && LineResult(rt, line, replies) == Ok(rt.dumps(JObj(Put(data, "generated_answers", JStr(answer)))))
      && Get(Put(data, "generated_answers", JStr(answer)), "generated_answers") == Some(JStr(answer))
      && (k != "generated_answers" ==> Get(Put(data, "generated_answers", JStr(answer)), k) == Get(data, k))
  {
    var data := rt.loads(line).value.fields;
    var answer := Answer(rt, Retries(replies, MaxAttempts).outcome);
    if k != "generated_answers" {
      PutOther(data, "generated_answers", JStr(answer), k);
    }
  }

  /** A line without an `input` field sends the instruction alone as the user message. */
  lemma MissingInput(rt: Runtime, data: Dict)
    requires !HasKey(data, "input")
    ensures BuildPrompt(UserInput(rt, data))[1].content == Preamble
  {
  }

  /** The per-line results, in input order, line `i` answered by `service(i)`. */
  function Results(rt: Runtime, lines: seq<string>, service: nat -> nat -> Reply): (r: seq<Result<string, PyError>>)
    ensures |r| == |lines|
  {
    Build((i: nat) requires i < |lines| => LineResult(rt, lines[i], service(i)), |lines|)
  }

  /** The task of line `i`: `process_line` on that line. */
  method AwaitLine(rt: Runtime, lines: seq<string>, service: nat -> nat -> Reply, i: nat) returns (res: Result<string, PyError>)
    requires i < |lines|
    ensures res == Results(rt, lines, service)[i]
  {
    var sent, trace;
    res, sent, trace := ProcessLine(rt, lines[i], service(i));
    BuildAt((i: nat) requires i < |lines| => LineResult(rt, lines[i], service(i)), |lines|, i);
  }

  /**
   * `gather` over the line tasks, with the tasks finishing in the order `order`: each result lands in the
   * slot of its line, so the list is in input order whatever the order; the first task in that order to
   * raise makes `gather` raise its exception.
   */
  method Gather(rt: Runtime, lines: seq<string>, service: nat -> nat -> Reply, order: seq<nat>)
    returns (r: Result<seq<string>, PyError>)
    requires IsPermutation(order, |lines|)
    ensures PermutationBoundsHold(order, |lines|)
    ensures var results := Results(rt, lines, service);
      && (r.Ok? <==> forall i :: 0 <= i < |lines| ==> results[i].Ok?)
      && (r.Ok? ==> |r.value| == |lines| && forall i :: 0 <= i < |lines| ==> r.value[i] == results[i].value)
      && (r.Err? ==> exists j :: (0 <= j < |order| && results[order[j]] == Err(r.error)
            && forall k :: 0 <= k < j ==> results[order[k]].Ok?))
  {
    ghost var results := Results(rt, lines, service);
    PermutationBounds(order, |lines|);
    var slots: seq<string> := seq(|lines|, _ => "");
    for j := 0 to |order|
      invariant |slots| == |lines|
      invariant forall k :: 0 <= k < j ==> results[order[k]].Ok? && slots[order[k]] == results[order[k]].value
    {
      var res := AwaitLine(rt, lines, service, order[j]);
      if res.Err? {
        assert !results[order[j]].Ok?;
        return Err(res.error);
      }
      assert forall k :: 0 <= k < j ==> order[k] != order[j] by {
        forall k | 0 <= k < j ensures order[k] != order[j] {
          PermutationDistinct(order, |lines|, k, j);
        }
      }
      slots := slots[order[j] := res.value];
    }
    forall i | 0 <= i < |lines| ensures results[i].Ok? && slots[i] == results[i].value {
      PermutationCovers(order, |lines|, i);
    }
    return Ok(slots);
  }

  /** `main`'s output: one line per input line, in input order, unless some line made `process_line` raise. */
  method ProcessFile(rt: Runtime, lines: seq<string>, service: nat -> nat -> Reply, order: seq<nat>)
    returns (out: Result<seq<string>, PyError>)
    requires IsPermutation(order, |lines|)
    ensures var results := Results(rt, lines, service);
      && (out.Ok? <==> forall i :: 0 <= i < |lines| ==> results[i].Ok?)
      && (out.Ok? ==> |out.value| == |lines| && forall i :: 0 <= i < |lines| ==> out.value[i] == results[i].value + "\n")
      && (out.Err? ==> exists i :: 0 <= i < |lines| && results[i] == Err(out.error))
  {
    var gathered := Gather(rt, lines, service, order);
    if gathered.Err? {
      return Err(gathered.error);
    }
    var written: seq<string> := [];
    for k := 0 to |gathered.value|
      invariant |written| == k
      invariant forall i :: 0 <= i < k ==> written[i] == gathered.value[i] + "\n"
    {
      written := written + [gathered.value[k] + "\n"];
    }
    return Ok(written);
  }
}
