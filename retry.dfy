/**
 * The retry loop every stage script wraps around its service call:
 *
 *   for attempt in 1 .. max_retries:
 *     call; on success return; on failure remember the error and,
 *     unless this was the last attempt, sleep before the next one;
 *     after the last failed attempt give up with the remembered error.
 *
 * The service is an oracle `replies` from the attempt number to the reply; sleeps
 * are recorded as events, their lengths are not modelled.
 */
module Retry {

  /** What one service call gives back: the completion text, or the text of the exception it raised. */
  datatype Reply = Answer(text: string) | Failure(error: string)

  /** What a run of the loop does, in order. */
  datatype Event =
    | Acquire            // entering `async with semaphore`
    | Release            // leaving it
    | Call(attempt: nat)
    | Sleep(attempt: nat) // the backoff after failed attempt `attempt`

  /**
   * How the loop ends: with the first answer, with the last error after the final attempt,
   * or by falling out of an empty `range` (only when `max_retries < 1`), where Python returns None.
   */
  datatype Outcome = Succeeded(text: string) | Exhausted(lastError: string) | FellThrough

  datatype Run = Run(outcome: Outcome, trace: seq<Event>)

  /** The loop from attempt number `attempt` on. */
  function Attempts(replies: nat -> Reply, maxRetries: int, attempt: nat): Run
    requires 1 <= attempt
    decreases maxRetries - attempt
  {
    if attempt > maxRetries then Run(FellThrough, [])
    else match replies(attempt)
      case Answer(t) => Run(Succeeded(t), [Call(attempt)])
      case Failure(e) =>
        if attempt < maxRetries then
          var rest := Attempts(replies, maxRetries, attempt + 1);
          Run(rest.outcome, [Call(attempt), Sleep(attempt)] + rest.trace)
        else Run(Exhausted(e), [Call(attempt)])
  }

  /** The whole loop, `range(1, max_retries + 1)`. */
  function Retries(replies: nat -> Reply, maxRetries: int): Run {
    Attempts(replies, maxRetries, 1)
  }

  /** The loop as the scripts run it, one attempt per iteration. */
  method RunRetries(replies: nat -> Reply, maxRetries: int) returns (run: Run)
    ensures run == Retries(replies, maxRetries)
  {
    var trace: seq<Event> := [];
    var attempt := 1;
    var lastErr := "";
    while attempt <= maxRetries
      invariant 1 <= attempt
      invariant Retries(replies, maxRetries)
        == Run(Attempts(replies, maxRetries, attempt).outcome, trace + Attempts(replies, maxRetries, attempt).trace)
      decreases maxRetries - attempt
    {
      trace := trace + [Call(attempt)];
      match replies(attempt) {
        case Answer(t) =>
          return Run(Succeeded(t), trace);
        case Failure(e) =>
          lastErr := e;
          if attempt < maxRetries {
            trace := trace + [Sleep(attempt)];
          } else {
            return Run(Exhausted(lastErr), trace);
          }
      }
      attempt := attempt + 1;
    }
    return Run(FellThrough, trace);
  }

  function CallCount(trace: seq<Event>): nat {
    if trace == [] then 0 else (if trace[0].Call? then 1 else 0) + CallCount(trace[1..])
  }

  lemma {:induction false} CallCountAppend(a: seq<Event>, b: seq<Event>)
    ensures CallCount(a + b) == CallCount(a) + CallCount(b)
    decreases |a|
  {
    if a == [] {
      assert a + b == b;
    } else {
      assert (a + b)[1..] == a[1..] + b;
      CallCountAppend(a[1..], b);
    }
  }

  /** `[Call(from), Sleep(from), Call(from + 1), ..., Sleep(last - 1), Call(last)]`: a sleep after every call but the last. */
  function Schedule(from: nat, last: nat): seq<Event>
    requires from <= last
    decreases last - from
  {
    if from == last then [Call(last)] else [Call(from), Sleep(from)] + Schedule(from + 1, last)
  }

  /** The calls in a schedule: one per attempt number from `from` to `last`. */
  lemma {:induction false} ScheduleCalls(from: nat, last: nat)
    requires from <= last
    ensures CallCount(Schedule(from, last)) == last - from + 1
    decreases last - from
  {
    if from == last {
      assert [Call(last)][1..] == [];
    } else {
      ScheduleCalls(from + 1, last);
      var two := [Call(from), Sleep(from)];
      CallCountAppend(two, Schedule(from + 1, last));
      assert two[1..] == [Sleep(from)] && two[1..][1..] == [];
    }
  }

  /** A schedule holds calls and sleeps only, numbered from `from` to `last`. */
  lemma {:induction false} ScheduleEvents(from: nat, last: nat)
    requires from <= last
    ensures forall e :: e in Schedule(from, last) ==> (e.Call? || e.Sleep?) && from <= e.attempt <= last
    ensures forall e :: e in Schedule(from, last) && e.Sleep? ==> e.attempt < last
    decreases last - from
  {
    if from < last {
      ScheduleEvents(from + 1, last);
    }
  }

  /** How the loop ends after a reply that it does not retry. */
  function Ended(reply: Reply): Outcome {
    match reply
    case Answer(t) => Succeeded(t)
    case Failure(e) => Exhausted(e)
  }

  /** The attempt at which the loop started at `attempt` stops: the first that answers, else `maxRetries`. */
  function LastAttempt(replies: nat -> Reply, maxRetries: int, attempt: nat): (last: nat)
    requires 1 <= attempt <= maxRetries
    ensures attempt <= last <= maxRetries
    ensures replies(last).Answer? || last == maxRetries
    ensures forall a :: attempt <= a < last ==> replies(a).Failure?
    decreases maxRetries - attempt
  {
    if attempt == maxRetries || replies(attempt).Answer? then attempt
    else LastAttempt(replies, maxRetries, attempt + 1)
  }

  /**
   * What the loop does from attempt `attempt` on: it calls every attempt up to the one it stops at, sleeping
   * after each failed one, and ends with that attempt's reply.
   */
  lemma {:induction false} AttemptsShape(replies: nat -> Reply, maxRetries: int, attempt: nat)
    requires 1 <= attempt <= maxRetries
    ensures var last := LastAttempt(replies, maxRetries, attempt);
      Attempts(replies, maxRetries, attempt) == Run(Ended(replies(last)), Schedule(attempt, last))
    decreases maxRetries - attempt
  {
    if attempt < maxRetries && replies(attempt).Failure? {
      AttemptsShape(replies, maxRetries, attempt + 1);
    }
  }

  /** The whole loop: nothing when `max_retries < 1`, else the schedule up to the last attempt and its reply. */
  lemma RetriesShape(replies: nat -> Reply, maxRetries: int)
    ensures maxRetries < 1 ==> Retries(replies, maxRetries) == Run(FellThrough, [])
    ensures maxRetries >= 1 ==>
      var last := LastAttempt(replies, maxRetries, 1);
      Retries(replies, maxRetries) == Run(Ended(replies(last)), Schedule(1, last))
  {
    if maxRetries >= 1 {
      AttemptsShape(replies, maxRetries, 1);
    }
  }

  /** The attempt bound: between one and `max_retries` calls, none at all when `max_retries < 1`. */
  lemma RetriesBound(replies: nat -> Reply, maxRetries: int)
    ensures var n := CallCount(Retries(replies, maxRetries).trace);
      (maxRetries >= 1 ==> 1 <= n <= maxRetries) && (maxRetries < 1 ==> n == 0)
  {
    RetriesShape(replies, maxRetries);
    if maxRetries >= 1 {
      ScheduleCalls(1, LastAttempt(replies, maxRetries, 1));
    }
  }

  /** The loop returns the first answer within `maxRetries` attempts when there is one. */
  lemma RetriesFirstAnswer(replies: nat -> Reply, maxRetries: int, j: nat)
    requires 1 <= j <= maxRetries && replies(j).Answer?
    requires forall i :: 1 <= i < j ==> replies(i).Failure?
    ensures Retries(replies, maxRetries).outcome == Succeeded(replies(j).text)
  {
    RetriesShape(replies, maxRetries);
  }

  /** With every attempt failing, the loop reports the error of attempt `maxRetries`. */
  lemma RetriesAllFail(replies: nat -> Reply, maxRetries: int)
    requires 1 <= maxRetries
    requires forall i :: 1 <= i <= maxRetries ==> replies(i).Failure?
    ensures Retries(replies, maxRetries).outcome == Exhausted(replies(maxRetries).error)
  {
    RetriesShape(replies, maxRetries);
  }

  /** A sleep only ever follows a failed attempt that was not the last one allowed. */
  lemma RetriesSleeps(replies: nat -> Reply, maxRetries: int)
    ensures forall e :: e in Retries(replies, maxRetries).trace && e.Sleep? ==>
      1 <= e.attempt < maxRetries && replies(e.attempt).Failure?
  {
    RetriesShape(replies, maxRetries);
    if maxRetries >= 1 {
      ScheduleEvents(1, LastAttempt(replies, maxRetries, 1));
    }
  }
}
