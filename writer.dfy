/**
 * The shape shared by the scripts that write each record as soon as it is processed: every line is read in
 * turn and is skipped, written, or raises; the first exception ends the script, and the output file keeps
 * what was written before it.
 */
module Writer {
  import opened Wrappers
  import opened Python

  /** What processing one line does: nothing (`None`), one output line, or an exception. */
  type LineEffect = Option<Result<string, PyError>>

  /** The output file and the exception that stopped the script, if one did. */
  datatype Output = Output(written: seq<string>, raised: Option<PyError>)

  /** The lines in order: each non-blank line is written until one raises, which ends the script. */
  function Emit(outs: seq<LineEffect>): Output
    decreases |outs|
  {
    if outs == [] then Output([], None)
    else
      var before := Emit(outs[..|outs| - 1]);
      if before.raised.Some? then before
      else
        match outs[|outs| - 1]
        case None => before
        case Some(Err(e)) => Output(before.written, Some(e))
        case Some(Ok(s)) => Output(before.written + [s], None)
  }

  /** One more line, after lines that raised nothing. */
  lemma EmitStep(outs: seq<LineEffect>, i: nat)
    requires i < |outs| && Emit(outs[..i]).raised.None?
    ensures Emit(outs[..i + 1]) == match outs[i]
      case None => Emit(outs[..i])
      case Some(Err(e)) => Output(Emit(outs[..i]).written, Some(e))
      case Some(Ok(s)) => Output(Emit(outs[..i]).written + [s], None)
  {
    assert outs[..i + 1][..i] == outs[..i];
  }

  /** Once a line has raised, the later lines are never read. */
  lemma {:induction false} EmitStays(outs: seq<LineEffect>, m: nat)
    requires m <= |outs| && Emit(outs[..m]).raised.Some?
    ensures Emit(outs) == Emit(outs[..m])
    decreases |outs| - m
  {
    if m < |outs| {
      assert outs[..m + 1][..m] == outs[..m];
      EmitStays(outs, m + 1);
    } else {
      assert outs[..m] == outs;
    }
  }

  /** The lines written, in order: one for each line that is not skipped. */
  function Kept(outs: seq<LineEffect>): seq<string>
    decreases |outs|
  {
    if outs == [] then []
    else
      var last := outs[|outs| - 1];
      Kept(outs[..|outs| - 1]) + (if last.Some? && last.value.Ok? then [last.value.value] else [])
  }

  /**
   * The script ends normally exactly when no line raises, and then it has written one output line for every
   * line that is not skipped, in order.
   */
  lemma {:induction false} EmitLines(outs: seq<LineEffect>)
    ensures Emit(outs).raised.None? <==> forall i :: 0 <= i < |outs| ==> !(outs[i].Some? && outs[i].value.Err?)
    ensures Emit(outs).raised.None? ==> Emit(outs).written == Kept(outs)
    decreases |outs|
  {
    if outs != [] {
      var before := outs[..|outs| - 1];
      EmitLines(before);
      assert forall i :: 0 <= i < |before| ==> before[i] == outs[i];
    }
  }

  /**
   * A script that raises has raised at some line, with that line's exception, having written exactly what the
   * lines before it wrote.
   */
  lemma {:induction false} EmitRaised(outs: seq<LineEffect>)
    requires Emit(outs).raised.Some?
    ensures exists m :: (0 <= m < |outs| && outs[m] == Some(Err(Emit(outs).raised.value))
      && Emit(outs[..m]) == Output(Emit(outs).written, None))
    decreases |outs|
  {
    var before := outs[..|outs| - 1];
    if Emit(before).raised.Some? {
      EmitRaised(before);
      var m :| 0 <= m < |before| && before[m] == Some(Err(Emit(before).raised.value))
        && Emit(before[..m]) == Output(Emit(before).written, None);
      assert before[..m] == outs[..m];
    } else {
      assert outs[..|outs| - 1] == before;
    }
  }

  /** When every line is written, the output holds each line's text, in order. */
  lemma {:induction false} KeptAll(outs: seq<LineEffect>)
    requires forall i :: 0 <= i < |outs| ==> outs[i].Some? && outs[i].value.Ok?
    ensures |Kept(outs)| == |outs|
    ensures forall i :: 0 <= i < |outs| ==> Kept(outs)[i] == outs[i].value.value
    decreases |outs|
  {
    if outs != [] {
      var before := outs[..|outs| - 1];
      assert forall i :: 0 <= i < |before| ==> before[i] == outs[i];
      KeptAll(before);
    }
  }
}
