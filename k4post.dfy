/**
 * optm_generation_old/k4post.py: rewrites each record's `generated_answers` answer text as the list of the
 * `cpp` code blocks in it, line by line, skipping blank lines. A line that does not hold a JSON object stops
 * the script with an exception; what was written before it stays in the output file.
 */
module K4Post {
  import opened Wrappers
  import opened Text
  import opened Python
  import opened Reorder
  import opened Writer
  import opened CodeBlock

  /** `[s.strip() for s in blocks]`, as JSON strings. */
  function Stripped(blocks: seq<string>): (r: seq<Json>)
    ensures |r| == |blocks| && forall k :: 0 <= k < |blocks| ==> r[k] == JStr(Strip(blocks[k]))
  {
    seq(|blocks|, k requires 0 <= k < |blocks| => JStr(Strip(blocks[k])))
  }

  /**
   * The new value of `generated_answers` for an answer text: the stripped contents of its `cpp` blocks, in
   * order, or the whole text stripped when it has none.
   */
  function Answers(ans: string): (r: seq<Json>)
  {
    var blocks := CppBlocks(ans, 0);
    if blocks != [] then Stripped(blocks) else [JStr(Strip(ans))]
  }

  /** The record after the rewrite: only a string `generated_answers` is replaced. */
  function Converted(obj: Dict): Dict {
    match Get(obj, "generated_answers")
    case Some(JStr(ans)) => Put(obj, "generated_answers", JArr(Answers(ans)))
    case _ => obj
  }

  /**
   * What one line of the loop does: nothing for a blank line; JSONDecodeError for text that does not parse;
   * AttributeError (from `obj.get`) for a value that is not an object; otherwise the line written.
   */
  function LineOut(rt: Runtime, line: string): LineEffect {
    if Strip(line) == [] then None
    else
      match rt.loads(line)
      case None => Some(Err(DecodeError))
      case Some(v) =>
        if !v.JObj? then Some(Err(AttributeError))
        else Some(Ok(rt.dumps(JObj(Converted(v.fields))) + "\n"))
  }

  /** What each line does, in file order. */
  function Outs(rt: Runtime, lines: seq<string>): (r: seq<LineEffect>)
    ensures |r| == |lines|
  {
    Build((i: nat) requires i < |lines| => LineOut(rt, lines[i]), |lines|)
  }

  /** One line of the loop, as the list of what each line does records it. */
  method LineAt(rt: Runtime, lines: seq<string>, i: nat) returns (o: LineEffect)
    requires i < |lines|
    ensures o == Outs(rt, lines)[i]
  {
    o := ConvertLine(rt, lines[i]);
    BuildAt((i: nat) requires i < |lines| => LineOut(rt, lines[i]), |lines|, i);
  }

  /** The body of the script's loop for one line. */
  method ConvertLine(rt: Runtime, line: string) returns (o: LineEffect)
    ensures o == LineOut(rt, line)
  {
    if Strip(line) == [] {
      return None;
    }
    var parsed := rt.loads(line);
    if parsed.None? {
      return Some(Err(DecodeError));
    }
    if !parsed.value.JObj? {
      return Some(Err(AttributeError));
    }
    var obj := Rewrite(parsed.value.fields);
    return Some(Ok(rt.dumps(JObj(obj)) + "\n"));
  }

  /** `obj["generated_answers"] = ...` when the answer is a string. */
  method Rewrite(obj: Dict) returns (r: Dict)
    ensures r == Converted(obj)
  {
    r := obj;
    var ans := Get(obj, "generated_answers");
    if ans.Some? && ans.value.JStr? {
      var blocks := CppBlocks(ans.value.s, 0);
      if blocks != [] {
        r := Put(obj, "generated_answers", JArr(Stripped(blocks)));
      } else {
        r := Put(obj, "generated_answers", JArr([JStr(Strip(ans.value.s))]));
      }
    }
  }

  /** The script's loop: stops at the first line that raises, with what was written before it. */
  method ProcessFile(rt: Runtime, lines: seq<string>) returns (out: Output)
    ensures out == Emit(Outs(rt, lines))
  {
    ghost var outs := Outs(rt, lines);
    var written: seq<string> := [];
    for i := 0 to |lines|
      invariant Emit(outs[..i]) == Output(written, None)
    {
      var o := LineAt(rt, lines, i);
      EmitStep(outs, i);
      match o {
        case None =>
        case Some(Err(e)) =>
          EmitStays(outs, i + 1);
          return Output(written, Some(e));
        case Some(Ok(s)) =>
          written := written + [s];
      }
    }
    assert outs[..|lines|] == outs;
    return Output(written, None);
  }

  /**
   * Per line: a blank line is skipped, a line that does not parse raises JSONDecodeError, one holding
   * something other than an object raises AttributeError, and an object is written back rewritten.
   */
  lemma LineOutCases(rt: Runtime, line: string)
    ensures LineOut(rt, line).None? <==> IsBlank(line)
    ensures !IsBlank(line) && rt.loads(line).None? ==> LineOut(rt, line) == Some(Err(DecodeError))
    ensures !IsBlank(line) && rt.loads(line).Some? && !rt.loads(line).value.JObj? ==> LineOut(rt, line) == Some(Err(AttributeError))
    ensures !IsBlank(line) && rt.loads(line).Some? && rt.loads(line).value.JObj? ==>
      LineOut(rt, line) == Some(Ok(rt.dumps(JObj(Converted(rt.loads(line).value.fields))) + "\n"))
  {
    StripEmptyIffBlank(line);
  }

  /**
   * The rewrite of `generated_answers`: a non-string value (or none) leaves the record as it was; an answer
   * text becomes a non-empty list, one stripped entry per `cpp` block in order when there are blocks and
   * `[ans.strip()]` otherwise, and no entry holds a fence. Every other field keeps its value.
   */
  lemma ConvertedFields(obj: Dict, k: string)
    ensures var ans := Get(obj, "generated_answers");
      var r := Converted(obj);
      && (!(ans.Some? && ans.value.JStr?) ==> r == obj)
      && (ans.Some? && ans.value.JStr? ==>
            var blocks := CppBlocks(ans.value.s, 0);
            var items := Answers(ans.value.s);
            && Get(r, "generated_answers") == Some(JArr(items))
            && items != []
            && (blocks != [] ==> |items| == |blocks| && forall b :: 0 <= b < |blocks| ==> items[b] == JStr(Strip(blocks[b])))
            && (blocks == [] ==> items == [JStr(Strip(ans.value.s))])
            && (blocks != [] ==> forall b :: 0 <= b < |items| ==> !Contains(items[b].s, Fence))
            && (k != "generated_answers" ==> Get(r, k) == Get(obj, k)))
  {
    var ans := Get(obj, "generated_answers");
    if ans.Some? && ans.value.JStr? {
      var blocks := CppBlocks(ans.value.s, 0);
      forall b | 0 <= b < |blocks| ensures !Contains(Strip(blocks[b]), Fence) {
        StripKeepsAbsence(blocks[b], Fence);
      }
      if k != "generated_answers" {
        PutOther(obj, "generated_answers", JArr(Answers(ans.value.s)), k);
      }
    }
  }

  /** There are blocks exactly when a `cpp` fence has a closing fence after it. */
  lemma AnswersFromBlocks(ans: string)
    ensures |Answers(ans)| >= 1
    ensures HasCppPair(ans, 0) <==> CppBlocks(ans, 0) != []
  {
    CppBlocksExist(ans, 0);
  }
}
