/**
 * optm_generation/viewer.py: a terminal browser over a results file. Every line holding a JSON object becomes
 * one item (source, target, the generated answers as text, the chosen metrics, the analysis as text); the
 * screen shows one item at a time as a list of text lines, wrapped to the screen width, in one of three
 * views, scrolled so that the window never runs past the end, and the arrow keys, Tab and `q` move
 * between items, scroll, switch views and quit.
 */
module Viewer {
  import opened Wrappers
  import opened Text
  import opened Python

  /** `METRIC_FIELDS`: the fields kept as metrics, in display order. */
  const MetricFields: seq<string> := [
    "generated_answers_0_agg_runtime_adjusted",
    "fastest_generated_agg_runtime",
    "fastest_generated_runtime_over_all_submissions",
    "fastest_generated_speedup_over_all_submissions",
    "fastest_generated_correctness_over_all_submissions",
    "agg_runtime_best@1",
    "accuracy_best@1",
    "is_correct_best@1",
    "speedup_best@1",
    "speedup_of_fastest_generated_of_all_submissions",
    "speedup_tgt_over_src",
    "problem_id"]

  /** What a blank answer is shown as. */
  const EmptyAnswer: string := "<EMPTY>"

  function Max(a: int, b: int): int {
    if a >= b then a else b
  }

  // ---------------------------------------------------------------------------------------------------
  // Reading the file

  /** One item: `src_code` and `tgt_code` as read, the answers and analysis as text, the metrics present. */
  datatype Item = Item(src: Json, tgt: Json, gen: string, metrics: Dict, ana: string)

  /** `generated_answers` as text: a list joined one entry per line, anything else `str`. */
  function RawGen(rt: Runtime, gen: Json): string {
    if gen.JArr? then Join(seq(|gen.items|, i requires 0 <= i < |gen.items| => Str(rt, gen.items[i])), "\n")
    else Str(rt, gen)
  }

  /** The answers' text, with a blank one replaced by `<EMPTY>`. */
  function GenText(rt: Runtime, gen: Json): string {
    var g := RawGen(rt, gen);
    if Strip(g) == [] then EmptyAnswer else g
  }

  /** `analysis` as text: a dict or list is dumped with an indent of two, anything else is `str`. */
  function AnaText(rt: Runtime, ana: Json): string {
    if ana.JObj? || ana.JArr? then rt.dumpsIndented(ana) else Str(rt, ana)
  }

  /** `{k: obj.get(k, None) for k in fields if k in obj}` */
  function MetricsOf(obj: Dict, fields: seq<string>): Dict
    decreases |fields|
  {
    if fields == [] then []
    else
      var d := MetricsOf(obj, fields[..|fields| - 1]);
      var k := fields[|fields| - 1];
      if HasKey(obj, k) then Put(d, k, Get(obj, k).value) else d
  }

  /** The item one record becomes. */
  function ItemOf(rt: Runtime, obj: Dict): Item {
    Item(
      GetOr(obj, "src_code", JStr("")),
      GetOr(obj, "tgt_code", JStr("")),
      GenText(rt, GetOr(obj, "generated_answers", JStr(""))),
      MetricsOf(obj, MetricFields),
      AnaText(rt, GetOr(obj, "analysis", JStr(""))))
  }

  /**
   * One line of `read_jsonl`: a blank line and one that is not JSON are skipped; a JSON value that is not an
   * object raises AttributeError (from `obj.get`), which the loop does not catch.
   */
  function LineObject(rt: Runtime, line: string): Result<Option<Dict>, PyError> {
    var s := Strip(line);
    if s == [] then Ok(None)
    else
      match rt.loads(s)
      case None => Ok(None)
      case Some(v) => if v.JObj? then Ok(Some(v.fields)) else Err(AttributeError)
  }

  /** The records `read_jsonl` turns into items, in file order, or the first exception. */
  function ReadObjects(rt: Runtime, lines: seq<string>): Result<seq<Dict>, PyError>
    decreases |lines|
  {
    if lines == [] then Ok([])
    else
      match ReadObjects(rt, lines[..|lines| - 1])
      case Err(e) => Err(e)
      case Ok(objs) =>
        match LineObject(rt, lines[|lines| - 1])
        case Err(e) => Err(e)
        case Ok(None) => Ok(objs)
        case Ok(Some(obj)) => Ok(objs + [obj])
  }

  /** `f` applied to each element, in order. */
  function Map<A, B>(f: A -> B, xs: seq<A>): (r: seq<B>)
    ensures |r| == |xs| && forall k :: 0 <= k < |xs| ==> r[k] == f(xs[k])
  {
    seq(|xs|, k requires 0 <= k < |xs| => f(xs[k]))
  }

  lemma MapSnoc<A, B>(f: A -> B, xs: seq<A>, x: A)
    ensures Map(f, xs + [x]) == Map(f, xs) + [f(x)]
  {
    assert forall k :: 0 <= k < |xs| ==> (xs + [x])[k] == xs[k];
  }

  function ItemFn(rt: Runtime): Dict -> Item {
    obj => ItemOf(rt, obj)
  }

  /** The item of each record, in order. */
  function Items(rt: Runtime, objs: seq<Dict>): seq<Item> {
    Map(ItemFn(rt), objs)
  }

  /** `read_jsonl` over the file's lines: one item per record, in file order, or the first exception. */
  function ReadItems(rt: Runtime, lines: seq<string>): Result<seq<Item>, PyError> {
    match ReadObjects(rt, lines)
    case Err(e) => Err(e)
    case Ok(objs) => Ok(Items(rt, objs))
  }

  /** A line that holds JSON which is not an object. */
  predicate Raises(rt: Runtime, line: string) {
    Strip(line) != [] && rt.loads(Strip(line)).Some? && !rt.loads(Strip(line)).value.JObj?
  }

  /** The objects the lines hold, in file order. */
  function Objects(rt: Runtime, lines: seq<string>): seq<Dict>
    decreases |lines|
  {
    if lines == [] then []
    else
      var s := Strip(lines[|lines| - 1]);
      var before := Objects(rt, lines[..|lines| - 1]);
      if s != [] && rt.loads(s).Some? && rt.loads(s).value.JObj? then before + [rt.loads(s).value.fields] else before
  }

  /** `read_jsonl`. */
  method ReadJsonl(rt: Runtime, lines: seq<string>) returns (r: Result<seq<Item>, PyError>)
    ensures r == ReadItems(rt, lines)
  {
    var items: seq<Item> := [];
    ghost var objs: seq<Dict> := [];
    for i := 0 to |lines|
      invariant ReadObjects(rt, lines[..i]) == Ok(objs)
      invariant items == Items(rt, objs)
    {
      var o := ParseLine(rt, lines[i]);
      ReadObjectsStep(rt, lines, i);
      if o.Err? {
        ReadObjectsStays(rt, lines, i + 1);
        return Err(o.error);
      }
      if o.value.Some? {
        var obj := o.value.value;
        var item := ReadItem(rt, obj);
        ItemsSnoc(rt, objs, obj);
        items := items + [item];
        objs := objs + [obj];
      }
    }
    assert lines[..|lines|] == lines;
    return Ok(items);
  }

  /** The start of `read_jsonl`'s loop body: strip, skip a blank line, parse, and call `obj.get`. */
  method ParseLine(rt: Runtime, line: string) returns (o: Result<Option<Dict>, PyError>)
    ensures o == LineObject(rt, line)
  {
    var s := Strip(line);
    if s == [] {
      return Ok(None);
    }
    var parsed := rt.loads(s);
    if parsed.None? {
      return Ok(None);
    }
    if !parsed.value.JObj? {
      return Err(AttributeError);
    }
    return Ok(Some(parsed.value.fields));
  }

  /** The rest of `read_jsonl`'s loop body, for a line holding an object. */
  method ReadItem(rt: Runtime, obj: Dict) returns (item: Item)
    ensures item == ItemOf(rt, obj)
  {
    var gen := GetOr(obj, "generated_answers", JStr(""));
    var genText: string;
    if gen.JArr? {
      genText := Join(seq(|gen.items|, k requires 0 <= k < |gen.items| => Str(rt, gen.items[k])), "\n");
    } else if !gen.JStr? {
      genText := rt.show(gen);
    } else {
      genText := gen.s;
    }
    if Strip(genText) == [] {
      genText := EmptyAnswer;
    }
    var ana := GetOr(obj, "analysis", JStr(""));
    var anaText: string;
    if ana.JObj? || ana.JArr? {
      anaText := rt.dumpsIndented(ana);
    } else if !ana.JStr? {
      anaText := rt.show(ana);
    } else {
      anaText := ana.s;
    }
    var metrics := MetricsOf(obj, MetricFields);
    item := Item(GetOr(obj, "src_code", JStr("")), GetOr(obj, "tgt_code", JStr("")), genText, metrics, anaText);
  }

  /** One more line, after lines that raised nothing. */
  lemma ReadObjectsStep(rt: Runtime, lines: seq<string>, i: nat)
    requires i < |lines| && ReadObjects(rt, lines[..i]).Ok?
    ensures ReadObjects(rt, lines[..i + 1]) == match LineObject(rt, lines[i])
      case Err(e) => Err(e)
      case Ok(None) => ReadObjects(rt, lines[..i])
      case Ok(Some(obj)) => Ok(ReadObjects(rt, lines[..i]).value + [obj])
  {
    assert lines[..i + 1][..i] == lines[..i];
    assert lines[..i + 1][i] == lines[i];
  }

  lemma ItemsSnoc(rt: Runtime, objs: seq<Dict>, obj: Dict)
    ensures Items(rt, objs + [obj]) == Items(rt, objs) + [ItemOf(rt, obj)]
  {
    MapSnoc(ItemFn(rt), objs, obj);
  }

  /** Once a line has raised, the lines after it are never read. */
  lemma {:induction false} ReadObjectsStays(rt: Runtime, lines: seq<string>, m: nat)
    requires m <= |lines| && ReadObjects(rt, lines[..m]).Err?
    ensures ReadObjects(rt, lines) == ReadObjects(rt, lines[..m])
    decreases |lines| - m
  {
    if m < |lines| {
      assert lines[..m + 1][..m] == lines[..m];
      ReadObjectsStays(rt, lines, m + 1);
    } else {
      assert lines[..m] == lines;
    }
  }

  /**
   * `read_jsonl` returns exactly when no line holds JSON that is not an object, and the exception is then
   * AttributeError.
   */
  lemma {:induction false} ReadItemsOk(rt: Runtime, lines: seq<string>)
    ensures ReadItems(rt, lines).Ok? <==> forall i :: 0 <= i < |lines| ==> !Raises(rt, lines[i])
    ensures ReadItems(rt, lines).Err? ==> ReadItems(rt, lines).error == AttributeError
  {
    ReadObjectsOk(rt, lines);
  }

  lemma {:induction false} ReadObjectsOk(rt: Runtime, lines: seq<string>)
    ensures ReadObjects(rt, lines).Ok? <==> forall i :: 0 <= i < |lines| ==> !Raises(rt, lines[i])
    ensures ReadObjects(rt, lines).Err? ==> ReadObjects(rt, lines).error == AttributeError
    decreases |lines|
  {
    if lines != [] {
      var before, last := lines[..|lines| - 1], lines[|lines| - 1];
      ReadObjectsOk(rt, before);
      LineObjectRaises(rt, last);
      var r := ReadObjects(rt, before);
      if r.Err? {
        assert ReadObjects(rt, lines) == r;
        var i :| 0 <= i < |before| && Raises(rt, before[i]);
        assert before[i] == lines[i];
      } else if LineObject(rt, last).Err? {
        assert ReadObjects(rt, lines) == Err(LineObject(rt, last).error);
      } else {
        assert ReadObjects(rt, lines).Ok?;
        forall i | 0 <= i < |lines| ensures !Raises(rt, lines[i]) {
          if i < |before| {
            assert before[i] == lines[i];
          } else {
            assert i == |lines| - 1;
          }
        }
      }
    }
  }

  /** One line raises exactly when it holds JSON that is not an object, and then AttributeError. */
  lemma LineObjectRaises(rt: Runtime, line: string)
    ensures LineObject(rt, line).Err? <==> Raises(rt, line)
    ensures LineObject(rt, line).Err? ==> LineObject(rt, line).error == AttributeError
  {
  }

  /** The items `read_jsonl` returns are those of the objects the lines hold, one each, in file order. */
  lemma ReadItemsObjects(rt: Runtime, lines: seq<string>)
    requires ReadItems(rt, lines).Ok?
    ensures var items, objects := ReadItems(rt, lines).value, Objects(rt, lines);
      |items| == |objects| && forall k :: 0 <= k < |items| ==> items[k] == ItemOf(rt, objects[k])
  {
    ReadObjectsValues(rt, lines);
  }

  lemma {:induction false} ReadObjectsValues(rt: Runtime, lines: seq<string>)
    requires ReadObjects(rt, lines).Ok?
    ensures ReadObjects(rt, lines).value == Objects(rt, lines)
    decreases |lines|
  {
    if lines != [] {
      var before, last := lines[..|lines| - 1], lines[|lines| - 1];
      ReadObjectsValues(rt, before);
      var s := Strip(last);
      if s != [] && rt.loads(s).Some? && rt.loads(s).value.JObj? {
        assert LineObject(rt, last) == Ok(Some(rt.loads(s).value.fields));
      } else {
        assert LineObject(rt, last) == Ok(None);
      }
    }
  }

  /** The answers as shown are never blank: a blank text is shown as `<EMPTY>`, any other as it is. */
  lemma GenNotBlank(rt: Runtime, gen: Json)
    ensures !IsBlank(GenText(rt, gen))
    ensures GenText(rt, gen) == if IsBlank(RawGen(rt, gen)) then EmptyAnswer else RawGen(rt, gen)
  {
    StripEmptyIffBlank(RawGen(rt, gen));
    assert !IsBlank(EmptyAnswer) by {
      assert !IsSpace(EmptyAnswer[0]);
    }
  }

  /** A missing answer is shown as `<EMPTY>`, a non-blank string answer as it is. */
  lemma GenString(rt: Runtime, obj: Dict)
    ensures !HasKey(obj, "generated_answers") ==> ItemOf(rt, obj).gen == EmptyAnswer
    ensures var raw := GetOr(obj, "generated_answers", JStr(""));
      raw.JStr? && !IsBlank(raw.s) ==> ItemOf(rt, obj).gen == raw.s
  {
    var raw := GetOr(obj, "generated_answers", JStr(""));
    GenNotBlank(rt, raw);
    assert IsBlank("");
  }

  /** A list of string answers is joined one entry per line. */
  lemma GenList(rt: Runtime, items: seq<Json>)
    requires forall i :: 0 <= i < |items| ==> items[i].JStr?
    ensures RawGen(rt, JArr(items)) == Join(seq(|items|, i requires 0 <= i < |items| => items[i].s), "\n")
  {
    assert seq(|items|, i requires 0 <= i < |items| => Str(rt, items[i]))
      == seq(|items|, i requires 0 <= i < |items| => items[i].s);
  }

  /**
   * The metrics kept: a field has a metric exactly when it is one of `METRIC_FIELDS` and the record has it,
   * with the record's value; no field is kept twice.
   */
  lemma {:induction false} MetricsExact(obj: Dict, fields: seq<string>, k: string)
    ensures Get(MetricsOf(obj, fields), k) == if k in fields then Get(obj, k) else None
    ensures Keyed(MetricsOf(obj, fields))
    decreases |fields|
  {
    if fields != [] {
      var before := fields[..|fields| - 1];
      var f := fields[|fields| - 1];
      var d := MetricsOf(obj, before);
      MetricsExact(obj, before, k);
      assert fields == before + [f];
      assert k in fields <==> k in before || k == f;
      if HasKey(obj, f) {
        PutKeyed(d, f, Get(obj, f).value);
        if k != f {
          PutOther(d, f, Get(obj, f).value, k);
        }
      }
    } else {
      assert Keys([]) == [];
    }
  }

  /** The analysis as shown: a dict or list indented, a string as it is, nothing as the empty text. */
  lemma AnaShape(rt: Runtime, obj: Dict)
    ensures var ana := ItemOf(rt, obj).ana;
      var raw := GetOr(obj, "analysis", JStr(""));
      && (raw.JObj? || raw.JArr? ==> ana == rt.dumpsIndented(raw))
      && (raw.JStr? ==> ana == raw.s)
      && (!HasKey(obj, "analysis") ==> ana == "")
  {
  }

  // ---------------------------------------------------------------------------------------------------
  // wrap_text

  /**
   * Every line is short enough for `while len(line) > width` to end: no lines at all, a positive width, or
   * only empty lines and width 0.
   */
  predicate Fits(ls: seq<string>, width: int) {
    ls == [] || width > 0 || (width == 0 && forall k :: 0 <= k < |ls| ==> ls[k] == [])
  }

  lemma FitsPrefix(ls: seq<string>, width: int, m: nat)
    requires Fits(ls, width) && m <= |ls|
    ensures Fits(ls[..m], width)
  {
    assert forall k :: 0 <= k < m ==> ls[..m][k] == ls[k];
  }

  /** `wrap_text(text, width)` ends. */
  predicate Wraps(text: string, width: int) {
    Fits(SplitLines(text), width)
  }

  /** The pieces `wrap_text` cuts one line into: `width` characters at a time, the rest last. */
  function Chunks(line: string, width: int): seq<string>
    requires width > 0 || (width == 0 && line == [])
    decreases |line|
  {
    if |line| > width then [line[..width]] + Chunks(line[width..], width) else [line]
  }

  /** The lines of every input line's pieces, in order. */
  function WrapLines(ls: seq<string>, width: int): seq<string>
    requires Fits(ls, width)
    decreases |ls|
  {
    if ls == [] then []
    else
      FitsPrefix(ls, width, |ls| - 1);
      WrapLines(ls[..|ls| - 1], width) + Chunks(ls[|ls| - 1], width)
  }

  /** `wrap_text(text, width)` for a text already passed through `str`. */
  function Wrapped(text: string, width: int): seq<string>
    requires Wraps(text, width)
  {
    WrapLines(SplitLines(text), width)
  }

  /** `wrap_text`. */
  method WrapText(text: string, width: int) returns (lines: seq<string>)
    requires Wraps(text, width)
    ensures lines == Wrapped(text, width)
  {
    var ls := SplitLines(text);
    lines := [];
    for i := 0 to |ls|
      invariant lines == WrapLines(ls[..i], width)
    {
      assert ls[..i + 1][..i] == ls[..i];
      var line := ls[i];
      FitsPrefix(ls, width, i + 1);
      ghost var before := lines;
      while |line| > width
        invariant width > 0 || (width == 0 && line == [])
        invariant lines + Chunks(line, width) == before + Chunks(ls[i], width)
        decreases |line|
      {
        lines := lines + [line[..width]];
        line := line[width..];
      }
      lines := lines + [line];
    }
    assert ls[..|ls|] == ls;
  }

  /**
   * Python's `line[width:]` as the loop of `wrap_text` computes it, negative widths included: a negative
   * index counts from the end of the line.
   */
  function PyRest(line: string, width: int): (r: string)
    ensures |r| <= |line| && r == line[|line| - |r|..]
  {
    if width >= 0 then (if width <= |line| then line[width..] else [])
    else if |line| + width >= 0 then line[|line| + width..]
    else line
  }

  /**
   * As written, `wrap_text` never returns on a non-empty line when the width is zero or negative, nor on an
   * empty line when the width is negative: after one step the line still exceeds the width and
   * `line[width:]` gives it back unchanged.
   */
  lemma WrapStalls(line: string, width: int)
    requires width <= 0 && (width < 0 || line != [])
    ensures var next := PyRest(line, width);
      |next| > width && (line != [] ==> next != []) && PyRest(next, width) == next
  {
    var next := PyRest(line, width);
    if width < 0 && |line| + width >= 0 {
      assert |next| == -width;
      assert next[|next| + width..] == next;
    }
  }

  /** The pieces of a line: at least one, none longer than the width, all but the last exactly the width. */
  lemma {:induction false} ChunksSizes(line: string, width: int)
    requires width > 0 || (width == 0 && line == [])
    ensures var r := Chunks(line, width);
      && |r| >= 1
      && (forall k :: 0 <= k < |r| ==> |r[k]| <= width)
      && (forall k :: 0 <= k < |r| - 1 ==> |r[k]| == width)
    decreases |line|
  {
    if |line| > width {
      var rest := Chunks(line[width..], width);
      ChunksSizes(line[width..], width);
      assert Chunks(line, width) == [line[..width]] + rest;
    }
  }

  /** The pieces of a line, joined together, give the line back. */
  lemma {:induction false} ChunksJoin(line: string, width: int)
    requires width > 0 || (width == 0 && line == [])
    ensures Join(Chunks(line, width), "") == line
    decreases |line|
  {
    if |line| > width {
      var rest := Chunks(line[width..], width);
      ChunksJoin(line[width..], width);
      ChunksSizes(line[width..], width);
      var r := [line[..width]] + rest;
      assert Chunks(line, width) == r;
      assert r[1..] == rest;
      assert Join(r, "") == line[..width] + "" + Join(rest, "");
      assert line[..width] + line[width..] == line;
    }
  }

  /** The pieces of a line without a line break hold none either. */
  lemma {:induction false} ChunksNoBreak(line: string, width: int)
    requires width > 0 || (width == 0 && line == [])
    requires NoLineBreak(line)
    ensures forall k :: 0 <= k < |Chunks(line, width)| ==> NoLineBreak(Chunks(line, width)[k])
    decreases |line|
  {
    if |line| > width {
      var rest := Chunks(line[width..], width);
      ChunksNoBreak(line[width..], width);
      assert Chunks(line, width) == [line[..width]] + rest;
    }
  }

  /** The wrapped lines: no fewer than the text's lines, none longer than the width, none holding a line break. */
  lemma {:induction false} WrapLinesShape(ls: seq<string>, width: int)
    requires Fits(ls, width)
    requires forall j :: 0 <= j < |ls| ==> NoLineBreak(ls[j])
    ensures var w := WrapLines(ls, width);
      && |w| >= |ls|
      && forall k :: 0 <= k < |w| ==> |w[k]| <= width && NoLineBreak(w[k])
    decreases |ls|
  {
    if ls != [] {
      var before := ls[..|ls| - 1];
      assert forall j :: 0 <= j < |before| ==> before[j] == ls[j];
      FitsPrefix(ls, width, |ls| - 1);
      WrapLinesShape(before, width);
      ChunksSizes(ls[|ls| - 1], width);
      ChunksNoBreak(ls[|ls| - 1], width);
    }
  }

  /**
   * `wrap_text` returns nothing exactly for the empty text, at least one line per line of the text, and
   * lines that fit the width and hold no line break.
   */
  lemma WrappedShape(text: string, width: int)
    requires Wraps(text, width)
    ensures var w := Wrapped(text, width);
      && (w == [] <==> text == [])
      && |w| >= |SplitLines(text)|
      && forall k :: 0 <= k < |w| ==> |w[k]| <= width && NoLineBreak(w[k])
  {
    WrapLinesShape(SplitLines(text), width);
  }

  /** A single line comes back from `wrap_text` as pieces that, joined, give the line again. */
  lemma WrappedLine(line: string, width: int)
    requires line != [] && NoLineBreak(line) && width > 0
    ensures Wraps(line, width)
    ensures Join(Wrapped(line, width), "") == line
  {
    assert LineEnd(line, 0) == |line|;
    assert SplitLines(line) == [line];
    assert [line][..0] == [];
    assert WrapLines([line], width) == WrapLines([line][..0], width) + Chunks([line][0], width);
    assert Wrapped(line, width) == Chunks(line, width);
    ChunksJoin(line, width);
  }

  // ---------------------------------------------------------------------------------------------------
  // render_item

  /** The three views, in the order Tab cycles through them (`view_modes`). */
  datatype Mode = Split | Src | Tgt

  const Modes: seq<Mode> := [Split, Src, Tgt]

  /** `max_x // 2 - 1`: the width of each column of the split view. */
  function ColWidth(maxX: int): int {
    maxX / 2 - 1
  }

  /** One row of the split view: the left text padded to the column width, two spaces, the right text. */
  function Row(left: string, right: string, col: int): string {
    LJust(left, col) + "  " + right
  }

  /** `ls[i] if i < len(ls) else ""` */
  function Cell(ls: seq<string>, i: nat): string {
    if i < |ls| then ls[i] else ""
  }

  /** The rows under the split view's header: as many as the longer column has lines. */
  function SideBySide(ls: seq<string>, rs: seq<string>, col: int): seq<string> {
    seq(Max(|ls|, |rs|), i requires 0 <= i => Row(Cell(ls, i), Cell(rs, i), col))
  }

  /** `f"{field}: {value}"` for a metric the item has. */
  function MetricText(rt: Runtime, metrics: Dict, field: string): string
    requires HasKey(metrics, field)
  {
    field + ": " + Str(rt, Get(metrics, field).value)
  }

  /** The lines of one metric: the wrapped `field: value` text, or none when the item lacks the field. */
  function MetricPiece(rt: Runtime, metrics: Dict, field: string, width: int): seq<string>
    requires width > 0
  {
    if HasKey(metrics, field) then Wrapped(MetricText(rt, metrics, field), width) else []
  }

  /** The pieces one after the other. */
  function Flatten(xss: seq<seq<string>>): seq<string>
    decreases |xss|
  {
    if xss == [] then [] else Flatten(xss[..|xss| - 1]) + xss[|xss| - 1]
  }

  lemma FlattenStep(xss: seq<seq<string>>, k: nat)
    requires k < |xss|
    ensures Flatten(xss[..k + 1]) == Flatten(xss[..k]) + xss[k]
  {
    assert xss[..k + 1][..k] == xss[..k];
  }

  /** Nothing comes out exactly when every piece is empty. */
  lemma {:induction false} FlattenEmpty(xss: seq<seq<string>>)
    ensures Flatten(xss) == [] <==> forall k :: 0 <= k < |xss| ==> xss[k] == []
    decreases |xss|
  {
    if xss != [] {
      var before := xss[..|xss| - 1];
      FlattenEmpty(before);
      assert forall k :: 0 <= k < |before| ==> before[k] == xss[k];
    }
  }

  /** Each field's metric lines, in the order of `fields`. */
  function MetricPieces(rt: Runtime, metrics: Dict, fields: seq<string>, width: int): (r: seq<seq<string>>)
    requires width > 0
    ensures |r| == |fields|
  {
    seq(|fields|, k requires 0 <= k < |fields| => MetricPiece(rt, metrics, fields[k], width))
  }

  /** The lines of the metrics the item has, field by field in the order of `fields`. */
  function MetricLines(rt: Runtime, metrics: Dict, fields: seq<string>, width: int): seq<string>
    requires width > 0
  {
    Flatten(MetricPieces(rt, metrics, fields, width))
  }

  /**
   * Every `wrap_text` call `render_item` makes for this item and view ends: the screen is wide enough for
   * the texts it wraps (a screen narrower than two columns, say, wraps the answers forever). A metric line
   * is never empty, so the metrics need a width of at least one.
   */
  predicate Renders(rt: Runtime, item: Item, maxX: int, mode: Mode) {
    && (mode == Split ==> Wraps(Str(rt, item.src), ColWidth(maxX)) && Wraps(Str(rt, item.tgt), ColWidth(maxX)))
    && (mode == Src ==> Wraps(Str(rt, item.src), maxX - 1))
    && (mode == Tgt ==> Wraps(Str(rt, item.tgt), maxX - 1))
    && Wraps(item.gen, maxX - 1)
    && (item.metrics != [] ==> maxX - 4 > 0)
    && Wraps(item.ana, maxX - 1)
  }

  /** The code part of the page: both columns side by side under a header, or one of them under its name. */
  function CodeLines(rt: Runtime, item: Item, maxX: int, mode: Mode): seq<string>
    requires Renders(rt, item, maxX, mode)
  {
    match mode
    case Split =>
      var col := ColWidth(maxX);
      [Row("SRC_CODE", "TGT_CODE", col)] + SideBySide(Wrapped(Str(rt, item.src), col), Wrapped(Str(rt, item.tgt), col), col)
    case Src => ["SRC_CODE"] + Wrapped(Str(rt, item.src), maxX - 1)
    case Tgt => ["TGT_CODE"] + Wrapped(Str(rt, item.tgt), maxX - 1)
  }

  /** The metrics part of the page: nothing when the item has no metrics. */
  function MetricSection(rt: Runtime, item: Item, maxX: int): seq<string>
    requires item.metrics != [] ==> maxX - 4 > 0
  {
    if item.metrics != [] then ["", "METRICS:"] + MetricLines(rt, item.metrics, MetricFields, maxX - 4) else []
  }

  /** The lines `render_item` builds for an item in a view, before scrolling. */
  function Rendered(rt: Runtime, item: Item, maxX: int, mode: Mode): seq<string>
    requires Renders(rt, item, maxX, mode)
  {
    CodeLines(rt, item, maxX, mode) + Sections(rt, item, maxX)
  }

  /** The parts of the page under the code, the same in every view. */
  function Sections(rt: Runtime, item: Item, maxX: int): seq<string>
    requires Wraps(item.gen, maxX - 1) && (item.metrics != [] ==> maxX - 4 > 0) && Wraps(item.ana, maxX - 1)
  {
    ["", "GENERATED_ANSWERS:"] + Wrapped(item.gen, maxX - 1)
    + MetricSection(rt, item, maxX)
    + ["", "ANALYSIS:"] + Wrapped(item.ana, maxX - 1)
  }

  /**
   * The clamp at the end of `render_item`: the first line shown, never before the first line and never so
   * far down that the window of `visible` lines runs past the last line (unless all lines fit).
   */
  function Clamp(scroll: int, count: int, visible: int): (r: int)
    ensures 0 <= r <= Max(0, count - visible)
    ensures 0 <= scroll <= Max(0, count - visible) ==> r == scroll
    ensures scroll < 0 ==> r == 0
    ensures scroll > Max(0, count - visible) ==> r == Max(0, count - visible)
  {
    var s := if scroll < 0 then 0 else scroll;
    if s > Max(0, count - visible) then Max(0, count - visible) else s
  }

  /**
   * `render_item`, without the drawing: the page's lines, and the scroll position it returns, clamped for
   * a window of `max_y - 2` lines.
   */
  method RenderItem(rt: Runtime, item: Item, scroll: int, maxX: int, maxY: int, mode: Mode)
    returns (lines: seq<string>, shown: int)
    requires Renders(rt, item, maxX, mode)
    ensures lines == Rendered(rt, item, maxX, mode)
    ensures shown == Clamp(scroll, |lines|, maxY - 2)
  {
    var code := CodePart(rt, item, maxX, mode);
    var sections := SectionsPart(rt, item, maxX);
    lines := code + sections;

    var visible := maxY - 2;
    shown := scroll;
    if shown < 0 {
      shown := 0;
    }
    if shown > Max(0, |lines| - visible) {
      shown := Max(0, |lines| - visible);
    }
  }

  /** The rest of `render_item`'s page: the answers, the metrics the item has, and the analysis. */
  method SectionsPart(rt: Runtime, item: Item, maxX: int) returns (lines: seq<string>)
    requires Wraps(item.gen, maxX - 1) && (item.metrics != [] ==> maxX - 4 > 0) && Wraps(item.ana, maxX - 1)
    ensures lines == Sections(rt, item, maxX)
  {
    var genLines := WrapText(item.gen, maxX - 1);
    var section: seq<string> := [];
    if item.metrics != [] {
      var metricLines := MetricPart(rt, item.metrics, MetricFields, maxX - 4);
      section := ["", "METRICS:"] + metricLines;
    }
    var anaLines := WrapText(item.ana, maxX - 1);
    lines := ["", "GENERATED_ANSWERS:"] + genLines + section + ["", "ANALYSIS:"] + anaLines;
  }

  /** The first part of `render_item`: the code, in the chosen view. */
  method CodePart(rt: Runtime, item: Item, maxX: int, mode: Mode) returns (lines: seq<string>)
    requires Renders(rt, item, maxX, mode)
    ensures lines == CodeLines(rt, item, maxX, mode)
  {
    if mode == Split {
      lines := SplitPart(rt, item, maxX);
    } else if mode == Src {
      var srcLines := WrapText(Str(rt, item.src), maxX - 1);
      lines := ["SRC_CODE"] + srcLines;
    } else {
      var tgtLines := WrapText(Str(rt, item.tgt), maxX - 1);
      lines := ["TGT_CODE"] + tgtLines;
    }
  }

  /** The split view: the header and the rows of both columns side by side. */
  method SplitPart(rt: Runtime, item: Item, maxX: int) returns (lines: seq<string>)
    requires Renders(rt, item, maxX, Split)
    ensures lines == CodeLines(rt, item, maxX, Split)
  {
    var col := maxX / 2 - 1;
    var srcLines := WrapText(Str(rt, item.src), col);
    var tgtLines := WrapText(Str(rt, item.tgt), col);
    var table := SplitRows(srcLines, tgtLines, col);
    lines := [LJust("SRC_CODE", col) + "  " + "TGT_CODE"] + table;
  }

  /** The loop over the rows of the split view. */
  method SplitRows(srcLines: seq<string>, tgtLines: seq<string>, col: int) returns (table: seq<string>)
    ensures table == SideBySide(srcLines, tgtLines, col)
  {
    var rows := Max(|srcLines|, |tgtLines|);
    ghost var spec := SideBySide(srcLines, tgtLines, col);
    table := [];
    for i := 0 to rows
      invariant table == spec[..i]
    {
      var left := if i < |srcLines| then srcLines[i] else "";
      var right := if i < |tgtLines| then tgtLines[i] else "";
      table := table + [LJust(left, col) + "  " + right];
      assert spec[..i + 1] == spec[..i] + [spec[i]];
    }
    assert spec[..rows] == spec;
  }

  /** The loop over `METRIC_FIELDS` in `render_item`, over a list of fields. */
  method MetricPart(rt: Runtime, metrics: Dict, fields: seq<string>, width: int) returns (lines: seq<string>)
    requires width > 0
    ensures lines == MetricLines(rt, metrics, fields, width)
  {
    lines := [];
    ghost var pieces := MetricPieces(rt, metrics, fields, width);
    for k := 0 to |fields|
      invariant lines == Flatten(pieces[..k])
    {
      var field := fields[k];
      FlattenStep(pieces, k);
      if HasKey(metrics, field) {
        var value := Get(metrics, field).value;
        var wrapped := WrapText(field + ": " + Str(rt, value), width);
        lines := lines + wrapped;
      }
    }
    assert pieces[..|fields|] == pieces;
  }

  /**
   * `row` shows `left` at column 0, blank padding up to the column width, two spaces, and `right` starting
   * at column `col + 2`.
   */
  predicate Laid(row: string, left: string, right: string, col: int) {
    && 0 <= |left| <= col
    && |row| == col + 2 + |right|
    && row[..|left|] == left
    && IsBlank(row[|left|..col])
    && row[col..col + 2] == "  "
    && row[col + 2..] == right
  }

  /** A row of the split view is laid out in two columns when the left text fits its column. */
  lemma RowShape(left: string, right: string, col: int)
    requires |left| <= col
    ensures Laid(Row(left, right, col), left, right, col)
  {
    var padded := LJust(left, col);
    assert |padded| == col;
    var r := Row(left, right, col);
    assert r[..col] == padded;
    assert r[|left|..col] == padded[|left|..];
  }

  /**
   * The split view: under the header, row `i` holds the source's `i`-th wrapped line in the left column and
   * the target's in the right one, for as many rows as the longer column has.
   */
  lemma SplitAligned(rt: Runtime, item: Item, maxX: int, i: nat)
    requires Renders(rt, item, maxX, Split)
    ensures var col := ColWidth(maxX);
      var ls, rs := Wrapped(Str(rt, item.src), col), Wrapped(Str(rt, item.tgt), col);
      var code := CodeLines(rt, item, maxX, Split);
      && |code| == 1 + Max(|ls|, |rs|)
      && code[0] == Row("SRC_CODE", "TGT_CODE", col)
      && (i < Max(|ls|, |rs|) ==> Laid(code[1 + i], Cell(ls, i), Cell(rs, i), col))
  {
    var col := ColWidth(maxX);
    var ls, rs := Wrapped(Str(rt, item.src), col), Wrapped(Str(rt, item.tgt), col);
    var table := SideBySide(ls, rs, col);
    assert CodeLines(rt, item, maxX, Split) == [Row("SRC_CODE", "TGT_CODE", col)] + table;
    if i < Max(|ls|, |rs|) {
      WrappedShape(Str(rt, item.src), col);
      TableAligned(ls, rs, col, i);
    }
  }

  /** Row `i` of the two columns side by side, when every left line fits the column. */
  lemma TableAligned(ls: seq<string>, rs: seq<string>, col: int, i: nat)
    requires col >= 0 && forall k :: 0 <= k < |ls| ==> |ls[k]| <= col
    requires i < Max(|ls|, |rs|)
    ensures Laid(SideBySide(ls, rs, col)[i], Cell(ls, i), Cell(rs, i), col)
  {
    assert |Cell(ls, i)| <= col;
    RowShape(Cell(ls, i), Cell(rs, i), col);
  }

  /** The metrics part is there exactly when the item has metrics, and lists one or more lines for each. */
  lemma MetricLinesShape(rt: Runtime, metrics: Dict, fields: seq<string>, width: int)
    requires width > 0
    ensures MetricLines(rt, metrics, fields, width) == [] <==> forall k :: 0 <= k < |fields| ==> !HasKey(metrics, fields[k])
  {
    var pieces := MetricPieces(rt, metrics, fields, width);
    FlattenEmpty(pieces);
    forall k | 0 <= k < |fields| ensures pieces[k] == [] <==> !HasKey(metrics, fields[k]) {
      if HasKey(metrics, fields[k]) {
        WrappedShape(MetricText(rt, metrics, fields[k]), width);
      }
    }
  }

  /** An item read from a record shows a metrics part exactly when the record has one of the metric fields. */
  lemma MetricsShown(rt: Runtime, obj: Dict, maxX: int)
    requires ItemOf(rt, obj).metrics != [] ==> maxX - 4 > 0
    ensures MetricSection(rt, ItemOf(rt, obj), maxX) != [] <==> exists k :: 0 <= k < |MetricFields| && HasKey(obj, MetricFields[k])
  {
    var m := ItemOf(rt, obj).metrics;
    forall k | 0 <= k < |MetricFields| ensures HasKey(m, MetricFields[k]) <==> HasKey(obj, MetricFields[k]) {
      MetricsExact(obj, MetricFields, MetricFields[k]);
    }
    if m != [] {
      MetricLinesShape(rt, m, MetricFields, maxX - 4);
      assert m[0].0 in Keys(m);
      MetricsExact(obj, MetricFields, m[0].0);
    }
  }

  /** A screen at least five columns wide renders every item in every view. */
  lemma WideRenders(rt: Runtime, item: Item, maxX: int, mode: Mode)
    requires maxX >= 5
    ensures Renders(rt, item, maxX, mode)
  {
  }

  // ---------------------------------------------------------------------------------------------------
  // main

  /** Key codes `main` reacts to: `q`, `Q`, curses' arrow keys, and Tab. */
  const KeyQuit: int := 113
  const KeyQuitUpper: int := 81
  const KeyDown: int := 258
  const KeyUp: int := 259
  const KeyLeft: int := 260
  const KeyRight: int := 261
  const KeyTab: int := 9

  predicate IsQuit(key: int) {
    key == KeyQuit || key == KeyQuitUpper
  }

  /** The browser's state: the item shown, the scroll position, and the view (an index into `view_modes`). */
  datatype View = View(index: int, scroll: int, mode: int)

  predicate InRange(v: View, count: nat) {
    0 <= v.index < count && 0 <= v.mode < |Modes|
  }

  /**
   * One key of `main`'s loop (a quit key aside): the left and right arrows go to the previous and next item
   * (wrapping around) at the top, up and down scroll by a line, Tab switches to the next view at the top,
   * and any other key changes nothing. The item and the view stay in range.
   */
  function Press(v: View, key: int, count: nat): (r: View)
    requires count > 0
    ensures InRange(v, count) ==> InRange(r, count)
  {
    if key == KeyRight then View((v.index + 1) % count, 0, v.mode)
    else if key == KeyLeft then View((v.index - 1) % count, 0, v.mode)
    else if key == KeyDown then v.(scroll := v.scroll + 1)
    else if key == KeyUp then v.(scroll := v.scroll - 1)
    else if key == KeyTab then View(v.index, 0, (v.mode + 1) % |Modes|)
    else v
  }

  /** A table of page lengths: one row per item, one length per view. */
  predicate Sized(sizes: seq<seq<nat>>) {
    forall i :: 0 <= i < |sizes| ==> |sizes[i]| == |Modes|
  }

  /**
   * The number of lines `render_item` builds for each item in each view on this screen, for the views
   * that render (a view that does not has no page; its entry is 0).
   */
  function PageSizes(rt: Runtime, items: seq<Item>, maxX: int): (r: seq<seq<nat>>)
    ensures |r| == |items| && Sized(r)
    ensures forall i, m :: 0 <= i < |items| && 0 <= m < |Modes| && Renders(rt, items[i], maxX, Modes[m]) ==>
      r[i][m] == |Rendered(rt, items[i], maxX, Modes[m])|
  {
    seq(|items|, i requires 0 <= i < |items| =>
      seq(|Modes|, m requires 0 <= m < |Modes| =>
        if Renders(rt, items[i], maxX, Modes[m]) then |Rendered(rt, items[i], maxX, Modes[m])| else 0))
  }

  /** The view as drawn: the scroll position clamped by `render_item` to the page of the item in its view. */
  function Drawn(sizes: seq<seq<nat>>, v: View, maxY: int): View
    requires Sized(sizes) && InRange(v, |sizes|)
  {
    v.(scroll := Clamp(v.scroll, sizes[v.index][v.mode], maxY - 2))
  }

  /**
   * The views `main` draws, from `v` on, reading `keys`, for pages of the lengths in `sizes`: one per pass
   * of the loop, until a quit key or until the keys run out (the next `getch` would wait).
   */
  function Frames(sizes: seq<seq<nat>>, v: View, keys: seq<int>, maxY: int): seq<View>
    requires Sized(sizes) && InRange(v, |sizes|)
    decreases |keys|
  {
    var shown := Drawn(sizes, v, maxY);
    if keys == [] || IsQuit(keys[0]) then [shown]
    else [shown] + Frames(sizes, Press(shown, keys[0], |sizes|), keys[1..], maxY)
  }

  /** The view `v` is of an existing item, and that item renders in that view on this screen. */
  predicate Shows(rt: Runtime, items: seq<Item>, v: View, maxX: int) {
    InRange(v, |items|) && Renders(rt, items[v.index], maxX, Modes[v.mode])
  }

  /**
   * Every view `main` draws for these keys renders, so every `render_item` call of its loop returns. The
   * views the keys never reach need not render.
   */
  predicate Visits(rt: Runtime, items: seq<Item>, keys: seq<int>, maxX: int, maxY: int) {
    items != [] ==>
      var fs := Frames(PageSizes(rt, items, maxX), View(0, 0, 0), keys, maxY);
      forall j :: 0 <= j < |fs| ==> Shows(rt, items, fs[j], maxX)
  }

  /**
   * `main` after the file was read, without the drawing: nothing for an empty file; otherwise the views it
   * draws, starting at the first item in the split view, at the top.
   */
  method Browse(rt: Runtime, items: seq<Item>, keys: seq<int>, maxX: int, maxY: int) returns (frames: seq<View>)
    requires Visits(rt, items, keys, maxX, maxY)
    ensures items == [] ==> frames == []
    ensures items != [] ==> frames == Frames(PageSizes(rt, items, maxX), View(0, 0, 0), keys, maxY)
  {
    if items == [] {
      return [];
    }
    ghost var sizes := PageSizes(rt, items, maxX);
    var index, scroll, viewIdx := 0, 0, 0;
    var k := 0;
    frames := [];
    ghost var total := Frames(sizes, View(0, 0, 0), keys, maxY);
    while true
      invariant 0 <= k <= |keys| && InRange(View(index, scroll, viewIdx), |items|)
      invariant frames + Frames(sizes, View(index, scroll, viewIdx), keys[k..], maxY) == total
      decreases |keys| - k
    {
      ghost var here := Frames(sizes, View(index, scroll, viewIdx), keys[k..], maxY);
      assert here[0] == Drawn(sizes, View(index, scroll, viewIdx), maxY);
      assert total[|frames|] == here[0];
      assert Shows(rt, items, total[|frames|], maxX);
      FramesNext(sizes, View(index, scroll, viewIdx), keys, k, maxY, frames, total);
      var drawn := Draw(rt, items, index, scroll, viewIdx, maxX, maxY);
      frames := frames + [drawn];
      if k == |keys| || keys[k] == KeyQuit || keys[k] == KeyQuitUpper {
        return;
      }
      var key := keys[k];
      k := k + 1;
      index, scroll, viewIdx := OnKey(index, drawn.scroll, viewIdx, key, |items|);
    }
  }

  /** A quit key first: `main` draws the first item in the split view only, so only that view must render. */
  lemma QuitAtOnce(rt: Runtime, items: seq<Item>, keys: seq<int>, maxX: int, maxY: int)
    requires items != [] && keys != [] && IsQuit(keys[0])
    ensures Visits(rt, items, keys, maxX, maxY) <==> Renders(rt, items[0], maxX, Split)
  {
    var fs := Frames(PageSizes(rt, items, maxX), View(0, 0, 0), keys, maxY);
    assert |fs| == 1 && fs[0].index == 0 && fs[0].mode == 0;
  }

  /** On a screen at least five columns wide, `main` returns from every `render_item` call, whatever the keys. */
  lemma WideVisits(rt: Runtime, items: seq<Item>, keys: seq<int>, maxX: int, maxY: int)
    requires maxX >= 5
    ensures Visits(rt, items, keys, maxX, maxY)
  {
    if items != [] {
      var sizes := PageSizes(rt, items, maxX);
      var fs := Frames(sizes, View(0, 0, 0), keys, maxY);
      FramesInRange(sizes, View(0, 0, 0), keys, maxY);
      forall j | 0 <= j < |fs| ensures Shows(rt, items, fs[j], maxX) {
        assert Sane(sizes, fs[j], maxY);
        WideRenders(rt, items[fs[j].index], maxX, Modes[fs[j].mode]);
      }
    }
  }

  /** The `render_item` call of `main`'s loop: the view it draws, with the scroll position it returns. */
  method Draw(rt: Runtime, items: seq<Item>, index: int, scroll: int, viewIdx: int, maxX: int, maxY: int)
    returns (drawn: View)
    requires Shows(rt, items, View(index, scroll, viewIdx), maxX)
    ensures drawn == Drawn(PageSizes(rt, items, maxX), View(index, scroll, viewIdx), maxY)
  {
    var lines, shown := RenderItem(rt, items[index], scroll, maxX, maxY, Modes[viewIdx]);
    drawn := View(index, shown, viewIdx);
  }

  /**
   * One pass of `main`'s loop: when `before` followed by the views drawn from the `k`-th key on are all the
   * views, the view drawn now ends them at a quit key or when the keys run out, and otherwise the views drawn
   * after the `k`-th key follow it.
   */
  lemma FramesNext(sizes: seq<seq<nat>>, v: View, keys: seq<int>, k: nat, maxY: int, before: seq<View>, total: seq<View>)
    requires Sized(sizes) && InRange(v, |sizes|) && k <= |keys|
    requires before + Frames(sizes, v, keys[k..], maxY) == total
    ensures k == |keys| || IsQuit(keys[k]) ==> before + [Drawn(sizes, v, maxY)] == total
    ensures k < |keys| && !IsQuit(keys[k]) ==>
      before + [Drawn(sizes, v, maxY)] + Frames(sizes, Press(Drawn(sizes, v, maxY), keys[k], |sizes|), keys[k + 1..], maxY)
      == total
  {
    if k < |keys| {
      assert keys[k..][0] == keys[k] && keys[k..][1..] == keys[k + 1..];
      if !IsQuit(keys[k]) {
        var shown := Drawn(sizes, v, maxY);
        var rest := Frames(sizes, Press(shown, keys[k], |sizes|), keys[k + 1..], maxY);
        assert Frames(sizes, v, keys[k..], maxY) == [shown] + rest;
        assert before + [shown] + rest == before + ([shown] + rest);
      }
    }
  }

  /** The key dispatch of `main`'s loop, for a key other than a quit key. */
  method OnKey(index: int, scroll: int, viewIdx: int, key: int, count: nat) returns (i: int, s: int, m: int)
    requires count > 0
    ensures View(i, s, m) == Press(View(index, scroll, viewIdx), key, count)
  {
    i, s, m := index, scroll, viewIdx;
    if key == KeyRight {
      i := (index + 1) % count;
      s := 0;
    } else if key == KeyLeft {
      i := (index - 1) % count;
      s := 0;
    } else if key == KeyDown {
      s := scroll + 1;
    } else if key == KeyUp {
      s := scroll - 1;
    } else if key == KeyTab {
      m := (viewIdx + 1) % |Modes|;
      s := 0;
    }
  }

  /** The index of the first quit key, or the number of keys when there is none. */
  function FirstQuit(keys: seq<int>): (r: nat)
    ensures r <= |keys|
    ensures r < |keys| ==> IsQuit(keys[r])
    ensures forall j :: 0 <= j < r ==> !IsQuit(keys[j])
  {
    if keys == [] || IsQuit(keys[0]) then 0 else 1 + FirstQuit(keys[1..])
  }

  /** `main` draws once, and once more for every key before the first quit key. */
  lemma {:induction false} FramesCount(sizes: seq<seq<nat>>, v: View, keys: seq<int>, maxY: int)
    requires Sized(sizes) && InRange(v, |sizes|)
    ensures |Frames(sizes, v, keys, maxY)| == FirstQuit(keys) + 1
    decreases |keys|
  {
    if keys != [] && !IsQuit(keys[0]) {
      FramesCount(sizes, Press(Drawn(sizes, v, maxY), keys[0], |sizes|), keys[1..], maxY);
    }
  }

  /**
   * A view as `main` draws it: an existing item in one of the three views, scrolled no further than the
   * first line and no further than where the window reaches the page's last line.
   */
  predicate Sane(sizes: seq<seq<nat>>, v: View, maxY: int)
    requires Sized(sizes)
  {
    && InRange(v, |sizes|)
    && 0 <= v.scroll <= Max(0, sizes[v.index][v.mode] - (maxY - 2))
  }

  /** Every view `main` draws is in range and scrolled within its page. */
  lemma {:induction false} FramesInRange(sizes: seq<seq<nat>>, v: View, keys: seq<int>, maxY: int)
    requires Sized(sizes) && InRange(v, |sizes|)
    ensures forall j :: 0 <= j < |Frames(sizes, v, keys, maxY)| ==> Sane(sizes, Frames(sizes, v, keys, maxY)[j], maxY)
    decreases |keys|
  {
    var shown := Drawn(sizes, v, maxY);
    var fs := Frames(sizes, v, keys, maxY);
    assert Sane(sizes, shown, maxY);
    if keys != [] && !IsQuit(keys[0]) {
      var next := Press(shown, keys[0], |sizes|);
      var rest := Frames(sizes, next, keys[1..], maxY);
      FramesInRange(sizes, next, keys[1..], maxY);
      assert fs == [shown] + rest;
      forall j | 0 <= j < |fs|
        ensures Sane(sizes, fs[j], maxY)
      {
        if j > 0 {
          assert fs[j] == rest[j - 1];
        }
      }
    }
  }

  /** The right arrow and then the left one come back to the same item, at the top. */
  lemma RightLeft(v: View, count: nat)
    requires InRange(v, count)
    ensures Press(Press(v, KeyRight, count), KeyLeft, count) == v.(scroll := 0)
  {
  }

  /** The left arrow on the first item goes to the last, and the right arrow on the last to the first. */
  lemma WrapAround(v: View, count: nat)
    requires InRange(v, count)
    ensures v.index == 0 ==> Press(v, KeyLeft, count).index == count - 1
    ensures v.index == count - 1 ==> Press(v, KeyRight, count).index == 0
  {
  }

  /** Three presses of Tab come back to the same view, at the top. */
  lemma TabCycle(v: View, count: nat)
    requires InRange(v, count)
    ensures Press(Press(Press(v, KeyTab, count), KeyTab, count), KeyTab, count) == v.(scroll := 0)
  {
  }
}
