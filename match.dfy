/**
 * optm_generation/match.py: loads a knowledge base of optimisation entries from `feature.jsonl`, then for each
 * record of `extract_feature.jsonl` looks up, for every feature that names its unoptimised-code conditions,
 * the entry whose conditions are most similar, and writes the record back with the results, fenced as
 * ```json, in `analysis`. The similarity of two texts (the embedding model and its cosine) is a parameter.
 */
module Match {
  import opened Wrappers
  import opened Text
  import opened Python
  import opened Reorder
  import opened Writer
  import opened JsonRepair

  const CondKey: string := "Unoptimized Code Conditions"
  const OpKey: string := "Optimization Operation"

  /**
   * What a jsonlines reader yields for one line: the parsed value, or `None` (InvalidLineError) both for text
   * `json.loads` rejects and for a bare `null`, which the reader refuses since `allow_none` is not set.
   */
  function ReadLine(rt: Runtime, line: string): (r: Option<Json>)
    ensures r.Some? <==> rt.loads(line).Some? && rt.loads(line).value != JNull
    ensures r.Some? ==> r == rt.loads(line)
  {
    match rt.loads(line)
    case Some(JNull) => None
    case other => other
  }

  // ---------------------------------------------------------------- results gathered in order

  /** A run of steps that each yield a value or raise: the values in order, or the first exception. */
  function Gathered<T>(rs: seq<Result<T, PyError>>): Result<seq<T>, PyError>
    decreases |rs|
  {
    if rs == [] then Ok([])
    else
      match Gathered(rs[..|rs| - 1])
      case Err(e) => Err(e)
      case Ok(xs) =>
        match rs[|rs| - 1]
        case Err(e) => Err(e)
        case Ok(x) => Ok(xs + [x])
  }

  /**
   * The run ends normally exactly when no step raises, and then yields every step's value in order; a run
   * that raises does so with the exception of its first failing step.
   */
  lemma {:induction false} GatheredOk<T>(rs: seq<Result<T, PyError>>)
    ensures Gathered(rs).Ok? <==> forall i :: 0 <= i < |rs| ==> rs[i].Ok?
    ensures Gathered(rs).Ok? ==> (|Gathered(rs).value| == |rs|
      && forall i :: 0 <= i < |rs| ==> Gathered(rs).value[i] == rs[i].value)
    ensures Gathered(rs).Err? ==> exists m :: (0 <= m < |rs| && rs[m] == Err(Gathered(rs).error)
      && forall i :: 0 <= i < m ==> rs[i].Ok?)
    decreases |rs|
  {
    if rs != [] {
      var before := rs[..|rs| - 1];
      GatheredOk(before);
      assert forall i :: 0 <= i < |before| ==> before[i] == rs[i];
      if Gathered(before).Err? {
        var m :| 0 <= m < |before| && before[m] == Err(Gathered(before).error)
          && forall i :: 0 <= i < m ==> before[i].Ok?;
        assert rs[m] == before[m];
      }
    }
  }

  /** One more step, after steps that raised nothing. */
  lemma GatheredStep<T>(rs: seq<Result<T, PyError>>, i: nat)
    requires i < |rs| && Gathered(rs[..i]).Ok?
    ensures Gathered(rs[..i + 1]) == match rs[i]
      case Err(e) => Err(e)
      case Ok(x) => Ok(Gathered(rs[..i]).value + [x])
  {
    assert rs[..i + 1][..i] == rs[..i];
  }

  /** Once a step has raised, the later steps are never run. */
  lemma {:induction false} GatheredStays<T>(rs: seq<Result<T, PyError>>, m: nat)
    requires m <= |rs| && Gathered(rs[..m]).Err?
    ensures Gathered(rs) == Gathered(rs[..m])
    decreases |rs| - m
  {
    if m < |rs| {
      assert rs[..m + 1][..m] == rs[..m];
      GatheredStays(rs, m + 1);
    } else {
      assert rs[..m] == rs;
    }
  }

  /** The lists in order, one after the other. */
  function Concat<T>(xss: seq<seq<T>>): seq<T>
    decreases |xss|
  {
    if xss == [] then [] else Concat(xss[..|xss| - 1]) + xss[|xss| - 1]
  }

  /** Steps that each yield a list: the lists concatenated, or the first exception. */
  function Collected<T>(rs: seq<Result<seq<T>, PyError>>): Result<seq<T>, PyError> {
    match Gathered(rs)
    case Err(e) => Err(e)
    case Ok(xss) => Ok(Concat(xss))
  }

  // ---------------------------------------------------------------- parse_optimized_features

  /** `parse_optimized_features`: a list is taken as it is, anything else goes through `extract_json_from_string`. */
  function ParseFeatures(rt: Runtime, raw: Json, lineNo: int): Json {
    if raw.JArr? then raw else ExtractJson(rt, raw, lineNo)
  }

  // ---------------------------------------------------------------- load_database

  /** One knowledge-base entry: `{"text": ..., "operation": ...}`. */
  datatype Entry = Entry(text: string, operation: Json)

  /**
   * One element of a list analysis: its conditions joined by single spaces (no conditions give ""), and its
   * operation, "" when there is none. AttributeError for an element that is not a dict, TypeError for
   * conditions that are not a collection of strings.
   */
  function EntryOf(e: Json): Result<Entry, PyError> {
    if !e.JObj? then Err(AttributeError)
    else
      match PyJoin(" ", GetOr(e.fields, CondKey, JArr([])))
      case Err(x) => Err(x)
      case Ok(t) => Ok(Entry(t, GetOr(e.fields, OpKey, JStr(""))))
  }

  /** The entries one analysis adds: one per element of a list, or the single entry `str(analysis)`. */
  function AnalysisEntries(rt: Runtime, analysis: Json): Result<seq<Entry>, PyError> {
    if analysis.JArr? then Gathered(EntryResults(analysis.items))
    else Ok([Entry(Str(rt, analysis), JStr(""))])
  }

  /** `EntryOf` of each element. */
  function EntryResults(items: seq<Json>): (r: seq<Result<Entry, PyError>>)
    ensures |r| == |items| && forall k :: 0 <= k < |items| ==> r[k] == EntryOf(items[k])
  {
    seq(|items|, k requires 0 <= k < |items| => EntryOf(items[k]))
  }

  /**
   * One database line: JSONDecodeError (jsonlines' InvalidLineError) for text that does not parse or is `null`,
   * AttributeError for a value that is not a dict, otherwise the entries of its extracted `analysis`.
   */
  function LineEntries(rt: Runtime, line: string, lineNo: int): Result<seq<Entry>, PyError> {
    match ReadLine(rt, line)
    case None => Err(DecodeError)
    case Some(obj) =>
      if !obj.JObj? then Err(AttributeError)
      else AnalysisEntries(rt, ExtractJson(rt, GetOr(obj.fields, "analysis", JStr("")), lineNo))
  }

  /** The entries of each database line, lines numbered from 1. */
  function DatabaseLines(rt: Runtime, lines: seq<string>): (r: seq<Result<seq<Entry>, PyError>>)
    ensures |r| == |lines|
  {
    Build((i: nat) requires i < |lines| => LineEntries(rt, lines[i], i + 1), |lines|)
  }

  /** `load_database`: every line's entries in file order, or the first exception. */
  function Database(rt: Runtime, lines: seq<string>): Result<seq<Entry>, PyError> {
    Collected(DatabaseLines(rt, lines))
  }

  /** `load_database`'s loops: the outer one over the lines, the inner one over a list analysis. */
  method LoadDatabase(rt: Runtime, lines: seq<string>) returns (r: Result<seq<Entry>, PyError>)
    ensures r == Database(rt, lines)
  {
    ghost var per := DatabaseLines(rt, lines);
    var database: seq<Entry> := [];
    for i := 0 to |lines|
      invariant Gathered(per[..i]).Ok? && database == Concat(Gathered(per[..i]).value)
    {
      var added := DatabaseLine(rt, lines, i);
      GatheredStep(per, i);
      if added.Err? {
        GatheredStays(per, i + 1);
        return Err(added.error);
      }
      database := database + added.value;
    }
    assert per[..|lines|] == per;
    return Ok(database);
  }

  /** The body of the outer loop for line `i`. */
  method DatabaseLine(rt: Runtime, lines: seq<string>, i: nat) returns (r: Result<seq<Entry>, PyError>)
    requires i < |lines|
    ensures r == DatabaseLines(rt, lines)[i]
  {
    BuildAt((i: nat) requires i < |lines| => LineEntries(rt, lines[i], i + 1), |lines|, i);
    var parsed := ReadLine(rt, lines[i]);
    if parsed.None? {
      return Err(DecodeError);
    }
    if !parsed.value.JObj? {
      return Err(AttributeError);
    }
    var analysis := ExtractJson(rt, GetOr(parsed.value.fields, "analysis", JStr("")), i + 1);
    r := AddAnalysis(rt, analysis);
  }

  /** The entries of one analysis, appended one by one. */
  method AddAnalysis(rt: Runtime, analysis: Json) returns (r: Result<seq<Entry>, PyError>)
    ensures r == AnalysisEntries(rt, analysis)
  {
    if !analysis.JArr? {
      return Ok([Entry(Str(rt, analysis), JStr(""))]);
    }
    ghost var rs := EntryResults(analysis.items);
    var added: seq<Entry> := [];
    for k := 0 to |analysis.items|
      invariant Gathered(rs[..k]) == Ok(added)
    {
      var entry := EntryOf(analysis.items[k]);
      GatheredStep(rs, k);
      if entry.Err? {
        GatheredStays(rs, k + 1);
        return Err(entry.error);
      }
      added := added + [entry.value];
    }
    assert rs[..|analysis.items|] == rs;
    return Ok(added);
  }

  /**
   * An element becomes one entry: a dict without conditions gets the text "", one whose conditions are a
   * list of strings gets them joined by single spaces; a dict without an operation gets "". Anything but a
   * dict raises AttributeError, and conditions that are a number, a boolean or null raise TypeError.
   */
  lemma EntryOfCases(e: Json)
    ensures !e.JObj? ==> EntryOf(e) == Err(AttributeError)
    ensures e.JObj? && !HasKey(e.fields, CondKey) ==> EntryOf(e) == Ok(Entry("", GetOr(e.fields, OpKey, JStr(""))))
    ensures e.JObj? && Get(e.fields, CondKey).Some? && Get(e.fields, CondKey).value.JArr? ==>
      var conds := Get(e.fields, CondKey).value.items;
      (forall k :: 0 <= k < |conds| ==> conds[k].JStr?) ==>
        EntryOf(e) == Ok(Entry(Join(seq(|conds|, k requires 0 <= k < |conds| => conds[k].s), " "), GetOr(e.fields, OpKey, JStr(""))))
    ensures e.JObj? && Get(e.fields, CondKey).Some? && Scalar(Get(e.fields, CondKey).value) ==> EntryOf(e) == Err(TypeError)
    ensures e.JObj? && !HasKey(e.fields, OpKey) && EntryOf(e).Ok? ==> EntryOf(e).value.operation == JStr("")
  {
    if e.JObj? && !HasKey(e.fields, CondKey) {
      assert PyJoin(" ", JArr([])) == Ok("");
    }
  }

  /** A value `for` cannot iterate over. */
  predicate Scalar(v: Json) {
    v.JNull? || v.JBool? || v.JInt? || v.JFloat?
  }

  /**
   * A list analysis adds one entry per element, in order, unless some element raises; any other analysis
   * adds exactly one entry, `str(analysis)` with operation "".
   */
  lemma AnalysisEntriesShape(rt: Runtime, analysis: Json)
    ensures !analysis.JArr? ==> AnalysisEntries(rt, analysis) == Ok([Entry(Str(rt, analysis), JStr(""))])
    ensures analysis.JArr? ==>
      var items := analysis.items;
      && (AnalysisEntries(rt, analysis).Ok? <==> forall k :: 0 <= k < |items| ==> EntryOf(items[k]).Ok?)
      && (AnalysisEntries(rt, analysis).Ok? ==> (|AnalysisEntries(rt, analysis).value| == |items|
          && forall k :: 0 <= k < |items| ==> AnalysisEntries(rt, analysis).value[k] == EntryOf(items[k]).value))
  {
    if analysis.JArr? {
      GatheredOk(EntryResults(analysis.items));
    }
  }

  /**
   * `load_database` returns exactly when every line parses to a dict and adds its entries, and the database
   * is then the lines' entries one line after another, in file order; otherwise it raises the exception of
   * the first line that fails.
   */
  lemma DatabaseShape(rt: Runtime, lines: seq<string>)
    ensures var per := DatabaseLines(rt, lines);
      && (Database(rt, lines).Ok? <==> forall i :: 0 <= i < |lines| ==> per[i].Ok?)
      && (Database(rt, lines).Ok? ==> Database(rt, lines).value == Concat(seq(|lines|, i requires 0 <= i < |lines| => per[i].value)))
      && (Database(rt, lines).Err? ==> exists m :: (0 <= m < |lines| && per[m] == Err(Database(rt, lines).error)
            && forall i :: 0 <= i < m ==> per[i].Ok?))
  {
    var per := DatabaseLines(rt, lines);
    GatheredOk(per);
    if Gathered(per).Ok? {
      assert Gathered(per).value == seq(|lines|, i requires 0 <= i < |lines| => per[i].value);
    }
  }

  // ---------------------------------------------------------------- find_top_matches

  /** The position of the highest score, the first one among equals (what `topk(1)` picks, ties aside). */
  function Best(scores: seq<real>): (b: nat)
    requires |scores| > 0
    ensures b < |scores|
    ensures forall j :: 0 <= j < |scores| ==> scores[j] <= scores[b]
    ensures forall j :: 0 <= j < b ==> scores[j] < scores[b]
    decreases |scores|
  {
    if |scores| == 1 then 0
    else
      var b := Best(scores[..|scores| - 1]);
      if scores[|scores| - 1] > scores[b] then |scores| - 1 else b
  }

  /** The similarity of each entry's text to the feature's. */
  function Scores(sim: (string, string) -> real, text: string, db: seq<Entry>): (r: seq<real>)
    ensures |r| == |db| && forall i :: 0 <= i < |db| ==> r[i] == sim(text, db[i].text)
  {
    seq(|db|, i requires 0 <= i < |db| => sim(text, db[i].text))
  }

  /**
   * `find_top_matches` with `top_n=1`: KeyError for a feature without conditions, TypeError for conditions
   * that do not join, an error from `topk` on an empty database; otherwise the feature's conditions and the
   * operation of the most similar entry.
   */
  function FindTopMatch(sim: (string, string) -> real, feature: Dict, db: seq<Entry>): Result<Json, PyError> {
    match Get(feature, CondKey)
    case None => Err(KeyError)
    case Some(conds) =>
      match PyJoin(" ", conds)
      case Err(e) => Err(e)
      case Ok(text) =>
        if db == [] then Err(TopkError)
        else Ok(JObj([(CondKey, conds), (OpKey, JArr([db[Best(Scores(sim, text, db))].operation]))]))
  }

  /**
   * A match copies the feature's conditions and holds exactly one operation, that of an entry no other entry
   * is more similar to (the first such); the result has just those two keys.
   */
  lemma TopMatchShape(sim: (string, string) -> real, feature: Dict, db: seq<Entry>)
    requires FindTopMatch(sim, feature, db).Ok?
    ensures var m := FindTopMatch(sim, feature, db).value;
      var conds := Get(feature, CondKey).value;
      var text := PyJoin(" ", conds).value;
      && m.JObj? && Keys(m.fields) == [CondKey, OpKey]
      && Get(m.fields, CondKey) == Some(conds)
      && exists b :: (0 <= b < |db| && Get(m.fields, OpKey) == Some(JArr([db[b].operation]))
          && (forall j :: 0 <= j < |db| ==> sim(text, db[j].text) <= sim(text, db[b].text))
          && (forall j :: 0 <= j < b ==> sim(text, db[j].text) < sim(text, db[b].text)))
  {
    var conds := Get(feature, CondKey).value;
    var text := PyJoin(" ", conds).value;
    var b := Best(Scores(sim, text, db));
    var fields := [(CondKey, conds), (OpKey, JArr([db[b].operation]))];
    assert Keys(fields) == [CondKey, OpKey] by {
      assert fields[1..][1..] == [];
    }
    assert Get(fields, OpKey) == Some(JArr([db[b].operation])) by {
      assert fields[1..][1..] == [];
    }
  }

  /**
   * The lookup fails only for a feature without conditions, conditions that do not join, or an empty
   * database.
   */
  lemma TopMatchErrors(sim: (string, string) -> real, feature: Dict, db: seq<Entry>)
    ensures FindTopMatch(sim, feature, db).Err? <==>
      !HasKey(feature, CondKey) || PyJoin(" ", Get(feature, CondKey).value).Err? || db == []
    ensures !HasKey(feature, CondKey) ==> FindTopMatch(sim, feature, db) == Err(KeyError)
  {
  }

  // ---------------------------------------------------------------- the per-record loop of `main`

  /** The features `main` looks up: dicts that have the conditions key. */
  predicate Eligible(feat: Json) {
    feat.JObj? && HasKey(feat.fields, CondKey)
  }

  /** `matches_for_line` for a list of features, or the first exception of a lookup. */
  function MatchesOf(sim: (string, string) -> real, items: seq<Json>, db: seq<Entry>): Result<seq<Json>, PyError>
    decreases |items|
  {
    if items == [] then Ok([])
    else
      match MatchesOf(sim, items[..|items| - 1], db)
      case Err(e) => Err(e)
      case Ok(ms) =>
        var feat := items[|items| - 1];
        if !Eligible(feat) then Ok(ms)
        else
          match FindTopMatch(sim, feat.fields, db)
          case Err(e) => Err(e)
          case Ok(m) => Ok(ms + [m])
  }

  /** The eligible features, in order. */
  function Eligibles(items: seq<Json>): (r: seq<Dict>)
    ensures |r| <= |items|
    decreases |items|
  {
    if items == [] then []
    else
      var feat := items[|items| - 1];
      Eligibles(items[..|items| - 1]) + (if Eligible(feat) then [feat.fields] else [])
  }

  /** The lookup of each eligible feature. */
  function Lookups(sim: (string, string) -> real, feats: seq<Dict>, db: seq<Entry>): (r: seq<Result<Json, PyError>>)
    ensures |r| == |feats| && forall k :: 0 <= k < |feats| ==> r[k] == FindTopMatch(sim, feats[k], db)
  {
    seq(|feats|, k requires 0 <= k < |feats| => FindTopMatch(sim, feats[k], db))
  }

  /**
   * `matches_for_line` is the lookup of each eligible feature, in order, skipping every other element; it
   * raises the first exception a lookup raises.
   */
  lemma {:induction false} MatchesAreLookups(sim: (string, string) -> real, items: seq<Json>, db: seq<Entry>)
    ensures MatchesOf(sim, items, db) == Gathered(Lookups(sim, Eligibles(items), db))
    decreases |items|
  {
    if items != [] {
      var before := items[..|items| - 1];
      var feat := items[|items| - 1];
      MatchesAreLookups(sim, before, db);
      var fs := Eligibles(before);
      if Eligible(feat) {
        var rs := Lookups(sim, fs + [feat.fields], db);
        assert rs[..|rs| - 1] == Lookups(sim, fs, db);
      } else {
        assert Eligibles(items) == fs;
      }
    }
  }

  /**
   * One match per eligible feature, in order, each copying that feature's conditions; none when there is no
   * eligible feature.
   */
  lemma MatchesShape(sim: (string, string) -> real, items: seq<Json>, db: seq<Entry>)
    requires MatchesOf(sim, items, db).Ok?
    ensures var ms := MatchesOf(sim, items, db).value;
      var fs := Eligibles(items);
      && |ms| == |fs|
      && forall k :: 0 <= k < |fs| ==> (FindTopMatch(sim, fs[k], db) == Ok(ms[k])
          && ms[k].JObj? && Get(ms[k].fields, CondKey) == Get(fs[k], CondKey))
  {
    MatchesAreLookups(sim, items, db);
    var fs := Eligibles(items);
    GatheredOk(Lookups(sim, fs, db));
    var ms := MatchesOf(sim, items, db).value;
    forall k | 0 <= k < |fs| ensures ms[k].JObj? && Get(ms[k].fields, CondKey) == Get(fs[k], CondKey) {
      TopMatchShape(sim, fs[k], db);
    }
  }

  /** A list of features with no eligible element matches nothing, and so does a features value that is not a list. */
  lemma {:induction false} NoEligibleNoMatches(sim: (string, string) -> real, items: seq<Json>, db: seq<Entry>)
    requires forall k :: 0 <= k < |items| ==> !Eligible(items[k])
    ensures Eligibles(items) == [] && MatchesOf(sim, items, db) == Ok([])
    decreases |items|
  {
    if items != [] {
      NoEligibleNoMatches(sim, items[..|items| - 1], db);
    }
  }

  /** The inner loop of `main`: every eligible feature is looked up and its result appended. */
  method FindMatches(sim: (string, string) -> real, items: seq<Json>, db: seq<Entry>) returns (r: Result<seq<Json>, PyError>)
    ensures r == MatchesOf(sim, items, db)
  {
    var matches: seq<Json> := [];
    for k := 0 to |items|
      invariant MatchesOf(sim, items[..k], db) == Ok(matches)
    {
      assert items[..k + 1][..k] == items[..k];
      var feat := items[k];
      if Eligible(feat) {
        var result := FindTopMatch(sim, feat.fields, db);
        if result.Err? {
          MatchesStay(sim, items, db, k + 1);
          return Err(result.error);
        }
        matches := matches + [result.value];
      }
    }
    assert items[..|items|] == items;
    return Ok(matches);
  }

  /** Once a lookup has raised, the later features are never looked at. */
  lemma {:induction false} MatchesStay(sim: (string, string) -> real, items: seq<Json>, db: seq<Entry>, m: nat)
    requires m <= |items| && MatchesOf(sim, items[..m], db).Err?
    ensures MatchesOf(sim, items, db) == MatchesOf(sim, items[..m], db)
    decreases |items| - m
  {
    if m < |items| {
      assert items[..m + 1][..m] == items[..m];
      MatchesStay(sim, items, db, m + 1);
    } else {
      assert items[..m] == items;
    }
  }

  /** `matches_for_line` for whatever `parse_optimized_features` gave: nothing unless it is a list. */
  function LineMatches(sim: (string, string) -> real, features: Json, db: seq<Entry>): Result<seq<Json>, PyError> {
    if features.JArr? then MatchesOf(sim, features.items, db) else Ok([])
  }

  /**
   * What `main` does with record `lineNo`: AttributeError for a record that is not a dict, the first exception
   * of a lookup, or the record with `analysis` set to the fenced matches, written as one line.
   */
  function RecordLine(rt: Runtime, sim: (string, string) -> real, obj: Json, db: seq<Entry>, lineNo: int): LineEffect {
    if !obj.JObj? then Some(Err(AttributeError))
    else
      var features := ParseFeatures(rt, GetOr(obj.fields, "optimized_features", JArr([])), lineNo);
      match LineMatches(sim, features, db)
      case Err(e) => Some(Err(e))
      case Ok(ms) => Some(Ok(rt.dumps(JObj(Put(obj.fields, "analysis", JStr(Fenced(rt, ms))))) + "\n"))
  }

  /** What each record does, records numbered from 1. */
  function RecordLines(rt: Runtime, sim: (string, string) -> real, objs: seq<Json>, db: seq<Entry>): (r: seq<LineEffect>)
    ensures |r| == |objs|
  {
    Build((i: nat) requires i < |objs| => RecordLine(rt, sim, objs[i], db, i + 1), |objs|)
  }

  /** `list(reader)`: each line read, JSONDecodeError at the first the reader refuses. */
  function Parsed(rt: Runtime, lines: seq<string>): (r: seq<Result<Json, PyError>>)
    ensures |r| == |lines|
    ensures forall i :: 0 <= i < |lines| ==> r[i] == if ReadLine(rt, lines[i]).Some? then Ok(ReadLine(rt, lines[i]).value) else Err(DecodeError)
  {
    seq(|lines|, i requires 0 <= i < |lines| =>
      match ReadLine(rt, lines[i]) case Some(v) => Ok(v) case None => Err(DecodeError))
  }

  /**
   * The whole script: an exception while loading the database or reading the records ends it before the
   * output is opened; otherwise the records are written one by one until one raises.
   */
  function Matching(rt: Runtime, sim: (string, string) -> real, dbLines: seq<string>, lines: seq<string>): Output {
    match Database(rt, dbLines)
    case Err(e) => Output([], Some(e))
    case Ok(db) =>
      match Gathered(Parsed(rt, lines))
      case Err(e) => Output([], Some(e))
      case Ok(objs) => Emit(RecordLines(rt, sim, objs, db))
  }

  /** `main`, with `feature.jsonl` as `dbLines` and `extract_feature.jsonl` as `lines`. */
  method RunMatching(rt: Runtime, sim: (string, string) -> real, dbLines: seq<string>, lines: seq<string>)
    returns (out: Output)
    ensures out == Matching(rt, sim, dbLines, lines)
  {
    var database := LoadDatabase(rt, dbLines);
    if database.Err? {
      return Output([], Some(database.error));
    }
    var allObjs := Gathered(Parsed(rt, lines));
    if allObjs.Err? {
      return Output([], Some(allObjs.error));
    }
    var objs := allObjs.value;
    var db := database.value;
    ghost var outs := RecordLines(rt, sim, objs, db);
    var written: seq<string> := [];
    for i := 0 to |objs|
      invariant Emit(outs[..i]) == Output(written, None)
    {
      var o := RecordAt(rt, sim, objs, db, i);
      EmitStep(outs, i);
      if o.value.Err? {
        EmitStays(outs, i + 1);
        return Output(written, Some(o.value.error));
      }
      written := written + [o.value.value];
    }
    assert outs[..|objs|] == outs;
    return Output(written, None);
  }

  /** The loop body of `main` for record `i`, as the list of what each record does records it. */
  method RecordAt(rt: Runtime, sim: (string, string) -> real, objs: seq<Json>, db: seq<Entry>, i: nat) returns (o: LineEffect)
    requires i < |objs|
    ensures o == RecordLines(rt, sim, objs, db)[i] && o.Some?
  {
    o := ProcessRecord(rt, sim, objs[i], db, i + 1);
    BuildAt((i: nat) requires i < |objs| => RecordLine(rt, sim, objs[i], db, i + 1), |objs|, i);
  }

  /** What `main` does with one record. */
  method ProcessRecord(rt: Runtime, sim: (string, string) -> real, obj: Json, db: seq<Entry>, lineNo: int)
    returns (o: LineEffect)
    ensures o == RecordLine(rt, sim, obj, db, lineNo) && o.Some?
  {
    if !obj.JObj? {
      return Some(Err(AttributeError));
    }
    var features := ParseFeatures(rt, GetOr(obj.fields, "optimized_features", JArr([])), lineNo);
    var matches: Result<seq<Json>, PyError> := Ok([]);
    if features.JArr? {
      matches := FindMatches(sim, features.items, db);
    }
    if matches.Err? {
      return Some(Err(matches.error));
    }
    var fields := Put(obj.fields, "analysis", JStr(Fenced(rt, matches.value)));
    return Some(Ok(rt.dumps(JObj(fields)) + "\n"));
  }

  /** A record line the reader refuses, `null` included, ends the script before anything is written. */
  lemma RefusedRecordWritesNothing(rt: Runtime, sim: (string, string) -> real, dbLines: seq<string>, lines: seq<string>, k: nat)
    requires k < |lines| && (rt.loads(lines[k]).None? || rt.loads(lines[k]) == Some(JNull))
    ensures Matching(rt, sim, dbLines, lines).written == []
    ensures Matching(rt, sim, dbLines, lines).raised.Some?
  {
    GatheredOk(Parsed(rt, lines));
    assert !Parsed(rt, lines)[k].Ok?;
  }

  /**
   * Every record is written exactly once and in order when nothing raises: one output line per record, the
   * record with `analysis` set; and a record that raises ends the output after the records before it.
   */
  lemma MatchingWritesAll(rt: Runtime, sim: (string, string) -> real, dbLines: seq<string>, lines: seq<string>)
    requires Database(rt, dbLines).Ok? && Gathered(Parsed(rt, lines)).Ok?
    ensures var objs := Gathered(Parsed(rt, lines)).value;
      var outs := RecordLines(rt, sim, objs, Database(rt, dbLines).value);
      var out := Matching(rt, sim, dbLines, lines);
      && |objs| == |lines|
      && (forall i :: 0 <= i < |objs| ==> outs[i].Some?)
      && (out.raised.None? <==> forall i :: 0 <= i < |objs| ==> outs[i].value.Ok?)
      && (out.raised.None? ==> |out.written| == |objs| && forall i :: 0 <= i < |objs| ==> out.written[i] == outs[i].value.value)
      && (out.raised.Some? ==> exists m :: (0 <= m < |objs| && outs[m] == Some(Err(out.raised.value))
            && |out.written| == m))
  {
    var objs := Gathered(Parsed(rt, lines)).value;
    var db := Database(rt, dbLines).value;
    var outs := RecordLines(rt, sim, objs, db);
    GatheredOk(Parsed(rt, lines));
    RecordLinesSome(rt, sim, objs, db);
    EmitLines(outs);
    if Emit(outs).raised.None? {
      KeptAll(outs);
    } else {
      EmitRaised(outs);
      var m :| 0 <= m < |outs| && outs[m] == Some(Err(Emit(outs).raised.value))
        && Emit(outs[..m]) == Output(Emit(outs).written, None);
      EmitCount(outs[..m]);
    }
  }

  /** Every record produces a line or raises: none is skipped. */
  lemma RecordLinesSome(rt: Runtime, sim: (string, string) -> real, objs: seq<Json>, db: seq<Entry>)
    ensures forall i :: 0 <= i < |objs| ==> RecordLines(rt, sim, objs, db)[i].Some?
  {
    forall i | 0 <= i < |objs| ensures RecordLines(rt, sim, objs, db)[i].Some? {
      BuildAt((i: nat) requires i < |objs| => RecordLine(rt, sim, objs[i], db, i + 1), |objs|, i);
    }
  }

  /** Lines that all produce something and raise nothing write one line each. */
  lemma {:induction false} EmitCount(outs: seq<LineEffect>)
    requires forall i :: 0 <= i < |outs| ==> outs[i].Some?
    requires Emit(outs).raised.None?
    ensures |Emit(outs).written| == |outs|
    decreases |outs|
  {
    if outs != [] {
      var before := outs[..|outs| - 1];
      assert forall i :: 0 <= i < |before| ==> before[i] == outs[i];
      EmitCount(before);
    }
  }
}
