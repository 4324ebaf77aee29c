/**
 * The Python values the scripts pass around: what `json.loads` produces, dicts with insertion order,
 * truthiness, `str()`, `dict.get`, item assignment, `dict.pop`, `sep.join(x)` and `x in y`.
 * `json.loads`, `json.dumps` and `str()` of a non-string are not implemented: they are the fields of a
 * `Runtime` value, and `Sound` states the facts about them that the proofs use.
 */
module Python {
  import opened Wrappers
  import opened Text

  /** The exceptions that escape from the scripts (each ends the script). */
  datatype PyError =
    | DecodeError       // json.JSONDecodeError
    | TypeError
    | AttributeError    // `.get` on a value that is not a dict
    | KeyError
    | TopkError         // torch's topk asked for more elements than there are
    | ValueError(message: string)
    | ServiceError(message: string)  // raised by the service client, with its text

  /** A value as `json.loads` returns it; floats are modelled as reals. */
  datatype Json =
    | JNull
    | JBool(b: bool)
    | JInt(i: int)
    | JFloat(r: real)
    | JStr(s: string)
    | JArr(items: seq<Json>)
    | JObj(fields: Dict)

  /** A dict, as its entries in insertion order. */
  type Dict = seq<(string, Json)>

  function Keys(d: Dict): (ks: seq<string>)
    ensures |ks| == |d| && forall i :: 0 <= i < |d| ==> ks[i] == d[i].0
  {
    if d == [] then [] else [d[0].0] + Keys(d[1..])
  }

  /** No key occurs twice; every dict Python builds is keyed. */
  predicate Keyed(d: Dict) {
    Distinct(Keys(d))
  }

  predicate Distinct(ks: seq<string>) {
    forall i, j :: 0 <= i < j < |ks| ==> ks[i] != ks[j]
  }

  lemma {:induction false} KeysCons(x: (string, Json), d: Dict)
    ensures Keys([x] + d) == [x.0] + Keys(d)
  {
    assert ([x] + d)[1..] == d;
  }

  lemma {:induction false} DistinctCons(k: string, ks: seq<string>)
    ensures Distinct([k] + ks) <==> Distinct(ks) && k !in ks
  {
    var all := [k] + ks;
    if Distinct(all) {
      forall i, j | 0 <= i < j < |ks| ensures ks[i] != ks[j] {
        assert all[i + 1] == ks[i] && all[j + 1] == ks[j];
      }
      forall j | 0 <= j < |ks| ensures ks[j] != k {
        assert all[0] == k && all[j + 1] == ks[j];
        assert 0 < j + 1 < |all|;
      }
    }
    if Distinct(ks) && k !in ks {
      forall i, j | 0 <= i < j < |all| ensures all[i] != all[j] {
        assert all[j] == ks[j - 1];
        assert i > 0 ==> all[i] == ks[i - 1];
      }
    }
  }

  /** `d[k]` when `k in d`, `None` otherwise. */
  function Get(d: Dict, k: string): (r: Option<Json>)
    ensures r.Some? <==> k in Keys(d)
  {
    if d == [] then None
    else if d[0].0 == k then Some(d[0].1)
    else KeysCons(d[0], d[1..]); assert d == [d[0]] + d[1..]; Get(d[1..], k)
  }

  predicate HasKey(d: Dict, k: string) {
    Get(d, k).Some?
  }

  /** `d.get(k, default)` */
  function GetOr(d: Dict, k: string, default: Json): (r: Json)
    ensures HasKey(d, k) ==> Some(r) == Get(d, k)
    ensures !HasKey(d, k) ==> r == default
  {
    match Get(d, k)
    case Some(v) => v
    case None => default
  }

  lemma {:induction false} GetCons(x: (string, Json), d: Dict, k: string)
    ensures Get([x] + d, k) == if x.0 == k then Some(x.1) else Get(d, k)
  {
    assert ([x] + d)[1..] == d;
  }

  /** `d[k] = v`: an existing key keeps its position, a new key goes last. */
  function Put(d: Dict, k: string, v: Json): (r: Dict)
    ensures Get(r, k) == Some(v)
    ensures Keys(r) == if k in Keys(d) then Keys(d) else Keys(d) + [k]
  {
    if d == [] then [(k, v)]
    else
      var x, tail := d[0], d[1..];
      assert d == [x] + tail;
      KeysCons(x, tail);
      if x.0 == k then
        KeysCons((k, v), tail);
        GetCons((k, v), tail, k);
        [(k, v)] + tail
      else
        var rest := Put(tail, k, v);
        KeysCons(x, rest);
        GetCons(x, rest, k);
        [x] + rest
  }

  /** Assigning `d[k]` leaves every other key's value as it was. */
  lemma {:induction false} PutOther(d: Dict, k: string, v: Json, k': string)
    requires k' != k
    ensures Get(Put(d, k, v), k') == Get(d, k')
    decreases |d|
  {
    if d != [] {
      var x, tail := d[0], d[1..];
      assert d == [x] + tail;
      GetCons(x, tail, k');
      if x.0 == k {
        GetCons((k, v), tail, k');
      } else {
        PutOther(tail, k, v, k');
        GetCons(x, Put(tail, k, v), k');
      }
    }
  }

  lemma {:induction false} PutKeyed(d: Dict, k: string, v: Json)
    requires Keyed(d)
    ensures Keyed(Put(d, k, v))
  {
    var ks := Keys(d);
    if k !in ks {
      var ks' := ks + [k];
      forall i, j | 0 <= i < j < |ks'| ensures ks'[i] != ks'[j] {
        if j == |ks| {
          assert ks'[i] == ks[i];
        } else {
          assert ks'[i] == ks[i] && ks'[j] == ks[j];
        }
      }
    }
  }

  /** `d.pop(k, None)`: drops the first entry for `k`, if any, and keeps the order of the others. */
  function Pop(d: Dict, k: string): Dict {
    if d == [] then []
    else if d[0].0 == k then d[1..]
    else [d[0]] + Pop(d[1..], k)
  }

  /** Popping a key leaves every other key's value as it was. */
  lemma {:induction false} PopOther(d: Dict, k: string, k': string)
    requires k' != k
    ensures Get(Pop(d, k), k') == Get(d, k')
    decreases |d|
  {
    if d != [] {
      assert d == [d[0]] + d[1..];
      GetCons(d[0], d[1..], k');
      if d[0].0 != k {
        PopOther(d[1..], k, k');
        GetCons(d[0], Pop(d[1..], k), k');
      }
    }
  }

  /** Popping adds no key, and from a keyed dict it removes the key altogether. */
  lemma {:induction false} PopKeys(d: Dict, k: string)
    ensures forall k' :: k' in Keys(Pop(d, k)) ==> k' in Keys(d)
    ensures Keyed(d) ==> Keyed(Pop(d, k)) && !HasKey(Pop(d, k), k)
    decreases |d|
  {
    if d != [] {
      assert d == [d[0]] + d[1..];
      KeysCons(d[0], d[1..]);
      DistinctCons(d[0].0, Keys(d[1..]));
      if d[0].0 != k {
        var rest := Pop(d[1..], k);
        PopKeys(d[1..], k);
        KeysCons(d[0], rest);
        DistinctCons(d[0].0, Keys(rest));
      }
    }
  }

  /** Assigning a key the dict does not have appends it. */
  lemma {:induction false} PutNew(d: Dict, k: string, v: Json)
    requires k !in Keys(d)
    ensures Put(d, k, v) == d + [(k, v)]
    decreases |d|
  {
    if d != [] {
      KeysCons(d[0], d[1..]);
      assert d == [d[0]] + d[1..];
      PutNew(d[1..], k, v);
      assert [d[0]] + (d[1..] + [(k, v)]) == d + [(k, v)];
    }
  }

  /** `pop` of a key that only the last entry has removes that entry. */
  lemma {:induction false} PopLast(d: Dict, k: string, v: Json)
    requires k !in Keys(d)
    ensures Pop(d + [(k, v)], k) == d
    decreases |d|
  {
    if d == [] {
      assert Pop([(k, v)], k) == [];
    } else {
      KeysCons(d[0], d[1..]);
      assert d == [d[0]] + d[1..];
      assert d + [(k, v)] == [d[0]] + (d[1..] + [(k, v)]);
      PopLast(d[1..], k, v);
    }
  }

  /** Tagging a dict with a key it does not have and popping that key again gives the dict back. */
  lemma PopPutNew(d: Dict, k: string, v: Json)
    requires !HasKey(d, k)
    ensures Pop(Put(d, k, v), k) == d
  {
    PutNew(d, k, v);
    PopLast(d, k, v);
  }

  /** Popping one key and assigning another commute. */
  lemma {:induction false} PopPutCommute(d: Dict, a: string, b: string, v: Json)
    requires a != b
    ensures Pop(Put(d, b, v), a) == Put(Pop(d, a), b, v)
    decreases |d|
  {
    if d != [] {
      var h, t := d[0], d[1..];
      assert d == [h] + t;
      if h.0 != a && h.0 != b {
        PopPutCommute(t, a, b, v);
        assert Put(d, b, v) == [h] + Put(t, b, v);
        assert ([h] + Put(t, b, v))[1..] == Put(t, b, v);
        assert Pop(d, a) == [h] + Pop(t, a);
        assert ([h] + Pop(t, a))[1..] == Pop(t, a);
      } else if h.0 == a {
        assert Put(d, b, v) == [h] + Put(t, b, v);
        assert ([h] + Put(t, b, v))[1..] == Put(t, b, v);
      } else {
        assert Put(d, b, v) == [(b, v)] + t;
        assert ([(b, v)] + t)[1..] == t;
        assert Pop(d, a) == [h] + Pop(t, a);
        assert ([h] + Pop(t, a))[1..] == Pop(t, a);
      }
    }
  }

  /** The dict display `{k1: v1, k2: v2, ...}`: evaluated left to right as successive assignments to `d`. */
  function DictLiteral(d: Dict, entries: seq<(string, Json)>): Dict
    decreases |entries|
  {
    if entries == [] then d
    else DictLiteral(Put(d, entries[0].0, entries[0].1), entries[1..])
  }

  /** Python's truth value (`if x:` / `not x`). */
  predicate Truthy(v: Json) {
    match v
    case JNull => false
    case JBool(b) => b
    case JInt(i) => i != 0
    case JFloat(r) => r != 0.0
    case JStr(s) => s != []
    case JArr(items) => items != []
    case JObj(fields) => fields != []
  }

  /** Every dict inside `v` is keyed: the values `json.loads` can produce. */
  predicate Canonical(v: Json) {
    match v
    case JArr(items) => forall i :: 0 <= i < |items| ==> Canonical(items[i])
    case JObj(fields) => Keyed(fields) && forall i :: 0 <= i < |fields| ==> Canonical(fields[i].1)
    case _ => true
  }

  /**
   * A value `json.dumps` writes out and `json.loads` reads back as the same value: a canonical value with
   * no float in it (a float is written as finitely many digits, so a real in general does not come back).
   */
  predicate Dumpable(v: Json) {
    match v
    case JFloat(_) => false
    case JArr(items) => forall i :: 0 <= i < |items| ==> Dumpable(items[i])
    case JObj(fields) => Keyed(fields) && forall i :: 0 <= i < |fields| ==> Dumpable(fields[i].1)
    case _ => true
  }

  /** The parts of the Python runtime the model treats as given. */
  datatype Runtime = Runtime(
    loads: string -> Option<Json>,      // json.loads; None where it raises JSONDecodeError
    dumps: Json -> string,              // json.dumps(v, ensure_ascii=False)
    dumpsIndented: Json -> string,      // json.dumps(v, indent=2, ensure_ascii=False)
    show: Json -> string,               // str(v) for a v that is not a string
    retryError: string -> string)       // str() of the RetryError tenacity raises, given the last error

  /** What the proofs assume of `json.loads` and `json.dumps`. */
  ghost predicate Sound(rt: Runtime) {
    (forall s :: rt.loads(s).Some? ==> Canonical(rt.loads(s).value))
    && (forall v :: Dumpable(v) ==> rt.loads(rt.dumps(v)) == Some(v))
    && (forall v :: Dumpable(v) ==> rt.loads(rt.dumpsIndented(v)) == Some(v))
    && (forall v :: rt.dumpsIndented(v) != [] && Tight(rt.dumpsIndented(v)))
  }

  /** Python's `str(v)` */
  function Str(rt: Runtime, v: Json): string {
    if v.JStr? then v.s else rt.show(v)
  }

  /** What `for x in v` visits, or `None` where Python raises TypeError (not iterable). */
  function Iterated(v: Json): Option<seq<Json>> {
    match v
    case JStr(s) => Some(seq(|s|, i requires 0 <= i < |s| => JStr([s[i]])))
    case JArr(items) => Some(items)
    case JObj(fields) => Some(seq(|fields|, i requires 0 <= i < |fields| => JStr(fields[i].0)))
    case _ => None
  }

  /** Python's `sep.join(v)`: TypeError unless `v` is iterable and yields only strings. */
  function PyJoin(sep: string, v: Json): (r: Result<string, PyError>)
    ensures v.JArr? && (forall i :: 0 <= i < |v.items| ==> v.items[i].JStr?) ==>
      r == Ok(Join(seq(|v.items|, i requires 0 <= i < |v.items| => v.items[i].s), sep))
    ensures v.JArr? && (exists i :: 0 <= i < |v.items| && !v.items[i].JStr?) ==> r == Err(TypeError)
    ensures v.JNull? || v.JBool? || v.JInt? || v.JFloat? ==> r == Err(TypeError)
  {
    match Iterated(v)
    case None => Err(TypeError)
    case Some(xs) =>
      if forall i :: 0 <= i < |xs| ==> xs[i].JStr? then Ok(Join(seq(|xs|, i requires 0 <= i < |xs| => xs[i].s), sep))
      else Err(TypeError)
  }

  /** Python's `needle in v` for a string needle: substring, list element or dict key; TypeError otherwise. */
  function PyContains(v: Json, needle: string): Result<bool, PyError> {
    match v
    case JStr(s) => Ok(Contains(s, needle))
    case JArr(items) => Ok(JStr(needle) in items)
    case JObj(fields) => Ok(needle in Keys(fields))
    case _ => Err(TypeError)
  }
}
