/**
 * The dynamic values that flow through the core: JSON-like Python values (`dict`, `list`,
 * `str`, `int`, `bool`, `None`), the dict operations the core uses, Python truthiness, and the
 * serialisation and `str()` functions that the core calls but does not define.
 */
module Values {
  import opened Wrappers

  /** A Python value of the JSON kind. A dict keeps its insertion order, as Python's does. */
  datatype Json =
    | JNull
    | JBool(b: bool)
    | JNum(n: int)
    | JStr(s: string)
    | JList(items: seq<Json>)
    | JObj(fields: seq<(string, Json)>)

  type Fields = seq<(string, Json)>

  /** `list(d.keys())`. */
  function Keys(fs: Fields): (ks: seq<string>)
    ensures |ks| == |fs|
    ensures forall i :: 0 <= i < |fs| ==> ks[i] == fs[i].0
  {
    if fs == [] then [] else [fs[0].0] + Keys(fs[1..])
  }

  /** A Python dict never holds one key twice. */
  predicate DistinctKeys(fs: Fields)
  {
    forall i, j :: 0 <= i < j < |fs| ==> fs[i].0 != fs[j].0
  }

  /** `d.get(k)`: the value bound to `k`, if any. */
  function Get(fs: Fields, k: string): (r: Option<Json>)
    ensures r.Some? <==> k in Keys(fs)
    ensures r.Some? ==> (k, r.value) in fs
  {
    if fs == [] then None
    else if fs[0].0 == k then Some(fs[0].1)
    else Get(fs[1..], k)
  }

  /** `d.get(k, default)`. */
  function GetOr(fs: Fields, k: string, default: Json): Json
  {
    match Get(fs, k)
    case Some(v) => v
    case None => default
  }

  /** `d[k] = v`: an existing key keeps its position and gets the new value; a new key goes last. */
  function Put(fs: Fields, k: string, v: Json): (r: Fields)
    ensures Get(r, k) == Some(v)
    ensures forall k' :: k' != k ==> Get(r, k') == Get(fs, k')
  {
    if fs == [] then [(k, v)]
    else if fs[0].0 == k then [(k, v)] + fs[1..]
    else [fs[0]] + Put(fs[1..], k, v)
  }

  /** `d[k] = v` keeps the key order: an existing key stays where it is, a new key goes last. */
  lemma {:induction false} PutKeys(fs: Fields, k: string, v: Json)
    ensures k in Keys(fs) ==> Keys(Put(fs, k, v)) == Keys(fs)
    ensures k !in Keys(fs) ==> Keys(Put(fs, k, v)) == Keys(fs) + [k]
  {
    if fs != [] && fs[0].0 != k {
      PutKeys(fs[1..], k, v);
      assert Keys(fs) == [fs[0].0] + Keys(fs[1..]);
      assert Put(fs, k, v) == [fs[0]] + Put(fs[1..], k, v);
    }
  }

  /** `d.setdefault(k, v)`: binds `k` to `v` only when `k` is absent. */
  function SetDefault(fs: Fields, k: string, v: Json): (r: Fields)
    ensures k in Keys(fs) ==> r == fs
    ensures k !in Keys(fs) ==> r == Put(fs, k, v)
  {
    if k in Keys(fs) then fs else Put(fs, k, v)
  }

  /** Python's `bool(x)`. */
  predicate Truthy(j: Json)
  {
    match j
    case JNull => false
    case JBool(b) => b
    case JNum(n) => n != 0
    case JStr(s) => s != ""
    case JList(items) => items != []
    case JObj(fields) => fields != []
  }

  /** Values that can go into a Python `set` (lists and dicts cannot). */
  predicate Hashable(j: Json)
  {
    !j.JList? && !j.JObj?
  }

  /** `type(x).__name__`. */
  function TypeName(j: Json): string
  {
    match j
    case JNull => "NoneType"
    case JBool(_) => "bool"
    case JNum(_) => "int"
    case JStr(_) => "str"
    case JList(_) => "list"
    case JObj(_) => "dict"
  }

  /** Python's `len(x)`; raises `TypeError` for values without a length. */
  function Len(j: Json): (r: Outcome<nat>)
    ensures r.Returned? <==> j.JStr? || j.JList? || j.JObj?
  {
    match j
    case JStr(s) => Returned(|s|)
    case JList(items) => Returned(|items|)
    case JObj(fields) => Returned(|fields|)
    case _ => Raised("object of type '" + TypeName(j) + "' has no len()")
  }

  /**
   * Serialisation and formatting the core calls but does not define: `json.dumps`, `json.loads`
   * (`None` where it raises) and Python's `str()` of a value that is not a string.
   */
  datatype Formats = Formats(dumps: Json -> string, loads: string -> Option<Json>, repr: Json -> string)

  /**
   * A value Python can hold: no dict in it, at any depth, binds a key twice. A `Json` dict with a
   * repeated key has no Python counterpart (`json.loads` keeps the last binding).
   */
  predicate WellFormed(j: Json)
  {
    match j
    case JList(items) => forall i :: 0 <= i < |items| ==> WellFormed(items[i])
    case JObj(fields) => DistinctKeys(fields) && forall i :: 0 <= i < |fields| ==> WellFormed(fields[i].1)
    case _ => true
  }

  /** Dropping a dict's first entry keeps it well formed, and that entry's key is not among the rest. */
  lemma TailWellFormed(fs: Fields)
    requires fs != [] && WellFormed(JObj(fs))
    ensures WellFormed(JObj(fs[1..])) && fs[0].0 !in Keys(fs[1..])
  {
    var tail := fs[1..];
    forall i, j | 0 <= i < j < |tail| ensures tail[i].0 != tail[j].0 {
      assert tail[i] == fs[i + 1] && tail[j] == fs[j + 1];
    }
    forall i | 0 <= i < |tail| ensures WellFormed(tail[i].1) && Keys(tail)[i] != fs[0].0 {
      assert tail[i] == fs[i + 1];
    }
  }

  /** A well-formed value under a new key in front of a well-formed dict. */
  lemma ConsWellFormed(f: (string, Json), rest: Fields)
    requires WellFormed(JObj(rest)) && WellFormed(f.1) && f.0 !in Keys(rest)
    ensures WellFormed(JObj([f] + rest))
  {
    var r := [f] + rest;
    forall i, j | 0 <= i < j < |r| ensures r[i].0 != r[j].0 {
      assert r[j] == rest[j - 1] && Keys(rest)[j - 1] == rest[j - 1].0;
      if i > 0 { assert r[i] == rest[i - 1]; }
    }
    forall i | 0 <= i < |r| ensures WellFormed(r[i].1) {
      if i > 0 { assert r[i] == rest[i - 1]; }
    }
  }

  /** `d[k] = v` on a Python dict gives a Python dict. */
  lemma {:induction false} PutWellFormed(fs: Fields, k: string, v: Json)
    requires WellFormed(JObj(fs)) && WellFormed(v)
    ensures WellFormed(JObj(Put(fs, k, v)))
  {
    if fs != [] {
      TailWellFormed(fs);
      if fs[0].0 == k {
        ConsWellFormed((k, v), fs[1..]);
      } else {
        PutWellFormed(fs[1..], k, v);
        PutKeys(fs[1..], k, v);
        ConsWellFormed(fs[0], Put(fs[1..], k, v));
      }
    }
  }

  /** What the core relies on from `json`: loading what was dumped gives back any value Python can hold, and no dump is empty. */
  ghost predicate RoundTrips(fmt: Formats)
  {
    forall j {:trigger fmt.dumps(j)} :: WellFormed(j) ==> fmt.loads(fmt.dumps(j)) == Some(j) && fmt.dumps(j) != ""
  }

  /** Python's `str(x)`: a string is itself; any other value is rendered by `repr`. */
  function Str(j: Json, fmt: Formats): (r: string)
    ensures j.JStr? ==> r == j.s
  {
    if j.JStr? then j.s else fmt.repr(j)
  }

  /** `str(x)` of an optional value: `None` prints as `None`. */
  function StrOpt(o: Option<Json>, fmt: Formats): string
  {
    match o
    case None => "None"
    case Some(j) => Str(j, fmt)
  }

  /** A chat message as the dict `{"role": role, "content": content}`. */
  function MessageJson(role: string, content: string): Json
  {
    JObj([("role", JStr(role)), ("content", JStr(content))])
  }
}
