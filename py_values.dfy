/** The Python values that cross the charm's relations: a setting that may be
    `None`, the documents `json.loads` produces, Python truthiness, the `in`
    operator on a decoded document, and `str()` as `"{}".format` applies it. */
module PyValues {
  import PyStrings

  /** Python's `None` or a value. */
  datatype Option<+T> = None | Some(value: T)

  /** A document as `json.loads` returns it. */
  datatype Json =
    | JNull
    | JBool(b: bool)
    | JNum(n: int)
    | JStr(s: string)
    | JList(items: seq<Json>)
    | JObject(fields: seq<(string, Json)>)

  /** The decoder behind `json.loads` on a string: `None` when the text is not
      JSON (a `ValueError`). The model takes it as a parameter. */
  type Decoder = string -> Option<Json>

  /** The Python value of a raw relation setting: `None`, or the string itself. */
  function RawValue(raw: Option<string>): Json
  {
    match raw
    case None => JNull
    case Some(s) => JStr(s)
  }

  /** Python truthiness of a raw relation setting (`if x:`): neither `None` nor `""`. */
  predicate Truthy(raw: Option<string>)
  {
    raw.Some? && raw.value != ""
  }

  /** `json.loads(raw)`; `None` is an exception: a `TypeError` when `raw` is
      `None`, a `ValueError` when the decoder rejects the text. */
  function Loads(loads: Decoder, raw: Option<string>): Option<Json>
  {
    match raw
    case None => None
    case Some(s) => loads(s)
  }

  /** `x in items` for a decoded list: some element is the JSON string `x`. */
  predicate ListHas(items: seq<Json>, x: string)
  {
    if items == [] then false else items[0] == JStr(x) || ListHas(items[1..], x)
  }

  /** `x in fields` for a decoded object: some key is `x`. */
  predicate ObjectHas(fields: seq<(string, Json)>, x: string)
  {
    if fields == [] then false else fields[0].0 == x || ObjectHas(fields[1..], x)
  }

  /** Python's `x in v` for a string `x` and a decoded document `v`; `None` is the
      `TypeError` raised for `None`, booleans and numbers. */
  function In(x: string, v: Json): (r: Option<bool>)
    ensures r.Some? <==> v.JStr? || v.JList? || v.JObject?
  {
    match v
    case JStr(s) => Some(PyStrings.Contains(s, x))
    case JList(items) => Some(ListHas(items, x))
    case JObject(fields) => Some(ObjectHas(fields, x))
    case _ => None
  }

  /** What `x in v` tests: a substring of a string, an element of a list, a key
      of an object. */
  lemma InMeaning(x: string, v: Json)
    ensures v.JStr? ==> (In(x, v) == Some(true) <==> exists k :: PyStrings.OccursAt(v.s, x, k))
    ensures v.JList? ==> (In(x, v) == Some(true) <==> exists i :: 0 <= i < |v.items| && v.items[i] == JStr(x))
    ensures v.JObject? ==> (In(x, v) == Some(true) <==> exists i :: 0 <= i < |v.fields| && v.fields[i].0 == x)
  {
    match v
    case JStr(s) => PyStrings.ContainsIffOccurs(s, x);
    case JList(items) => ListHasIff(items, x);
    case JObject(fields) => ObjectHasIff(fields, x);
    case _ =>
  }

  lemma {:induction false} ListHasIff(items: seq<Json>, x: string)
    ensures ListHas(items, x) <==> exists i :: 0 <= i < |items| && items[i] == JStr(x)
  {
    if items != [] {
      ListHasIff(items[1..], x);
      if ListHas(items[1..], x) {
        var i :| 0 <= i < |items[1..]| && items[1..][i] == JStr(x);
        assert items[i + 1] == JStr(x);
      }
      if i :| 0 < i < |items| && items[i] == JStr(x) {
        assert items[1..][i - 1] == JStr(x);
      }
    }
  }

  lemma {:induction false} ObjectHasIff(fields: seq<(string, Json)>, x: string)
    ensures ObjectHas(fields, x) <==> exists i :: 0 <= i < |fields| && fields[i].0 == x
  {
    if fields != [] {
      ObjectHasIff(fields[1..], x);
      if ObjectHas(fields[1..], x) {
        var i :| 0 <= i < |fields[1..]| && fields[1..][i].0 == x;
        assert fields[i + 1].0 == x;
      }
      if i :| 0 < i < |fields| && fields[i].0 == x {
        assert fields[1..][i - 1].0 == x;
      }
    }
  }

  /** `str(v)`, the text `"{}".format(v)` inserts for a decoded document. */
  function Str(v: Json): string
    decreases v, 0
  {
    match v
    case JNull => "None"
    case JBool(b) => if b then "True" else "False"
    case JNum(n) => PyStrings.IntToDecimal(n)
    case JStr(s) => s
    case JList(items) =>
      "[" + PyStrings.Join(seq(|items|, i requires 0 <= i < |items| => Repr(items[i])), ", ") + "]"
    case JObject(fields) =>
      "{" + PyStrings.Join(seq(|fields|, i requires 0 <= i < |fields| =>
                                 "'" + fields[i].0 + "': " + Repr(fields[i].1)), ", ") + "}"
  }

  /** `repr(v)` inside a container: a string is quoted, everything else is its `str`. */
  function Repr(v: Json): string
    decreases v, 1
  {
    match v
    case JStr(s) => "'" + s + "'"
    case _ => Str(v)
  }
}
