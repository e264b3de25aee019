/** JSON-shaped Python values and the JSON library the modelled code calls.

    Payloads, tool arguments and tool results are Python objects built from
    dicts, lists, strings, numbers, booleans and `None`; `Opaque` stands for
    any other object, which `json.dumps` refuses with a `TypeError`.

    `json.dumps`, `json.loads`, `str()` and `repr()` are foreign code. They
    are passed around as a `Codec` record, and `Sound` states the only facts
    the model relies on. */
module Json {

  datatype Json =
    | Null
    | Bool(b: bool)
    | Num(n: int)
    | Str(s: string)
    | Arr(items: seq<Json>)
    | Obj(fields: map<string, Json>)
    | Opaque(id: string)

  /** `json.dumps(v)` succeeds: no opaque object anywhere inside `v`. */
  predicate Serializable(v: Json)
    decreases v
  {
    match v
    case Opaque(_) => false
    case Arr(items) => forall i :: 0 <= i < |items| ==> Serializable(items[i])
    case Obj(fields) => forall k :: k in fields ==> Serializable(fields[k])
    case _ => true
  }

  /** Python truthiness (`bool(v)`); any other object is truthy. */
  predicate Truthy(v: Json) {
    match v
    case Null => false
    case Bool(b) => b
    case Num(n) => n != 0
    case Str(s) => s != ""
    case Arr(items) => |items| > 0
    case Obj(fields) => |fields| > 0
    case Opaque(_) => true
  }

  /** `d.get(key)`: a missing key reads as `None`. */
  function Get(d: map<string, Json>, key: string): (r: Json)
    ensures key !in d ==> r == Null
    ensures key in d ==> r == d[key]
  {
    if key in d then d[key] else Null
  }

  /** The JSON library and Python's text conversions:
      `dumps` is `json.dumps` on serializable values, `loads(s)` says whether
      `json.loads(s)` succeeds, `show` is `str()` and `repr` is `repr()`. */
  datatype Codec = Codec(
    dumps: Json -> string,
    loads: string -> bool,
    show: Json -> string,
    repr: Json -> string)

  /** What the model assumes of the library: whatever `json.dumps` produces
      parses again, `"{}"` parses, and the empty string does not. */
  ghost predicate Sound(c: Codec) {
    && (forall v :: Serializable(v) ==> c.loads(c.dumps(v)))
    && c.loads("{}")
    && !c.loads("")
  }

  /** `str(v)`: a string is itself, anything else goes through `str()`. */
  function PyStr(c: Codec, v: Json): (r: string)
    ensures v.Str? ==> r == v.s
  {
    if v.Str? then v.s else c.show(v)
  }
}
