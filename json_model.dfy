/** JSON-shaped values exchanged by the service, and the library functions
    (json.dumps, json.loads, md5) that the code treats as black boxes. */
module JsonModel {

  /** A JSON value as Python's json module produces and consumes it.
      Numbers are restricted to integers: floating point is not modelled. */
  datatype Json =
    | JNull
    | JBool(b: bool)
    | JInt(i: int)
    | JStr(s: string)
    | JList(items: seq<Json>)
    | JObject(fields: map<string, Json>)

  /** Python's `[]`, returned by every fetch that has nothing to report. */
  const EmptyList: Json := JList([])

  /** The opaque library functions the service calls:
      `dumps` is json.dumps, `loads` is json.loads, and `md5Hex` is
      `hashlib.md5(s.encode()).hexdigest()`. Nothing is assumed about them
      except where a lemma states it as a precondition. */
  datatype Codec = Codec(dumps: Json -> string, loads: string -> Json, md5Hex: string -> string)

  /** `d.get(name, default)` on a Python dict. */
  function Get(d: map<string, Json>, name: string, default: Json): (r: Json)
    ensures name in d ==> r == d[name]
    ensures name !in d ==> r == default
  {
    if name in d then d[name] else default
  }

  /** A result or the Python exception the source raises instead. */
  datatype Result<+T, +E> = Success(value: T) | Failure(error: E)

  datatype Option<+T> = None | Some(value: T)
}
