/**
 * Values that flow through the API layer: decoded JSON documents, Python
 * dictionaries of them, Python truthiness, and the error wrappers the other
 * modules use for the exceptions the source raises.
 */
module JsonValues {

  /** A decoded JSON value (numbers are integers: floats are not modelled). */
  datatype Json =
    | JNull
    | JBool(b: bool)
    | JInt(i: int)
    | JStr(s: string)
    | JList(items: seq<Json>)
    | JDict(fields: map<string, Json>)

  /** A Python dict with string keys (insertion order is not modelled). */
  type Dict = map<string, Json>

  datatype Option<+T> = None | Some(value: T)

  /** The outcome of an operation that may raise. */
  datatype Result<+T> = Success(value: T) | Failure(error: Error)

  /** The Python exceptions the modelled code raises or lets escape. */
  datatype Error =
    | KeyError(key: string)
    | ValueError(message: string)
    | TypeError(message: string)
    | ValidationError(message: string)
    | NotFound
    | IndexError
    | DecodeError

  /** Python's bool(x) for a decoded JSON value. */
  predicate Truthy(j: Json)
  {
    match j
    case JNull => false
    case JBool(b) => b
    case JInt(i) => i != 0
    case JStr(s) => s != ""
    case JList(items) => items != []
    case JDict(fields) => fields != map[]
  }

  /** Python's `d.get(key)`, with a missing key read as None. */
  function Get(d: Dict, key: string): (r: Json)
    ensures key !in d ==> r == JNull
    ensures key in d ==> r == d[key]
  {
    if key in d then d[key] else JNull
  }

  /** Python's `x[key]` on a value that must be a dict holding the key. */
  function Index(x: Json, key: string): (r: Result<Json>)
    ensures r.Success? <==> x.JDict? && key in x.fields
    ensures r.Success? ==> r.value == x.fields[key]
  {
    match x
    case JDict(d) => if key in d then Success(d[key]) else Failure(KeyError(key))
    case _ => Failure(TypeError("not a dict"))
  }

  /**
   * The JSON text codec (ujson/json dumps and loads), which the model does
   * not implement: loads yields None for text that does not decode.
   */
  datatype Codec = Codec(dumps: Json -> string, loads: string -> Option<Json>)

  /** Decoding what was encoded gives the value back. */
  ghost predicate RoundTrips(c: Codec)
  {
    forall j: Json {:trigger c.dumps(j)} :: c.loads(c.dumps(j)) == Some(j)
  }

  /** json.loads of a text that must decode to a JSON object. */
  function LoadsDict(c: Codec, text: string): (r: Result<Dict>)
    ensures r.Success? <==> c.loads(text).Some? && c.loads(text).value.JDict?
    ensures r.Success? ==> JDict(r.value) == c.loads(text).value
  {
    match c.loads(text)
    case None => Failure(DecodeError)
    case Some(JDict(d)) => Success(d)
    case Some(_) => Failure(TypeError("blob is not an object"))
  }

  lemma LoadsDumpsDict(c: Codec, d: Dict)
    requires RoundTrips(c)
    ensures LoadsDict(c, c.dumps(JDict(d))) == Success(d)
  {
    assert c.loads(c.dumps(JDict(d))) == Some(JDict(d));
  }
}
