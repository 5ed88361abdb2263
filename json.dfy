/** JSON values as Python's json.loads returns them, and the few Python
    operations on them that the handlers use. */
module Json {
  import opened Wrappers
  import Decimal

  /** Integers and floats stay distinct, as int and float do in Python;
      objects are dicts, so a key occurs at most once. */
  datatype Json =
    | Null
    | Bool(b: bool)
    | Int(i: int)
    | Float(r: real)
    | Str(s: string)
    | Array(items: seq<Json>)
    | Object(fields: map<string, Json>)

  /** dict.get(key): None when the key is absent. */
  function Get(fields: map<string, Json>, key: string): Json
  {
    if key in fields then fields[key] else Null
  }

  /** Python's bool(v): None, False, zero, and empty strings, lists and dicts are false. */
  predicate Truthy(v: Json)
  {
    match v
    case Null => false
    case Bool(b) => b
    case Int(i) => i != 0
    case Float(r) => r != 0.0
    case Str(s) => s != ""
    case Array(items) => items != []
    case Object(fields) => fields != map[]
  }

  /** Python's str(v) (what '{}'.format(v) inserts) for the values a path
      parameter can hold; floats, lists and dicts get a stand-in text. */
  function PyStr(v: Json): string
  {
    match v
    case Null => "None"
    case Bool(b) => if b then "True" else "False"
    case Int(i) => Decimal.IntToString(i)
    case Str(s) => s
    case Float(_) => "<float>"
    case Array(_) => "<list>"
    case Object(_) => "<dict>"
  }

  /** json.loads and json.dumps, which this model does not implement:
      loads may fail on malformed text. */
  datatype Codec = Codec(loads: string -> Option<Json>, dumps: Json -> string)

  /** The only property of the codec the model relies on: loads undoes dumps
      on the value v. It is asked of one value at a time: floats here are real
      numbers, which no map into strings can tell apart all at once, so no
      codec undoes dumps on every value. */
  ghost predicate RoundTrips(codec: Codec, v: Json)
  {
    codec.loads(codec.dumps(v)) == Some(v)
  }
}
