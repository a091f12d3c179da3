/**
 * Loosely typed response bodies, as the transport hands them over
 * (`response.data`), discriminated into a tagged union.
 */
module Json {

  /** A value stored under one key of an object body. */
  datatype Value =
    | VText(s: string)             // a string
    | VNumber(n: int)              // a number (modelled as an integer)
    | VArray(items: seq<string>)   // an array of strings
    | VOther                       // missing (`undefined`), null, boolean, nested object, ...
    | VThrowing                    // a property whose read raises (an exotic accessor)

  /** A whole body. */
  datatype Json =
    | Null                         // `null` or `undefined`
    | Text(s: string)              // a string
    | Object(fields: map<string, Value>)
    | Array(items: seq<Value>)     // a top-level array
    | Primitive                    // a number or a boolean: neither a string nor an object

  /** `typeof json === 'object'` for a non-null body: plain objects and arrays. */
  predicate IsObject(json: Json) {
    json.Object? || json.Array?
  }

  /** `Object.keys(json).length`: own keys of an object, indices of an array. */
  function KeyCount(json: Json): (n: nat)
    ensures n > 0 ==> IsObject(json)
  {
    match json
    case Object(fields) => |fields|
    case Array(items) => |items|
    case _ => 0
  }

  /**
   * `json[key]`. On an array only the `length` property is modelled; any
   * other key reads as missing.
   */
  function Property(json: Json, key: string): (v: Value)
    ensures json.Object? && key in json.fields ==> v == json.fields[key]
    ensures json.Object? && key !in json.fields ==> v == VOther
    ensures !IsObject(json) ==> v == VOther
  {
    match json
    case Object(fields) => if key in fields then fields[key] else VOther
    case Array(items) => if key == "length" then VNumber(|items|) else VOther
    case _ => VOther
  }
}
