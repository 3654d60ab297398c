/**
 * JSON values as the service sends and receives them.  An object is a map
 * from key to value; an absent key is JavaScript's `undefined`.
 */
module Json {
  import opened Wrappers

  datatype Json =
    | JNull
    | JBool(b: bool)
    | JNum(n: int)
    | JNaN
    | JStr(s: string)
    | JArr(items: seq<Json>)
    | JObj(fields: map<string, Json>)

  /** The type name zod reports as "received ..." for a value; `None` is `undefined`. */
  function TypeName(v: Option<Json>): string
  {
    match v
    case None => "undefined"
    case Some(JNull) => "null"
    case Some(JBool(_)) => "boolean"
    case Some(JNum(_)) => "number"
    case Some(JNaN) => "NaN"
    case Some(JStr(_)) => "string"
    case Some(JArr(_)) => "array"
    case Some(JObj(_)) => "object"
  }

  /** The string at `key` of an object, if that key holds a string. */
  function StrAt(v: Option<Json>, key: string): Option<string>
  {
    if v.Some? && v.value.JObj? && key in v.value.fields && v.value.fields[key].JStr?
    then Some(v.value.fields[key].s)
    else None
  }

  /** `const { [key]: _, ...rest } = obj`: every field of the object but `key`. */
  function Omit(fields: map<string, Json>, key: string): (rest: map<string, Json>)
    ensures key !in rest
    ensures forall k :: k in fields && k != key <==> k in rest
    ensures forall k :: k in rest ==> rest[k] == fields[k]
  {
    fields - {key}
  }

  /** The `{ error: message }` body every failure response of the service uses. */
  function ErrorBody(message: string): Json
  {
    JObj(map["error" := JStr(message)])
  }

  /** An optional string as a nullable JSON value. */
  function Nullable(v: Option<string>): Json
  {
    if v.Some? then JStr(v.value) else JNull
  }
}
