/**
 * The JSON documents the webhook receives, as `json.loads` returns them:
 * objects are dictionaries from text keys to values (a repeated key keeps
 * its last value, so a map), arrays are lists. JSON numbers are integers
 * here: a number with a fraction or an exponent has no constructor.
 */
module Documents {

  datatype Json =
    | JNull
    | JBool(b: bool)
    | JInt(n: int)
    | JString(s: string)
    | JArray(items: seq<Json>)
    | JObject(fields: map<string, Json>)

  /** Python's truth value of the decoded document: `None`, `False`, `0`, `""`, `[]` and `{}` are false. */
  predicate Truthy(v: Json) {
    match v
    case JNull => false
    case JBool(b) => b
    case JInt(n) => n != 0
    case JString(s) => s != ""
    case JArray(items) => items != []
    case JObject(fields) => fields != map[]
  }

  /** `d.get(k)` on a dictionary: the stored value, or `None` (here `JNull`) when the key is missing. */
  function Get(fields: map<string, Json>, k: string): (v: Json)
    ensures k in fields ==> v == fields[k]
    ensures k !in fields ==> v == JNull
  {
    if k in fields then fields[k] else JNull
  }

  /**
   * `payload.get(k)` on a decoded body that is an object. `.get` raises on a
   * list or a scalar, so every use in the webhook is on an object: the route
   * tests for one before reading the source tag, and only an object can fail
   * to parse. The `JNull` of the other case is never used as a value.
   */
  function Field(payload: Json, k: string): (v: Json)
    ensures payload.JObject? ==> v == Get(payload.fields, k)
    ensures !payload.JObject? ==> v == JNull
  {
    if payload.JObject? then Get(payload.fields, k) else JNull
  }

  /** Python's `a or b`: the first operand when it is truthy, otherwise the second. */
  function Or(a: Json, b: Json): (v: Json)
    ensures Truthy(a) ==> v == a
    ensures !Truthy(a) ==> v == b
  {
    if Truthy(a) then a else b
  }
}
