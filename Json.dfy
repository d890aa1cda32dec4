/**
 * JSON values as `json.loads` produces them, with Python's truthiness and
 * `dict.get`. Numbers are kept as reals (integers and floats alike).
 */
module Json {
  import opened Wrappers

  datatype Json =
    | JNull
    | JBool(b: bool)
    | JNum(n: real)
    | JStr(s: string)
    | JArr(items: seq<Json>)
    | JObj(fields: map<string, Json>)

  /** `bool(v)` in Python: None, False, 0, "" and empty containers are false. */
  predicate Truthy(v: Json) {
    match v
    case JNull => false
    case JBool(b) => b
    case JNum(n) => n != 0.0
    case JStr(s) => s != ""
    case JArr(items) => items != []
    case JObj(fields) => fields != map[]
  }

  /** `d.get(key)` on a dict; `None` when the key is absent. */
  function Get(fields: map<string, Json>, key: string): (r: Option<Json>)
    ensures r.Some? <==> key in fields
    ensures r.Some? ==> r.value == fields[key]
  {
    if key in fields then Some(fields[key]) else None
  }

  /** `d.get(key, default)` on a dict. */
  function GetOr(fields: map<string, Json>, key: string, default: Json): (r: Json)
    ensures key !in fields ==> r == default
    ensures key in fields ==> r == fields[key]
  {
    if key in fields then fields[key] else default
  }

  /** The two-key object `{"status": status, "error": error}` the servers send on failure. */
  function ErrorBody(error: string): (r: Json)
    ensures r.JObj? && r.fields.Keys == {"status", "error"}
    ensures r.fields["status"] == JStr("error") && r.fields["error"] == JStr(error)
  {
    JObj(map["status" := JStr("error"), "error" := JStr(error)])
  }
}
