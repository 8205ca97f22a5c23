/** Value types shared by every tool: optional values, the three states a key of a
    decoded JSON object can be in, JSON documents themselves, and the tool reply. */
module Values {

  datatype Option<+T> = None | Some(value: T)

  /** A key of a decoded JSON object: absent, present with `null`, or present with a value.
      Python's `d.get(key)` folds the first two together, `d.get(key, default)` does not. */
  datatype Field<+T> = Missing | Null | Value(value: T) {

    /** `d.get(key)`: an absent key and a null value both read as None. */
    function Get(): Option<T>
    {
      if Value? then Some(value) else None
    }

    /** `d.get(key, default)`: the default stands in for an absent key only;
        a key present with `null` still reads as None. */
    function GetOr(default: T): Option<T>
    {
      match this
      case Missing => Some(default)
      case Null => None
      case Value(v) => Some(v)
    }
  }

  /** A JSON document as the tracker returns it and as the tools serialise it. */
  datatype Json =
    | JNull
    | JBool(b: bool)
    | JInt(n: int)
    | JStr(s: string)
    | JArr(elems: seq<Json>)
    | JObj(fields: map<string, Json>)

  /** Python truthiness of a decoded JSON value. */
  predicate Truthy(j: Json)
  {
    match j
    case JNull => false
    case JBool(b) => b
    case JInt(n) => n != 0
    case JStr(s) => s != ""
    case JArr(a) => a != []
    case JObj(m) => m != map[]
  }

  /** `{"error": message}`: what every read tool returns when an exception reaches its
      boundary (`create_issue` adds `"status": "error"`, see StatusError). */
  function ErrorObject(message: string): Json
  {
    JObj(map["error" := JStr(message)])
  }

  /** `{"error": message, "status": "error"}`: the error shape of the write tool. */
  function StatusError(message: string): Json
  {
    JObj(map["error" := JStr(message), "status" := JStr("error")])
  }

  /** The outcome of a read tool: its report, or the message of the exception that
      reached the tool boundary (serialised as `{"error": message}`). The same type
      stands for the outcome of a collaborator call that may raise. */
  datatype Reply<+T> = Ok(value: T) | Err(error: string)
}
