/** The two modes of an input value: a live Python object, or a value tree
    parsed from JSON which has no Python identity. A value never changes
    mode. */
module Inputs {
  import opened PyHost

  /** A parsed JSON value. */
  datatype JsonValue =
    | JsonNull
    | JsonBool(b: bool)
    | JsonInt(i: int)
    | JsonFloat(f: real)
    | JsonString(s: string)
    | JsonArray(items: seq<JsonValue>)
    | JsonObject(entries: seq<(string, JsonValue)>)

  datatype Input = Python(obj: Obj) | Json(value: JsonValue) {

    /** `Input::is_python`: true exactly in native-object mode. */
    predicate IsPython() {
      Python?
    }
  }
}
