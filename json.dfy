/** A parsed JSON value, as `JSON.parse` produces it: the untyped input of every schema check. */
module JsonValues {

  /** Numbers are modelled as integers; a key absent from an object is JavaScript's `undefined`. */
  datatype Json =
    | JNull
    | JBool(b: bool)
    | JNum(n: int)
    | JStr(s: string)
    | JArr(items: seq<Json>)
    | JObj(fields: map<string, Json>)
}
