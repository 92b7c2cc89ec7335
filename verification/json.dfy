/** JSON values, as a JSON parser delivers them and as a canonical serialiser consumes them. */
module Json {

  /** An object is an unordered map from keys to values: a serialiser that sorts keys
      (Python's `json.dumps(..., sort_keys=True)`) sees nothing else of it. Arrays keep their order. */
  datatype Json =
    | JNull
    | JBool(b: bool)
    | JInt(i: int)
    | JStr(s: string)
    | JArr(items: seq<Json>)
    | JObj(fields: map<string, Json>)
}
