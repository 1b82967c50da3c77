/** JSON-like values: PHP arrays sent to the search engine and the notification payloads. */
module JsonValues {
  datatype Json =
    | JNull
    | JBool(b: bool)
    | JNum(n: int)
    | JStr(s: string)
    | JArr(items: seq<Json>)
    | JObj(fields: map<string, Json>)
}
