/** Decoded JSON values as the client sees them after `.json()`, and
    Python's `str()` of such a value, which the error records use when
    they render themselves. `JNull` is Python's `None`. */
module Json {
  import opened Text

  datatype Json =
    | JNull
    | JBool(b: bool)
    | JInt(i: int)
    | JStr(s: string)
    | JArr(items: seq<Json>)
    | JObj(fields: map<string, Json>)

  /** Python's `str(v)` as used by `"{}".format(v)`. Lists and dicts are
      rendered by a placeholder only (their repr is not part of this model). */
  function Show(v: Json): string {
    match v
    case JNull => "None"
    case JBool(b) => if b then "True" else "False"
    case JInt(i) => IntToString(i)
    case JStr(s) => s
    case JArr(_) => "[...]"
    case JObj(_) => "{...}"
  }
}
