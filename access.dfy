/** What Python does when the client reads a decoded response:
    `v[key]`, `v[i]`, `len(v)` and `[v[i] for i in range(len(v))]`,
    with the exception each raises on the wrong kind of value. */
module Access {
  import opened Wrappers
  import opened Json
  import opened Errors

  /** `v` is a dict that has `key`. */
  predicate Has(v: Json, key: string) {
    v.JObj? && key in v.fields
  }

  /** `v[key]`: a dict lookup; every other kind of value is not
      subscriptable by a string. */
  function Subscript(v: Json, key: string): Result<Json, Error> {
    match v
    case JObj(m) => if key in m then Ok(m[key]) else Err(KeyError(JStr(key)))
    case _ => Err(TypeError)
  }

  /** Where Python's index `i` lands in a sequence of length `n`
      (a negative index counts from the end). */
  function Position(i: int, n: nat): int {
    if i < 0 then i + n else i
  }

  /** `v[i]` for an int `i`. The keys of a decoded JSON object are strings,
      so an int key is never found. */
  function Index(v: Json, i: int): Result<Json, Error> {
    match v
    case JArr(xs) =>
      var p := Position(i, |xs|);
      if 0 <= p < |xs| then Ok(xs[p]) else Err(IndexError)
    case JStr(s) =>
      var p := Position(i, |s|);
      if 0 <= p < |s| then Ok(JStr([s[p]])) else Err(IndexError)
    case JObj(_) => Err(KeyError(JInt(i)))
    case _ => Err(TypeError)
  }

  /** `len(v)`. */
  function Len(v: Json): Result<nat, Error> {
    match v
    case JArr(xs) => Ok(|xs|)
    case JStr(s) => Ok(|s|)
    case JObj(m) => Ok(|m|)
    case _ => Err(TypeError)
  }

  /** The values `v[0], ..., v[len(v) - 1]`, read in that order: a
      reference definition for the index loops of the fetchers. */
  function Elements(v: Json): (r: Result<seq<Json>, Error>)
    ensures r.Ok? ==> Len(v) == Ok(|r.value|)
    ensures r.Ok? ==> forall k :: 0 <= k < |r.value| ==> Index(v, k) == Ok(r.value[k])
    ensures r.Err? ==>
              || (Len(v).Err? && r.error == Len(v).error)
              || (Len(v).Ok? && Len(v).value > 0 && Index(v, 0) == Err(r.error))
  {
    match v
    case JArr(xs) => Ok(xs)
    case JStr(s) => Ok(seq(|s|, k requires 0 <= k < |s| => JStr([s[k]])))
    case JObj(m) => if |m| == 0 then Ok([]) else Err(KeyError(JInt(0)))
    case _ => Err(TypeError)
  }
}
