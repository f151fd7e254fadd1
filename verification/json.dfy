/** Decoded JSON values as the Python backend sees them after `json.loads`, with the
    truthiness rules of Python (`if value:`) and of JavaScript (`value || fallback`). */
module Json {

  /** A decoded JSON value. Numbers are integers; objects map keys to values. */
  datatype Json =
    | JNull
    | JBool(b: bool)
    | JNum(n: int)
    | JStr(s: string)
    | JArr(items: seq<Json>)
    | JObj(fields: map<string, Json>)

  /** Python truthiness: `None`, `False`, `0`, `""`, `[]` and `{}` are false. */
  predicate PyTruthy(v: Json) {
    match v
    case JNull => false
    case JBool(b) => b
    case JNum(n) => n != 0
    case JStr(s) => s != ""
    case JArr(items) => items != []
    case JObj(fields) => fields != map[]
  }

  /** JavaScript truthiness: `null`, `false`, `0` and `""` are false; every array and
      every object, empty or not, is true. */
  predicate JsTruthy(v: Json) {
    match v
    case JNull => false
    case JBool(b) => b
    case JNum(n) => n != 0
    case JStr(s) => s != ""
    case JArr(_) => true
    case JObj(_) => true
  }

  /** Python can put the value in a set or test set membership with it: lists and
      dicts raise `TypeError: unhashable type`. */
  predicate Hashable(v: Json) {
    !v.JArr? && !v.JObj?
  }

  /** The two languages disagree exactly on empty arrays and empty objects. */
  lemma TruthinessDisagreement(v: Json)
    ensures PyTruthy(v) != JsTruthy(v) <==> v == JArr([]) || v == JObj(map[])
  {
  }
}
