/** JavaScript's view of a parsed JSON value, as the frontend stores use it: property
    reads (`value.key`), the `||` default chain, and string conversion (`s += value`,
    template literals). A read of a key that is not there gives `undefined`, written
    `None` here. */
module JsValue {
  import opened Wrappers
  import opened Text
  import opened Json

  /** The message-free error a property read raises on `null`. */
  const TypeErrorOnNull := "TypeError"

  /** `value.key`: `null` raises a `TypeError`; an object gives the key's value or
      `undefined`; every other value has no such key. */
  function Prop(v: Json, key: string): (r: Result<Option<Json>, string>)
    ensures r.Failure? <==> v.JNull?
    ensures r.Success? && r.value.Some? ==> v.JObj? && key in v.fields && r.value.value == v.fields[key]
    ensures v.JObj? && key in v.fields ==> r == Success(Some(v.fields[key]))
  {
    match v
    case JNull => Failure(TypeErrorOnNull)
    case JObj(fields) => Success(if key in fields then Some(fields[key]) else None)
    case _ => Success(None)
  }

  /** A property read on a value known not to be `null`. */
  function Field(v: Json, key: string): Option<Json>
    requires !v.JNull?
  {
    Prop(v, key).value
  }

  /** JavaScript truthiness of a possibly `undefined` value. */
  predicate Truthy(o: Option<Json>) {
    o.Some? && JsTruthy(o.value)
  }

  /** `a || fallback`: `a` when truthy, the fallback otherwise. */
  function OrElse(a: Option<Json>, fallback: Json): (r: Json)
    ensures Truthy(a) ==> r == a.value
    ensures !Truthy(a) ==> r == fallback
    ensures JsTruthy(r) <==> Truthy(a) || JsTruthy(fallback)
  {
    if Truthy(a) then a.value else fallback
  }

  /** A chain `a || b || c` yields the first truthy operand, and the last one when none
      is truthy. */
  lemma OrElseChain(a: Option<Json>, b: Option<Json>, c: Json)
    ensures OrElse(a, OrElse(b, c)) ==
      if Truthy(a) then a.value else if Truthy(b) then b.value else c
  {
  }

  /** `String(value)`: strings as they are, numbers in decimal, `true`/`false`, `null`,
      arrays as their elements joined with commas (a `null` element gives the empty
      string), and every object as `[object Object]`. */
  function ToJsString(v: Json): string
    decreases v
  {
    match v
    case JNull => "null"
    case JBool(b) => if b then "true" else "false"
    case JNum(n) => IntToString(n)
    case JStr(s) => s
    case JArr(items) =>
      if |items| == 0 then ""
      else Join(seq(|items|, i requires 0 <= i < |items| =>
        if items[i].JNull? then "" else ToJsString(items[i])), ',')
    case JObj(_) => "[object Object]"
  }

  /** A template-literal slot filled with an optional string: `undefined` prints as
      the word. */
  function TemplateText(o: Option<string>): (r: string)
    ensures o.Some? ==> r == o.value
  {
    if o.Some? then o.value else "undefined"
  }

  /** Converting a string value gives the string back; an array of one string gives
      that string. */
  lemma ToJsStringOfStrings(s: string)
    ensures ToJsString(JStr(s)) == s
    ensures ToJsString(JArr([JStr(s)])) == s
  {
    assert seq(1, i requires 0 <= i < 1 => if [JStr(s)][i].JNull? then "" else ToJsString([JStr(s)][i])) == [s];
  }
}
