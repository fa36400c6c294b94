/** JavaScript values as the components see them: response bodies, parsed profiles,
    and the `error` state, which the forms sometimes set to a response body rather than
    a string. Numbers are integers; there is no NaN and no fraction. */
module JsValue {
  import opened Wrappers
  import Text

  datatype Json =
    | JUndefined
    | JNull
    | JBool(b: bool)
    | JNum(n: int)
    | JStr(s: string)
    | JArr(items: seq<Json>)
    | JObj(props: map<string, Json>)

  /** JavaScript truthiness: `undefined`, `null`, `false`, `0` and `""` are falsy. */
  predicate Truthy(v: Json) {
    match v
    case JUndefined => false
    case JNull => false
    case JBool(b) => b
    case JNum(n) => n != 0
    case JStr(s) => s != ""
    case JArr(_) => true
    case JObj(_) => true
  }

  /** `a || b`: the left operand when it is truthy, otherwise the right one. */
  function Or(a: Json, b: Json): Json {
    if Truthy(a) then a else b
  }

  /** `a || "text"` when the default is a non-empty string: the result is never falsy,
      and it is the left operand exactly when that one is truthy. */
  lemma OrWithText(a: Json, text: string)
    requires text != ""
    ensures Truthy(Or(a, JStr(text)))
    ensures Or(a, JStr(text)) == a <==> Truthy(a)
  {
  }

  /** `v.key`: `None` stands for the TypeError thrown when `v` is `null` or `undefined`;
      any other non-object has no such property and yields `undefined`. */
  function Get(v: Json, key: string): Option<Json> {
    match v
    case JUndefined => None
    case JNull => None
    case JObj(props) => Some(if key in props then props[key] else JUndefined)
    case _ => Some(JUndefined)
  }

  /** `v?.key`: like `Get`, but a nullish `v` yields `undefined` instead of throwing. */
  function GetOptional(v: Json, key: string): Json {
    match Get(v, key)
    case None => JUndefined
    case Some(x) => x
  }

  /** `String(v)`, as used by template literals, `toString()` and `localStorage.setItem`. */
  function ToJsString(v: Json): string {
    match v
    case JUndefined => "undefined"
    case JNull => "null"
    case JBool(b) => if b then "true" else "false"
    case JNum(n) => Text.IntToString(n)
    case JStr(s) => s
    case JArr(items) =>
      // Array.prototype.toString: elements joined by ",", null and undefined as "".
      Text.Join(seq(|items|, i requires 0 <= i < |items| =>
        if items[i].JUndefined? || items[i].JNull? then "" else ToJsString(items[i])), ',')
    case JObj(_) => "[object Object]"
  }

  /** `JSON.stringify` and `JSON.parse`, left abstract: `parse` yields `None` where it would throw. */
  datatype Codec = Codec(stringify: Json -> string, parse: string -> Option<Json>)

  /** A value that JSON can carry unchanged: no `undefined` anywhere in it. `JSON.stringify`
      drops an object key whose value is `undefined` and writes an `undefined` array item
      as `null`, so such values do not survive a round trip; every value `JSON.parse`
      produces is of this kind. */
  predicate JsonSafe(v: Json) {
    match v
    case JUndefined => false
    case JArr(items) => forall i :: 0 <= i < |items| ==> JsonSafe(items[i])
    case JObj(props) => forall k :: k in props ==> JsonSafe(props[k])
    case _ => true
  }

  /** Parsing what was serialised gives the value back, for the values JSON can carry. */
  ghost predicate RoundTrips(c: Codec) {
    forall v :: JsonSafe(v) ==> c.parse(c.stringify(v)) == Some(v)
  }
}
