/** JSON values as produced by `JSON.parse`, and the small part of
    JavaScript's semantics the scanner uses on them: property access,
    `typeof` and truthiness. */
module Json {

  import opened Wrappers

  /** A parsed JSON document. Numbers are modelled as reals. */
  datatype Json =
    | JNull
    | JBool(b: bool)
    | JNum(n: real)
    | JStr(s: string)
    | JArr(items: seq<Json>)
    | JObj(fields: map<string, Json>)

  /** The result of a property read: `undefined` or a JSON value. */
  datatype JsValue = Undefined | Defined(json: Json)

  /** `JSON.parse`: `None` when it throws. Any function of this type may be
      supplied; nothing below depends on how the text is parsed. */
  type Parser = string -> Option<Json>

  /** `v.key` in JavaScript, for a key that no built-in prototype defines
      (such as `senderId` or `ok`, unlike `length` or `toString`). `None`
      when the read throws a TypeError, which happens exactly when the
      receiver is `null`; strings, numbers, booleans and arrays have no such
      member and yield `undefined`. */
  function GetMember(v: Json, key: string): (r: Option<JsValue>)
    ensures r.None? <==> v.JNull?
    ensures r == Some(Undefined) <==> !v.JNull? && !(v.JObj? && key in v.fields)
    ensures v.JObj? && key in v.fields ==> r == Some(Defined(v.fields[key]))
  {
    match v
    case JNull => None
    case JObj(m) => Some(if key in m then Defined(m[key]) else Undefined)
    case _ => Some(Undefined)
  }

  /** The `typeof` operator on a value read from parsed JSON
      (`null` and arrays are "object"). */
  function TypeOf(x: JsValue): string {
    match x
    case Undefined => "undefined"
    case Defined(JNull) => "object"
    case Defined(JBool(_)) => "boolean"
    case Defined(JNum(_)) => "number"
    case Defined(JStr(_)) => "string"
    case Defined(JArr(_)) => "object"
    case Defined(JObj(_)) => "object"
  }

  /** JavaScript truthiness: `undefined`, `null`, `false`, `0` and `""` are
      falsy, every array and object is truthy. */
  function Truthy(x: JsValue): (r: bool)
    ensures !r <==> x in {Undefined, Defined(JNull), Defined(JBool(false)), Defined(JNum(0.0)), Defined(JStr(""))}
  {
    match x
    case Undefined => false
    case Defined(JNull) => false
    case Defined(JBool(b)) => b
    case Defined(JNum(n)) => n != 0.0
    case Defined(JStr(s)) => s != ""
    case Defined(JArr(_)) => true
    case Defined(JObj(_)) => true
  }
}
