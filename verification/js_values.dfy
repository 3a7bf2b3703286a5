/**
 * JavaScript values as they reach the backend from `JSON.parse` and from the
 * database driver. Objects are ordered sequences of key/value pairs, because
 * `Object.keys` and `Object.entries` follow insertion order.
 */
module JsValues {
  import opened Entries

  datatype JsValue =
    | JUndefined
    | JNull
    | JBool(b: bool)
    | JNum(n: int)
    | JStr(s: string)
    | JArr(items: seq<JsValue>)
    | JObj(fields: seq<(string, JsValue)>)

  /** JavaScript truthiness: `undefined`, `null`, `false`, `0` and `""` are falsy. */
  function Truthy(v: JsValue): (b: bool)
    ensures !b <==> v in {JUndefined, JNull, JBool(false), JNum(0), JStr("")}
  {
    match v
    case JUndefined => false
    case JNull => false
    case JBool(b) => b
    case JNum(n) => n != 0
    case JStr(s) => s != ""
    case JArr(_) => true
    case JObj(_) => true
  }

  /** The property `key` of an object with `fields`: `undefined` when it has no such key. */
  function Lookup(fields: seq<(string, JsValue)>, key: string): JsValue {
    Find(fields, key, JUndefined)
  }

  /**
   * Property read `v.key` on a value that is neither `null` nor `undefined`:
   * objects look the key up; arrays, strings, numbers and booleans have no
   * such own property.
   */
  function Get(v: JsValue, key: string): (r: JsValue)
    requires !v.JNull? && !v.JUndefined?
    ensures !v.JObj? ==> r == JUndefined
  {
    match v
    case JObj(fields) => Lookup(fields, key)
    case _ => JUndefined
  }
}
