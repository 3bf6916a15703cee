/** Loosely-typed values as the hosted backend returns them in untyped rows
    (a JSON value plus `undefined`), and JavaScript's truthiness test on them.
    Numbers are restricted to integers. */
module JsValues {

  datatype JsValue =
    | JUndefined
    | JNull
    | JBool(b: bool)
    | JNum(n: int)
    | JStr(s: string)
    | JArr(elems: seq<JsValue>)
    | JObj(fields: map<string, JsValue>)

  /** The value is truthy in a JavaScript condition (`if (v)`, `v && ...`, `v || ...`). */
  predicate Truthy(v: JsValue)
  {
    match v
    case JUndefined => false
    case JNull => false
    case JBool(b) => b
    case JNum(n) => n != 0
    case JStr(s) => s != ""
    case JArr(_) => true
    case JObj(_) => true
  }

  /** `typeof v === 'object'` for a truthy value: an array or a plain object. */
  predicate IsObjectLike(v: JsValue)
  {
    v.JArr? || v.JObj?
  }

  /** `key in v`: only plain objects carry named keys (arrays here have none). */
  predicate HasKey(v: JsValue, key: string)
  {
    v.JObj? && key in v.fields
  }

  /** `v[key]` on an object: the stored value, or `undefined` when the key is absent. */
  function Get(v: JsValue, key: string): JsValue
  {
    if HasKey(v, key) then v.fields[key] else JUndefined
  }

  /** The value is a string, as `typeof x === 'string'` tests. */
  predicate IsString(v: JsValue)
  {
    v.JStr?
  }

  /** `v || ''`: the value when it is truthy, the empty string otherwise. */
  function OrEmpty(v: JsValue): JsValue
  {
    if Truthy(v) then v else JStr("")
  }
}
