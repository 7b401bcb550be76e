/** The few JavaScript values and coercions the slider's arguments go through. */
module JsValues {

  /**
   * A JavaScript value as the slider sees it. Numbers are reals (NaN is not
   * represented); every callable is `Func`; arrays and plain objects are `Obj`.
   */
  datatype JsValue =
    | Undefined
    | Null
    | Bool(b: bool)
    | Num(n: real)
    | Str(s: string)
    | Func
    | Obj(fields: map<string, JsValue>)

  /** `typeof v === 'object'`, which holds for `null` as well as for objects. */
  predicate TypeofIsObject(v: JsValue) {
    v.Obj? || v.Null?
  }

  /** ToBoolean: the values that `if (v)` takes and `!v` rejects. */
  predicate Truthy(v: JsValue) {
    match v
    case Undefined => false
    case Null => false
    case Bool(b) => b
    case Num(n) => n != 0.0
    case Str(s) => s != ""
    case Func => true
    case Obj(_) => true
  }
}
