/** The JavaScript values that flow through the query doubles: arguments of
    chained calls, argument matchers, and the declared `err`/`data` pair. */
module JsValues {

  datatype Option<+T> = None | Some(value: T)

  /** A JavaScript value. Structural equality on this type stands in for the
      `deep-equal` comparison; a function is compared by identity, which its
      `id` models. Numbers are modelled as integers. */
  datatype Value =
    | Undefined
    | Null
    | Bool(b: bool)
    | Num(n: int)
    | Str(s: string)
    | Arr(elems: seq<Value>)
    | Obj(fields: map<string, Value>)
    | Function(id: nat)

  /** `v == null` under JavaScript's loose equality: true of null and undefined only. */
  predicate IsNullish(v: Value) {
    v.Undefined? || v.Null?
  }

  /** `typeof v === 'function'` */
  predicate IsFunction(v: Value) {
    v.Function?
  }
}
