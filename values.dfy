/** JavaScript values as far as this component handles them: payloads of
    messages and the `value`/`reason` slots of the promise state are carried
    around unchanged and never inspected, except that `undefined` triggers the
    default argument of `setPending`. */
module Values {

  /** The conventional Some/None datatype; `None` stands for a missing
      (undefined or null) prior state. */
  datatype Option<+T> = None | Some(value: T)

  /** A JavaScript value. Numbers are modelled as integers; objects (such as
      `Error` instances) are opaque references compared by identity. */
  datatype Value =
    | Undefined
    | Null
    | Bool(b: bool)
    | Num(n: int)
    | Str(s: string)
    | Ref(id: nat)
}
