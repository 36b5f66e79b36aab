/** Option and Result values shared by the planners, together with the
    JavaScript truthiness tests that the services branch on. */
module Results {

  /** A value that may be `undefined` or `null` (None). */
  datatype Option<+T> = None | Some(value: T)

  /** Either a value or the message of the `Error` a service throws. */
  datatype Result<+T> = Ok(value: T) | Err(error: string)

  /** `Boolean(x)` for an optional number: `undefined`, `null` and `0` are falsy. */
  predicate TruthyNumber(x: Option<int>) {
    x.Some? && x.value != 0
  }

  /** `Boolean(x)` for an optional string: `undefined`, `null` and `""` are falsy. */
  predicate TruthyString(x: Option<string>) {
    x.Some? && x.value != ""
  }

  /** `x || fallback` for an optional string. */
  function StringOr(x: Option<string>, fallback: string): (r: string)
    ensures TruthyString(x) ==> r == x.value
    ensures !TruthyString(x) ==> r == fallback
  {
    if TruthyString(x) then x.value else fallback
  }
}
