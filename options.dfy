/** Optional values: a JavaScript field that may be `undefined`, and the
    `-Infinity`/`Infinity` sentinels that stand for "no value seen yet". */
module Options {

  datatype Option<+T> = None | Some(value: T) {

    /** The value, or `default` when there is none (`x ?? default`). */
    function GetOr(default: T): T {
      match this
      case Some(v) => v
      case None => default
    }
  }

  /** `x || 0` on an optional number: a missing value counts as 0. */
  function OrZero(x: Option<real>): real {
    x.GetOr(0.0)
  }

  /** JavaScript truthiness of an optional number (missing and 0 are falsy). */
  predicate Truthy(x: Option<real>) {
    x.Some? && x.value != 0.0
  }
}
