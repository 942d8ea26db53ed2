/** Small shared vocabulary: optional values, results, completions and
    references to host-supplied JavaScript functions. */
module Base {

  /** A value that may be `undefined` (or `null`) in the source. */
  datatype Option<+T> = None | Some(value: T) {
    function GetOr(default: T): (r: T)
      ensures Some? ==> r == value
      ensures None? ==> r == default
    {
      match this
      case Some(v) => v
      case None => default
    }
  }

  /** The outcome of an operation that returns a value or throws. */
  datatype Result<+T, +E> = Ok(value: T) | Err(error: E)

  /** The outcome of an operation that returns nothing or throws. */
  datatype Completion = Normal | Threw(message: string)

  /** The identity of a function handed in by the host application
      (a logging callback, an API callback). A function value is always
      truthy in JavaScript, so presence is all that matters for branching. */
  datatype FnRef = FnRef(id: nat)

  /** JavaScript truthiness of an optional string: defined and non-empty. */
  predicate Truthy(s: Option<string>)
  {
    s.Some? && s.value != ""
  }
}
