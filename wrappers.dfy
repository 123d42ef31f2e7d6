/** Values the script handles that Dafny has no direct counterpart for: Python's
    `None`, its truthiness test on strings, and the outcome of a call into code
    outside the model (the HTTP client, the image decoder) that may raise. */
module Wrappers {

  datatype Option<T> = None | Some(value: T)

  /** `not s` is False for a string that is present and non-empty. */
  predicate Truthy(s: Option<string>) {
    s.Some? && s.value != ""
  }

  /** What a call did: raised an exception, or returned a value. */
  datatype Reply<T> = Raised | Returned(value: T)

  /** The `try_except` decorator: the wrapped call's return value is passed
      through; any exception it raises becomes `False`. */
  function TryExcept(r: Reply<bool>): (ok: bool)
    ensures ok <==> r == Returned(true)
  {
    match r
    case Raised => false
    case Returned(b) => b
  }
}
