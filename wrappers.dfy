/** Optional values and success-or-failure results, shared by every module. */
module Wrappers {

  /** A value that may be absent (`undefined` or `null` in the services). */
  datatype Option<+T> = None | Some(value: T)

  /** The outcome of a service call: a value, or what the call throws. */
  datatype Result<+T, +E> = Ok(value: T) | Err(error: E)
  {
    /** A thrown error propagates out of the caller (`:-`). */
    predicate IsFailure() { Err? }

    function PropagateFailure<U>(): Result<U, E>
      requires Err?
    {
      Err(error)
    }

    function Extract(): T
      requires Ok?
    {
      value
    }
  }

  /** JavaScript truthiness of an optional string: absent and empty are falsy. */
  predicate Truthy(s: Option<string>)
  {
    s.Some? && s.value != ""
  }
}
