/** Failure-carrying values shared by every module of the model. */
module Wrappers {

  /** A JavaScript value that may be `undefined` (or `null`). */
  datatype Option<+T> = None | Some(value: T) {
    /** `x ?? default` */
    function GetOr(default: T): T {
      match this
      case Some(v) => v
      case None => default
    }

    predicate IsFailure() {
      None?
    }

    function PropagateFailure<U>(): Option<U>
      requires None?
    {
      None
    }

    function Extract(): T
      requires Some?
    {
      value
    }
  }

  /** The outcome of an awaited call into code outside the model: either the
      resolved value, or a rejection whose `message` may be absent. */
  datatype Outcome<+T> = Done(value: T) | Threw(message: Option<string>)

  /** The outcome of a modelled function that throws `new Error(message)`. */
  datatype Result<+T> = Ok(value: T) | Err(message: string)

  /** `err.message ?? fallback` inside a `catch`. */
  function MessageOr<T>(o: Outcome<T>, fallback: string): (m: string)
    requires o.Threw?
    ensures o.message.Some? ==> m == o.message.value
    ensures o.message.None? ==> m == fallback
  {
    o.message.GetOr(fallback)
  }

  /** JavaScript truthiness of an optional string: defined and non-empty. */
  predicate Truthy(s: Option<string>) {
    s.Some? && s.value != ""
  }

  /** `a || b` on optional strings. */
  function OrElse(a: Option<string>, b: string): (r: string)
    ensures Truthy(a) ==> r == a.value
    ensures !Truthy(a) ==> r == b
  {
    if Truthy(a) then a.value else b
  }
}
