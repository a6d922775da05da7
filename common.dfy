/** Option, Result and Outcome: the failure-carrying values the rest of the model uses
    for undefined settings, thrown errors and environment outcomes. */
module Wrappers {

  datatype Option<+T> = None | Some(value: T) {

    /** `x ?? d`: the value, or the default when there is none */
    function GetOr(default: T): (r: T)
      ensures Some? ==> r == value
      ensures None? ==> r == default
    {
      match this
      case Some(v) => v
      case None => default
    }
  }

  datatype Result<+T, +E> = Success(value: T) | Failure(error: E)

  /** An operation of the environment that either completes or fails with the
      string its error renders to. */
  datatype Outcome<+E> = Pass | Fail(error: E)
}

/** The few JavaScript value rules the model depends on. */
module Js {
  import opened Wrappers

  /** `${e}` for `e = new Error(message)`: the name of the error class, a colon and the message. */
  function ErrorText(message: string): (s: string)
    ensures |s| == |message| + 7 && s[7..] == message
  {
    "Error: " + message
  }

  /** JavaScript truthiness of a string setting read with `config.get<string>(key)`:
      undefined and the empty string are falsy. */
  predicate Truthy(s: Option<string>)
  {
    s.Some? && s.value != ""
  }

  /** `s || fallback` for a string setting. */
  function OrElse(s: Option<string>, fallback: string): (r: string)
    ensures Truthy(s) ==> r == s.value
    ensures !Truthy(s) ==> r == fallback
  {
    if Truthy(s) then s.value else fallback
  }

  predicate HasPrefix(s: string, prefix: string)
  {
    |prefix| <= |s| && s[..|prefix|] == prefix
  }
}
