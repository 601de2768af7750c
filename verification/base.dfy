/** Shared vocabulary: optional values, HTTP-style replies, and the
    JavaScript notion of truthiness for the values the application tests. */
module Base {

  /** A value that may be absent (`undefined`/`null` in the application). */
  datatype Option<+T> = None | Some(value: T) {
    function GetOr(default: T): T {
      match this
      case Some(v) => v
      case None => default
    }
  }

  /** What a request handler sends back: a success status with a body, or an
      error status with the message the client sees. */
  datatype Reply<+T> = Ok(code: int, body: T) | Rejected(code: int, message: string)

  /** A handler's outcome: the store after the call and the reply sent. */
  datatype Handled<S, T> = Handled(store: S, reply: Reply<T>)

  /** JavaScript truthiness of an optional string: present and not "". */
  predicate Filled(s: Option<string>) {
    s.Some? && s.value != ""
  }

  /** JavaScript truthiness of an optional number: present and not 0
      (NaN is not modelled). */
  predicate NonZero(x: Option<int>) {
    x.Some? && x.value != 0
  }

  /** As `NonZero`, for numbers that may be fractional. */
  predicate NonZeroReal(x: Option<real>) {
    x.Some? && x.value != 0.0
  }

  /** `a || b` on optional strings: the first truthy one, if any. */
  function OrElse(a: Option<string>, b: Option<string>): (r: Option<string>)
    ensures Filled(r) <==> Filled(a) || Filled(b)
    ensures Filled(a) ==> r == a
    ensures !Filled(a) && Filled(b) ==> r == b
  {
    if Filled(a) then a else b
  }
}
