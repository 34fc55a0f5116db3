/** How a flow's call() ends: with a returned message, or with an exception
    that escapes it. The flows throw at every failed lookup or policy check
    and return a string everywhere else. */
module Outcomes {

  datatype Option<+T> = None | Some(value: T)

  /** The exceptions the flows can raise. `CordaRuntimeException` carries the
      message the flow gives it; the other two are what Kotlin's `first()` and
      `single()` raise on a list of the wrong size. */
  datatype FlowError =
    | CordaRuntimeException(message: string)
    | NoSuchElementException    // `first()` or `single()` on an empty list
    | IllegalArgumentException  // `single()` on a list of two or more

  /** The end of a call(): a string handed back to the client, or an
      exception thrown out of the flow. */
  datatype Exit = Returned(text: string) | Thrown(error: FlowError)

  /** A step of a flow: it either produced a value and the flow goes on, or
      the flow ended there. Usable with `:-`. */
  datatype Result<+T> = Ok(value: T) | Stop(exit: Exit) {

    predicate IsFailure() {
      Stop?
    }

    function PropagateFailure<U>(): Result<U>
      requires Stop?
    {
      Stop(exit)
    }

    function Extract(): T
      requires Ok?
    {
      value
    }
  }

  /** `?: throw CordaRuntimeException(message)` */
  function OrThrow<T>(o: Option<T>, message: string): (r: Result<T>)
    ensures r.Ok? <==> o.Some?
    ensures r.Ok? ==> r.value == o.value
    ensures r.Stop? ==> r.exit == Thrown(CordaRuntimeException(message))
  {
    match o
    case Some(v) => Ok(v)
    case None => Stop(Thrown(CordaRuntimeException(message)))
  }
}
