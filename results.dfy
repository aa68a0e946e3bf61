/**
 * Optional values, results and the exceptions the OData client throws.
 */
module Results {
  import opened Strings

  datatype Option<+T> = None | Some(value: T)

  /** The kinds of exception the modelled code can throw. */
  datatype Error =
    | BadStatus(status: int)      // a response status outside [200, 300)
    | NullCustomOptionKey         // a custom query option key that is null or undefined
    | ReservedCustomOptionKey     // a custom query option key that starts with `$` or `@`
    | NullToObject                // TypeError: `Object.getOwnPropertyNames` of null or undefined
    | NullBody                    // TypeError: reading `value` of a null response body
    | UndefinedAny                // TypeError: calling `any` on an undefined member

  /** The value of an expression that may throw. */
  datatype Result<+T> = Ok(value: T) | Err(error: Error)
  {
    predicate IsFailure()
    {
      Err?
    }

    function PropagateFailure<U>(): Result<U>
      requires Err?
    {
      Err(error)
    }

    function Extract(): T
      requires Ok?
    {
      value
    }
  }

  /** The message the thrown `Error` carries (the engine's wording for the two TypeErrors). */
  function Message(e: Error): string
  {
    match e
    case BadStatus(status) => "Bad response status: " + IntToString(status)
    case NullCustomOptionKey => "Custom query options MUST NOT be null or undefined."
    case ReservedCustomOptionKey => "Custom query options MUST NOT begin with a $ or @ character."
    case NullToObject => "Cannot convert undefined or null to object"
    case NullBody => "Cannot read properties of null (reading 'value')"
    case UndefinedAny => "Cannot read properties of undefined (reading 'any')"
  }

  /** `200 <= status < 300`: the statuses every decoder accepts. */
  predicate SuccessStatus(status: int)
  {
    200 <= status < 300
  }
}
