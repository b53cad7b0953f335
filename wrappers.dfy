/** Optional values and the failure outcome the query handlers can end in. */
module Wrappers {

  /** Python's `Optional[...]`: `None` or a present value. */
  datatype Option<+T> = None | Some(value: T) {
    /** The value, or `default` when absent (Python's `dict.get(key, default)`). */
    function GetOr(default: T): T {
      match this
      case Some(v) => v
      case None => default
    }
  }

  /** The exceptions a query handler can raise before the router catches them. */
  datatype Fault =
    | UnknownUserType(userType: string)  // KeyError on the tone-style table
    | DivisionByZero                     // ZeroDivisionError on a zero expense total
    | MissingIncome                      // TypeError from `None * 0.7`

  /** The result of a handler: a value, or the exception it raised. */
  datatype Outcome<+T> = Ok(value: T) | Failed(fault: Fault)
}
