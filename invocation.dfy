/** What the three action wrappers have in common: the outcome of
    validation, of the processing function and of the wrapper itself, and
    the trace of one invocation (what was validated, what was processed,
    what was logged). */
module Invocation {
  import opened ValidationErrors

  /** `schema.safeParse(input)`: the validated (sanitised) value, or the
      validation error given by its flattened form. */
  datatype Parsed<T> = Valid(value: T) | Invalid(error: Flattened)

  /** A thrown JavaScript value: a zod validation error, or an `Error` with
      a message. */
  datatype Exception = ZodError(issues: Flattened) | Error(message: string)

  /** How the awaited processing function ends: it resolves with a value or
      rejects with an exception. */
  datatype Outcome<D> = Returned(data: D) | Threw(error: Exception)

  /** How a wrapper call ends: it resolves with a value or rejects. */
  datatype Completion<R> = Normal(value: R) | Thrown(exception: Exception)

  /** One wrapper invocation: how it ended, the values handed to validation
      and to the processing function (in call order), and the values passed
      to `console.error`. */
  datatype Run<T, R> = Run(completion: Completion<R>, validated: seq<T>, processed: seq<T>, logged: seq<Exception>)

  /** The message of the error that replaces every failure of the
      processing function. */
  const INTERNAL_SERVER_ERROR: string := "Internal Server Error"

  /** `Error("Internal Server Error")`. */
  const MASKED: Exception := Error(INTERNAL_SERVER_ERROR)
}
