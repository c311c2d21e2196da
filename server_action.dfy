/** `ServerAction(validator, action)`: validates the input with `parse`,
    which throws outside the `try` on invalid input, then awaits the
    processing function inside a `try` that logs any throw and replaces it
    by a generic "Internal Server Error". */
module ServerActionWrapper {
  import opened Invocation

  /** The resolved value `{ data: responseDto }`. */
  datatype DataResponse<D> = DataResponse(data: D)

  /** The `try`/`catch` around the processing function, applied to the
      already validated value. */
  function Guarded<T, D>(process: T -> Outcome<D>, value: T): (r: Run<T, DataResponse<D>>)
    ensures r.validated == [] && r.processed == [value]
    ensures r.completion.Normal? <==> process(value).Returned?
    ensures process(value).Returned? ==> r.completion.value == DataResponse(process(value).data) && r.logged == []
    ensures process(value).Threw? ==> r.completion == Thrown(MASKED) && r.logged == [process(value).error]
  {
    match process(value)
    case Returned(responseDto) => Run(Normal(DataResponse(responseDto)), [], [value], [])
    case Threw(e) => Run(Thrown(MASKED), [], [value], [e])
  }

  /** The closure returned by `ServerAction(validate, process)`, applied to
      `input`. */
  function ServerAction<T, D>(validate: T -> Parsed<T>, process: T -> Outcome<D>, input: T): (r: Run<T, DataResponse<D>>)
    // validation runs once, on the raw input
    ensures r.validated == [input]
    // invalid input: the zod error escapes unmasked, nothing is processed or logged
    ensures validate(input).Invalid? ==>
      r.completion == Thrown(ZodError(validate(input).error)) && r.processed == [] && r.logged == []
    // valid input: exactly one processing call, on the parsed value, guarded
    ensures validate(input).Valid? ==>
      r.processed == [validate(input).value] &&
      r.completion == Guarded(process, validate(input).value).completion &&
      r.logged == Guarded(process, validate(input).value).logged
  {
    var parsed := validate(input);
    if parsed.Invalid? then
      Run(Thrown(ZodError(parsed.error)), [input], [], [])
    else
      Guarded(process, parsed.value).(validated := [input])
  }

  /** The only ways a `ServerAction` call ends: it resolves with the
      processing function's value, rejects with the input's validation
      error, or rejects with the generic error after logging the original.
      A rejection with a zod error always comes from the input's validation,
      never from inside the processing function. */
  lemma ServerActionOutcomes<T, D>(validate: T -> Parsed<T>, process: T -> Outcome<D>, input: T)
    ensures var r := ServerAction(validate, process, input);
      (r.completion.Normal? && validate(input).Valid? && process(validate(input).value) == Returned(r.completion.value.data)) ||
      (r.completion.Thrown? && r.completion.exception.ZodError? && validate(input) == Invalid(r.completion.exception.issues)) ||
      (r.completion == Thrown(MASKED) && validate(input).Valid? && process(validate(input).value).Threw? &&
       r.logged == [process(validate(input).value).error])
    ensures var r := ServerAction(validate, process, input);
      (r.completion.Thrown? && r.completion.exception.ZodError?) <==> validate(input).Invalid?
  {
  }

  /** What the caller sees of a failing processing function does not depend
      on what it threw. */
  lemma ServerActionMasksThrows<T, D>(validate: T -> Parsed<T>, process1: T -> Outcome<D>, process2: T -> Outcome<D>, input: T)
    requires validate(input).Valid?
    requires process1(validate(input).value).Threw? && process2(validate(input).value).Threw?
    ensures ServerAction(validate, process1, input).completion == ServerAction(validate, process2, input).completion
  {
  }
}
