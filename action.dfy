/** `action(validator, action)`: validates the input with `safeParse`,
    answers a validation failure with an error envelope, otherwise awaits
    the processing function and answers with a success envelope; anything
    thrown inside the `try` is logged and replaced by a generic
    "Internal Server Error". */
module ActionEnvelope {
  import opened ValidationErrors
  import opened Invocation

  /** The response object `{ success, timestamp, data }` or
      `{ success, timestamp, error }`; a property the object does not have
      is `None`. */
  datatype Envelope<D> = Envelope(success: bool, timestamp: int, data: Option<D>, error: Option<Flattened>)

  /** `success` tells which of the two shapes the envelope has. */
  predicate Discriminated<D>(e: Envelope<D>) {
    if e.success then e.data.Some? && e.error.None? else e.error.Some? && e.data.None?
  }

  /** `respondWithData(data)`, with `now` the reading of `Date.now()`. */
  function RespondWithData<D>(now: int, data: D): (r: Envelope<D>)
    ensures r.success && Discriminated(r)
    ensures r.timestamp == now && r.data == Some(data)
  {
    Envelope(true, now, Some(data), None)
  }

  /** `respondWithZodError(error)`: `issues` is `error.flatten()`, and `now`
      the reading of `Date.now()`. */
  function RespondWithZodError<D>(now: int, issues: Flattened): (r: Envelope<D>)
    ensures !r.success && Discriminated(r)
    ensures r.timestamp == now && r.error == Some(issues)
  {
    Envelope(false, now, None, Some(issues))
  }

  /** The closure returned by `action(validate, process)`, applied to
      `input`; `now` is the clock reading taken when the envelope is built. */
  function Action<T, D>(validate: T -> Parsed<T>, process: T -> Outcome<D>, now: int, input: T): (r: Run<T, Envelope<D>>)
    // validation runs once, on the raw input
    ensures r.validated == [input]
    // the processing function runs once, on the validated value, exactly when validation succeeds
    ensures r.processed == if validate(input).Valid? then [validate(input).value] else []
    // whatever the wrapper resolves with is a well-formed envelope stamped with the clock reading
    ensures r.completion.Normal? ==> Discriminated(r.completion.value) && r.completion.value.timestamp == now
    // an error envelope exactly when validation fails, carrying the flattened error
    ensures (r.completion.Normal? && !r.completion.value.success) <==> validate(input).Invalid?
    ensures validate(input).Invalid? ==> r.completion.value.error == Some(validate(input).error)
    // a success envelope exactly when the processing function resolves, carrying its value verbatim
    ensures (r.completion.Normal? && r.completion.value.success) <==>
      (validate(input).Valid? && process(validate(input).value).Returned?)
    ensures r.completion.Normal? && r.completion.value.success ==>
      r.completion.value.data == Some(process(validate(input).value).data)
    // a throw exactly when the processing function throws: masked, with the original logged once
    ensures r.completion.Thrown? <==> (validate(input).Valid? && process(validate(input).value).Threw?)
    ensures r.completion.Thrown? ==>
      r.completion.exception == MASKED && r.logged == [process(validate(input).value).error]
    ensures r.completion.Normal? ==> r.logged == []
  {
    var validation := validate(input);
    if validation.Invalid? then
      Run(Normal(RespondWithZodError(now, validation.error)), [input], [], [])
    else
      match process(validation.value)
      case Returned(responseDto) => Run(Normal(RespondWithData(now, responseDto)), [input], [validation.value], [])
      case Threw(e) => Run(Thrown(MASKED), [input], [validation.value], [e])
  }

  /** What the caller sees of a failing processing function does not depend
      on what it threw. */
  lemma ActionMasksThrows<T, D>(validate: T -> Parsed<T>, process1: T -> Outcome<D>, process2: T -> Outcome<D>, now: int, input: T)
    requires validate(input).Valid?
    requires process1(validate(input).value).Threw? && process2(validate(input).value).Threw?
    ensures Action(validate, process1, now, input).completion == Action(validate, process2, now, input).completion
  {
  }

  /** `action` never rejects with a validation error: a failed validation is
      answered, and every rejection is the generic one. */
  lemma ActionNeverThrowsValidation<T, D>(validate: T -> Parsed<T>, process: T -> Outcome<D>, now: int, input: T)
    ensures Action(validate, process, now, input).completion.Thrown? ==>
      Action(validate, process, now, input).completion.exception.Error? &&
      Action(validate, process, now, input).completion.exception.message == INTERNAL_SERVER_ERROR
  {
  }
}
