/** `ServerFormAction(validator, action)`: answers invalid input with its
    flattened validation error instead of throwing; valid input is handed,
    already validated, to `ServerAction(validator, action)`, which validates
    it a second time. */
module ServerFormActionWrapper {
  import opened ValidationErrors
  import opened Invocation
  import opened ServerActionWrapper
  import ActionEnvelope

  /** The resolved value `{ data, validationError }`; an `undefined`
      property is `None`. */
  datatype FormResponse<D> = FormResponse(data: Option<D>, validationError: Option<Flattened>)

  /** `{ validationError: undefined, ...responseDto }` for a resolved
      delegate; a rejection passes through unchanged. */
  function Spread<T, D>(validated: seq<T>, inner: Run<T, DataResponse<D>>): (r: Run<T, FormResponse<D>>)
    ensures r.processed == inner.processed && r.logged == inner.logged
    ensures r.validated == validated + inner.validated
    ensures r.completion.Normal? <==> inner.completion.Normal?
    ensures inner.completion.Normal? ==> r.completion.value == FormResponse(Some(inner.completion.value.data), None)
    ensures inner.completion.Thrown? ==> r.completion == Thrown(inner.completion.exception)
  {
    var completion := match inner.completion
      case Normal(responseDto) => Normal(FormResponse(Some(responseDto.data), None))
      case Thrown(e) => Thrown(e);
    Run(completion, validated + inner.validated, inner.processed, inner.logged)
  }

  /** The closure returned by `ServerFormAction(validate, process)`, applied
      to `input`, as written: the validated value goes through
      `ServerAction`, so through `validate` once more. */
  function ServerFormAction<T, D>(validate: T -> Parsed<T>, process: T -> Outcome<D>, input: T): (r: Run<T, FormResponse<D>>)
    // invalid input is answered with its flattened error; no throw, no processing
    ensures validate(input).Invalid? <==> (r.completion.Normal? && r.completion.value.validationError.Some?)
    ensures validate(input).Invalid? ==>
      r.completion == Normal(FormResponse(None, Some(validate(input).error))) &&
      r.validated == [input] && r.processed == [] && r.logged == []
    // valid input is delegated to ServerAction on the validated value, so it is validated twice
    ensures validate(input).Valid? ==>
      r.validated == [input, validate(input).value] &&
      r.processed == ServerAction(validate, process, validate(input).value).processed &&
      r.logged == ServerAction(validate, process, validate(input).value).logged
    // ... and answers as that delegate: its `data` with `validationError` undefined, or its rejection
    ensures validate(input).Valid? ==>
      var inner := ServerAction(validate, process, validate(input).value);
      (inner.completion.Normal? ==> r.completion == Normal(FormResponse(Some(inner.completion.value.data), None))) &&
      (inner.completion.Thrown? ==> r.completion == Thrown(inner.completion.exception))
    // the processing function runs at most once
    ensures |r.processed| <= 1
  {
    var parsed := validate(input);
    if parsed.Invalid? then
      Run(Normal(FormResponse(None, Some(parsed.error))), [input], [], [])
    else
      Spread([input], ServerAction(validate, process, parsed.value))
  }

  /** When validating the validated value accepts it unchanged (as for a
      schema without transforms), the valid path resolves with
      `validationError` undefined and the processing function's value, or
      rejects with the generic error; the processing function runs exactly
      once, on the validated value. */
  lemma {:induction false} ServerFormActionValidPath<T, D>(validate: T -> Parsed<T>, process: T -> Outcome<D>, input: T)
    requires validate(input).Valid?
    requires validate(validate(input).value) == validate(input)
    ensures var r := ServerFormAction(validate, process, input);
      var v := validate(input).value;
      r.processed == [v] &&
      (process(v).Returned? ==> r.completion == Normal(FormResponse(Some(process(v).data), None)) && r.logged == []) &&
      (process(v).Threw? ==> r.completion == Thrown(MASKED) && r.logged == [process(v).error])
  {
    var v := validate(input).value;
    var inner := ServerAction(validate, process, v);
    assert inner.completion == Guarded(process, v).completion;
  }

  /** Without that assumption the valid path can reject with a validation
      error: a schema that accepts even numbers and adds one to them accepts
      `0` as `1`, then rejects `1` on the second validation; the processing
      function never runs and the zod error escapes unmasked. */
  function AddOneToEven(x: int): Parsed<int> {
    if x % 2 == 0 then Valid(x + 1)
    else Invalid(Flattened([], [FieldEntry("n", Some(["Expected an even number"]))]))
  }

  function Echo(x: int): Outcome<int> {
    Returned(x)
  }

  lemma RevalidationRejectsValidInput()
    ensures AddOneToEven(0).Valid?
    ensures ServerFormAction(AddOneToEven, Echo, 0).completion == Thrown(ZodError(AddOneToEven(1).error))
    ensures ServerFormAction(AddOneToEven, Echo, 0).processed == []
    ensures ServerFormActionSingleParse(AddOneToEven, Echo, 0).completion == Normal(FormResponse(Some(1), None))
  {
  }

  /** The intended behaviour: the validated value goes straight to the
      guarded processing call, so input is validated once. */
  function ServerFormActionSingleParse<T, D>(validate: T -> Parsed<T>, process: T -> Outcome<D>, input: T): (r: Run<T, FormResponse<D>>)
    // validation runs once, on the raw input
    ensures r.validated == [input]
    // invalid input is answered with its flattened error; no throw, no processing
    ensures validate(input).Invalid? ==>
      r.completion == Normal(FormResponse(None, Some(validate(input).error))) && r.processed == [] && r.logged == []
    // valid input: exactly one processing call, on the validated value
    ensures validate(input).Valid? ==> r.processed == [validate(input).value]
    // it never rejects with a validation error; every rejection is the generic one
    ensures r.completion.Thrown? ==> r.completion.exception == MASKED
    ensures r.completion.Normal? ==>
      (r.completion.value.data.Some? <==> r.completion.value.validationError.None?)
  {
    var parsed := validate(input);
    if parsed.Invalid? then
      Run(Normal(FormResponse(None, Some(parsed.error))), [input], [], [])
    else
      Spread([input], Guarded(process, parsed.value))
  }

  /** Where re-validation changes nothing, the code as written and the
      single-validation version are alike in everything but the second
      validation. */
  lemma {:induction false} SingleParseAgrees<T, D>(validate: T -> Parsed<T>, process: T -> Outcome<D>, input: T)
    requires validate(input).Invalid? || validate(validate(input).value) == validate(input)
    ensures ServerFormAction(validate, process, input).completion == ServerFormActionSingleParse(validate, process, input).completion
    ensures ServerFormAction(validate, process, input).processed == ServerFormActionSingleParse(validate, process, input).processed
    ensures ServerFormAction(validate, process, input).logged == ServerFormActionSingleParse(validate, process, input).logged
  {
    if validate(input).Valid? {
      ServerFormActionValidPath(validate, process, input);
    }
  }

  /** A form action answers exactly as `action` does, the envelope's
      `success`, `data` and `error` becoming `data` and `validationError`,
      and a rejection being the same rejection. */
  lemma {:induction false} SingleParseMatchesAction<T, D>(validate: T -> Parsed<T>, process: T -> Outcome<D>, now: int, input: T)
    ensures var form := ServerFormActionSingleParse(validate, process, input);
      var envelope := ActionEnvelope.Action(validate, process, now, input);
      form.processed == envelope.processed && form.logged == envelope.logged &&
      (form.completion.Thrown? <==> envelope.completion.Thrown?) &&
      (form.completion.Thrown? ==> form.completion.exception == envelope.completion.exception) &&
      (form.completion.Normal? ==>
        form.completion.value.data == envelope.completion.value.data &&
        form.completion.value.validationError == envelope.completion.value.error)
  {
    var form := ServerFormActionSingleParse(validate, process, input);
    var envelope := ActionEnvelope.Action(validate, process, now, input);
    if validate(input).Valid? {
      var v := validate(input).value;
      assert form.completion == Spread([input], Guarded(process, v)).completion;
    }
  }
}
