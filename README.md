# safe-server-action in Dafny

A model of the core of `safe-server-action`, a small TypeScript library for
Next.js server actions. The model has two parts.

- **The error applicator** (`applyServerErrors`) writes a flattened
  validation-error set into a `react-hook-form` form through `setError`
  calls. Form-level messages go to `"root"` first. The fields are then
  visited in reverse key-enumeration order, so the first field is written
  last and ends up focused. Entries that are `undefined` are skipped. The
  form is the class `ServerErrors.FormState`. It holds the stored message per
  key, the focused key, and a ghost log of the calls. `ApplyServerErrors`
  runs the loop `SetErrors` for `"root"`, then the loop `SetFieldErrors`
  over the fields, which runs `SetErrors` for each defined field. These
  methods are proved against three specification
  functions: `Calls`, the calls the source makes; `Replay`, their effect on
  the stored messages; and `FocusAfter`, their effect on the focus. The
  lemmas then prove what the source promises about those functions.
- **The action wrappers** (`action`, `ServerAction`, `ServerFormAction`).
  Each one validates the input, calls the processing function on the
  validated value, and wraps its result. A throw from the processing
  function is logged and replaced by `Error("Internal Server Error")`.
  Validation (`safeParse`/`parse` followed by `flatten`) and the processing
  function are function parameters. The clock reading `Date.now()` is the
  parameter `now`. A JavaScript rejection is the `Thrown` variant of
  `Completion`. Each wrapper returns a `Run`, which records four things:
  - how the call ended;
  - the value of each call to validation;
  - the value of each call to the processing function;
  - what was passed to `console.error`.

Files: `validation_errors.dfy` (the error-set shape, `Object.keys`, property
lookup, `reverse`), `apply_server_errors.dfy`, `invocation.dfy` (the types
the wrappers share), `action.dfy`, `server_action.dfy`,
`server_form_action.dfy`.

Three points of the code's behaviour that the model makes explicit:

- **Focus order.** With field entries `email` then `name`, the calls are
  made for `name` first and `email` last, so `email` keeps the focus
  (`ServerErrors.ExampleFirstFieldFocused`).
- **Failing processing function.** Every wrapper then rejects with
  `Error("Internal Server Error")`; none of them resolves with a
  `success: false` envelope.
- **Timestamp.** `now` is the clock reading taken when the envelope is
  built, which on the success path is after processing.

## Model

| member | source | states |
|---|---|---|
| ValidationErrors.Keys | src/lib/applyServerErrors.ts:26 | `Object.keys` is represented by the entries' names in sequence order; its contract states only that there is one name per entry |
| ValidationErrors.Lookup | src/lib/applyServerErrors.ts:27 | a name that is no key of the object reads as `undefined` |
| ValidationErrors.LookupAt | src/lib/applyServerErrors.ts:27 | with distinct keys, reading a key's property yields exactly that entry's value |
| ValidationErrors.ReversedAt | src/lib/applyServerErrors.ts:26 | `reverse` puts the i-th element from the end at position i |
| ServerErrors.FormState.SetError | src/lib/applyServerErrors.ts:18-22 | `setError` overwrites the key's message, moves focus to the key when asked, and logs the call |
| ServerErrors.MessageCalls | src/lib/applyServerErrors.ts:29-35 | one call per message |
| ServerErrors.MessageCallsAt | src/lib/applyServerErrors.ts:29-35 | call `i` writes message `i` of the list to the same key and requests focus |
| ServerErrors.SetErrors | src/lib/applyServerErrors.ts:17-23 | the inner loop leaves the form as applying the per-message calls, in order, to its old state |
| ServerErrors.ApplyServerErrors | src/lib/applyServerErrors.ts:13-37 | the log grows by exactly `Calls(errors)`, and stored messages and focus are the effect of those calls on the old state |
| ServerErrors.SetFieldErrors | src/lib/applyServerErrors.ts:25-36 | the loop over the reversed keys leaves the form as making the field-level calls, in order, on its old state |
| ServerErrors.KeyInReverse | src/lib/applyServerErrors.ts:26-27 | iteration `j` takes the name of the entry `j` places from the end, and reading that property yields that entry's value |
| ServerErrors.FieldsAfterCalls | src/lib/applyServerErrors.ts:26-35 | visiting the entries from the last to the first, each making its own calls, makes exactly the field-level calls |
| ServerErrors.RootCallsFirst | src/lib/applyServerErrors.ts:17-23 | the first calls, one per form-level message, are the form-level messages on `"root"`, in order, and every later call targets a field |
| ServerErrors.FieldCallsTargetKeys | src/lib/applyServerErrors.ts:26-35 | every field-level call targets a key of the set and requests focus |
| ServerErrors.FieldsVisitedInReverse | src/lib/applyServerErrors.ts:26 | of two calls, the later one targets a field enumerated no later than the earlier one's field |
| ServerErrors.CallsPerField | src/lib/applyServerErrors.ts:27-35 | each field receives exactly its own messages, in list order, and an `undefined` field receives none |
| ServerErrors.CallsPerKey | src/lib/applyServerErrors.ts:17-35 | the messages written to `"root"` are `formErrors`, and those written to a field are its list or nothing |
| ServerErrors.EveryCallFocuses | src/lib/applyServerErrors.ts:21 | every call requests focus (also line 33) |
| ServerErrors.CallCount | src/lib/applyServerErrors.ts:17-36 | the number of calls is the number of form-level messages plus the lengths of the defined field lists |
| ServerErrors.NoMessagesInFields | src/lib/applyServerErrors.ts:27-29 | the field lists hold no message exactly when each is `undefined` or empty |
| ServerErrors.EmptySetIsNoOp | src/lib/applyServerErrors.ts:17-36 | no call is made exactly when the set holds no message, and then messages and focus are unchanged |
| ServerErrors.FirstFieldFocused | src/lib/applyServerErrors.ts:7-8 | when a field has a message, the last call targets the first such field in enumeration order, and it ends up focused |
| ServerErrors.RootFocusedWithoutFieldMessages | src/lib/applyServerErrors.ts:17-23 | with form-level messages and no field message, the focus ends on `"root"` |
| ServerErrors.StoredMessageIsLast | src/lib/applyServerErrors.ts:29-35 | under overwrite semantics, each key ends up holding the last message written to it, or keeps its old message when nothing was written |
| ServerErrors.ApplyTwiceIsApplyOnce | src/lib/applyServerErrors.ts:17-36 | under overwrite semantics, applying the same set twice gives the same messages and focus as applying it once |
| ServerErrors.ReplayTwice | src/lib/applyServerErrors.ts:18-22 | replaying the same overwriting calls a second time changes no stored message |
| ServerErrors.FocusAfterTwice | src/lib/applyServerErrors.ts:21 | replaying the same focusing calls a second time leaves the focus where it was |
| ServerErrors.ExampleFirstFieldFocused | src/lib/applyServerErrors.ts:7-8 | with `["A"]` and fields `email`, `name`, the calls are `root`, `name`, `email`, and `email` is focused |
| ActionEnvelope.RespondWithData | src/lib/action.ts:63-69 | a success envelope carrying the data verbatim, the clock reading, and no error |
| ActionEnvelope.RespondWithZodError | src/lib/action.ts:83-97 | a failure envelope carrying the flattened error, the clock reading, and no data |
| ActionEnvelope.Action | src/lib/action.ts:36-49 | validation runs once on the raw input; an error envelope exactly when it fails, with no processing; otherwise a single processing call on the validated value; a success envelope with its value when it resolves; a masked throw, with the original logged once, when it throws; every envelope discriminated and timestamped |
| ActionEnvelope.ActionMasksThrows | src/lib/action.ts:46-48 | the wrapper's rejection does not depend on what the processing function threw |
| ActionEnvelope.ActionNeverThrowsValidation | src/lib/action.ts:38-39 | `action` rejects only with the generic "Internal Server Error" |
| ServerActionWrapper.Guarded | src/lib/ServerAction.ts:24-32 | one processing call; `{ data }` with its value when it resolves, otherwise the masked error with the original logged once |
| ServerActionWrapper.ServerAction | src/lib/ServerAction.ts:20-33 | invalid input rejects with its zod error unmasked, with no processing and no logging; valid input is processed once, on the parsed value, under the guard |
| ServerActionWrapper.ServerActionOutcomes | src/lib/ServerAction.ts:20-33 | the only outcomes are `{ data }` from the processing function, the input's zod error, or the generic error after logging; a zod rejection happens exactly when the input is invalid |
| ServerActionWrapper.ServerActionMasksThrows | src/lib/ServerAction.ts:29-32 | the rejection does not depend on what the processing function threw |
| ServerFormActionWrapper.Spread | src/lib/ServerFormAction.ts:37-38 | the delegate's `data` is kept with `validationError` undefined; a delegate rejection passes through unchanged, and so does the trace |
| ServerFormActionWrapper.ServerFormAction | src/lib/ServerFormAction.ts:26-39 | invalid input resolves with its flattened error, never throws and never processes; valid input is validated a second time by `ServerAction`, and the call resolves with the delegate's `data` and `validationError` undefined, or rejects with the delegate's rejection; the processing function runs at most once |
| ServerFormActionWrapper.ServerFormActionValidPath | src/lib/ServerFormAction.ts:37-38 | if re-validating the validated value accepts it unchanged, the valid path processes it exactly once and resolves with its data or rejects with the generic error |
| ServerFormActionWrapper.RevalidationRejectsValidInput | src/lib/ServerFormAction.ts:37 | a schema that adds one to an even number accepts `0`, yet the form action rejects with a zod error and never processes |
| ServerFormActionWrapper.ServerFormActionSingleParse | src/lib/ServerFormAction.ts:26-39 | the corrected form action validates once; invalid input resolves with its error, valid input is processed once, and every rejection is the generic error |
| ServerFormActionWrapper.SingleParseAgrees | src/lib/ServerFormAction.ts:28-37 | where re-validation accepts the value unchanged, the form action as written and the corrected one agree in outcome, processing and logging |
| ServerFormActionWrapper.SingleParseMatchesAction | src/lib/ServerFormAction.ts:8-10 | the corrected form action answers as `action` does: `data` and `validationError` in place of the envelope's `data` and `error`, the same rejection, and the same processing and logging |

## Left out

- zod itself: `safeParse`, `parse`, `flatten`, and the schema in `src/app/_Form/CreateUserDTO.ts`. Validation is a function parameter that returns the validated value or the already flattened error. It never throws, as zod's `safeParse` promises.
- The invariant that a failed validation always carries a non-empty error set: it depends on zod's `flatten`, which is not modelled. The applicator is modelled for every possible set, the empty one included.
- react-hook-form: what `setError` renders and how it moves the DOM focus. Only overwrite-and-focus is modelled. The error object's constant `type: "manual"` and `types` fields are left out.
- `async`/`await`: a promise becomes its settled value (`Normal` or `Thrown`). A thrown error is a value of `Exception`, which covers zod errors and `Error` messages, not arbitrary thrown values.
- `console.error` output: only the logged values are recorded, in the `Run` trace.
- `Date.now()`: it is the parameter `now`, the reading taken when the envelope is built.
- A throw from `safeParse` or `flatten` inside `action`'s `try`: validation is total in the model, so that catch path only handles processing failures.
- The UI and wiring in `src/app/` (`Form.tsx`, `page.tsx`, `QueryClientWrapper.tsx`, `createUserAction.ts`, with its random delay and `crypto.randomUUID`). This includes `Form.tsx` reading `validationError` from an action built with `ServerAction`, which has no such field.
- ServerErrors.StoredMessageIsLast, ServerErrors.CallsPerKey: `Root` and a field named `"root"` are two keys in the model, while react-hook-form stores `setError("root", …)` and `setError` on a field named `"root"` under the same path. For `Flattened(["A"], [FieldEntry("root", Some(["B"]))])` the program ends with `"B"` under `"root"`, where the model keeps `"A"` and `"B"` apart. This collision is not modelled.
- ServerErrors.ApplyServerErrors: a key enumerated twice cannot occur in a JavaScript object, so the method requires distinct field names.

## Findings

| source | as written | input that shows it | evidently intended | confidence | as-written member | corrected member |
|---|---|---|---|---|---|---|
| src/lib/ServerFormAction.ts:37 | the validated value is passed to `ServerAction`, which parses it again, outside its `try` | a schema that accepts even numbers and outputs `x + 1` (any transform whose output its own schema rejects), input `0`: the first parse accepts it as `1`, the second rejects `1`, and the form action rejects with a raw zod error without processing | input that passes validation is processed once, and a form action never rejects with a validation error | low: only schemas whose output fails their own validation are affected, and the repository's schema is not one of them; not executed | ServerFormActionWrapper.RevalidationRejectsValidInput | ServerFormActionWrapper.ServerFormActionSingleParse |
