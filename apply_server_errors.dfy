/** `applyServerErrors`: writes a flattened error set into a form through
    `setError` calls. Form-level messages go to `"root"` first; then the
    fields are visited in reverse key order, so that the first field is
    written last and ends up focused. */
module ServerErrors {
  import opened ValidationErrors

  /** The target of a `setError` call: the whole form (`"root"`) or a field. */
  datatype Key = Root | Field(name: string)

  /** One call `form.setError(key, { type: "manual", message }, { shouldFocus })`. */
  datatype Call = Call(key: Key, message: string, shouldFocus: bool)

  /** The form state that `setError` changes: the stored message per key,
      the focused key, and (for the proofs) every call made so far. */
  class FormState {
    var errors: map<Key, string>
    var focused: Option<Key>
    ghost var log: seq<Call>

    constructor ()
      ensures errors == map[] && focused == None && log == []
    {
      errors := map[];
      focused := None;
      log := [];
    }

    ghost function Current(): Snapshot
      reads this
    {
      Snapshot(errors, focused, log)
    }

    /** Overwrites the message stored under `key` and, when asked to, moves
        the focus to `key`. */
    method SetError(key: Key, message: string, shouldFocus: bool)
      modifies this
      ensures errors == old(errors)[key := message]
      ensures focused == if shouldFocus then Some(key) else old(focused)
      ensures log == old(log) + [Call(key, message, shouldFocus)]
    {
      errors := errors[key := message];
      if shouldFocus {
        focused := Some(key);
      }
      log := log + [Call(key, message, shouldFocus)];
    }
  }

  /** The three parts of a form state, as one value. */
  datatype Snapshot = Snapshot(errors: map<Key, string>, focused: Option<Key>, log: seq<Call>)

  // ---------------------------------------------------------------------
  // Specification: the calls made and their effect on the form state
  // ---------------------------------------------------------------------

  /** One focusing call per message, in the list's order. */
  function MessageCalls(key: Key, messages: seq<string>): (calls: seq<Call>)
    ensures |calls| == |messages|
  {
    if messages == [] then [] else [Call(key, messages[0], true)] + MessageCalls(key, messages[1..])
  }

  /** Call `i` writes message `i` to the key, with focus. */
  lemma {:induction false} MessageCallsAt(key: Key, messages: seq<string>, i: nat)
    requires i < |messages|
    ensures MessageCalls(key, messages)[i] == Call(key, messages[i], true)
  {
    if i > 0 {
      MessageCallsAt(key, messages[1..], i - 1);
    }
  }

  /** The calls for one field entry; none when its value is `undefined`. */
  function EntryCalls(entry: FieldEntry): seq<Call> {
    MessageCalls(Field(entry.name), OrEmpty(entry.messages))
  }

  /** The field-level calls: the entries taken from the last enumerated to
      the first. */
  function FieldCalls(fields: seq<FieldEntry>): seq<Call> {
    if fields == [] then [] else FieldCalls(fields[1..]) + EntryCalls(fields[0])
  }

  /** Every call `applyServerErrors` makes for `errors`, in order. */
  function Calls(errors: Flattened): seq<Call> {
    MessageCalls(Root, errors.formErrors) + FieldCalls(errors.fieldErrors)
  }

  /** The stored messages after `calls`, each call overwriting its key. */
  function Replay(errors: map<Key, string>, calls: seq<Call>): map<Key, string> {
    if calls == [] then errors
    else
      var last := calls[|calls| - 1];
      Replay(errors, calls[..|calls| - 1])[last.key := last.message]
  }

  /** The focused key after `calls`: the key of the last focusing call. */
  function FocusAfter(focused: Option<Key>, calls: seq<Call>): Option<Key> {
    if calls == [] then focused
    else if calls[|calls| - 1].shouldFocus then Some(calls[|calls| - 1].key)
    else FocusAfter(focused, calls[..|calls| - 1])
  }

  /** The messages written to `key` by `calls`, in call order. */
  function MessagesFor(calls: seq<Call>, key: Key): seq<string> {
    if calls == [] then []
    else
      var last := calls[|calls| - 1];
      MessagesFor(calls[..|calls| - 1], key) + (if last.key == key then [last.message] else [])
  }

  /** The message stored under `key`, if any. */
  function Get(errors: map<Key, string>, key: Key): Option<string> {
    if key in errors then Some(errors[key]) else None
  }

  /** How many messages the defined field lists hold together. */
  function TotalMessages(fields: seq<FieldEntry>): nat {
    if fields == [] then 0 else |OrEmpty(fields[0].messages)| + TotalMessages(fields[1..])
  }

  // ---------------------------------------------------------------------
  // The looping methods, proved against the specification
  // ---------------------------------------------------------------------

  /** `applyServerErrors(form, errors)`: the form-level messages on `"root"`,
      then the field-level ones; the calls made and their effect are exactly
      `Calls(errors)`. */
  method ApplyServerErrors(form: FormState, errors: Flattened)
    requires DistinctNames(errors.fieldErrors)
    modifies form
    ensures form.log == old(form.log) + Calls(errors)
    ensures form.errors == Replay(old(form.errors), Calls(errors))
    ensures form.focused == FocusAfter(old(form.focused), Calls(errors))
  {
    ghost var start := form.Current();
    SetErrors(form, Root, errors.formErrors);
    SetFieldErrors(form, errors.fieldErrors);
    AfterComposes(start, MessageCalls(Root, errors.formErrors), FieldCalls(errors.fieldErrors));
  }

  /** The loop over the reversed keys of `fieldErrors`, skipping `undefined`
      entries and writing every message of the others. */
  method SetFieldErrors(form: FormState, fieldErrors: seq<FieldEntry>)
    requires DistinctNames(fieldErrors)
    modifies form
    ensures form.Current() == After(old(form.Current()), FieldCalls(fieldErrors))
  {
    ghost var start := form.Current();
    var names := Reversed(Keys(fieldErrors));
    for j := 0 to |names|
      invariant |names| == |fieldErrors|
      invariant form.Current() == FieldsAfter(start, fieldErrors[|fieldErrors| - j..])
    {
      var fieldName := names[j];
      var fieldMessages := Lookup(fieldErrors, fieldName);
      KeyInReverse(fieldErrors, names, j);
      SuffixStep(start, fieldErrors, j);
      if fieldMessages.None? {
        AfterEmpty(form.Current());
        continue;
      }
      SetErrors(form, Field(fieldName), fieldMessages.value);
    }
    assert fieldErrors[0..] == fieldErrors;
    FieldsAfterCalls(start, fieldErrors);
  }

  /** The form state once `fields` have been visited, from the last one to
      the first. */
  ghost function FieldsAfter(start: Snapshot, fields: seq<FieldEntry>): Snapshot {
    if fields == [] then start else After(FieldsAfter(start, fields[1..]), EntryCalls(fields[0]))
  }

  /** Visiting the entries makes exactly their field-level calls. */
  lemma {:induction false} FieldsAfterCalls(start: Snapshot, fields: seq<FieldEntry>)
    ensures FieldsAfter(start, fields) == After(start, FieldCalls(fields))
  {
    if fields == [] {
      AfterEmpty(start);
    } else {
      FieldsAfterCalls(start, fields[1..]);
      AfterComposes(start, FieldCalls(fields[1..]), EntryCalls(fields[0]));
    }
  }

  /** Step `j` of the loop visits entry `|fields| - 1 - j` after the ones
      behind it. */
  lemma {:induction false} SuffixStep(start: Snapshot, fields: seq<FieldEntry>, j: nat)
    requires j < |fields|
    ensures FieldsAfter(start, fields[|fields| - 1 - j..]) ==
      After(FieldsAfter(start, fields[|fields| - j..]), EntryCalls(fields[|fields| - 1 - j]))
  {
    var i := |fields| - 1 - j;
    assert fields[i..][1..] == fields[i + 1..];
  }

  /** No call leaves the state as it was. */
  lemma {:induction false} AfterEmpty(state: Snapshot)
    ensures After(state, []) == state
  {
    assert state.log + [] == state.log;
  }

  /** Step `j` of the loop over the reversed keys finds the entry
      `|fields| - 1 - j`. */
  lemma {:induction false} KeyInReverse(fields: seq<FieldEntry>, names: seq<string>, j: nat)
    requires DistinctNames(fields)
    requires names == Reversed(Keys(fields))
    requires j < |names|
    ensures |names| == |fields|
    ensures names[j] == fields[|fields| - 1 - j].name
    ensures Lookup(fields, names[j]) == fields[|fields| - 1 - j].messages
  {
    ReversedKeysAt(fields, j);
    LookupAt(fields, |fields| - 1 - j);
  }

  /** Name `j` of the reversed keys is the name of entry `|fields| - 1 - j`. */
  lemma {:induction false} ReversedKeysAt(fields: seq<FieldEntry>, j: nat)
    requires j < |fields|
    ensures Reversed(Keys(fields))[j] == fields[|fields| - 1 - j].name
  {
    var i := |fields| - 1 - j;
    ReversedAt(Keys(fields), j);
    assert Reversed(Keys(fields))[j] == Keys(fields)[i];
    KeysAt(fields, i);
  }

  /** The loop writing each message of one list to one key, with focus;
      `applyServerErrors` runs it for `"root"` and for each defined field. */
  method SetErrors(form: FormState, key: Key, messages: seq<string>)
    modifies form
    ensures form.Current() == After(old(form.Current()), MessageCalls(key, messages))
  {
    ghost var start := form.Current();
    assert messages[..0] == [] && start.log + [] == start.log;
    for k := 0 to |messages|
      invariant form.Current() == After(start, MessageCalls(key, messages[..k]))
    {
      var message := messages[k];
      form.SetError(key, message, true);
      MessageCallsExtend(key, messages, k);
      AfterOneMore(start, MessageCalls(key, messages[..k]), Call(key, message, true));
    }
    assert messages[..|messages|] == messages;
  }

  /** The state after `calls`: each call overwrites its key, moves the focus
      when it asks to, and is logged. */
  ghost function After(state: Snapshot, calls: seq<Call>): Snapshot {
    Snapshot(Replay(state.errors, calls), FocusAfter(state.focused, calls), state.log + calls)
  }

  /** One more `setError` call moves the state on by that call. */
  lemma {:induction false} AfterOneMore(state: Snapshot, calls: seq<Call>, call: Call)
    ensures var before := After(state, calls);
      After(state, calls + [call]) ==
        Snapshot(before.errors[call.key := call.message],
                 if call.shouldFocus then Some(call.key) else before.focused,
                 before.log + [call])
  {
    assert (calls + [call])[..|calls|] == calls;
  }

  /** Making calls `a` and then calls `b` is making calls `a + b`. */
  lemma {:induction false} AfterComposes(state: Snapshot, a: seq<Call>, b: seq<Call>)
    ensures After(After(state, a), b) == After(state, a + b)
  {
    ReplayComposes(state.errors, state.focused, a, b);
    ConcatAssoc(state.log, a, b);
  }

  lemma {:induction false} ConcatAssoc<T>(a: seq<T>, b: seq<T>, c: seq<T>)
    ensures (a + b) + c == a + (b + c)
  {
  }

  /** Replaying `a + b` is replaying `a` and then `b`. */
  lemma {:induction false} ReplayComposes(errors: map<Key, string>, focused: Option<Key>, a: seq<Call>, b: seq<Call>)
    ensures Replay(errors, a + b) == Replay(Replay(errors, a), b)
    ensures FocusAfter(focused, a + b) == FocusAfter(FocusAfter(focused, a), b)
  {
    if b == [] {
      assert a + b == a;
    } else {
      assert (a + b)[..|a + b| - 1] == a + b[..|b| - 1];
      ReplayComposes(errors, focused, a, b[..|b| - 1]);
    }
  }

  lemma {:induction false} MessageCallsExtend(key: Key, messages: seq<string>, k: nat)
    requires k < |messages|
    ensures MessageCalls(key, messages[..k + 1]) == MessageCalls(key, messages[..k]) + [Call(key, messages[k], true)]
  {
    var a := MessageCalls(key, messages[..k + 1]);
    var b := MessageCalls(key, messages[..k]) + [Call(key, messages[k], true)];
    assert |a| == |b|;
    forall i | 0 <= i < |a| ensures a[i] == b[i] {
      MessageCallsAt(key, messages[..k + 1], i);
      if i < k {
        MessageCallsAt(key, messages[..k], i);
      }
    }
  }

  // ---------------------------------------------------------------------
  // General facts about Replay, FocusAfter and MessagesFor
  // ---------------------------------------------------------------------

  lemma {:induction false} MessagesForAppend(a: seq<Call>, b: seq<Call>, key: Key)
    ensures MessagesFor(a + b, key) == MessagesFor(a, key) + MessagesFor(b, key)
  {
    if b == [] {
      assert a + b == a;
    } else {
      assert (a + b)[..|a + b| - 1] == a + b[..|b| - 1];
      MessagesForAppend(a, b[..|b| - 1], key);
    }
  }

  lemma {:induction false} MessagesForMessageCalls(target: Key, messages: seq<string>, key: Key)
    ensures MessagesFor(MessageCalls(target, messages), key) == if target == key then messages else []
  {
    if messages != [] {
      var first := Call(target, messages[0], true);
      assert MessageCalls(target, messages) == [first] + MessageCalls(target, messages[1..]);
      MessagesForAppend([first], MessageCalls(target, messages[1..]), key);
      assert [first][..0] == [];
      MessagesForMessageCalls(target, messages[1..], key);
    }
  }

  /** What `key` holds after replaying `calls`: the last message written to
      it, or what it held before when nothing was written to it. */
  lemma {:induction false} ReplayAt(errors: map<Key, string>, calls: seq<Call>, key: Key)
    ensures Get(Replay(errors, calls), key) ==
      var written := MessagesFor(calls, key);
      if written == [] then Get(errors, key) else Some(written[|written| - 1])
  {
    if calls != [] {
      ReplayAt(errors, calls[..|calls| - 1], key);
    }
  }

  /** Replaying the same calls a second time changes no stored message. */
  lemma {:induction false} ReplayTwice(errors: map<Key, string>, calls: seq<Call>)
    ensures Replay(Replay(errors, calls), calls) == Replay(errors, calls)
  {
    var once := Replay(errors, calls);
    var twice := Replay(once, calls);
    forall key ensures Get(twice, key) == Get(once, key) {
      ReplayAt(errors, calls, key);
      ReplayAt(once, calls, key);
    }
    SameEntries(twice, once);
  }

  lemma {:induction false} SameEntries(a: map<Key, string>, b: map<Key, string>)
    requires forall key :: Get(a, key) == Get(b, key)
    ensures a == b
  {
    forall key | key in a ensures key in b && a[key] == b[key] {
      assert Get(a, key) == Get(b, key);
    }
    forall key | key in b ensures key in a {
      assert Get(a, key) == Get(b, key);
    }
  }

  /** Replaying the same calls a second time leaves the focus where it was. */
  lemma {:induction false} FocusAfterTwice(focused: Option<Key>, calls: seq<Call>)
    ensures FocusAfter(FocusAfter(focused, calls), calls) == FocusAfter(focused, calls)
  {
    FocusAfterCases(focused, calls);
  }

  /** Either no call moves the focus, or the focus afterwards does not
      depend on where it was before. */
  lemma {:induction false} FocusAfterCases(focused: Option<Key>, calls: seq<Call>)
    ensures FocusAfter(focused, calls) == focused ||
      forall other :: FocusAfter(other, calls) == FocusAfter(focused, calls)
  {
    if calls != [] {
      var prefix := calls[..|calls| - 1];
      forall other ensures FocusAfter(other, calls) ==
        if calls[|calls| - 1].shouldFocus then Some(calls[|calls| - 1].key) else FocusAfter(other, prefix)
      {
      }
      if !calls[|calls| - 1].shouldFocus {
        FocusAfterCases(focused, prefix);
        if FocusAfter(focused, prefix) != focused {
          forall other ensures FocusAfter(other, calls) == FocusAfter(focused, calls) {
            assert FocusAfter(other, prefix) == FocusAfter(focused, prefix);
          }
        }
      }
    }
  }

  // ---------------------------------------------------------------------
  // Properties of the calls applyServerErrors makes
  // ---------------------------------------------------------------------

  /** Every field-level call targets a field whose name is a key of the set,
      and requests focus. */
  lemma {:induction false} FieldCallsTargetKeys(fields: seq<FieldEntry>)
    ensures forall p :: 0 <= p < |FieldCalls(fields)| ==>
      FieldCalls(fields)[p].key.Field? && FieldCalls(fields)[p].key.name in Keys(fields) &&
      FieldCalls(fields)[p].shouldFocus
  {
    if fields != [] {
      FieldCallsTargetKeys(fields[1..]);
      var rest := FieldCalls(fields[1..]);
      var own := EntryCalls(fields[0]);
      assert FieldCalls(fields) == rest + own;
      assert Keys(fields) == [fields[0].name] + Keys(fields[1..]);
      forall p | 0 <= p < |FieldCalls(fields)|
        ensures FieldCalls(fields)[p].key.Field? && FieldCalls(fields)[p].key.name in Keys(fields)
        ensures FieldCalls(fields)[p].shouldFocus
      {
        if p < |rest| {
          assert FieldCalls(fields)[p] == rest[p];
        } else {
          assert FieldCalls(fields)[p] == own[p - |rest|];
          MessageCallsAt(Field(fields[0].name), OrEmpty(fields[0].messages), p - |rest|);
        }
      }
    }
  }

  /** The form-level messages come first, one `"root"` call each in their
      own order; every later call targets a field. */
  lemma {:induction false} RootCallsFirst(errors: Flattened)
    ensures |errors.formErrors| <= |Calls(errors)|
    ensures forall p :: 0 <= p < |errors.formErrors| ==>
      Calls(errors)[p] == Call(Root, errors.formErrors[p], true)
    ensures forall p :: |errors.formErrors| <= p < |Calls(errors)| ==> Calls(errors)[p].key.Field?
  {
    var n := |errors.formErrors|;
    FieldCallsTargetKeys(errors.fieldErrors);
    forall p | 0 <= p < n ensures Calls(errors)[p] == Call(Root, errors.formErrors[p], true) {
      MessageCallsAt(Root, errors.formErrors, p);
    }
    forall p | n <= p < |Calls(errors)| ensures Calls(errors)[p].key.Field? {
      assert Calls(errors)[p] == FieldCalls(errors.fieldErrors)[p - n];
    }
  }

  /** Every call requests focus. */
  lemma {:induction false} EveryCallFocuses(errors: Flattened)
    ensures forall p :: 0 <= p < |Calls(errors)| ==> Calls(errors)[p].shouldFocus
  {
    var n := |errors.formErrors|;
    FieldCallsTargetKeys(errors.fieldErrors);
    forall p | 0 <= p < n ensures Calls(errors)[p].shouldFocus {
      MessageCallsAt(Root, errors.formErrors, p);
    }
    forall p | n <= p < |Calls(errors)| ensures Calls(errors)[p].shouldFocus {
      assert Calls(errors)[p] == FieldCalls(errors.fieldErrors)[p - n];
    }
  }

  lemma {:induction false} FieldCallCount(fields: seq<FieldEntry>)
    ensures |FieldCalls(fields)| == TotalMessages(fields)
  {
    if fields != [] {
      FieldCallCount(fields[1..]);
    }
  }

  /** One call per form-level message plus one per message of each defined
      field list. */
  lemma {:induction false} CallCount(errors: Flattened)
    ensures |Calls(errors)| == |errors.formErrors| + TotalMessages(errors.fieldErrors)
  {
    FieldCallCount(errors.fieldErrors);
  }

  lemma {:induction false} NoMessagesInFields(fields: seq<FieldEntry>)
    ensures TotalMessages(fields) == 0 <==> forall i :: 0 <= i < |fields| ==> OrEmpty(fields[i].messages) == []
  {
    if fields != [] {
      NoMessagesInFields(fields[1..]);
      if TotalMessages(fields) == 0 {
        forall i | 0 <= i < |fields| ensures OrEmpty(fields[i].messages) == [] {
          if i > 0 {
            assert fields[i] == fields[1..][i - 1];
          }
        }
      } else if OrEmpty(fields[0].messages) == [] {
        var i :| 0 <= i < |fields[1..]| && OrEmpty(fields[1..][i].messages) != [];
        assert fields[i + 1] == fields[1..][i];
      }
    }
  }

  /** A set with no messages anywhere produces no call, so it leaves the form
      unchanged; any message at all produces some call. */
  lemma {:induction false} EmptySetIsNoOp(errors: Flattened, stored: map<Key, string>, focused: Option<Key>)
    ensures Calls(errors) == [] <==>
      errors.formErrors == [] &&
      forall i :: 0 <= i < |errors.fieldErrors| ==> OrEmpty(errors.fieldErrors[i].messages) == []
    ensures Calls(errors) == [] ==>
      Replay(stored, Calls(errors)) == stored && FocusAfter(focused, Calls(errors)) == focused
  {
    CallCount(errors);
    NoMessagesInFields(errors.fieldErrors);
  }

  lemma {:induction false} FieldCallsPerKey(fields: seq<FieldEntry>, key: Key)
    requires DistinctNames(fields)
    ensures MessagesFor(FieldCalls(fields), key) ==
      match key
      case Root => []
      case Field(name) => OrEmpty(Lookup(fields, name))
  {
    if fields != [] {
      var tail := fields[1..];
      TailFacts(fields);
      FieldCallsPerKey(tail, key);
      var own := EntryCalls(fields[0]);
      assert FieldCalls(fields) == FieldCalls(tail) + own;
      MessagesForAppend(FieldCalls(tail), own, key);
      MessagesForMessageCalls(Field(fields[0].name), OrEmpty(fields[0].messages), key);
      if key.Field? && key.name == fields[0].name {
        assert Lookup(tail, key.name) == None by {
          forall i | 0 <= i < |tail| ensures tail[i].name != key.name {
            KeysAt(tail, i);
          }
        }
      }
    }
  }

  /** The messages written to each key, in order: the form-level messages for
      `"root"`, a field's own list for that field (nothing when its value is
      `undefined`), and nothing for any key the set does not mention. */
  lemma {:induction false} CallsPerKey(errors: Flattened, key: Key)
    requires DistinctNames(errors.fieldErrors)
    ensures MessagesFor(Calls(errors), key) ==
      match key
      case Root => errors.formErrors
      case Field(name) => OrEmpty(Lookup(errors.fieldErrors, name))
  {
    MessagesForAppend(MessageCalls(Root, errors.formErrors), FieldCalls(errors.fieldErrors), key);
    MessagesForMessageCalls(Root, errors.formErrors, key);
    FieldCallsPerKey(errors.fieldErrors, key);
  }

  /** Per field entry: exactly its messages, in its list's order, and none
      for an `undefined` entry. */
  lemma {:induction false} CallsPerField(errors: Flattened, i: nat)
    requires DistinctNames(errors.fieldErrors)
    requires i < |errors.fieldErrors|
    ensures MessagesFor(Calls(errors), Field(errors.fieldErrors[i].name)) ==
      OrEmpty(errors.fieldErrors[i].messages)
  {
    CallsPerKey(errors, Field(errors.fieldErrors[i].name));
    LookupAt(errors.fieldErrors, i);
  }

  /** The first name of a set with distinct names is not among the others,
      and those others are distinct too. */
  lemma {:induction false} TailFacts(fields: seq<FieldEntry>)
    requires DistinctNames(fields) && fields != []
    ensures fields[0].name !in Keys(fields[1..])
    ensures DistinctNames(fields[1..])
  {
    var tail := fields[1..];
    forall m | 0 <= m < |tail| ensures Keys(tail)[m] != fields[0].name {
      KeysAt(tail, m);
      assert tail[m] == fields[m + 1];
    }
    forall a, b | 0 <= a < b < |tail| ensures tail[a].name != tail[b].name {
      assert tail[a] == fields[a + 1] && tail[b] == fields[b + 1];
    }
  }

  lemma {:induction false} FieldCallsReversed(fields: seq<FieldEntry>, p: nat, q: nat, i: nat, j: nat)
    requires DistinctNames(fields)
    requires p < q < |FieldCalls(fields)|
    requires i < |fields| && j < |fields|
    requires FieldCalls(fields)[p].key == Field(fields[i].name)
    requires FieldCalls(fields)[q].key == Field(fields[j].name)
    ensures j <= i
  {
    var tail := fields[1..];
    var rest := FieldCalls(tail);
    var own := EntryCalls(fields[0]);
    assert FieldCalls(fields) == rest + own;
    if q < |rest| {
      TailFacts(fields);
      FieldCallsTargetKeys(tail);
      assert rest[p] == FieldCalls(fields)[p] && rest[q] == FieldCalls(fields)[q];
      assert i != 0 && j != 0;
      assert tail[i - 1] == fields[i] && tail[j - 1] == fields[j];
      FieldCallsReversed(tail, p, q, i - 1, j - 1);
    } else {
      assert FieldCalls(fields)[q] == own[q - |rest|];
      MessageCallsAt(Field(fields[0].name), OrEmpty(fields[0].messages), q - |rest|);
    }
  }

  /** Field entries are visited from the last enumerated to the first: a
      call for an earlier field never precedes a call for a later one. */
  lemma {:induction false} FieldsVisitedInReverse(errors: Flattened, p: nat, q: nat, i: nat, j: nat)
    requires DistinctNames(errors.fieldErrors)
    requires p < q < |Calls(errors)|
    requires i < |errors.fieldErrors| && j < |errors.fieldErrors|
    requires Calls(errors)[p].key == Field(errors.fieldErrors[i].name)
    requires Calls(errors)[q].key == Field(errors.fieldErrors[j].name)
    ensures j <= i
  {
    var rootCalls := MessageCalls(Root, errors.formErrors);
    var fieldCalls := FieldCalls(errors.fieldErrors);
    var n := |rootCalls|;
    assert Calls(errors) == rootCalls + fieldCalls;
    RootCallsFirst(errors);
    assert p >= n;
    assert Calls(errors)[p] == fieldCalls[p - n];
    assert Calls(errors)[q] == fieldCalls[q - n];
    FieldCallsReversed(errors.fieldErrors, p - n, q - n, i, j);
  }

  lemma {:induction false} FieldCallsEndWithFirst(fields: seq<FieldEntry>, i: nat)
    requires i < |fields|
    requires OrEmpty(fields[i].messages) != []
    requires forall j :: 0 <= j < i ==> OrEmpty(fields[j].messages) == []
    ensures FieldCalls(fields) != []
    ensures var calls := FieldCalls(fields); var messages := OrEmpty(fields[i].messages);
      calls[|calls| - 1] == Call(Field(fields[i].name), messages[|messages| - 1], true)
  {
    var rest := FieldCalls(fields[1..]);
    var own := EntryCalls(fields[0]);
    assert FieldCalls(fields) == rest + own;
    if i > 0 {
      assert OrEmpty(fields[0].messages) == [];
      forall j | 0 <= j < i - 1 ensures OrEmpty(fields[1..][j].messages) == [] {
        assert fields[1..][j] == fields[j + 1];
      }
      FieldCallsEndWithFirst(fields[1..], i - 1);
    } else {
      MessageCallsAt(Field(fields[0].name), OrEmpty(fields[0].messages), |own| - 1);
    }
  }

  /** When some field has a message, the last call, and hence the focus,
      belongs to the first such field in enumeration order. */
  lemma {:induction false} FirstFieldFocused(errors: Flattened, focused: Option<Key>, i: nat)
    requires i < |errors.fieldErrors|
    requires OrEmpty(errors.fieldErrors[i].messages) != []
    requires forall j :: 0 <= j < i ==> OrEmpty(errors.fieldErrors[j].messages) == []
    ensures Calls(errors) != []
    ensures Calls(errors)[|Calls(errors)| - 1].key == Field(errors.fieldErrors[i].name)
    ensures FocusAfter(focused, Calls(errors)) == Some(Field(errors.fieldErrors[i].name))
  {
    FieldCallsEndWithFirst(errors.fieldErrors, i);
    assert Calls(errors)[|Calls(errors)| - 1] == FieldCalls(errors.fieldErrors)[|FieldCalls(errors.fieldErrors)| - 1];
  }

  /** With form-level messages and no field message, the focus ends on
      `"root"`. */
  lemma {:induction false} RootFocusedWithoutFieldMessages(errors: Flattened, focused: Option<Key>)
    requires errors.formErrors != []
    requires forall i :: 0 <= i < |errors.fieldErrors| ==> OrEmpty(errors.fieldErrors[i].messages) == []
    ensures FocusAfter(focused, Calls(errors)) == Some(Root)
  {
    NoMessagesInFields(errors.fieldErrors);
    FieldCallCount(errors.fieldErrors);
    assert Calls(errors) == MessageCalls(Root, errors.formErrors);
    MessageCallsAt(Root, errors.formErrors, |errors.formErrors| - 1);
  }

  /** Under the overwrite model, after the calls each key holds the last
      message written to it: the last form-level message for `"root"`, the
      last message of a field's list for that field, and what it held before
      for every key without messages. */
  lemma {:induction false} StoredMessageIsLast(errors: Flattened, stored: map<Key, string>, key: Key)
    requires DistinctNames(errors.fieldErrors)
    ensures Get(Replay(stored, Calls(errors)), key) ==
      var messages := match key
        case Root => errors.formErrors
        case Field(name) => OrEmpty(Lookup(errors.fieldErrors, name));
      if messages == [] then Get(stored, key) else Some(messages[|messages| - 1])
  {
    ReplayAt(stored, Calls(errors), key);
    CallsPerKey(errors, key);
  }

  /** Under the overwrite model, applying the same set twice leaves the same
      stored messages and the same focus as applying it once. */
  lemma {:induction false} ApplyTwiceIsApplyOnce(errors: Flattened, stored: map<Key, string>, focused: Option<Key>)
    ensures Replay(Replay(stored, Calls(errors)), Calls(errors)) == Replay(stored, Calls(errors))
    ensures FocusAfter(FocusAfter(focused, Calls(errors)), Calls(errors)) == FocusAfter(focused, Calls(errors))
  {
    ReplayTwice(stored, Calls(errors));
    FocusAfterTwice(focused, Calls(errors));
  }

  /** A form-level message and two fields, `email` enumerated before `name`:
      the root call comes first, `name` is written before `email`, and
      `email` ends up focused. */
  lemma {:induction false} ExampleFirstFieldFocused()
    ensures var errors := Flattened(["A"], [FieldEntry("email", Some(["bad"])), FieldEntry("name", Some(["required"]))]);
      Calls(errors) == [Call(Root, "A", true), Call(Field("name"), "required", true), Call(Field("email"), "bad", true)] &&
      FocusAfter(None, Calls(errors)) == Some(Field("email"))
  {
    var errors := Flattened(["A"], [FieldEntry("email", Some(["bad"])), FieldEntry("name", Some(["required"]))]);
    assert errors.fieldErrors[1..] == [FieldEntry("name", Some(["required"]))];
    assert FieldCalls(errors.fieldErrors[1..]) == [Call(Field("name"), "required", true)];
  }
}
