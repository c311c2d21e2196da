/** The flattened validation-error set that the actions return and the error
    applicator consumes: form-level messages, and per-field message lists
    whose own properties may be `undefined`. */
module ValidationErrors {

  datatype Option<+T> = None | Some(value: T)

  /** One own property of `fieldErrors`: a field name and its message list,
      or `None` for a property whose value is `undefined`. */
  datatype FieldEntry = FieldEntry(name: string, messages: Option<seq<string>>)

  /** `{ formErrors: string[], fieldErrors: { [field]?: string[] } }`; the
      sequence of entries records the object's key enumeration order. */
  datatype Flattened = Flattened(formErrors: seq<string>, fieldErrors: seq<FieldEntry>)

  /** An object has no two own properties with the same name. */
  predicate DistinctNames(fields: seq<FieldEntry>) {
    forall i, j :: 0 <= i < j < |fields| ==> fields[i].name != fields[j].name
  }

  /** The messages a field's value holds: none when it is `undefined`. */
  function OrEmpty(messages: Option<seq<string>>): seq<string> {
    match messages
    case None => []
    case Some(list) => list
  }

  /** `Object.keys(fieldErrors)`: the field names in enumeration order. */
  function Keys(fields: seq<FieldEntry>): (names: seq<string>)
    ensures |names| == |fields|
  {
    seq(|fields|, i requires 0 <= i < |fields| => fields[i].name)
  }

  /** `fieldErrors[name]`: the value stored under `name`, `None` (undefined)
      when the object has no such property. */
  function Lookup(fields: seq<FieldEntry>, name: string): (r: Option<seq<string>>)
    ensures (forall i :: 0 <= i < |fields| ==> fields[i].name != name) ==> r == None
  {
    if fields == [] then None
    else if fields[0].name == name then fields[0].messages
    else Lookup(fields[1..], name)
  }

  /** With distinct names, looking a key up finds that key's own entry. */
  lemma {:induction false} LookupAt(fields: seq<FieldEntry>, i: nat)
    requires DistinctNames(fields)
    requires i < |fields|
    ensures Lookup(fields, fields[i].name) == fields[i].messages
  {
    if i > 0 {
      assert fields[0].name != fields[i].name;
      assert fields[1..][i - 1] == fields[i];
      LookupAt(fields[1..], i - 1);
    }
  }

  /** `Array.prototype.reverse`: the elements in the opposite order. */
  function Reversed<X>(s: seq<X>): (r: seq<X>)
    ensures |r| == |s|
  {
    if s == [] then [] else Reversed(s[1..]) + [s[0]]
  }

  /** Entry `i` of `Object.keys` is the name of the `i`-th property; the
      proofs call this where they need it instead of carrying the fact for
      every index. */
  lemma {:induction false} KeysAt(fields: seq<FieldEntry>, i: nat)
    requires i < |fields|
    ensures Keys(fields)[i] == fields[i].name
  {
  }

  /** Element `i` of a reversed sequence is element `|s| - 1 - i` of the original. */
  lemma {:induction false} ReversedAt<X>(s: seq<X>, i: nat)
    requires i < |s|
    ensures Reversed(s)[i] == s[|s| - 1 - i]
  {
    if i < |s| - 1 {
      ReversedAt(s[1..], i);
    }
  }
}
