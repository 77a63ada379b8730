/**
 * src/models/common.ts and src/models/types.ts: the records every validator and
 * service returns, and the stored dream.
 */
module Results {
  import opened Wrappers
  import opened Text

  /** The property names the validators and services use as keys of their `errors` and
      `suggestions` records (`usernames` is the key the legacy login writes). */
  datatype Field = UsernameField | UsernamesField | PasswordField | ThemeField | DreamField | GeneralField

  /** A `Record<string, string>` keyed by field name; an absent key is a key whose value
      the source leaves `undefined`. */
  type Record = map<Field, string>

  /** ValidationResult. `errors` is the record of messages by field; `suggestion` is the
      optional correction (a record of fields in the validation modules, a single string in
      the services). */
  datatype ValidationResult<S> = ValidationResult(
    isValid: bool,
    errors: Record,
    suggestion: Option<S>)

  /** Every validator sets `isValid` to "no key of `errors` is set". */
  predicate WellFormed<S>(v: ValidationResult<S>) {
    v.isValid <==> v.errors == map[]
  }

  /** CreateResult: a ValidationResult that may carry the created value. */
  datatype CreateResult<S, T> = CreateResult(
    isValid: bool,
    errors: Record,
    suggestion: Option<S>,
    data: Option<T>)

  /** Dream. */
  datatype Dream = Dream(id: int, name: string, theme: string, isChecked: bool)

  /** Reading `errors.key`: `undefined` when the key was never set. */
  function Lookup(errors: Record, key: Field): (r: Option<string>)
    ensures r.Some? <==> key in errors
    ensures r.Some? ==> r.value == errors[key]
  {
    if key in errors then Some(errors[key]) else None
  }

  /** `errors` with the entry `key` set to `entry` when that is set, and unchanged otherwise. */
  function Put(errors: Record, key: Field, entry: Option<string>): Record {
    if entry.Some? then errors[key := entry.value] else errors
  }

  /** One guarded append on a record whose only possible key is `key`: the record stays the
      one holding `Step(e, fired, msg)` under `key`. */
  lemma {:induction false} PutStep(errors: Record, key: Field, e: Option<string>, fired: bool, msg: Option<string>)
    requires errors == Put(map[], key, e)
    ensures (if fired then errors[key := JoinPair(Lookup(errors, key), msg)] else errors)
            == Put(map[], key, Step(e, fired, msg))
  {
  }

  /** One guarded append on a key the record does not hold yet. */
  lemma {:induction false} PutAbsent(errors: Record, key: Field, fired: bool, msg: Option<string>)
    requires key !in errors
    ensures (if fired then errors[key := JoinPair(Lookup(errors, key), msg)] else errors)
            == Put(errors, key, Step(None, fired, msg))
  {
  }
}
