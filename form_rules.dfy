/** What the dialogs' validation schemas have in common: a field error
    carries the field's name and its message, and a required string field
    (`z.string().min(1, message)`) fails exactly when it is empty. */
module FormRules {

  datatype FieldError = FieldError(field: string, message: string)

  /** The error of a required string field, if any. */
  function Required(field: string, value: string, message: string): (errs: seq<FieldError>)
    ensures errs == [] <==> |value| >= 1
    ensures errs != [] ==> errs == [FieldError(field, message)]
  {
    if |value| >= 1 then [] else [FieldError(field, message)]
  }

  /** The fields that have an error. */
  function FailingFields(errs: seq<FieldError>): set<string>
  {
    set e | e in errs :: e.field
  }

  lemma FailingFieldsAppend(a: seq<FieldError>, b: seq<FieldError>)
    ensures FailingFields(a + b) == FailingFields(a) + FailingFields(b)
  {
    assert forall e :: e in a + b <==> e in a || e in b;
  }
}
