/**
 * What the Register and Login pages share: the per-field error object, the
 * email check, the toast a submit ends with, and `clearFieldError`.
 */
module Forms {
  import opened Wrappers
  import opened Text
  import opened Validation

  /** The inputs of the Register and Login forms, the keys of `fieldErrors`. */
  datatype Field = Name | Email | Password | ConfirmPassword

  /** A page's `fieldErrors` object: field to error text. */
  type Errors = map<Field, string>

  /** The toast a handler shows. */
  datatype Toast = SuccessToast(text: string) | ErrorToast(text: string)

  /** `errors.field = message` when the field has an error, and nothing otherwise. */
  function With(errors: Errors, field: Field, message: Option<string>): (r: Errors)
    ensures message.Some? ==> field in r && r[field] == message.value
    ensures message.None? ==> r == errors
    ensures r.Keys == errors.Keys + (if message.Some? then {field} else {})
    ensures forall f :: f in errors && f != field ==> r[f] == errors[f]
  {
    if message.Some? then errors[field := message.value] else errors
  }

  /**
   * The email check both pages make: required once trimmed, then checked by
   * `validateEmail` on the text as typed.
   */
  function EmailError(email: string): (e: Option<string>)
    ensures Blank(email) ==> e == Some("Email is required")
    ensures !Blank(email) && !ValidateEmail(email) ==> e == Some("Please enter a valid email address")
    ensures e.None? <==> ValidateEmail(email)
  {
    if Blank(email) then (BlankIsNotEmail(email); Some("Email is required"))
    else if !ValidateEmail(email) then Some("Please enter a valid email address")
    else None
  }

  /**
   * `clearFieldError(field)`: that field's error becomes the empty text and
   * every other field keeps its error.
   */
  function ClearFieldError(errors: Errors, field: Field): (r: Errors)
    ensures field in r && r[field] == ""
    ensures r.Keys == errors.Keys + {field}
    ensures forall f :: f in errors && f != field ==> r[f] == errors[f]
  {
    errors[field := ""]
  }

  /** Clearing the same field twice is clearing it once; clearing two fields commutes. */
  lemma ClearFieldErrorCommutes(errors: Errors, f: Field, g: Field)
    ensures ClearFieldError(ClearFieldError(errors, f), f) == ClearFieldError(errors, f)
    ensures ClearFieldError(ClearFieldError(errors, f), g) == ClearFieldError(ClearFieldError(errors, g), f)
  {
  }
}
