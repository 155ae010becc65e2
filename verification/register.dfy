/**
 * The Register page of src/pages/Auth/Register.jsx: the per-field checks of
 * `validateForm` and the gating of `handleSubmit`.
 */
module RegisterPage {
  import opened Wrappers
  import opened Js
  import opened Text
  import opened Net
  import opened AuthApi
  import opened AuthProvider
  import opened Validation
  import opened FirebaseErrors
  import opened Forms

  /** `name`: required, and a whitespace-only name counts as missing. */
  function NameError(name: string): (e: Option<string>)
    ensures e.Some? <==> Blank(name)
    ensures e.Some? ==> e.value == "Name is required"
  {
    if Blank(name) then Some("Name is required") else None
  }

  /** `password`: required (untrimmed), then the failed rules' messages joined by ", ". */
  function PasswordError(password: string): (e: Option<string>)
    ensures password == "" ==> e == Some("Password is required")
    ensures password != "" && FailedRules(password) != [] ==> e == Some(Join(Messages(FailedRules(password)), ", "))
    ensures e.None? <==> FailedRules(password) == []
  {
    if password == "" then (EmptyPasswordFailsAll(); Some("Password is required"))
    else if FailedRules(password) != [] then Some(Join(Messages(FailedRules(password)), ", "))
    else None
  }

  /** `confirmPassword`: required, then equal to the password. */
  function ConfirmError(password: string, confirm: string): (e: Option<string>)
    ensures confirm == "" ==> e == Some("Please confirm your password")
    ensures confirm != "" && !ValidateConfirmPassword(password, confirm) ==> e == Some("Passwords do not match")
    ensures e.None? <==> confirm != "" && ValidateConfirmPassword(password, confirm)
  {
    if confirm == "" then Some("Please confirm your password")
    else if !ValidateConfirmPassword(password, confirm) then Some("Passwords do not match")
    else None
  }

  /** The `errors` object `validateForm` builds. */
  function RegisterErrors(name: string, email: string, password: string, confirm: string): Errors
  {
    var e1 := With(map[], Name, NameError(name));
    var e2 := With(e1, Email, EmailError(email));
    var e3 := With(e2, Password, PasswordError(password));
    With(e3, ConfirmPassword, ConfirmError(password, confirm))
  }

  /** What the page accepts: a name, a well-formed email, a password meeting every rule, and its confirmation. */
  predicate Acceptable(name: string, email: string, password: string, confirm: string)
  {
    !Blank(name) && ValidateEmail(email) && FailedRules(password) == [] && password == confirm
  }

  /**
   * Each field has an error exactly when its check fails, with that check's
   * text, and the form is free of errors exactly when it is acceptable.
   */
  lemma RegisterErrorsExact(name: string, email: string, password: string, confirm: string)
    ensures var errs := RegisterErrors(name, email, password, confirm);
      && (Name in errs <==> NameError(name).Some?) && (Name in errs ==> errs[Name] == NameError(name).value)
      && (Email in errs <==> EmailError(email).Some?) && (Email in errs ==> errs[Email] == EmailError(email).value)
      && (Password in errs <==> PasswordError(password).Some?)
      && (Password in errs ==> errs[Password] == PasswordError(password).value)
      && (ConfirmPassword in errs <==> ConfirmError(password, confirm).Some?)
      && (ConfirmPassword in errs ==> errs[ConfirmPassword] == ConfirmError(password, confirm).value)
      && (errs == map[] <==> Acceptable(name, email, password, confirm))
  {
    var errs := RegisterErrors(name, email, password, confirm);
    if Acceptable(name, email, password, confirm) {
      EmptyPasswordFailsAll();
      assert password != "";
    } else {
      assert errs != map[] by {
        if NameError(name).Some? {
          assert Name in errs;
        } else if EmailError(email).Some? {
          assert Email in errs;
        } else if PasswordError(password).Some? {
          assert Password in errs;
        } else {
          assert ConfirmError(password, confirm).Some?;
          assert ConfirmPassword in errs;
        }
      }
    }
  }

  /** The form is free of errors exactly when it is acceptable. */
  lemma RegisterErrorsEmpty(name: string, email: string, password: string, confirm: string)
    ensures |RegisterErrors(name, email, password, confirm)| == 0 <==> Acceptable(name, email, password, confirm)
  {
    RegisterErrorsExact(name, email, password, confirm);
  }

  /** An accepted password is also labelled "Strong" by the strength meter shown beneath it. */
  lemma AcceptedFormShowsStrong(name: string, email: string, password: string, confirm: string)
    requires RegisterErrors(name, email, password, confirm) == map[]
    ensures Band(Score(password)).grade == "Strong"
  {
    RegisterErrorsExact(name, email, password, confirm);
    AcceptedIsStrong(password);
  }

  /** The page's state. */
  class RegisterForm {
    var name: string
    var email: string
    var password: string
    var confirmPassword: string
    var isSubmitting: bool
    var fieldErrors: Errors

    constructor ()
      ensures name == "" && email == "" && password == "" && confirmPassword == ""
      ensures !isSubmitting && fieldErrors == map[]
    {
      name, email, password, confirmPassword := "", "", "", "";
      isSubmitting := false;
      fieldErrors := map[];
    }

    /** An input's `onChange`: the new text, and that field's error cleared. */
    method Edit(field: Field, text: string)
      modifies this
      ensures fieldErrors == ClearFieldError(old(fieldErrors), field)
      ensures name == (if field == Name then text else old(name))
      ensures email == (if field == Email then text else old(email))
      ensures password == (if field == Password then text else old(password))
      ensures confirmPassword == (if field == ConfirmPassword then text else old(confirmPassword))
      ensures isSubmitting == old(isSubmitting)
    {
      if field == Name {
        name := text;
      } else if field == Email {
        email := text;
      } else if field == Password {
        password := text;
      } else {
        confirmPassword := text;
      }
      fieldErrors := ClearFieldError(fieldErrors, field);
    }

    /** `validateForm()`: rebuilds `fieldErrors` field by field and reports whether it is empty. */
    method ValidateForm() returns (ok: bool)
      modifies this
      ensures fieldErrors == RegisterErrors(name, email, password, confirmPassword)
      ensures ok <==> Acceptable(name, email, password, confirmPassword)
      ensures name == old(name) && email == old(email) && password == old(password)
      ensures confirmPassword == old(confirmPassword) && isSubmitting == old(isSubmitting)
    {
      var errors: Errors := map[];
      errors := CheckName(errors);
      errors := CheckEmail(errors);
      errors := CheckPassword(errors);
      errors := CheckConfirm(errors);
      fieldErrors := errors;
      RegisterErrorsEmpty(name, email, password, confirmPassword);
      ok := |errors| == 0;
    }

    /** The name block of `validateForm`; `!name.trim()` holds exactly when the name is blank. */
    method CheckName(errors: Errors) returns (next: Errors)
      ensures next == With(errors, Name, NameError(name))
    {
      next := errors;
      if Blank(name) {
        next := next[Name := "Name is required"];
      }
    }

    /** The email block of `validateForm`. */
    method CheckEmail(errors: Errors) returns (next: Errors)
      ensures next == With(errors, Email, EmailError(email))
    {
      next := errors;
      if Blank(email) {
        next := next[Email := "Email is required"];
      } else if !ValidateEmail(email) {
        next := next[Email := "Please enter a valid email address"];
      }
    }

    /** The password block of `validateForm`. */
    method CheckPassword(errors: Errors) returns (next: Errors)
      ensures next == With(errors, Password, PasswordError(password))
    {
      next := errors;
      var passwordValidation := ValidatePassword(password);
      if password == "" {
        next := next[Password := "Password is required"];
      } else if !passwordValidation.isValid {
        next := next[Password := Join(passwordValidation.errors, ", ")];
      }
    }

    /** The confirmation block of `validateForm`. */
    method CheckConfirm(errors: Errors) returns (next: Errors)
      ensures next == With(errors, ConfirmPassword, ConfirmError(password, confirmPassword))
    {
      next := errors;
      if confirmPassword == "" {
        next := next[ConfirmPassword := "Please confirm your password"];
      } else if !ValidateConfirmPassword(password, confirmPassword) {
        next := next[ConfirmPassword := "Passwords do not match"];
      }
    }

    /**
     * `handleSubmit`: an invalid form only shows the generic toast; a valid
     * one calls `register(name, email, password)` (not remembered) with
     * `isSubmitting` raised, and lowers it afterwards on either outcome.
     * `busy` is `isSubmitting` while the call is pending.
     */
    method HandleSubmit(session: Session, net: Network) returns (toast: Toast, navigated: bool, ghost busy: bool)
      modifies this, session, net
      ensures name == old(name) && email == old(email) && password == old(password)
      ensures confirmPassword == old(confirmPassword)
      ensures fieldErrors == RegisterErrors(name, email, password, confirmPassword)
      ensures !Acceptable(name, email, password, confirmPassword) ==>
        && toast == ErrorToast(EmptyFields) && !navigated && !busy && isSubmitting == old(isSubmitting)
        && net.sent == old(net.sent) && session.Snapshot() == old(session.Snapshot())
      ensures Acceptable(name, email, password, confirmPassword) ==>
        && busy && !isSubmitting
        && net.sent == old(net.sent) + [Describe(RegisterEp(name, email, password))]
        && var api := Settle(net.respond(net.sent));
        && session.Snapshot() == SignedIn(old(session.Snapshot()), api, false)
        && (SignInResult(api).Ok? ==> toast == SuccessToast(RegisterSuccess) && navigated)
        && (SignInResult(api).Err? ==>
              toast == ErrorToast(GetFirebaseErrorMessage(Some(SignInResult(api).error))) && !navigated)
    {
      var ok := ValidateForm();
      if !ok {
        return ErrorToast(EmptyFields), false, false;
      }
      isSubmitting := true;
      busy := isSubmitting;
      var r := session.Register(net, name, email, password, false);
      if r.Ok? {
        toast, navigated := SuccessToast(RegisterSuccess), true;
      } else {
        toast, navigated := ErrorToast(GetFirebaseErrorMessage(Some(r.error))), false;
      }
      isSubmitting := false;
    }
  }
}
