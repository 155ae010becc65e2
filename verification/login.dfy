/**
 * The Login page of src/pages/Auth/Login.jsx: `validateForm`, the gating of
 * `handleSubmit`, and `handleForgotPassword`.
 */
module LoginPage {
  import opened Wrappers
  import opened Js
  import opened Text
  import opened Net
  import opened AuthApi
  import opened AuthProvider
  import opened Validation
  import opened FirebaseErrors
  import opened Forms

  /** The login password is only required; no strength rule applies here. */
  function LoginPasswordError(password: string): (e: Option<string>)
    ensures e.Some? <==> password == ""
    ensures e.Some? ==> e.value == "Password is required"
  {
    if password == "" then Some("Password is required") else None
  }

  /** The `errors` object `validateForm` builds. */
  function LoginErrors(email: string, password: string): Errors
  {
    With(With(map[], Email, EmailError(email)), Password, LoginPasswordError(password))
  }

  /**
   * Only the email and password fields can carry an error, each exactly
   * when its check fails, and the form is free of errors exactly when the
   * email is well formed and a password was typed.
   */
  lemma LoginErrorsExact(email: string, password: string)
    ensures var errs := LoginErrors(email, password);
      && errs.Keys <= {Email, Password}
      && (Email in errs <==> !ValidateEmail(email)) && (Email in errs ==> errs[Email] == EmailError(email).value)
      && (Password in errs <==> password == "") && (Password in errs ==> errs[Password] == "Password is required")
      && (|errs| == 0 <==> ValidateEmail(email) && password != "")
  {
    var errs := LoginErrors(email, password);
    if !ValidateEmail(email) {
      assert Email in errs;
    } else if password == "" {
      assert Password in errs;
    }
  }

  /** Any typed password, however many strength rules it fails, passes the Login form. */
  lemma WeakPasswordAccepted(email: string, p: string)
    requires ValidateEmail(email) && p != "" && FailedRules(p) != []
    ensures |LoginErrors(email, p)| == 0
  {
    LoginErrorsExact(email, p);
  }

  /** The page's state. */
  class LoginForm {
    var email: string
    var password: string
    var rememberMe: bool
    var isSubmitting: bool
    var isResetting: bool
    var fieldErrors: Errors

    constructor ()
      ensures email == "" && password == "" && !rememberMe
      ensures !isSubmitting && !isResetting && fieldErrors == map[]
    {
      email, password := "", "";
      rememberMe := false;
      isSubmitting, isResetting := false, false;
      fieldErrors := map[];
    }

    /** `validateForm()`: rebuilds `fieldErrors` and reports whether it is empty. */
    method ValidateForm() returns (ok: bool)
      modifies this
      ensures fieldErrors == LoginErrors(email, password)
      ensures ok <==> ValidateEmail(email) && password != ""
      ensures email == old(email) && password == old(password) && rememberMe == old(rememberMe)
      ensures isSubmitting == old(isSubmitting) && isResetting == old(isResetting)
    {
      // `!email.trim()` holds exactly when the email is blank (the contract of Text.Trim)
      var errors: Errors := map[];
      if Blank(email) {
        errors := errors[Email := "Email is required"];
      } else if !ValidateEmail(email) {
        errors := errors[Email := "Please enter a valid email address"];
      }
      if password == "" {
        errors := errors[Password := "Password is required"];
      }
      fieldErrors := errors;
      LoginErrorsExact(email, password);
      ok := |errors| == 0;
    }

    /**
     * `handleSubmit` as written: `login(email, password)` with the default
     * `remember = false`, so the `rememberMe` checkbox has no effect.
     * `busy` is `isSubmitting` while the call is pending.
     */
    method HandleSubmit(session: Session, net: Network) returns (toast: Toast, navigated: bool, ghost busy: bool)
      modifies this, session, net
      ensures email == old(email) && password == old(password) && rememberMe == old(rememberMe)
      ensures isResetting == old(isResetting)
      ensures fieldErrors == LoginErrors(email, password)
      ensures !(ValidateEmail(email) && password != "") ==>
        && toast == ErrorToast(EmptyFields) && !navigated && !busy && isSubmitting == old(isSubmitting)
        && net.sent == old(net.sent) && session.Snapshot() == old(session.Snapshot())
      ensures ValidateEmail(email) && password != "" ==>
        && busy && !isSubmitting
        && net.sent == old(net.sent) + [Describe(LoginEp(email, password))]
        && var api := Settle(net.respond(net.sent));
        && session.Snapshot() == SignedIn(old(session.Snapshot()), api, false)
        && (SignInResult(api).Ok? ==> toast == SuccessToast(LoginSuccess) && navigated)
        && (SignInResult(api).Err? ==>
              toast == ErrorToast(GetFirebaseErrorMessage(Some(SignInResult(api).error))) && !navigated)
    {
      var ok := ValidateForm();
      if !ok {
        return ErrorToast(EmptyFields), false, false;
      }
      isSubmitting := true;
      busy := isSubmitting;
      var r := session.Login(net, email, password, false);
      if r.Ok? {
        toast, navigated := SuccessToast(LoginSuccess), true;
      } else {
        toast, navigated := ErrorToast(GetFirebaseErrorMessage(Some(r.error))), false;
      }
      isSubmitting := false;
    }

    /** `handleSubmit` with the checkbox passed on as `remember`. */
    method HandleSubmitRemembering(session: Session, net: Network) returns (toast: Toast, navigated: bool, ghost busy: bool)
      modifies this, session, net
      ensures email == old(email) && password == old(password) && rememberMe == old(rememberMe)
      ensures isResetting == old(isResetting)
      ensures fieldErrors == LoginErrors(email, password)
      ensures !(ValidateEmail(email) && password != "") ==>
        && toast == ErrorToast(EmptyFields) && !navigated && !busy && isSubmitting == old(isSubmitting)
        && net.sent == old(net.sent) && session.Snapshot() == old(session.Snapshot())
      ensures ValidateEmail(email) && password != "" ==>
        && busy && !isSubmitting
        && net.sent == old(net.sent) + [Describe(LoginEp(email, password))]
        && var api := Settle(net.respond(net.sent));
        && session.Snapshot() == SignedIn(old(session.Snapshot()), api, rememberMe)
        && (SignInResult(api).Ok? ==> toast == SuccessToast(LoginSuccess) && navigated)
        && (SignInResult(api).Err? ==>
              toast == ErrorToast(GetFirebaseErrorMessage(Some(SignInResult(api).error))) && !navigated)
    {
      var ok := ValidateForm();
      if !ok {
        return ErrorToast(EmptyFields), false, false;
      }
      isSubmitting := true;
      busy := isSubmitting;
      var r := session.Login(net, email, password, rememberMe);
      if r.Ok? {
        toast, navigated := SuccessToast(LoginSuccess), true;
      } else {
        toast, navigated := ErrorToast(GetFirebaseErrorMessage(Some(r.error))), false;
      }
      isSubmitting := false;
    }

    /**
     * `handleForgotPassword`: a blank or malformed email replaces
     * `fieldErrors` by a single email error and sends nothing; otherwise
     * `resetPassword(email)` is attempted with `isResetting` raised, which
     * always fails today. `requested` is the address handed to it, and
     * `busy` is `isResetting` while it is pending.
     */
    method HandleForgotPassword() returns (toast: Toast, ghost requested: Option<string>, ghost busy: bool)
      modifies this
      ensures email == old(email) && password == old(password) && rememberMe == old(rememberMe)
      ensures isSubmitting == old(isSubmitting)
      ensures Blank(email) ==>
        && toast == ErrorToast("Please enter your email address first")
        && fieldErrors == map[Email := "Email is required for password reset"]
        && requested.None? && isResetting == old(isResetting)
      ensures !Blank(email) && !ValidateEmail(email) ==>
        && toast == ErrorToast(InvalidEmail)
        && fieldErrors == map[Email := "Please enter a valid email address"]
        && requested.None? && isResetting == old(isResetting)
      ensures ValidateEmail(email) ==>
        && requested == Some(email) && busy && !isResetting && fieldErrors == old(fieldErrors)
        && toast == ErrorToast(DefaultMessage)
    {
      if Blank(email) {
        fieldErrors := map[Email := "Email is required for password reset"];
        return ErrorToast("Please enter your email address first"), None, false;
      }
      if !ValidateEmail(email) {
        fieldErrors := map[Email := "Please enter a valid email address"];
        return ErrorToast(InvalidEmail), None, false;
      }
      isResetting := true;
      busy := isResetting;
      requested := Some(email);
      var r := ResetPassword(email);
      ResetFailureToast(email);
      if r.Ok? {
        toast := SuccessToast(PasswordResetSuccess);
      } else {
        toast := ErrorToast(GetFirebaseErrorMessage(Some(r.error)));
      }
      isResetting := false;
    }
  }

  /** The reset placeholder rejects without a code, so its toast is the default message. */
  lemma ResetFailureToast(email: string)
    ensures ResetPassword(email).Err?
    ensures GetFirebaseErrorMessage(Some(ResetPassword(email).error)) == DefaultMessage
  {
    MessageDependsOnlyOnCode(Some(ResetPassword(email).error), None);
  }

  /**
   * As written, a successful login never leaves a stored token, whatever the
   * checkbox said: the session is updated with `remember = false`.
   */
  lemma RememberMeIgnored(s: State, api: Result<Json>)
    requires api.Ok? && api.value != JNull
    ensures AccessTokenKey !in SignedIn(s, api, false).storage
  {
  }

  /**
   * With the checkbox passed on, a remembered successful login stores the
   * returned token under the storage key, where the next start-up finds it.
   */
  lemma RememberMeHonoured(s: State, api: Result<Json>, t: string)
    requires api.Ok? && TokenField(api.value) == Some(t) && t != ""
    ensures var s' := SignedIn(s, api, true);
      AccessTokenKey in s'.storage && s'.storage[AccessTokenKey] == t && StoredToken(s'.storage) == Some(t)
  {
  }
}
