/**
 * User-facing error texts of src/utils/firebaseErrors.js: the code-to-message
 * table with its default, and the fixed toast texts of `authMessages`.
 */
module FirebaseErrors {
  import opened Wrappers
  import opened Js

  const DefaultMessage := "Something went wrong. Please try again."

  /** The thirteen known error codes and their messages. */
  const Table: map<string, string> := map[
    "auth/email-already-in-use" := "This email is already registered.",
    "auth/invalid-email" := "Please enter a valid email address.",
    "auth/wrong-password" := "Incorrect password. Please try again.",
    "auth/user-not-found" := "No account found with this email.",
    "auth/too-many-requests" := "Too many attempts. Please wait and try again.",
    "auth/network-request-failed" := "Network error. Check your connection.",
    "auth/weak-password" := "Password is too weak. Please use a stronger password.",
    "auth/invalid-credential" := "Invalid credentials. Please check your email and password.",
    "auth/user-disabled" := "This account has been disabled.",
    "auth/operation-not-allowed" := "This operation is not allowed.",
    "auth/popup-closed-by-user" := "Sign-in popup was closed before completing.",
    "auth/cancelled-popup-request" := "Sign-in was cancelled.",
    "auth/popup-blocked" := "Sign-in popup was blocked by the browser."
  ]

  /** `error?.code || ""`: a missing error or a missing code reads as the empty code. */
  function ErrorCode(error: Option<Failure>): (code: string)
    ensures error.None? || error.value.code.None? ==> code == ""
    ensures error.Some? && error.value.code.Some? ==> code == error.value.code.value
  {
    match error
    case None => ""
    case Some(e) => e.code.GetOr("")
  }

  /**
   * `getFirebaseErrorMessage(error)`: the table entry for the error's code,
   * otherwise the default message.
   */
  function GetFirebaseErrorMessage(error: Option<Failure>): (m: string)
    ensures ErrorCode(error) in Table ==> m == Table[ErrorCode(error)]
    ensures ErrorCode(error) !in Table ==> m == DefaultMessage
    ensures m != ""
  {
    var code := ErrorCode(error);
    if code in Table && Table[code] != "" then Table[code] else DefaultMessage
  }

  /** Two errors with the same code get the same message, and an error without a code gets the default. */
  lemma MessageDependsOnlyOnCode(e1: Option<Failure>, e2: Option<Failure>)
    requires ErrorCode(e1) == ErrorCode(e2)
    ensures GetFirebaseErrorMessage(e1) == GetFirebaseErrorMessage(e2)
    ensures ErrorCode(e1) == "" ==> GetFirebaseErrorMessage(e1) == DefaultMessage
  {
  }

  // Toast texts of `authMessages`.
  const RegisterSuccess := "Account created successfully. Welcome aboard!"
  const LoginSuccess := "Login successful. Welcome back!"
  const PasswordResetSuccess := "Password reset email sent. Please check your inbox."
  const EmptyFields := "Please fill in all required fields."
  const InvalidEmail := "Please enter a valid email address."
}
