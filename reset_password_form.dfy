/** ResetPasswordForm (src/components/auth/ResetPasswordForm.tsx): the new-password schema with
    its confirmation refine, the token guard, and the submit handler. */
module ResetPasswordForm {
  import opened Wrappers
  import opened Json
  import opened Http
  import opened ZodIssues
  import LoginForm

  const Mismatch := "Passwords don't match"
  const InvalidLink := "Invalid reset link"
  const ResetFailed := "Could not reset password. Try again."
  const ResetDone := "Password has been reset successfully"
  const LoginPage := "/auth/login"
  const Endpoint := "/api/auth/reset-password-reset"

  /** The password checks (the login form's rule), then the refine, which zod runs even when
      the password checks failed. */
  function ResetIssues(password: string, confirmPassword: string): (r: seq<Issue>)
    ensures r == [] <==> |password| >= 4 && LoginForm.HasLetterAndDigit(password) && password == confirmPassword
    ensures password != confirmPassword ==> r[|r| - 1] == Issue(Some("confirmPassword"), Mismatch)
    ensures password == confirmPassword ==> r == At("password", LoginForm.PasswordMessages(password))
  {
    At("password", LoginForm.PasswordMessages(password)) +
    (if password == confirmPassword then [] else [Issue(Some("confirmPassword"), Mismatch)])
  }

  /** The password rule of both auth forms is the same. */
  lemma SameRuleAsLogin(email: string, password: string, isEmail: string -> bool)
    requires isEmail(email)
    ensures ResetIssues(password, password) == [] <==> LoginForm.LoginIssues(LoginForm.Credentials(email, password), isEmail) == []
  {
  }

  /** The effect on mount: without a non-empty token the page toasts and goes to the login page. */
  function TokenGuard(token: Option<string>): (r: Option<(Toast, string)>)
    ensures r.Some? <==> token.None? || token.value == ""
    ensures r.Some? ==> r.value == (ErrorToast(InvalidLink), LoginPage)
  {
    if token.None? || token.value == "" then Some((ErrorToast(InvalidLink), LoginPage)) else None
  }

  /** The body sent: the password alone. */
  function ResetBody(password: string): (j: Json)
    ensures Get(j, "password") == Some(JString(password)) && Get(j, "confirmPassword").None?
    ensures j.JObject? && |j.fields| == 1
  {
    JObject([("password", JString(password))])
  }

  /** The toast and, on success, the page the browser goes to. An error body is read only when
      the status is not ok. */
  function Settle(reply: Reply): (r: (Toast, Option<string>))
    ensures r.1.Some? <==> reply.Replied? && Ok(reply.status)
    ensures r.1.Some? ==> r == (SuccessToast(ResetDone), Some(LoginPage))
    ensures reply.Replied? && !Ok(reply.status) && reply.body.Success? ==>
              r.0 == ErrorToast(StringOr(Get(reply.body.value, "error"), ResetFailed))
    ensures reply.FetchFailed? ==> r.0 == ErrorToast(MessageOr(reply.error, ResetFailed))
  {
    match reply
    case FetchFailed(t) => (ErrorToast(MessageOr(t, ResetFailed)), None)
    case Replied(status, body) =>
      if Ok(status) then (SuccessToast(ResetDone), Some(LoginPage))
      else match body
        case Failure(m) => (ErrorToast(m), None)
        case Success(data) => (ErrorToast(StringOr(Get(data, "error"), ResetFailed)), None)
  }

  /** A failed reset never leaves the page and shows an error toast; an error body without a
      message shows the default text. */
  lemma FailureStays(reply: Reply, status: int)
    requires !(reply.Replied? && Ok(reply.status)) && !Ok(status)
    ensures Settle(reply).1.None? && Settle(reply).0.ErrorToast?
    ensures Settle(Replied(status, Success(JObject([])))).0 == ErrorToast(ResetFailed)
  {
  }

  class Reset {
    var isLoading: bool

    constructor()
      ensures !isLoading
    {
      isLoading := false;
    }

    /** handleSubmit(onSubmit): nothing is sent unless the schema passes. */
    method OnSubmit(password: string, confirmPassword: string, reply: Reply)
      returns (request: Option<(string, Json)>, result: Option<(Toast, Option<string>)>)
      modifies this
      ensures request.Some? <==> ResetIssues(password, confirmPassword) == []
      ensures request.Some? ==> request.value == (Endpoint, ResetBody(password)) && result == Some(Settle(reply))
      ensures request.None? ==> result.None?
      ensures request.Some? ==> !isLoading
      ensures request.None? ==> isLoading == old(isLoading)
    {
      if ResetIssues(password, confirmPassword) != [] {
        return None, None;
      }
      isLoading := true;
      request := Some((Endpoint, ResetBody(password)));
      result := Some(Settle(reply));
      isLoading := false;
    }
  }
}
