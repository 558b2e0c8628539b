/** LoginForm (src/components/auth/LoginForm.tsx): the sign-in schema, which also holds the
    password rule the reset form repeats, and the submit handler's outcomes. */
module LoginForm {
  import opened Wrappers
  import opened Json
  import opened Http
  import opened ZodIssues

  const InvalidEmail := "Please enter a valid email address"
  const PasswordTooShort := "Password must be at least 4 characters"
  const NeedsLetterAndDigit := "Password must contain both letters and numbers"
  const InvalidCredentials := "Invalid email or password"
  const GenericError := "An error occurred. Please try again later."

  predicate IsAsciiLetter(c: char) {
    'A' <= c <= 'Z' || 'a' <= c <= 'z'
  }

  predicate IsAsciiDigit(c: char) {
    '0' <= c <= '9'
  }

  /** The characters `.` does not match. */
  predicate IsLineTerminator(c: char) {
    c == '\n' || c == '\r' || c == '\U{2028}' || c == '\U{2029}'
  }

  /** The text before the first line terminator: what `.*` can reach from the start. */
  function FirstLine(s: string): (r: string)
    ensures |r| <= |s| && r == s[..|r|]
    ensures forall i :: 0 <= i < |r| ==> !IsLineTerminator(r[i])
    ensures |r| < |s| ==> IsLineTerminator(s[|r|])
  {
    if s == [] || IsLineTerminator(s[0]) then [] else [s[0]] + FirstLine(s[1..])
  }

  /** `/^(?=.*[A-Za-z])(?=.*\d)/`: an ASCII letter and a digit on the first line. */
  predicate HasLetterAndDigit(s: string) {
    var line := FirstLine(s);
    (exists i :: 0 <= i < |line| && IsAsciiLetter(line[i])) && (exists j :: 0 <= j < |line| && IsAsciiDigit(line[j]))
  }

  /** The password's checks, both run. */
  function PasswordMessages(p: string): (ms: seq<string>)
    ensures ms == [] <==> |p| >= 4 && HasLetterAndDigit(p)
    ensures |p| < 4 ==> ms[0] == PasswordTooShort
    ensures !HasLetterAndDigit(p) ==> ms[|ms| - 1] == NeedsLetterAndDigit
  {
    (if |p| < 4 then [PasswordTooShort] else []) + (if HasLetterAndDigit(p) then [] else [NeedsLetterAndDigit])
  }

  lemma PasswordExamples()
    ensures PasswordMessages("abc1") == []
    ensures PasswordMessages("abcd") == [NeedsLetterAndDigit]
    ensures PasswordMessages("a1") == [PasswordTooShort]
  {
    LetterAndDigit("abc1", 0, 3);
    LetterAndDigit("a1", 0, 1);
    NoDigit("abcd");
  }

  lemma LetterAndDigit(p: string, i: nat, j: nat)
    requires forall k :: 0 <= k < |p| ==> !IsLineTerminator(p[k])
    requires i < |p| && j < |p| && IsAsciiLetter(p[i]) && IsAsciiDigit(p[j])
    ensures HasLetterAndDigit(p)
  {
    SingleLine(p);
  }

  lemma NoDigit(p: string)
    requires forall k :: 0 <= k < |p| ==> !IsLineTerminator(p[k]) && !IsAsciiDigit(p[k])
    ensures !HasLetterAndDigit(p)
  {
    SingleLine(p);
  }

  /** A text without line terminators is all first line. */
  lemma {:induction false} SingleLine(s: string)
    requires forall i :: 0 <= i < |s| ==> !IsLineTerminator(s[i])
    ensures FirstLine(s) == s
  {
    if s != [] {
      assert forall i :: 0 <= i < |s[1..]| ==> s[1..][i] == s[i + 1];
      SingleLine(s[1..]);
    }
  }

  /** A letter and a digit after a line break do not count. */
  lemma SecondLineIgnored()
    ensures !HasLetterAndDigit("\na1")
  {
    assert FirstLine("\na1") == [];
  }

  datatype Credentials = Credentials(email: string, password: string)

  /** formSchema's issues; `isEmail` is zod's email check. */
  function LoginIssues(v: Credentials, isEmail: string -> bool): (r: seq<Issue>)
    ensures r == [] <==> isEmail(v.email) && |v.password| >= 4 && HasLetterAndDigit(v.password)
  {
    var email := if isEmail(v.email) then [] else [Issue(Some("email"), InvalidEmail)];
    email + At("password", PasswordMessages(v.password))
  }

  /** The request URL: a returnUrl is appended, unencoded, only when present and non-empty. */
  function LoginUrl(returnUrl: Option<string>): (url: string)
    ensures returnUrl.Some? && returnUrl.value != "" ==> url == "/api/auth/login?returnUrl=" + returnUrl.value
    ensures !(returnUrl.Some? && returnUrl.value != "") ==> url == "/api/auth/login"
  {
    "/api/auth/login" + (if returnUrl.Some? && returnUrl.value != "" then "?returnUrl=" + returnUrl.value else "")
  }

  function CredentialsToJson(v: Credentials): (j: Json)
    ensures Get(j, "email") == Some(JString(v.email)) && Get(j, "password") == Some(JString(v.password))
  {
    var fields := [("email", JString(v.email)), ("password", JString(v.password))];
    assert Lookup(fields, "password") == Some(JString(v.password)) by {
      LookupAt(fields, 1);
    }
    JObject(fields)
  }

  /** What one login attempt shows: the root error, a toast, or where the browser goes
      (`data.redirect`, None when undefined). */
  datatype LoginOutcome = ShowRootError(message: string) | ShowToast(toast: Toast) | Navigate(target: Option<Json>)

  function Settle(reply: Reply): (o: LoginOutcome)
    ensures o.Navigate? <==> reply.Replied? && Ok(reply.status) && reply.body.Success?
    ensures o.ShowRootError? <==> reply.Replied? && reply.status == 400 && reply.body.Success?
    ensures o.ShowRootError? ==> o.message == StringOr(Get(reply.body.value, "error"), InvalidCredentials)
    ensures o.ShowToast? ==> o.toast == ErrorToast(GenericError)
    ensures o.Navigate? ==> o.target == Get(reply.body.value, "redirect")
  {
    match reply
    case FetchFailed(_) => ShowToast(ErrorToast(GenericError))
    case Replied(_, Failure(_)) => ShowToast(ErrorToast(GenericError))
    case Replied(status, Success(data)) =>
      if Ok(status) then Navigate(Get(data, "redirect"))
      else if status == 400 then ShowRootError(StringOr(Get(data, "error"), InvalidCredentials))
      else ShowToast(ErrorToast(GenericError))
  }

  /** Only a rejected 400 explains itself; every other failure is the generic toast, and only an
      ok answer navigates. */
  lemma FailuresDoNotNavigate(reply: Reply)
    requires !(reply.Replied? && Ok(reply.status))
    ensures !Settle(reply).Navigate?
    ensures !(reply.Replied? && reply.status == 400) ==> Settle(reply) == ShowToast(ErrorToast(GenericError))
  {
  }

  class Login {
    var isLoading: bool
    var rootError: Option<string>

    constructor()
      ensures !isLoading && rootError.None?
    {
      isLoading, rootError := false, None;
    }

    /** handleSubmit(onSubmit): nothing is sent unless the schema passes; then the POST (URL and
        body) and its outcome. isLoading is false again whatever happens. The root error is cleared
        by every submit, as handleSubmit replaces the form's errors with the resolver's, so
        afterwards it is the one this attempt set, if any. */
    method OnSubmit(v: Credentials, isEmail: string -> bool, returnUrl: Option<string>, reply: Reply)
      returns (request: Option<(string, Json)>, outcome: Option<LoginOutcome>)
      modifies this
      ensures request.Some? <==> LoginIssues(v, isEmail) == []
      ensures request.None? ==> outcome.None? && rootError.None? && isLoading == old(isLoading)
      ensures request.Some? ==> request.value == (LoginUrl(returnUrl), CredentialsToJson(v)) && outcome == Some(Settle(reply))
      ensures request.Some? ==> rootError == if Settle(reply).ShowRootError? then Some(Settle(reply).message) else None
      ensures request.Some? ==> !isLoading
    {
      rootError := None;
      if LoginIssues(v, isEmail) != [] {
        return None, None;
      }
      isLoading := true;
      request := Some((LoginUrl(returnUrl), CredentialsToJson(v)));
      var o := Settle(reply);
      if o.ShowRootError? {
        rootError := Some(o.message);
      }
      outcome := Some(o);
      isLoading := false;
    }
  }
}
