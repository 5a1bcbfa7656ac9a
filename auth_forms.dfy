/**
 * The sign-up and sign-in forms (frontend/components/auth/SignUpForm.tsx,
 * frontend/components/auth/SignInForm.tsx): the field validation each
 * `validateForm` performs, the name derived from the email, the mapping of
 * the auth library's error messages to what the form shows, and the form
 * state its handlers overwrite.
 */
module AuthForms {
  import opened Wrappers
  import opened Types
  import opened Strings

  const EMAIL_REQUIRED := "Email is required"
  const EMAIL_INVALID := "Please enter a valid email address"
  const PASSWORD_REQUIRED := "Password is required"
  const PASSWORD_TOO_SHORT := "Password must be at least 8 characters"
  const CONFIRM_REQUIRED := "Please confirm your password"
  const CONFIRM_MISMATCH := "Passwords do not match"
  const DUPLICATE_ACCOUNT := "An account with this email already exists"
  const SIGN_UP_FAILED := "Sign up failed. Please try again."
  const BAD_CREDENTIALS := "Invalid email or password"
  const SIGN_IN_FAILED := "Sign in failed. Please try again."
  const UNEXPECTED := "An unexpected error occurred. Please try again."
  const DASHBOARD := "/dashboard"

  /** A run of the character class `[^\s@]`: no white space and no '@'. */
  predicate Plain(s: string) {
    forall k :: 0 <= k < |s| ==> !IsWhitespace(s[k]) && s[k] != '@'
  }

  /**
   * `s` splits as `local@middle.last` with the '@' at `i` and the '.' at `j`,
   * each of the three pieces a non-empty run of `[^\s@]`.
   */
  predicate EmailParts(s: string, i: nat, j: nat) {
    && 0 < i && i + 1 < j && j + 1 < |s|
    && s[i] == '@' && s[j] == '.'
    && Plain(s[..i]) && Plain(s[i + 1..j]) && Plain(s[j + 1..])
  }

  /** The strings the pattern `^[^\s@]+@[^\s@]+\.[^\s@]+$` accepts. */
  ghost predicate EmailPattern(s: string) {
    exists i: nat, j: nat :: EmailParts(s, i, j)
  }

  /** The domain has a '.' that is neither its first nor its last character. */
  predicate HasInnerDot(d: string) {
    exists j :: 0 < j < |d| - 1 && d[j] == '.'
  }

  /**
   * The email test as a scan: a non-empty plain local part up to the first
   * '@', then a plain domain with an inner '.'. It accepts exactly the
   * strings of the pattern.
   */
  function ValidEmail(s: string): (b: bool)
    ensures b <==> EmailPattern(s)
  {
    match FirstIndex(s, '@')
    case None =>
      forall i: nat, j: nat ensures !EmailParts(s, i, j) {
        if i < |s| {
          assert s[i] in s;
        }
      }
      false
    case Some(i) =>
      EmailScan(s, i);
      i > 0 && Plain(s[..i]) && Plain(s[i + 1..]) && HasInnerDot(s[i + 1..])
  }

  /** With the first '@' at `i`, the scan's conditions are the pattern's. */
  lemma EmailScan(s: string, i: nat)
    requires i < |s| && s[i] == '@' && '@' !in s[..i]
    ensures (i > 0 && Plain(s[..i]) && Plain(s[i + 1..]) && HasInnerDot(s[i + 1..])) <==> EmailPattern(s)
  {
    if i > 0 && Plain(s[..i]) && Plain(s[i + 1..]) && HasInnerDot(s[i + 1..]) {
      ScanMatches(s, i);
    }
    if EmailPattern(s) {
      var i': nat, j': nat :| EmailParts(s, i', j');
      MatchScans(s, i, i', j');
    }
  }

  /** A successful scan yields the pattern's split. */
  lemma ScanMatches(s: string, i: nat)
    requires 0 < i < |s| && s[i] == '@'
    requires Plain(s[..i]) && Plain(s[i + 1..]) && HasInnerDot(s[i + 1..])
    ensures EmailPattern(s)
  {
    var d := s[i + 1..];
    var j :| 0 < j < |d| - 1 && d[j] == '.';
    assert s[i + 1..i + 1 + j] == d[..j];
    assert s[i + 1 + j + 1..] == d[j + 1..];
    assert EmailParts(s, i, i + 1 + j);
  }

  /** The pattern's split puts its '@' at the first '@', and the scan then succeeds. */
  lemma MatchScans(s: string, i: nat, i': nat, j': nat)
    requires i < |s| && s[i] == '@' && '@' !in s[..i]
    requires EmailParts(s, i', j')
    ensures i > 0 && Plain(s[..i]) && Plain(s[i + 1..]) && HasInnerDot(s[i + 1..])
  {
    FirstIndexAt(s, '@', i);
    assert '@' !in s[..i'] by {
      assert Plain(s[..i']);
    }
    FirstIndexAt(s, '@', i');
    var d := s[i + 1..];
    assert d == s[i + 1..j'] + [s[j']] + s[j' + 1..];
    assert d[j' - i - 1] == '.';
  }

  /** The email rule both forms share: required, then the pattern. */
  function EmailError(email: string): (r: Option<string>)
    ensures r == Some(EMAIL_REQUIRED) <==> email == ""
    ensures r == Some(EMAIL_INVALID) <==> email != "" && !EmailPattern(email)
    ensures r.None? <==> EmailPattern(email)
  {
    if email == "" then
      assert !EmailParts(email, 0, 0);
      Some(EMAIL_REQUIRED)
    else if !ValidEmail(email) then Some(EMAIL_INVALID)
    else None
  }

  /** The errors `validateForm` records for the sign-up form, at most one per field. */
  datatype SignUpErrors = SignUpErrors(email: Option<string>, password: Option<string>, confirmPassword: Option<string>)

  /** The errors `validateForm` records for the sign-in form. */
  datatype SignInErrors = SignInErrors(email: Option<string>, password: Option<string>)

  /** Sign-up validation of the three fields. */
  function ValidateSignUp(email: string, password: string, confirmPassword: string): (e: SignUpErrors)
    ensures e.email == EmailError(email)
    ensures e.password == Some(PASSWORD_REQUIRED) <==> password == ""
    ensures e.password == Some(PASSWORD_TOO_SHORT) <==> 0 < |password| < PASSWORD_MIN_LENGTH
    ensures e.password.None? <==> |password| >= PASSWORD_MIN_LENGTH
    ensures e.confirmPassword == Some(CONFIRM_REQUIRED) <==> confirmPassword == ""
    ensures e.confirmPassword == Some(CONFIRM_MISMATCH) <==> confirmPassword != "" && confirmPassword != password
    ensures e.confirmPassword.None? <==> confirmPassword != "" && confirmPassword == password
  {
    SignUpErrors(
      EmailError(email),
      if password == "" then Some(PASSWORD_REQUIRED)
      else if |password| < PASSWORD_MIN_LENGTH then Some(PASSWORD_TOO_SHORT)
      else None,
      if confirmPassword == "" then Some(CONFIRM_REQUIRED)
      else if password != confirmPassword then Some(CONFIRM_MISMATCH)
      else None)
  }

  /** The errors object is empty. */
  predicate SignUpValid(e: SignUpErrors) {
    e.email.None? && e.password.None? && e.confirmPassword.None?
  }

  /**
   * The sign-up form is valid exactly for an email of the pattern, a password
   * of at least 8 characters and a matching confirmation.
   */
  lemma SignUpValidIff(email: string, password: string, confirmPassword: string)
    ensures SignUpValid(ValidateSignUp(email, password, confirmPassword)) <==>
      EmailPattern(email) && |password| >= PASSWORD_MIN_LENGTH && confirmPassword == password
  {
  }

  /** Sign-in validation: the email rule, and a password that is merely present. */
  function ValidateSignIn(email: string, password: string): (e: SignInErrors)
    ensures e.email == EmailError(email)
    ensures e.password == Some(PASSWORD_REQUIRED) <==> password == ""
    ensures e.password.None? <==> password != ""
  {
    SignInErrors(EmailError(email), if password == "" then Some(PASSWORD_REQUIRED) else None)
  }

  predicate SignInValid(e: SignInErrors) {
    e.email.None? && e.password.None?
  }

  /** The sign-in form is valid exactly for an email of the pattern and any non-empty password. */
  lemma SignInValidIff(email: string, password: string)
    ensures SignInValid(ValidateSignIn(email, password)) <==> EmailPattern(email) && password != ""
  {
  }

  /** The display name sent on sign-up: `email.split("@")[0]`. */
  function DerivedName(email: string): (name: string)
    ensures '@' !in name
    ensures |name| <= |email| && name == email[..|name|]
    ensures name == email || email[|name|] == '@'
  {
    PrefixBefore(email, '@')
  }

  /** For an accepted email the derived name is exactly its local part. */
  lemma DerivedNameIsLocalPart(email: string, i: nat, j: nat)
    requires EmailParts(email, i, j)
    ensures DerivedName(email) == email[..i]
  {
    assert '@' !in email[..i] by {
      assert Plain(email[..i]);
    }
    FirstIndexAt(email, '@', i);
  }

  /** What the sign-up form shows when the auth call returns an error with this message. */
  function SignUpFailureText(message: Option<string>): (m: string)
    ensures m != ""
    ensures message.Some? && Contains(message.value, "already exists") ==> m == DUPLICATE_ACCOUNT
    ensures message.Some? && !Contains(message.value, "already exists") && message.value != "" ==> m == message.value
    ensures message.None? || message.value == "" ==> m == SIGN_UP_FAILED
  {
    match message
    case None => SIGN_UP_FAILED
    case Some(text) =>
      if Contains(text, "already exists") then DUPLICATE_ACCOUNT
      else if text == "" then SIGN_UP_FAILED
      else text
  }

  /** What the sign-in form shows when the auth call returns an error with this message. */
  function SignInFailureText(message: Option<string>): (m: string)
    ensures m != ""
    ensures message.Some? && (Contains(message.value, "invalid") || Contains(message.value, "credentials")) ==>
      m == BAD_CREDENTIALS
    ensures (message.Some? && !Contains(message.value, "invalid") && !Contains(message.value, "credentials")
      && message.value != "") ==> m == message.value
    ensures message.None? || message.value == "" ==> m == SIGN_IN_FAILED
  {
    match message
    case None => SIGN_IN_FAILED
    case Some(text) =>
      if Contains(text, "invalid") || Contains(text, "credentials") then BAD_CREDENTIALS
      else if text == "" then SIGN_IN_FAILED
      else text
  }

  /** The request each form hands to the auth library. */
  datatype Credentials = Credentials(email: string, password: string, name: Option<string>)

  /** How a submission starts: rejected by validation, a demo redirect, or a call to the auth library. */
  datatype SubmitStart = Invalid | DemoRedirect(path: string) | Send(request: Credentials)

  /** How the auth call ends: accepted, an error result with an optional message, or a throw. */
  datatype AuthOutcome = Accepted | Refused(message: Option<string>) | Threw

  datatype SignUpField = Email | Password | ConfirmPassword

  /** The sign-up form's state. */
  class SignUpForm {
    var email: string
    var password: string
    var confirmPassword: string
    var errors: SignUpErrors
    var isSubmitting: bool
    var submitError: Option<string>

    constructor ()
      ensures email == "" && password == "" && confirmPassword == ""
      ensures errors == SignUpErrors(None, None, None)
      ensures !isSubmitting && submitError.None?
    {
      email := "";
      password := "";
      confirmPassword := "";
      errors := SignUpErrors(None, None, None);
      isSubmitting := false;
      submitError := None;
    }

    /**
     * `handleSubmit` up to the auth call. The errors are recomputed; an
     * invalid form stops there. Otherwise submitting starts and, in demo mode,
     * the form redirects to the dashboard (and never stops submitting);
     * otherwise the credentials with the derived name are sent.
     */
    method BeginSubmit(demo: bool) returns (start: SubmitStart)
      modifies this
      ensures errors == ValidateSignUp(old(email), old(password), old(confirmPassword))
      ensures submitError.None?
      ensures email == old(email) && password == old(password) && confirmPassword == old(confirmPassword)
      ensures start.Invalid? <==> !SignUpValid(errors)
      ensures start.Invalid? ==> isSubmitting == old(isSubmitting)
      ensures !start.Invalid? ==> isSubmitting
      ensures !start.Invalid? && demo ==> start == DemoRedirect(DASHBOARD)
      ensures !start.Invalid? && !demo ==> start == Send(Credentials(email, password, Some(DerivedName(email))))
    {
      submitError := None;
      errors := ValidateSignUp(email, password, confirmPassword);
      if !SignUpValid(errors) {
        return Invalid;
      }
      isSubmitting := true;
      if demo {
        return DemoRedirect(DASHBOARD);
      }
      start := Send(Credentials(email, password, Some(DerivedName(email))));
    }

    /**
     * `handleSubmit` after the auth call: success redirects to the dashboard,
     * an error result or a throw sets the submission error; submitting stops.
     */
    method SettleSubmit(outcome: AuthOutcome) returns (redirect: Option<string>)
      modifies this
      ensures !isSubmitting
      ensures redirect.Some? <==> outcome.Accepted?
      ensures outcome.Accepted? ==> redirect == Some(DASHBOARD) && submitError == old(submitError)
      ensures outcome.Refused? ==> submitError == Some(SignUpFailureText(outcome.message))
      ensures outcome.Threw? ==> submitError == Some(UNEXPECTED)
      ensures email == old(email) && password == old(password) && confirmPassword == old(confirmPassword)
      ensures errors == old(errors)
    {
      isSubmitting := false;
      redirect := None;
      match outcome
      case Accepted =>
        redirect := Some(DASHBOARD);
      case Refused(message) =>
        submitError := Some(SignUpFailureText(message));
      case Threw =>
        submitError := Some(UNEXPECTED);
    }

    /** `handleChange(field)`: stores the value and clears that field's error only. */
    method HandleChange(field: SignUpField, value: string)
      modifies this
      ensures field.Email? ==> email == value && errors == old(errors).(email := None)
      ensures field.Password? ==> password == value && errors == old(errors).(password := None)
      ensures field.ConfirmPassword? ==> confirmPassword == value && errors == old(errors).(confirmPassword := None)
      ensures !field.Email? ==> email == old(email)
      ensures !field.Password? ==> password == old(password)
      ensures !field.ConfirmPassword? ==> confirmPassword == old(confirmPassword)
      ensures isSubmitting == old(isSubmitting) && submitError == old(submitError)
    {
      match field
      case Email =>
        email := value;
        errors := errors.(email := None);
      case Password =>
        password := value;
        errors := errors.(password := None);
      case ConfirmPassword =>
        confirmPassword := value;
        errors := errors.(confirmPassword := None);
    }
  }

  datatype SignInField = SignInEmail | SignInPassword

  /** The sign-in form's state. */
  class SignInForm {
    var email: string
    var password: string
    var errors: SignInErrors
    var isSubmitting: bool
    var submitError: Option<string>

    constructor ()
      ensures email == "" && password == ""
      ensures errors == SignInErrors(None, None)
      ensures !isSubmitting && submitError.None?
    {
      email := "";
      password := "";
      errors := SignInErrors(None, None);
      isSubmitting := false;
      submitError := None;
    }

    /** `handleSubmit` up to the auth call; as for sign-up, without a name. */
    method BeginSubmit(demo: bool) returns (start: SubmitStart)
      modifies this
      ensures errors == ValidateSignIn(old(email), old(password))
      ensures submitError.None?
      ensures email == old(email) && password == old(password)
      ensures start.Invalid? <==> !SignInValid(errors)
      ensures start.Invalid? ==> isSubmitting == old(isSubmitting)
      ensures !start.Invalid? ==> isSubmitting
      ensures !start.Invalid? && demo ==> start == DemoRedirect(DASHBOARD)
      ensures !start.Invalid? && !demo ==> start == Send(Credentials(email, password, None))
    {
      submitError := None;
      errors := ValidateSignIn(email, password);
      if !SignInValid(errors) {
        return Invalid;
      }
      isSubmitting := true;
      if demo {
        return DemoRedirect(DASHBOARD);
      }
      start := Send(Credentials(email, password, None));
    }

    /** `handleSubmit` after the auth call. */
    method SettleSubmit(outcome: AuthOutcome) returns (redirect: Option<string>)
      modifies this
      ensures !isSubmitting
      ensures redirect.Some? <==> outcome.Accepted?
      ensures outcome.Accepted? ==> redirect == Some(DASHBOARD) && submitError == old(submitError)
      ensures outcome.Refused? ==> submitError == Some(SignInFailureText(outcome.message))
      ensures outcome.Threw? ==> submitError == Some(UNEXPECTED)
      ensures email == old(email) && password == old(password) && errors == old(errors)
    {
      isSubmitting := false;
      redirect := None;
      match outcome
      case Accepted =>
        redirect := Some(DASHBOARD);
      case Refused(message) =>
        submitError := Some(SignInFailureText(message));
      case Threw =>
        submitError := Some(UNEXPECTED);
    }

    /** `handleChange(field)`: stores the value and clears that field's error only. */
    method HandleChange(field: SignInField, value: string)
      modifies this
      ensures field.SignInEmail? ==> email == value && password == old(password) && errors == old(errors).(email := None)
      ensures field.SignInPassword? ==> password == value && email == old(email) && errors == old(errors).(password := None)
      ensures isSubmitting == old(isSubmitting) && submitError == old(submitError)
    {
      match field
      case SignInEmail =>
        email := value;
        errors := errors.(email := None);
      case SignInPassword =>
        password := value;
        errors := errors.(password := None);
    }
  }
}
