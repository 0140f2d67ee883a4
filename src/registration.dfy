/**
 * `Registration`: the sign-up form. It checks the fields on the client in a
 * fixed order, calls the registration endpoint, signs the new user in and
 * goes to the restricted dashboard.
 */
module Registration {
  import opened Common
  import opened FrontendCommon
  import opened Routes
  import opened AuthContext
  import opened AuthenticationService
  import opened Errors

  // ---------------------------------------------------------------- the client password rules

  const MinLength: int := 8

  /**
   * `validatePassword`: length first, then an upper-case letter, a
   * lower-case letter, a digit and one of `@#$%^&+=!`, each anywhere in the
   * password; the first rule broken names the message.
   */
  function ValidatePasswordClient(pwd: string): (error: Option<string>)
    ensures error.None? <==>
      |pwd| >= MinLength && HasClass(pwd, Upper) && HasClass(pwd, Lower) && HasClass(pwd, Digit) && HasClass(pwd, Special)
    ensures |pwd| < MinLength ==> error == Some("Password must be at least 8 characters")
    ensures |pwd| >= MinLength && !HasClass(pwd, Upper) ==> error == Some("Password must contain at least one uppercase letter")
    ensures |pwd| >= MinLength && HasClass(pwd, Upper) && !HasClass(pwd, Lower) ==>
      error == Some("Password must contain at least one lowercase letter")
    ensures |pwd| >= MinLength && HasClass(pwd, Upper) && HasClass(pwd, Lower) && !HasClass(pwd, Digit) ==>
      error == Some("Password must contain at least one number")
    ensures |pwd| >= MinLength && HasClass(pwd, Upper) && HasClass(pwd, Lower) && HasClass(pwd, Digit)
            && !HasClass(pwd, Special) ==>
      error == Some("Password must contain at least one special character (@#$%^&+=!)")
  {
    if |pwd| < MinLength then Some("Password must be at least 8 characters")
    else if !HasClass(pwd, Upper) then Some("Password must contain at least one uppercase letter")
    else if !HasClass(pwd, Lower) then Some("Password must contain at least one lowercase letter")
    else if !HasClass(pwd, Digit) then Some("Password must contain at least one number")
    else if !HasClass(pwd, Special) then Some("Password must contain at least one special character (@#$%^&+=!)")
    else None
  }

  /** Every password the backend accepts, the form accepts too. */
  lemma BackendAcceptedIsClientAccepted(pwd: string)
    requires PasswordRule(pwd)
    ensures ValidatePasswordClient(pwd).None?
  {
  }

  /**
   * The converse fails as written: a password with a space passes the form
   * and is refused by the backend's policy.
   */
  lemma ClientAcceptsWhitespaceAsWritten()
    ensures ValidatePasswordClient("Passw0rd! x").None?
    ensures !PasswordRule("Passw0rd! x")
    ensures ValidatePassword(Some("Passw0rd! x")) == Err(InvalidPassword(PatternMessage))
  {
    var s := "Passw0rd! x";
    assert InClass(s[0], Upper) && InClass(s[1], Lower) && InClass(s[5], Digit) && InClass(s[8], Special);
    assert IsJavaSpace(s[9]);
  }

  const NoWhitespaceMessage: string := "Password must not contain spaces"

  /** The client rules with the backend's no-whitespace rule added last. */
  function ValidatePasswordCorrected(pwd: string): (error: Option<string>)
    ensures ValidatePasswordClient(pwd).Some? ==> error == ValidatePasswordClient(pwd)
    ensures error.None? <==> PasswordRule(pwd)
  {
    match ValidatePasswordClient(pwd)
    case Some(message) => Some(message)
    case None =>
      if exists i :: 0 <= i < |pwd| && (IsJavaSpace(pwd[i]) || IsJavaLineTerminator(pwd[i])) then Some(NoWhitespaceMessage)
      else None
  }

  /** With the correction, the form and the backend accept exactly the same passwords. */
  lemma CorrectedAgreesWithBackend(pwd: string)
    ensures ValidatePasswordCorrected(pwd).None? <==> ValidatePassword(Some(pwd)).Ok?
  {
  }

  // ---------------------------------------------------------------- the e-mail pattern

  /** `[^\s@]`: neither JavaScript whitespace nor `@`. */
  predicate EmailChar(c: char)
  {
    !IsJsSpace(c) && c != '@'
  }

  /** `[^\s@]+`. */
  predicate PlainRun(t: string)
  {
    |t| >= 1 && forall k :: 0 <= k < |t| ==> EmailChar(t[k])
  }

  /** `/^[^\s@]+@[^\s@]+\.[^\s@]+$/.test(s)`: some split into the three runs around `@` and `.`. */
  predicate EmailPattern(s: string)
  {
    exists i, j :: 0 < i < j < |s| - 1 && s[i] == '@' && s[j] == '.'
                   && PlainRun(s[..i]) && PlainRun(s[i + 1..j]) && PlainRun(s[j + 1..])
  }

  /**
   * The pattern in plain words: no whitespace, exactly one `@`, not first,
   * and after it a `.` with at least one character on each side.
   */
  predicate EmailShape(s: string)
  {
    (forall k :: 0 <= k < |s| ==> !IsJsSpace(s[k]))
    && exists i :: 0 < i < |s| && s[i] == '@' && (forall k :: 0 <= k < |s| && k != i ==> s[k] != '@')
                   && exists j :: i + 1 < j < |s| - 1 && s[j] == '.'
  }

  lemma EmailPatternMeaning(s: string)
    ensures EmailPattern(s) <==> EmailShape(s)
  {
    if EmailPattern(s) {
      var i, j :| 0 < i < j < |s| - 1 && s[i] == '@' && s[j] == '.'
                  && PlainRun(s[..i]) && PlainRun(s[i + 1..j]) && PlainRun(s[j + 1..]);
      forall k | 0 <= k < |s| && k != i
        ensures s[k] != '@' && !IsJsSpace(s[k])
      {
        if k < i {
          assert s[..i][k] == s[k];
        } else if k < j {
          assert s[i + 1..j][k - i - 1] == s[k];
        } else if k > j {
          assert s[j + 1..][k - j - 1] == s[k];
        }
      }
    }
    if EmailShape(s) {
      var i :| 0 < i < |s| && s[i] == '@' && (forall k :: 0 <= k < |s| && k != i ==> s[k] != '@')
               && exists j :: i + 1 < j < |s| - 1 && s[j] == '.';
      var j :| i + 1 < j < |s| - 1 && s[j] == '.';
      assert PlainRun(s[..i]);
      assert PlainRun(s[i + 1..j]);
      assert PlainRun(s[j + 1..]);
    }
  }

  // ---------------------------------------------------------------- the form

  /** The client-side refusal of a submission, checked in the form's order, or none. */
  function SubmitError(email: string, password: string, confirmPassword: string): (error: Option<string>)
    ensures email == "" || password == "" || confirmPassword == "" ==> error == Some("Please fill in all fields")
    ensures email != "" && password != "" && confirmPassword != "" && !EmailPattern(email) ==>
      error == Some("Please enter a valid email address")
    ensures email != "" && password != "" && confirmPassword != "" && EmailPattern(email) ==>
      (ValidatePasswordClient(password).Some? ==> error == ValidatePasswordClient(password))
    ensures error.None? <==>
      EmailPattern(email) && ValidatePasswordClient(password).None? && password == confirmPassword
    ensures confirmPassword != "" && EmailPattern(email) && ValidatePasswordClient(password).None? && password != confirmPassword ==>
      error == Some("Passwords do not match")
  {
    if email == "" || password == "" || confirmPassword == "" then Some("Please fill in all fields")
    else if !EmailPattern(email) then Some("Please enter a valid email address")
    else if ValidatePasswordClient(password).Some? then ValidatePasswordClient(password)
    else if password != confirmPassword then Some("Passwords do not match")
    else None
  }

  /** The mount effect: an already signed-in user goes to their landing page, or to the dashboard. */
  function MountRedirect(isAuthenticated: bool, user: Option<User>): (nav: Option<Navigation>)
    ensures nav.Some? <==> isAuthenticated && user.Some?
    ensures nav.Some? && RoleRedirect(user.value.role).Some? ==> nav.value == Navigation(RoleRedirect(user.value.role).value, true)
    ensures nav.Some? && RoleRedirect(user.value.role).None? ==> nav.value == Navigation(DashboardPath, true)
  {
    if isAuthenticated && user.Some? then Some(Navigation(LandingOrDashboard(user.value.role), true)) else None
  }

  const RegistrationFallback: string := "Registration failed. Please try again."

  /** The form's own state. */
  class RegistrationForm {
    var isLoading: bool
    var error: Option<string>

    constructor ()
      ensures !isLoading && error == None
    {
      isLoading := false;
      error := None;
    }

    /**
     * `handleSubmit`. A submission the client refuses sets its message and
     * calls nothing. Otherwise the endpoint is called (`called`), with
     * `outcome` as its result: success signs the user in and goes to the
     * restricted dashboard whatever role came back; failure shows the
     * thrown message. The loading flag ends false either way.
     */
    method HandleSubmit(email: string, password: string, confirmPassword: string,
                        outcome: Result<AuthResult, Thrown>, auth: AuthProvider, nav: Navigator)
      returns (called: bool)
      modifies this, auth, nav
      ensures called <==> SubmitError(email, password, confirmPassword).None?
      ensures !called ==> error == SubmitError(email, password, confirmPassword) && isLoading == old(isLoading)
      ensures !called || outcome.Err? ==>
        auth.token == old(auth.token) && auth.user == old(auth.user) && nav.history == old(nav.history)
      ensures called ==> !isLoading
      ensures called && outcome.Ok? ==>
        && error == None
        && auth.token == Some(outcome.value.token) && auth.user == Some(outcome.value.user)
        && nav.history == old(nav.history) + [Navigation(RestrictedPath, false)]
      ensures called && outcome.Err? ==> error == Some(CaughtMessage(outcome.error, RegistrationFallback))
    {
      error := None;
      var refused := SubmitError(email, password, confirmPassword);
      if refused.Some? {
        error := refused;
        return false;
      }
      isLoading := true;
      called := true;
      match outcome {
        case Ok(response) =>
          auth.Login(response.token, response.user);
          nav.Navigate(RestrictedPath, false);
        case Err(thrown) =>
          error := Some(CaughtMessage(thrown, RegistrationFallback));
      }
      isLoading := false;
    }
  }
}
