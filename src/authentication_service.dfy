/**
 * `AuthenticationService`: the password policy, registration and login.
 *
 * The policy is the regular expression
 * `^(?=.*[0-9])(?=.*[a-z])(?=.*[A-Z])(?=.*[@#$%^&+=!])(?=\S+$).{8,}$` used with
 * `Matcher.matches()`. It is written below in its own shape (four
 * look-aheads, a no-space look-ahead and a run of at least eight characters
 * reaching the end) and then proved equal to the plain rule.
 *
 * Hashing (`matches`) and token signing are opaque; clock readings are
 * parameters. The user-details lookup that token generation goes through
 * resolves an account by its email, so a token's subject is the account's
 * email.
 */
module AuthenticationService {
  import opened Common
  import opened Roles
  import opened UserAccountEntity
  import opened AccountRepository
  import opened UserAccountMapper
  import opened UserAccountService
  import opened JwtService
  import opened Errors

  // ---------------------------------------------------------------- the password policy

  datatype CharClass = Digit | Lower | Upper | Special

  predicate InClass(c: char, k: CharClass)
  {
    match k
    case Digit => '0' <= c <= '9'
    case Lower => 'a' <= c <= 'z'
    case Upper => 'A' <= c <= 'Z'
    case Special => c in "@#$%^&+=!"
  }

  /** `(?=.*[k])` at the start: a `k` character before the first line terminator (`.` stops at one). */
  predicate LookaheadFinds(s: string, k: CharClass)
  {
    exists j :: 0 <= j < |s| && InClass(s[j], k) && forall i :: 0 <= i < j ==> !IsJavaLineTerminator(s[i])
  }

  /** Java's `$` without MULTILINE: the end of input, or just before a final line terminator. */
  predicate DollarAt(s: string, k: int)
  {
    k == |s|
    || (k == |s| - 1 && 0 <= k && IsJavaLineTerminator(s[k]))
    || (k == |s| - 2 && 0 <= k && s[k] == '\r' && s[k + 1] == '\n')
  }

  /** `(?=\S+$)` at the start: a non-empty run of non-whitespace characters up to a `$` position. */
  predicate NoSpaceRun(s: string)
  {
    exists k :: 1 <= k <= |s| && DollarAt(s, k) && forall i :: 0 <= i < k ==> !IsJavaSpace(s[i])
  }

  /** `.{8,}$` reaching the end of a full match: eight or more characters, none a line terminator. */
  predicate DotRunToEnd(s: string)
  {
    |s| >= 8 && forall i :: 0 <= i < |s| ==> !IsJavaLineTerminator(s[i])
  }

  /** `VALID_PATTERN.matcher(s).matches()`. */
  predicate MatchesValidPattern(s: string)
  {
    LookaheadFinds(s, Digit) && LookaheadFinds(s, Lower) && LookaheadFinds(s, Upper) && LookaheadFinds(s, Special)
    && NoSpaceRun(s) && DotRunToEnd(s)
  }

  predicate HasClass(s: string, k: CharClass)
  {
    exists i :: 0 <= i < |s| && InClass(s[i], k)
  }

  /**
   * The policy in plain words: at least eight characters, a digit, a
   * lower-case and an upper-case ASCII letter, one of `@#$%^&+=!`, and no
   * whitespace or line terminator anywhere.
   */
  predicate PasswordRule(s: string)
  {
    |s| >= 8 && HasClass(s, Digit) && HasClass(s, Lower) && HasClass(s, Upper) && HasClass(s, Special)
    && forall i :: 0 <= i < |s| ==> !IsJavaSpace(s[i]) && !IsJavaLineTerminator(s[i])
  }

  lemma LookaheadMeaning(s: string, k: CharClass)
    requires forall i :: 0 <= i < |s| ==> !IsJavaLineTerminator(s[i])
    ensures LookaheadFinds(s, k) <==> HasClass(s, k)
  {
    if HasClass(s, k) {
      var j :| 0 <= j < |s| && InClass(s[j], k);
      assert forall i :: 0 <= i < j ==> !IsJavaLineTerminator(s[i]);
    }
  }

  /** The regular expression accepts exactly the passwords of the plain rule. */
  lemma ValidPatternMeaning(s: string)
    ensures MatchesValidPattern(s) <==> PasswordRule(s)
  {
    if MatchesValidPattern(s) {
      var k :| 1 <= k <= |s| && DollarAt(s, k) && forall i :: 0 <= i < k ==> !IsJavaSpace(s[i]);
      if k < |s| {
        assert false;
      }
      LookaheadMeaning(s, Digit);
      LookaheadMeaning(s, Lower);
      LookaheadMeaning(s, Upper);
      LookaheadMeaning(s, Special);
    }
    if PasswordRule(s) {
      assert DollarAt(s, |s|);
      assert NoSpaceRun(s);
      LookaheadMeaning(s, Digit);
      LookaheadMeaning(s, Lower);
      LookaheadMeaning(s, Upper);
      LookaheadMeaning(s, Special);
    }
  }

  const PatternMessage: string :=
    "Password must contain no spaces, at least one number, one special character, one uppercase, and one lowercase letter."

  /**
   * `validatePassword`: null, then shorter than eight, then the pattern,
   * each with its own message; an accepted password comes back unchanged.
   */
  function ValidatePassword(password: Option<string>): (r: Result<string, ServiceError>)
    ensures password.None? ==> r == Err(InvalidPassword("Password entry must not be blank!"))
    ensures password.Some? && |password.value| < 8 ==>
      r == Err(InvalidPassword("Password must be greater than 8 characters in length."))
    ensures password.Some? && |password.value| >= 8 && !PasswordRule(password.value) ==>
      r == Err(InvalidPassword(PatternMessage))
    ensures r.Ok? <==> password.Some? && PasswordRule(password.value)
    ensures r.Ok? ==> r.value == password.value
  {
    if password.None? then
      Err(InvalidPassword("Password entry must not be blank!"))
    else if |password.value| < 8 then
      Err(InvalidPassword("Password must be greater than 8 characters in length."))
    else if !MatchesValidPattern(password.value) then
      ValidPatternMeaning(password.value);
      Err(InvalidPassword(PatternMessage))
    else
      ValidPatternMeaning(password.value);
      Ok(password.value)
  }

  /** Exactly eight characters is long enough, whatever the length message says. */
  lemma EightCharactersSuffice()
    ensures ValidatePassword(Some("Pass0rd!")) == Ok("Pass0rd!")
  {
    var s := "Pass0rd!";
    assert InClass(s[0], Upper) && InClass(s[1], Lower) && InClass(s[4], Digit) && InClass(s[7], Special);
    assert forall i :: 0 <= i < |s| ==> '!' <= s[i] <= 'z';
  }

  // ---------------------------------------------------------------- registration and login

  /** The refusal of an email already in use. */
  const EmailTakenText: string := "The " + "email" + " provided is linked to an existing account."

  datatype RegisterRequest = RegisterRequest(email: Option<string>, password: Option<string>)
  datatype LoginRequest = LoginRequest(email: Option<string>, password: Option<string>)

  /** `LoginAuthResponseDTO`: the token and the account it was issued for. */
  datatype LoginAuthResponse = LoginAuthResponse(token: string, role: string, userId: int, email: string, permissions: set<string>)

  /** The response for a stored account and a token issued for it. */
  function AuthResponse(row: AccountRow, token: string): (resp: LoginAuthResponse)
    ensures resp.role == row.role.Name() && resp.userId == row.id && resp.email == row.email
    ensures resp.permissions == PermissionNames(row.role) && resp.token == token
  {
    LoginAuthResponse(token, row.role.Name(), row.id, row.email, PermissionNames(row.role))
  }

  class AuthenticationService {
    const accounts: UserAccountRepository
    const userAccountService: UserAccountService
    const jwt: JwtSettings
    /** `passwordEncoder.matches(raw, hash)`. */
    const matches: (string, string) -> bool

    ghost predicate Valid()
      reads this, accounts, userAccountService
    {
      accounts.Valid() && userAccountService.accounts == accounts
    }

    constructor (userAccountService: UserAccountService, jwt: JwtSettings, matches: (string, string) -> bool)
      requires userAccountService.Valid()
      ensures Valid() && this.userAccountService == userAccountService && accounts == userAccountService.accounts
      ensures this.jwt == jwt && this.matches == matches
    {
      this.accounts := userAccountService.accounts;
      this.userAccountService := userAccountService;
      this.jwt := jwt;
      this.matches := matches;
    }

    /**
     * `register`: an email already in use is refused before the password is
     * looked at; then the password policy; then a RESTRICTED account is
     * created with the encoded password, and the response carries a token
     * for its email, "RESTRICTED" and RESTRICTED's permission names.
     */
    method Register(req: RegisterRequest, issuedClock: int, expiryClock: int) returns (r: Result<LoginAuthResponse, ServiceError>)
      requires Valid()
      modifies accounts
      ensures Valid()
      ensures r.Err? ==> accounts.rows == old(accounts.rows)
      ensures req.email.Some? && HasEmail(old(accounts.rows), req.email.value) ==>
        r == Err(EmailValidation(EmailTakenText))
      ensures !(req.email.Some? && HasEmail(old(accounts.rows), req.email.value)) && ValidatePassword(req.password).Err? ==>
        r == Err(ValidatePassword(req.password).error)
      ensures req.email.None? ==> r.Err?
      ensures req.email.Some? && !HasEmail(old(accounts.rows), req.email.value) && ValidatePassword(req.password).Ok? ==>
        var row := AccountRow(old(accounts.nextId), req.email.value, userAccountService.encode(req.password.value), Restricted);
        accounts.rows == old(accounts.rows)[row.id := row]
        && r == Ok(AuthResponse(row, GenerateToken(jwt, req.email.value, issuedClock, expiryClock)))
        && r.value.role == "RESTRICTED"
    {
      var taken := accounts.ExistsByEmail(req.email);
      if taken {
        return Err(EmailValidation(EmailTakenText));
      }
      var valid := ValidatePassword(req.password);
      if valid.Err? {
        return Err(valid.error);
      }
      var created := userAccountService.CreateUserAccount(UserAccountDto(None, req.email, req.password, Some(Restricted), None));
      if created.Err? {
        return Err(created.error);
      }
      var newUser := created.value;
      var token := GenerateToken(jwt, newUser.email.value, issuedClock, expiryClock);
      var row := AccountRow(newUser.userAccountId.value, newUser.email.value, userAccountService.encode(req.password.value), Restricted);
      r := Ok(AuthResponse(row, token));
    }

    /**
     * `authenticate`: a null password fails first (its length is logged);
     * then an unknown email is UsernameNotFound and a wrong password
     * InvalidPassword, neither issuing a token; otherwise a token for the
     * account's email and the stored account's id, email, role and
     * permission names.
     */
    function Authenticate(req: LoginRequest, issuedClock: int, expiryClock: int): (r: Result<LoginAuthResponse, ServiceError>)
      reads this, accounts
      requires accounts.Valid()
      ensures req.password.None? ==> r == Err(NullDereference)
      ensures req.password.Some? && LookupEmail(accounts.rows, req.email).None? ==>
        r == Err(UsernameNotFound("A matching UserAccount was not found."))
      ensures req.password.Some? && LookupEmail(accounts.rows, req.email).Some?
              && !matches(req.password.value, LookupEmail(accounts.rows, req.email).value.passwordHash) ==>
        r == Err(InvalidPassword("Invalid password entered."))
      ensures req.password.Some? && LookupEmail(accounts.rows, req.email).Some?
              && matches(req.password.value, LookupEmail(accounts.rows, req.email).value.passwordHash) ==>
        r == Ok(AuthResponse(LookupEmail(accounts.rows, req.email).value,
                             GenerateToken(jwt, req.email.value, issuedClock, expiryClock)))
      ensures r.Ok? ==>
        req.password.Some? && req.email.Some?
        && (exists i :: i in accounts.rows && accounts.rows[i].email == req.email.value
              && matches(req.password.value, accounts.rows[i].passwordHash)
              && r.value == AuthResponse(accounts.rows[i], GenerateToken(jwt, req.email.value, issuedClock, expiryClock)))
    {
      if req.password.None? then
        Err(NullDereference)
      else
        match LookupEmail(accounts.rows, req.email)
        case None => Err(UsernameNotFound("A matching UserAccount was not found."))
        case Some(account) =>
          if !matches(req.password.value, account.passwordHash) then
            Err(InvalidPassword("Invalid password entered."))
          else
            KeyedValue(accounts.rows, account);
            Ok(AuthResponse(account, GenerateToken(jwt, account.email, issuedClock, expiryClock)))
    }
  }
}
