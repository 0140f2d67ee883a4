/**
 * `AuthenticationController`: the `/api/auth` endpoints. Registration and
 * login answer the service's result with status 200, or let its error
 * propagate; logout revokes a Bearer credential; password reset rewrites the
 * stored hash of the account with the given email.
 */
module AuthenticationController {
  import opened Common
  import opened Roles
  import opened UserAccountEntity
  import opened AccountRepository
  import opened UserAccountService
  import opened AuthenticationService
  import opened TokenBlacklist
  import opened Errors

  /** A `ResponseEntity`: a status code and a body. */
  datatype HttpResponse<T> = HttpResponse(status: int, body: T)

  /**
   * The credential of an `Authorization` header of the form
   * `Bearer <token>` (section 2.1 of RFC 6750): everything after the
   * seven-character prefix. Any other header, or none, carries no credential.
   */
  function BearerCredential(header: Option<string>): (token: Option<string>)
    ensures token.Some? <==> header.Some? && StartsWith(header.value, "Bearer ")
    ensures token.Some? ==> header.value == "Bearer " + token.value
  {
    if header.Some? && StartsWith(header.value, "Bearer ") then Some(header.value[7..]) else None
  }

  /** The credential put behind the prefix is the one extracted. */
  lemma BearerRoundTrip(token: string)
    ensures BearerCredential(Some("Bearer " + token)) == Some(token)
  {
    assert ("Bearer " + token)[..7] == "Bearer ";
    assert ("Bearer " + token)[7..] == token;
  }

  const LogoutMessage: string := "You have successfully logged out of the system."

  /** `request.get(key)` on the JSON body of a password reset. */
  function Field(request: map<string, string>, key: string): (v: Option<string>)
    ensures v.Some? <==> key in request
    ensures v.Some? ==> v.value == request[key]
  {
    if key in request then Some(request[key]) else None
  }

  class AuthenticationController {
    const authenticationService: AuthenticationService
    const accounts: UserAccountRepository
    /** `passwordEncoder.encode`: the one encoder bean the account service also uses. */
    const encode: string -> string
    const blacklist: TokenBlacklistService

    ghost predicate Valid()
      reads this, authenticationService, authenticationService.userAccountService, authenticationService.accounts
    {
      authenticationService.Valid() && accounts == authenticationService.accounts
      && encode == authenticationService.userAccountService.encode
    }

    constructor (authenticationService: AuthenticationService, blacklist: TokenBlacklistService)
      requires authenticationService.Valid()
      ensures Valid() && this.authenticationService == authenticationService && this.blacklist == blacklist
    {
      this.authenticationService := authenticationService;
      this.accounts := authenticationService.accounts;
      this.encode := authenticationService.userAccountService.encode;
      this.blacklist := blacklist;
    }

    /**
     * `register`: the service's answer with status 200, or its error,
     * unchanged: an email in use, then the password policy, is refused and
     * stores nothing; otherwise the new RESTRICTED account is stored and its
     * response returned.
     */
    method Register(req: RegisterRequest, issuedClock: int, expiryClock: int)
      returns (r: Result<HttpResponse<LoginAuthResponse>, ServiceError>)
      requires Valid()
      modifies accounts
      ensures Valid()
      ensures r.Err? ==> accounts.rows == old(accounts.rows)
      ensures req.email.Some? && HasEmail(old(accounts.rows), req.email.value) ==>
        r == Err(EmailValidation(EmailTakenText))
      ensures !(req.email.Some? && HasEmail(old(accounts.rows), req.email.value)) && ValidatePassword(req.password).Err? ==>
        r == Err(ValidatePassword(req.password).error)
      ensures req.email.Some? && !HasEmail(old(accounts.rows), req.email.value) && ValidatePassword(req.password).Ok? ==>
        var row := AccountRow(old(accounts.nextId), req.email.value, encode(req.password.value), Restricted);
        accounts.rows == old(accounts.rows)[row.id := row]
        && r == Ok(HttpResponse(200, AuthResponse(row, JwtService.GenerateToken(authenticationService.jwt, req.email.value,
                                                                                 issuedClock, expiryClock))))
      ensures r.Ok? ==>
        r.value.status == 200 && r.value.body.role == "RESTRICTED"
        && req.email.Some? && r.value.body.email == req.email.value
        && ValidatePassword(req.password).Ok?
    {
      var result := authenticationService.Register(req, issuedClock, expiryClock);
      match result
      case Ok(response) => r := Ok(HttpResponse(200, response));
      case Err(e) => r := Err(e);
    }

    /**
     * `login`, and its alias `authenticate`: the service's answer with
     * status 200, or its error, unchanged.
     */
    function Login(req: LoginRequest, issuedClock: int, expiryClock: int): (r: Result<HttpResponse<LoginAuthResponse>, ServiceError>)
      reads this, authenticationService, authenticationService.userAccountService, authenticationService.accounts
      requires Valid()
      ensures r.Ok? <==> authenticationService.Authenticate(req, issuedClock, expiryClock).Ok?
      ensures r.Ok? ==> r.value == HttpResponse(200, authenticationService.Authenticate(req, issuedClock, expiryClock).value)
      ensures r.Err? ==> r.error == authenticationService.Authenticate(req, issuedClock, expiryClock).error
    {
      match authenticationService.Authenticate(req, issuedClock, expiryClock)
      case Ok(response) => Ok(HttpResponse(200, response))
      case Err(e) => Err(e)
    }

    /**
     * `logout`: a Bearer credential is revoked, any other header revokes
     * nothing, and the answer is always 200 with the same message.
     */
    method Logout(header: Option<string>) returns (resp: HttpResponse<map<string, string>>)
      modifies blacklist
      ensures resp == HttpResponse(200, map["message" := LogoutMessage])
      ensures BearerCredential(header).Some? ==>
        blacklist.tokens == old(blacklist.tokens) + {BearerCredential(header).value}
      ensures BearerCredential(header).None? ==> blacklist.tokens == old(blacklist.tokens)
    {
      if header.Some? && StartsWith(header.value, "Bearer ") {
        var token := header.value[7..];
        blacklist.BlacklistToken(token);
      }
      resp := HttpResponse(200, map["message" := LogoutMessage]);
    }

    /**
     * `resetPassword`: an unknown (or absent) email is 404 and a missing
     * password 500 (the encoder rejects null), both changing nothing;
     * otherwise the account's hash becomes the encoded new password, with
     * no password policy applied, and nothing else changes.
     */
    method ResetPassword(request: map<string, string>) returns (resp: HttpResponse<string>)
      requires Valid()
      modifies accounts
      ensures Valid()
      ensures LookupEmail(old(accounts.rows), Field(request, "email")).None? ==>
        resp == HttpResponse(404, "Error: User not found") && accounts.rows == old(accounts.rows)
      ensures LookupEmail(old(accounts.rows), Field(request, "email")).Some? && "password" !in request ==>
        resp == HttpResponse(500, "Error: rawPassword cannot be null") && accounts.rows == old(accounts.rows)
      ensures LookupEmail(old(accounts.rows), Field(request, "email")).Some? && "password" in request ==>
        var row := LookupEmail(old(accounts.rows), Field(request, "email")).value;
        resp == HttpResponse(200, "Password reset successful")
        && accounts.rows == old(accounts.rows)[row.id := row.(passwordHash := encode(request["password"]))]
    {
      var email := Field(request, "email");
      var newPassword := Field(request, "password");
      var found := accounts.FindByEmail(email);
      if found.None? {
        return HttpResponse(404, "Error: User not found");
      }
      if newPassword.None? {
        return HttpResponse(500, "Error: rawPassword cannot be null");
      }
      KeyedValue(accounts.rows, found.value);
      var user := new UserAccount.Loaded(found.value);
      user.SetPasswordHash(Some(encode(newPassword.value)));
      var saved := accounts.Save(user);
      if saved.Err? {
        // the account keeps its own email, which no other account holds
        assert false;
      }
      resp := HttpResponse(200, "Password reset successful");
    }
  }
}
