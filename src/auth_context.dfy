/**
 * `AuthProvider`: the in-memory authentication state the React context
 * shares. It starts empty on every page load; nothing reads `localStorage`
 * back into it. The context offers `login`, `logout` and `isAuthenticated`
 * only: no loading flag and no `updateUser`.
 */
module AuthContext {
  import opened Common
  import opened FrontendCommon

  class AuthProvider {
    var user: Option<User>
    var token: Option<string>

    /** Both start as `null`. */
    constructor ()
      ensures user == None && token == None
      ensures !IsAuthenticated()
    {
      user := None;
      token := None;
    }

    /** `!!token && !!user`: an empty token does not count. */
    function IsAuthenticated(): (b: bool)
      reads this
      ensures b <==> token.Some? && token.value != "" && user.Some?
    {
      token.Some? && token.value != "" && user.Some?
    }

    /** `login`: the session holds exactly the new token and user. */
    method Login(newToken: string, newUser: User)
      modifies this
      ensures token == Some(newToken) && user == Some(newUser)
      ensures IsAuthenticated() <==> newToken != ""
    {
      token := Some(newToken);
      user := Some(newUser);
    }

    /** `logout`: both are cleared, so a second logout changes nothing. */
    method Logout()
      modifies this
      ensures token == None && user == None
      ensures !IsAuthenticated()
    {
      token := None;
      user := None;
    }
  }
}
