/**
 * The frontend's shared vocabulary: the user record the session holds, how a
 * request to the backend can fail, what a `catch` block can receive, and the
 * router's history, which records every `navigate` call.
 */
module FrontendCommon {
  import opened Common

  /** The frontend `UserAccount`: the role is whatever string the backend sent. */
  datatype User = User(userId: int, email: string, role: string, permissions: seq<string>)

  /** What a successful login or registration call resolves to: the token and the mapped user. */
  datatype AuthResult = AuthResult(token: string, user: User)

  /** A backend reimbursement as the frontend lists it. */
  datatype ReimbursementView = ReimbursementView(id: int, userId: int, userEmail: string, description: string,
                                                 kind: string, status: string)

  /**
   * How an axios call can fail: an axios error, carrying the `error` field of
   * the response body when there was a response that had one, or some other
   * exception raised inside the `try`.
   */
  datatype ApiFailure = Axios(serverError: Option<string>) | NonAxios

  /** What a `catch` receives: an `Error` with its message, or any other thrown value. */
  datatype Thrown = ErrorObject(message: string) | NonError

  /** A service call's rejection as its caller's `catch` receives it: the services only throw `Error`s. */
  function Rejection<T>(r: Result<T, string>): (outcome: Result<T, Thrown>)
    ensures r.Ok? <==> outcome.Ok?
    ensures r.Ok? ==> outcome.value == r.value
    ensures r.Err? ==> outcome.error == ErrorObject(r.error)
  {
    match r
    case Ok(v) => Ok(v)
    case Err(message) => Err(ErrorObject(message))
  }

  const NetworkMessage: string := "Network error. Please try again."

  /**
   * `axiosError.response?.data?.error || fallback`: the server's text when it
   * is present and non-empty, else the operation's fallback.
   */
  function ServerText(serverError: Option<string>, fallback: string): (text: string)
    ensures serverError.Some? && serverError.value != "" ==> text == serverError.value
    ensures serverError.None? || serverError.value == "" ==> text == fallback
  {
    if serverError.Some? && serverError.value != "" then serverError.value else fallback
  }

  /** `err instanceof Error ? err.message : fallback` in every hook's `catch`. */
  function CaughtMessage(thrown: Thrown, fallback: string): (message: string)
    ensures thrown.ErrorObject? ==> message == thrown.message
    ensures thrown.NonError? ==> message == fallback
  {
    match thrown
    case ErrorObject(m) => m
    case NonError => fallback
  }

  /**
   * The services' chains of `if (message.includes(key)) throw new
   * Error(replacement)`: the replacement of the first rule whose key occurs in
   * `text`, or `text` itself when none does.
   */
  function Rewrite(text: string, rules: seq<(string, string)>): (message: string)
    ensures (forall i :: 0 <= i < |rules| ==> !Contains(text, rules[i].0)) ==> message == text
    ensures forall i :: (0 <= i < |rules| && Contains(text, rules[i].0)
                         && (forall j :: 0 <= j < i ==> !Contains(text, rules[j].0))) ==> message == rules[i].1
  {
    if rules == [] then text
    else if Contains(text, rules[0].0) then rules[0].1
    else Rewrite(text, rules[1..])
  }

  /**
   * The message a service call rejects with: for an axios error, the server's
   * text or the fallback, then rewritten; for anything else, the network
   * message.
   */
  function FailureMessage(failure: ApiFailure, fallback: string, rules: seq<(string, string)>): (message: string)
    ensures failure.NonAxios? ==> message == NetworkMessage
    ensures failure.Axios? ==> message == Rewrite(ServerText(failure.serverError, fallback), rules)
  {
    match failure
    case Axios(serverError) => Rewrite(ServerText(serverError, fallback), rules)
    case NonAxios => NetworkMessage
  }

  /** One `navigate(path, { replace })` call. */
  datatype Navigation = Navigation(path: string, replace: bool)

  /** The router: every navigation requested, in order. */
  class Navigator {
    var history: seq<Navigation>

    constructor ()
      ensures history == []
    {
      history := [];
    }

    method Navigate(path: string, replace: bool)
      modifies this
      ensures history == old(history) + [Navigation(path, replace)]
    {
      history := history + [Navigation(path, replace)];
    }
  }
}
