/** The admin login page's submit handler: it posts the credentials, and only
    a reply that is both `ok` and `success` opens a session, by storing the
    token and user name and moving to the dashboard; every other outcome
    leaves storage and location alone and shows an error. */
module AdminLogin {
  import opened Js
  import opened Browser

  const TokenKey := "adminToken"
  const UsernameKey := "adminUsername"
  const LoginPath := "/api/admin/login"
  const DashboardRoute := "/admin/dashboard"
  const InvalidCredentials := "Invalid credentials"
  const ConnectFailed := "Failed to connect to server"

  /** The fields of the parsed login reply the handler reads. */
  datatype LoginBody = LoginBody(success: Value, token: Value, username: Value, detail: Value)

  /** The login exchange: `LoginThrew` when `fetch` or `response.json()`
      throws or the body is `null` (reading `data.success` then throws into the
      same catch), otherwise the `ok` flag and the parsed body. */
  datatype LoginReply = LoginThrew | LoginResponse(ok: bool, data: LoginBody)

  /** The POST the handler sends: its URL and the JSON body's two fields. */
  datatype LoginRequest = LoginRequest(url: string, username: string, password: string)

  /** What the handler can change: storage, location, the error text and the
      loading flag. */
  datatype LoginState = LoginState(storage: map<string, string>, route: string, error: string, loading: bool)

  /** `response.ok && data.success`. */
  predicate Succeeded(reply: LoginReply) {
    reply.LoginResponse? && reply.ok && Truthy(reply.data.success)
  }

  /** The token and the user name are stored together or not at all. */
  predicate SessionConsistent(storage: map<string, string>) {
    TokenKey in storage <==> UsernameKey in storage
  }

  /** The state once the handler has finished with `reply`. */
  function AfterLogin(s: LoginState, reply: LoginReply): LoginState {
    match reply
    case LoginThrew => s.(error := ConnectFailed, loading := false)
    case LoginResponse(ok, data) =>
      if ok && Truthy(data.success) then
        LoginState(s.storage[TokenKey := ToText(data.token)][UsernameKey := ToText(data.username)],
                   DashboardRoute, "", false)
      else
        s.(error := ToText(Or(data.detail, Str(InvalidCredentials))), loading := false)
  }

  /** A session is written exactly on success, holding the reply's token and
      user name, and the page moves to the dashboard; on failure storage and
      location are as they were. No other key is touched and loading is off
      whatever happened. */
  lemma LoginOutcome(s: LoginState, reply: LoginReply)
    ensures var r := AfterLogin(s, reply);
            Succeeded(reply) ==>
              Lookup(r.storage, TokenKey) == Some(ToText(reply.data.token))
              && Lookup(r.storage, UsernameKey) == Some(ToText(reply.data.username))
              && r.route == DashboardRoute && r.error == ""
    ensures var r := AfterLogin(s, reply);
            !Succeeded(reply) ==> r.storage == s.storage && r.route == s.route
    ensures var r := AfterLogin(s, reply);
            forall k :: k != TokenKey && k != UsernameKey ==> Lookup(r.storage, k) == Lookup(s.storage, k)
    ensures !AfterLogin(s, reply).loading
  {
  }

  /** The error text of each failure: the server's `detail` or the fallback
      for a reply it parsed, the connection message when nothing was parsed. */
  lemma LoginErrors(s: LoginState, reply: LoginReply)
    ensures reply.LoginThrew? ==> AfterLogin(s, reply).error == ConnectFailed
    ensures reply.LoginResponse? && !Succeeded(reply) && !Truthy(reply.data.detail) ==>
              AfterLogin(s, reply).error == InvalidCredentials
    ensures reply.LoginResponse? && !Succeeded(reply) && Truthy(reply.data.detail) ==>
              AfterLogin(s, reply).error == ToText(reply.data.detail)
  {
  }

  /** With a `detail` that is a string, `null` or absent, an error is shown
      exactly when the login failed; `ok` alone is not enough. */
  lemma ErrorShownIffFailed(s: LoginState, reply: LoginReply)
    requires reply.LoginResponse? ==> !reply.data.detail.Other?
    ensures AfterLogin(s, reply).error != "" <==> !Succeeded(reply)
  {
    if reply.LoginResponse? && !Succeeded(reply) {
      assert Or(reply.data.detail, Str(InvalidCredentials)).Str?;
    }
  }

  /** A login never leaves one of the two session keys without the other. */
  lemma LoginKeepsSessionConsistent(s: LoginState, reply: LoginReply)
    requires SessionConsistent(s.storage)
    ensures SessionConsistent(AfterLogin(s, reply).storage)
  {
  }

  /** The login page; `backendUrl` is the configured backend address. */
  class LoginPage {
    const window: Window
    const backendUrl: string
    var error: string
    var loading: bool

    constructor (window: Window, backendUrl: string)
      ensures this.window == window && this.backendUrl == backendUrl
      ensures error == "" && !loading
    {
      this.window := window;
      this.backendUrl := backendUrl;
      error := "";
      loading := false;
    }

    function State(): LoginState
      reads this, window
    {
      LoginState(window.storage, window.route, error, loading)
    }

    /** `handleLogin`: clears the error, raises the loading flag, sends the
        credentials and handles `reply`; the flag is lowered on every path. */
    method HandleLogin(username: string, password: string, reply: LoginReply) returns (request: LoginRequest)
      modifies this, window
      ensures request == LoginRequest(backendUrl + LoginPath, username, password)
      ensures State() == AfterLogin(old(State()), reply)
    {
      error := "";
      loading := true;
      request := LoginRequest(backendUrl + LoginPath, username, password);
      match reply {
        case LoginThrew =>
          error := ConnectFailed;
        case LoginResponse(ok, data) =>
          if ok && Truthy(data.success) {
            window.SetItem(TokenKey, ToText(data.token));
            window.SetItem(UsernameKey, ToText(data.username));
            window.Navigate(DashboardRoute);
          } else {
            error := ToText(Or(data.detail, Str(InvalidCredentials)));
          }
      }
      loading := false;
    }
  }
}
