/** The admin dashboard: a page that captures the stored token when it is
    created, loads the active tab's records (or sends the visitor to the login
    page when there is no token), tears the session down on a 401, downloads
    the active tab's spreadsheet, and logs out. */
module AdminDashboard {
  import opened Js
  import opened Browser
  import opened SearchParams
  import opened AdminLogin

  const LoginRoute := "/admin/login"
  const LogoutPath := "/api/admin/logout"
  const LoadFailed := "Failed to load data"
  const DownloadFailed := "Failed to download file"

  datatype Tab = Waitlist | Orders

  /** A submission row as the server sends it: named fields with their text. */
  datatype AdminRecord = AdminRecord(fields: map<string, string>)

  /** The fields of the parsed list reply the page reads. */
  datatype LoadBody = LoadBody(success: Value, data: seq<AdminRecord>, detail: Value)

  /** The list exchange: `LoadThrew` when `fetch` throws; otherwise the
      status and the parsed body, `None` when `response.json()` throws or the
      body is `null` (reading `data.success` then throws into the same catch). */
  datatype LoadReply = LoadThrew | LoadResponse(status: int, body: Option<LoadBody>)

  /** The download exchange: `DownloadThrew` when `fetch` throws; otherwise
      the `ok` flag and the bytes, `None` when `response.blob()` throws. */
  datatype DownloadReply = DownloadThrew | DownloadResponse(ok: bool, blob: Option<seq<bv8>>)

  /** What a download ends in: a file handed to the browser, or an alert. */
  datatype DownloadEvent = Saved(filename: string, contents: seq<bv8>) | Alerted(message: string)

  /** The logout POST: its URL and the token its JSON body carries. */
  datatype LogoutRequest = LogoutRequest(url: string, token: Option<string>)

  /** Whether the logout POST went through; the page ignores it. */
  datatype LogoutOutcome = LogoutSent | LogoutThrew

  function LoadEndpoint(tab: Tab): string {
    if tab == Waitlist then "/api/admin/waitlist" else "/api/admin/orders"
  }

  function DownloadEndpoint(tab: Tab): string {
    if tab == Waitlist then "/api/admin/waitlist/download" else "/api/admin/orders/download"
  }

  function FileName(tab: Tab): string {
    if tab == Waitlist then "waitlist_submissions.xlsx" else "order_submissions.xlsx"
  }

  /** `${BACKEND_URL}${endpoint}?token=${token}`: an unset backend address
      renders as `undefined`, a missing token as `null`. */
  function RequestUrl(backendUrl: Option<string>, endpoint: string, token: Option<string>): string {
    UndefinedText(backendUrl) + endpoint + "?token=" + NullableText(token)
  }

  /** Everything the handlers change: the page's fields and the browser's. */
  datatype PageState = PageState(
    tab: Tab, waitlist: seq<AdminRecord>, orders: seq<AdminRecord>,
    loading: bool, error: string, storage: map<string, string>, route: string)

  /** `currentData`: the list of the active tab. */
  function Current(s: PageState): seq<AdminRecord> {
    if s.tab == Waitlist then s.waitlist else s.orders
  }

  /** The download button is enabled when the active list is not empty. */
  predicate DownloadEnabled(s: PageState) {
    |Current(s)| != 0
  }

  predicate Unauthorized(reply: LoadReply) {
    reply.LoadResponse? && reply.status == 401
  }

  /** A reply that replaces the active list: parsed, not 401, `success`. */
  predicate Loaded(reply: LoadReply) {
    reply.LoadResponse? && reply.status != 401 && reply.body.Some? && Truthy(reply.body.value.success)
  }

  /** The state once `loadData` has finished with `reply`. */
  function AfterLoad(s: PageState, reply: LoadReply): PageState {
    match reply
    case LoadThrew => s.(error := ConnectFailed, loading := false)
    case LoadResponse(status, body) =>
      if status == 401 then
        s.(error := "", loading := false, storage := s.storage - {TokenKey, UsernameKey}, route := LoginRoute)
      else if body.None? then
        s.(error := ConnectFailed, loading := false)
      else if Truthy(body.value.success) then
        if s.tab == Waitlist then s.(waitlist := body.value.data, error := "", loading := false)
        else s.(orders := body.value.data, error := "", loading := false)
      else
        s.(error := ToText(Or(body.value.detail, Str(LoadFailed))), loading := false)
  }

  /** The state once the mount/tab effect has run: without a token the page
      goes to the login page and loads nothing. */
  function AfterEffect(s: PageState, hasToken: bool, reply: LoadReply): PageState {
    if hasToken then AfterLoad(s, reply) else s.(route := LoginRoute)
  }

  /** Choosing a tab reruns the effect only when the tab changes. */
  function AfterSelect(s: PageState, tab: Tab, hasToken: bool, reply: LoadReply): PageState {
    if tab == s.tab then s else AfterEffect(s.(tab := tab), hasToken, reply)
  }

  /** The state after `handleLogout`. */
  function AfterLogout(s: PageState): PageState {
    s.(storage := s.storage - {TokenKey, UsernameKey}, route := LoginRoute)
  }

  /** A 401 removes both session keys and nothing else, sends the page to the
      login page, clears the error and leaves both lists as they were. */
  lemma UnauthorizedTeardown(s: PageState, reply: LoadReply)
    requires Unauthorized(reply)
    ensures var r := AfterLoad(s, reply);
            Lookup(r.storage, TokenKey).None? && Lookup(r.storage, UsernameKey).None?
            && r.route == LoginRoute && r.error == "" && !r.loading
            && r.waitlist == s.waitlist && r.orders == s.orders
    ensures var r := AfterLoad(s, reply);
            forall k :: k != TokenKey && k != UsernameKey ==> Lookup(r.storage, k) == Lookup(s.storage, k)
  {
  }

  /** Only the active tab's list can change, and it becomes the reply's data
      exactly when the reply is a successful one; nothing but a 401 touches
      storage or location. */
  lemma OnlyActiveListChanges(s: PageState, reply: LoadReply)
    ensures s.tab == Waitlist ==> AfterLoad(s, reply).orders == s.orders
    ensures s.tab == Orders ==> AfterLoad(s, reply).waitlist == s.waitlist
    ensures Loaded(reply) ==> Current(AfterLoad(s, reply)) == reply.body.value.data
    ensures !Loaded(reply) ==> Current(AfterLoad(s, reply)) == Current(s)
    ensures AfterLoad(s, reply).tab == s.tab
    ensures !Unauthorized(reply) ==> AfterLoad(s, reply).storage == s.storage && AfterLoad(s, reply).route == s.route
  {
  }

  /** The error after a load: empty after a 401 or a success, the server's
      `detail` or the fallback for another parsed reply, the connection
      message when the request or the parse threw. Loading is off after
      every outcome. */
  lemma LoadErrors(s: PageState, reply: LoadReply)
    ensures Unauthorized(reply) || Loaded(reply) ==> AfterLoad(s, reply).error == ""
    ensures reply.LoadThrew? || (reply.LoadResponse? && reply.status != 401 && reply.body.None?) ==>
              AfterLoad(s, reply).error == ConnectFailed
    ensures reply.LoadResponse? && reply.status != 401 && reply.body.Some? && !Loaded(reply) ==>
              AfterLoad(s, reply).error == ToText(Or(reply.body.value.detail, Str(LoadFailed)))
    ensures !AfterLoad(s, reply).loading
  {
  }

  /** With a `detail` that is a string, `null` or absent, an error is shown
      exactly when the load neither succeeded nor hit a 401. */
  lemma ErrorShownIffLoadFailed(s: PageState, reply: LoadReply)
    requires reply.LoadResponse? && reply.body.Some? ==> !reply.body.value.detail.Other?
    ensures AfterLoad(s, reply).error != "" <==> !(Unauthorized(reply) || Loaded(reply))
  {
    if reply.LoadResponse? && reply.status != 401 && reply.body.Some? && !Loaded(reply) {
      assert Or(reply.body.value.detail, Str(LoadFailed)).Str?;
    }
  }

  /** Handling the same reply twice ends in the same state as handling it once. */
  lemma LoadIdempotent(s: PageState, reply: LoadReply)
    ensures AfterLoad(AfterLoad(s, reply), reply) == AfterLoad(s, reply)
  {
    if Unauthorized(reply) {
      var once := s.storage - {TokenKey, UsernameKey};
      assert once - {TokenKey, UsernameKey} == once;
    }
  }

  /** Loads and logouts never leave one session key without the other. */
  lemma SessionStaysConsistent(s: PageState, reply: LoadReply)
    requires SessionConsistent(s.storage)
    ensures SessionConsistent(AfterLoad(s, reply).storage)
    ensures SessionConsistent(AfterLogout(s).storage)
  {
  }

  /** Logout always ends signed out on the login page, and doing it again
      changes nothing. */
  lemma LogoutSignsOut(s: PageState)
    ensures Lookup(AfterLogout(s).storage, TokenKey).None? && Lookup(AfterLogout(s).storage, UsernameKey).None?
    ensures AfterLogout(s).route == LoginRoute
    ensures forall k :: k != TokenKey && k != UsernameKey ==> Lookup(AfterLogout(s).storage, k) == Lookup(s.storage, k)
    ensures AfterLogout(AfterLogout(s)) == AfterLogout(s)
  {
    var once := s.storage - {TokenKey, UsernameKey};
    assert once - {TokenKey, UsernameKey} == once;
  }

  /** Without a token the effect only changes the location; picking the tab
      already shown changes nothing. */
  lemma GuardAndSelect(s: PageState, tab: Tab, hasToken: bool, reply: LoadReply)
    ensures AfterEffect(s, false, reply) == s.(route := LoginRoute)
    ensures AfterSelect(s, s.tab, hasToken, reply) == s
    ensures tab != s.tab ==> AfterSelect(s, tab, hasToken, reply).tab == tab
  {
  }

  /** After a successful load the download button is enabled exactly when the
      reply carried records; after any other load it is as it was. */
  lemma DownloadEnabledAfterLoad(s: PageState, reply: LoadReply)
    ensures Loaded(reply) ==> (DownloadEnabled(AfterLoad(s, reply)) <==> |reply.body.value.data| != 0)
    ensures !Loaded(reply) ==> (DownloadEnabled(AfterLoad(s, reply)) <==> DownloadEnabled(s))
  {
    OnlyActiveListChanges(s, reply);
  }

  /** Each tab has its own endpoints and file name; the download endpoint is
      the list endpoint followed by `/download`. */
  lemma PerTabChoices(tab: Tab)
    ensures DownloadEndpoint(tab) == LoadEndpoint(tab) + "/download"
    ensures LoadEndpoint(Waitlist) != LoadEndpoint(Orders)
    ensures FileName(Waitlist) != FileName(Orders)
    ensures EndsWith(FileName(tab), ".xlsx")
  {
    assert LoadEndpoint(Waitlist)[11] != LoadEndpoint(Orders)[11];
    assert FileName(Waitlist)[0] != FileName(Orders)[0];
    var stem := if tab == Waitlist then "waitlist_submissions" else "order_submissions";
    assert FileName(tab) == stem + ".xlsx";
    assert (stem + ".xlsx")[|stem|..] == ".xlsx";
  }

  /** The server reads back the token the page sent, for a backend address
      without `?` or `#` and a token that needs no escaping. */
  lemma TokenReachesServer(backendUrl: string, tab: Tab, token: string)
    requires '?' !in backendUrl && '#' !in backendUrl
    requires Plain(token) && '#' !in token
    ensures Get(Search(RequestUrl(Some(backendUrl), LoadEndpoint(tab), Some(token))), "token") == Some(token)
    ensures Get(Search(RequestUrl(Some(backendUrl), DownloadEndpoint(tab), Some(token))), "token") == Some(token)
  {
    TokenOfPath(backendUrl, LoadEndpoint(tab), token);
    TokenOfPath(backendUrl, DownloadEndpoint(tab), token);
  }

  lemma TokenOfPath(backendUrl: string, endpoint: string, token: string)
    requires '?' !in backendUrl && '#' !in backendUrl && '?' !in endpoint && '#' !in endpoint
    requires Plain(token) && '#' !in token
    ensures Get(Search(RequestUrl(Some(backendUrl), endpoint, Some(token))), "token") == Some(token)
  {
    var p := backendUrl + endpoint;
    var q := "token" + "=" + token;
    assert RequestUrl(Some(backendUrl), endpoint, Some(token)) == p + "?" + q;
    assert '?' !in p && '#' !in p;
    assert '#' !in q;
    SearchOf(p, q);
    GetOfOne("token", token);
  }

  /** The dashboard page. `token` is read from storage once, when the page is
      created, and stays as it was read even after the session keys are
      removed; `backendUrl` is the build-time backend address, if any. */
  class Dashboard {
    const window: Window
    const backendUrl: Option<string>
    const token: Option<string>
    const username: Option<string>
    var activeTab: Tab
    var waitlistData: seq<AdminRecord>
    var ordersData: seq<AdminRecord>
    var loading: bool
    var error: string

    constructor (window: Window, backendUrl: Option<string>)
      ensures this.window == window && this.backendUrl == backendUrl
      ensures token == Lookup(window.storage, TokenKey) && username == Lookup(window.storage, UsernameKey)
      ensures State() == PageState(Waitlist, [], [], false, "", window.storage, window.route)
    {
      this.window := window;
      this.backendUrl := backendUrl;
      token := Lookup(window.storage, TokenKey);
      username := Lookup(window.storage, UsernameKey);
      activeTab := Waitlist;
      waitlistData := [];
      ordersData := [];
      loading := false;
      error := "";
    }

    function State(): PageState
      reads this, window
    {
      PageState(activeTab, waitlistData, ordersData, loading, error, window.storage, window.route)
    }

    /** `loadData`: fetches the active tab's list with the captured token and
        handles `reply`; returns the URL it requested. */
    method LoadData(reply: LoadReply) returns (url: string)
      modifies this, window
      ensures url == RequestUrl(backendUrl, LoadEndpoint(old(activeTab)), token)
      ensures State() == AfterLoad(old(State()), reply)
    {
      loading := true;
      error := "";
      url := RequestUrl(backendUrl, LoadEndpoint(activeTab), token);
      match reply {
        case LoadThrew =>
          error := ConnectFailed;
        case LoadResponse(status, body) =>
          if status == 401 {
            window.RemoveItem(TokenKey);
            window.RemoveItem(UsernameKey);
            window.Navigate(LoginRoute);
            assert window.storage == old(window.storage) - {TokenKey, UsernameKey};
          } else if body.None? {
            error := ConnectFailed;
          } else if Truthy(body.value.success) {
            if activeTab == Waitlist {
              waitlistData := body.value.data;
            } else {
              ordersData := body.value.data;
            }
          } else {
            error := ToText(Or(body.value.detail, Str(LoadFailed)));
          }
      }
      loading := false;
    }

    /** The effect that runs when the page appears and whenever the tab
        changes; returns the URL requested, if any. */
    method Effect(reply: LoadReply) returns (url: Option<string>)
      modifies this, window
      ensures url == if IsSet(token) then Some(RequestUrl(backendUrl, LoadEndpoint(activeTab), token)) else None
      ensures State() == AfterEffect(old(State()), IsSet(token), reply)
    {
      if !IsSet(token) {
        window.Navigate(LoginRoute);
        url := None;
      } else {
        var u := LoadData(reply);
        url := Some(u);
      }
    }

    /** A click on a tab button: `setActiveTab(tab)`, then the effect when the
        tab changed. */
    method SelectTab(tab: Tab, reply: LoadReply) returns (url: Option<string>)
      modifies this, window
      ensures url == if tab != old(activeTab) && IsSet(token) then Some(RequestUrl(backendUrl, LoadEndpoint(tab), token)) else None
      ensures State() == AfterSelect(old(State()), tab, IsSet(token), reply)
    {
      if tab == activeTab {
        url := None;
      } else {
        activeTab := tab;
        url := Effect(reply);
      }
    }

    /** `handleDownload`: requests the active tab's spreadsheet; a reply that
        is `ok` and whose bytes can be read is saved under the tab's file
        name, anything else ends in an alert. The page's state is unchanged. */
    method HandleDownload(reply: DownloadReply) returns (url: string, event: DownloadEvent)
      ensures url == RequestUrl(backendUrl, DownloadEndpoint(activeTab), token)
      ensures event.Saved? <==> reply.DownloadResponse? && reply.ok && reply.blob.Some?
      ensures event.Saved? ==> event.filename == FileName(activeTab) && event.contents == reply.blob.value
      ensures event.Alerted? ==> event.message == DownloadFailed
    {
      url := RequestUrl(backendUrl, DownloadEndpoint(activeTab), token);
      if reply.DownloadThrew? || !reply.ok || reply.blob.None? {
        event := Alerted(DownloadFailed);
      } else {
        event := Saved(FileName(activeTab), reply.blob.value);
      }
    }

    /** `handleLogout`: posts the captured token, then signs out whatever
        became of that request. */
    method HandleLogout(outcome: LogoutOutcome) returns (request: LogoutRequest)
      modifies window
      ensures request == LogoutRequest(UndefinedText(backendUrl) + LogoutPath, token)
      ensures State() == AfterLogout(old(State()))
    {
      request := LogoutRequest(UndefinedText(backendUrl) + LogoutPath, token);
      window.RemoveItem(TokenKey);
      window.RemoveItem(UsernameKey);
      window.Navigate(LoginRoute);
      assert window.storage == old(window.storage) - {TokenKey, UsernameKey};
    }
  }

  /** After a 401 the session is gone, so a dashboard opened afterwards finds
      no token and goes straight to the login page without loading; the page
      that received the 401 still holds the token it captured. */
  method ReopenAfterUnauthorized(w: Window, backendUrl: Option<string>, reply: LoadReply, next: LoadReply)
      returns (first: Dashboard, second: Dashboard, url: Option<string>)
    requires Unauthorized(reply)
    requires IsSet(Lookup(w.storage, TokenKey))
    modifies w
    ensures first.token == Lookup(old(w.storage), TokenKey)
    ensures second.token.None? && url.None?
    ensures w.route == LoginRoute
    ensures w.storage == old(w.storage) - {TokenKey, UsernameKey}
  {
    first := new Dashboard(w, backendUrl);
    var u := first.LoadData(reply);
    second := new Dashboard(w, backendUrl);
    url := second.Effect(next);
  }
}
