/** The direct database-REST client of the storefront: configuration read from
    the environment, normalisation of the base URL to the REST API root, the
    insert call that turns every reply into a `{data, error}` record, its two
    table-specific wrappers, and the write-once anonymous visitor id. */
module SupabaseClient {
  import opened Js
  import opened JsNumber
  import opened Browser

  /** The environment variables the client reads; each may be unset. */
  datatype Env = Env(
    reactUrl: Option<string>, nextUrl: Option<string>,
    reactAnonKey: Option<string>, reactPublishableKey: Option<string>, nextAnonKey: Option<string>,
    reactSchema: Option<string>, nextSchema: Option<string>)

  /** What the module computes once, at load time. */
  datatype Client = Client(key: Option<string>, schema: string, rest: Option<string>)

  const RestPath := "/rest/v1"
  const NotConfiguredMessage := "Supabase client not configured"

  /** `url.replace(/\/+$/, '')`: the maximal run of trailing slashes goes. */
  function StripTrailingSlashes(s: string): (r: string)
    ensures r <= s
    ensures r == [] || r[|r| - 1] != '/'
    ensures forall i :: |r| <= i < |s| ==> s[i] == '/'
  {
    if |s| > 0 && s[|s| - 1] == '/' then StripTrailingSlashes(s[..|s| - 1]) else s
  }

  /** `baseUrl`: the configured URL without trailing slashes, or `null`. */
  function BaseUrl(url: Option<string>): Option<string> {
    if IsSet(url) then Some(StripTrailingSlashes(url.value)) else None
  }

  /** `rest`: a non-empty base URL with `/rest/v1` appended unless it already
      ends with it; an empty base URL is falsy and gives `null`. */
  function RestRoot(base: Option<string>): (r: Option<string>)
    ensures r.Some? <==> IsSet(base)
    ensures r.Some? ==> EndsWith(r.value, RestPath)
    ensures r.Some? ==> (EndsWith(base.value, RestPath) <==> r.value == base.value)
  {
    if !IsSet(base) then None
    else if EndsWith(base.value, RestPath) then base
    else
      assert (base.value + RestPath)[|base.value|..] == RestPath;
      Some(base.value + RestPath)
  }

  /** The schema: the first configured one, or `public`. */
  function Schema(env: Env): (r: string)
    ensures r != ""
    ensures IsSet(env.reactSchema) ==> r == env.reactSchema.value
    ensures !IsSet(env.reactSchema) && IsSet(env.nextSchema) ==> r == env.nextSchema.value
    ensures !IsSet(env.reactSchema) && !IsSet(env.nextSchema) ==> r == "public"
  {
    var s := EnvOr(env.reactSchema, env.nextSchema);
    if IsSet(s) then s.value else "public"
  }

  function FromEnv(env: Env): Client {
    var url := EnvOr(env.reactUrl, env.nextUrl);
    var key := EnvOr(EnvOr(env.reactAnonKey, env.reactPublishableKey), env.nextAnonKey);
    Client(key, Schema(env), RestRoot(BaseUrl(url)))
  }

  /** The REST root is configured exactly when the URL has a character other
      than `/`: a URL made only of slashes strips to the empty string. */
  lemma RestConfiguredIff(url: Option<string>)
    ensures RestRoot(BaseUrl(url)).Some? <==>
            IsSet(url) && exists i :: 0 <= i < |url.value| && url.value[i] != '/'
  {
    if IsSet(url) {
      var s := url.value;
      var r := StripTrailingSlashes(s);
      if r == [] {
        assert forall i :: 0 <= i < |s| ==> s[i] == '/';
      } else {
        assert s[|r| - 1] != '/';
      }
    }
  }

  /** The client read from the environment inserts, rather than failing fast,
      exactly when the URL chain gives a URL with a character other than `/`
      and one of the three key variables is set. */
  lemma ConfiguredFromEnv(env: Env)
    ensures Configured(FromEnv(env)) <==>
            (var url := EnvOr(env.reactUrl, env.nextUrl);
             IsSet(url) && exists i :: 0 <= i < |url.value| && url.value[i] != '/')
            && (IsSet(env.reactAnonKey) || IsSet(env.reactPublishableKey) || IsSet(env.nextAnonKey))
  {
    var rest := RestRoot(BaseUrl(EnvOr(env.reactUrl, env.nextUrl)));
    RestConfiguredIff(EnvOr(env.reactUrl, env.nextUrl));
    assert rest.Some? ==> |rest.value| >= |RestPath|;
  }

  /** Normalising an already normalised REST root changes nothing. */
  lemma {:induction false} NormalisationIdempotent(url: Option<string>)
    requires RestRoot(BaseUrl(url)).Some?
    ensures RestRoot(BaseUrl(RestRoot(BaseUrl(url)))) == RestRoot(BaseUrl(url))
  {
    var r := RestRoot(BaseUrl(url)).value;
    assert r[|r| - 1] == RestPath[|RestPath| - 1] == '1';
    assert StripTrailingSlashes(r) == r;
  }

  /** The endpoint of a table. */
  function Endpoint(rest: string, table: string): string {
    rest + "/" + table
  }

  /** The request headers; the key travels as `apikey` and as a bearer token. */
  function Headers(key: string, schema: string): (h: seq<(string, string)>)
    ensures ("apikey", key) in h && ("Authorization", "Bearer " + key) in h
  {
    [("apikey", key), ("Authorization", "Bearer " + key),
     ("Content-Profile", schema), ("Accept-Profile", schema),
     ("Content-Type", "application/json"), ("Prefer", "return=minimal")]
  }

  datatype Request = Request(endpoint: string, headers: seq<(string, string)>, body: string)

  /** The fields of a parsed JSON error body that the client looks at; a body
      that is not an object has all three `Undefined`. */
  datatype ErrorJson = ErrorJson(message: Value, error: Value, hint: Value)

  /** `response.text()`: it threw, or gave `raw`, which `JSON.parse` either
      turned into a value (`Some`) or rejected (`None`). */
  datatype BodyText = TextThrew | Text(raw: string, json: Option<ErrorJson>)

  /** The outcome of `fetch`: an exception whose `message` property is given,
      or a response. */
  datatype Reply =
    | FetchThrew(message: Value)
    | Response(status: int, statusText: string, ok: bool, body: BodyText)

  datatype DbError = DbError(message: string, status: Option<int>)

  /** `{data: null, error}`; `data` is `null` on every path, so only the error
      is kept. */
  datatype InsertResult = InsertResult(error: Option<DbError>)

  predicate Configured(c: Client) {
    IsSet(c.rest) && IsSet(c.key)
  }

  /** The status line, trimmed. */
  function StatusLine(status: int, statusText: string): string {
    Trim("HTTP " + IntToString(status) + " " + statusText)
  }

  /** Without a status text, the line is `HTTP <status>`. */
  lemma StatusLineWithoutText(status: int)
    ensures StatusLine(status, "") == "HTTP " + IntToString(status)
  {
    var n := IntToString(status);
    var t := "HTTP " + n;
    var s := t + " ";
    assert "HTTP " + n + " " + "" == s;
    assert s[..|s| - 1] == t;
    assert IsWhiteSpace(s[|s| - 1]);
    assert TrimEnd(s) == TrimEnd(t);
    assert t[|t| - 1] == n[|n| - 1];
    TrimEndKeeps(t);
    assert t[0] == 'H';
    TrimStartKeeps(t);
  }

  /** The message priority of a rejected request: a JSON body's `message`,
      `error` or `hint`, the first that is truthy; a non-JSON body's raw text;
      and the status line when the body is empty, unreadable, or has none of
      the three fields. */
  function Reason(status: int, statusText: string, body: BodyText): string {
    match body
    case TextThrew => StatusLine(status, statusText)
    case Text(raw, json) =>
      if raw == "" then StatusLine(status, statusText)
      else if json.None? then raw
      else if Truthy(json.value.message) then ToText(json.value.message)
      else if Truthy(json.value.error) then ToText(json.value.error)
      else if Truthy(json.value.hint) then ToText(json.value.hint)
      else StatusLine(status, statusText)
  }

  function Diagnostic(message: string, endpoint: string): string {
    message + " (" + endpoint + ")"
  }

  /** What `insertDirect(table, payload)` does with a given reply: the
      request it sends (none when unconfigured) and the record it returns. */
  predicate Inserted(c: Client, table: string, payload: string, reply: Reply,
                     sent: Option<Request>, result: InsertResult)
  {
    if !Configured(c) then
      sent == None && result == InsertResult(Some(DbError(NotConfiguredMessage, None)))
    else
      var endpoint := Endpoint(c.rest.value, table);
      && sent == Some(Request(endpoint, Headers(c.key.value, c.schema), payload))
      && match reply
         case FetchThrew(e) =>
           result == InsertResult(Some(DbError(if Truthy(e) then ToText(e) else "Network error", None)))
         case Response(status, statusText, ok, body) =>
           if ok then result == InsertResult(None)
           else result == InsertResult(Some(DbError(
                  Diagnostic(Reason(status, statusText, body), endpoint), Some(status))))
  }

  /** `insertDirect`: fails fast when unconfigured, otherwise posts `payload`
      (its JSON text) and maps the reply; it never throws. */
  method InsertDirect(c: Client, table: string, payload: string, reply: Reply)
    returns (sent: Option<Request>, result: InsertResult)
    ensures Inserted(c, table, payload, reply, sent, result)
  {
    if !IsSet(c.rest) || !IsSet(c.key) {
      return None, InsertResult(Some(DbError(NotConfiguredMessage, None)));
    }
    var endpoint := Endpoint(c.rest.value, table);
    sent := Some(Request(endpoint, Headers(c.key.value, c.schema), payload));
    match reply {
      case FetchThrew(e) =>
        result := InsertResult(Some(DbError(ToText(Or(e, Str("Network error"))), None)));
      case Response(status, statusText, ok, body) =>
        if !ok {
          var msg := StatusLine(status, statusText);
          match body {
            case TextThrew =>
            case Text(raw, json) =>
              if raw != "" {
                match json {
                  case Some(j) => msg := ToText(Or(j.message, Or(j.error, Or(j.hint, Str(msg)))));
                  case None => msg := raw;
                }
              }
          }
          result := InsertResult(Some(DbError(Diagnostic(msg, endpoint), Some(status))));
        } else {
          result := InsertResult(None);
        }
    }
  }

  /** `recordSelection`: an insert into `selections`. */
  method RecordSelection(c: Client, payload: string, reply: Reply)
    returns (sent: Option<Request>, result: InsertResult)
    ensures Inserted(c, "selections", payload, reply, sent, result)
  {
    sent, result := InsertDirect(c, "selections", payload, reply);
  }

  /** `saveShippingDetails`: an insert into `shipping_details`. */
  method SaveShippingDetails(c: Client, payload: string, reply: Reply)
    returns (sent: Option<Request>, result: InsertResult)
    ensures Inserted(c, "shipping_details", payload, reply, sent, result)
  {
    sent, result := InsertDirect(c, "shipping_details", payload, reply);
  }

  /** Every configured call that reaches a server and is rejected reports
      the status and names the endpoint; only rejections carry a status. */
  lemma RejectionNamesEndpoint(c: Client, table: string, payload: string, reply: Reply,
                               sent: Option<Request>, result: InsertResult)
    requires Inserted(c, table, payload, reply, sent, result)
    ensures result.error.Some? && result.error.value.status.Some? <==>
            Configured(c) && reply.Response? && !reply.ok
    ensures Configured(c) && reply.Response? && !reply.ok ==>
            result.error.value.status == Some(reply.status) &&
            EndsWith(result.error.value.message, " (" + Endpoint(c.rest.value, table) + ")")
  {
    if Configured(c) && reply.Response? && !reply.ok {
      var m := Reason(reply.status, reply.statusText, reply.body);
      DiagnosticEndsWithEndpoint(m, Endpoint(c.rest.value, table));
    }
  }

  lemma DiagnosticEndsWithEndpoint(message: string, endpoint: string)
    ensures EndsWith(Diagnostic(message, endpoint), " (" + endpoint + ")")
  {
    var tail := " (" + endpoint + ")";
    assert Diagnostic(message, endpoint) == message + tail;
    assert (message + tail)[|message|..] == tail;
  }

  /** A 400 with body `{"message":"invalid email"}` is reported as
      `invalid email (<endpoint>)`. */
  lemma InvalidEmailExample(c: Client, payload: string, sent: Option<Request>, result: InsertResult)
    requires Configured(c)
    requires Inserted(c, "shipping_details", payload,
                      Response(400, "Bad Request", false,
                               Text("{\"message\":\"invalid email\"}",
                                    Some(ErrorJson(Str("invalid email"), Undefined, Undefined)))),
                      sent, result)
    ensures result.error == Some(DbError("invalid email (" + c.rest.value + "/shipping_details)", Some(400)))
  {
    var body := Text("{\"message\":\"invalid email\"}",
                     Some(ErrorJson(Str("invalid email"), Undefined, Undefined)));
    assert Reason(400, "Bad Request", body) == "invalid email";
    var endpoint := Endpoint(c.rest.value, "shipping_details");
    assert Diagnostic("invalid email", endpoint) == "invalid email (" + c.rest.value + "/shipping_details)";
  }

  const VisitorIdKey := "visitorId"

  /** The inputs of the id generator: `crypto.randomUUID()` when available,
      otherwise `Date.now()` and the digits of `Math.random()` in base 36. */
  datatype IdSource = IdSource(randomUUID: Option<string>, nowMillis: nat, randomBase36: string)

  /** The generated id: a 36-character UUID, or `<now>-<random>`. */
  function FreshVisitorId(src: IdSource): (id: string)
    requires src.randomUUID.Some? ==> |src.randomUUID.value| == 36
    ensures id != ""
    ensures src.randomUUID.Some? ==> id == src.randomUUID.value
    ensures src.randomUUID.None? ==> StartsWith(id, IntToString(src.nowMillis) + "-")
  {
    if src.randomUUID.Some? then src.randomUUID.value
    else
      var id := IntToString(src.nowMillis) + "-" + src.randomBase36;
      assert id[..|IntToString(src.nowMillis) + "-"|] == IntToString(src.nowMillis) + "-";
      id
  }

  /** `ensureVisitorId`: the stored id when it is non-empty; otherwise a fresh
      one, which is stored. No other key and not the route changes. */
  method EnsureVisitorId(w: Window, src: IdSource) returns (id: string)
    requires src.randomUUID.Some? ==> |src.randomUUID.value| == 36
    modifies w
    ensures IsSet(Lookup(old(w.storage), VisitorIdKey)) ==>
              id == old(w.storage)[VisitorIdKey] && w.storage == old(w.storage)
    ensures !IsSet(Lookup(old(w.storage), VisitorIdKey)) ==>
              id == FreshVisitorId(src) && w.storage == old(w.storage)[VisitorIdKey := id]
    ensures w.route == old(w.route)
    ensures id != "" && Lookup(w.storage, VisitorIdKey) == Some(id)
  {
    var stored := Lookup(w.storage, VisitorIdKey);
    if !IsSet(stored) {
      id := FreshVisitorId(src);
      w.SetItem(VisitorIdKey, id);
    } else {
      id := stored.value;
    }
  }

  /** Two calls return the same id, and the second leaves storage as the
      first left it, whatever the generator would have produced. */
  method EnsureVisitorIdTwice(w: Window, src1: IdSource, src2: IdSource)
    returns (first: string, second: string)
    requires src1.randomUUID.Some? ==> |src1.randomUUID.value| == 36
    requires src2.randomUUID.Some? ==> |src2.randomUUID.value| == 36
    modifies w
    ensures second == first
    ensures w.storage == old(w.storage)[VisitorIdKey := first]
  {
    first := EnsureVisitorId(w, src1);
    ghost var afterFirst := w.storage;
    second := EnsureVisitorId(w, src2);
    assert w.storage == afterFirst;
  }
}
