# 1percentclub storefront: verified model of the handler logic

This project models, in Dafny, the decision logic of a small React storefront's front end. Its pages are mostly
presentation, but a few handlers make real decisions:

- **Database client.** It is the direct REST client for the database (`supabaseClient.js`):
  - it normalises the base URL to the REST root, and reads the key and the schema from the environment;
  - it inserts a row and maps every reply to a `{data, error}` record, with a fixed rule for which message wins;
  - it keeps a write-once anonymous visitor id in `localStorage`.
- **Checkout page.** It reads the cart from storage and computes the two cart totals, each a `reduce` fold. It also
  looks up the product picture, shows the empty-cart branch, and runs the "continue to payment" step. That step
  records `checkoutData` and moves to `/confirmation?items=…&total=…`.
- **Confirmation page.** It reads `items` and `total` back from the query with `parseInt(… || default)`.
- **Admin login page.** It stores a session only on `ok && success`; every failure shows an error message.
- **Admin dashboard.** It is a small state machine over `localStorage`, two record lists, `error`, `loading` and
  the location:
  - a guard that redirects when there is no token;
  - a 401 teardown;
  - a load that replaces only the active tab's list;
  - a choice of endpoint and file name for each tab's download;
  - a logout that always signs out.
- **Backend address.** `getBackendUrl` chooses the address from the environment and the page's location.

How the model is built:

- **The browser** (`browser.dfy`) is a `Window` object:
  - `localStorage` is a field `storage: map<string, string>`;
  - the router's location is a field `route`;
  - `setItem`, `removeItem` and `navigate` are methods that change these fields.
- **Network replies** are input datatypes. Their variants cover the outcomes the handlers treat differently: a
  status or `ok` flag, a parsed body, and exceptions from `fetch`, `json()`, `text()` or `blob()`. File saves and
  alerts are an output event (`DownloadEvent`).
- **Pages whose handlers update state** are classes with those fields: `AdminLogin.LoginPage` and
  `AdminDashboard.Dashboard`.
  - Each class has a `State()` function.
  - Each handler's `ensures` ties the new state to a pure transition function of the old one (`AfterLogin`,
    `AfterLoad`, `AfterEffect`, `AfterSelect`, `AfterLogout`).
  - The properties of those transitions are lemmas.
- **The dashboard's token** is read from storage once, when the page object is created, and kept as a `const`. The
  page itself reads it again on every render (frontend/src/pages/AdminDashboard.jsx:17), but the two agree: only the
  401 path and logout remove the key, and both then leave the page (lines 39 and 99). `ReopenAfterUnauthorized`
  shows that a page opened after a 401 finds no token.
- **JavaScript runtime behaviour** that the handlers depend on is written out:
  - truthiness and `||` over a small `Value` type (`js.dfy`);
  - `String(…)`;
  - `trim()` over the ECMAScript white-space and line-terminator set;
  - `parseInt` without a radix, including the `0x` prefix, with `NaN` as `None` (`numbers.dfy`);
  - the integer-to-text conversion of a template literal (`JsNumber.IntToString`);
  - `location.search` and `URLSearchParams.get` (`search_params.dfy`).

## Model

| member | source | states |
|---|---|---|
| SupabaseClient.FromEnv | frontend/src/lib/supabaseClient.js:3-23 | the client configuration: the URL as the React variable or else the Next one, the key as the first set of the three key variables, the schema, and the REST root of the normalised URL |
| SupabaseClient.ConfiguredFromEnv | frontend/src/lib/supabaseClient.js:3-35 | the client read from the environment passes the fail-fast test if and only if the URL chain gives a URL with a character other than `/` and one of the three key variables is set |
| SupabaseClient.BaseUrl | frontend/src/lib/supabaseClient.js:13 | `url ? url.replace(/\/+$/, '') : null`, built on `StripTrailingSlashes` |
| SupabaseClient.StripTrailingSlashes | frontend/src/lib/supabaseClient.js:13 | the base URL is a prefix of the configured URL, never ends in `/`, and only `/` characters were removed |
| SupabaseClient.RestRoot | frontend/src/lib/supabaseClient.js:21-23 | `rest` is present exactly when the base URL is non-empty, always ends with `/rest/v1`, and equals the base URL exactly when that already ended with `/rest/v1` |
| SupabaseClient.RestConfiguredIff | frontend/src/lib/supabaseClient.js:13-23 | the REST root is configured if and only if a URL is set and has a character other than `/` |
| SupabaseClient.NormalisationIdempotent | frontend/src/lib/supabaseClient.js:21-23 | normalising an already normalised REST root again gives the same root |
| SupabaseClient.Schema | frontend/src/lib/supabaseClient.js:9-11 | the schema is the React variable if set, else the Next variable if set, else `public`; never empty |
| SupabaseClient.Headers | frontend/src/lib/supabaseClient.js:40-47 | the key is sent both as `apikey` and as `Authorization: Bearer <key>` |
| SupabaseClient.StatusLineWithoutText | frontend/src/lib/supabaseClient.js:51 | with an empty status text the trimmed status line is exactly `HTTP <status>` |
| SupabaseClient.StatusLine | frontend/src/lib/supabaseClient.js:51 | the trimmed `HTTP <status> <statusText>` line, the message of last resort |
| SupabaseClient.Reason | frontend/src/lib/supabaseClient.js:51-63 | the message of a rejected insert: the status line when the body cannot be read or is empty; the raw text when it is not JSON; otherwise the first truthy of `message`, `error` and `hint`, falling back to the status line |
| SupabaseClient.Endpoint | frontend/src/lib/supabaseClient.js:37 | the endpoint `<rest>/<table>` |
| SupabaseClient.Inserted | frontend/src/lib/supabaseClient.js:34-70 | the reference description of an insert that `InsertDirect` is proved against: the request sent (none when unconfigured) and the record returned for each kind of reply |
| SupabaseClient.InsertDirect | frontend/src/lib/supabaseClient.js:34-70 | an unconfigured client sends nothing and returns `Supabase client not configured`. Otherwise it POSTs to `rest/table` with the headers and the payload. A thrown `fetch` gives its message or `Network error`, with no status. An ok reply gives no error. A rejection gives the message chosen by the priority rule, then ` (<endpoint>)`, with the status. Every path returns a record |
| SupabaseClient.RecordSelection | frontend/src/lib/supabaseClient.js:72-74 | an insert into the `selections` table |
| SupabaseClient.SaveShippingDetails | frontend/src/lib/supabaseClient.js:76-78 | an insert into the `shipping_details` table |
| SupabaseClient.RejectionNamesEndpoint | frontend/src/lib/supabaseClient.js:50-65 | a result carries a status if and only if the client is configured and the server rejected the request; then the status is the reply's and the message ends with ` (<endpoint>)` |
| SupabaseClient.InvalidEmailExample | frontend/src/lib/supabaseClient.js:55-64 | a 400 whose JSON body has `message: "invalid email"` is reported as `invalid email (<rest>/shipping_details)` with status 400 |
| SupabaseClient.FreshVisitorId | frontend/src/lib/supabaseClient.js:28 | a generated id is the UUID when `randomUUID` exists, otherwise it starts with `<Date.now()>-`; never empty |
| SupabaseClient.EnsureVisitorId | frontend/src/lib/supabaseClient.js:25-32 | a stored non-empty id is returned and storage is untouched. Otherwise a fresh id is stored under `visitorId` and returned, and no other key changes. Afterwards storage holds the returned id |
| SupabaseClient.EnsureVisitorIdTwice | frontend/src/lib/supabaseClient.js:25-32 | two calls return the same id, and storage differs from the original only in `visitorId` (the second call writes nothing) |
| Checkout.LineTotal | frontend/src/pages/Checkout.jsx:39 | the per-item term `price × (quantity or 1)` |
| Checkout.Reduce | frontend/src/pages/Checkout.jsx:38-44 | `reduce` from 0 over the cart, as a left fold; its partner is `Sum`, related by `ReduceIsSum` |
| Checkout.TotalPrice | frontend/src/pages/Checkout.jsx:38-40 | `getTotalPrice`, the fold of `LineTotal`; its properties are `TotalsAreSums`, `TotalsDistribute` and `TotalPriceNonNegative` |
| Checkout.TotalItems | frontend/src/pages/Checkout.jsx:42-44 | `getTotalItems`, the fold of `Quantity`; its properties are `TotalsAreSums`, `TotalsDistribute` and `TotalItemsCoversEntries` |
| Checkout.Quantity | frontend/src/pages/Checkout.jsx:39 | the quantity used, the stored quantity or 1 when it is missing or 0, is never 0 |
| Checkout.ReduceConcat | frontend/src/pages/Checkout.jsx:38-44 | the `reduce` fold of a concatenation is the sum of the folds of the parts |
| Checkout.ReduceIsSum | frontend/src/pages/Checkout.jsx:38-44 | the left fold equals the first-to-last sum of the per-item term |
| Checkout.TotalsAreSums | frontend/src/pages/Checkout.jsx:38-44 | `getTotalPrice` is the sum of price × quantity-or-1 and `getTotalItems` the sum of quantity-or-1 |
| Checkout.TotalsDistribute | frontend/src/pages/Checkout.jsx:38-44 | both totals of `a + b` are the totals of `a` plus those of `b` |
| Checkout.TotalItemsCoversEntries | frontend/src/pages/Checkout.jsx:42-44 | with positive or missing quantities, the item count is at least the number of cart entries |
| Checkout.TotalPriceNonNegative | frontend/src/pages/Checkout.jsx:38-40 | non-negative prices and quantities give a non-negative total price |
| Checkout.TeeCartExample | frontend/src/pages/Checkout.jsx:38-44 | one entry at 999 with quantity 2 totals 1998 over 2 items |
| Checkout.ProductImage | frontend/src/pages/Checkout.jsx:25-36 | `getProductImage`: the mapped picture when there is a non-empty one, else the `White` picture; proved about by `ProductImageLookup` and `ProductImageIsMapped` |
| Checkout.ProductImageLookup | frontend/src/pages/Checkout.jsx:25-36 | a colour in the map gets its own picture, any other colour `/assets/white-model.png` |
| Checkout.ProductImageIsMapped | frontend/src/pages/Checkout.jsx:25-36 | every answer is one of the seven mapped pictures |
| Checkout.InitialCart | frontend/src/pages/Checkout.jsx:10-13 | an absent or empty `cart` value gives the empty cart; otherwise the parse result, and the mount fails exactly when `JSON.parse` throws |
| Checkout.CartAtMount | frontend/src/pages/Checkout.jsx:10-13 | read from the `cart` key: an absent key gives the empty cart, a stored non-empty value the result of parsing it, and the mount fails when that parse throws |
| Checkout.ScreenFor | frontend/src/pages/Checkout.jsx:61 | the empty-cart screen is shown if and only if the cart is empty, and then both totals are 0 |
| Checkout.OrderDataJson | frontend/src/pages/Checkout.jsx:48-53 | the `checkoutData` text, `JSON.stringify` of the item count, the total and the timestamp |
| Checkout.ConfirmationRoute | frontend/src/pages/Checkout.jsx:54 | the location `/confirmation?items=<items>&total=<total>`; read back by `Confirmation.RouteRoundTrip` |
| Browser.Window.constructor | frontend/src/pages/Checkout.jsx:9-11 | a browser holding the given storage and location |
| Browser.Window.SetItem | frontend/src/pages/Checkout.jsx:53 | `localStorage.setItem`: the key maps to the value afterwards, every other key and the location are unchanged |
| Browser.Window.RemoveItem | frontend/src/pages/AdminDashboard.jsx:37-38 | `localStorage.removeItem`: the key is gone afterwards, every other key and the location are unchanged |
| Browser.Window.Navigate | frontend/src/pages/Checkout.jsx:54 | `navigate`: the location becomes the target and storage is unchanged |
| Checkout.ContinueToPayment | frontend/src/pages/Checkout.jsx:46-55 | `checkoutData` becomes the JSON of both totals and the timestamp, and the location becomes `/confirmation?items=<items>&total=<total>` with the same totals. No other key, the cart included, changes |
| Confirmation.ReadNumber | frontend/src/pages/Confirmation.jsx:11-12 | `parseInt` of the parameter, or of the fallback when the parameter is null or empty |
| Confirmation.ReadSummary | frontend/src/pages/Confirmation.jsx:11-12 | the two numbers the page shows for a query: `items` with fallback `1`, `total` with fallback `4999` |
| Confirmation.ParseDefaults | frontend/src/pages/Confirmation.jsx:11-12 | the fallback texts parse to 1 and 4999 |
| Confirmation.Defaults | frontend/src/pages/Confirmation.jsx:11-12 | a missing or empty `items` reads as 1, a missing or empty `total` as 4999 |
| Confirmation.DigitParameter | frontend/src/pages/Confirmation.jsx:11-12 | a parameter made of decimal digits reads as the number it spells |
| Confirmation.ParametersIndependent | frontend/src/pages/Confirmation.jsx:11-12 | each number depends only on its own parameter |
| Confirmation.SearchOfRoute | frontend/src/pages/Checkout.jsx:54 | the query of the location checkout builds is exactly `items=<items>&total=<total>` |
| Confirmation.RouteRoundTrip | frontend/src/pages/Confirmation.jsx:11-12 | for any two integers, the confirmation page reads back exactly the two numbers the checkout location carries |
| Confirmation.CheckoutRoundTrip | frontend/src/pages/Confirmation.jsx:11-12 | for every cart, the confirmation page shows `getTotalItems()` and `getTotalPrice()` of that cart |
| JsNumber.ParseInt | frontend/src/pages/Confirmation.jsx:11-12 | `parseInt` without a radix: leading white space skipped, an optional sign, a `0x` prefix switching to radix 16, the longest run of digits; none gives `NaN` |
| JsNumber.IntToString | frontend/src/pages/Checkout.jsx:54 | the decimal text of an integer in a template literal: an optional `-` followed by digits and ending in a digit |
| JsNumber.ParseIntToString | frontend/src/pages/Confirmation.jsx:11-12 | `parseInt` of an integer's decimal text gives back that integer |
| JsNumber.ParseDecimalDigits | frontend/src/pages/Confirmation.jsx:11-12 | `parseInt` of a non-empty decimal digit string is its decimal value |
| JsNumber.HexPrefixExample | frontend/src/pages/Confirmation.jsx:11-12 | without a radix, `parseInt("0x1f")` is 31 |
| JsNumber.TrailingGarbageExample | frontend/src/pages/Confirmation.jsx:11-12 | `parseInt("12ab")` is 12 |
| SearchParams.GetOfTwo | frontend/src/pages/Confirmation.jsx:10-12 | both parameters of `n1=v1&n2=v2` read back as written, for components needing no escaping |
| SearchParams.Search | frontend/src/pages/Confirmation.jsx:10 | the query of a location: the text after the first `?` and before the first `#` |
| SearchParams.Get | frontend/src/pages/Confirmation.jsx:11-12 | `URLSearchParams.get`: split on `&`, empty pieces skipped, each piece split at its first `=`, `+` read as a space, the first pair with the name wins, `null` when none |
| AdminLogin.AfterLogin | frontend/src/pages/AdminLogin.jsx:16-43 | the page state after `handleLogin`: on `ok && success` the session stored and the dashboard shown; otherwise the error `detail` or `Invalid credentials`, or `Failed to connect to server` after a throw; loading off |
| AdminLogin.LoginOutcome | frontend/src/pages/AdminLogin.jsx:30-37 | on `ok && success`, `adminToken` and `adminUsername` hold `String(data.token)` and `String(data.username)`, the location is `/admin/dashboard` and there is no error. On any other outcome, storage and location are unchanged. No other key changes, and loading is off |
| AdminLogin.LoginErrors | frontend/src/pages/AdminLogin.jsx:35-40 | a parsed failure shows `data.detail` or `Invalid credentials`; a thrown request or parse shows `Failed to connect to server` |
| AdminLogin.ErrorShownIffFailed | frontend/src/pages/AdminLogin.jsx:30-37 | with a string, null or absent `detail`, an error is shown if and only if the login failed; `ok` without `success` fails |
| AdminLogin.LoginKeepsSessionConsistent | frontend/src/pages/AdminLogin.jsx:30-33 | a login never leaves one session key without the other |
| AdminLogin.LoginPage.constructor | frontend/src/pages/AdminLogin.jsx:9-12 | the page starts with no error and not loading |
| AdminLogin.LoginPage.HandleLogin | frontend/src/pages/AdminLogin.jsx:14-44 | posts the credentials to `<backend>/api/admin/login`, and the new state is `AfterLogin` of the old state and the reply. The error at the end depends only on the reply, because each attempt first clears it |
| AdminDashboard.LoadEndpoint | frontend/src/pages/AdminDashboard.jsx:33 | `/api/admin/waitlist` for the waitlist tab, `/api/admin/orders` otherwise |
| AdminDashboard.DownloadEndpoint | frontend/src/pages/AdminDashboard.jsx:64 | the same endpoints followed by `/download` |
| AdminDashboard.FileName | frontend/src/pages/AdminDashboard.jsx:75 | `waitlist_submissions.xlsx` for the waitlist tab, `order_submissions.xlsx` otherwise |
| AdminDashboard.RequestUrl | frontend/src/pages/AdminDashboard.jsx:34 | `${BACKEND_URL}${endpoint}?token=${token}`, with an unset address rendered `undefined` and a missing token `null` |
| AdminDashboard.Current | frontend/src/pages/AdminDashboard.jsx:102 | `currentData`: the active tab's list |
| AdminDashboard.DownloadEnabled | frontend/src/pages/AdminDashboard.jsx:163 | the download button is enabled when `currentData` is not empty |
| AdminDashboard.AfterLoad | frontend/src/pages/AdminDashboard.jsx:28-60 | the page state after `loadData`: a 401 tears the session down and goes to login; a thrown request or parse sets `Failed to connect to server`; `success` replaces the active list; otherwise the error is `detail` or `Failed to load data`; loading off |
| AdminDashboard.AfterEffect | frontend/src/pages/AdminDashboard.jsx:20-26 | the page state after the mount/tab effect: to login without loading when there is no token, else `AfterLoad` |
| AdminDashboard.AfterSelect | frontend/src/pages/AdminDashboard.jsx:131-153 | the page state after a tab click: unchanged for the current tab, else the new tab and `AfterEffect` |
| AdminDashboard.AfterLogout | frontend/src/pages/AdminDashboard.jsx:97-99 | the page state after logout: both session keys removed and the login page shown |
| AdminDashboard.GuardAndSelect | frontend/src/pages/AdminDashboard.jsx:20-26 | without a token the effect only moves to `/admin/login`; picking the tab already shown changes nothing |
| AdminDashboard.TokenReachesServer | frontend/src/pages/AdminDashboard.jsx:33-34 | the `token` query parameter of the list and download URLs reads back as the captured token |
| AdminDashboard.UnauthorizedTeardown | frontend/src/pages/AdminDashboard.jsx:36-41 | a 401 removes both session keys and nothing else, moves to `/admin/login`, leaves both lists unchanged, and ends with no error and loading off |
| AdminDashboard.OnlyActiveListChanges | frontend/src/pages/AdminDashboard.jsx:45-50 | only the active tab's list can change: it becomes `data.data` exactly on success, otherwise it is kept. Nothing but a 401 touches storage or the location |
| AdminDashboard.LoadErrors | frontend/src/pages/AdminDashboard.jsx:51-59 | the error is empty after a 401 or a success, `data.detail` or `Failed to load data` after another parsed reply, and `Failed to connect to server` after a thrown request or parse; loading is off after every outcome |
| AdminDashboard.ErrorShownIffLoadFailed | frontend/src/pages/AdminDashboard.jsx:36-56 | with a string, null or absent `detail`, an error is shown if and only if the load was neither a success nor a 401 |
| AdminDashboard.LoadIdempotent | frontend/src/pages/AdminDashboard.jsx:28-60 | handling the same reply twice ends in the same state as handling it once |
| AdminDashboard.SessionStaysConsistent | frontend/src/pages/AdminDashboard.jsx:36-41 | loads and logouts never leave one session key without the other |
| AdminDashboard.LogoutSignsOut | frontend/src/pages/AdminDashboard.jsx:86-100 | logout removes both keys and nothing else and moves to `/admin/login`; a second logout changes nothing |
| AdminDashboard.DownloadEnabledAfterLoad | frontend/src/pages/AdminDashboard.jsx:161-163 | after a successful load, download is enabled if and only if the reply carried records; after any other load it is as before |
| AdminDashboard.PerTabChoices | frontend/src/pages/AdminDashboard.jsx:64-75 | each tab has its own list endpoint and file name; the download endpoint is the list endpoint plus `/download`; both files are `.xlsx` |
| AdminDashboard.Dashboard.constructor | frontend/src/pages/AdminDashboard.jsx:11-18 | the page starts on the waitlist tab with empty lists, no error, not loading, and the token and user name read from storage |
| AdminDashboard.Dashboard.LoadData | frontend/src/pages/AdminDashboard.jsx:28-60 | requests `<backend><active endpoint>?token=<token>`; the new state is `AfterLoad` of the old state and the reply |
| AdminDashboard.Dashboard.Effect | frontend/src/pages/AdminDashboard.jsx:20-26 | without a token it requests nothing and ends on `/admin/login`; with one it loads |
| AdminDashboard.Dashboard.SelectTab | frontend/src/pages/AdminDashboard.jsx:131-153 | switching to another tab makes it active and reruns the effect; clicking the current tab changes and requests nothing |
| AdminDashboard.Dashboard.HandleDownload | frontend/src/pages/AdminDashboard.jsx:62-84 | requests the active tab's download URL. A file is saved if and only if the reply is ok and its bytes are read, and it is saved under the tab's name with those bytes. Anything else alerts `Failed to download file`. The page's state does not change |
| AdminDashboard.Dashboard.HandleLogout | frontend/src/pages/AdminDashboard.jsx:86-100 | posts the captured token to `<backend>/api/admin/logout` and then, whatever that request did, removes both keys and moves to `/admin/login` |
| AdminDashboard.ReopenAfterUnauthorized | frontend/src/pages/AdminDashboard.jsx:17-41 | after a 401, a dashboard opened on the same storage has no token and redirects to login without a request; the page that got the 401 keeps the token it captured |
| Config.BackendUrl | frontend/src/config.js:6-34 | `getBackendUrl`: the set build variable, else `https://<host>` for Vercel and Emergent hosts, else `<protocol>//<host>` for a non-loopback host, else `http://localhost:8001` |
| Config.EnvironmentWins | frontend/src/config.js:8-10 | a non-empty `REACT_APP_BACKEND_URL` is returned whatever the location; an empty one counts as unset |
| Config.HostedDeployments | frontend/src/config.js:16-24 | a host containing `vercel.app` or `emergentagent.com` gives `https://<host>` |
| Config.CustomDomain | frontend/src/config.js:26-29 | any other host except `localhost` and `127.0.0.1` gives `<protocol>//<host>` |
| Config.LocalFallback | frontend/src/config.js:13-33 | `localhost`, `127.0.0.1` or no `window` gives `http://localhost:8001` |
| Config.VercelDeployment | frontend/src/config.js:17-19 | every `<project>.vercel.app` host gives `https://<project>.vercel.app` |
| Config.NeverEmpty | frontend/src/config.js:6-34 | the chosen address is never empty |

`Config.BackendUrl` is a function of the environment value and the location, so the same inputs always give the same
address. The login page receives it once, as its `backendUrl` constant, which matches `BACKEND_URL` being computed
once at load time (frontend/src/config.js:36).

## Left out

- Rendering: all markup, styling, icons and animation. The Tally form embed and `window.Tally.loadEmbeds` are left
  out too. `formCompleted` is kept by the checkout page but never used, so it is not modelled.
- The database library client (`createClient`/`getSupabase`) wraps a library that is not part of this model. The
  header set is constant data; its only stated property is how the key is sent. The `Prefer: return=minimal` header
  is defined in section 4.2 of RFC 7240.
- Randomness and clocks become inputs: `crypto.randomUUID`, `Date.now`, `Math.random` and `toISOString`. No claim is
  made that an id is unique.
- SupabaseClient.FreshVisitorId requires a generated UUID to be 36 characters long, as `crypto.randomUUID` always
  produces; the source makes no such check.
- A URL made only of `/` characters strips to the empty base URL, which is falsy, so the REST root is `null` and
  every insert reports "not configured". The REST root therefore ends with `/rest/v1` for every configured URL except
  such a URL (`RestConfiguredIff`).
- Opaque text:
  - payloads are given as their JSON text, so `JSON.stringify` of the payload is not modelled, including the case
    where it throws;
  - a parsed error body is reduced to its `message`, `error` and `hint` fields;
  - `checkoutData` holds numbers and an ISO timestamp, which need no JSON escaping.
- Numbers are unbounded integers:
  - prices that are not whole numbers, rounding above 2^53, and the exponent notation `String` uses from 10^21 on
    are not modelled;
  - cart entries are records with an integer price and an optional integer quantity, not arbitrary JSON.
- Strings are sequences of code points, not UTF-16 code units. `+` in a query decodes to a space, and
  percent-escapes are not decoded; the values the checkout page puts in the query contain neither.
- The colour map is a plain map. Inherited object keys such as `constructor`, which `imageMap[color]` would also
  find, are not modelled.
- The JSON value a reply parses to is a record of the fields the handler reads. A `null` body makes the read of
  `data.success` throw; that throw is caught and ends exactly like a failed request, which is `LoginThrew` for the
  login page and a `None` body for the dashboard. A number, string or boolean body reads every field as `undefined`,
  which is a record with `Undefined` fields. A `data.data` that is not a list is not modelled.
- The error field holds the text of `data.detail || fallback` (`String` of the value), not the value itself, so
  the rendering of some non-string `detail` values differs from the model:
  - a number renders as its text, as in the model;
  - `true` renders an empty error box, where the model's error is `"true"`;
  - `[]` is truthy and renders an empty error box, where the model's error is `""`;
  - a plain object, or an array holding one, makes React fail to render the page, which is not modelled.
- Async interleaving: each handler is one atomic step. Stale replies that arrive after a tab switch or a navigation
  are not modelled.
- `console.error` logging, and the object URL and anchor element used to save a file, become the `DownloadEvent`
  output. A failure inside the saving steps themselves is not modelled.
- The dashboard reads its backend address straight from the build variable, so it is its own input. When it is unset
  it renders as `undefined`. The login page uses `getBackendUrl`.
- The route table and `ProtectedRoute` in `App.js` are not part of this model.
