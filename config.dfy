/** The backend address chosen once at start-up: the build-time variable when
    it is set, otherwise an address derived from the page's own location. */
module Config {
  import opened Js

  const LocalBackend := "http://localhost:8001"

  /** `window.location`'s two parts the choice reads; `protocol` carries its
      trailing `:` (`"https:"`). */
  datatype Location = Location(protocol: string, hostname: string)

  /** `getBackendUrl`: `env` is `REACT_APP_BACKEND_URL`, `window` is `None`
      when there is no `window`. */
  function BackendUrl(env: Option<string>, window: Option<Location>): string {
    if IsSet(env) then env.value
    else if window.Some? then
      var hostname := window.value.hostname;
      if Contains(hostname, "vercel.app") then "https://" + hostname
      else if Contains(hostname, "emergentagent.com") then "https://" + hostname
      else if hostname != "localhost" && hostname != "127.0.0.1" then window.value.protocol + "//" + hostname
      else LocalBackend
    else LocalBackend
  }

  /** A non-empty variable wins over any location; an empty one counts as unset. */
  lemma EnvironmentWins(env: Option<string>, window: Option<Location>)
    ensures IsSet(env) ==> BackendUrl(env, window) == env.value
    ensures env == Some("") ==> BackendUrl(env, window) == BackendUrl(None, window)
  {
  }

  /** Vercel and Emergent preview hosts are reached over HTTPS on the same host. */
  lemma HostedDeployments(protocol: string, hostname: string)
    requires Contains(hostname, "vercel.app") || Contains(hostname, "emergentagent.com")
    ensures BackendUrl(None, Some(Location(protocol, hostname))) == "https://" + hostname
  {
  }

  /** Any other host except the two loopback names keeps the page's protocol. */
  lemma CustomDomain(protocol: string, hostname: string)
    requires !Contains(hostname, "vercel.app") && !Contains(hostname, "emergentagent.com")
    requires hostname != "localhost" && hostname != "127.0.0.1"
    ensures BackendUrl(None, Some(Location(protocol, hostname))) == protocol + "//" + hostname
  {
  }

  /** Local development and a missing `window` fall back to the local backend. */
  lemma LocalFallback(protocol: string, hostname: string)
    requires hostname == "localhost" || hostname == "127.0.0.1"
    ensures BackendUrl(None, Some(Location(protocol, hostname))) == LocalBackend
    ensures BackendUrl(None, None) == LocalBackend
  {
    assert !Contains(hostname, "vercel.app") by {
      NotContainsLonger(hostname, "vercel.app");
    }
    assert !Contains(hostname, "emergentagent.com") by {
      NotContainsLonger(hostname, "emergentagent.com");
    }
  }

  /** A string cannot contain a longer one. */
  lemma {:induction false} NotContainsLonger(s: string, sub: string)
    requires |s| < |sub|
    ensures !Contains(s, sub)
    decreases |s|
  {
    if |s| > 0 {
      NotContainsLonger(s[1..], sub);
    }
  }

  /** Every `<project>.vercel.app` host is served over HTTPS on that host. */
  lemma VercelDeployment(protocol: string, project: string)
    ensures BackendUrl(None, Some(Location(protocol, project + ".vercel.app"))) == "https://" + project + ".vercel.app"
  {
    var hostname := project + ".vercel.app";
    assert hostname[|hostname| - |"vercel.app"|..] == "vercel.app";
    EndsWithContains(hostname, "vercel.app");
  }

  /** The result is never empty. */
  lemma NeverEmpty(env: Option<string>, window: Option<Location>)
    ensures BackendUrl(env, window) != ""
  {
  }
}
