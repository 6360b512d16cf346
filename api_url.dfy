/** The backend origin the client talks to (src/utils/api.js). The configured override
    (`VITE_API_URL`) and the page's hostname are parameters: reading them is left to the
    caller. */
module ApiUrl {
  import opened Wrappers
  import opened Wire

  const Scheme := "http://"
  const PortSuffix := ":8000"
  const LoopbackUrl := "http://localhost:8000"

  /** The two hostnames the resolver treats as "this machine". */
  predicate IsLoopback(hostname: string) {
    hostname == "localhost" || hostname == "127.0.0.1"
  }

  /** Resolution order: a non-empty override wins; otherwise a network hostname keeps its
      name on port 8000; otherwise the fixed loopback origin. Every input has a result. */
  function GetApiUrl(envOverride: Option<string>, hostname: string): (url: string)
    ensures Truthy(envOverride) ==> url == envOverride.value
    ensures !Truthy(envOverride) && !IsLoopback(hostname) ==> url == Scheme + hostname + PortSuffix
    ensures !Truthy(envOverride) && IsLoopback(hostname) ==> url == LoopbackUrl
  {
    if Truthy(envOverride) then envOverride.value
    else if !IsLoopback(hostname) then Scheme + hostname + PortSuffix
    else LoopbackUrl
  }

  /** The host part of an origin of the form `http://<host>:8000`, if it has that form. */
  function HostOf(url: string): (host: Option<string>)
    ensures host.Some? ==> Scheme + host.value + PortSuffix == url
  {
    if |url| >= |Scheme| + |PortSuffix| && url[..|Scheme|] == Scheme
       && url[|url| - |PortSuffix|..] == PortSuffix
    then
      var h := url[|Scheme|..|url| - |PortSuffix|];
      assert url == url[..|Scheme|] + h + url[|url| - |PortSuffix|..];
      Some(h)
    else None
  }

  /** Without an override, the resolved origin always names port 8000 over plain HTTP, and
      its host is the page's hostname, except that `127.0.0.1` is reported as `localhost`. */
  lemma {:induction false} ResolvedHost(hostname: string)
    ensures HostOf(GetApiUrl(None, hostname))
            == Some(if hostname == "127.0.0.1" then "localhost" else hostname)
  {
    var url := GetApiUrl(None, hostname);
    var h := if hostname == "127.0.0.1" then "localhost" else hostname;
    assert url == Scheme + h + PortSuffix;
    assert url[..|Scheme|] == Scheme;
    assert url[|url| - |PortSuffix|..] == PortSuffix;
    assert url[|Scheme|..|url| - |PortSuffix|] == h;
  }

  /** Two different network hostnames never resolve to the same origin. */
  lemma DistinctHostsDistinctUrls(h1: string, h2: string)
    requires !IsLoopback(h1) && !IsLoopback(h2) && h1 != h2
    ensures GetApiUrl(None, h1) != GetApiUrl(None, h2)
  {
    ResolvedHost(h1);
    ResolvedHost(h2);
  }

  /** An empty override counts as unset: the result depends on the hostname alone. */
  lemma EmptyOverrideFallsThrough(hostname: string)
    ensures GetApiUrl(Some(""), hostname) == GetApiUrl(None, hostname)
  {
  }
}
