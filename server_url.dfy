/** The server side of the multi-instance routing in
    apps/web/src/lib/server-url.ts: which OpenCode server a request is
    meant for, read from its `x-active-server-url` header, then from the
    environment, then the built-in default. */
module ServerUrl {
  import opened Results
  import Js
  import Servers
  import FetchWithServer

  /** The header's value in a headers record: one string, or a list of
      strings. Node's `IncomingMessage.headers` joins a repeated
      `x-active-server-url` into one string separated by ", " (only
      `set-cookie` is kept as a list), so a list comes only from a record
      built by other code; the function's type admits both. */
  datatype Header = Single(s: string) | Many(values: seq<string>)

  /** `if (headerUrl)`: a string is truthy when non-empty, an array always. */
  predicate HeaderTruthy(h: Option<Header>) {
    h.Some? && (h.value.Many? || h.value.s != "")
  }

  /** `NEXT_PUBLIC_OPENCODE_SERVER_URL || OPENCODE_SERVER_URL`, then the
      default: the first non-empty of the two variables. */
  function EnvServerUrl(publicUrl: Option<string>, serverUrl: Option<string>): (url: string)
    ensures url != ""
    ensures publicUrl.Some? && publicUrl.value != "" ==> url == publicUrl.value
    ensures !(publicUrl.Some? && publicUrl.value != "") && serverUrl.Some? && serverUrl.value != "" ==>
      url == serverUrl.value
    ensures !(publicUrl.Some? && publicUrl.value != "") && !(serverUrl.Some? && serverUrl.value != "") ==>
      url == Servers.DefaultServerUrl
  {
    Js.OrElse(publicUrl, Js.OrElse(serverUrl, Servers.DefaultServerUrl))
  }

  /** `getActiveServerUrl` as written. `header` is `req.headers?.[...]`
      (`None` with no headers or no such header); the result is `None`
      where the function returns `undefined`: a truthy empty list has no
      first value. */
  function ActiveServerUrl(header: Option<Header>, publicUrl: Option<string>, serverUrl: Option<string>): (r: Option<string>)
    ensures header.Some? && header.value.Single? && header.value.s != "" ==> r == Some(header.value.s)
    ensures header.Some? && header.value.Many? && |header.value.values| > 0 ==> r == Some(header.value.values[0])
    ensures header == Some(Many([])) ==> r.None?
    ensures !HeaderTruthy(header) ==> r == Some(EnvServerUrl(publicUrl, serverUrl))
  {
    if HeaderTruthy(header) then
      match header.value
      case Single(s) => Some(s)
      case Many(values) => if |values| > 0 then Some(values[0]) else None
    else Some(EnvServerUrl(publicUrl, serverUrl))
  }

  /** The environment matters only when the header is missing or empty:
      a request that names its server is routed there whatever the
      deployment's variables say. */
  lemma HeaderOverridesEnv(header: Option<Header>, p1: Option<string>, s1: Option<string>, p2: Option<string>, s2: Option<string>)
    requires HeaderTruthy(header)
    ensures ActiveServerUrl(header, p1, s1) == ActiveServerUrl(header, p2, s2)
  {
  }

  /** An empty header list gives `undefined`, not a URL, although the
      function promises a string. */
  lemma EmptyListGivesUndefined(publicUrl: Option<string>, serverUrl: Option<string>)
    ensures ActiveServerUrl(Some(Many([])), publicUrl, serverUrl).None?
  {
  }

  /** The evidently intended lookup: the first header value when there is
      a non-empty one, and otherwise the environment chain. */
  function ActiveServerUrlFixed(header: Option<Header>, publicUrl: Option<string>, serverUrl: Option<string>): (url: string)
    ensures url != ""
  {
    var first := if header.None? then None
      else if header.value.Single? then Some(header.value.s)
      else if |header.value.values| > 0 then Some(header.value.values[0])
      else None;
    Js.OrElse(first, EnvServerUrl(publicUrl, serverUrl))
  }

  /** The corrected lookup always yields a non-empty URL, and it agrees
      with the written one wherever that yields a non-empty URL. */
  lemma FixedAgrees(header: Option<Header>, publicUrl: Option<string>, serverUrl: Option<string>)
    ensures ActiveServerUrlFixed(header, publicUrl, serverUrl) != ""
    ensures var r := ActiveServerUrl(header, publicUrl, serverUrl);
      r.Some? && r.value != "" ==> ActiveServerUrlFixed(header, publicUrl, serverUrl) == r.value
    ensures header == Some(Many([])) ==>
      ActiveServerUrlFixed(header, publicUrl, serverUrl) == EnvServerUrl(publicUrl, serverUrl)
  {
  }

  /** The one caller, the API catch-all route, hands over the Fetch
      `Request` it built from the Node request, cast to a Node request. Its
      `headers` is a `Headers` object, which has no indexed
      `x-active-server-url` property: the lookup is `undefined` whatever
      headers the request carries. */
  function FetchRequestServerUrl(headers: FetchWithServer.HeaderList, publicUrl: Option<string>, serverUrl: Option<string>): (r: Option<string>)
    ensures r == Some(EnvServerUrl(publicUrl, serverUrl))
  {
    ActiveServerUrl(None, publicUrl, serverUrl)
  }

  /** A request that names another server is still routed by the
      environment: here, to the default server. */
  lemma FetchRequestIgnoresHeader()
    ensures var headers := [("x-active-server-url", "http://other:4096")];
      FetchWithServer.Get(headers, "x-active-server-url") == Some("http://other:4096") &&
      FetchRequestServerUrl(headers, None, None) == Some(Servers.DefaultServerUrl) &&
      Servers.DefaultServerUrl != "http://other:4096"
  {
    var headers := [("x-active-server-url", "http://other:4096")];
    assert FetchWithServer.SameName(headers[0].0, "x-active-server-url");
  }

  /** The evidently intended lookup for a Fetch `Request`:
      `headers.get("x-active-server-url")`, then the environment chain. */
  function FetchRequestServerUrlFixed(headers: FetchWithServer.HeaderList, publicUrl: Option<string>, serverUrl: Option<string>): (url: string)
    ensures url != ""
    ensures var h := FetchWithServer.Get(headers, "x-active-server-url");
      h.Some? && h.value != "" ==> url == h.value
    ensures var h := FetchWithServer.Get(headers, "x-active-server-url");
      !(h.Some? && h.value != "") ==> url == EnvServerUrl(publicUrl, serverUrl)
  {
    Js.OrElse(FetchWithServer.Get(headers, "x-active-server-url"), EnvServerUrl(publicUrl, serverUrl))
  }

  /** With the corrected lookup a request carrying the header, in any
      case, is routed by it whatever the environment says. On the pair
      list a repeated header is read from its first pair, where `Headers`
      would join the values with ", ". */
  lemma FixedRequestHonoursHeader(headers: FetchWithServer.HeaderList, k: nat, p1: Option<string>, s1: Option<string>, p2: Option<string>, s2: Option<string>)
    requires k < |headers| && FetchWithServer.SameName(headers[k].0, "x-active-server-url") && headers[k].1 != ""
    requires forall j | 0 <= j < k :: !FetchWithServer.SameName(headers[j].0, "x-active-server-url")
    ensures FetchRequestServerUrlFixed(headers, p1, s1) == headers[k].1
    ensures FetchRequestServerUrlFixed(headers, p1, s1) == FetchRequestServerUrlFixed(headers, p2, s2)
  {
    FirstPairRead(headers, k, "x-active-server-url");
  }

  /** `get` reads the first pair of a name. */
  lemma {:induction false} FirstPairRead(headers: FetchWithServer.HeaderList, k: nat, name: string)
    requires k < |headers| && FetchWithServer.SameName(headers[k].0, name)
    requires forall j | 0 <= j < k :: !FetchWithServer.SameName(headers[j].0, name)
    ensures FetchWithServer.Get(headers, name) == Some(headers[k].1)
    decreases k
  {
    if k > 0 {
      FirstPairRead(headers[1..], k - 1, name);
    }
  }
}
