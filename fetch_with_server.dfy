/** The browser side of the multi-instance routing in
    apps/web/src/lib/fetch-with-server.ts: every request the OpenCode
    client makes carries the active server's URL in the
    `X-Active-Server-Url` header, unless the caller already set one. */
module FetchWithServer {
  import opened Results
  import opened Text
  import Js
  import opened Servers
  import SwrFetch

  /** A `Headers` object: its name/value pairs in insertion order. */
  type HeaderList = seq<(string, string)>

  /** Header names compare without regard to ASCII case. */
  predicate SameName(a: string, b: string) {
    |a| == |b| && forall i | 0 <= i < |a| :: AsciiLower(a[i]) == AsciiLower(b[i])
  }

  /** `headers.has(name)`. */
  predicate Has(headers: HeaderList, name: string) {
    exists k | 0 <= k < |headers| :: SameName(headers[k].0, name)
  }

  /** `headers.get(name)` on the pair list: the value of the first pair
      with that name. A `Headers` object would join the values of a
      repeated name with ", "; the pair list does not. */
  function Get(headers: HeaderList, name: string): (r: Option<string>)
    ensures r.Some? <==> Has(headers, name)
    ensures r.Some? ==> exists k | 0 <= k < |headers| :: SameName(headers[k].0, name) && headers[k].1 == r.value
  {
    if |headers| == 0 then None
    else if SameName(headers[0].0, name) then Some(headers[0].1)
    else
      var r := Get(headers[1..], name);
      assert Has(headers, name) ==> Has(headers[1..], name) by {
        if Has(headers, name) {
          var k :| 0 <= k < |headers| && SameName(headers[k].0, name);
          assert k > 0 && headers[1..][k - 1] == headers[k];
        }
      }
      assert r.Some? ==> exists k | 0 <= k < |headers| :: SameName(headers[k].0, name) && headers[k].1 == r.value by {
        if r.Some? {
          var k :| 0 <= k < |headers[1..]| && SameName(headers[1..][k].0, name) && headers[1..][k].1 == r.value;
          assert headers[k + 1] == headers[1..][k];
        }
      }
      r
  }

  /** A `RequestInit`: its headers (absent or given as a list of pairs)
      and every other option, such as the method and the body. */
  datatype RequestInit = RequestInit(headers: Option<HeaderList>, rest: seq<(string, Js.Value)>)

  /** `new Headers(options.headers)`: no headers make an empty object. */
  function HeadersOf(options: RequestInit): HeaderList {
    if options.headers.Some? then options.headers.value else []
  }

  /** `setServerUrlHeader`: a fresh options object with the same other
      options and the same headers, plus the server header when no header
      of that name (in any case) was there. The caller's object is a value
      here, so it cannot change. */
  function SetServerUrlHeader(options: RequestInit, serverUrl: string): (r: RequestInit)
    ensures r.rest == options.rest && r.headers.Some?
    ensures Has(HeadersOf(options), SwrFetch.ServerUrlHeader) ==> r.headers.value == HeadersOf(options)
    ensures !Has(HeadersOf(options), SwrFetch.ServerUrlHeader) ==>
      r.headers.value == HeadersOf(options) + [(SwrFetch.ServerUrlHeader, serverUrl)]
  {
    var headers := HeadersOf(options);
    if Has(headers, SwrFetch.ServerUrlHeader) then RequestInit(Some(headers), options.rest)
    else RequestInit(Some(headers + [(SwrFetch.ServerUrlHeader, serverUrl)]), options.rest)
  }

  lemma SameNameRefl(a: string)
    ensures SameName(a, a)
  {
  }

  /** Looking a name up after appending a pair: an earlier pair of that
      name still wins. */
  lemma {:induction false} GetAppend(headers: HeaderList, n: string, v: string, name: string)
    ensures Get(headers + [(n, v)], name) ==
      if Has(headers, name) then Get(headers, name)
      else if SameName(n, name) then Some(v) else None
  {
    if |headers| == 0 {
      assert headers + [(n, v)] == [(n, v)];
      assert !Has(headers, name);
    } else {
      var t := headers + [(n, v)];
      assert t[0] == headers[0] && t[1..] == headers[1..] + [(n, v)];
      if !SameName(headers[0].0, name) {
        GetAppend(headers[1..], n, v, name);
      }
    }
  }

  /** After the call the server header is set: to the caller's value when
      the caller gave one, to `serverUrl` otherwise; every other header
      reads as before. */
  lemma SetServerUrlHeaderSpec(options: RequestInit, serverUrl: string, name: string)
    ensures var h := SetServerUrlHeader(options, serverUrl).headers.value;
      Get(h, SwrFetch.ServerUrlHeader) ==
        (if Has(HeadersOf(options), SwrFetch.ServerUrlHeader) then Get(HeadersOf(options), SwrFetch.ServerUrlHeader)
         else Some(serverUrl))
    ensures !SameName(SwrFetch.ServerUrlHeader, name) ==>
      Get(SetServerUrlHeader(options, serverUrl).headers.value, name) == Get(HeadersOf(options), name)
  {
    GetAppend(HeadersOf(options), SwrFetch.ServerUrlHeader, serverUrl, SwrFetch.ServerUrlHeader);
    GetAppend(HeadersOf(options), SwrFetch.ServerUrlHeader, serverUrl, name);
    SameNameRefl(SwrFetch.ServerUrlHeader);
  }

  /** Setting the header a second time, with whatever URL, changes
      nothing. */
  lemma SetServerUrlHeaderIdempotent(options: RequestInit, first: string, second: string)
    ensures var once := SetServerUrlHeader(options, first);
      SetServerUrlHeader(once, second) == once
  {
    var once := SetServerUrlHeader(options, first);
    var h := HeadersOf(options);
    if !Has(h, SwrFetch.ServerUrlHeader) {
      var t := h + [(SwrFetch.ServerUrlHeader, first)];
      SameNameRefl(SwrFetch.ServerUrlHeader);
      assert t[|h|].0 == SwrFetch.ServerUrlHeader;
      assert Has(t, SwrFetch.ServerUrlHeader);
    }
  }

  /** A caller's header of that name in lower case counts as the same
      header, so it is kept and not overridden. */
  lemma LowerCaseCallerHeaderKept(value: string, rest: seq<(string, Js.Value)>, serverUrl: string)
    ensures var options := RequestInit(Some([("x-active-server-url", value)]), rest);
      SetServerUrlHeader(options, serverUrl) == options
  {
    var h: HeaderList := [("x-active-server-url", value)];
    assert SameName(h[0].0, SwrFetch.ServerUrlHeader) by {
      forall i | 0 <= i < |h[0].0|
        ensures AsciiLower(h[0].0[i]) == AsciiLower(SwrFetch.ServerUrlHeader[i])
      {
      }
    }
  }

  /** `activeServer?.url || ""`. */
  function ActiveUrl(activeServer: Option<ServerConfig>): (url: string)
    ensures activeServer.None? ==> url == ""
    ensures activeServer.Some? ==> url == activeServer.value.url
  {
    if activeServer.Some? then Js.OrElse(Some(activeServer.value.url), "") else ""
  }

  /** The options the fetch from `createOpencodeFetch` passes on: the
      caller's with the header added, or just the header when the caller
      gave none. */
  function FetchOptions(activeServer: Option<ServerConfig>, init: Option<RequestInit>): (options: RequestInit)
    ensures init.None? ==> options == RequestInit(Some([(SwrFetch.ServerUrlHeader, ActiveUrl(activeServer))]), [])
    ensures init.Some? ==> options == SetServerUrlHeader(init.value, ActiveUrl(activeServer))
  {
    var serverUrl := ActiveUrl(activeServer);
    if init.Some? then SetServerUrlHeader(init.value, serverUrl)
    else RequestInit(Some([(SwrFetch.ServerUrlHeader, serverUrl)]), [])
  }

  /** Every request names a server: the active one's URL, unless the
      caller named one itself. */
  lemma EveryRequestNamesServer(activeServer: Option<ServerConfig>, init: Option<RequestInit>)
    ensures var options := FetchOptions(activeServer, init);
      options.headers.Some? &&
      Get(options.headers.value, SwrFetch.ServerUrlHeader) ==
        (if init.Some? && Has(HeadersOf(init.value), SwrFetch.ServerUrlHeader)
         then Get(HeadersOf(init.value), SwrFetch.ServerUrlHeader)
         else Some(ActiveUrl(activeServer)))
  {
    SameNameRefl(SwrFetch.ServerUrlHeader);
    if init.Some? {
      SetServerUrlHeaderSpec(init.value, ActiveUrl(activeServer), SwrFetch.ServerUrlHeader);
    }
  }
}
