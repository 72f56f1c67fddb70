/** The data fetchers the session hooks and the sidebar hand to SWR
    (apps/web/src/hooks/use-session-messages.ts, use-sessions.ts and
    apps/web/src/components/app-sidebar.tsx each carry a copy): the key
    may be the URL alone or a `[url, serverUrl]` pair, the active server
    travels in a header, and the JSON body is unwrapped. */
module SwrFetch {
  import opened Results
  import Js

  const ServerUrlHeader := "X-Active-Server-Url"

  /** `items[k]`, undefined past the end (array destructuring). */
  function At(items: seq<Js.Value>, k: nat): (v: Js.Value)
    ensures k < |items| ==> v == items[k]
    ensures k >= |items| ==> v == Js.Undefined
  {
    if k < |items| then items[k] else Js.Undefined
  }

  /** The fetcher's `(url, serverUrl)`: taken from an array first argument,
      otherwise the two arguments as given. */
  function Arguments(arg1: Js.Value, arg2: Js.Value): (r: (Js.Value, Js.Value))
    ensures !arg1.Arr? ==> r == (arg1, arg2)
    ensures arg1.Arr? ==> r == (At(arg1.items, 0), At(arg1.items, 1))
  {
    if arg1.Arr? then (At(arg1.items, 0), At(arg1.items, 1)) else (arg1, arg2)
  }

  /** An SWR array key and the same two values passed separately are
      fetched alike, whatever the second argument is in the array form. */
  lemma PairFormsAgree(url: Js.Value, serverUrl: Js.Value, ignored: Js.Value)
    requires !url.Arr?
    ensures Arguments(Js.Arr([url, serverUrl]), ignored) == Arguments(url, serverUrl)
  {
  }

  /** The request headers: the server header, only for a truthy server URL. */
  function ServerHeaders(serverUrl: Js.Value): (h: seq<(string, Js.Value)>)
    ensures Js.Truthy(serverUrl) <==> h == [(ServerUrlHeader, serverUrl)]
    ensures !Js.Truthy(serverUrl) <==> h == []
  {
    if Js.Truthy(serverUrl) then [(ServerUrlHeader, serverUrl)] else []
  }

  datatype Call = Call(url: Js.Value, headers: seq<(string, Js.Value)>)

  /** The `fetch` the fetcher makes. */
  function FetchCall(arg1: Js.Value, arg2: Js.Value): (c: Call)
    ensures c.url == Arguments(arg1, arg2).0
    ensures c.headers == ServerHeaders(Arguments(arg1, arg2).1)
  {
    var (url, serverUrl) := Arguments(arg1, arg2);
    Call(url, ServerHeaders(serverUrl))
  }

  /** What `fetch` gave back: the `ok` flag and the parsed JSON body (an
      error when the body is not JSON). */
  datatype Response = Response(ok: bool, json: Result<Js.Value, string>)

  /** A list fetcher's result, `data.data || data || []`; a non-OK
      response throws `failure`. A plain array body is the list itself. */
  function ListResult(response: Response, failure: string): (r: Result<Js.Value, string>)
    ensures !response.ok ==> r == Err(failure)
    ensures r.Ok? <==> response.ok && response.json.Ok? && response.json.value != Js.Null && response.json.value != Js.Undefined
    ensures r.Ok? ==> Js.Truthy(r.value)
    ensures r.Ok? && response.json.value.Arr? ==> r.value == response.json.value
    ensures r.Ok? && response.json.value.Obj? && Js.Truthy(Js.Lookup(response.json.value.entries, "data")) ==>
      r.value == Js.Lookup(response.json.value.entries, "data")
  {
    if !response.ok then Err(failure)
    else match response.json
      case Err(e) => Err(e)
      case Ok(data) => Js.UnwrapList(data)
  }

  /** A single-item fetcher's result, `data.data || data`. */
  function ItemResult(response: Response, failure: string): (r: Result<Js.Value, string>)
    ensures !response.ok ==> r == Err(failure)
    ensures r.Ok? <==> response.ok && response.json.Ok? && response.json.value != Js.Null && response.json.value != Js.Undefined
    ensures r.Ok? && !response.json.value.Obj? ==> r.value == response.json.value
    ensures r.Ok? && response.json.value.Obj? && Js.Truthy(Js.Lookup(response.json.value.entries, "data")) ==>
      r.value == Js.Lookup(response.json.value.entries, "data")
  {
    if !response.ok then Err(failure)
    else match response.json
      case Err(e) => Err(e)
      case Ok(data) => Js.Unwrap(data)
  }

  /** The list fetcher differs from the item fetcher only in the final
      `|| []`: where the item would be falsy, the list is empty. */
  lemma ListExtendsItem(response: Response, failure: string)
    ensures ListResult(response, failure).Ok? <==> ItemResult(response, failure).Ok?
    ensures ItemResult(response, failure).Ok? ==>
      ListResult(response, failure).value ==
        (if Js.Truthy(ItemResult(response, failure).value) then ItemResult(response, failure).value else Js.Arr([]))
  {
  }
}
