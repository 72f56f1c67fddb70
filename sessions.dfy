/** The session hooks of apps/web/src/hooks/use-sessions.ts: their SWR
    keys, the revalidation matcher, the fetchers' results and the
    per-server grouping of `useAllSessions`. */
module Sessions {
  import opened Results
  import opened Text
  import Js
  import opened Servers
  import SwrFetch
  import SessionMessages

  const SessionsKey := "/api/sessions"
  const AllSessionsKey := "/api/sessions/all"
  const ListFailure := "Failed to fetch sessions"
  const ItemFailure := "Failed to fetch session"

  // ---------------------------------------------------------------------
  // Keys

  /** `useSessions`'s key: the list URL and the active server URL. */
  function ListKey(serverUrl: Js.Value): Js.Value {
    Js.Arr([Js.Str(SessionsKey), serverUrl])
  }

  /** `useSession`'s key: null, so that nothing is fetched, without a
      (non-empty) session id. */
  function SessionKey(sessionId: Option<string>, serverUrl: Js.Value): (key: Js.Value)
    ensures key == Js.Null <==> sessionId.None? || sessionId.value == ""
    ensures key != Js.Null ==> key == Js.Arr([Js.Str(SessionsKey + "/" + sessionId.value), serverUrl])
  {
    if sessionId.None? || sessionId.value == "" then Js.Null
    else Js.Arr([Js.Str(SessionsKey + "/" + sessionId.value), serverUrl])
  }

  /** `useAllSessions`'s key: the servers' URLs joined by commas. */
  function AllKey(servers: seq<ServerConfig>): Js.Value {
    Js.Arr([Js.Str(AllSessionsKey), Js.Str(Join(Urls(servers), ","))])
  }

  function Urls(servers: seq<ServerConfig>): (r: seq<string>)
    ensures |r| == |servers| && forall k | 0 <= k < |servers| :: r[k] == servers[k].url
  {
    seq(|servers|, k requires 0 <= k < |servers| => servers[k].url)
  }

  /** `mutateSessions`'s matcher: an array key with a string head that
      starts with "/api/sessions", or such a string key. */
  predicate Revalidated(key: Js.Value) {
    if key.Arr? && |key.items| > 0 && key.items[0].Str? then StartsWith(key.items[0].s, SessionsKey)
    else key.Str? && StartsWith(key.s, SessionsKey)
  }

  lemma StartsWithAppend(a: string, b: string)
    ensures StartsWith(a + b, a)
  {
    assert (a + b)[..|a|] == a;
  }

  /** The matcher revalidates the list, every single session, the grouped
      lists and every message cache, and nothing that is neither a string
      nor an array headed by a string. */
  lemma RevalidatesSessionKeys(serverUrl: Js.Value, sessionId: string, servers: seq<ServerConfig>, key: Js.Value)
    ensures Revalidated(ListKey(serverUrl))
    ensures sessionId != "" ==> Revalidated(SessionKey(Some(sessionId), serverUrl))
    ensures Revalidated(AllKey(servers))
    ensures SessionMessages.KeyMatches(key, SessionMessages.MessagesKey(sessionId)) ==> Revalidated(key)
    ensures !key.Str? && !(key.Arr? && |key.items| > 0 && key.items[0].Str?) ==> !Revalidated(key)
  {
    assert StartsWith(SessionsKey, SessionsKey) by { StartsWithAppend(SessionsKey, ""); assert SessionsKey + "" == SessionsKey; }
    StartsWithAppend(SessionsKey, "/" + sessionId);
    assert SessionsKey + "/" + sessionId == SessionsKey + ("/" + sessionId);
    StartsWithAppend(SessionsKey, "/all");
    assert AllSessionsKey == SessionsKey + "/all";
    var mk := SessionMessages.MessagesKey(sessionId);
    StartsWithAppend(SessionsKey, "/" + sessionId + SessionMessages.MessagesSuffix);
    assert mk == SessionsKey + ("/" + sessionId + SessionMessages.MessagesSuffix);
  }

  // ---------------------------------------------------------------------
  // Fetching

  /** The list fetcher's result for a response. */
  function ListResult(response: SwrFetch.Response): (r: Result<Js.Value, string>)
    ensures !response.ok ==> r == Err(ListFailure)
    ensures r.Ok? ==> Js.Truthy(r.value)
  {
    SwrFetch.ListResult(response, ListFailure)
  }

  /** The single-session fetcher's result: no `|| []` fallback. */
  function SessionResult(response: SwrFetch.Response): (r: Result<Js.Value, string>)
    ensures !response.ok ==> r == Err(ItemFailure)
  {
    SwrFetch.ItemResult(response, ItemFailure)
  }

  /** One server's group in `useAllSessions`. */
  datatype Group = Group(server: ServerConfig, sessions: Js.Value)

  /** What fetching one server's sessions gave: `None` when `fetch` threw. */
  type Attempt = Option<SwrFetch.Response>

  /** A server's sessions: the unwrapped body, or an empty list when the
      fetch threw, the response was not OK or the body could not be
      unwrapped. */
  function GroupSessions(attempt: Attempt): (sessions: Js.Value)
    ensures attempt.None? || !attempt.value.ok ==> sessions == Js.Arr([])
    ensures Js.Truthy(sessions)
    ensures attempt.Some? && SwrFetch.ListResult(attempt.value, ListFailure).Ok? ==>
      sessions == SwrFetch.ListResult(attempt.value, ListFailure).value
  {
    if attempt.None? || !attempt.value.ok then Js.Arr([])
    else match SwrFetch.ListResult(attempt.value, ListFailure)
      case Ok(v) => v
      case Err(_) => Js.Arr([])
  }

  /** The request headers for one server: its URL, always. */
  function GroupHeaders(server: ServerConfig): seq<(string, Js.Value)> {
    [(SwrFetch.ServerUrlHeader, Js.Str(server.url))]
  }

  /** `useAllSessions`' fetcher, given what each server's fetch gave. */
  function AllSessions(servers: seq<ServerConfig>, attempts: seq<Attempt>): (groups: seq<Group>)
    requires |attempts| == |servers|
    ensures |groups| == |servers|
    ensures forall k | 0 <= k < |servers| :: groups[k].server == servers[k]
    ensures forall k | 0 <= k < |servers| :: groups[k].sessions == GroupSessions(attempts[k])
  {
    seq(|servers|, k requires 0 <= k < |servers| => Group(servers[k], GroupSessions(attempts[k])))
  }

  /** One server failing does not affect the others' groups. */
  lemma FailureIsolated(servers: seq<ServerConfig>, attempts: seq<Attempt>, j: nat)
    requires |attempts| == |servers| && j < |servers|
    ensures var failed := AllSessions(servers, attempts[j := None]);
      failed[j] == Group(servers[j], Js.Arr([])) &&
      forall k | 0 <= k < |servers| && k != j :: failed[k] == AllSessions(servers, attempts)[k]
  {
  }

  /** The grouped sessions the hook returns: `data || []`. */
  function GroupedSessions(data: Option<seq<Group>>): seq<Group> {
    if data.Some? then data.value else []
  }
}
