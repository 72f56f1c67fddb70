/** The server registry hook of apps/web/src/hooks/use-servers.ts: the
    stored servers and the active server id held in local storage, the
    merge with the environment servers, and the operations that replace
    the stored list. */
module ServerRegistry {
  import opened Results
  import opened Servers

  predicate HasId(servers: seq<ServerConfig>, id: string) {
    exists k | 0 <= k < |servers| :: servers[k].id == id
  }

  predicate UniqueIds(servers: seq<ServerConfig>) {
    forall j, k | 0 <= j < k < |servers| :: servers[j].id != servers[k].id
  }

  lemma HasIdSnoc(servers: seq<ServerConfig>, x: ServerConfig, id: string)
    ensures HasId(servers + [x], id) <==> HasId(servers, id) || x.id == id
  {
    var t := servers + [x];
    if HasId(servers, id) {
      var k :| 0 <= k < |servers| && servers[k].id == id;
      assert t[k] == servers[k];
    }
    if x.id == id {
      assert t[|servers|] == x;
    }
    if HasId(t, id) && x.id != id {
      var k :| 0 <= k < |t| && t[k].id == id;
      assert k < |servers| && servers[k] == t[k];
    }
  }

  // ---------------------------------------------------------------------
  // allServers
  // ---------------------------------------------------------------------

  /** The merge as the loop computes it: each environment server is added
      when its id is not yet in the list built so far. */
  function Merge(combined: seq<ServerConfig>, env: seq<ServerConfig>): seq<ServerConfig>
    decreases |env|
  {
    if |env| == 0 then combined
    else Merge(if HasId(combined, env[0].id) then combined else combined + [env[0]], env[1..])
  }

  /** `allServers`: the stored servers followed by the environment servers
      whose ids are not already present. */
  method AllServers(stored: seq<ServerConfig>, env: seq<ServerConfig>) returns (combined: seq<ServerConfig>)
    ensures combined == Merge(stored, env)
  {
    combined := stored;
    var index := 0;
    while index < |env|
      invariant index <= |env|
      invariant Merge(combined, env[index..]) == Merge(stored, env)
    {
      var envServer := env[index];
      assert env[index..][1..] == env[index + 1..];
      if !(exists k | 0 <= k < |combined| :: combined[k].id == envServer.id) {
        combined := combined + [envServer];
      }
      index := index + 1;
    }
  }

  /** The environment servers whose ids `present` does not hold, in order. */
  function Fresh(present: seq<ServerConfig>, env: seq<ServerConfig>): (r: seq<ServerConfig>)
    ensures |r| <= |env|
  {
    if |env| == 0 then []
    else (if HasId(present, env[0].id) then [] else [env[0]]) + Fresh(present, env[1..])
  }

  /** The stored list is kept in order as a prefix, every added entry is an
      environment server whose id was not stored, and every environment
      id ends up present. */
  lemma {:induction false} MergeSpec(combined: seq<ServerConfig>, env: seq<ServerConfig>)
    ensures |Merge(combined, env)| >= |combined|
    ensures Merge(combined, env)[..|combined|] == combined
    ensures forall k | |combined| <= k < |Merge(combined, env)| ::
      Merge(combined, env)[k] in env && !HasId(combined, Merge(combined, env)[k].id)
    ensures forall e | e in env :: HasId(Merge(combined, env), e.id)
    ensures UniqueIds(combined) ==> UniqueIds(Merge(combined, env))
    decreases |env|
  {
    if |env| > 0 {
      var e := env[0];
      var next := if HasId(combined, e.id) then combined else combined + [e];
      MergeSpec(next, env[1..]);
      var r := Merge(combined, env);
      assert r == Merge(next, env[1..]);
      assert r[..|combined|] == combined by {
        assert r[..|next|][..|combined|] == r[..|combined|];
      }
      forall k | |combined| <= k < |r| ensures r[k] in env && !HasId(combined, r[k].id) {
        if k < |next| {
          assert next == combined + [e] && r[k] == next[k] == e;
        } else {
          assert r[k] in env[1..];
          assert !HasId(next, r[k].id);
          HasIdSnoc(combined, e, r[k].id);
        }
      }
      forall x | x in env ensures HasId(r, x.id) {
        if x == e {
          HasIdSnoc(combined, e, e.id);
          var k :| 0 <= k < |next| && next[k].id == e.id;
          assert r[k] == next[k];
        } else {
          assert x in env[1..];
        }
      }
      if UniqueIds(combined) {
        if !HasId(combined, e.id) {
          forall j, k | 0 <= j < k < |next| ensures next[j].id != next[k].id {
            if k == |combined| {
              assert next[j] == combined[j];
            } else {
              assert next[j] == combined[j] && next[k] == combined[k];
            }
          }
        }
      }
    } else {
      assert Merge(combined, env)[..|combined|] == combined;
    }
  }

  /** Adding a server whose id no remaining environment server has does not
      change which of those are fresh. */
  lemma {:induction false} FreshIgnores(present: seq<ServerConfig>, x: ServerConfig, env: seq<ServerConfig>)
    requires forall k | 0 <= k < |env| :: env[k].id != x.id
    ensures Fresh(present + [x], env) == Fresh(present, env)
  {
    if |env| > 0 {
      HasIdSnoc(present, x, env[0].id);
      FreshIgnores(present, x, env[1..]);
    }
  }

  /** When the environment ids are distinct, as the loaded ones are, the
      merge is exactly the stored list followed by the fresh environment
      servers. */
  lemma {:induction false} MergeOfDistinct(combined: seq<ServerConfig>, env: seq<ServerConfig>)
    requires UniqueIds(env)
    ensures Merge(combined, env) == combined + Fresh(combined, env)
    decreases |env|
  {
    if |env| > 0 {
      var e := env[0];
      var tail := env[1..];
      assert UniqueIds(tail) by {
        forall j, k | 0 <= j < k < |tail| ensures tail[j].id != tail[k].id {
          assert tail[j] == env[j + 1] && tail[k] == env[k + 1];
        }
      }
      if HasId(combined, e.id) {
        MergeOfDistinct(combined, tail);
      } else {
        MergeOfDistinct(combined + [e], tail);
        forall k | 0 <= k < |tail| ensures tail[k].id != e.id {
          assert tail[k] == env[k + 1];
        }
        FreshIgnores(combined, e, tail);
      }
    }
  }

  /** allServers over the loaded environment servers. */
  lemma AllServersOfEnv(stored: seq<ServerConfig>, slots: seq<EnvSlot>)
    ensures Merge(stored, EnvServers(slots)) == stored + Fresh(stored, EnvServers(slots))
  {
    EnvServerIds(slots);
    MergeOfDistinct(stored, EnvServers(slots));
  }

  // ---------------------------------------------------------------------
  // activeServer
  // ---------------------------------------------------------------------

  /** `servers.find(s => s.id === id)`: the first server with that id. */
  function Find(servers: seq<ServerConfig>, id: string): (r: Option<ServerConfig>)
    ensures r.Some? <==> HasId(servers, id)
    ensures r.Some? ==> exists k | 0 <= k < |servers| ::
      servers[k] == r.value && r.value.id == id && forall j | 0 <= j < k :: servers[j].id != id
  {
    if |servers| == 0 then None
    else if servers[0].id == id then Some(servers[0])
    else
      var r := Find(servers[1..], id);
      assert HasId(servers, id) ==> HasId(servers[1..], id) by {
        if HasId(servers, id) {
          var k :| 0 <= k < |servers| && servers[k].id == id;
          assert servers[1..][k - 1] == servers[k];
        }
      }
      assert HasId(servers[1..], id) ==> HasId(servers, id) by {
        if HasId(servers[1..], id) {
          var k :| 0 <= k < |servers| - 1 && servers[1..][k].id == id;
          assert servers[k + 1] == servers[1..][k];
        }
      }
      if r.Some? then
        var k :| 0 <= k < |servers| - 1 && servers[1..][k] == r.value && r.value.id == id &&
          forall j | 0 <= j < k :: servers[1..][j].id != id;
        assert servers[k + 1] == r.value;
        assert forall j | 0 <= j < k + 1 :: servers[j].id != id by {
          forall j | 0 <= j < k + 1 ensures servers[j].id != id {
            if j > 0 { assert servers[j] == servers[1..][j - 1]; }
          }
        }
        r
      else r
  }

  // ---------------------------------------------------------------------
  // The stored state and its updates
  // ---------------------------------------------------------------------

  /** The two local-storage cells of the hook. */
  datatype Registry = Registry(stored: seq<ServerConfig>, activeId: string)

  /** The first-load values: the default servers, and the first one's id
      (or "" when there is none). */
  function Initial(defaults: seq<ServerConfig>): (r: Registry)
    ensures r.stored == defaults
    ensures |defaults| > 0 ==> r.activeId == defaults[0].id
    ensures |defaults| == 0 ==> r.activeId == ""
  {
    Registry(defaults, if |defaults| > 0 then defaults[0].id else "")
  }

  /** `addServer`: appends the server with its creation time; the active
      id is set only when none is set. */
  function Add(reg: Registry, server: ServerConfig, now: int): (r: Registry)
    ensures |r.stored| == |reg.stored| + 1 && r.stored[..|reg.stored|] == reg.stored
    ensures r.stored[|reg.stored|] == server.(createdAt := Some(now))
    ensures reg.activeId == "" ==> r.activeId == server.id
    ensures reg.activeId != "" ==> r.activeId == reg.activeId
  {
    Registry(reg.stored + [server.(createdAt := Some(now))], if reg.activeId == "" then server.id else reg.activeId)
  }

  /** A `Partial<ServerConfig>`: each field is None when the key is absent
      and Some(v) when it is present with value v. */
  datatype ServerUpdate = ServerUpdate(
    id: Option<string>, name: Option<string>, url: Option<string>,
    color: Option<Option<string>>, createdAt: Option<Option<int>>, lastUsedAt: Option<Option<int>>)

  /** `{ ...server, ...updates }`. */
  function Apply(server: ServerConfig, u: ServerUpdate): (r: ServerConfig)
    ensures u.name.Some? ==> r.name == u.name.value
    ensures u.name.None? ==> r.name == server.name
    ensures u.url.Some? ==> r.url == u.url.value
    ensures u.url.None? ==> r.url == server.url
    ensures u.id.Some? ==> r.id == u.id.value
    ensures u.id.None? ==> r.id == server.id
    ensures u.color.Some? ==> r.color == u.color.value
    ensures u.color.None? ==> r.color == server.color
    ensures u.createdAt.Some? ==> r.createdAt == u.createdAt.value
    ensures u.createdAt.None? ==> r.createdAt == server.createdAt
    ensures u.lastUsedAt.Some? ==> r.lastUsedAt == u.lastUsedAt.value
    ensures u.lastUsedAt.None? ==> r.lastUsedAt == server.lastUsedAt
  {
    ServerConfig(u.id.GetOr(server.id), u.name.GetOr(server.name), u.url.GetOr(server.url),
                 u.color.GetOr(server.color), u.createdAt.GetOr(server.createdAt),
                 u.lastUsedAt.GetOr(server.lastUsedAt))
  }

  /** `updateServer`: merges the update into every server with the id. */
  function Update(stored: seq<ServerConfig>, id: string, u: ServerUpdate): (r: seq<ServerConfig>)
    ensures |r| == |stored|
    ensures forall k | 0 <= k < |stored| && stored[k].id != id :: r[k] == stored[k]
    ensures forall k | 0 <= k < |stored| && stored[k].id == id :: r[k] == Apply(stored[k], u)
  {
    if |stored| == 0 then []
    else [if stored[0].id == id then Apply(stored[0], u) else stored[0]] + Update(stored[1..], id, u)
  }

  /** An update of an id no stored server has leaves the list as it was. */
  lemma UpdateAbsent(stored: seq<ServerConfig>, id: string, u: ServerUpdate)
    requires !HasId(stored, id)
    ensures Update(stored, id, u) == stored
  {
    var r := Update(stored, id, u);
    forall k | 0 <= k < |stored| ensures r[k] == stored[k] {
      assert stored[k].id != id;
    }
  }

  /** Applying the same update twice is applying it once, when it keeps
      the id. */
  lemma UpdateIdempotent(stored: seq<ServerConfig>, id: string, u: ServerUpdate)
    requires u.id.None? || u.id == Some(id)
    ensures Update(Update(stored, id, u), id, u) == Update(stored, id, u)
  {
    var once := Update(stored, id, u);
    var twice := Update(once, id, u);
    forall k | 0 <= k < |stored| ensures twice[k] == once[k] {
      if stored[k].id == id {
        assert once[k].id == id;
      }
    }
  }

  /** `storedServers.filter(server => server.id !== id)`. */
  function Without(stored: seq<ServerConfig>, id: string): (r: seq<ServerConfig>)
    ensures |r| <= |stored|
    ensures forall s :: s in r <==> s in stored && s.id != id
  {
    if |stored| == 0 then []
    else (if stored[0].id == id then [] else [stored[0]]) + Without(stored[1..], id)
  }

  /** Filtering out an absent id keeps the whole list. */
  lemma {:induction false} WithoutAbsent(stored: seq<ServerConfig>, id: string)
    requires forall s | s in stored :: s.id != id
    ensures Without(stored, id) == stored
  {
    if |stored| > 0 {
      WithoutAbsent(stored[1..], id);
    }
  }

  /** `removeServer`: drops every server with the id; when that id was
      active and servers remain, the first remaining one becomes active. */
  function Remove(reg: Registry, id: string): (r: Registry)
    ensures r.stored == Without(reg.stored, id)
    ensures !HasId(r.stored, id)
    ensures reg.activeId == id && |r.stored| > 0 ==> r.activeId == r.stored[0].id && r.activeId != id
    ensures !(reg.activeId == id && |r.stored| > 0) ==> r.activeId == reg.activeId
  {
    var newServers := Without(reg.stored, id);
    if reg.activeId == id && |newServers| > 0 then
      assert newServers[0] in newServers;
      Registry(newServers, newServers[0].id)
    else Registry(newServers, reg.activeId)
  }

  /** Removing a server just added under a new id restores the stored list. */
  lemma RemoveAfterAdd(reg: Registry, server: ServerConfig, now: int)
    requires !HasId(reg.stored, server.id)
    ensures Remove(Add(reg, server, now), server.id).stored == reg.stored
  {
    var added := Add(reg, server, now).stored;
    forall s | s in reg.stored ensures s.id != server.id {
      var k :| 0 <= k < |reg.stored| && reg.stored[k] == s;
    }
    WithoutAbsent(reg.stored, server.id);
    WithoutSnoc(reg.stored, server.(createdAt := Some(now)), server.id);
  }

  lemma {:induction false} WithoutSnoc(stored: seq<ServerConfig>, x: ServerConfig, id: string)
    ensures Without(stored + [x], id) == Without(stored, id) + (if x.id == id then [] else [x])
  {
    if |stored| == 0 {
      assert stored + [x] == [x];
    } else {
      assert (stored + [x])[1..] == stored[1..] + [x];
      WithoutSnoc(stored[1..], x, id);
    }
  }

  /** Sets the last-used time of every server with the id. */
  function Touch(stored: seq<ServerConfig>, id: string, now: int): (r: seq<ServerConfig>)
    ensures |r| == |stored|
    ensures forall k | 0 <= k < |stored| && stored[k].id != id :: r[k] == stored[k]
    ensures forall k | 0 <= k < |stored| && stored[k].id == id :: r[k] == stored[k].(lastUsedAt := Some(now))
  {
    if |stored| == 0 then []
    else [if stored[0].id == id then stored[0].(lastUsedAt := Some(now)) else stored[0]] + Touch(stored[1..], id, now)
  }

  /** `setActiveServer` (before the page reload): the id is always set;
      the stored list changes only when a stored server has the id. */
  function SetActive(reg: Registry, id: string, now: int): (r: Registry)
    ensures r.activeId == id
    ensures !HasId(reg.stored, id) ==> r.stored == reg.stored
    ensures HasId(reg.stored, id) ==> r.stored == Touch(reg.stored, id, now)
  {
    var server := Find(reg.stored, id);
    Registry(if server.Some? then Touch(reg.stored, id, now) else reg.stored, id)
  }

  /** The merge keeps the stored list as its prefix. */
  lemma {:induction false} MergePrefix(combined: seq<ServerConfig>, env: seq<ServerConfig>)
    ensures |Merge(combined, env)| >= |combined|
    ensures forall k | 0 <= k < |combined| :: Merge(combined, env)[k] == combined[k]
    decreases |env|
  {
    if |env| > 0 {
      var next := if HasId(combined, env[0].id) then combined else combined + [env[0]];
      MergePrefix(next, env[1..]);
    }
  }

  /** A list whose first `n` servers agree with `prefix`, which has the id,
      finds the same server as `prefix`. */
  lemma {:induction false} FindInPrefix(all: seq<ServerConfig>, prefix: seq<ServerConfig>, id: string)
    requires |prefix| <= |all| && forall k | 0 <= k < |prefix| :: all[k] == prefix[k]
    requires HasId(prefix, id)
    ensures Find(all, id) == Find(prefix, id)
  {
    if prefix[0].id != id {
      assert HasId(prefix[1..], id) by {
        var k :| 0 <= k < |prefix| && prefix[k].id == id;
        assert prefix[1..][k - 1] == prefix[k];
      }
      FindInPrefix(all[1..], prefix[1..], id);
    }
  }

  /** The server found after touching is the one found before, with the
      new time. */
  lemma {:induction false} FindTouched(stored: seq<ServerConfig>, id: string, now: int)
    requires HasId(stored, id)
    ensures Find(Touch(stored, id, now), id) == Some(Find(stored, id).value.(lastUsedAt := Some(now)))
  {
    if stored[0].id != id {
      assert HasId(stored[1..], id) by {
        var k :| 0 <= k < |stored| && stored[k].id == id;
        assert stored[1..][k - 1] == stored[k];
      }
      FindTouched(stored[1..], id, now);
      assert Touch(stored, id, now)[1..] == Touch(stored[1..], id, now);
    }
  }

  /** After setting a stored server active, the active server is that
      server with its new last-used time. */
  lemma SetActiveFinds(reg: Registry, id: string, now: int, env: seq<ServerConfig>)
    requires HasId(reg.stored, id)
    ensures Find(Merge(SetActive(reg, id, now).stored, env), id).Some?
    ensures Find(Merge(SetActive(reg, id, now).stored, env), id).value.lastUsedAt == Some(now)
  {
    var touched := SetActive(reg, id, now).stored;
    FindTouched(reg.stored, id, now);
    MergePrefix(touched, env);
    FindInPrefix(Merge(touched, env), touched, id);
  }

  /** `reloadServers`: the environment list replaces the stored one only
      when it is non-empty. */
  function Reload(reg: Registry, env: seq<ServerConfig>): (r: Registry)
    ensures r.activeId == reg.activeId
    ensures |env| > 0 ==> r.stored == env
    ensures |env| == 0 ==> r.stored == reg.stored
  {
    if |env| > 0 then reg.(stored := env) else reg
  }

  /** The hook's two cells, updated in place by its operations. */
  class ServerStore {
    var stored: seq<ServerConfig>
    var activeId: string

    function State(): Registry
      reads this
    {
      Registry(stored, activeId)
    }

    constructor (defaults: seq<ServerConfig>)
      ensures State() == Initial(defaults)
    {
      stored := defaults;
      activeId := if |defaults| > 0 then defaults[0].id else "";
    }

    method Servers(env: seq<ServerConfig>) returns (all: seq<ServerConfig>)
      ensures all == Merge(stored, env)
    {
      all := AllServers(stored, env);
    }

    method ActiveServer(env: seq<ServerConfig>) returns (active: Option<ServerConfig>)
      ensures active == Find(Merge(stored, env), activeId)
    {
      var all := AllServers(stored, env);
      active := Find(all, activeId);
    }

    method AddServer(server: ServerConfig, now: int)
      modifies this
      ensures State() == Add(old(State()), server, now)
    {
      stored := stored + [server.(createdAt := Some(now))];
      if activeId == "" {
        activeId := server.id;
      }
    }

    method UpdateServer(id: string, u: ServerUpdate)
      modifies this
      ensures State() == old(State()).(stored := Update(old(stored), id, u))
    {
      stored := Update(stored, id, u);
    }

    method RemoveServer(id: string)
      modifies this
      ensures State() == Remove(old(State()), id)
    {
      var newServers := Without(stored, id);
      stored := newServers;
      if activeId == id && |newServers| > 0 {
        activeId := newServers[0].id;
      }
    }

    method SetActiveServer(id: string, now: int)
      modifies this
      ensures State() == SetActive(old(State()), id, now)
    {
      activeId := id;
      var server := Find(stored, id);
      if server.Some? {
        stored := Touch(stored, id, now);
      }
    }

    method ReloadServers(env: seq<ServerConfig>)
      modifies this
      ensures State() == Reload(old(State()), env)
    {
      if |env| > 0 {
        stored := env;
      }
    }
  }
}
