/** The server settings page of apps/web/src/pages/servers.tsx: the add
    form's checks and reset, and the last-server guard on deletion. The
    list the page shows and checks is the hook's merged list. */
module ServersPage {
  import opened Results
  import opened Text
  import opened Servers
  import opened ServerRegistry

  const RequiredMessage := "Name and URL are required"
  const DuplicateMessage := "Server with this URL already exists"

  predicate HasUrl(servers: seq<ServerConfig>, url: string) {
    exists k | 0 <= k < |servers| :: servers[k].url == url
  }

  predicate UniqueUrls(servers: seq<ServerConfig>) {
    forall j, k | 0 <= j < k < |servers| :: servers[j].url != servers[k].url
  }

  // ---------------------------------------------------------------------
  // Adding a server

  datatype AddOutcome = Rejected(message: string) | Added(server: ServerConfig)

  /** `handleAdd`'s checks and the server it passes to `addServer`: the
      trimmed name and URL must be non-empty, and no listed server may
      have the trimmed URL. `now` is `Date.now()`. */
  function CheckAdd(servers: seq<ServerConfig>, name: string, url: string, color: string, now: int): (r: AddOutcome)
    ensures r == Rejected(RequiredMessage) <==> Trim(name) == "" || Trim(url) == ""
    ensures r == Rejected(DuplicateMessage) <==> Trim(name) != "" && Trim(url) != "" && HasUrl(servers, Trim(url))
    ensures r.Rejected? || r.Added?
    ensures r.Added? ==>
      r.server == ServerConfig("server-" + IntToString(now), Trim(name), Trim(url), Some(color), None, None) &&
      r.server.name != "" && r.server.url != "" && !HasUrl(servers, r.server.url)
  {
    if Trim(name) == "" || Trim(url) == "" then Rejected(RequiredMessage)
    else if HasUrl(servers, Trim(url)) then Rejected(DuplicateMessage)
    else Added(ServerConfig("server-" + IntToString(now), Trim(name), Trim(url), Some(color), None, None))
  }

  /** Adding through the form keeps the checked list's URLs distinct. */
  lemma AddKeepsUrlsDistinct(servers: seq<ServerConfig>, name: string, url: string, color: string, now: int)
    requires UniqueUrls(servers)
    requires CheckAdd(servers, name, url, color, now).Added?
    ensures var added := CheckAdd(servers, name, url, color, now).server;
      UniqueUrls(servers + [added.(createdAt := Some(now))])
  {
    var added := CheckAdd(servers, name, url, color, now).server;
    var t := servers + [added.(createdAt := Some(now))];
    forall j, k | 0 <= j < k < |t| ensures t[j].url != t[k].url {
      if k == |servers| {
        assert t[j] == servers[j];
      } else {
        assert t[j] == servers[j] && t[k] == servers[k];
      }
    }
  }

  /** Once a server is added, the form rejects the same URL (however it is
      padded) as a duplicate. */
  lemma AddedUrlRejected(reg: Registry, env: seq<ServerConfig>, name: string, url: string, color: string, now: int,
                         name2: string, url2: string, color2: string, now2: int)
    requires CheckAdd(Merge(reg.stored, env), name, url, color, now).Added?
    requires Trim(name2) != "" && Trim(url2) == Trim(url)
    ensures var added := CheckAdd(Merge(reg.stored, env), name, url, color, now).server;
      CheckAdd(Merge(Add(reg, added, now).stored, env), name2, url2, color2, now2) == Rejected(DuplicateMessage)
  {
    var added := CheckAdd(Merge(reg.stored, env), name, url, color, now).server;
    var stored := Add(reg, added, now).stored;
    MergeSpec(stored, env);
    var all := Merge(stored, env);
    assert all[|reg.stored|] == all[..|stored|][|reg.stored|] == stored[|reg.stored|];
    assert all[|reg.stored|].url == Trim(url2);
  }

  // ---------------------------------------------------------------------
  // Deleting a server

  /** `handleDelete`: the id whose removal is scheduled, or none when at
      most one server is listed. */
  function CheckDelete(servers: seq<ServerConfig>, id: string): (r: Option<string>)
    ensures r.None? <==> |servers| <= 1
    ensures r.Some? ==> r.value == id
  {
    if |servers| <= 1 then None else Some(id)
  }

  /** The delete button's `isDisabled`. */
  predicate DeleteDisabled(deletingId: Option<string>, serverId: string, count: nat) {
    deletingId == Some(serverId) || count <= 1
  }

  /** The button is disabled whenever the handler would refuse, and a
      button that is enabled schedules its deletion. */
  lemma DisabledGuards(servers: seq<ServerConfig>, deletingId: Option<string>, id: string)
    ensures CheckDelete(servers, id).None? ==> DeleteDisabled(deletingId, id, |servers|)
    ensures !DeleteDisabled(deletingId, id, |servers|) ==> CheckDelete(servers, id) == Some(id)
  {
  }

  /** After the removal a stored-only server is gone from the list, while
      a server that also comes from the environment is listed again: the
      stored entries are removed but the merge adds the environment one. */
  lemma RemovedFromList(reg: Registry, env: seq<ServerConfig>, id: string)
    ensures HasId(Merge(Remove(reg, id).stored, env), id) <==> exists e | e in env :: e.id == id
  {
    var stored := Remove(reg, id).stored;
    var all := Merge(stored, env);
    MergeSpec(stored, env);
    if HasId(all, id) {
      var k :| 0 <= k < |all| && all[k].id == id;
      assert forall j | 0 <= j < |stored| :: all[j] == all[..|stored|][j] == stored[j];
      assert k >= |stored|;
      assert all[k] in env;
    }
  }

  // ---------------------------------------------------------------------
  // The page state

  class Page {
    var serverName: string
    var serverUrl: string
    var serverColor: string
    var deletingId: Option<string>

    constructor ()
      ensures serverName == "" && serverUrl == "" && serverColor == DefaultColor && deletingId == None
    {
      serverName := "";
      serverUrl := "";
      serverColor := DefaultColor;
      deletingId := None;
    }

    /** `handleAdd` against the hook `store`: an accepted server is added
        and the form is reset and closed; a rejected one changes nothing. */
    method HandleAdd(store: ServerStore, env: seq<ServerConfig>, now: int) returns (closed: bool)
      modifies this, store
      ensures var r := CheckAdd(Merge(old(store.stored), env), old(serverName), old(serverUrl), old(serverColor), now);
        (r.Added? ==>
          closed && store.State() == Add(old(store.State()), r.server, now) &&
          serverName == "" && serverUrl == "" && serverColor == DefaultColor) &&
        (r.Rejected? ==>
          !closed && store.State() == old(store.State()) &&
          serverName == old(serverName) && serverUrl == old(serverUrl) && serverColor == old(serverColor))
      ensures deletingId == old(deletingId)
    {
      var servers := store.Servers(env);
      var name, url := Trim(serverName), Trim(serverUrl);
      if name == "" || url == "" {
        return false;
      }
      if exists k | 0 <= k < |servers| :: servers[k].url == url {
        return false;
      }
      store.AddServer(ServerConfig("server-" + IntToString(now), name, url, Some(serverColor), None, None), now);
      serverName := "";
      serverUrl := "";
      serverColor := DefaultColor;
      closed := true;
    }

    /** `handleDelete`: marks the server as being deleted unless it is the
        only one listed. */
    method HandleDelete(store: ServerStore, env: seq<ServerConfig>, id: string) returns (scheduled: bool)
      modifies this
      ensures scheduled <==> CheckDelete(Merge(store.stored, env), id).Some?
      ensures deletingId == (if scheduled then Some(id) else old(deletingId))
      ensures serverName == old(serverName) && serverUrl == old(serverUrl) && serverColor == old(serverColor)
    {
      var servers := store.Servers(env);
      if |servers| <= 1 {
        return false;
      }
      deletingId := Some(id);
      scheduled := true;
    }

    /** The delayed part of `handleDelete`. */
    method DeleteFired(store: ServerStore, id: string)
      modifies this, store
      ensures store.State() == Remove(old(store.State()), id)
      ensures deletingId == None
      ensures serverName == old(serverName) && serverUrl == old(serverUrl) && serverColor == old(serverColor)
    {
      store.RemoveServer(id);
      deletingId := None;
    }

    predicate DeleteButtonDisabled(serverId: string, count: nat)
      reads this
    {
      DeleteDisabled(deletingId, serverId, count)
    }
  }
}
