/** The server configuration records of apps/web/src/types/servers.ts: the
    default server and the servers configured through numbered
    environment variables. */
module Servers {
  import opened Results
  import opened Text
  import Js

  /** A configured OpenCode server; the optional fields are absent (None)
      or present. Timestamps are milliseconds. */
  datatype ServerConfig = ServerConfig(
    id: string, name: string, url: string,
    color: Option<string>, createdAt: Option<int>, lastUsedAt: Option<int>)

  const DefaultColor := "#3b82f6"
  const DefaultServerUrl := "http://localhost:4000"

  /** `DEFAULT_SERVERS`, given the two URL variables and the load time. */
  function DefaultServers(publicUrl: Option<string>, serverUrl: Option<string>, now: int): (r: seq<ServerConfig>)
    ensures |r| == 1 && r[0].id == "default" && r[0].name == "Default" && r[0].color == Some(DefaultColor)
    ensures publicUrl.Some? && publicUrl.value != "" ==> r[0].url == publicUrl.value
    ensures !(publicUrl.Some? && publicUrl.value != "") && serverUrl.Some? && serverUrl.value != "" ==>
      r[0].url == serverUrl.value
    ensures !(publicUrl.Some? && publicUrl.value != "") && !(serverUrl.Some? && serverUrl.value != "") ==>
      r[0].url == DefaultServerUrl
  {
    [ServerConfig("default", "Default", Js.OrElse(publicUrl, Js.OrElse(serverUrl, DefaultServerUrl)),
                  Some(DefaultColor), Some(now), None)]
  }

  /** The name, URL and color variables of one numbered slot. */
  datatype EnvSlot = EnvSlot(name: Option<string>, url: Option<string>, color: Option<string>)

  /** A slot is used when both its name and its URL are non-empty. */
  predicate Usable(slot: EnvSlot) {
    slot.name.Some? && slot.name.value != "" && slot.url.Some? && slot.url.value != ""
  }

  /** The id of the slot at a (0-based) position: its 1-based number. */
  function SlotId(index: nat): string {
    "env-" + NatToString(index + 1)
  }

  function FromSlot(slot: EnvSlot, index: nat): ServerConfig
    requires Usable(slot)
  {
    ServerConfig(SlotId(index), slot.name.value, slot.url.value, slot.color, None, None)
  }

  /** The servers of the usable slots, in slot order. */
  function EnvServers(slots: seq<EnvSlot>): (r: seq<ServerConfig>)
    ensures |r| <= |slots|
  {
    if |slots| == 0 then []
    else
      var last := slots[|slots| - 1];
      EnvServers(slots[..|slots| - 1]) + (if Usable(last) then [FromSlot(last, |slots| - 1)] else [])
  }

  /** `loadServersFromEnv`: visits the slots in order, keeping the usable
      ones. */
  method LoadServersFromEnv(slots: seq<EnvSlot>) returns (servers: seq<ServerConfig>)
    ensures servers == EnvServers(slots)
  {
    servers := [];
    var index := 0;
    while index < |slots|
      invariant index <= |slots|
      invariant servers == EnvServers(slots[..index])
    {
      var config := slots[index];
      assert slots[..index + 1][..index] == slots[..index];
      if config.name.Some? && config.name.value != "" && config.url.Some? && config.url.value != "" {
        servers := servers + [ServerConfig(SlotId(index), config.name.value, config.url.value, config.color, None, None)];
      }
      index := index + 1;
    }
    assert slots[..index] == slots;
  }

  /** The server is the record of a usable slot. */
  ghost predicate LoadedFrom(slots: seq<EnvSlot>, server: ServerConfig) {
    exists i | 0 <= i < |slots| :: Usable(slots[i]) && server == FromSlot(slots[i], i)
  }

  /** The id is that of one of the first `count` slots. */
  ghost predicate SlotIdBelow(count: nat, id: string) {
    exists i | 0 <= i < count :: id == SlotId(i)
  }

  /** Every loaded server is the record of a usable slot, with its name,
      URL and color copied and the slot number as id; every usable slot
      is loaded. */
  lemma EnvServersFromSlots(slots: seq<EnvSlot>)
    ensures forall k | 0 <= k < |EnvServers(slots)| :: LoadedFrom(slots, EnvServers(slots)[k])
    ensures forall i | 0 <= i < |slots| && Usable(slots[i]) :: FromSlot(slots[i], i) in EnvServers(slots)
  {
    EnvServersLoaded(slots);
    EnvServersComplete(slots);
  }

  lemma {:induction false} EnvServersLoaded(slots: seq<EnvSlot>)
    ensures forall k | 0 <= k < |EnvServers(slots)| :: LoadedFrom(slots, EnvServers(slots)[k])
  {
    if |slots| > 0 {
      var n := |slots| - 1;
      var init := slots[..n];
      EnvServersLoaded(init);
      var r := EnvServers(slots);
      var p := EnvServers(init);
      assert r == p + (if Usable(slots[n]) then [FromSlot(slots[n], n)] else []);
      forall k | 0 <= k < |r| ensures LoadedFrom(slots, r[k]) {
        if k < |p| {
          assert r[k] == p[k];
          assert LoadedFrom(init, p[k]);
          var i :| 0 <= i < |init| && Usable(init[i]) && p[k] == FromSlot(init[i], i);
          assert slots[i] == init[i];
        } else {
          assert Usable(slots[n]) && r[k] == FromSlot(slots[n], n);
        }
      }
    }
  }

  lemma {:induction false} EnvServersComplete(slots: seq<EnvSlot>)
    ensures forall i | 0 <= i < |slots| && Usable(slots[i]) :: FromSlot(slots[i], i) in EnvServers(slots)
  {
    if |slots| > 0 {
      var n := |slots| - 1;
      var init := slots[..n];
      EnvServersComplete(init);
      var r := EnvServers(slots);
      var p := EnvServers(init);
      assert r == p + (if Usable(slots[n]) then [FromSlot(slots[n], n)] else []);
      forall i | 0 <= i < |slots| && Usable(slots[i]) ensures FromSlot(slots[i], i) in r {
        if i < n {
          assert slots[i] == init[i];
          assert FromSlot(init[i], i) in p;
        } else {
          assert r[|r| - 1] == FromSlot(slots[n], n);
        }
      }
    }
  }

  /** The loaded ids are distinct, and each names a slot number between 1
      and the number of slots. */
  lemma {:induction false} EnvServerIds(slots: seq<EnvSlot>)
    ensures forall k | 0 <= k < |EnvServers(slots)| :: SlotIdBelow(|slots|, EnvServers(slots)[k].id)
    ensures forall j, k | 0 <= j < k < |EnvServers(slots)| :: EnvServers(slots)[j].id != EnvServers(slots)[k].id
  {
    if |slots| > 0 {
      var n := |slots| - 1;
      var init := slots[..n];
      EnvServerIds(init);
      var r := EnvServers(slots);
      var p := EnvServers(init);
      assert r[..|p|] == p;
      forall k | 0 <= k < |r| ensures SlotIdBelow(|slots|, r[k].id) {
        if k < |p| {
          assert SlotIdBelow(|init|, p[k].id);
          var i :| 0 <= i < |init| && p[k].id == SlotId(i);
        } else {
          assert r[k].id == SlotId(n);
        }
      }
      forall j, k | 0 <= j < k < |r| ensures r[j].id != r[k].id {
        if k >= |p| {
          assert SlotIdBelow(|init|, p[j].id);
          var i :| 0 <= i < |init| && p[j].id == SlotId(i);
          assert r[j] == p[j];
          assert r[k].id == SlotId(n);
          if r[j].id == r[k].id {
            SlotIdInjective(i, n);
          }
        } else {
          assert r[j] == p[j] && r[k] == p[k];
        }
      }
    }
  }

  lemma SlotIdInjective(a: nat, b: nat)
    requires SlotId(a) == SlotId(b)
    ensures a == b
  {
    var pa, pb := "env-" + NatToString(a + 1), "env-" + NatToString(b + 1);
    assert pa[4..] == NatToString(a + 1);
    assert pb[4..] == NatToString(b + 1);
    NatToStringInjective(a + 1, b + 1);
  }

  /** Distinct numbers have distinct decimal texts. */
  lemma {:induction false} NatToStringInjective(a: nat, b: nat)
    requires NatToString(a) == NatToString(b)
    ensures a == b
  {
    if a >= 10 && b >= 10 {
      var sa, sb := NatToString(a), NatToString(b);
      assert sa[..|sa| - 1] == NatToString(a / 10);
      assert sb[..|sb| - 1] == NatToString(b / 10);
      NatToStringInjective(a / 10, b / 10);
      assert DigitChar(a % 10) == DigitChar(b % 10);
      DigitCharInjective(a % 10, b % 10);
    } else if a < 10 && b < 10 {
      DigitCharInjective(a, b);
    }
  }

  lemma DigitCharInjective(a: nat, b: nat)
    requires a < 10 && b < 10 && DigitChar(a) == DigitChar(b)
    ensures a == b
  {
  }
}
