/** The message cache of apps/web/src/hooks/use-session-messages.ts: the
    SWR key of a session's messages, the matcher every cache update uses,
    and the optimistic append (with its rollback), update and removal.

    The SWR cache is a sequence of entries in insertion order, each a key
    and its data (`None` for undefined). `mutate(matcher, updater)`
    applies the updater to the data of every entry whose key matches, in
    that order, and leaves the rest alone. */
module SessionMessages {
  import opened Results
  import opened Text
  import Js

  const SessionsPrefix := "/api/sessions/"
  const MessagesSuffix := "/messages"

  datatype Info = Info(id: string, role: string)

  datatype Message = Message(info: Info, parts: seq<Js.Value>, isQueued: Option<bool>)

  datatype Entry = Entry(key: Js.Value, data: Option<seq<Message>>)

  // ---------------------------------------------------------------------
  // Keys

  /** `getMessagesKey`. */
  function MessagesKey(sessionId: string): string {
    SessionsPrefix + sessionId + MessagesSuffix
  }

  /** Different sessions have different message keys. */
  lemma MessagesKeyInjective(a: string, b: string)
    requires MessagesKey(a) == MessagesKey(b)
    ensures a == b
  {
    var ka, kb := MessagesKey(a), MessagesKey(b);
    assert |a| == |b|;
    forall i | 0 <= i < |a| ensures a[i] == b[i] {
      assert a[i] == ka[|SessionsPrefix| + i] == kb[|SessionsPrefix| + i] == b[i];
    }
  }

  /** The key the messages hook reads its session under: null, so that
      nothing is fetched, without a (non-empty) session id. */
  function HookKey(sessionId: Option<string>, serverUrl: Js.Value): (key: Js.Value)
    ensures key == Js.Null <==> sessionId.None? || sessionId.value == ""
    ensures key != Js.Null ==> key == Js.Arr([Js.Str(MessagesKey(sessionId.value)), serverUrl])
  {
    if sessionId.None? || sessionId.value == "" then Js.Null
    else Js.Arr([Js.Str(MessagesKey(sessionId.value)), serverUrl])
  }

  /** The matcher: an array key with a string head matches when the head
      is the prefix; any other key when it is the prefix itself. */
  predicate KeyMatches(key: Js.Value, prefix: string) {
    if key.Arr? && |key.items| > 0 && key.items[0].Str? then key.items[0].s == prefix
    else key == Js.Str(prefix)
  }

  /** A key matches exactly when it is the prefix or an array headed by
      it; in particular the hook's key matches for every server, and no
      key matches two sessions. */
  lemma KeyMatchesSpec(key: Js.Value, sessionId: string, other: string, serverUrl: Js.Value)
    ensures KeyMatches(key, MessagesKey(sessionId)) <==>
      key == Js.Str(MessagesKey(sessionId)) ||
      (key.Arr? && |key.items| > 0 && key.items[0] == Js.Str(MessagesKey(sessionId)))
    ensures sessionId != "" ==> KeyMatches(HookKey(Some(sessionId), serverUrl), MessagesKey(sessionId))
    ensures KeyMatches(key, MessagesKey(sessionId)) && KeyMatches(key, MessagesKey(other)) ==> sessionId == other
  {
    if KeyMatches(key, MessagesKey(sessionId)) && KeyMatches(key, MessagesKey(other)) {
      MessagesKeyInjective(sessionId, other);
    }
  }

  // ---------------------------------------------------------------------
  // `mutate` and the updaters

  /** `mutate(matcher, updater)` over the cache. */
  function Mutate(cache: seq<Entry>, prefix: string, f: Option<seq<Message>> -> Option<seq<Message>>): (r: seq<Entry>)
    ensures |r| == |cache|
    ensures forall k | 0 <= k < |cache| :: r[k].key == cache[k].key
    ensures forall k | 0 <= k < |cache| :: !KeyMatches(cache[k].key, prefix) ==> r[k] == cache[k]
    ensures forall k | 0 <= k < |cache| :: KeyMatches(cache[k].key, prefix) ==> r[k].data == f(cache[k].data)
  {
    seq(|cache|, k requires 0 <= k < |cache| =>
      if KeyMatches(cache[k].key, prefix) then cache[k].(data := f(cache[k].data)) else cache[k])
  }

  /** `current || []`. */
  function OrEmpty(current: Option<seq<Message>>): seq<Message> {
    if current.Some? then current.value else []
  }

  /** `addOptimisticMessage`'s effect on the cache: the message is appended
      to every matching list, an undefined list counting as empty. */
  function AddMessage(cache: seq<Entry>, sessionId: string, message: Message): (r: seq<Entry>)
    ensures |r| == |cache|
    ensures forall k | 0 <= k < |cache| :: r[k].key == cache[k].key
    ensures forall k | 0 <= k < |cache| :: !KeyMatches(cache[k].key, MessagesKey(sessionId)) ==> r[k] == cache[k]
    ensures forall k | 0 <= k < |cache| :: KeyMatches(cache[k].key, MessagesKey(sessionId)) ==>
      r[k].data == Some(OrEmpty(cache[k].data) + [message])
  {
    Mutate(cache, MessagesKey(sessionId), current => Some(OrEmpty(current) + [message]))
  }

  /** What `previousMessages` holds after the append: it is reassigned for
      each matching entry, so it ends as the last matching entry's list
      (an undefined one counting as empty), or [] when none matched. */
  function Captured(cache: seq<Entry>, prefix: string): seq<Message> {
    if |cache| == 0 then []
    else if KeyMatches(Last(cache).key, prefix) then OrEmpty(Last(cache).data)
    else Captured(DropLast(cache), prefix)
  }

  /** The rollback: every matching entry is set to the captured list. */
  function Restore(cache: seq<Entry>, prefix: string, previous: seq<Message>): (r: seq<Entry>)
    ensures |r| == |cache|
    ensures forall k | 0 <= k < |cache| :: r[k].key == cache[k].key
    ensures forall k | 0 <= k < |cache| :: !KeyMatches(cache[k].key, prefix) ==> r[k] == cache[k]
    ensures forall k | 0 <= k < |cache| :: KeyMatches(cache[k].key, prefix) ==> r[k].data == Some(previous)
  {
    Mutate(cache, prefix, current => Some(previous))
  }

  /** The captured list is the list of the last matching entry. */
  lemma {:induction false} CapturedIsLastMatch(cache: seq<Entry>, prefix: string, j: nat)
    requires j < |cache| && KeyMatches(cache[j].key, prefix)
    requires forall k | j < k < |cache| :: !KeyMatches(cache[k].key, prefix)
    ensures Captured(cache, prefix) == OrEmpty(cache[j].data)
  {
    if j < |cache| - 1 {
      var front := DropLast(cache);
      assert forall k | j < k < |front| :: front[k] == cache[k];
      CapturedIsLastMatch(front, prefix, j);
    }
  }

  /** With a single matching entry the rollback undoes the append: the
      entry gets its list back (an undefined one comes back as []), and
      every other entry was never touched. */
  lemma RollbackSingleEntry(cache: seq<Entry>, sessionId: string, message: Message, j: nat)
    requires j < |cache| && KeyMatches(cache[j].key, MessagesKey(sessionId))
    requires forall k | 0 <= k < |cache| && k != j :: !KeyMatches(cache[k].key, MessagesKey(sessionId))
    ensures Restore(AddMessage(cache, sessionId, message), MessagesKey(sessionId), Captured(cache, MessagesKey(sessionId))) ==
      cache[j := Entry(cache[j].key, Some(OrEmpty(cache[j].data)))]
  {
    CapturedIsLastMatch(cache, MessagesKey(sessionId), j);
  }

  /** The messages hook caches a session per server, so two entries can
      match one session. Appending to both and rolling back gives both
      the second server's old list: the first server's list is lost. */
  lemma RollbackAcrossServers(a: Message, b: Message, x: Message)
    requires a != b
    ensures var cache := [Entry(HookKey(Some("s"), Js.Str("http://one")), Some([a])),
                          Entry(HookKey(Some("s"), Js.Str("http://two")), Some([b]))];
      Restore(AddMessage(cache, "s", x), MessagesKey("s"), Captured(cache, MessagesKey("s")))[0] !=
        cache[0]
  {
    var cache := [Entry(HookKey(Some("s"), Js.Str("http://one")), Some([a])),
                  Entry(HookKey(Some("s"), Js.Str("http://two")), Some([b]))];
    var p := MessagesKey("s");
    assert KeyMatches(cache[1].key, p);
    CapturedIsLastMatch(cache, p, 1);
    var back := Restore(AddMessage(cache, "s", x), p, Captured(cache, p));
    assert KeyMatches(cache[0].key, p);
    assert back[0].data == Some([b]);
    assert [b] != [a];
  }

  /** A rollback that restores what each matching entry held before. */
  function Snapshot(cache: seq<Entry>): (r: seq<Option<seq<Message>>>)
    ensures |r| == |cache| && forall k | 0 <= k < |cache| :: r[k] == cache[k].data
  {
    seq(|cache|, k requires 0 <= k < |cache| => cache[k].data)
  }

  function RestoreSnapshot(cache: seq<Entry>, prefix: string, snapshot: seq<Option<seq<Message>>>): (r: seq<Entry>)
    requires |snapshot| == |cache|
    ensures |r| == |cache|
    ensures forall k | 0 <= k < |cache| :: r[k].key == cache[k].key
    ensures forall k | 0 <= k < |cache| :: !KeyMatches(cache[k].key, prefix) ==> r[k] == cache[k]
    ensures forall k | 0 <= k < |cache| :: KeyMatches(cache[k].key, prefix) ==> r[k].data == snapshot[k]
  {
    seq(|cache|, k requires 0 <= k < |cache| =>
      if KeyMatches(cache[k].key, prefix) then cache[k].(data := snapshot[k]) else cache[k])
  }

  /** The per-entry rollback undoes the append exactly, however many
      entries match. */
  lemma SnapshotRollback(cache: seq<Entry>, sessionId: string, message: Message)
    ensures RestoreSnapshot(AddMessage(cache, sessionId, message), MessagesKey(sessionId), Snapshot(cache)) == cache
  {
    var added := AddMessage(cache, sessionId, message);
    var back := RestoreSnapshot(added, MessagesKey(sessionId), Snapshot(cache));
    forall k | 0 <= k < |cache| ensures back[k] == cache[k] {
      assert added[k].key == cache[k].key;
    }
  }

  // ---------------------------------------------------------------------
  // Updating and removing one message

  /** A `Partial<MessageWithParts>`: each field is None when absent. */
  datatype MessageUpdate = MessageUpdate(info: Option<Info>, parts: Option<seq<Js.Value>>, isQueued: Option<Option<bool>>)

  /** `{ ...m, ...updates }`. */
  function Apply(m: Message, u: MessageUpdate): (r: Message)
    ensures u.info.None? ==> r.info == m.info
    ensures u.info.Some? ==> r.info == u.info.value
    ensures u.parts.None? ==> r.parts == m.parts
    ensures u.parts.Some? ==> r.parts == u.parts.value
    ensures u.isQueued.None? ==> r.isQueued == m.isQueued
    ensures u.isQueued.Some? ==> r.isQueued == u.isQueued.value
  {
    Message(
      if u.info.Some? then u.info.value else m.info,
      if u.parts.Some? then u.parts.value else m.parts,
      if u.isQueued.Some? then u.isQueued.value else m.isQueued)
  }

  lemma ApplyIdempotent(m: Message, u: MessageUpdate)
    ensures Apply(Apply(m, u), u) == Apply(m, u)
  {
  }

  /** `current.map(m => m.info.id === messageId ? { ...m, ...updates } : m)`. */
  function UpdateList(current: seq<Message>, messageId: string, u: MessageUpdate): (r: seq<Message>)
    ensures |r| == |current|
    ensures forall k | 0 <= k < |current| :: current[k].info.id != messageId ==> r[k] == current[k]
    ensures forall k | 0 <= k < |current| :: current[k].info.id == messageId ==> r[k] == Apply(current[k], u)
  {
    seq(|current|, k requires 0 <= k < |current| =>
      if current[k].info.id == messageId then Apply(current[k], u) else current[k])
  }

  /** `current.filter(m => m.info.id !== messageId)`. */
  function RemoveList(current: seq<Message>, messageId: string): (r: seq<Message>)
    ensures |r| <= |current|
    ensures forall m :: m in r <==> m in current && m.info.id != messageId
  {
    if |current| == 0 then []
    else (if current[0].info.id == messageId then [] else [current[0]]) + RemoveList(current[1..], messageId)
  }

  /** The filter keeps the order of what it keeps: it works piece by piece. */
  lemma {:induction false} RemoveListAppend(a: seq<Message>, b: seq<Message>, messageId: string)
    ensures RemoveList(a + b, messageId) == RemoveList(a, messageId) + RemoveList(b, messageId)
  {
    if |a| == 0 {
      assert a + b == b;
    } else {
      assert (a + b)[1..] == a[1..] + b;
      assert (a + b)[0] == a[0];
      RemoveListAppend(a[1..], b, messageId);
    }
  }

  /** Removing an absent id changes nothing. */
  lemma {:induction false} RemoveListAbsent(current: seq<Message>, messageId: string)
    requires forall k | 0 <= k < |current| :: current[k].info.id != messageId
    ensures RemoveList(current, messageId) == current
  {
    if |current| > 0 {
      RemoveListAbsent(current[1..], messageId);
      assert current == [current[0]] + current[1..];
    }
  }

  /** Removing a message appended under a fresh id gives the list back. */
  lemma RemoveAfterAppend(current: seq<Message>, message: Message)
    requires forall k | 0 <= k < |current| :: current[k].info.id != message.info.id
    ensures RemoveList(current + [message], message.info.id) == current
  {
    RemoveListAppend(current, [message], message.info.id);
    RemoveListAbsent(current, message.info.id);
    assert [message][1..] == [];
  }

  /** `updateOptimisticMessage`'s updater: an undefined list stays so. */
  function Updated(current: Option<seq<Message>>, messageId: string, u: MessageUpdate): (r: Option<seq<Message>>)
    ensures current.None? <==> r.None?
    ensures current.Some? ==> r.value == UpdateList(current.value, messageId, u)
  {
    if current.None? then None else Some(UpdateList(current.value, messageId, u))
  }

  /** `removeOptimisticMessage`'s updater: an undefined list stays so. */
  function Removed(current: Option<seq<Message>>, messageId: string): (r: Option<seq<Message>>)
    ensures current.None? <==> r.None?
    ensures current.Some? ==> r.value == RemoveList(current.value, messageId)
  {
    if current.None? then None else Some(RemoveList(current.value, messageId))
  }

  /** `updateOptimisticMessage`: every list cached under the session's key
      has the message updated, an undefined one staying undefined; every
      other entry is unchanged. */
  function UpdateMessage(cache: seq<Entry>, sessionId: string, messageId: string, u: MessageUpdate): (r: seq<Entry>)
    ensures |r| == |cache|
    ensures forall k | 0 <= k < |cache| :: r[k].key == cache[k].key
    ensures forall k | 0 <= k < |cache| :: !KeyMatches(cache[k].key, MessagesKey(sessionId)) ==> r[k] == cache[k]
    ensures forall k | 0 <= k < |cache| :: KeyMatches(cache[k].key, MessagesKey(sessionId)) ==>
      (r[k].data.Some? <==> cache[k].data.Some?) &&
      (cache[k].data.Some? ==> r[k].data.value == UpdateList(cache[k].data.value, messageId, u))
  {
    Mutate(cache, MessagesKey(sessionId), current => Updated(current, messageId, u))
  }

  /** `removeOptimisticMessage`: every list cached under the session's key
      loses the messages with that id, an undefined one staying undefined;
      every other entry is unchanged. */
  function RemoveMessage(cache: seq<Entry>, sessionId: string, messageId: string): (r: seq<Entry>)
    ensures |r| == |cache|
    ensures forall k | 0 <= k < |cache| :: r[k].key == cache[k].key
    ensures forall k | 0 <= k < |cache| :: !KeyMatches(cache[k].key, MessagesKey(sessionId)) ==> r[k] == cache[k]
    ensures forall k | 0 <= k < |cache| :: KeyMatches(cache[k].key, MessagesKey(sessionId)) ==>
      (r[k].data.Some? <==> cache[k].data.Some?) &&
      (cache[k].data.Some? ==> r[k].data.value == RemoveList(cache[k].data.value, messageId))
  {
    Mutate(cache, MessagesKey(sessionId), current => Removed(current, messageId))
  }

  /** Appending a message under a fresh id and removing it again restores
      every cached list that was defined. */
  lemma AddThenRemove(cache: seq<Entry>, sessionId: string, message: Message)
    requires forall k | 0 <= k < |cache| :: cache[k].data.Some?
    requires forall k, i | 0 <= k < |cache| && cache[k].data.Some? && 0 <= i < |cache[k].data.value| ::
      cache[k].data.value[i].info.id != message.info.id
    ensures RemoveMessage(AddMessage(cache, sessionId, message), sessionId, message.info.id) == cache
  {
    var added := AddMessage(cache, sessionId, message);
    var back := RemoveMessage(added, sessionId, message.info.id);
    forall k | 0 <= k < |cache| ensures back[k] == cache[k] {
      if KeyMatches(cache[k].key, MessagesKey(sessionId)) {
        RemoveAfterAppend(cache[k].data.value, message);
      }
    }
  }

  /** The messages the hook returns: `data || []`. */
  function HookMessages(data: Option<seq<Message>>): seq<Message> {
    OrEmpty(data)
  }

  // ---------------------------------------------------------------------
  // The cache, updated in place

  class MessageCache {
    var entries: seq<Entry>

    constructor (initial: seq<Entry>)
      ensures entries == initial
    {
      entries := initial;
    }

    /** `addOptimisticMessage`: appends the message to every matching list
        and returns what its rollback closure would restore. */
    method AddOptimisticMessage(sessionId: string, message: Message) returns (previousMessages: seq<Message>)
      modifies this
      ensures entries == AddMessage(old(entries), sessionId, message)
      ensures previousMessages == Captured(old(entries), MessagesKey(sessionId))
    {
      var keyPrefix := MessagesKey(sessionId);
      previousMessages := [];
      var updated: seq<Entry> := [];
      var i := 0;
      while i < |entries|
        invariant i <= |entries|
        invariant |updated| == i
        invariant forall k | 0 <= k < i :: updated[k] == AddMessage(entries, sessionId, message)[k]
        invariant previousMessages == Captured(entries[..i], keyPrefix)
      {
        var entry := entries[i];
        assert DropLast(entries[..i + 1]) == entries[..i];
        if KeyMatches(entry.key, keyPrefix) {
          previousMessages := if entry.data.Some? then entry.data.value else [];
          updated := updated + [entry.(data := Some(previousMessages + [message]))];
        } else {
          updated := updated + [entry];
        }
        i := i + 1;
      }
      assert entries[..i] == entries;
      entries := updated;
    }

    /** The rollback closure. */
    method Rollback(sessionId: string, previousMessages: seq<Message>)
      modifies this
      ensures entries == Restore(old(entries), MessagesKey(sessionId), previousMessages)
    {
      entries := Restore(entries, MessagesKey(sessionId), previousMessages);
    }

    /** The corrected rollback: each matching entry gets back its own list
        from a snapshot taken before the append. */
    method RollbackEach(sessionId: string, snapshot: seq<Option<seq<Message>>>)
      requires |snapshot| == |entries|
      modifies this
      ensures entries == RestoreSnapshot(old(entries), MessagesKey(sessionId), snapshot)
    {
      entries := RestoreSnapshot(entries, MessagesKey(sessionId), snapshot);
    }

    method UpdateOptimisticMessage(sessionId: string, messageId: string, u: MessageUpdate)
      modifies this
      ensures entries == UpdateMessage(old(entries), sessionId, messageId, u)
    {
      entries := UpdateMessage(entries, sessionId, messageId, u);
    }

    method RemoveOptimisticMessage(sessionId: string, messageId: string)
      modifies this
      ensures entries == RemoveMessage(old(entries), sessionId, messageId)
    {
      entries := RemoveMessage(entries, sessionId, messageId);
    }
  }
}
