/** The client terminal context of
    apps/web/src/contexts/terminal-context.tsx: the bounded log list, the
    bounded output history, and the socket connection it opens to the
    terminal relay for the active server. */
module TerminalContext {
  import opened Results
  import opened Text
  import Js
  import opened Servers

  const MaxHistory := 1000000
  const KeptLogs := 50

  /** The time-of-day part of an ISO time stamp: the text between the first
      "T" and the following "." (or a second "T", or the end); None where
      the stamp has no "T" and the lookup of the second piece would throw. */
  function TimeOfDay(iso: string): (r: Option<string>)
    ensures r.Some? <==> 'T' in iso
    ensures r.Some? ==> 'T' !in r.value && '.' !in r.value
    ensures r.Some? ==> exists i: nat :: StampAt(iso, i, r.value)
  {
    if 'T' !in iso then
      SplitNoSeparator(iso, 'T');
      None
    else
      SecondPieceHead(iso, 'T', '.');
      assert StampAt(iso, |Split(iso, 'T')[0]|, Split(Split(iso, 'T')[1], '.')[0]);
      Some(Split(Split(iso, 'T')[1], '.')[0])
  }

  /** `v` is the text that starts just after the first "T" of `iso`, at
      `i`, holds no "T" or ".", and ends at a ".", a "T" or the end. */
  predicate StampAt(iso: string, i: nat, v: string) {
    i < |iso| && iso[i] == 'T' && 'T' !in iso[..i]
    && v <= iso[i + 1..] && 'T' !in v && '.' !in v
    && (i + 1 + |v| == |iso| || iso[i + 1 + |v|] == '.' || iso[i + 1 + |v|] == 'T')
  }

  /** `addLog`: the 50 most recent earlier entries, then the new one,
      stamped with `timestamp`, which is `TimeOfDay` of the clock's ISO
      time (the clock is a parameter of every step that logs). */
  function AddLog(prev: seq<string>, timestamp: string, message: string): (r: seq<string>)
    ensures |r| <= KeptLogs + 1
    ensures |r| == (if |prev| < KeptLogs then |prev| else KeptLogs) + 1
    ensures r[..|r| - 1] == prev[|prev| - (|r| - 1)..]
    ensures r[|r| - 1] == "[" + timestamp + "] " + message
  {
    Js.SliceLast(prev, KeptLogs);
    Js.SliceFrom(prev, -KeptLogs) + ["[" + timestamp + "] " + message]
  }

  /** The stamp is determined: a text that starts just after the first
      "T", holds no "T" or ".", and ends at a ".", a "T" or the end is the
      time of day. */
  lemma TimeOfDayUnique(iso: string, i: nat, v: string)
    requires StampAt(iso, i, v)
    ensures TimeOfDay(iso) == Some(v)
  {
    assert 'T' in iso;
    var r := TimeOfDay(iso);
    var j: nat :| StampAt(iso, j, r.value);
    SameFirst(iso, i, j);
    StampsAgree(iso[i + 1..], v, r.value);
  }

  /** Two positions of a character with none before either are the same. */
  lemma SameFirst(s: string, i: nat, j: nat)
    requires i < |s| && j < |s| && s[i] == 'T' && s[j] == 'T' && 'T' !in s[..i] && 'T' !in s[..j]
    ensures i == j
  {
    forall k | 0 <= k < i ensures s[k] != 'T' {
      assert s[..i][k] == s[k];
    }
    forall k | 0 <= k < j ensures s[k] != 'T' {
      assert s[..j][k] == s[k];
    }
  }

  /** Two prefixes of a text holding no "T" or ".", each ending at one of
      them or at the end, are equal. */
  lemma StampsAgree(tail: string, v: string, w: string)
    requires v <= tail && w <= tail
    requires 'T' !in v && '.' !in v && 'T' !in w && '.' !in w
    requires |v| == |tail| || tail[|v|] == '.' || tail[|v|] == 'T'
    requires |w| == |tail| || tail[|w|] == '.' || tail[|w|] == 'T'
    ensures v == w
  {
    forall k | 0 <= k < |v| ensures tail[k] != '.' && tail[k] != 'T' {
      assert tail[k] == v[k];
    }
    forall k | 0 <= k < |w| ensures tail[k] != '.' && tail[k] != 'T' {
      assert tail[k] == w[k];
    }
    assert |v| == |w|;
    assert v == tail[..|v|] && w == tail[..|w|];
  }

  /** `addLog` stamps an entry with the time of an ISO stamp
      `date T time . millis`: the entry carries exactly the time. */
  lemma IsoStampLogged(date: string, time: string, millis: string, prev: seq<string>, message: string)
    requires 'T' !in date && 'T' !in time && '.' !in time
    ensures TimeOfDay(date + "T" + time + "." + millis) == Some(time)
    ensures var r := AddLog(prev, time, message); r[|r| - 1] == "[" + time + "] " + message
  {
    var iso := date + "T" + time + "." + millis;
    assert iso[..|date|] == date;
    assert iso[|date| + 1..] == time + "." + millis;
    assert StampAt(iso, |date|, time);
    TimeOfDayUnique(iso, |date|, time);
  }

  /** The output handler: appends the data and keeps the newest
      1,000,000 characters. */
  function AppendHistory(history: string, data: string): (r: string)
    ensures |history + data| <= MaxHistory ==> r == history + data
    ensures |history + data| > MaxHistory ==> |r| == MaxHistory
    ensures |r| <= MaxHistory || |r| == |history + data|
    ensures exists k | 0 <= k <= |history + data| :: r == (history + data)[k..]
  {
    var s := history + data;
    if |s| > MaxHistory then s[|s| - MaxHistory..] else
      assert s == s[0..];
      s
  }

  /** Once bounded, the history stays bounded however much output arrives. */
  lemma AppendHistoryBounded(history: string, data: string)
    requires |history| <= MaxHistory
    ensures |AppendHistory(history, data)| <= MaxHistory
  {
  }

  /** The newest data is never dropped when it fits: the history ends with it. */
  lemma AppendHistoryKeepsNewest(history: string, data: string)
    requires |data| <= MaxHistory
    ensures EndsWith(AppendHistory(history, data), data)
  {
    var s := history + data;
    var r := AppendHistory(history, data);
    if |s| > MaxHistory {
      assert r[|r| - |data|..] == s[|s| - |data|..] == data;
    } else {
      assert r[|r| - |data|..] == data;
    }
  }

  /** The provider's state: the socket (the server URL its query carries)
      once created, the connection flag, the history and the log list. */
  datatype Terminal = Terminal(socket: Option<string>, isConnected: bool, history: string, logs: seq<string>)

  const Start := Terminal(None, false, "", [])

  /** `connect`: does nothing while a socket exists; without an active
      server it only logs; otherwise it logs the target and starts the
      endpoint request, returning the URL the socket will carry. */
  function Connect(t: Terminal, active: Option<ServerConfig>, timestamp: string): (r: (Terminal, Option<string>))
    ensures t.socket.Some? ==> r == (t, None)
    ensures t.socket.None? && active.None? ==>
      r == (t.(logs := AddLog(t.logs, timestamp, "No active server configured")), None)
    ensures t.socket.None? && active.Some? ==>
      r.1 == Some(active.value.url) &&
      r.0 == t.(logs := AddLog(t.logs, timestamp,
                 "Connecting to server: " + active.value.name + " (" + active.value.url + ")"))
  {
    if t.socket.Some? then (t, None)
    else if active.None? then (t.(logs := AddLog(t.logs, timestamp, "No active server configured")), None)
    else
      var server := active.value;
      (t.(logs := AddLog(t.logs, timestamp, "Connecting to server: " + server.name + " (" + server.url + ")")),
       Some(server.url))
  }

  /** The endpoint request resolved: the socket is created with the server
      URL in its query. */
  function EndpointReady(t: Terminal, serverUrl: string): (r: Terminal)
    ensures r.socket == Some(serverUrl)
    ensures r.isConnected == t.isConnected && r.history == t.history && r.logs == t.logs
  {
    t.(socket := Some(serverUrl))
  }

  function EndpointFailed(t: Terminal, err: string, timestamp: string): (r: Terminal)
    ensures r.socket == t.socket && r.isConnected == t.isConnected && r.history == t.history
    ensures |r.logs| > 0 && Last(r.logs) == "[" + timestamp + "] " + "Failed to init socket endpoint: " + err
  {
    t.(logs := AddLog(t.logs, timestamp, "Failed to init socket endpoint: " + err))
  }

  /** The socket's events. */
  datatype SocketEvent =
    | ConnectEvent(socketId: string)
    | DisconnectEvent(reason: string)
    | OutputEvent(data: string)
    | ErrorEvent(message: Option<string>, text: string)

  function OnEvent(t: Terminal, e: SocketEvent, timestamp: string): (r: Terminal)
    ensures r.socket == t.socket
    ensures e.ConnectEvent? ==> r.isConnected
    ensures e.DisconnectEvent? ==> !r.isConnected
    ensures !e.ConnectEvent? && !e.DisconnectEvent? ==> r.isConnected == t.isConnected
    ensures e.OutputEvent? ==> r.logs == t.logs && r.history == AppendHistory(t.history, e.data)
    ensures !e.OutputEvent? ==> r.history == t.history
    ensures e.ErrorEvent? ==> r.logs == AddLog(t.logs, timestamp, "Socket error: " + Js.OrElse(e.message, e.text))
  {
    match e
    case ConnectEvent(id) =>
      t.(logs := AddLog(t.logs, timestamp, "Socket connected: " + id), isConnected := true)
    case DisconnectEvent(reason) =>
      t.(logs := AddLog(t.logs, timestamp, "Socket disconnected: " + reason), isConnected := false)
    case OutputEvent(data) =>
      t.(history := AppendHistory(t.history, data))
    case ErrorEvent(message, text) =>
      t.(logs := AddLog(t.logs, timestamp, "Socket error: " + Js.OrElse(message, text)))
  }

  /** The bounds every state reached from the start keeps. */
  predicate Bounded(t: Terminal) {
    |t.history| <= MaxHistory && |t.logs| <= KeptLogs + 1
  }

  lemma StepsKeepBounded(t: Terminal, active: Option<ServerConfig>, e: SocketEvent, url: string, err: string, timestamp: string)
    requires Bounded(t)
    ensures Bounded(Connect(t, active, timestamp).0)
    ensures Bounded(EndpointReady(t, url))
    ensures Bounded(EndpointFailed(t, err, timestamp))
    ensures Bounded(OnEvent(t, e, timestamp))
  {
    if e.OutputEvent? {
      AppendHistoryBounded(t.history, e.data);
    }
  }

  /** The provider, whose cells the handlers replace in place. */
  class TerminalProvider {
    var socket: Option<string>
    var isConnected: bool
    var history: string
    var logs: seq<string>

    function State(): Terminal
      reads this
    {
      Terminal(socket, isConnected, history, logs)
    }

    constructor ()
      ensures State() == Start
    {
      socket, isConnected, history, logs := None, false, "", [];
    }

    method AddLogEntry(timestamp: string, message: string)
      modifies this
      ensures State() == old(State()).(logs := AddLog(old(logs), timestamp, message))
    {
      logs := AddLog(logs, timestamp, message);
    }

    method ConnectTo(active: Option<ServerConfig>, timestamp: string) returns (request: Option<string>)
      modifies this
      ensures (State(), request) == Connect(old(State()), active, timestamp)
    {
      request := None;
      if socket.Some? {
        return;
      }
      if active.None? {
        AddLogEntry(timestamp, "No active server configured");
        return;
      }
      AddLogEntry(timestamp, "Connecting to server: " + active.value.name + " (" + active.value.url + ")");
      request := Some(active.value.url);
    }

    method OnEndpointReady(serverUrl: string)
      modifies this
      ensures State() == EndpointReady(old(State()), serverUrl)
    {
      socket := Some(serverUrl);
    }

    method OnEndpointFailed(err: string, timestamp: string)
      modifies this
      ensures State() == EndpointFailed(old(State()), err, timestamp)
    {
      AddLogEntry(timestamp, "Failed to init socket endpoint: " + err);
    }

    method OnOutput(data: string)
      modifies this
      ensures State() == OnEvent(old(State()), OutputEvent(data), "")
    {
      history := history + data;
      if |history| > MaxHistory {
        history := history[|history| - MaxHistory..];
      }
    }

    method OnSocketEvent(e: SocketEvent, timestamp: string)
      modifies this
      ensures State() == OnEvent(old(State()), e, timestamp)
    {
      match e
      case ConnectEvent(id) =>
        AddLogEntry(timestamp, "Socket connected: " + id);
        isConnected := true;
      case DisconnectEvent(reason) =>
        AddLogEntry(timestamp, "Socket disconnected: " + reason);
        isConnected := false;
      case OutputEvent(data) =>
        OnOutput(data);
      case ErrorEvent(message, text) =>
        AddLogEntry(timestamp, "Socket error: " + Js.OrElse(message, text));
    }
  }
}
