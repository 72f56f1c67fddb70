/** The OpenCode terminal endpoint of apps/web/src/pages/api/terminal/ws.ts:
    it relays a browser terminal to the OpenCode server's WebSocket,
    retrying a failed connection attempt with a linear backoff. The
    WebSocket, the timer and `new URL` are replaced by their observable
    results: whether an attempt threw, the upstream socket's events and
    ready state, the delay of a scheduled retry, and the parsed protocol
    and host.

    The listener functions (`Attempt`, `Opened`, `FromUpstream`) describe
    the relay as it is meant to work, on a socket with `.on`, as the `ws`
    package's. The file imports no such package; `AttemptGlobal` and
    `SocketState` describe what the runtime's own WebSocket makes of it. */
module OpenCodeRelay {
  import opened Results
  import opened Text
  import opened SocketEvents
  import Js

  const DefaultServerUrl := "http://localhost:4000"

  /** The parts of a parsed URL that are used. `host` includes the port
      when the URL has one. */
  datatype ParsedUrl = ParsedUrl(protocol: string, host: string)

  /** `getOpenCodeServerUrl`: an empty or unparsable URL gives
      `OPENCODE_SERVER_URL`, else the local default; a parsed one gives its
      host under "wss:" when the protocol is "https:" and "ws:" for any
      other protocol (section 3 of RFC 6455), without path or query.
      `parsed` is what `new URL(serverUrl)` yields, None when it throws. */
  function GetOpenCodeServerUrl(serverUrl: string, parsed: Option<ParsedUrl>, env: Option<string>): (r: string)
    ensures (serverUrl == "" || parsed.None?) ==> r == Js.OrElse(env, DefaultServerUrl)
    ensures serverUrl != "" && parsed.Some? ==>
      (StartsWith(r, "wss://") <==> parsed.value.protocol == "https:")
      && (StartsWith(r, "ws://") <==> parsed.value.protocol != "https:")
      && (parsed.value.protocol == "https:" ==> r[6..] == parsed.value.host)
      && (parsed.value.protocol != "https:" ==> r[5..] == parsed.value.host)
  {
    if serverUrl == "" then Js.OrElse(env, DefaultServerUrl)
    else
      match parsed
      case None => Js.OrElse(env, DefaultServerUrl)
      case Some(u) =>
        var scheme := if u.protocol == "https:" then "wss:" else "ws:";
        SchemePrefix(scheme, u.host);
        scheme + "//" + u.host
  }

  lemma SchemePrefix(scheme: string, host: string)
    requires scheme == "wss:" || scheme == "ws:"
    ensures var r := scheme + "//" + host;
      (StartsWith(r, "wss://") <==> scheme == "wss:") && (StartsWith(r, "ws://") <==> scheme == "ws:")
      && r[|scheme| + 2..] == host && EndsWith(r, host)
  {
    var r := scheme + "//" + host;
    assert r[|scheme| + 2..] == host;
    assert r[|r| - |host|..] == host;
    if scheme == "wss:" {
      assert r[..6] == "wss://";
      assert r[2] != ':';
    } else {
      assert r[..5] == "ws://";
      assert r[2] == ':';
    }
  }

  // ---------------------------------------------------------------------
  // One browser connection

  const MaxReconnectAttempts := 3
  const GaveUp := "Failed to connect to OpenCode server after multiple attempts"

  /** WebSocket ready states. */
  const Connecting := 0
  const OpenState := 1
  const ClosingState := 2
  const ClosedState := 3

  /** The per-connection cells and the effects so far. `upstream` is the
      `openCodeWs` cell (None for null, Some(readyState) otherwise);
      `retry` is the delay of a scheduled `connectToOpenCode`. */
  datatype Relay = Relay(
    serverUrl: Option<string>, wsUrl: string, upstream: Option<int>, attempts: nat,
    retry: Option<nat>, emitted: seq<Event>, sent: seq<string>, sockets: nat, closes: nat,
    clientClosed: bool)

  /** The connection handler before its first attempt. */
  function Open(query: Option<string>, parsed: Option<ParsedUrl>, env: Option<string>): (r: Relay)
    ensures r.serverUrl == (if query.Some? && query.value != "" then query else None)
    ensures r.attempts == 0 && r.upstream == None && r.retry == None && r.emitted == []
    ensures r.wsUrl == GetOpenCodeServerUrl(Js.OrElse(r.serverUrl, ""), parsed, env)
    ensures r.sent == [] && r.sockets == 0 && r.closes == 0 && !r.clientClosed
  {
    var serverUrl := if query.Some? && query.value != "" then query else None;
    Relay(serverUrl, GetOpenCodeServerUrl(Js.OrElse(serverUrl, ""), parsed, env), None, 0, None, [], [], 0, 0, false)
  }

  /** `connectToOpenCode`, given whether creating the WebSocket succeeded.
      With three attempts used up it emits an error and disconnects the
      client; otherwise it counts the attempt, and a failed attempt
      schedules the next one 1000 ms times the attempt count later, as
      long as fewer than three attempts have been made. */
  function Attempt(r: Relay, created: bool): (r': Relay)
    requires r.retry == None
    ensures r.attempts >= MaxReconnectAttempts ==>
      r' == r.(emitted := r.emitted + [Error(GaveUp)], clientClosed := true)
    ensures r.attempts < MaxReconnectAttempts ==> r'.attempts == r.attempts + 1 && r'.emitted == r.emitted
    ensures r.attempts < MaxReconnectAttempts && created ==>
      r'.upstream == Some(Connecting) && r'.sockets == r.sockets + 1 && r'.retry == None
    ensures r.attempts < MaxReconnectAttempts && !created ==>
      r'.upstream == r.upstream && r'.sockets == r.sockets
      && r'.retry == (if r'.attempts < MaxReconnectAttempts then Some(1000 * r'.attempts) else None)
  {
    if r.attempts >= MaxReconnectAttempts then
      r.(emitted := r.emitted + [Error(GaveUp)], clientClosed := true)
    else
      var n := r.attempts + 1;
      if created then r.(attempts := n, upstream := Some(Connecting), sockets := r.sockets + 1)
      else r.(attempts := n, retry := if n < MaxReconnectAttempts then Some(1000 * n) else None)
  }

  /** The retry timer fires. Nothing cancels it, not even a disconnect of
      the client. */
  function Fire(r: Relay, created: bool): (r': Relay)
    requires r.retry.Some?
    ensures r'.retry.Some? ==> !created && r.attempts + 1 < MaxReconnectAttempts
    ensures r.attempts < MaxReconnectAttempts ==> r'.attempts == r.attempts + 1 && r'.emitted == r.emitted
    ensures created && r.attempts < MaxReconnectAttempts ==> r'.upstream == Some(Connecting)
  {
    Attempt(r.(retry := None), created)
  }

  /** What holds between events: at most three attempts are counted, and a
      scheduled retry waits 1000 ms per attempt made, before the third. */
  predicate Inv(r: Relay) {
    r.attempts <= MaxReconnectAttempts
    && (r.retry.Some? ==> r.attempts < MaxReconnectAttempts && r.retry.value == 1000 * r.attempts)
  }

  lemma AttemptKeepsInv(r: Relay, created: bool)
    requires Inv(r) && r.retry == None
    ensures Inv(Attempt(r, created))
  {
  }

  /** A fired retry never meets the give-up guard: the timer path only
      runs while fewer than three attempts have been made. */
  lemma FireNeverGivesUp(r: Relay, created: bool)
    requires Inv(r) && r.retry.Some?
    ensures Fire(r, created).emitted == r.emitted
    ensures !Fire(r, created).clientClosed || r.clientClosed
    ensures Inv(Fire(r, created))
  {
  }

  /** When every attempt fails, there are exactly three, the retries wait
      1000 ms and 2000 ms, and after the third failure nothing is
      scheduled and nothing is emitted: the client is left connected. */
  lemma AllAttemptsFail(query: Option<string>, parsed: Option<ParsedUrl>, env: Option<string>)
    ensures var r0 := Open(query, parsed, env);
      var r1 := Attempt(r0, false);
      var r2 := Fire(r1, false);
      var r3 := Fire(r2, false);
      r1.retry == Some(1000) && r2.retry == Some(2000) && r3.retry == None
      && r3.attempts == 3 && r3.sockets == 0 && r3.emitted == [] && !r3.clientClosed
  {
  }

  /** The `open` event: the counter is reset, the stored socket is open
      and the client told; nothing else changes. */
  function Opened(r: Relay): (r': Relay)
    ensures r'.attempts == 0 && r'.emitted == r.emitted + [Connected(r.serverUrl)]
    ensures r.upstream.Some? ==> UpstreamOpen(r')
    ensures r.upstream.None? ==> r'.upstream == None
    ensures r'.(attempts := r.attempts, upstream := r.upstream, emitted := r.emitted) == r
  {
    r.(attempts := 0, upstream := if r.upstream.Some? then Some(OpenState) else r.upstream,
       emitted := r.emitted + [Connected(r.serverUrl)])
  }

  datatype UpstreamEvent = Message(text: string) | Failed(message: string) | Closed(code: int, reason: string)

  /** An upstream event relayed to the client. */
  function Relayed(e: UpstreamEvent): Event {
    match e
    case Message(t) => Output(t)
    case Failed(m) => Error("WebSocket error: " + m)
    case Closed(code, reason) => Disconnected(code, reason)
  }

  /** An upstream event is relayed to the client. A socket with `.on`
      listeners, as the `ws` package's, has left the open state by the time it emits `error` (it is closing)
      or `close` (it is closed), so after either nothing more is sent. */
  function FromUpstream(r: Relay, e: UpstreamEvent): (r': Relay)
    ensures r'.emitted == r.emitted + [Relayed(e)]
    ensures e.Message? ==> r'.upstream == r.upstream
    ensures !e.Message? ==> (r'.upstream.Some? <==> r.upstream.Some?) && !UpstreamOpen(r')
    ensures r'.(emitted := r.emitted, upstream := r.upstream) == r
  {
    var upstream :=
      if r.upstream.None? then r.upstream
      else match e
        case Message(_) => r.upstream
        case Failed(_) => Some(ClosingState)
        case Closed(_, _) => Some(ClosedState);
    r.(upstream := upstream, emitted := r.emitted + [Relayed(e)])
  }

  predicate UpstreamOpen(r: Relay) {
    r.upstream == Some(OpenState)
  }

  /** `input`: forwarded only while the upstream socket is open. */
  function Input(r: Relay, data: string): (r': Relay)
    ensures UpstreamOpen(r) ==> r'.sent == r.sent + [data]
    ensures !UpstreamOpen(r) ==> r' == r
    ensures r'.(sent := r.sent) == r
  {
    if UpstreamOpen(r) then r.(sent := r.sent + [data]) else r
  }

  /** The JSON text of a resize message. */
  function ResizeMessage(cols: int, rows: int): string {
    "{\"type\":\"resize\",\"cols\":" + IntToString(cols) + ",\"rows\":" + IntToString(rows) + "}"
  }

  /** `resize`: sent as a JSON message, only while the upstream is open. */
  function ResizeTerminal(r: Relay, cols: int, rows: int): (r': Relay)
    ensures UpstreamOpen(r) ==> r'.sent == r.sent + [ResizeMessage(cols, rows)]
    ensures !UpstreamOpen(r) ==> r' == r
    ensures r'.(sent := r.sent) == r
  {
    if UpstreamOpen(r) then r.(sent := r.sent + [ResizeMessage(cols, rows)]) else r
  }

  /** `disconnect`: closes the upstream socket, if any, and clears the
      cell; a scheduled retry stays scheduled. */
  function Disconnect(r: Relay): (r': Relay)
    ensures r'.upstream == None && r'.retry == r.retry
    ensures r'.closes == if r.upstream.Some? then r.closes + 1 else r.closes
  {
    if r.upstream.Some? then r.(upstream := None, closes := r.closes + 1) else r
  }

  /** A second disconnect changes nothing, and nothing is forwarded after
      a disconnect. */
  lemma DisconnectFinal(r: Relay, data: string, cols: int, rows: int)
    ensures Disconnect(Disconnect(r)) == Disconnect(r)
    ensures Input(Disconnect(r), data) == Disconnect(r)
    ensures ResizeTerminal(Disconnect(r), cols, rows) == Disconnect(r)
  {
  }

  /** Once a created socket opens, input and resizes are forwarded to it. */
  lemma InputAfterOpen(r: Relay, data: string, cols: int, rows: int)
    requires r.retry == None && r.attempts < MaxReconnectAttempts
    ensures Input(Opened(Attempt(r, true)), data).sent == r.sent + [data]
    ensures ResizeTerminal(Opened(Attempt(r, true)), cols, rows).sent == r.sent + [ResizeMessage(cols, rows)]
    ensures Input(Attempt(r, true), data).sent == r.sent
  {
  }

  /** After an upstream error or close, input and resizes are no longer
      sent; messages leave the socket usable. */
  lemma SendAfterUpstreamEvent(r: Relay, e: UpstreamEvent, data: string, cols: int, rows: int)
    ensures !e.Message? ==> Input(FromUpstream(r, e), data).sent == r.sent
    ensures !e.Message? ==> ResizeTerminal(FromUpstream(r, e), cols, rows).sent == r.sent
    ensures e.Message? && UpstreamOpen(r) ==> Input(FromUpstream(r, e), data).sent == r.sent + [data]
  {
  }

  // ---------------------------------------------------------------------
  // The relay on the runtime's own WebSocket

  /** `connectToOpenCode` as written when `WebSocket` is the runtime's
      global (the file imports no WebSocket package). On Node 22 and later
      that is the WHATWG socket, which has no `.on`: a constructor that
      succeeds has assigned the cell when the first `.on` throws, and the
      catch schedules the retry exactly as for a constructor that throws.
      No listener is ever registered. */
  function AttemptGlobal(r: Relay, created: bool): (r': Relay)
    requires r.retry == None
    ensures r.attempts >= MaxReconnectAttempts || !created ==> r' == Attempt(r, created)
    ensures r.attempts < MaxReconnectAttempts ==> r'.attempts == r.attempts + 1 && r'.emitted == r.emitted
    ensures r.attempts < MaxReconnectAttempts && created ==>
      r'.upstream == Some(Connecting) && r'.sockets == r.sockets + 1
    ensures r.attempts < MaxReconnectAttempts ==>
      r'.retry == (if r'.attempts < MaxReconnectAttempts then Some(1000 * r'.attempts) else None)
  {
    if r.attempts >= MaxReconnectAttempts || !created then Attempt(r, created)
    else
      var a := Attempt(r, true);
      a.(retry := if a.attempts < MaxReconnectAttempts then Some(1000 * a.attempts) else None)
  }

  /** The retry timer fires on that runtime. */
  function FireGlobal(r: Relay, created: bool): (r': Relay)
    requires r.retry.Some?
    ensures r.attempts < MaxReconnectAttempts ==> r'.attempts == r.attempts + 1 && r'.emitted == r.emitted
    ensures r.attempts < MaxReconnectAttempts && created ==>
      r'.upstream == Some(Connecting) && r'.sockets == r.sockets + 1
  {
    AttemptGlobal(r.(retry := None), created)
  }

  /** A socket without listeners changes its ready state (it opens, or
      closes) and nothing else happens: no event is relayed and the
      attempt counter is not reset. */
  function SocketState(r: Relay, state: int): (r': Relay)
    ensures r'.upstream == (if r.upstream.Some? then Some(state) else None)
    ensures r'.(upstream := r.upstream) == r
  {
    if r.upstream.Some? then r.(upstream := Some(state)) else r
  }

  /** On that runtime each attempt creates a socket and still schedules a
      retry: three sockets are opened, 1000 ms and 2000 ms apart; the last
      one takes the client's input once it opens, but the client is never
      told it connected and never receives output. */
  lemma GlobalSocketIsSilent(query: Option<string>, parsed: Option<ParsedUrl>, env: Option<string>, data: string)
    ensures var r0 := Open(query, parsed, env);
      var r1 := AttemptGlobal(r0, true);
      var r2 := FireGlobal(r1, true);
      var r3 := FireGlobal(r2, true);
      var r4 := Input(SocketState(r3, OpenState), data);
      r1.retry == Some(1000) && r2.retry == Some(2000) && r3.retry == None
      && r3.sockets == 3 && r4.sent == [data] && r4.emitted == [] && r4.attempts == 3 && !r4.clientClosed
  {
  }

  /** The relay as the connection closure holds it. */
  class Connection {
    var serverUrl: Option<string>
    var wsUrl: string
    var openCodeWs: Option<int>
    var reconnectAttempts: nat
    var retry: Option<nat>
    var emitted: seq<Event>
    var sent: seq<string>
    var sockets: nat
    var closes: nat
    var clientClosed: bool

    function State(): Relay
      reads this
    {
      Relay(serverUrl, wsUrl, openCodeWs, reconnectAttempts, retry, emitted, sent, sockets, closes, clientClosed)
    }

    constructor (query: Option<string>, parsed: Option<ParsedUrl>, env: Option<string>)
      ensures State() == Open(query, parsed, env)
    {
      serverUrl := if query.Some? && query.value != "" then query else None;
      wsUrl := GetOpenCodeServerUrl(Js.OrElse(if query.Some? && query.value != "" then query else None, ""), parsed, env);
      openCodeWs := None;
      reconnectAttempts := 0;
      retry := None;
      emitted := [];
      sent := [];
      sockets := 0;
      closes := 0;
      clientClosed := false;
    }

    /** `connectToOpenCode`. */
    method ConnectToOpenCode(created: bool)
      requires retry == None
      modifies this
      ensures State() == Attempt(old(State()), created)
    {
      if reconnectAttempts >= MaxReconnectAttempts {
        emitted := emitted + [Error(GaveUp)];
        clientClosed := true;
        return;
      }
      reconnectAttempts := reconnectAttempts + 1;
      if created {
        openCodeWs := Some(Connecting);
        sockets := sockets + 1;
      } else if reconnectAttempts < MaxReconnectAttempts {
        retry := Some(1000 * reconnectAttempts);
      }
    }

    /** The retry timer fires. */
    method OnTimer(created: bool)
      requires retry.Some?
      modifies this
      ensures State() == Fire(old(State()), created)
    {
      retry := None;
      ConnectToOpenCode(created);
    }

    method OnOpen()
      modifies this
      ensures State() == Opened(old(State()))
    {
      reconnectAttempts := 0;
      if openCodeWs.Some? {
        openCodeWs := Some(OpenState);
      }
      emitted := emitted + [Connected(serverUrl)];
    }

    method OnUpstream(e: UpstreamEvent)
      modifies this
      ensures State() == FromUpstream(old(State()), e)
    {
      match e {
        case Message(t) => emitted := emitted + [Output(t)];
        case Failed(m) =>
          if openCodeWs.Some? {
            openCodeWs := Some(ClosingState);
          }
          emitted := emitted + [Error("WebSocket error: " + m)];
        case Closed(code, reason) =>
          if openCodeWs.Some? {
            openCodeWs := Some(ClosedState);
          }
          emitted := emitted + [Disconnected(code, reason)];
      }
    }

    method OnInput(data: string)
      modifies this
      ensures State() == Input(old(State()), data)
    {
      if openCodeWs == Some(OpenState) {
        sent := sent + [data];
      }
    }

    method OnResize(cols: int, rows: int)
      modifies this
      ensures State() == ResizeTerminal(old(State()), cols, rows)
    {
      if openCodeWs == Some(OpenState) {
        sent := sent + [ResizeMessage(cols, rows)];
      }
    }

    method OnDisconnect()
      modifies this
      ensures State() == Disconnect(old(State()))
    {
      if openCodeWs.Some? {
        closes := closes + 1;
        openCodeWs := None;
      }
    }
  }
}
