/** The Docker-exec terminal endpoint of src/pages/api/terminal/ws.ts: the
    raw HTTP upgrade that starts an exec over the Docker socket, and the
    per-connection state that relays a browser terminal to the exec. The
    sockets themselves are replaced by the events they deliver (received
    chunks, request results) and the effects the code has on them
    (requests made, bytes written, events emitted). */
module ExecRelay {
  import opened Results
  import opened Bytes
  import opened Text
  import opened SocketEvents
  import Js
  import DockerUtils

  const DefaultDockerSocket := "/var/run/docker.sock"

  /** `DOCKER_SOCKET`, defaulting to the standard socket path. */
  function DockerSocket(env: Option<string>): string {
    Js.OrElse(env, DefaultDockerSocket)
  }

  // ---------------------------------------------------------------------
  // The start request

  const CRLF := "\r\n"

  const StartBody := "{\"Detach\":false,\"Tty\":true}"

  /** The request line and header lines of the start request. */
  function StartHeaderLines(execId: string): seq<string> {
    ["POST /exec/" + execId + "/start HTTP/1.1", "Host: localhost",
     "Content-Type: application/json", "Connection: Upgrade", "Upgrade: tcp"]
  }

  /** The request written to the raw socket: the lines joined with CRLF,
      with an empty line and the JSON body as the last two: so the header
      lines, then an empty line, then the body. */
  function StartRequest(execId: string): (r: string)
    ensures r == Join(StartHeaderLines(execId), CRLF) + CRLF + CRLF + StartBody
  {
    var lines := StartHeaderLines(execId) + ["", StartBody];
    StartRequestShape(StartHeaderLines(execId));
    Join(lines, CRLF)
  }

  lemma StartRequestShape(head: seq<string>)
    requires |head| >= 1
    ensures Join(head + ["", StartBody], CRLF) == Join(head, CRLF) + CRLF + CRLF + StartBody
  {
    var lines := head + ["", StartBody];
    var h := head + [""];
    JoinSnoc(lines, CRLF);
    assert DropLast(lines) == h && Last(lines) == StartBody;
    JoinSnoc(h, CRLF);
    assert DropLast(h) == head && Last(h) == "";
    assert Join(h, CRLF) == Join(head, CRLF) + CRLF + "";
    assert Join(head, CRLF) + CRLF + "" == Join(head, CRLF) + CRLF;
  }

  // ---------------------------------------------------------------------
  // The upgrade handshake

  /** The empty line that ends an HTTP header section (section 2.1 of
      RFC 9112): CR LF CR LF. */
  const Terminator: seq<Byte> := [13, 10, 13, 10]

  datatype Outcome =
    | Pending
    | Upgraded(pushedBack: seq<Byte>)
    | Rejected(message: string)

  datatype HandshakeState = HandshakeState(buffer: seq<Byte>, headersParsed: bool, outcome: Outcome, destroyed: bool)

  const Start := HandshakeState([], false, Pending, false)

  /** The decision once the buffer holds a terminator at `k`: an upgrade
      when the header text contains "101" or "200" anywhere, with the
      bytes after the terminator pushed back onto the stream; otherwise a
      rejection naming the headers. */
  function Decide(buffer: seq<Byte>, k: nat, text: seq<Byte> -> string): (o: Outcome)
    requires OccursAt(buffer, Terminator, k)
    ensures o.Upgraded? <==> Contains(text(buffer[..k]), "101") || Contains(text(buffer[..k]), "200")
    ensures o.Upgraded? ==> buffer[..k] + Terminator + o.pushedBack == buffer
    ensures o.Rejected? ==> o.message == "Docker exec start failed: " + text(buffer[..k])
    ensures !o.Upgraded? ==> o.Rejected?
  {
    var headers := text(buffer[..k]);
    if Contains(headers, "101") || Contains(headers, "200") then
      assert buffer[..k] + buffer[k..k + 4] + buffer[k + 4..] == buffer;
      assert buffer[k..k + 4] == Terminator;
      Upgraded(buffer[k + 4..])
    else Rejected("Docker exec start failed: " + headers)
  }

  /** `onData`: ignored once the headers are parsed; otherwise the chunk is
      appended and the first terminator in the buffer, if any, decides. */
  function Feed(s: HandshakeState, chunk: seq<Byte>, text: seq<Byte> -> string): (r: HandshakeState)
    ensures s.headersParsed ==> r == s
    ensures !s.headersParsed ==> r.buffer == s.buffer + chunk
    ensures !s.headersParsed ==> (r.headersParsed <==> IndexOf(s.buffer + chunk, Terminator).Some?)
    ensures !s.headersParsed && r.headersParsed ==>
      r.outcome == Decide(r.buffer, IndexOf(r.buffer, Terminator).value, text) &&
      (r.destroyed <==> s.destroyed || r.outcome.Rejected?)
    ensures !r.headersParsed ==> r.outcome == s.outcome && r.destroyed == s.destroyed
  {
    if s.headersParsed then s
    else
      var buffer := s.buffer + chunk;
      match IndexOf(buffer, Terminator)
      case None => s.(buffer := buffer)
      case Some(k) =>
        var o := Decide(buffer, k, text);
        HandshakeState(buffer, true, o, s.destroyed || o.Rejected?)
  }

  function FeedAll(s: HandshakeState, chunks: seq<seq<Byte>>, text: seq<Byte> -> string): (r: HandshakeState)
    ensures s.headersParsed ==> r == s
    ensures |s.buffer| <= |r.buffer| && r.buffer[..|s.buffer|] == s.buffer
    ensures s.destroyed ==> r.destroyed
    decreases |chunks|
  {
    if |chunks| == 0 then s else FeedAll(Feed(s, chunks[0], text), chunks[1..], text)
  }

  /** What every reachable state satisfies: before the terminator the
      buffer holds every byte received; once it arrives the buffer is
      frozen and the outcome is the decision at its first occurrence. */
  ghost predicate Consistent(s: HandshakeState, received: seq<Byte>, text: seq<Byte> -> string) {
    s.buffer == received
    && (s.headersParsed <==> IndexOf(s.buffer, Terminator).Some?)
    && (!s.headersParsed ==> s.outcome == Pending && !s.destroyed)
    && (s.headersParsed ==> s.outcome == Decide(s.buffer, IndexOf(s.buffer, Terminator).value, text)
                            && s.destroyed == s.outcome.Rejected?)
  }

  /** The state was settled by chunk `n` (counting from 1): the first `n`
      chunks hold a terminator, the first `n - 1` do not, and the state is
      the one those `n` chunks give. */
  ghost predicate SettledBy(s: HandshakeState, parts: seq<seq<Byte>>, n: nat, text: seq<Byte> -> string) {
    0 < n <= |parts| && Consistent(s, Flatten(parts[..n]), text)
    && IndexOf(Flatten(parts[..n - 1]), Terminator).None?
  }

  /** Before the headers are parsed, the buffer is the concatenation of all
      chunks and holds no terminator; the first chunk that completes one
      fixes the outcome, and every later chunk leaves the state alone. */
  lemma {:induction false} FeedAllConsistent(chunks: seq<seq<Byte>>, text: seq<Byte> -> string)
    ensures var s := FeedAll(Start, chunks, text);
      !s.headersParsed ==> Consistent(s, Flatten(chunks), text)
    ensures var s := FeedAll(Start, chunks, text);
      s.headersParsed ==> exists n: nat :: SettledBy(s, chunks, n, text)
    ensures var s := FeedAll(Start, chunks, text);
      s.headersParsed ==> !s.outcome.Pending? && (s.destroyed <==> s.outcome.Rejected?)
  {
    assert [] + chunks == chunks;
    FeedAllFrom(Start, [], chunks, text);
    var s := FeedAll(Start, chunks, text);
    if s.headersParsed {
      var n: nat :| SettledBy(s, chunks, n, text);
    }
  }

  function Flatten(parts: seq<seq<Byte>>): seq<Byte> {
    if |parts| == 0 then [] else Flatten(parts[..|parts| - 1]) + parts[|parts| - 1]
  }

  lemma FlattenSnoc(parts: seq<seq<Byte>>, c: seq<Byte>)
    ensures Flatten(parts + [c]) == Flatten(parts) + c
  {
    assert (parts + [c])[..|parts|] == parts;
  }

  lemma {:induction false} FeedAllFrom(s: HandshakeState, seen: seq<seq<Byte>>, chunks: seq<seq<Byte>>, text: seq<Byte> -> string)
    requires !s.headersParsed ==> Consistent(s, Flatten(seen), text)
    requires s.headersParsed ==> exists n: nat :: SettledBy(s, seen, n, text)
    ensures var t := FeedAll(s, chunks, text);
      !t.headersParsed ==> Consistent(t, Flatten(seen + chunks), text)
    ensures var t := FeedAll(s, chunks, text);
      t.headersParsed ==> exists n: nat :: SettledBy(t, seen + chunks, n, text)
    decreases |chunks|
  {
    if s.headersParsed {
      FeedAfterParsed(s, chunks, text);
      var n: nat :| SettledBy(s, seen, n, text);
      assert (seen + chunks)[..n] == seen[..n];
      assert (seen + chunks)[..n - 1] == seen[..n - 1];
      assert SettledBy(s, seen + chunks, n, text);
    } else if |chunks| == 0 {
      assert seen + chunks == seen;
    } else {
      var c := chunks[0];
      var s' := Feed(s, c, text);
      var seen' := seen + [c];
      FlattenSnoc(seen, c);
      FeedStep(s, Flatten(seen), c, text);
      if s'.headersParsed {
        assert seen'[..|seen'|] == seen' && seen'[..|seen'| - 1] == seen;
        assert SettledBy(s', seen', |seen'|, text);
      }
      FeedAllFrom(s', seen', chunks[1..], text);
      assert FeedAll(s, chunks, text) == FeedAll(s', chunks[1..], text);
      assert seen + chunks == seen' + chunks[1..];
    }
  }

  /** One chunk before the headers are parsed keeps the state consistent
      with everything received so far. */
  lemma FeedStep(s: HandshakeState, received: seq<Byte>, chunk: seq<Byte>, text: seq<Byte> -> string)
    requires !s.headersParsed && Consistent(s, received, text)
    ensures Consistent(Feed(s, chunk, text), received + chunk, text)
  {
  }

  /** Once the headers are parsed the handshake ignores further data. */
  lemma FeedAfterParsed(s: HandshakeState, chunks: seq<seq<Byte>>, text: seq<Byte> -> string)
    requires s.headersParsed
    ensures FeedAll(s, chunks, text) == s
    decreases |chunks|
  {
    if |chunks| > 0 {
      FeedAfterParsed(s, chunks[1..], text);
    }
  }

  /** The handshake of one `createExecStream` call. */
  class UpgradeHandshake {
    var buffer: seq<Byte>
    var headersParsed: bool
    var outcome: Outcome
    var destroyed: bool
    const text: seq<Byte> -> string

    function State(): HandshakeState
      reads this
    {
      HandshakeState(buffer, headersParsed, outcome, destroyed)
    }

    constructor (text: seq<Byte> -> string)
      ensures State() == Start && this.text == text
    {
      buffer := [];
      headersParsed := false;
      outcome := Pending;
      destroyed := false;
      this.text := text;
    }

    /** The `onData` listener. */
    method OnData(chunk: seq<Byte>)
      modifies this
      ensures State() == Feed(old(State()), chunk, text)
    {
      if headersParsed {
        return;
      }
      buffer := buffer + chunk;
      var headerEnd := IndexOf(buffer, Terminator);
      if headerEnd.Some? {
        headersParsed := true;
        var headers := text(buffer[..headerEnd.value]);
        var remaining := buffer[headerEnd.value + 4..];
        if Contains(headers, "101") || Contains(headers, "200") {
          outcome := Upgraded(remaining);
        } else {
          outcome := Rejected("Docker exec start failed: " + headers);
          destroyed := true;
        }
      }
    }
  }

  // ---------------------------------------------------------------------
  // One browser connection

  const ContainerRequired := "Container ID is required. Set OPENCODE_CONTAINER env variable."

  const ShellCommand := ["/bin/sh", "-c", "if command -v bash >/dev/null; then exec bash; else exec sh; fi"]

  /** The body of the exec-create request: stdin, stdout and stderr
      attached, a TTY, and the shell command. */
  const ShellExec := DockerUtils.ExecConfig(true, true, true, true, ShellCommand)

  /** A request made over the Docker socket. */
  datatype Call =
    | CreateExec(path: string, config: DockerUtils.ExecConfig)
    | StartExec(execId: string)
    | Resize(path: string)

  /** Where `connectToDocker` is. */
  datatype Phase = CreatingExec | StartingStream | Settled

  /** The per-connection cells and the effects so far. `stream` is the
      `dockerSocket` cell (None for null, Some(destroyed) otherwise);
      `destroys` counts the `destroy()` calls made on it. */
  datatype Relay = Relay(
    containerId: string, phase: Phase, execId: Option<Js.Value>, stream: Option<bool>,
    emitted: seq<Event>, calls: seq<Call>, written: seq<string>, clientClosed: bool, destroys: nat)

  /** The connection handler up to its first await: the container id is the
      query's, else the configured one; without one the client gets an
      error and is disconnected, and nothing is asked of Docker. */
  function Open(queryContainerId: Option<string>, configured: string): (r: Relay)
    ensures r.containerId == Js.OrElse(queryContainerId, configured)
    ensures r.containerId == "" ==> r.emitted == [Error(ContainerRequired)] && r.calls == [] && r.clientClosed
    ensures r.containerId != "" ==>
      r.calls == [CreateExec("/containers/" + r.containerId + "/exec", ShellExec)] && !r.clientClosed
    ensures r.calls != [] ==>
      var c := r.calls[0].config;
      c.attachStdin && c.attachStdout && c.attachStderr && c.tty && c.cmd == ShellCommand
    ensures r.stream == None && r.execId == None && r.written == [] && r.destroys == 0
  {
    var id := Js.OrElse(queryContainerId, configured);
    if id == "" then Relay(id, Settled, None, None, [Error(ContainerRequired)], [], [], true, 0)
    else Relay(id, CreatingExec, None, None, [Log("Creating shell session...")],
               [CreateExec("/containers/" + id + "/exec", ShellExec)], [], false, 0)
  }

  /** The answer to the create request: only status 201 goes on, reading
      the exec id from the parsed body (`parsed`: the result of
      `JSON.parse`); anything else emits an error and stops. */
  function ExecCreated(r: Relay, status: int, data: string, parsed: Result<Js.Value, string>): (r': Relay)
    requires r.phase == CreatingExec
    ensures r'.phase == StartingStream <==>
      status == 201 && parsed.Ok? && parsed.value != Js.Undefined && parsed.value != Js.Null
    ensures r'.phase == StartingStream ==>
      r'.execId == Some(Js.Lookup(if parsed.value.Obj? then parsed.value.entries else [], "Id"))
    ensures status != 201 ==>
      r'.emitted == r.emitted + [Error("Failed to create exec: " + IntToString(status) + " " + data)]
    ensures status != 201 ==> r'.execId == r.execId && r'.calls == r.calls
    ensures r'.stream == r.stream && r'.written == r.written
  {
    if status != 201 then
      r.(phase := Settled, emitted := r.emitted + [Error("Failed to create exec: " + IntToString(status) + " " + data)])
    else
      match parsed
      case Err(e) => r.(phase := Settled, emitted := r.emitted + [Error(e)])
      case Ok(v) =>
        match Js.Get(v, "Id")
        case Err(e) => r.(phase := Settled, emitted := r.emitted + [Error(e)])
        case Ok(id) =>
          r.(phase := StartingStream, execId := Some(id),
             emitted := r.emitted + [Log("Shell session created, connecting...")],
             calls := r.calls + [StartExec(IdText(id))])
  }

  /** The id as the template string `${execId}` renders it, which is
      `String(execId)`: an array is its elements' texts joined by ",",
      with null and undefined elements empty, and an object is
      "[object Object]". Docker answers with a string id, so only the
      first case arises in practice. */
  function IdText(v: Js.Value): string
    decreases v
  {
    match v
    case Str(s) => s
    case Undefined => "undefined"
    case Null => "null"
    case Bool(b) => if b then "true" else "false"
    case Num(n) => IntToString(n)
    case Arr(items) =>
      Join(seq(|items|, i requires 0 <= i < |items| =>
        if items[i].Null? || items[i].Undefined? then "" else IdText(items[i])), ",")
    case Obj(_) => "[object Object]"
  }

  /** The create request itself fails (`req.on("error", reject)`, as when
      the Docker socket is missing): the rejection is caught, its message
      emitted, and nothing else is asked of Docker. */
  function ExecCreateFailed(r: Relay, message: string): (r': Relay)
    requires r.phase == CreatingExec
    ensures r'.phase == Settled && r'.emitted == r.emitted + [Error(message)]
    ensures r'.(phase := r.phase, emitted := r.emitted) == r
  {
    r.(phase := Settled, emitted := r.emitted + [Error(message)])
  }

  /** After a failed create request the connection stays open but does
      nothing: no stream is started, input is dropped and no resize is
      sent. */
  lemma CreateFailedIsIdle(query: Option<string>, configured: string, message: string, input: string, cols: int, rows: int)
    requires Open(query, configured).phase == CreatingExec
    ensures var r := ExecCreateFailed(Open(query, configured), message);
      r.stream == None && r.calls == Open(query, configured).calls && !r.clientClosed
      && Input(r, input) == r && ResizeTerminal(r, cols, rows) == r
  {
  }

  /** The outcome of `createExecStream`: a stream and a `connected` event,
      or the error. */
  function StreamStarted(r: Relay, result: Result<(), string>): (r': Relay)
    requires r.phase == StartingStream
    ensures result.Ok? ==> r'.stream == Some(false) && r'.emitted == r.emitted + [Connected(Some(r.containerId))]
    ensures result.Err? ==> r'.stream == r.stream && r'.emitted == r.emitted + [Error(result.error)]
    ensures r'.phase == Settled && r'.execId == r.execId && r'.calls == r.calls && r'.written == r.written
  {
    match result
    case Ok(_) => r.(phase := Settled, stream := Some(false), emitted := r.emitted + [Connected(Some(r.containerId))])
    case Err(e) => r.(phase := Settled, emitted := r.emitted + [Error(e)])
  }

  /** Events of the Docker stream, relayed to the client. */
  datatype StreamEvent = Data(text: string) | Closed | Failed(message: string)

  /** The event relayed to the client for a stream event. */
  function Relayed(e: StreamEvent): Event {
    match e
    case Data(t) => Output(t)
    case Closed => Disconnected(0, "Stream closed")
    case Failed(m) => Error(m)
  }

  /** A stream event is relayed to the client. A Node socket has been
      destroyed by the time it emits `close` or `error`, so after either
      the `dockerSocket` cell, if set, holds a destroyed socket. */
  function FromStream(r: Relay, e: StreamEvent): (r': Relay)
    ensures r'.emitted == r.emitted + [Relayed(e)]
    ensures e.Data? ==> r'.stream == r.stream
    ensures !e.Data? ==> r'.stream == if r.stream.Some? then Some(true) else None
    ensures r'.(emitted := r.emitted, stream := r.stream) == r
  {
    var stream := if e.Data? || r.stream.None? then r.stream else Some(true);
    r.(emitted := r.emitted + [Relayed(e)], stream := stream)
  }

  predicate StreamWritable(r: Relay) {
    r.stream == Some(false)
  }

  /** `input`: written to the stream only when it exists and is not
      destroyed; dropped otherwise. */
  function Input(r: Relay, data: string): (r': Relay)
    ensures StreamWritable(r) ==> r'.written == r.written + [data]
    ensures !StreamWritable(r) ==> r' == r
    ensures r'.(written := r.written) == r
  {
    if StreamWritable(r) then r.(written := r.written + [data]) else r
  }

  /** `resize`: forwarded whenever the exec id is set (even before the
      stream is open), as a resize request with h = rows and w = cols; its
      failure is only logged, so it changes nothing else. */
  function ResizeTerminal(r: Relay, cols: int, rows: int): (r': Relay)
    ensures (r.execId.Some? && Js.Truthy(r.execId.value)) ==>
      r'.calls == r.calls + [Resize("/exec/" + IdText(r.execId.value) + "/resize?h=" + IntToString(rows) + "&w=" + IntToString(cols))]
    ensures !(r.execId.Some? && Js.Truthy(r.execId.value)) ==> r' == r
    ensures r'.(calls := r.calls) == r
  {
    if r.execId.Some? && Js.Truthy(r.execId.value) then
      r.(calls := r.calls + [Resize("/exec/" + IdText(r.execId.value) + "/resize?h=" + IntToString(rows) + "&w=" + IntToString(cols))])
    else r
  }

  /** `disconnect`: the stream, if any, is destroyed and the cell cleared;
      without a stream nothing happens. */
  function Disconnect(r: Relay): (r': Relay)
    ensures r'.stream == None
    ensures r.stream.Some? ==> r'.destroys == r.destroys + 1 && r'.(stream := r.stream, destroys := r.destroys) == r
    ensures r.stream.None? ==> r' == r
  {
    if r.stream.Some? then r.(stream := None, destroys := r.destroys + 1) else r
  }

  /** A second disconnect destroys nothing more and changes nothing, and
      input after a disconnect is dropped. */
  lemma DisconnectFinal(r: Relay, data: string)
    ensures Disconnect(Disconnect(r)) == Disconnect(r)
    ensures Disconnect(Disconnect(r)).destroys == Disconnect(r).destroys <= r.destroys + 1
    ensures Input(Disconnect(r), data) == Disconnect(r)
  {
  }

  /** Once the stream has closed or failed, input is dropped; while it only
      delivers data, input is still written. */
  lemma InputAfterStreamEnd(r: Relay, e: StreamEvent, data: string)
    ensures !e.Data? ==> Input(FromStream(r, e), data).written == r.written
    ensures e.Data? && StreamWritable(r) ==> Input(FromStream(r, e), data).written == r.written + [data]
  {
  }

  /** A started stream takes input until it closes or fails. */
  lemma StreamLifecycle(r: Relay, e: StreamEvent, data: string)
    requires r.phase == StartingStream
    ensures var live := StreamStarted(r, Ok(()));
      Input(live, data).written == r.written + [data] &&
      (e.Closed? || e.Failed? ==> Input(FromStream(live, e), data).written == r.written)
  {
  }

  /** Nothing is written before the stream opens: from the moment of
      connection through the create answer, input is dropped. */
  lemma NoInputBeforeStream(query: Option<string>, configured: string, status: int, data: string,
                            parsed: Result<Js.Value, string>, input: string)
    ensures Input(Open(query, configured), input) == Open(query, configured)
    ensures Open(query, configured).phase == CreatingExec ==>
      var r := ExecCreated(Open(query, configured), status, data, parsed);
      Input(r, input) == r
  {
  }

  /** The relay as the connection closure holds it. */
  class Connection {
    var containerId: string
    var phase: Phase
    var execId: Option<Js.Value>
    var dockerSocket: Option<bool>
    var emitted: seq<Event>
    var calls: seq<Call>
    var written: seq<string>
    var clientClosed: bool
    var destroys: nat

    function State(): Relay
      reads this
    {
      Relay(containerId, phase, execId, dockerSocket, emitted, calls, written, clientClosed, destroys)
    }

    constructor (queryContainerId: Option<string>, configured: string)
      ensures State() == Open(queryContainerId, configured)
    {
      var id := Js.OrElse(queryContainerId, configured);
      containerId := id;
      execId := None;
      dockerSocket := None;
      written := [];
      destroys := 0;
      if id == "" {
        phase := Settled;
        emitted := [Error(ContainerRequired)];
        calls := [];
        clientClosed := true;
      } else {
        phase := CreatingExec;
        emitted := [Log("Creating shell session...")];
        calls := [CreateExec("/containers/" + id + "/exec", ShellExec)];
        clientClosed := false;
      }
    }

    method OnInput(data: string)
      modifies this
      ensures State() == Input(old(State()), data)
    {
      if dockerSocket.Some? && !dockerSocket.value {
        written := written + [data];
      }
    }

    method OnResize(cols: int, rows: int)
      modifies this
      ensures State() == ResizeTerminal(old(State()), cols, rows)
    {
      if execId.Some? && Js.Truthy(execId.value) {
        calls := calls + [Resize("/exec/" + IdText(execId.value) + "/resize?h=" + IntToString(rows) + "&w=" + IntToString(cols))];
      }
    }

    /** `disconnect`: destroys the stream and clears the cell. */
    method OnDisconnect()
      modifies this
      ensures State() == Disconnect(old(State()))
    {
      if dockerSocket.Some? {
        destroys := destroys + 1;
        dockerSocket := None;
      }
    }

    /** The create request has answered. */
    method OnExecCreated(status: int, data: string, parsed: Result<Js.Value, string>)
      requires phase == CreatingExec
      modifies this
      ensures State() == ExecCreated(old(State()), status, data, parsed)
    {
      if status != 201 {
        phase := Settled;
        emitted := emitted + [Error("Failed to create exec: " + IntToString(status) + " " + data)];
        return;
      }
      match parsed {
        case Err(e) =>
          phase := Settled;
          emitted := emitted + [Error(e)];
        case Ok(v) =>
          var got := Js.Get(v, "Id");
          if got.Err? {
            phase := Settled;
            emitted := emitted + [Error(got.error)];
          } else {
            execId := Some(got.value);
            emitted := emitted + [Log("Shell session created, connecting...")];
            calls := calls + [StartExec(IdText(got.value))];
            phase := StartingStream;
          }
      }
    }

    /** The create request has failed. */
    method OnExecCreateFailed(message: string)
      requires phase == CreatingExec
      modifies this
      ensures State() == ExecCreateFailed(old(State()), message)
    {
      phase := Settled;
      emitted := emitted + [Error(message)];
    }

    /** `createExecStream` has resolved or rejected. */
    method OnStreamStarted(result: Result<(), string>)
      requires phase == StartingStream
      modifies this
      ensures State() == StreamStarted(old(State()), result)
    {
      phase := Settled;
      match result {
        case Ok(_) =>
          dockerSocket := Some(false);
          emitted := emitted + [Connected(Some(containerId))];
        case Err(e) =>
          emitted := emitted + [Error(e)];
      }
    }

    /** A `data`, `close` or `error` event of the Docker stream. */
    method OnStreamEvent(e: StreamEvent)
      modifies this
      ensures State() == FromStream(old(State()), e)
    {
      match e {
        case Data(t) => emitted := emitted + [Output(t)];
        case Closed =>
          emitted := emitted + [Disconnected(0, "Stream closed")];
          if dockerSocket.Some? { dockerSocket := Some(true); }
        case Failed(m) =>
          emitted := emitted + [Error(m)];
          if dockerSocket.Some? { dockerSocket := Some(true); }
      }
    }
  }
}
