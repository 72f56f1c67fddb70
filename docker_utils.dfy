/** The Docker Engine helpers of apps/web/src/lib/docker-utils.ts: the
    decoder of the multiplexed exec output stream, the exec and file
    command builders, and the transport and status logic of a Docker API
    request. The HTTP exchange itself is replaced by its inputs (the
    response status and body) and the UTF-8 decoding of a payload by a
    function parameter. */
module DockerUtils {
  import opened Results
  import opened Bytes
  import opened Text
  import Js
  import Base64
  import Utf8

  const DefaultDockerHost := "unix:///var/run/docker.sock"

  /** `DOCKER_HOST`, defaulting to the local socket. */
  function DockerHost(env: Option<string>): string {
    Js.OrElse(env, DefaultDockerHost)
  }

  /** `OPENCODE_CONTAINER || HOSTNAME || ""`. */
  function ContainerName(container: Option<string>, hostname: Option<string>): string {
    Js.OrElse(container, Js.OrElse(hostname, ""))
  }

  // ---------------------------------------------------------------------
  // Multiplexed stream frames

  const HeaderSize := 8
  const U32Limit := 0x1_0000_0000

  /** `readUInt32BE(i)`: four bytes, most significant first. */
  function ReadUInt32BE(b: seq<Byte>, i: nat): (n: nat)
    requires i + 4 <= |b|
    ensures n < U32Limit
  {
    b[i] as int * 0x100_0000 + b[i + 1] as int * 0x1_0000 + b[i + 2] as int * 0x100 + b[i + 3] as int
  }

  /** The four big-endian bytes of a 32-bit length. */
  function WriteUInt32BE(n: nat): (b: seq<Byte>)
    requires n < U32Limit
    ensures |b| == 4
  {
    [(n / 0x100_0000) as Byte, (n / 0x1_0000 % 0x100) as Byte, (n / 0x100 % 0x100) as Byte, (n % 0x100) as Byte]
  }

  lemma ReadWriteUInt32BE(n: nat)
    requires n < U32Limit
    ensures ReadUInt32BE(WriteUInt32BE(n), 0) == n
  {
    var b := WriteUInt32BE(n);
    var m1, m2 := n / 0x100, n / 0x1_0000;
    var q3, q2, q1, r := n / 0x100_0000, m2 % 0x100, m1 % 0x100, n % 0x100;
    assert n == m1 * 0x100 + r;
    assert m1 / 0x100 == m2;
    assert m1 == m2 * 0x100 + q1;
    assert m2 / 0x100 == q3;
    assert m2 == q3 * 0x100 + q2;
    assert b[0] as int == q3 && b[1] as int == q2 && b[2] as int == q1 && b[3] as int == r;
    assert n == q3 * 0x100_0000 + q2 * 0x1_0000 + q1 * 0x100 + r;
  }

  function Flatten<T>(parts: seq<seq<T>>): seq<T> {
    if |parts| == 0 then [] else parts[0] + Flatten(parts[1..])
  }

  /** The payloads of the frames of a buffer, in order. A frame is an 8-byte
      header whose bytes 4-7 give the payload size, then the payload. The
      stream type in byte 0 is not looked at. Fewer than 8 bytes end the
      stream; a payload that runs past the end is cut to the bytes that
      are there, and ends the stream. */
  function Frames(b: seq<Byte>): (r: seq<seq<Byte>>)
    ensures r == [] <==> |b| < HeaderSize
    ensures |Flatten(r)| + HeaderSize * |r| <= |b|
  {
    if |b| < HeaderSize then []
    else
      var size := ReadUInt32BE(b, 4);
      if HeaderSize + size <= |b| then
        var rest := Frames(b[HeaderSize + size..]);
        assert Flatten([b[HeaderSize..HeaderSize + size]] + rest) == b[HeaderSize..HeaderSize + size] + Flatten(rest) by {
          assert ([b[HeaderSize..HeaderSize + size]] + rest)[1..] == rest;
        }
        [b[HeaderSize..HeaderSize + size]] + rest
      else [b[HeaderSize..]]
  }

  /** The text of a sequence of payloads, each decoded on its own. */
  function DecodeAll(payloads: seq<seq<Byte>>, decode: seq<Byte> -> string): string {
    if |payloads| == 0 then "" else decode(payloads[0]) + DecodeAll(payloads[1..], decode)
  }

  lemma DecodeAllSnoc(payloads: seq<seq<Byte>>, p: seq<Byte>, decode: seq<Byte> -> string)
    ensures DecodeAll(payloads + [p], decode) == DecodeAll(payloads, decode) + decode(p)
  {
    if |payloads| > 0 {
      assert (payloads + [p])[1..] == payloads[1..] + [p];
      DecodeAllSnoc(payloads[1..], p, decode);
    }
  }

  /** The decoded text of the frames from `offset` on. */
  ghost function Remaining(b: seq<Byte>, offset: nat, decode: seq<Byte> -> string): string {
    if offset <= |b| then DecodeAll(Frames(b[offset..]), decode) else ""
  }

  /** `parseDockerStream`: walks the buffer frame by frame, appending the
      decoded text of each payload, and yields the decoded frames of the
      whole buffer in order. */
  method ParseDockerStream(buffer: seq<Byte>, decode: seq<Byte> -> string) returns (output: string)
    ensures output == DecodeAll(Frames(buffer), decode)
  {
    output := "";
    var offset: nat := 0;
    assert buffer[0..] == buffer;
    while offset < |buffer|
      invariant output + Remaining(buffer, offset, decode) == DecodeAll(Frames(buffer), decode)
      decreases |buffer| - offset
    {
      if offset + HeaderSize > |buffer| {
        break;
      }
      var size := ReadUInt32BE(buffer, offset + 4);
      var next := offset + HeaderSize + size;
      var end := if next <= |buffer| then next else |buffer|;
      var content := buffer[offset + HeaderSize..end];
      WalkStep(buffer, offset, next, end, output, decode);
      output := output + decode(content);
      offset := next;
    }
    assert Remaining(buffer, offset, decode) == "" by {
      if offset <= |buffer| { assert Frames(buffer[offset..]) == []; }
    }
  }

  /** The loop invariant survives one frame: `next` is where the frame's
      declared payload ends and `end` where its bytes end. */
  lemma WalkStep(b: seq<Byte>, offset: nat, next: nat, end: nat, output: string, decode: seq<Byte> -> string)
    requires offset + HeaderSize <= |b| && next == offset + HeaderSize + ReadUInt32BE(b, offset + 4)
    requires end == if next <= |b| then next else |b|
    requires output + Remaining(b, offset, decode) == DecodeAll(Frames(b), decode)
    ensures (output + decode(b[offset + HeaderSize..end])) + Remaining(b, next, decode) == DecodeAll(Frames(b), decode)
  {
    FrameStep(b, offset, decode);
    Regroup(output, decode(b[offset + HeaderSize..end]), Remaining(b, next, decode), DecodeAll(Frames(b), decode));
  }

  /** One step of the walk: the frame at `offset` comes first, and the
      frames after it start where its declared payload ends (or the
      payload is cut at the end of the buffer). */
  lemma FrameStep(b: seq<Byte>, offset: nat, decode: seq<Byte> -> string)
    requires offset + HeaderSize <= |b|
    ensures var next := offset + HeaderSize + ReadUInt32BE(b, offset + 4);
      var end := if next <= |b| then next else |b|;
      Remaining(b, offset, decode) == decode(b[offset + HeaderSize..end]) + Remaining(b, next, decode)
  {
    var t := b[offset..];
    assert ReadUInt32BE(t, 4) == ReadUInt32BE(b, offset + 4);
    var size := ReadUInt32BE(b, offset + 4);
    if offset + HeaderSize + size <= |b| {
      assert t[HeaderSize + size..] == b[offset + HeaderSize + size..];
      assert t[HeaderSize..HeaderSize + size] == b[offset + HeaderSize..offset + HeaderSize + size];
      var fs := Frames(t);
      assert fs == [t[HeaderSize..HeaderSize + size]] + Frames(t[HeaderSize + size..]);
      assert fs[1..] == Frames(t[HeaderSize + size..]);
    } else {
      assert t[HeaderSize..] == b[offset + HeaderSize..];
      assert Frames(t) == [t[HeaderSize..]];
      assert DecodeAll([t[HeaderSize..]], decode) == decode(t[HeaderSize..]) + "";
      assert Remaining(b, offset + HeaderSize + size, decode) == "";
      assert b[offset + HeaderSize..|b|] == b[offset + HeaderSize..];
    }
  }

  /** A frame as the Docker daemon writes it. */
  datatype Frame = Frame(stream: Byte, payload: seq<Byte>)

  predicate Encodable(fs: seq<Frame>) {
    forall i | 0 <= i < |fs| :: |fs[i].payload| < U32Limit
  }

  function EncodeFrame(f: Frame): (b: seq<Byte>)
    requires |f.payload| < U32Limit
  {
    [f.stream, 0, 0, 0] + WriteUInt32BE(|f.payload|) + f.payload
  }

  function EncodeFrames(fs: seq<Frame>): seq<Byte>
    requires Encodable(fs)
  {
    if |fs| == 0 then [] else EncodeFrame(fs[0]) + EncodeFrames(fs[1..])
  }

  function Payloads(fs: seq<Frame>): (r: seq<seq<Byte>>)
    ensures |r| == |fs| && forall i | 0 <= i < |fs| :: r[i] == fs[i].payload
  {
    if |fs| == 0 then [] else [fs[0].payload] + Payloads(fs[1..])
  }

  /** Decoding a stream of well-formed frames gives back every payload,
      in arrival order, whatever stream (stdout or stderr) each came on. */
  lemma {:induction false} FramesOfEncoding(fs: seq<Frame>)
    requires Encodable(fs)
    ensures Frames(EncodeFrames(fs)) == Payloads(fs)
  {
    if |fs| > 0 {
      var f := fs[0];
      var h := EncodeFrame(f);
      var rest := EncodeFrames(fs[1..]);
      var b := h + rest;
      assert EncodeFrames(fs) == b;
      FramesOfEncoding(fs[1..]);
      ReadWriteUInt32BE(|f.payload|);
      assert b[4..8] == WriteUInt32BE(|f.payload|);
      assert ReadUInt32BE(b, 4) == ReadUInt32BE(WriteUInt32BE(|f.payload|), 0);
      assert b[HeaderSize..HeaderSize + |f.payload|] == f.payload;
      assert b[HeaderSize + |f.payload|..] == rest;
    }
  }

  /** A final frame that declares more bytes than remain contributes
      exactly the bytes that remain, and nothing follows it. */
  lemma TruncatedFrame(b: seq<Byte>)
    requires |b| >= HeaderSize && HeaderSize + ReadUInt32BE(b, 4) > |b|
    ensures Frames(b) == [b[HeaderSize..]]
  {
  }

  // ---------------------------------------------------------------------
  // Exec commands

  /** Optional stdin: text or a buffer. */
  datatype Input = TextInput(text: string) | BufferInput(bytes: seq<Byte>)

  /** `!!input`: an absent input or the empty string is falsy; a buffer,
      even an empty one, is an object and so truthy. */
  predicate HasInput(input: Option<Input>) {
    input.Some? && (input.value.BufferInput? || input.value.text != "")
  }

  datatype ExecConfig = ExecConfig(attachStdin: bool, attachStdout: bool, attachStderr: bool, tty: bool, cmd: seq<string>)
  datatype StartConfig = StartConfig(detach: bool, tty: bool)

  /** The Docker API requests an exec makes. */
  datatype DockerCall =
    | CreateExec(path: string, config: ExecConfig)
    | StartExec(path: string, start: StartConfig)

  /** The result of `execCommandWithInput` together with the requests it
      made. */
  datatype ExecRun = ExecRun(calls: seq<DockerCall>, result: Result<string, string>)

  const ContainerRequired := "OPENCODE_CONTAINER env variable is required"

  /** `execCommandWithInput`: given the container name, the command, the
      optional input, the answer to the create request (the new exec's id,
      or the error) and the answer to the start request (the raw output,
      or the error). */
  function ExecCommandWithInput(container: string, cmd: seq<string>, input: Option<Input>,
                                created: Result<string, string>, started: Result<seq<Byte>, string>,
                                decode: seq<Byte> -> string): (run: ExecRun)
    ensures container == "" <==> run.calls == []
    ensures container == "" ==> run.result == Err(ContainerRequired)
    ensures container != "" ==>
      run.calls[0] == CreateExec("/containers/" + container + "/exec",
                                 ExecConfig(HasInput(input), true, true, false, cmd))
    ensures |run.calls| == 2 <==> container != "" && created.Ok?
    ensures |run.calls| == 2 ==>
      run.calls[1] == StartExec("/exec/" + created.value + "/start", StartConfig(false, false))
    ensures run.result.Ok? <==> container != "" && created.Ok? && started.Ok?
    ensures run.result.Ok? ==> run.result.value == DecodeAll(Frames(started.value), decode)
  {
    if container == "" then ExecRun([], Err(ContainerRequired))
    else
      var create := CreateExec("/containers/" + container + "/exec",
                               ExecConfig(HasInput(input), true, true, false, cmd));
      match created
      case Err(e) => ExecRun([create], Err(e))
      case Ok(id) =>
        var calls := [create, StartExec("/exec/" + id + "/start", StartConfig(false, false))];
        match started
        case Err(e) => ExecRun(calls, Err(e))
        case Ok(raw) => ExecRun(calls, Ok(DecodeAll(Frames(raw), decode)))
  }

  /** The bytes of the content written: a buffer as is, text as UTF-8. */
  function ContentBytes(content: Input): seq<Byte> {
    match content
    case BufferInput(b) => b
    case TextInput(t) => Utf8.Encode(t)
  }

  /** The command `writeFile` runs: the content travels base64-encoded
      through `echo` into `base64 -d`. */
  function WriteFileCommand(path: string, content: Input): (cmd: seq<string>)
    ensures |cmd| == 3 && cmd[0] == "sh" && cmd[1] == "-c"
  {
    ["sh", "-c", "echo \"" + Base64.Encode(ContentBytes(content)) + "\" | base64 -d > \"" + path + "\""]
  }

  /** The command `readFile` runs: the path reaches `cat` as one argument,
      with no shell in between to quote it for. */
  function ReadFileCommand(path: string): (cmd: seq<string>)
    ensures |cmd| == 2 && cmd[0] == "cat" && cmd[1] == path
  {
    ["cat", path]
  }

  /** A path `sh` takes literally between double quotes: it holds none of
      the characters the shell still interprets there (the closing quote,
      `$`, the backquote and the backslash). */
  predicate ShellLiteral(path: string) {
    forall i | 0 <= i < |path| :: path[i] !in "\"$`\\"
  }

  /** The file a script `... > "target"` redirects its output to, as `sh`
      reads it: the double-quoted word after the first `>`, when that word
      ends the script and is taken literally. None for any other script,
      whose target the shell would expand, cut short or follow with more
      commands. */
  function RedirectTarget(script: string): Option<string> {
    match IndexOf(script, ">")
    case None => None
    case Some(k) =>
      var rest := script[k + 1..];
      if |rest| >= 3 && rest[..2] == " \"" && rest[|rest| - 1] == '"' && ShellLiteral(rest[2..|rest| - 1])
      then Some(rest[2..|rest| - 1])
      else None
  }

  /** `readFile` reads the file `writeFile` redirects its output to, for a
      path free of the characters `sh` interprets inside double quotes;
      for any other path the shell writes elsewhere or runs more. */
  lemma ReadWhatWasWritten(path: string, content: Input)
    ensures EndsWith(WriteFileCommand(path, content)[2], " > \"" + path + "\"")
    ensures ReadFileCommand(path)[1] == path
    ensures ShellLiteral(path) <==> RedirectTarget(WriteFileCommand(path, content)[2]) == Some(path)
    ensures !ShellLiteral(path) ==> RedirectTarget(WriteFileCommand(path, content)[2]).None?
  {
    var e := Base64.Encode(ContentBytes(content));
    var head := "echo \"" + e + "\" | base64 -d";
    assert WriteFileCommand(path, content)[2] == head + " > \"" + path + "\"";
    Base64.EncodeAlphabet(ContentBytes(content));
    EchoHasNoChevron(e);
    RedirectOfScript(head, path);
  }

  /** The echo-and-pipe head of the write script holds no `>`: the
      encoding is made of alphabet symbols and padding. */
  lemma EchoHasNoChevron(e: string)
    requires forall i | 0 <= i < |e| :: Base64.IsSymbol(e[i]) || e[i] == '='
    ensures var head := "echo \"" + e + "\" | base64 -d";
      forall i | 0 <= i < |head| :: head[i] != '>'
  {
    var head := "echo \"" + e + "\" | base64 -d";
    forall i | 0 <= i < |head| ensures head[i] != '>' {
      if 6 <= i < 6 + |e| {
        assert head[i] == e[i - 6];
      }
    }
  }

  /** Behind a head with no `>`, the redirection ` > "path"` sends the
      output to `path` exactly when `sh` takes the path literally. */
  lemma RedirectOfScript(head: string, path: string)
    requires forall i | 0 <= i < |head| :: head[i] != '>'
    ensures RedirectTarget(head + " > \"" + path + "\"") == if ShellLiteral(path) then Some(path) else None
    ensures EndsWith(head + " > \"" + path + "\"", " > \"" + path + "\"")
  {
    var s := head + " > \"" + path + "\"";
    assert s[|head|..] == " > \"" + path + "\"";
    assert OccursAt(s, ">", |head| + 1) by { assert s[|head| + 1..|head| + 2] == ">"; }
    forall j | 0 <= j < |head| + 1 ensures !OccursAt(s, ">", j) {
      assert s[j..j + 1] == [s[j]];
    }
    assert IndexOf(s, ">") == Some(|head| + 1);
    var rest := s[|head| + 2..];
    assert rest == " \"" + path + "\"";
    assert rest[2..|rest| - 1] == path;
  }

  /** What the shell passes to `echo` in a script `echo "..." ...`: the
      text up to the next double quote. */
  function EchoArgument(script: string): Option<string> {
    if !StartsWith(script, "echo \"") then None
    else
      match IndexOf(script[6..], "\"")
      case None => None
      case Some(k) => Some(script[6..6 + k])
  }

  /** The text echoed by the write command is exactly the encoding, and
      decoding it gives back the content's bytes; text content decodes
      back to the text. */
  lemma WriteFileRoundTrip(path: string, content: Input)
    ensures var arg := EchoArgument(WriteFileCommand(path, content)[2]);
      arg.Some? && Base64.Decode(arg.value) == Some(ContentBytes(content))
    ensures content.TextInput? ==> Utf8.Decode(ContentBytes(content)) == Some(content.text)
  {
    var e := Base64.Encode(ContentBytes(content));
    var script := WriteFileCommand(path, content)[2];
    var tail := "\" | base64 -d > \"" + path + "\"";
    assert script == "echo \"" + e + tail;
    assert StartsWith(script, "echo \"");
    assert script[6..] == e + tail;
    Base64.EncodeAlphabet(ContentBytes(content));
    FirstQuote(e, tail);
    assert script[6..6 + |e|] == e;
    Base64.DecodeEncode(ContentBytes(content));
    if content.TextInput? {
      Utf8.DecodeEncode(content.text);
    }
  }

  lemma FirstQuote(e: string, tail: string)
    requires forall i | 0 <= i < |e| :: Base64.IsSymbol(e[i]) || e[i] == '='
    requires |tail| > 0 && tail[0] == '"'
    ensures IndexOf(e + tail, "\"") == Some(|e|)
  {
    var s := e + tail;
    assert OccursAt(s, "\"", |e|) by { assert s[|e|..|e| + 1] == "\""; }
    forall j | 0 <= j < |e| ensures !OccursAt(s, "\"", j) {
      assert s[j..j + 1] == [e[j]];
    }
  }

  // ---------------------------------------------------------------------
  // Docker API requests

  datatype Transport = UnixSocket(socketPath: string) | Tcp(url: string)

  /** How `dockerRequest` reaches the daemon: a "unix://" host names a
      socket path (the rest of the host); any other host, and a bare
      "unix://" whose path is empty, is parsed as a URL after rewriting the
      first "tcp://" to "http://". */
  function SelectTransport(dockerHost: string): (t: Transport)
    ensures StartsWith(dockerHost, "unix://") && |dockerHost| > 7 ==> t == UnixSocket(dockerHost[7..])
    ensures !StartsWith(dockerHost, "unix://") || dockerHost == "unix://" ==>
      t == Tcp(ReplaceFirst(dockerHost, "tcp://", "http://"))
  {
    if StartsWith(dockerHost, "unix://") then
      ReplacePrefix(dockerHost, "unix://", "");
      assert ReplaceFirst(dockerHost, "unix://", "") == dockerHost[7..];
      var socketPath := ReplaceFirst(dockerHost, "unix://", "");
      if socketPath != "" then UnixSocket(socketPath)
      else Tcp(ReplaceFirst(dockerHost, "tcp://", "http://"))
    else Tcp(ReplaceFirst(dockerHost, "tcp://", "http://"))
  }

  lemma TcpHost(dockerHost: string)
    requires StartsWith(dockerHost, "tcp://")
    ensures SelectTransport(dockerHost) == Tcp("http://" + dockerHost[6..])
  {
    ReplacePrefix(dockerHost, "tcp://", "http://");
    assert dockerHost[..6] == "tcp://";
    assert !StartsWith(dockerHost, "unix://") by { assert dockerHost[0] == 't'; }
  }

  /** Before any request: a socket path that does not exist is an error. */
  function Connect(dockerHost: string, socketExists: bool): (r: Result<Transport, string>)
    ensures r.Err? <==> SelectTransport(dockerHost).UnixSocket? && !socketExists
    ensures r.Ok? ==> r.value == SelectTransport(dockerHost)
    ensures r.Err? ==> r.error == "Docker socket not found at " + SelectTransport(dockerHost).socketPath
  {
    match SelectTransport(dockerHost)
    case UnixSocket(p) => if socketExists then Ok(UnixSocket(p)) else Err("Docker socket not found at " + p)
    case Tcp(u) => Ok(Tcp(u))
  }

  /** The answer to a request: the body when the status is in [200, 300),
      otherwise an error naming the status and the body text. */
  function Outcome(status: int, body: seq<Byte>, text: seq<Byte> -> string): (r: Result<seq<Byte>, string>)
    ensures r.Ok? <==> 200 <= status < 300
    ensures r.Ok? ==> r.value == body
    ensures r.Err? ==> StartsWith(r.error, "Docker API error " + IntToString(status) + ": ")
  {
    if status != 0 && 200 <= status < 300 then Ok(body)
    else Err("Docker API error " + IntToString(status) + ": " + text(body))
  }
}
