# portal core, modelled in Dafny

This project models the logic at the core of the portal web app, which
puts a browser front end on one or more OpenCode servers running in Docker
containers. The model covers four groups of code.

- **Terminal relays.** It models:
  - the Docker multiplexed-stream frame decoder and the command builders of
    `docker-utils.ts`;
  - the hand-written HTTP upgrade handshake and the per-connection Docker
    exec relay;
  - the OpenCode WebSocket relay, with its attempt counter, linear backoff
    and ws/wss scheme mapping;
  - the client terminal context, with its capped output history and
    bounded log list.
- **Filesystem and skills routes.** It models:
  - the `ls -F -1` listing parser;
  - the operations, content and upload validators and the commands they
    choose;
  - the skills listing, with description extraction and local-over-global
    dedup;
  - the skill creation route, with name sanitising and the
    `echo | base64 -d` write;
  - the skills page's markdown parser.
- **Path and string helpers of the UI.** It models the file browser's
  parent path, breadcrumbs and slash-collapsing joins, the sidebar's title
  truncation and project name, and the component prop helpers.
- **Registry and caches.** It models:
  - the server registry hook;
  - environment server loading;
  - the servers page's add and delete guards;
  - the SWR fetchers and keys of the session hooks;
  - the optimistic message cache;
  - the server-URL header fallbacks on both the client and the server
    side.

**How the model is laid out.**

- Every core source file is one module.
- Code that changes state step by step is modelled as a class whose
  methods state the new state. Examples are the handshake, the relays,
  the terminal context, the pages, the registry store and the message
  cache.
- Each such class is specified by a pure transition function, and the
  lemmas about the source's promises are proved about that function.
- A loop in the source is a method with a `while` loop, proved equal to
  a specification function. Examples are the frame decoder, the
  environment loader, the registry merge, the skills scan, the markdown
  parser and the message append.

**Shared modules.**

- `results.dfy`: `Option` and `Result`.
- `bytes.dfy`: a `Byte` type over 0..255.
- `text.dfy`: the `String.prototype` operations the code uses.
- `js.dfy`: JavaScript values, truthiness, `||` and `slice`.
- `base64.dfy`: the base64 codec of section 4 of RFC 4648, with its
  round trip proved.
- `utf8.dfy`: UTF-8 encoding, with a strict decoder and its round trip.
- `http.dfy`: the route responses.

**Inputs.** I/O becomes inputs to the model. These are received chunks,
response statuses, command results, environment variables, the current
time and what prompts return.

## Model

| member | source | states |
|---|---|---|
| DockerUtils.ReadWriteUInt32BE | apps/web/src/lib/docker-utils.ts:114 | the four header bytes read big-endian give back the 32-bit length they encode |
| DockerUtils.Frames | apps/web/src/lib/docker-utils.ts:104-122 | a buffer has no frames exactly when it is shorter than one 8-byte header; the payloads and their headers never add up to more than the buffer |
| DockerUtils.ParseDockerStream | apps/web/src/lib/docker-utils.ts:104-122 | the walk over the buffer returns the frame payloads, in order, each decoded on its own and concatenated, whatever the stream-type byte says |
| DockerUtils.FrameStep | apps/web/src/lib/docker-utils.ts:112-118 | the frame at an offset is the bytes after its 8-byte header up to the declared size (cut at the buffer's end), and the next header starts at offset + 8 + size |
| DockerUtils.FramesOfEncoding | apps/web/src/lib/docker-utils.ts:104-122 | decoding a stream of well-formed frames gives back every payload in order, so stdout and stderr interleave in arrival order |
| DockerUtils.TruncatedFrame | apps/web/src/lib/docker-utils.ts:115-118 | a final frame that declares more bytes than remain contributes exactly the remaining bytes and ends the walk |
| DockerUtils.ExecCommandWithInput | apps/web/src/lib/docker-utils.ts:23-82 | an empty container name fails with the required-variable error before any request; otherwise the exec is created with AttachStdin = a truthy input and Tty false, started with Detach and Tty false only when creation worked, and its output is the parsed stream |
| DockerUtils.WriteFileCommand | apps/web/src/lib/docker-utils.ts:86-98 | the write command is a three-element `sh -c` argv whose third element is the script; what the script echoes is stated by `DockerUtils.WriteFileRoundTrip` |
| DockerUtils.ReadFileCommand | apps/web/src/lib/docker-utils.ts:100-102 | reading runs `cat` with the path as its one argument, with no shell in between |
| DockerUtils.ReadWhatWasWritten | apps/web/src/lib/docker-utils.ts:86-102 | `readFile` hands its path to `cat` as is; for a path free of the characters `sh` interprets inside double quotes (`"`, `$`, backquote, backslash), and only for such a path, the file `writeFile`'s script redirects to, as the shell reads it, is that same path |
| DockerUtils.WriteFileRoundTrip | apps/web/src/lib/docker-utils.ts:86-98 | the text echoed is the base64 encoding, and decoding it gives back the content's exact bytes; text content is its UTF-8 encoding and decodes back to the text |
| DockerUtils.SelectTransport | apps/web/src/lib/docker-utils.ts:131-133 | a "unix://" host selects the socket path after the prefix; any other host is reached over TCP after its first "tcp://" becomes "http://" |
| DockerUtils.TcpHost | apps/web/src/lib/docker-utils.ts:149 | a "tcp://host:port" setting is reached as "http://host:port" |
| DockerUtils.Connect | apps/web/src/lib/docker-utils.ts:143-152 | a socket path that does not exist is rejected, with that path in the message, before any request |
| DockerUtils.Outcome | apps/web/src/lib/docker-utils.ts:160-176 | a request succeeds exactly when the status is in [200, 300), with the body; otherwise the error message starts with "Docker API error", the status and ": " |
| ExecRelay.StartRequest | src/pages/api/terminal/ws.ts:74-82 | the start request is the request line and header lines joined by CRLF, an empty line, then the JSON body with Detach false and Tty true |
| ExecRelay.StartRequestShape | src/pages/api/terminal/ws.ts:74-82 | joining the header lines, an empty string and the body with CRLF puts exactly one empty CRLF line between the header section and the body |
| ExecRelay.Feed | src/pages/api/terminal/ws.ts:90-116 | a chunk after the headers are parsed changes nothing; before, it is appended to the buffer, the headers count as parsed exactly when the buffer now holds "\r\n\r\n", the outcome is then the decision at its first occurrence and the socket is destroyed when that is a rejection (or already was); otherwise outcome and destruction are unchanged |
| ExecRelay.FeedAll | src/pages/api/terminal/ws.ts:87-116 | feeding chunks in turn never shrinks the buffer and keeps it as a prefix, leaves a parsed handshake unchanged, and never undoes a destruction |
| ExecRelay.Decide | src/pages/api/terminal/ws.ts:96-114 | once a terminator is found, the upgrade succeeds exactly when the header text contains "101" or "200", and otherwise the handshake is rejected (it never stays pending); the header bytes, the 4-byte terminator and the pushed-back bytes are everything buffered; a failure carries the header text in its message |
| ExecRelay.FeedAllConsistent | src/pages/api/terminal/ws.ts:87-116 | before the terminator the buffer is the concatenation of every chunk received; the first chunk completing "\r\n\r\n" fixes the outcome from the bytes received up to it; a parsed handshake is never pending, and the socket is destroyed exactly on a rejection |
| ExecRelay.FeedAllFrom | src/pages/api/terminal/ws.ts:90-116 | the handshake invariant holds from any consistent state over any further chunks |
| ExecRelay.FeedStep | src/pages/api/terminal/ws.ts:90-99 | one chunk before the headers are parsed appends to the buffer and keeps the handshake invariant |
| ExecRelay.FeedAfterParsed | src/pages/api/terminal/ws.ts:91 | once the headers are parsed, any further chunks leave the handshake unchanged |
| ExecRelay.UpgradeHandshake.constructor | src/pages/api/terminal/ws.ts:87-88 | a handshake starts with an empty buffer, headers not parsed and nothing decided |
| ExecRelay.UpgradeHandshake.OnData | src/pages/api/terminal/ws.ts:90-116 | the `onData` listener changes the handshake exactly as one step of the chunk-feeding function |
| ExecRelay.Open | src/pages/api/terminal/ws.ts:139-176 | the container id is the query's non-empty id, else the configured one; an empty id emits the required-id error and disconnects the client without any Docker request; otherwise the first request creates an exec on that container with stdin, stdout and stderr attached, a TTY, and the bash-else-sh shell command |
| ExecRelay.ExecCreated | src/pages/api/terminal/ws.ts:163-191 | only status 201 with a parsable body goes on to start the stream, with the exec id read from the body's Id; any other status emits the failure with status and body and changes nothing else |
| ExecRelay.StreamStarted | src/pages/api/terminal/ws.ts:191-212 | a started stream is stored and a `connected` event with the container id is emitted; a failure emits its message; the exec id and requests are kept |
| ExecRelay.Input | src/pages/api/terminal/ws.ts:216-220 | input is written exactly when a stream exists and is not destroyed, and nothing else changes |
| ExecRelay.ResizeTerminal | src/pages/api/terminal/ws.ts:223-235 | a resize request with h = rows and w = cols is made whenever the exec id is set, even before the stream is open; otherwise nothing changes |
| ExecRelay.Disconnect | src/pages/api/terminal/ws.ts:238-244 | a disconnect with a stream destroys it once (one more destroy call) and clears the cell; without one it changes nothing; nothing else changes |
| ExecRelay.DisconnectFinal | src/pages/api/terminal/ws.ts:238-244 | a second disconnect changes nothing, so the stream is destroyed at most once, and input after a disconnect is dropped |
| ExecRelay.FromStream | src/pages/api/terminal/ws.ts:195-207 | each Docker stream event emits exactly its relayed event; a data event leaves the stream as it is, while a close or an error leaves it destroyed; nothing else changes |
| ExecRelay.InputAfterStreamEnd | src/pages/api/terminal/ws.ts:195-220 | once the Docker stream has closed or failed, input is no longer written; after data it still is |
| ExecRelay.StreamLifecycle | src/pages/api/terminal/ws.ts:191-220 | a started stream takes input, and after its close or error event the same input is dropped |
| ExecRelay.ExecCreateFailed | src/pages/api/terminal/ws.ts:208-211 | a create request that fails outright (its `error` event, line 60) is caught: its message is emitted and the connection settles with nothing else changed |
| ExecRelay.CreateFailedIsIdle | src/pages/api/terminal/ws.ts:208-220 | after a failed create request there is no stream and no further request, the client stays connected, and input and resizes are dropped |
| ExecRelay.NoInputBeforeStream | src/pages/api/terminal/ws.ts:216-220 | input that arrives before the stream has opened is dropped |
| ExecRelay.Connection.constructor | src/pages/api/terminal/ws.ts:136-155 | a connection starts in the state the opening step gives |
| ExecRelay.Connection.OnInput | src/pages/api/terminal/ws.ts:216-220 | the input listener changes the connection exactly as the input step |
| ExecRelay.Connection.OnResize | src/pages/api/terminal/ws.ts:223-235 | the resize listener changes the connection exactly as the resize step |
| ExecRelay.Connection.OnDisconnect | src/pages/api/terminal/ws.ts:238-244 | the disconnect listener changes the connection exactly as the disconnect step |
| ExecRelay.Connection.OnExecCreated | src/pages/api/terminal/ws.ts:179-188 | the answer to the create request changes the connection exactly as the exec-created step |
| ExecRelay.Connection.OnExecCreateFailed | src/pages/api/terminal/ws.ts:208-211 | a failed create request changes the connection exactly as the failed-create step |
| ExecRelay.Connection.OnStreamStarted | src/pages/api/terminal/ws.ts:191-212 | the end of `createExecStream` changes the connection exactly as the stream-started step |
| ExecRelay.Connection.OnStreamEvent | src/pages/api/terminal/ws.ts:195-207 | the stream listeners change the connection exactly as the stream-event step: data, close and error are relayed as output, disconnected and error events, and close and error leave the socket destroyed |
| SocketEvents.Gateway.constructor | src/pages/api/terminal/ws.ts:124 | no Socket.IO server is installed at first |
| SocketEvents.Gateway.Handle | src/pages/api/terminal/ws.ts:123-134 | each call of the handler installs a Socket.IO server only when none is stored, so at most one is ever installed |
| OpenCodeRelay.GetOpenCodeServerUrl | apps/web/src/pages/api/terminal/ws.ts:4-16 | an empty or unparsable server URL gives OPENCODE_SERVER_URL or the local default; a parsed one gives its host under "wss://" exactly when the protocol is "https:", else under "ws://", and what follows that prefix is exactly the host, so no path or query |
| OpenCodeRelay.SchemePrefix | apps/web/src/pages/api/terminal/ws.ts:11 | the WebSocket URL starts with "wss://" or "ws://" according to the scheme chosen, and what follows the prefix is exactly the host |
| OpenCodeRelay.Open | apps/web/src/pages/api/terminal/ws.ts:40-47 | the connection keeps the query's non-empty server URL (else null), its WebSocket URL is `getOpenCodeServerUrl` of that URL or "", and it starts with no attempts, no upstream socket, no retry, nothing emitted or sent, no socket created or closed, and the client connected |
| OpenCodeRelay.Attempt | apps/web/src/pages/api/terminal/ws.ts:49-91 | with three attempts used up it emits the give-up error and disconnects the client; otherwise the attempt is counted first, a created socket is stored, and a failed creation schedules a retry after 1000 ms times the count only while fewer than three attempts were made |
| OpenCodeRelay.AttemptKeepsInv | apps/web/src/pages/api/terminal/ws.ts:49-91 | an attempt keeps the count at most three and any scheduled delay equal to 1000 ms times the attempts made |
| OpenCodeRelay.FireNeverGivesUp | apps/web/src/pages/api/terminal/ws.ts:85-90 | a retry that fires never reaches the give-up guard: it emits nothing new and does not close the client |
| OpenCodeRelay.AllAttemptsFail | apps/web/src/pages/api/terminal/ws.ts:85-90 | when every creation fails there are exactly three attempts, the retries wait 1000 ms and 2000 ms, and then nothing further happens |
| OpenCodeRelay.Fire | apps/web/src/pages/api/terminal/ws.ts:88 | the retry timer runs a fresh attempt: while fewer than three were made it counts one more and emits nothing, a created socket becomes the connecting upstream, and a new retry is scheduled only after a failed creation before the third attempt |
| OpenCodeRelay.Opened | apps/web/src/pages/api/terminal/ws.ts:64-68 | the open event resets the counter to 0, leaves a stored socket open (ready state 1), and emits a connected event with the server URL; nothing else changes |
| OpenCodeRelay.InputAfterOpen | apps/web/src/pages/api/terminal/ws.ts:62-97 | once a created socket has opened, input and resizes are forwarded to it; before it opens, input is dropped |
| OpenCodeRelay.FromUpstream | apps/web/src/pages/api/terminal/ws.ts:70-84 | each upstream event emits exactly its relayed event; a message leaves the socket as it is, while an error (the socket is then closing) or a close leaves it no longer open; nothing else changes |
| OpenCodeRelay.SendAfterUpstreamEvent | apps/web/src/pages/api/terminal/ws.ts:70-110 | after an upstream error or close, input and resizes are no longer sent; after a message, input still is |
| OpenCodeRelay.Input | apps/web/src/pages/api/terminal/ws.ts:93-97 | input is sent exactly while the upstream socket is open (ready state 1), and nothing else changes |
| OpenCodeRelay.ResizeTerminal | apps/web/src/pages/api/terminal/ws.ts:99-110 | a resize is sent as the JSON resize message with cols and rows exactly while the upstream socket is open, and nothing else changes |
| OpenCodeRelay.Disconnect | apps/web/src/pages/api/terminal/ws.ts:112-118 | a disconnect closes the upstream socket if there is one and clears it; a scheduled retry stays scheduled |
| OpenCodeRelay.DisconnectFinal | apps/web/src/pages/api/terminal/ws.ts:112-118 | a second disconnect changes nothing, and input and resizes after it are not sent |
| OpenCodeRelay.AttemptGlobal | apps/web/src/pages/api/terminal/ws.ts:60-91 | as written on the runtime's own WebSocket: a created socket is stored and counted, and a retry is scheduled exactly as after a failed creation; giving up and a failed creation are as in the listener model |
| OpenCodeRelay.FireGlobal | apps/web/src/pages/api/terminal/ws.ts:88 | as written on the runtime's own WebSocket: the timer counts one more attempt, emits nothing, and a created socket replaces the stored one |
| OpenCodeRelay.SocketState | apps/web/src/pages/api/terminal/ws.ts:62-84 | as written on the runtime's own WebSocket: the stored socket's ready state changes and nothing is relayed or reset |
| OpenCodeRelay.GlobalSocketIsSilent | apps/web/src/pages/api/terminal/ws.ts:60-91 | as written on the runtime's own WebSocket: three sockets are created 1000 ms and 2000 ms apart, the last one takes input once open, and the client is never told it connected and receives nothing |
| OpenCodeRelay.Connection.constructor | apps/web/src/pages/api/terminal/ws.ts:37-47 | a connection starts in the state the opening step gives |
| OpenCodeRelay.Connection.ConnectToOpenCode | apps/web/src/pages/api/terminal/ws.ts:49-91 | `connectToOpenCode` changes the connection exactly as the attempt step |
| OpenCodeRelay.Connection.OnTimer | apps/web/src/pages/api/terminal/ws.ts:88 | the retry timer changes the connection exactly as a fresh attempt |
| OpenCodeRelay.Connection.OnOpen | apps/web/src/pages/api/terminal/ws.ts:64-68 | the open listener changes the connection exactly as the opened step |
| OpenCodeRelay.Connection.OnUpstream | apps/web/src/pages/api/terminal/ws.ts:70-84 | the upstream listeners change the connection exactly as the upstream-event step: message, error and close are relayed as output, error and disconnected events, and error and close update the ready state |
| OpenCodeRelay.Connection.OnInput | apps/web/src/pages/api/terminal/ws.ts:93-97 | the input listener changes the connection exactly as the input step |
| OpenCodeRelay.Connection.OnResize | apps/web/src/pages/api/terminal/ws.ts:99-110 | the resize listener changes the connection exactly as the resize step |
| OpenCodeRelay.Connection.OnDisconnect | apps/web/src/pages/api/terminal/ws.ts:112-118 | the disconnect listener changes the connection exactly as the disconnect step |
| TerminalContext.TimeOfDay | apps/web/src/contexts/terminal-context.tsx:41 | a time stamp exists exactly when the ISO text has a "T"; it starts just after the first "T", holds no "T" or ".", and ends at the next "." or "T" or at the end of the text |
| TerminalContext.TimeOfDayUnique | apps/web/src/contexts/terminal-context.tsx:41 | the time stamp is determined: any text that starts just after the first "T", holds no "T" or ".", and ends at one of them or at the end is the stamp |
| TerminalContext.IsoStampLogged | apps/web/src/contexts/terminal-context.tsx:41-43 | for a stamp `date T time . millis`, the time of day is exactly `time`, and the new log entry is "[" + time + "] " + message |
| TerminalContext.AddLog | apps/web/src/contexts/terminal-context.tsx:43 | the list keeps at most the 50 most recent earlier entries, in order, and ends with the new "[time] message" entry, so it never exceeds 51 |
| TerminalContext.AppendHistory | apps/web/src/contexts/terminal-context.tsx:77-84 | the history is the old one plus the data when that fits in 1,000,000 characters, and otherwise exactly its last 1,000,000 characters; it is always a suffix of the old history plus the data |
| TerminalContext.AppendHistoryBounded | apps/web/src/contexts/terminal-context.tsx:79-83 | a history within the limit stays within it after any output |
| TerminalContext.AppendHistoryKeepsNewest | apps/web/src/contexts/terminal-context.tsx:80-82 | output that fits in the limit is kept whole at the end of the history |
| TerminalContext.Connect | apps/web/src/contexts/terminal-context.tsx:46-56 | connect does nothing while a socket exists; without an active server it only logs; otherwise it logs the server's name and URL and starts the request for a socket carrying that URL |
| TerminalContext.EndpointReady | apps/web/src/contexts/terminal-context.tsx:57-90 | the created socket's query carries the active server's URL, and nothing else changes |
| TerminalContext.EndpointFailed | apps/web/src/contexts/terminal-context.tsx:92-94 | a failed endpoint request only logs the error |
| TerminalContext.OnEvent | apps/web/src/contexts/terminal-context.tsx:67-88 | "connect" sets the connected flag and "disconnect" clears it; output only extends the history; an error only logs its message, or the error itself when it has none |
| TerminalContext.StepsKeepBounded | apps/web/src/contexts/terminal-context.tsx:43-84 | every handler keeps the history within 1,000,000 characters and the log list within 51 entries |
| TerminalContext.TerminalProvider.constructor | apps/web/src/contexts/terminal-context.tsx:34-37 | the provider starts with no socket, not connected, an empty history and no logs |
| TerminalContext.TerminalProvider.AddLogEntry | apps/web/src/contexts/terminal-context.tsx:40-44 | `addLog` replaces the log list as the log function says and changes nothing else |
| TerminalContext.TerminalProvider.ConnectTo | apps/web/src/contexts/terminal-context.tsx:46-56 | `connect` changes the provider exactly as the connect step |
| TerminalContext.TerminalProvider.OnEndpointReady | apps/web/src/contexts/terminal-context.tsx:57-90 | the resolved endpoint request changes the provider exactly as the endpoint-ready step |
| TerminalContext.TerminalProvider.OnEndpointFailed | apps/web/src/contexts/terminal-context.tsx:92-94 | the failed endpoint request changes the provider exactly as the endpoint-failed step |
| TerminalContext.TerminalProvider.OnOutput | apps/web/src/contexts/terminal-context.tsx:77-84 | an output event changes the provider exactly as the output step |
| TerminalContext.TerminalProvider.OnSocketEvent | apps/web/src/contexts/terminal-context.tsx:67-88 | a socket event changes the provider exactly as the event step |
| FsDirectory.ListPath | apps/web/src/pages/api/fs/directory.ts:12 | the listed path is the query's path when it is a non-empty string, else "/workspace" |
| FsDirectory.LsArgv | apps/web/src/pages/api/fs/directory.ts:20-29 | the argument vector is "ls", "-F", "-1", "--group-directories-first", then "-a" exactly when hidden files are shown, then the path last |
| FsDirectory.LsArgs | apps/web/src/pages/api/fs/directory.ts:20-29 | building the vector with pushes gives exactly that argument vector |
| FsDirectory.Plan | apps/web/src/pages/api/fs/directory.ts:8-31 | anything but GET is refused with 405 before any command; a GET lists the query path, with hidden files exactly for the query value "true" |
| FsDirectory.Complete | apps/web/src/pages/api/fs/directory.ts:33-67 | a listing replies 200 with the items of the output and the path; a failure replies 500 "Failed to list files" with the error |
| FsDirectory.StripMarker | apps/web/src/pages/api/fs/directory.ts:38 | one trailing type marker among "/", "*", "@", "=", "\|" is removed, and only one |
| FsDirectory.ToItem | apps/web/src/pages/api/fs/directory.ts:41-57 | an item is a directory exactly when its line ends with "/", and its name then lacks that slash; another name ending in "*" or "@" loses exactly that character, any other is the line; the item path is the folder, "/" and the name with runs of "/" collapsed |
| FsDirectory.LineItems | apps/web/src/pages/api/fs/directory.ts:33-58 | a line gives at most one item |
| FsDirectory.ItemsOfAppend | apps/web/src/pages/api/fs/directory.ts:33-58 | the items follow the order of the output lines |
| FsDirectory.ItemsOfLine | apps/web/src/pages/api/fs/directory.ts:35-40 | a line yields its item exactly when it is not blank after trimming and, without its marker, is neither "." nor ".." |
| FsDirectory.ItemsOfNames | apps/web/src/pages/api/fs/directory.ts:37-56 | no item is the "." or ".." entry, and no item path has two slashes in a row |
| FsDirectory.ItemsOfSingleLine | apps/web/src/pages/api/fs/directory.ts:33-34 | item names from lines without a newline hold none |
| FsDirectory.ItemsSingleLine | apps/web/src/pages/api/fs/directory.ts:33-34 | every item name of a listing is a single line |
| FsOperations.Plan | apps/web/src/pages/api/fs/operations.ts:8-38 | a non-POST gets 405 before any other check; a missing or non-string path gets 400; a command runs exactly for a rename with a string destination, a delete of an unprotected path or a mkdir, and then it is ["mv", path, destination], ["rm", "-rf", path] or ["mkdir", "-p", path] |
| FsOperations.Complete | apps/web/src/pages/api/fs/operations.ts:40-47 | success replies 200 {success: true}; a command failure replies 500 "Operation failed" with the error |
| FsOperations.NeverDeletesProtected | apps/web/src/pages/api/fs/operations.ts:26-30 | "/", "/workspace" and "/home" (compared as strings) are never removed, and deleting them gets 400 |
| FsOperations.CommandTakesPath | apps/web/src/pages/api/fs/operations.ts:19-35 | every command run is one of mv, rm and mkdir with three arguments, and acts on the request's path |
| FsContent.Plan | apps/web/src/pages/api/fs/content.ts:8-27 | the path check comes first, so any method without a string path gets 400; GET reads the file; POST with non-string content gets 400 and with string content writes it; any other method gets 405 |
| FsContent.Complete | apps/web/src/pages/api/fs/content.ts:15-34 | a read replies 200 with the file's text, a write 200 {success: true}, and a failure 500 "Failed to access file" with the error |
| FsContent.WriteStoresContent | apps/web/src/pages/api/fs/content.ts:18-24 | the write command's payload decodes back to the UTF-8 bytes of the posted text |
| FsUpload.Buffers | apps/web/src/pages/api/fs/upload.ts:26-29 | each chunk becomes a buffer in arrival order: a string chunk as its bytes, a buffer as is |
| FsUpload.Check | apps/web/src/pages/api/fs/upload.ts:14-22 | a non-POST gets 405 before the path check; a missing or non-string path gets 400; only a POST with a string path goes on |
| FsUpload.ReadBody | apps/web/src/pages/api/fs/upload.ts:26-30 | the reading loop gathers exactly the concatenation of the chunk buffers, in order |
| FsUpload.Complete | apps/web/src/pages/api/fs/upload.ts:35-41 | success replies 200 {success: true}, a failure 500 "Upload failed" with the error |
| FsUpload.ChunksInOrder | apps/web/src/pages/api/fs/upload.ts:26-30 | the bytes of later chunks follow those of earlier ones |
| FsUpload.UploadStoresBody | apps/web/src/pages/api/fs/upload.ts:30-33 | the written file's payload decodes back to exactly the bytes received |
| SkillsList.NonBlank | apps/web/src/pages/api/skills/list.ts:29 | the kept lines are at most the lines given |
| SkillsList.NonBlankSpec | apps/web/src/pages/api/skills/list.ts:29-66 | the find output keeps exactly its lines that are not blank after trimming |
| SkillsList.SkillName | apps/web/src/pages/api/skills/list.ts:31-68 | a skill's name is the file's last "/"-segment with its first ".md" removed, so it holds no "/" |
| SkillsList.SkillNameOfFile | apps/web/src/pages/api/skills/list.ts:31 | a file "dir/name.md" whose name has no "/" or "." is named after itself |
| SkillsList.Trims | apps/web/src/pages/api/skills/list.ts:40 | each head line is trimmed, and the count is kept |
| SkillsList.LeadingHashes | apps/web/src/pages/api/skills/list.ts:42 | the count of leading "#" characters is exactly the run of them |
| SkillsList.StripHashes | apps/web/src/pages/api/skills/list.ts:42 | removing the leading "#" run and the whitespace after it leaves text that does not start with whitespace |
| SkillsList.FirstHeading | apps/web/src/pages/api/skills/list.ts:39-43 | the first trimmed line starting with "#", when there is one, with no such line before it |
| SkillsList.FirstNonEmptySpec | apps/web/src/pages/api/skills/list.ts:44-46 | the plain-text description is "" exactly when every trimmed line is empty, and otherwise the first non-empty one |
| SkillsList.FirstHeadingAt | apps/web/src/pages/api/skills/list.ts:41-43 | a "#" line with none before it is the first heading |
| SkillsList.Describe | apps/web/src/pages/api/skills/list.ts:38-47 | the scan over the head lines gives the description: the first heading without its "#"s and leading whitespace, stopping there, else the first non-empty line, else "" |
| SkillsList.DescriptionAtHeading | apps/web/src/pages/api/skills/list.ts:41-43 | the scan stopping at the first heading yields that heading's text |
| SkillsList.HeadingOverridesText | apps/web/src/pages/api/skills/list.ts:41-45 | a heading overrides an earlier plain-text description |
| SkillsList.LocalSkills | apps/web/src/pages/api/skills/list.ts:30-53 | the local loop yields one skill per file with a non-empty name, so every listed name is non-empty |
| SkillsList.Candidates | apps/web/src/pages/api/skills/list.ts:67-87 | one candidate skill per global file, in order |
| SkillsList.CollectLocal | apps/web/src/pages/api/skills/list.ts:30-53 | the local loop collects exactly the local skills in find order |
| SkillsList.CollectGlobal | apps/web/src/pages/api/skills/list.ts:67-88 | the global loop collects exactly the local skills followed by the new global ones |
| SkillsList.ListSkills | apps/web/src/pages/api/skills/list.ts:14-93 | a non-GET gets 405; a GET replies 200 with the collected skills, and a failed scan contributes nothing without failing the handler |
| SkillsList.AddNewKeeps | apps/web/src/pages/api/skills/list.ts:69-86 | the global loop keeps every skill already collected, as a prefix |
| SkillsList.AddNewFresh | apps/web/src/pages/api/skills/list.ts:69 | every skill it adds has a non-empty name no earlier skill has |
| SkillsList.AddNewCovers | apps/web/src/pages/api/skills/list.ts:69 | every candidate with a non-empty name is represented by name afterwards |
| SkillsList.GlobalFilesCovered | apps/web/src/pages/api/skills/list.ts:66-69 | every global file with a non-empty name is represented by name in the listing |
| SkillsList.CandidatesAt | apps/web/src/pages/api/skills/list.ts:67-86 | each candidate is the skill of the file at that position, with its head read |
| SkillsList.LocalFirst | apps/web/src/pages/api/skills/list.ts:51-86 | all local skills come first and stay, and no global skill added shares a local skill's name |
| SkillsList.AllSkillsShape | apps/web/src/pages/api/skills/list.ts:19-93 | the listing is the local skills, or none when the local scan failed, extended by the new global ones when the global scan worked |
| SkillsCreate.Lower | apps/web/src/pages/api/skills/create.ts:19 | lower-casing maps every kept character to a safe one and leaves safe ones unchanged |
| SkillsCreate.SafeName | apps/web/src/pages/api/skills/create.ts:19 | the sanitised name is no longer than the name and consists only of a-z, 0-9, "-" and "_" |
| SkillsCreate.SafeNameAppend | apps/web/src/pages/api/skills/create.ts:19 | sanitising works character by character |
| SkillsCreate.SafeNameFixed | apps/web/src/pages/api/skills/create.ts:19 | a name is left unchanged exactly when it already consists of safe characters |
| SkillsCreate.SafeNameIdempotent | apps/web/src/pages/api/skills/create.ts:19 | sanitising a sanitised name changes nothing |
| SkillsCreate.CreatedSkillName | apps/web/src/pages/api/skills/create.ts:20-22 | the listing route names the created file after the safe name, and both routes use the same skills folder |
| SkillsCreate.ElementByte | apps/web/src/pages/api/skills/create.ts:29 | an array element is stored as its number modulo 256, true as 1, false, null and undefined as 0; only strings, arrays and objects are not followed |
| SkillsCreate.ElementBytes | apps/web/src/pages/api/skills/create.ts:29 | an array converts exactly when every element does, into one byte per element, each the element's byte |
| SkillsCreate.BufferFrom | apps/web/src/pages/api/skills/create.ts:29 | a string content gives its UTF-8 text; a number, boolean, null or undefined throws; an object throws unless it has a `valueOf`, `length` or `type` key; an array gives the bytes of its elements when they all convert |
| SkillsCreate.Handle | apps/web/src/pages/api/skills/create.ts:8-46 | a non-POST gets 405 and a falsy name or content 400, before any command; a non-string name throws before any command; otherwise "mkdir -p" on the skills folder runs first, the base64 write of the converted content to the safe name's file runs only after it worked and the content converted, success replies 200 with the file path, a failed command replies 500 "Failed to create skill" with its error, and a content the conversion refuses replies 500 with the conversion's error after the mkdir |
| SkillsCreate.RefusedContentAfterMkdir | apps/web/src/pages/api/skills/create.ts:24-45 | a content `Buffer.from` refuses is refused inside the `try`: the directory has been created and the reply is 500 "Failed to create skill" with the TypeError's message |
| SkillsCreate.CreateStoresContent | apps/web/src/pages/api/skills/create.ts:29-37 | the write command's payload decodes back to the bytes the conversion made: for a string its UTF-8 bytes, which decode back to the text; for an array one byte per element |
| SkillsPage.HeaderMatch | apps/web/src/pages/skills.tsx:88 | a header capture exists only for a line starting with "#" |
| SkillsPage.HeaderSplitShape | apps/web/src/pages/skills.tsx:88 | in every way the header pattern can match, the "#" run is all the leading hashes and the whitespace run lies within the leading whitespace after them |
| SkillsPage.HeaderSplitBound | apps/web/src/pages/skills.tsx:88 | any one split of a header line shows that the greedy split's capture holds no line terminator |
| SkillsPage.HeaderSplitsBounded | apps/web/src/pages/skills.tsx:88 | every split takes all the hashes and at most the whole whitespace run |
| SkillsPage.NoTerminatorFrom | apps/web/src/pages/skills.tsx:88 | a capture free of line terminators stays so when it starts later |
| SkillsPage.HeaderMatchPreferred | apps/web/src/pages/skills.tsx:88 | the function's capture comes from a split the engine prefers over every other |
| SkillsPage.HeaderMatchSpec | apps/web/src/pages/skills.tsx:88 | the header function gives the capture the pattern `^#+\s+(.+)$` gives: one or more "#", at least one whitespace, at least one more character and no line terminator; and it gives none exactly when no split matches |
| SkillsPage.ColonSpace | apps/web/src/pages/skills.tsx:89 | the length of the leading run of ":" and whitespace characters, and no longer |
| SkillsPage.TailMatch | apps/web/src/pages/skills.tsx:89 | the text after the bold name matches `[:\s]*(.*)$` exactly when what follows the run of ":" and whitespace holds no line terminator, and that is the capture |
| SkillsPage.ColonSpaceLongest | apps/web/src/pages/skills.tsx:89 | the run of ":" and whitespace is at least as long as any such run at the start |
| SkillsPage.TailMatchSpec | apps/web/src/pages/skills.tsx:89 | the tail matches for some split exactly when it matches for the longest run |
| SkillsPage.BoldFromSpec | apps/web/src/pages/skills.tsx:89 | the lazy search finds the shortest first capture that lets the whole pattern match, or none when none does |
| SkillsPage.BoldFromEnd | apps/web/src/pages/skills.tsx:89 | the search finds nothing once no room is left for the closing "**" |
| SkillsPage.BoldFromHit | apps/web/src/pages/skills.tsx:89 | the search stops at the first capture length that works, and that is the shortest |
| SkillsPage.BoldFromMiss | apps/web/src/pages/skills.tsx:89 | the search goes on past a capture length that does not work |
| SkillsPage.TerminatorEndsSearch | apps/web/src/pages/skills.tsx:89 | a line terminator inside the name rules out every longer first capture |
| SkillsPage.NoTerminatorExtend | apps/web/src/pages/skills.tsx:89 | a capture free of line terminators extends by one such character |
| SkillsPage.BoldMatch | apps/web/src/pages/skills.tsx:89 | a bold capture exists only for a line starting with "**" |
| SkillsPage.BoldMatchSpec | apps/web/src/pages/skills.tsx:89 | the bold function gives the two captures `^\*\*(.+?)\*\*[:\s]*(.*)$` gives, with the shortest name, and none exactly when no split matches |
| SkillsPage.HeaderExample | apps/web/src/pages/skills.tsx:88 | "## Deploy" captures "Deploy" |
| SkillsPage.HeaderCarriageReturn | apps/web/src/pages/skills.tsx:88 | a header line ending in "\r" does not match, since `.` stops at a line terminator |
| SkillsPage.HeaderNeedsSpace | apps/web/src/pages/skills.tsx:88 | "#Deploy" does not match: at least one whitespace must follow the hashes |
| SkillsPage.HeaderBlank | apps/web/src/pages/skills.tsx:88 | "#  " captures one space, given back by the whitespace run |
| SkillsPage.BoldExample | apps/web/src/pages/skills.tsx:89 | "**a**: b" captures "a" and "b" |
| SkillsPage.PatternsExclusive | apps/web/src/pages/skills.tsx:88-89 | no line matches both patterns, so the header test taking precedence only ever decides between a match and no match |
| SkillsPage.ClassifyAll | apps/web/src/pages/skills.tsx:86-106 | every line is read as exactly one kind of line |
| SkillsPage.Flush | apps/web/src/pages/skills.tsx:92-111 | the current draft is emitted, after those already parsed, exactly when it has a non-empty name |
| SkillsPage.ClassifyPrefix | apps/web/src/pages/skills.tsx:86-89 | reading one more line appends its reading |
| SkillsPage.ReadLine | apps/web/src/pages/skills.tsx:88-106 | the loop body tries the header pattern first, then the bold pattern, then takes the line as plain text |
| SkillsPage.ScanNone | apps/web/src/pages/skills.tsx:80-84 | before any line there are no skills and no draft |
| SkillsPage.ScanPrefix | apps/web/src/pages/skills.tsx:86-107 | the state after one more line is one more step of the loop |
| SkillsPage.ApplyLine | apps/web/src/pages/skills.tsx:91-106 | the loop body for one read line does exactly one step: a starting line emits the current draft and starts its own, a plain line may fill in the description |
| SkillsPage.ParseOutputLines | apps/web/src/pages/skills.tsx:83-111 | the loop over the lines yields exactly the skills of those lines, the last draft emitted at the end |
| SkillsPage.ParseOutput | apps/web/src/pages/skills.tsx:79-111 | the parse loop over the text's lines yields exactly the parsed skills, the last draft included |
| SkillsPage.Names | apps/web/src/pages/skills.tsx:92-111 | the names of the emitted drafts, one per draft |
| SkillsPage.NonEmpty | apps/web/src/pages/skills.tsx:92-109 | the non-empty names, in order |
| SkillsPage.NamesSnoc | apps/web/src/pages/skills.tsx:93 | emitting a draft appends its name |
| SkillsPage.NonEmptySnoc | apps/web/src/pages/skills.tsx:92 | a new name is kept exactly when it is non-empty |
| SkillsPage.ScanTracksStarts | apps/web/src/pages/skills.tsx:86-107 | after any lines the emitted names are the non-empty names of all but the last starting line, and the current draft is named after the last |
| SkillsPage.NamesAt | apps/web/src/pages/skills.tsx:93 | the names list holds each draft's name at its position |
| SkillsPage.ParsedNames | apps/web/src/pages/skills.tsx:92-111 | the emitted skills are exactly the drafts with a non-empty name, in the order of their starting lines |
| SkillsPage.ParseSkillsNames | apps/web/src/pages/skills.tsx:79-111 | the parsed skills of a text are named after its starting lines, empty names skipped, and each has a non-empty name |
| SkillsPage.DescriptionKept | apps/web/src/pages/skills.tsx:104-106 | once the current skill has a non-empty description, plain lines leave the parse unchanged |
| SkillsPage.DescriptionFilled | apps/web/src/pages/skills.tsx:104-105 | a non-empty plain line fills in a missing or empty description with its trimmed text and changes nothing else |
| SkillsPage.ShownDraft | apps/web/src/pages/skills.tsx:93-114 | a parsed skill is shown with its name, its description when it has one, and no source |
| SkillsPage.ShownDrafts | apps/web/src/pages/skills.tsx:114 | every parsed skill is shown, in order |
| SkillsPage.Record | apps/web/src/pages/skills.tsx:59-63 | mapping a record fails exactly on undefined or null (reading a field of it throws) |
| SkillsPage.Records | apps/web/src/pages/skills.tsx:59-63 | the records map succeeds exactly when each one does, keeping count and order |
| SkillsPage.Discovered | apps/web/src/pages/skills.tsx:58-63 | reading the skills of an undefined or null body fails |
| SkillsPage.DiscoverListing | apps/web/src/pages/skills.tsx:59-63 | every skill the listing route reports is shown, in order, with its name, description and path as source |
| SkillsPage.CreateBody | apps/web/src/pages/skills.tsx:119-133 | a creation request is sent exactly when the trimmed name and trimmed content are non-empty, with the untrimmed name and content |
| SkillsPage.SentRequestAccepted | apps/web/src/pages/skills.tsx:119-133 | a request the page sends passes the creation route's checks, so the route starts with its mkdir |
| SkillsPage.Page.constructor | apps/web/src/pages/skills.tsx:39-45 | the page starts with no skills and an empty form |
| SkillsPage.Page.ParseSkillsFromOutput | apps/web/src/pages/skills.tsx:113-115 | the skills are replaced by the parsed ones only when at least one was parsed, and the form is kept |
| SkillsPage.Page.DiscoverSkills | apps/web/src/pages/skills.tsx:50-76 | an answered listing replaces the skills with the discovered records; a failed one leaves them |
| SkillsPage.Page.CreateRequest | apps/web/src/pages/skills.tsx:119-133 | the form sends exactly the creation request the guard allows |
| SkillsPage.Page.CreateFinished | apps/web/src/pages/skills.tsx:135-145 | an OK response clears the form, any other keeps it, and the skills are kept |
| FilesPage.Parent | apps/web/src/pages/files.tsx:162-166 | going up does nothing exactly at "/workspace" and "/"; anywhere else it yields a non-empty folder |
| FilesPage.DirnameSpec | apps/web/src/pages/files.tsx:164 | the last segment holds no slash; a path with a slash is the text before its last slash, a slash and the last segment; a path without one is its own last segment |
| FilesPage.ParentSpec | apps/web/src/pages/files.tsx:163-165 | going up from a nested folder strips its last segment and the slash before it, and a folder just under the root (or with no slash) goes up to "/" |
| FilesPage.NonEmptyPieces | apps/web/src/pages/files.tsx:289 | the filter keeps only non-empty strings of the list |
| FilesPage.NonEmptyPiecesKeep | apps/web/src/pages/files.tsx:289 | a list of non-empty strings passes the filter whole |
| FilesPage.NonEmptyPiecesSkip | apps/web/src/pages/files.tsx:289 | a leading empty string is dropped |
| FilesPage.SplitAfterSlash | apps/web/src/pages/files.tsx:289 | splitting text after a leading slash gives an empty piece and then the pieces of the text |
| FilesPage.CrumbsAreNames | apps/web/src/pages/files.tsx:289 | every breadcrumb is non-empty and free of slashes |
| FilesPage.CrumbsOfJoin | apps/web/src/pages/files.tsx:289-311 | the breadcrumbs of "/" and plain names joined by slashes are those names |
| FilesPage.CrumbNavigates | apps/web/src/pages/files.tsx:309-320 | clicking breadcrumb `index` opens "/" and the first index+1 crumbs joined by slashes, a folder whose breadcrumbs are exactly those crumbs |
| FilesPage.TargetSpec | apps/web/src/pages/files.tsx:193 | the joined target has no doubled slash, keeps every other character of folder and name in order, starts with a slash when the folder does (or is empty), and collapsing it again changes nothing |
| FilesPage.ChildTarget | apps/web/src/pages/files.tsx:193 | a non-empty slash-free name lands directly in the collapsed folder: its path is that folder (ending in one slash) and the name, it is titled by the name and its dirname is the folder |
| FilesPage.HomeChildExample | apps/web/src/pages/files.tsx:44 | a new item "src" in the home folder is "/workspace/src", whose parent is the home folder again |
| FilesPage.HomeChildTarget | apps/web/src/pages/files.tsx:44 | the item "src" in the home folder lands at "/workspace/src", whose parent is the home folder |
| FilesPage.EditorTitle | apps/web/src/pages/files.tsx:482 | the editor's title is the slash-free tail of the open path, preceded by a slash when it is not the whole path |
| FilesPage.RenameRequest | apps/web/src/pages/files.tsx:189-207 | nothing is sent exactly when the prompt was dismissed, left empty or unchanged; otherwise a rename of the item's path to the collapsed target |
| FilesPage.RenameMoves | apps/web/src/pages/files.tsx:189-207 | a rename the page sends makes the operations route run `mv` from the item's path to the target |
| FilesPage.DeleteRequest | apps/web/src/pages/files.tsx:169-181 | a delete is sent exactly when the user confirmed it, for the item's path |
| FilesPage.DeleteRemoves | apps/web/src/pages/files.tsx:169-181 | a confirmed delete runs `rm -rf` on the item unless its path is a protected folder, which the route refuses |
| FilesPage.NewItemRequest | apps/web/src/pages/files.tsx:218-242 | nothing is sent for a dismissed or empty name; a folder is made with the mkdir operation and a file written empty through the content route, at the collapsed target |
| FilesPage.NewItemCreates | apps/web/src/pages/files.tsx:218-242 | a new folder becomes `mkdir -p` at the target and a new file an empty write there |
| FilesPage.UploadRequest | apps/web/src/pages/files.tsx:254-276 | nothing is sent without a selected file; otherwise the first file is posted to the collapsed target |
| FilesPage.UploadAccepted | apps/web/src/pages/files.tsx:254-276 | every upload the page sends passes the upload route's checks |
| FilesPage.ListRequest | apps/web/src/pages/files.tsx:77-88 | the listing is a GET of the folder, asking for hidden files exactly when the page shows them |
| FilesPage.ListsFolder | apps/web/src/pages/files.tsx:77-88 | the listing the page asks for lists its folder (the home folder for an empty path), with hidden files exactly when shown |
| FilesPage.Page.constructor | apps/web/src/pages/files.tsx:44-69 | the page opens on "/workspace" with no files and a closed, empty editor, showing hidden files as saved |
| FilesPage.Page.NavigateTo | apps/web/src/pages/files.tsx:158-160 | the folder becomes the path and nothing else changes |
| FilesPage.Page.NavigateUp | apps/web/src/pages/files.tsx:162-166 | the parent tile is shown exactly when going up moves; then the folder becomes the parent, otherwise nothing changes |
| FilesPage.Page.HandleFileClick | apps/web/src/pages/files.tsx:150-156 | clicking a folder opens it; clicking a file keeps the folder and asks for the file's content |
| FilesPage.Page.ContentLoaded | apps/web/src/pages/files.tsx:111-114 | the loaded text is shown in an open editor for that path; the folder view is kept |
| FilesPage.Page.FilesLoaded | apps/web/src/pages/files.tsx:90-91 | the listed items replace the file list and nothing else changes |
| FilesPage.Page.ContentSaved | apps/web/src/pages/files.tsx:138-140 | a successful save closes the editor, a failed one keeps it as it was |
| FilesPage.Page.ToggleHidden | apps/web/src/pages/files.tsx:339 | the hidden-files flag flips and nothing else changes |
| FilesPage.Page.FetchRequest | apps/web/src/pages/files.tsx:77-88 | the page asks for the listing of its current folder with its hidden-files flag |
| Servers.DefaultServers | apps/web/src/types/servers.ts:58-69 | one server, "default"/"Default" with the default color, whose URL is the first non-empty of the two URL variables, else "http://localhost:4000" |
| Servers.EnvServers | apps/web/src/types/servers.ts:107-116 | at most one server per slot |
| Servers.LoadServersFromEnv | apps/web/src/types/servers.ts:75-119 | the loop over the slots yields exactly the servers of the usable slots, in slot order |
| Servers.EnvServersFromSlots | apps/web/src/types/servers.ts:107-116 | every loaded server is the record of a slot with both a name and a URL, and every such slot is loaded |
| Servers.EnvServersLoaded | apps/web/src/types/servers.ts:107-116 | every loaded server is the record of a slot with both a name and a URL |
| Servers.EnvServersComplete | apps/web/src/types/servers.ts:107-116 | every slot with both a name and a URL is loaded |
| Servers.EnvServerIds | apps/web/src/types/servers.ts:110 | the loaded ids are distinct and each is "env-" and a slot number between 1 and the slot count |
| Servers.SlotIdInjective | apps/web/src/types/servers.ts:110 | different slots get different ids |
| Servers.NatToStringInjective | apps/web/src/types/servers.ts:110 | different numbers have different decimal texts |
| Servers.DigitCharInjective | apps/web/src/types/servers.ts:110 | different digits are different characters |
| ServerRegistry.HasIdSnoc | apps/web/src/hooks/use-servers.ts:26 | a list with one more server has an id exactly when the list or the new server has it |
| ServerRegistry.AllServers | apps/web/src/hooks/use-servers.ts:21-32 | the loop yields the merge of the stored and environment servers |
| ServerRegistry.Fresh | apps/web/src/hooks/use-servers.ts:25-29 | at most one addition per environment server |
| ServerRegistry.MergeSpec | apps/web/src/hooks/use-servers.ts:21-32 | the stored servers come first, unchanged and in order; every added one is an environment server whose id was not already there; every environment id ends up present; distinct ids stay distinct |
| ServerRegistry.FreshIgnores | apps/web/src/hooks/use-servers.ts:25-29 | adding a server with an id no environment server has does not change which environment servers are added |
| ServerRegistry.MergeOfDistinct | apps/web/src/hooks/use-servers.ts:21-32 | with distinct environment ids, the merge is the stored list followed by the environment servers whose ids it lacks |
| ServerRegistry.AllServersOfEnv | apps/web/src/hooks/use-servers.ts:21-32 | the same for the servers loaded from the environment |
| ServerRegistry.Find | apps/web/src/hooks/use-servers.ts:35-65 | a server is found exactly when one has the id, and it is the first such |
| ServerRegistry.Initial | apps/web/src/hooks/use-servers.ts:11-19 | the first load stores the default servers and makes the first one's id active, or "" when there is none |
| ServerRegistry.Add | apps/web/src/hooks/use-servers.ts:39-44 | the server is appended, stamped with its creation time; it becomes active only when no server was |
| ServerRegistry.Apply | apps/web/src/hooks/use-servers.ts:49 | each field is the update's when given and the server's otherwise |
| ServerRegistry.Update | apps/web/src/hooks/use-servers.ts:46-52 | servers with the id are merged with the update and the others kept, in place |
| ServerRegistry.UpdateAbsent | apps/web/src/hooks/use-servers.ts:46-52 | updating an id no server has changes nothing |
| ServerRegistry.UpdateIdempotent | apps/web/src/hooks/use-servers.ts:46-52 | updating twice is updating once, when the update keeps the id |
| ServerRegistry.Without | apps/web/src/hooks/use-servers.ts:55 | exactly the servers without that id are kept |
| ServerRegistry.WithoutAbsent | apps/web/src/hooks/use-servers.ts:55 | filtering out an id no server has keeps the list |
| ServerRegistry.WithoutSnoc | apps/web/src/hooks/use-servers.ts:55 | the filter works server by server, keeping order |
| ServerRegistry.Remove | apps/web/src/hooks/use-servers.ts:54-61 | no stored server keeps the id; removing the active server makes the first remaining one active, and otherwise the active id is kept |
| ServerRegistry.RemoveAfterAdd | apps/web/src/hooks/use-servers.ts:39-61 | removing a server just added under a new id restores the stored list |
| ServerRegistry.Touch | apps/web/src/hooks/use-servers.ts:67-71 | servers with the id get the last-used time and the others are kept, in place |
| ServerRegistry.SetActive | apps/web/src/hooks/use-servers.ts:63-72 | the id becomes active whether or not a stored server has it; only a stored one gets its last-used time set |
| ServerRegistry.SetActiveFinds | apps/web/src/hooks/use-servers.ts:34-72 | after making a stored server active, the active server is found and carries the new last-used time |
| ServerRegistry.MergePrefix | apps/web/src/hooks/use-servers.ts:21-32 | the merged list starts with the stored servers, unchanged |
| ServerRegistry.FindInPrefix | apps/web/src/hooks/use-servers.ts:34-37 | a lookup in a list that starts with a given list finds the same server as in that list, when it holds the id |
| ServerRegistry.FindTouched | apps/web/src/hooks/use-servers.ts:65-71 | after touching, the lookup finds the same server with the new last-used time |
| ServerRegistry.Reload | apps/web/src/hooks/use-servers.ts:78-83 | a non-empty environment list replaces the stored one, an empty one changes nothing, and the active id is kept |
| ServerRegistry.ServerStore.constructor | apps/web/src/hooks/use-servers.ts:11-19 | the store starts in the first-load state |
| ServerRegistry.ServerStore.Servers | apps/web/src/hooks/use-servers.ts:21-32 | the servers shown are the merge of the stored and environment servers |
| ServerRegistry.ServerStore.ActiveServer | apps/web/src/hooks/use-servers.ts:34-37 | the active server is the first shown server with the active id, or none |
| ServerRegistry.ServerStore.AddServer | apps/web/src/hooks/use-servers.ts:39-44 | the state becomes the result of adding the server |
| ServerRegistry.ServerStore.UpdateServer | apps/web/src/hooks/use-servers.ts:46-52 | the stored list is updated and the active id kept |
| ServerRegistry.ServerStore.RemoveServer | apps/web/src/hooks/use-servers.ts:54-61 | the state becomes the result of removing the id |
| ServerRegistry.ServerStore.SetActiveServer | apps/web/src/hooks/use-servers.ts:63-72 | the state becomes the result of making the id active |
| ServerRegistry.ServerStore.ReloadServers | apps/web/src/hooks/use-servers.ts:78-83 | the state becomes the result of reloading the environment list |
| ServersPage.CheckAdd | apps/web/src/pages/servers.tsx:27-43 | rejected with "Name and URL are required" exactly when the trimmed name or URL is empty, with the duplicate message exactly when a listed server has the trimmed URL; otherwise the server "server-" and the time, with the trimmed name and URL and the chosen color |
| ServersPage.AddKeepsUrlsDistinct | apps/web/src/pages/servers.tsx:33-43 | adding through the form keeps the listed URLs distinct |
| ServersPage.AddedUrlRejected | apps/web/src/pages/servers.tsx:33-43 | once a server is added, the form rejects the same trimmed URL as a duplicate |
| ServersPage.CheckDelete | apps/web/src/pages/servers.tsx:52-58 | deleting is refused exactly when at most one server is listed; otherwise the given id is scheduled |
| ServersPage.DisabledGuards | apps/web/src/pages/servers.tsx:53 | the delete button is disabled whenever the handler would refuse, and an enabled button schedules its server |
| ServersPage.RemovedFromList | apps/web/src/hooks/use-servers.ts:21-61 | after the removal the id is listed again exactly when an environment server has it |
| ServersPage.Page.constructor | apps/web/src/pages/servers.tsx:22-25 | the form starts empty with the default color and nothing being deleted |
| ServersPage.Page.HandleAdd | apps/web/src/pages/servers.tsx:27-50 | an accepted server is added to the store and the form cleared and closed; a rejected one changes nothing |
| ServersPage.Page.HandleDelete | apps/web/src/pages/servers.tsx:52-58 | the server is marked as being deleted exactly when the list has more than one server |
| ServersPage.Page.DeleteFired | apps/web/src/pages/servers.tsx:59-63 | the delayed removal removes the id from the store and clears the mark |
| SwrFetch.At | apps/web/src/hooks/use-sessions.ts:23 | destructuring reads the element at that position, and undefined past the end |
| SwrFetch.Arguments | apps/web/src/hooks/use-sessions.ts:15-27 | an array first argument supplies the URL and server URL as its first two elements; otherwise the two arguments are taken as given |
| SwrFetch.PairFormsAgree | apps/web/src/hooks/use-sessions.ts:15-27 | an SWR pair key and the same two values passed separately fetch the same URL for the same server |
| SwrFetch.ServerHeaders | apps/web/src/hooks/use-sessions.ts:32-35 | the server header is sent exactly when the server URL is truthy, with that URL as its value, and no header at all otherwise |
| SwrFetch.FetchCall | apps/web/src/hooks/use-sessions.ts:15-36 | the fetch goes to the resolved URL with exactly the headers the resolved server URL calls for |
| SwrFetch.ListResult | apps/web/src/hooks/use-sessions.ts:36-41 | a non-OK response fails with the fetcher's message; reading the body fails for a non-JSON, null or undefined body; otherwise the result is truthy, a plain array body is the list itself and an object's truthy `data` field is taken |
| SwrFetch.ItemResult | apps/web/src/hooks/use-sessions.ts:150-155 | the same failures; otherwise a non-object body is the result itself and an object's truthy `data` field is taken |
| SwrFetch.ListExtendsItem | apps/web/src/hooks/use-sessions.ts:41 | the list and item fetchers succeed on the same responses, and the list fetcher's result is the item's when truthy and an empty list otherwise |
| Sessions.SessionKey | apps/web/src/hooks/use-sessions.ts:162-165 | nothing is fetched exactly when there is no (non-empty) session id; otherwise the key is that session's URL and the server URL |
| Sessions.Urls | apps/web/src/hooks/use-sessions.ts:105 | the servers' URLs, one per server, in order |
| Sessions.RevalidatesSessionKeys | apps/web/src/hooks/use-sessions.ts:117-129 | the matcher revalidates the list key, every session key, the grouped key and every messages key, and nothing that is neither a string nor an array headed by a string |
| Sessions.StartsWithAppend | apps/web/src/hooks/use-sessions.ts:123-125 | a text starts with each of its prefixes |
| Sessions.ListResult | apps/web/src/hooks/use-sessions.ts:15-42 | the sessions list fails on a non-OK response with "Failed to fetch sessions" and is truthy when it succeeds |
| Sessions.SessionResult | apps/web/src/hooks/use-sessions.ts:132-156 | a single session fails on a non-OK response with "Failed to fetch session" |
| Sessions.GroupSessions | apps/web/src/hooks/use-sessions.ts:82-99 | a server's sessions are an empty list when its fetch threw or was not OK, always truthy, and the unwrapped body when it could be read |
| Sessions.AllSessions | apps/web/src/hooks/use-sessions.ts:80-101 | one group per server, in order, each with that server and its sessions as fetched with its own URL |
| Sessions.FailureIsolated | apps/web/src/hooks/use-sessions.ts:81-100 | a server whose fetch throws gets an empty group and every other server's group is unchanged |
| SessionMessages.HookKey | apps/web/src/hooks/use-session-messages.ts:62-69 | nothing is fetched exactly without a (non-empty) session id; otherwise the key pairs the messages URL with the server URL |
| SessionMessages.MessagesKeyInjective | apps/web/src/hooks/use-session-messages.ts:86-88 | different sessions have different message keys |
| SessionMessages.KeyMatchesSpec | apps/web/src/hooks/use-session-messages.ts:92-120 | a key matches exactly when it is the session's messages key or an array headed by it; the hook's key matches for every server URL; no key matches two sessions |
| SessionMessages.Mutate | apps/web/src/hooks/use-session-messages.ts:114-126 | a cache mutation keeps every key, leaves the entries the matcher rejects alone, and runs the updater on the data of each matching one |
| SessionMessages.AddMessage | apps/web/src/hooks/use-session-messages.ts:114-126 | the message is appended to every matching list, an undefined list counting as empty, and every other entry is unchanged |
| SessionMessages.Restore | apps/web/src/hooks/use-session-messages.ts:129-139 | the rollback sets every matching entry to the captured list and leaves the others alone |
| SessionMessages.CapturedIsLastMatch | apps/web/src/hooks/use-session-messages.ts:121-122 | the captured list is that of the last matching entry, an undefined one counting as empty |
| SessionMessages.RollbackSingleEntry | apps/web/src/hooks/use-session-messages.ts:103-140 | with a single matching entry, rolling back restores the cache entry to what it held, an undefined list coming back as empty |
| SessionMessages.RollbackAcrossServers | apps/web/src/hooks/use-session-messages.ts:114-139 | as written: with the session cached for two servers, the rollback gives the first server's entry the second server's old list |
| SessionMessages.Snapshot | apps/web/src/hooks/use-session-messages.ts:121-122 | the corrected capture: each entry's list as it was, entry by entry |
| SessionMessages.RestoreSnapshot | apps/web/src/hooks/use-session-messages.ts:129-139 | the corrected rollback sets each matching entry back to its own captured list and leaves the others alone |
| SessionMessages.SnapshotRollback | apps/web/src/hooks/use-session-messages.ts:103-140 | corrected: the per-entry rollback undoes the append exactly, however many servers cache the session |
| SessionMessages.Apply | apps/web/src/hooks/use-session-messages.ts:163 | the merged message takes each field from the update when given and from the message otherwise |
| SessionMessages.ApplyIdempotent | apps/web/src/hooks/use-session-messages.ts:163 | applying an update twice is applying it once |
| SessionMessages.UpdateList | apps/web/src/hooks/use-session-messages.ts:162-164 | the list keeps its length; messages with that id are merged with the update and the others kept |
| SessionMessages.UpdateMessage | apps/web/src/hooks/use-session-messages.ts:146-168 | every list cached under the session's key has the message updated, an undefined one staying undefined; every key is kept and every other entry is unchanged |
| SessionMessages.Updated | apps/web/src/hooks/use-session-messages.ts:160-165 | an undefined list stays undefined; a defined one is updated message by message |
| SessionMessages.RemoveList | apps/web/src/hooks/use-session-messages.ts:185 | exactly the messages without that id are kept |
| SessionMessages.RemoveListAppend | apps/web/src/hooks/use-session-messages.ts:185 | the filter keeps the order of the messages it keeps |
| SessionMessages.RemoveListAbsent | apps/web/src/hooks/use-session-messages.ts:185 | removing an id no message has changes nothing |
| SessionMessages.RemoveAfterAppend | apps/web/src/hooks/use-session-messages.ts:123 | removing a message appended under a fresh id gives the list back |
| SessionMessages.RemoveMessage | apps/web/src/hooks/use-session-messages.ts:173-189 | every list cached under the session's key loses the messages with that id, an undefined one staying undefined; every key is kept and every other entry is unchanged |
| SessionMessages.Removed | apps/web/src/hooks/use-session-messages.ts:183-186 | an undefined list stays undefined; a defined one loses the messages with that id |
| SessionMessages.AddThenRemove | apps/web/src/hooks/use-session-messages.ts:103-189 | appending an optimistic message with a fresh id and removing it again restores every cached defined list |
| SessionMessages.MessageCache.constructor | apps/web/src/hooks/use-session-messages.ts:114 | the cache holds the given entries |
| SessionMessages.MessageCache.AddOptimisticMessage | apps/web/src/hooks/use-session-messages.ts:103-126 | the message is appended to every matching entry, and the captured list is the last matching entry's old list |
| SessionMessages.MessageCache.Rollback | apps/web/src/hooks/use-session-messages.ts:129-139 | the matching entries are set to the captured list |
| SessionMessages.MessageCache.RollbackEach | apps/web/src/hooks/use-session-messages.ts:129-139 | corrected: each matching entry is set back to its own list from the snapshot, the others left alone |
| SessionMessages.MessageCache.UpdateOptimisticMessage | apps/web/src/hooks/use-session-messages.ts:146-168 | the matching entries' lists are updated message by message |
| SessionMessages.MessageCache.RemoveOptimisticMessage | apps/web/src/hooks/use-session-messages.ts:173-189 | the matching entries' lists lose the message |
| Sidebar.TruncateTitleSpec | apps/web/src/components/app-sidebar.tsx:110-114 | from a limit of 5 up, a title is kept exactly when it fits; a longer one becomes its first and last `halfLength` characters around "...", and never exceeds the limit |
| Sidebar.DefaultTruncation | apps/web/src/components/app-sidebar.tsx:110-114 | at the default limit of 40 a long title becomes its first 18 and last 18 characters around "...", 39 characters in all |
| Sidebar.TruncateAtThree | apps/web/src/components/app-sidebar.tsx:112-113 | as written: with a limit of 3, "abcd" becomes "...abcd", longer than the limit and than the title |
| Sidebar.TruncateTitleFixed | apps/web/src/components/app-sidebar.tsx:110-114 | corrected: a title within the limit is kept, and from a limit of 3 up a longer one becomes its first and last `halfLength` characters around "...", within the limit and different from the title |
| Sidebar.FixedAgrees | apps/web/src/components/app-sidebar.tsx:110-114 | the corrected truncation equals the written one from a limit of 5 up, so every label at the default limit is the same |
| Sidebar.SessionLabelSpec | apps/web/src/components/app-sidebar.tsx:263-266 | an untitled session is labelled "Session " and the first 8 characters of its id; a title that fits is shown as it is; no label exceeds 40 characters |
| Sidebar.ProjectName | apps/web/src/components/app-sidebar.tsx:86-89 | the project name is the worktree itself or its last "/"-piece |
| Sidebar.ProjectNameSpec | apps/web/src/components/app-sidebar.tsx:86-89 | for a worktree not ending in a slash, the name is the non-empty, slash-free text after its last slash; an empty worktree or one ending in a slash is shown whole |
| Sidebar.ProjectNameOfChild | apps/web/src/components/app-sidebar.tsx:86-89 | a project directly inside a folder is named after itself |
| Sidebar.ProjectNameTrailingSlash | apps/web/src/components/app-sidebar.tsx:88 | a worktree with a trailing slash is shown whole |
| Sidebar.ProjectLabel | apps/web/src/components/app-sidebar.tsx:98-100 | "Loading..." until the project is loaded, then its name |
| Sidebar.ProjectResult | apps/web/src/components/app-sidebar.tsx:60-84 | a non-OK response fails with "Failed to fetch"; otherwise the project fetcher unwraps like the single-session fetcher |
| Sidebar.NewSession.constructor | apps/web/src/components/app-sidebar.tsx:120 | no creation is in flight at first |
| Sidebar.NewSession.Start | apps/web/src/components/app-sidebar.tsx:126-128 | a creation starts exactly when none was in flight, and one is in flight afterwards |
| Sidebar.NewSession.Finish | apps/web/src/components/app-sidebar.tsx:150-152 | the in-flight flag is cleared whatever the outcome |
| ServerUrl.EnvServerUrl | apps/web/src/lib/server-url.ts:33-43 | the environment URL is never empty: the public variable when non-empty, else the server variable when non-empty, else "http://localhost:4000" |
| ServerUrl.ActiveServerUrl | apps/web/src/lib/server-url.ts:22-44 | as written: a non-empty header string is the URL, a header list gives its first value, an empty list gives undefined, and a missing or empty header gives the environment URL |
| ServerUrl.HeaderOverridesEnv | apps/web/src/lib/server-url.ts:25-41 | for a headers record carrying a truthy `x-active-server-url` value, the environment variables do not change the result |
| ServerUrl.EmptyListGivesUndefined | apps/web/src/lib/server-url.ts:27-28 | as written: an empty header list yields undefined instead of a URL |
| ServerUrl.ActiveServerUrlFixed | apps/web/src/lib/server-url.ts:22-44 | corrected: always a non-empty URL |
| ServerUrl.FixedAgrees | apps/web/src/lib/server-url.ts:22-44 | the corrected lookup is never empty, equals the written one wherever that gives a non-empty URL, and falls back to the environment for an empty list |
| ServerUrl.FetchRequestServerUrl | apps/web/src/lib/server-url.ts:49-52 | as written: for the Fetch `Request` the API catch-all route passes in, the URL is the environment's whatever headers the request carries |
| ServerUrl.FetchRequestIgnoresHeader | apps/web/src/lib/server-url.ts:25 | as written: a request whose headers name another server is still sent to the default server |
| ServerUrl.FetchRequestServerUrlFixed | apps/web/src/lib/server-url.ts:25-43 | corrected: the header's value read with `get` when non-empty, else the environment URL; never empty |
| ServerUrl.FixedRequestHonoursHeader | apps/web/src/lib/server-url.ts:25-30 | corrected: a request carrying the header, in any case, is routed by its value whatever the environment says; with the header repeated, the pair-list model takes the first pair where `Headers.get` would join the values with ", " |
| FetchWithServer.Get | apps/web/src/lib/fetch-with-server.ts:9 | a header is read exactly when some pair has that name in any case, and its value is that of such a pair (the first; the values of a repeated name are not joined as `Headers.get` joins them) |
| FetchWithServer.SetServerUrlHeader | apps/web/src/lib/fetch-with-server.ts:5-19 | the other options are kept; the headers are kept as they were when one is named `X-Active-Server-Url` in any case, and otherwise gain that header with the server URL |
| FetchWithServer.GetAppend | apps/web/src/lib/fetch-with-server.ts:11-13 | after appending a pair, an earlier pair of the name still wins |
| FetchWithServer.SetServerUrlHeaderSpec | apps/web/src/lib/fetch-with-server.ts:5-19 | afterwards the server header reads as the caller's value when given, else the server URL, and every other header reads as before |
| FetchWithServer.SetServerUrlHeaderIdempotent | apps/web/src/lib/fetch-with-server.ts:9-13 | setting the header again, with any URL, changes nothing |
| FetchWithServer.LowerCaseCallerHeaderKept | apps/web/src/lib/fetch-with-server.ts:9 | a caller's `x-active-server-url` header counts as the same header and is not overridden |
| FetchWithServer.ActiveUrl | apps/web/src/lib/fetch-with-server.ts:23 | the active server's URL, or "" without an active server |
| FetchWithServer.FetchOptions | apps/web/src/lib/fetch-with-server.ts:25-31 | the fetch passes the caller's options with the header set, or just the header when the caller gave none |
| FetchWithServer.EveryRequestNamesServer | apps/web/src/lib/fetch-with-server.ts:21-32 | every request carries the server header: the caller's when given, else the active server's URL |
| Primitive.FilterUndefinedProps | apps/web/src/lib/primitive.ts:40-48 | exactly the entries whose value is neither undefined nor null are kept |
| Primitive.FilterAppend | apps/web/src/lib/primitive.ts:43-47 | the filter works entry by entry, so it keeps the props' order |
| Primitive.FilterIdempotent | apps/web/src/lib/primitive.ts:40-48 | filtering filtered props changes nothing |
| Primitive.FalsyKept | apps/web/src/lib/primitive.ts:45 | false, 0 and the empty string are kept, although falsy |
| Primitive.JsArray.constructor | apps/web/src/lib/primitive.ts:23-25 | the array holds the given elements |
| Primitive.JsArray.Pop | apps/web/src/lib/primitive.ts:28 | `pop` removes and returns the last element, and returns undefined and changes nothing on an empty array |
| Primitive.Cx | apps/web/src/lib/primitive.ts:20-34 | the render value is the last argument (or the single array's last element) and the class values are the rest, in order; in the array form the caller's array is left holding just the class values |
| Base64.Symbol | apps/web/src/lib/docker-utils.ts:87-89 | every 6-bit value has an alphabet character |
| Base64.Value | apps/web/src/lib/docker-utils.ts:92-96 | a character has a 6-bit value exactly when it is in the alphabet |
| Base64.ValueOfSymbol | apps/web/src/lib/docker-utils.ts:87-96 | reading a character's value inverts choosing the character |
| Base64.Sextets | apps/web/src/lib/docker-utils.ts:87-89 | three bytes split into four values below 64 |
| Base64.OctetsOfSextets | apps/web/src/lib/docker-utils.ts:87-96 | regrouping the four values gives the three bytes back |
| Base64.Encode | apps/web/src/lib/docker-utils.ts:87-89 | the encoding has four characters for every started group of three bytes |
| Base64.EncodeAlphabet | apps/web/src/lib/docker-utils.ts:89-96 | the encoding holds only alphabet characters and '=', none of which needs quoting inside the double-quoted `echo` |
| Base64.Decode | apps/web/src/lib/docker-utils.ts:92-96 | the empty text decodes to no bytes and a length that is not a multiple of four does not decode |
| Base64.DecodeEncode | apps/web/src/lib/docker-utils.ts:86-96 | `base64 -d` of the encoding gives back exactly the bytes written |
| Base64.DecodeGroupThenRest | apps/web/src/lib/docker-utils.ts:86-96 | when the rest of the bytes survive the round trip, so do they with one more group of three in front |
| Utf8.EncodeChar | apps/web/src/lib/docker-utils.ts:89 | a code point takes one to four bytes, one exactly below U+0080, and every byte after the first is a continuation byte |
| Utf8.Encode | apps/web/src/lib/docker-utils.ts:89 | the encoding is at least as long as the text |
| Utf8.Decode | apps/web/src/lib/docker-utils.ts:165-167 | no bytes decode to the empty text |
| Utf8.DecodeEncodeChar | apps/web/src/lib/docker-utils.ts:89 | each code point's bytes form one complete sequence that decodes back to it |
| Utf8.DecodeEncode | apps/web/src/lib/docker-utils.ts:89 | decoding the encoding of a text gives the text back |
| Utf8.EncodeAscii | apps/web/src/lib/docker-utils.ts:89 | ASCII text encodes to one byte per character, with the same codes |
| Js.NonEmptyString | apps/web/src/pages/api/fs/content.ts:10-12 | the path guard passes exactly a non-empty string |
| Js.OrElse | apps/web/src/types/servers.ts:62-65 | `a \|\| b` on an optional string is `a` when it is a non-empty string and `b` otherwise |
| Js.Get | apps/web/src/hooks/use-sessions.ts:41 | reading a property fails exactly on undefined and null |
| Js.Unwrap | apps/web/src/hooks/use-sessions.ts:155 | `data.data \|\| data` fails exactly on undefined and null, and is the body or its truthy `data` field |
| Js.UnwrapList | apps/web/src/hooks/use-sessions.ts:41 | `data.data \|\| data \|\| []` fails exactly on undefined and null, and is truthy otherwise |
| Js.RelativeIndex | apps/web/src/components/app-sidebar.tsx:113 | a slice bound within the text is kept, a negative one counts from the end, and the result is clamped into the text |
| Js.Slice | apps/web/src/components/app-sidebar.tsx:113 | a slice is never longer than the text |
| Js.SliceFrom | apps/web/src/components/app-sidebar.tsx:113 | a slice is never longer than the text |
| Js.SliceLast | apps/web/src/components/app-sidebar.tsx:113 | `slice(-n)` keeps the last n characters, but `slice(-0)` and a too-large n keep the whole text |
| Text.LeadingSpace | apps/web/src/pages/servers.tsx:28 | the leading run of whitespace, and no longer |
| Text.TrailingSpace | apps/web/src/pages/servers.tsx:28 | the trailing run of whitespace, and no longer |
| Text.TrimSpec | apps/web/src/pages/servers.tsx:28 | the trimmed text is a slice with only whitespace around it, neither starting nor ending with whitespace, and empty exactly for an all-whitespace text |
| Text.TrimSlice | apps/web/src/pages/servers.tsx:28 | the trimmed text is the slice between the leading and trailing whitespace, empty exactly for an all-whitespace text |
| Text.IndexOfFrom | src/pages/api/terminal/ws.ts:94 | the first occurrence at or after the start, or none at all |
| Text.IndexOf | src/pages/api/terminal/ws.ts:94 | `indexOf` finds the first occurrence, and none exactly when there is none |
| Text.ReplaceFirst | apps/web/src/lib/docker-utils.ts:132-149 | a string pattern replaces only its first occurrence, and nothing without one |
| Text.ReplacePrefix | apps/web/src/lib/docker-utils.ts:132-149 | replacing a prefix swaps just that prefix |
| Text.SplitSpec | apps/web/src/pages/files.tsx:164 | joining the pieces of a split again gives the text back, and no piece holds the separator |
| Text.SplitJoin | apps/web/src/pages/files.tsx:289 | splitting a join of separator-free pieces gives the pieces back |
| Text.SplitAppend | apps/web/src/pages/files.tsx:164 | a split at a separator is the splits of the two sides |
| Text.SplitLastPiece | apps/web/src/components/app-sidebar.tsx:87-88 | the text is the join of all but the last piece, the separator and the last piece, which holds no separator |
| Text.CollapseSlashes | apps/web/src/pages/api/fs/directory.ts:56 | the collapsed text is no longer, empty exactly when the text is, and starts with a slash exactly when the text does |
| Text.CollapseSlashesSpec | apps/web/src/pages/api/fs/directory.ts:56 | collapsing leaves no doubled slash, keeps every other character in order, and collapsing again changes nothing |
| Text.DropSlashesLast | apps/web/src/pages/api/fs/directory.ts:56 | dropping the leading run of slashes from a text that ends in a slash leaves nothing or a text that still ends in one |
| Text.CollapseFixed | apps/web/src/pages/api/fs/directory.ts:56 | a text is left as it is exactly when it has no doubled slash |
| Text.CollapseTail | apps/web/src/pages/api/fs/directory.ts:56 | a slash-free tail after a slash is kept as it is |
| Text.NatToString | apps/web/src/pages/servers.tsx:39 | the decimal text is one or more digits |
| Text.AsciiLower | apps/web/src/lib/fetch-with-server.ts:11 | lower-casing shifts exactly the letters A to Z to a to z |

## Left out

- **I/O.** Sockets, `http.request`, `net.createConnection`, `fetch`, `existsSync`, the Socket.IO server and client, and the WebSocket object are left out. The model takes what they deliver as inputs: received chunks, statuses, events and command results.
- **Timers.**
  - The reconnect `setTimeout` is reduced to the delay it is given and the attempt count.
  - The 2-second delete delay of the servers page is reduced to a separate `DeleteFired` step.
  - The race between `fetch` and `setSocket` in the terminal context's `connect` is concurrency and is not modelled.
- **UTF-8 decoding.** The exec relay and the frame decoder decode each payload with a function parameter, as `toString` leaves ill-formed input to Node.
  - Utf8.Decode: a strict decoder, used only to state the round trip of what the code encodes. Node's lenient replacement of ill-formed bytes is not modelled.
- **URL parsing.** `new URL` becomes an optional protocol-and-host pair that the caller supplies. `encodeURIComponent` and `URLSearchParams` encoding are left out: query values are kept as the strings they encode.
- **Regular expressions.** Each pattern is restated as an explicit predicate or scan, not run by a regex engine. In the skills page patterns, `.` refuses the JavaScript line terminators, and `$` holds only at the end of the line. So a line that keeps the `\r` of a CRLF split does not match.
- **Numbers and lengths.**
  - JavaScript numbers are modelled as unbounded integers.
  - String lengths count code points, not UTF-16 units. This affects only the 1,000,000-character history cap and the title truncation, for text outside the Basic Multilingual Plane.
- **Headers objects.** `Headers` are modelled as a list of name/value pairs compared without regard to ASCII case. Its lower-cased storage, sorted iteration and combining of repeated names are left out.
- FsDirectory.ListPath: a repeated `?path=` makes `req.query.path` an array, which the route pushes into the `ls` argv as a single element. The request model holds an optional string path, so that input cannot be expressed.
- FsOperations.Plan: a request without a body makes the destructuring of `req.body` throw outside the `try`. The request model always has a body, so that input cannot be expressed.
- FetchWithServer.SetServerUrlHeader: `new Headers(...)` also trims leading and trailing whitespace from each value, and throws a TypeError for a name or value that is not a valid header; the pair list keeps values as given and never throws.
- ServerUrl.ActiveServerUrl: models a headers record as Node hands it over. Its only caller passes a Fetch `Request`, whose indexed lookup is always undefined; that path is `ServerUrl.FetchRequestServerUrl`, listed under Findings.
- DockerUtils.ReadWhatWasWritten: says nothing of a path holding `"`, `$`, a backquote or a backslash. The source puts the path between double quotes in an `sh -c` script without escaping, so for such a path the shell expands it (`/workspace/a$b` is written to `/workspace/a`) or runs further commands (a path containing `"; touch /tmp/p; echo "`). `DockerUtils.WriteFileCommand` builds that script for every path the file-content and upload routes pass on, and `readFile` then reads a different file.
- DockerUtils.WriteFileCommand: the whole base64 text is one argument of the `sh -c` argv. Linux refuses a single argument longer than 128 KiB (MAX_ARG_STRLEN), so in the source a write, upload or skill whose encoding exceeds that fails at exec time. The model has no such limit.
- ServerRegistry.Apply: an update field is either absent or a value. `{...server, ...updates}` also copies a field that is present but `undefined`, which the model cannot express.
- SessionMessages.Apply: the same holds for message updates: a present but `undefined` field is not modelled.
- **Foreign code.** The following are outside the model:
  - `twMerge` and `composeRenderProps`, whose arguments `Cx` hands on;
  - `createOpencodeClient`, so `createClientWithActiveServer` is not modelled;
  - SWR's cache internals. `mutate` is modelled as applying the updater to every matching cache entry, and revalidation is left out, so the `revalidate: false` options have no counterpart;
  - localStorage, page reloads, routing and toasts;
  - the in-container binaries `ls`, `find`, `head`, `cat` and `base64`, which are represented by their argv and their results.
- **Bytes.** Bytes are a `Byte` subset of the integers 0..255 rather than `bv8`. Only the frame header's big-endian length does arithmetic on them.
- **Time.** `Date.now()` is passed in as a parameter.
- **Unused code.** The unused module-level `activeServerUrlCache` of `fetch-with-server.ts` is not modelled.
- **Environment slots.** `loadServersFromEnv` lists its five slots by hand. The model takes the slots as a list, so the bound of five is that list's length.
- SkillsCreate.Handle: for an array content with a string, array or object element, and for an object content with a `valueOf`, `length` or `type` key, what `Buffer.from` makes of it (string-to-number conversion, array-like and serialised-Buffer objects) is not followed: the outcome there is `ContentNotFollowed`, after the mkdir has run. A non-string name is fully modelled: `name.replace` throws outside the `try`, so the route runs no command and does not reply itself (`Threw`); the framework's own error reply is not part of this model.
- **OpenCode relay.** The file imports no WebSocket package, so `WebSocket` is the runtime's global. Where that global has no `.on` (the WHATWG socket of Node 22 and later), every `.on` call throws after the cell is assigned. That is the as-written path, `OpenCodeRelay.AttemptGlobal` with `SocketState`, in the Findings table. Where there is no global, the constructor throws a ReferenceError, which is the `created = false` case. The listener functions and the `Connection` class describe the relay on a socket with `.on`, as the `ws` package's. Whether the URL is accepted (an `http:` default URL, say) is the `created` parameter; a socket left open by a replaced cell is not tracked.
- **Behaviour the code lacks.** The code has no handshake timeout, no exec retry and no frame demultiplexing on the live terminal path. The model adds none of them.
- Sidebar.SessionLabel: it uses `TruncateTitleFixed`. That function equals the written `truncateTitle` at the label's limit of 40, as `Sidebar.FixedAgrees` proves.
- **Where the model follows the code rather than its comments and documentation.**
  - The comment of `getActiveServerUrl` lists only `OPENCODE_SERVER_URL`, but the code tries `NEXT_PUBLIC_OPENCODE_SERVER_URL` first. The model follows the code.
  - A client disconnect does not cancel a scheduled reconnect of the OpenCode relay. A final Docker frame shorter than its declared length is kept rather than dropped, because `slice` clamps. The model follows the code in both.

## Findings

| source | as written | input that shows it | evidently intended | confidence | as-written member | corrected member |
|---|---|---|---|---|---|---|
| apps/web/src/hooks/use-session-messages.ts:114-139 | `previousMessages` is one variable, reassigned for every matching cache entry, and the rollback writes it to all of them | the same session cached under two server URLs with different lists: after the rollback both hold the second server's old list | each entry gets back the list it held before the append | medium, not executed | SessionMessages.RollbackAcrossServers | SessionMessages.SnapshotRollback |
| apps/web/src/components/app-sidebar.tsx:112-113 | the tail is `title.slice(-halfLength)`, and `-0` is `0` | `truncateTitle("abcd", 3)` gives "...abcd", 7 characters for a limit of 3 | the last `halfLength` characters, none when that is zero | low (the limit is always 40 in the code), not executed | Sidebar.TruncateAtThree | Sidebar.TruncateTitleFixed |
| apps/web/src/lib/server-url.ts:27-28 | an array header is truthy even when empty, and its first element is returned | a request whose `x-active-server-url` header value is an empty array gives `undefined` | fall back to the environment URL, as for a missing header | low (Node's `IncomingMessage.headers` gives this header as one string even when it is repeated, joining the values with ", "; only `set-cookie` is a list, so an array comes only from a record built by other code), not executed | ServerUrl.EmptyListGivesUndefined | ServerUrl.ActiveServerUrlFixed |
| apps/web/src/lib/server-url.ts:49-52 | the API catch-all route (`getOpenCodeClient`) hands the Fetch `Request` to `createClientWithActiveServer` cast to a Node request, and `getActiveServerUrl` indexes its `headers` | any API request whose `x-active-server-url` header names a server other than the environment's: it is sent to the environment's server | read the header with `headers.get`, so the request goes to the server it names | medium (a `Headers` object has no indexed header properties), not executed | ServerUrl.FetchRequestIgnoresHeader | ServerUrl.FetchRequestServerUrlFixed |
| apps/web/src/pages/api/terminal/ws.ts:60-68 | the relay calls `.on` on a socket of the runtime's global `WebSocket`, which has no `.on` on Node 22 and later: the call throws after the cell is assigned, the catch schedules a retry, and no listener is registered | any connection: three sockets are created, the last one takes input once it opens, and the client never gets `connected` or any output | a socket with `.on` listeners (the `ws` package), so the open event resets the counter and upstream messages reach the client | medium (depends on the Node version the server runs on), not executed | OpenCodeRelay.GlobalSocketIsSilent | OpenCodeRelay.InputAfterOpen |
