/** The upload route of apps/web/src/pages/api/fs/upload.ts: the raw
    request body, gathered chunk by chunk, is written to the path. */
module FsUpload {
  import opened Results
  import opened Bytes
  import Js
  import opened Http
  import opened DockerUtils

  datatype Request = Request(verb: string, path: Js.Value)

  /** A body chunk as the stream yields it. */
  datatype Chunk = TextChunk(text: string) | BufferChunk(bytes: seq<Byte>)

  /** `typeof chunk === "string" ? Buffer.from(chunk) : chunk`. */
  function ChunkBuffer(chunk: Chunk): seq<Byte> {
    match chunk
    case TextChunk(t) => Utf8.Encode(t)
    case BufferChunk(b) => b
  }

  /** The buffers of the chunks, in arrival order. */
  function Buffers(chunks: seq<Chunk>): (r: seq<seq<Byte>>)
    ensures |r| == |chunks|
    ensures forall k | 0 <= k < |chunks| :: r[k] == ChunkBuffer(chunks[k])
  {
    if |chunks| == 0 then [] else Buffers(chunks[..|chunks| - 1]) + [ChunkBuffer(chunks[|chunks| - 1])]
  }

  /** The checks before the body is read: the method, then the path. */
  function Check(req: Request): (r: Option<Reply<()>>)
    ensures req.verb != "POST" ==> r == Some(MethodNotAllowed())
    ensures req.verb == "POST" && Js.NonEmptyString(req.path).None? ==> r == Some(BadRequest("path query param is required"))
    ensures r.None? <==> req.verb == "POST" && req.path.Str? && req.path.s != ""
  {
    if req.verb != "POST" then Some(MethodNotAllowed())
    else if Js.NonEmptyString(req.path).None? then Some(BadRequest("path query param is required"))
    else None
  }

  /** The reading loop and `Buffer.concat`: the file's bytes. */
  method ReadBody(received: seq<Chunk>) returns (fileBuffer: seq<Byte>)
    ensures fileBuffer == Flatten(Buffers(received))
  {
    var chunks: seq<seq<Byte>> := [];
    var index := 0;
    while index < |received|
      invariant index <= |received|
      invariant chunks == Buffers(received[..index])
    {
      var chunk := received[index];
      assert received[..index + 1][..index] == received[..index];
      chunks := chunks + [if chunk.TextChunk? then Utf8.Encode(chunk.text) else chunk.bytes];
      index := index + 1;
    }
    assert received[..index] == received;
    fileBuffer := Flatten(chunks);
  }

  /** The command that writes the gathered bytes. */
  function WriteCommand(req: Request, received: seq<Chunk>): seq<string>
    requires Check(req).None?
  {
    WriteFileCommand(req.path.s, BufferInput(Flatten(Buffers(received))))
  }

  function Complete(result: Result<string, string>): (r: Reply<()>)
    ensures result.Ok? ==> r == Reply(200, Success)
    ensures result.Err? ==> r == Reply(500, Failure("Upload failed", result.error))
  {
    if result.Ok? then Reply(200, Success) else Reply(500, Failure("Upload failed", result.error))
  }

  lemma {:induction false} FlattenAppend(a: seq<seq<Byte>>, b: seq<seq<Byte>>)
    ensures Flatten(a + b) == Flatten(a) + Flatten(b)
  {
    if |a| > 0 {
      assert (a + b)[1..] == a[1..] + b;
      FlattenAppend(a[1..], b);
    } else {
      assert a + b == b;
    }
  }

  /** The file is the chunks' bytes one after the other: the bytes of
      later chunks follow those of earlier ones. */
  lemma ChunksInOrder(first: seq<Chunk>, later: seq<Chunk>)
    ensures Flatten(Buffers(first + later)) == Flatten(Buffers(first)) + Flatten(Buffers(later))
  {
    assert Buffers(first + later) == Buffers(first) + Buffers(later);
    FlattenAppend(Buffers(first), Buffers(later));
  }

  /** The written file holds exactly the bytes received: the command's
      payload decodes back to them. */
  lemma UploadStoresBody(req: Request, received: seq<Chunk>)
    requires Check(req).None?
    ensures var arg := EchoArgument(WriteCommand(req, received)[2]);
      arg.Some? && Base64.Decode(arg.value) == Some(Flatten(Buffers(received)))
  {
    WriteFileRoundTrip(req.path.s, BufferInput(Flatten(Buffers(received))));
  }
}
