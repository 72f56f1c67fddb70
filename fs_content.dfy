/** The file content route of apps/web/src/pages/api/fs/content.ts: read
    a file with GET, write it with POST. */
module FsContent {
  import opened Results
  import Js
  import opened Http
  import opened DockerUtils

  datatype Request = Request(verb: string, path: Js.Value, content: Js.Value)

  /** The handler up to the command: the path is checked before the
      method. */
  function Plan(req: Request): (s: Step<string>)
    ensures Js.NonEmptyString(req.path).None? ==> s == Respond(BadRequest("path is required"))
    ensures Js.NonEmptyString(req.path).Some? && req.verb == "GET" ==> s == Run(ReadFileCommand(req.path.s))
    ensures Js.NonEmptyString(req.path).Some? && req.verb == "POST" && !req.content.Str? ==>
      s == Respond(BadRequest("content is required"))
    ensures Js.NonEmptyString(req.path).Some? && req.verb == "POST" && req.content.Str? ==>
      s == Run(WriteFileCommand(req.path.s, TextInput(req.content.s)))
    ensures Js.NonEmptyString(req.path).Some? && req.verb != "GET" && req.verb != "POST" ==>
      s == Respond(MethodNotAllowed())
  {
    match Js.NonEmptyString(req.path)
    case None => Respond(BadRequest("path is required"))
    case Some(path) =>
      if req.verb == "GET" then Run(ReadFileCommand(path))
      else if req.verb == "POST" then
        if !req.content.Str? then Respond(BadRequest("content is required"))
        else Run(WriteFileCommand(path, TextInput(req.content.s)))
      else Respond(MethodNotAllowed())
  }

  /** The reply once the command has run: the file's text for a read,
      `{success: true}` for a write. */
  function Complete(req: Request, result: Result<string, string>): (r: Reply<string>)
    ensures result.Err? ==> r == Reply(500, Failure("Failed to access file", result.error))
    ensures result.Ok? && req.verb == "GET" ==> r == Reply(200, Content(result.value))
    ensures result.Ok? && req.verb != "GET" ==> r == Reply(200, Success)
  {
    match result
    case Err(e) => Reply(500, Failure("Failed to access file", e))
    case Ok(out) => if req.verb == "GET" then Reply(200, Content(out)) else Reply(200, Success)
  }

  /** A write stores exactly the posted text: the command's payload
      decodes back to its UTF-8 bytes and those to the text, even when
      the text is empty. */
  lemma WriteStoresContent(req: Request)
    requires Plan(req).Run? && req.verb == "POST"
    ensures var arg := EchoArgument(Plan(req).cmd[2]);
      arg.Some? && Base64.Decode(arg.value) == Some(Utf8.Encode(req.content.s)) &&
      Utf8.Decode(Base64.Decode(arg.value).value) == Some(req.content.s)
  {
    WriteFileRoundTrip(req.path.s, TextInput(req.content.s));
  }
}
