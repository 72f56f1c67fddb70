/** The file operation route of apps/web/src/pages/api/fs/operations.ts:
    rename, delete or create a directory in the workspace container. */
module FsOperations {
  import opened Results
  import Js
  import opened Http

  /** The request method and the body's three fields, as sent. */
  datatype Request = Request(verb: string, action: Js.Value, path: Js.Value, destination: Js.Value)

  /** The paths a delete refuses, compared as strings. */
  predicate Protected(path: string) {
    path == "/" || path == "/workspace" || path == "/home"
  }

  /** The handler up to the command. */
  function Plan(req: Request): (s: Step<()>)
    ensures req.verb != "POST" ==> s == Respond(MethodNotAllowed())
    ensures req.verb == "POST" && Js.NonEmptyString(req.path).None? ==> s == Respond(BadRequest("path is required"))
    ensures s.Run? <==>
      req.verb == "POST" && req.path.Str? && req.path.s != "" &&
      ((req.action == Js.Str("rename") && req.destination.Str? && req.destination.s != "") ||
       (req.action == Js.Str("delete") && !Protected(req.path.s)) ||
       req.action == Js.Str("mkdir"))
    ensures s.Run? && req.action == Js.Str("rename") ==> s.cmd == ["mv", req.path.s, req.destination.s]
    ensures s.Run? && req.action == Js.Str("delete") ==> s.cmd == ["rm", "-rf", req.path.s]
    ensures s.Run? && req.action == Js.Str("mkdir") ==> s.cmd == ["mkdir", "-p", req.path.s]
  {
    if req.verb != "POST" then Respond(MethodNotAllowed())
    else match Js.NonEmptyString(req.path)
      case None => Respond(BadRequest("path is required"))
      case Some(path) =>
        if req.action == Js.Str("rename") then
          match Js.NonEmptyString(req.destination)
          case None => Respond(BadRequest("destination is required for rename"))
          case Some(destination) => Run(["mv", path, destination])
        else if req.action == Js.Str("delete") then
          if Protected(path) then Respond(BadRequest("Cannot delete protected paths"))
          else Run(["rm", "-rf", path])
        else if req.action == Js.Str("mkdir") then Run(["mkdir", "-p", path])
        else Respond(BadRequest("Invalid action"))
  }

  /** The reply once the command has run (or failed). */
  function Complete(result: Result<string, string>): (r: Reply<()>)
    ensures result.Ok? ==> r == Reply(200, Success)
    ensures result.Err? ==> r == Reply(500, Failure("Operation failed", result.error))
  {
    if result.Ok? then Reply(200, Success) else Reply(500, Failure("Operation failed", result.error))
  }

  /** A protected path is never removed, whatever else the request says;
      the 405 and 400 replies every other request meets are the only
      replies without a command. */
  lemma NeverDeletesProtected(req: Request)
    requires req.path.Str? && Protected(req.path.s)
    ensures Plan(req).Run? ==> Plan(req).cmd[0] != "rm"
    ensures req.verb == "POST" && req.action == Js.Str("delete") ==>
      Plan(req) == Respond(BadRequest("Cannot delete protected paths"))
  {
  }

  /** Every command acts on the request's path: it is an argument the
      shell does not see, passed as is. */
  lemma CommandTakesPath(req: Request)
    requires Plan(req).Run?
    ensures req.path.s in Plan(req).cmd
    ensures |Plan(req).cmd| == 3 && Plan(req).cmd[0] in {"mv", "rm", "mkdir"}
  {
    var cmd := Plan(req).cmd;
    if req.action == Js.Str("rename") {
      assert cmd[1] == req.path.s;
    } else if req.action == Js.Str("delete") {
      assert cmd[2] == req.path.s;
    } else {
      assert cmd[2] == req.path.s;
    }
  }
}
