/** The replies of the API routes: a status and a JSON body (or, for file
    contents, the raw text), and the two stages of a route handler: either
    an immediate reply or a command to run in the workspace container. */
module Http {
  import opened Results

  /** The bodies the routes send. `Content` carries a route's own payload. */
  datatype Body<+T> =
    | Message(message: string)
    | Success
    | Failure(message: string, error: string)
    | Content(value: T)

  datatype Reply<+T> = Reply(status: nat, body: Body<T>)

  /** What a handler does after its checks: reply at once, or run a
      command and reply from its outcome. */
  datatype Step<+T> = Respond(reply: Reply<T>) | Run(cmd: seq<string>)

  function MethodNotAllowed<T>(): Reply<T> {
    Reply(405, Message("Method not allowed"))
  }

  function BadRequest<T>(message: string): Reply<T> {
    Reply(400, Message(message))
  }
}
