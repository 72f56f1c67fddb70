/** What the two terminal relay endpoints share: the events they emit to a
    Socket.IO client, and the guard that installs their Socket.IO server on
    the HTTP server at most once. */
module SocketEvents {
  import opened Results

  /** An event emitted to the browser's socket. `Connected` carries the
      container id or the server URL the relay reached (null: None). */
  datatype Event =
    | Log(text: string)
    | Connected(target: Option<string>)
    | Output(data: string)
    | Disconnected(code: int, reason: string)
    | Error(message: string)

  /** The `server.io` slot of the HTTP server. Every request to the
      endpoint runs the handler; only the first one installs a server. */
  class Gateway {
    var installed: bool
    var installs: nat

    ghost predicate Valid()
      reads this
    {
      installs == if installed then 1 else 0
    }

    constructor ()
      ensures Valid() && !installed && installs == 0
    {
      installed := false;
      installs := 0;
    }

    /** The handler: creates and stores a server only when none is stored. */
    method Handle()
      requires Valid()
      modifies this
      ensures Valid() && installed
      ensures installs == if old(installed) then old(installs) else old(installs) + 1
      ensures installs <= 1
    {
      if !installed {
        installs := installs + 1;
        installed := true;
      }
    }
  }
}
