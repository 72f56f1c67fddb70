/** The skill creation route of apps/web/src/pages/api/skills/create.ts:
    the name is reduced to a safe file name, the skill directory is
    created, and the content is written there as a Markdown file. */
module SkillsCreate {
  import opened Results
  import opened Bytes
  import opened Text
  import Js
  import opened Http
  import opened DockerUtils
  import SkillsList

  const SkillsDir := "/workspace/.opencode/skills"

  datatype Request = Request(verb: string, name: Js.Value, content: Js.Value)

  /** What the handler did.
      - `Replied`: the commands it ran, in order, and its reply. A
        successful reply's content is the path of the new file (the body
        `{success: true, path}`).
      - `Threw`: `name.replace` threw because the name is not a string.
        The call sits before the `try`, so no command runs and the route
        does not reply itself.
      - `ContentNotFollowed`: the directory was created, and the content is
        a kind whose conversion by `Buffer.from` this model does not follow
        (see `BufferFrom`). */
  datatype Outcome =
    | Replied(commands: seq<seq<string>>, reply: Reply<string>)
    | Threw
    | ContentNotFollowed

  // ---------------------------------------------------------------------
  // The file name

  /** The characters the sanitiser keeps: ASCII letters, digits, '-' and '_'. */
  predicate Kept(c: char) {
    'a' <= c <= 'z' || 'A' <= c <= 'Z' || '0' <= c <= '9' || c == '-' || c == '_'
  }

  /** The characters a safe name is made of. */
  predicate Safe(c: char) {
    'a' <= c <= 'z' || '0' <= c <= '9' || c == '-' || c == '_'
  }

  /** ASCII lower-casing, which is all `toLowerCase` does to kept characters. */
  function Lower(c: char): (r: char)
    ensures Kept(c) ==> Safe(r)
    ensures Safe(c) ==> r == c
  {
    AsciiLower(c)
  }

  /** The name with every character outside [a-zA-Z0-9-_] removed, then
      lower-cased. */
  function SafeName(name: string): (r: string)
    ensures |r| <= |name|
    ensures forall i | 0 <= i < |r| :: Safe(r[i])
  {
    if |name| == 0 then ""
    else (if Kept(name[0]) then [Lower(name[0])] else "") + SafeName(name[1..])
  }

  /** Sanitising works character by character. */
  lemma {:induction false} SafeNameAppend(a: string, b: string)
    ensures SafeName(a + b) == SafeName(a) + SafeName(b)
  {
    if |a| == 0 {
      assert a + b == b;
    } else {
      assert (a + b)[1..] == a[1..] + b;
      SafeNameAppend(a[1..], b);
    }
  }

  /** A name is left unchanged exactly when it is already safe. */
  lemma {:induction false} SafeNameFixed(name: string)
    ensures SafeName(name) == name <==> forall i | 0 <= i < |name| :: Safe(name[i])
  {
    if |name| > 0 {
      SafeNameFixed(name[1..]);
      if Kept(name[0]) && Lower(name[0]) == name[0] && SafeName(name[1..]) == name[1..] {
        assert name == [name[0]] + name[1..];
      }
      if SafeName(name) == name {
        assert Kept(name[0]);
        assert SafeName(name[1..]) == name[1..];
      }
    }
  }

  /** Sanitising twice changes nothing. */
  lemma SafeNameIdempotent(name: string)
    ensures SafeName(SafeName(name)) == SafeName(name)
  {
    SafeNameFixed(SafeName(name));
  }

  /** The file the skill is written to. With an empty safe name it is the
      hidden file ".md" in the skill directory. */
  function FilePath(safeName: string): string {
    SkillsDir + "/" + safeName + ".md"
  }

  /** The listing route names the created file after the safe name. */
  lemma CreatedSkillName(name: string)
    ensures SkillsList.SkillName(FilePath(SafeName(name))) == SafeName(name)
    ensures SkillsDir == SkillsList.LocalSkillsPath
  {
    var safe := SafeName(name);
    assert '/' !in safe && '.' !in safe by {
      forall i | 0 <= i < |safe| ensures safe[i] != '/' && safe[i] != '.' {
        assert Safe(safe[i]);
      }
    }
    SkillsList.SkillNameOfFile(SkillsDir, safe);
  }

  // ---------------------------------------------------------------------
  // The content's bytes

  /** What `Buffer.from(content)` gives for a value of a JSON body. */
  datatype Conversion =
    | Converted(input: Input)  // the bytes that are written
    | Throws                   // a TypeError, caught by the `try`
    | Unfollowed               // a conversion this model does not follow

  /** One array element stored into a byte: JavaScript's ToUint8, which
      takes the number modulo 256; true is 1, false 0, and null and
      undefined (0 and NaN) are 0. Strings, arrays and objects go through
      string-to-number conversion, which is not modelled. */
  function ElementByte(v: Js.Value): (r: Option<Byte>)
    ensures r.Some? <==> !(v.Str? || v.Arr? || v.Obj?)
    ensures v.Num? ==> r == Some((v.n % 256) as Byte)
    ensures v.Bool? ==> r == Some(if v.b then 1 else 0)
  {
    match v
    case Num(n) => Some((n % 256) as Byte)
    case Bool(b) => Some(if b then 1 else 0)
    case Null => Some(0)
    case Undefined => Some(0)
    case _ => None
  }

  /** The bytes of an array's elements, if every element converts. */
  function ElementBytes(items: seq<Js.Value>): (r: Option<seq<Byte>>)
    ensures r.Some? <==> forall i | 0 <= i < |items| :: ElementByte(items[i]).Some?
    ensures r.Some? ==> |r.value| == |items|
    ensures r.Some? ==> forall i | 0 <= i < |items| :: r.value[i] == ElementByte(items[i]).value
  {
    if |items| == 0 then Some([])
    else
      match (ElementByte(items[0]), ElementBytes(items[1..]))
      case (Some(b), Some(bs)) =>
        assert forall i | 1 <= i < |items| :: items[i] == items[1..][i - 1];
        Some([b] + bs)
      case (None, _) => None
      case (_, None) =>
        assert forall i | 0 <= i < |items| - 1 :: items[1..][i] == items[i + 1];
        None
  }

  /** Keys through which a JSON object can take another path in
      `Buffer.from`: an own `valueOf`, an array-like `length`, or the
      `{type: "Buffer", data}` shape. */
  predicate SpecialKey(key: string) {
    key == "valueOf" || key == "length" || key == "type"
  }

  /** `Buffer.from` on the value of the `content` field: a string gives
      its UTF-8 bytes; an array is taken element by element; a number, a
      boolean, null, undefined or a plain object throws a TypeError. */
  function BufferFrom(content: Js.Value): (r: Conversion)
    ensures content.Str? ==> r == Converted(TextInput(content.s))
    ensures (content.Num? || content.Bool? || content.Null? || content.Undefined?) ==> r == Throws
    ensures content.Obj? ==>
      (r == Throws <==> forall i | 0 <= i < |content.entries| :: !SpecialKey(content.entries[i].0))
    ensures content.Obj? ==> r == Throws || r == Unfollowed
    ensures content.Arr? ==>
      (r.Converted? <==> forall i | 0 <= i < |content.items| :: ElementByte(content.items[i]).Some?)
    ensures content.Arr? && r.Converted? ==>
      r.input.BufferInput? && |r.input.bytes| == |content.items| &&
      forall i | 0 <= i < |content.items| :: r.input.bytes[i] == ElementByte(content.items[i]).value
    ensures content.Arr? ==> r.Converted? || r.Unfollowed?
  {
    match content
    case Str(s) => Converted(TextInput(s))
    case Arr(items) =>
      var bytes := ElementBytes(items);
      if bytes.Some? then Converted(BufferInput(bytes.value)) else Unfollowed
    case Obj(entries) =>
      if exists i | 0 <= i < |entries| :: SpecialKey(entries[i].0) then Unfollowed else Throws
    case _ => Throws
  }

  // ---------------------------------------------------------------------
  // The handler

  function MkdirCommand(): seq<string> {
    ["mkdir", "-p", SkillsDir]
  }

  /** The handler, given what each command it runs returns and the message
      of the TypeError `Buffer.from` throws for a value it refuses. */
  function Handle(req: Request, exec: seq<string> -> Result<string, string>,
                  bufferError: Js.Value -> string): (o: Outcome)
    ensures req.verb != "POST" ==> o == Replied([], MethodNotAllowed())
    ensures req.verb == "POST" && (!Js.Truthy(req.name) || !Js.Truthy(req.content)) ==>
      o == Replied([], BadRequest("Name and content are required"))
    ensures o.Threw? <==>
      req.verb == "POST" && Js.Truthy(req.name) && Js.Truthy(req.content) && !req.name.Str?
    ensures o.ContentNotFollowed? <==>
      req.verb == "POST" && Js.Truthy(req.name) && Js.Truthy(req.content) && req.name.Str? &&
      exec(MkdirCommand()).Ok? && BufferFrom(req.content).Unfollowed?
    ensures o.Replied? && o.commands != [] ==>
      o.commands[0] == MkdirCommand() && |o.commands| <= 2 && req.name.Str?
    ensures o.Replied? && |o.commands| == 2 ==>
      exec(MkdirCommand()).Ok? && BufferFrom(req.content).Converted? &&
      o.commands[1] == WriteFileCommand(FilePath(SafeName(req.name.s)), BufferFrom(req.content).input)
    ensures o.Replied? && o.reply.status == 200 ==>
      |o.commands| == 2 && exec(o.commands[1]).Ok? &&
      o.reply.body == Content(FilePath(SafeName(req.name.s)))
    ensures o.Replied? && o.commands != [] && o.reply.status != 200 ==>
      o.reply.status == 500 && o.reply.body.Failure? &&
      o.reply.body.message == "Failed to create skill" &&
      (exec(Last(o.commands)).Err? ==> o.reply.body.error == exec(Last(o.commands)).error) &&
      (exec(Last(o.commands)).Ok? ==>
         o.commands == [MkdirCommand()] && BufferFrom(req.content).Throws? &&
         o.reply.body.error == bufferError(req.content))
  {
    if req.verb != "POST" then Replied([], MethodNotAllowed())
    else if !Js.Truthy(req.name) || !Js.Truthy(req.content) then
      Replied([], BadRequest("Name and content are required"))
    else if !req.name.Str? then Threw
    else
      var filePath := FilePath(SafeName(req.name.s));
      match exec(MkdirCommand())
      case Err(e) => Replied([MkdirCommand()], Reply(500, Failure("Failed to create skill", e)))
      case Ok(_) =>
        match BufferFrom(req.content)
        case Throws =>
          Replied([MkdirCommand()], Reply(500, Failure("Failed to create skill", bufferError(req.content))))
        case Unfollowed => ContentNotFollowed
        case Converted(input) =>
          var write := WriteFileCommand(filePath, input);
          match exec(write)
          case Err(e) => Replied([MkdirCommand(), write], Reply(500, Failure("Failed to create skill", e)))
          case Ok(_) => Replied([MkdirCommand(), write], Reply(200, Content(filePath)))
  }

  /** A content `Buffer.from` refuses (a number, `true`, a plain object) is
      only refused inside the `try`: the directory has been created by then,
      and the reply is 500 with the TypeError's message. */
  lemma RefusedContentAfterMkdir(req: Request, exec: seq<string> -> Result<string, string>,
                                 bufferError: Js.Value -> string)
    requires req.verb == "POST" && req.name.Str? && req.name.s != "" && Js.Truthy(req.content)
    requires BufferFrom(req.content).Throws? && exec(MkdirCommand()).Ok?
    ensures Handle(req, exec, bufferError) ==
      Replied([MkdirCommand()], Reply(500, Failure("Failed to create skill", bufferError(req.content))))
  {
  }

  /** A created skill holds exactly the posted content: the write command's
      payload decodes to the bytes `Buffer.from` made of it, which for a
      string decode back to the text and for an array are its elements
      taken as bytes. */
  lemma CreateStoresContent(req: Request, exec: seq<string> -> Result<string, string>,
                            bufferError: Js.Value -> string)
    requires Handle(req, exec, bufferError).Replied? && |Handle(req, exec, bufferError).commands| == 2
    ensures var arg := EchoArgument(Handle(req, exec, bufferError).commands[1][2]);
      arg.Some? && Base64.Decode(arg.value) == Some(ContentBytes(BufferFrom(req.content).input))
    ensures var arg := EchoArgument(Handle(req, exec, bufferError).commands[1][2]);
      req.content.Str? ==>
        Base64.Decode(arg.value) == Some(Utf8.Encode(req.content.s)) &&
        Utf8.Decode(Base64.Decode(arg.value).value) == Some(req.content.s)
    ensures var arg := EchoArgument(Handle(req, exec, bufferError).commands[1][2]);
      req.content.Arr? ==>
        var bytes := Base64.Decode(arg.value).value;
        |bytes| == |req.content.items| &&
        forall i | 0 <= i < |bytes| :: bytes[i] == ElementByte(req.content.items[i]).value
  {
    WriteFileRoundTrip(FilePath(SafeName(req.name.s)), BufferFrom(req.content).input);
  }
}
