/** The directory listing route of apps/web/src/pages/api/fs/directory.ts:
    it runs `ls -F -1` in the workspace container and turns each output
    line into an item. */
module FsDirectory {
  import opened Results
  import opened Text
  import Js
  import opened Http

  const DefaultPath := "/workspace"

  datatype Request = Request(verb: string, path: Option<string>, showHidden: Option<string>)

  datatype Item = Item(name: string, isDirectory: bool, path: string)

  datatype Listing = Listing(items: seq<Item>, path: string)

  /** The listed path: the query's, or the workspace root. */
  function ListPath(req: Request): (p: string)
    ensures req.path.Some? && req.path.value != "" ==> p == req.path.value
    ensures !(req.path.Some? && req.path.value != "") ==> p == DefaultPath
  {
    Js.OrElse(req.path, DefaultPath)
  }

  /** Hidden files are listed only for the exact query value "true". */
  predicate ShowHidden(req: Request) {
    req.showHidden == Some("true")
  }

  const BaseLsArgs := ["ls", "-F", "-1", "--group-directories-first"]

  /** The `ls` argument vector the route runs. */
  function LsArgv(path: string, showHidden: bool): (args: seq<string>)
    ensures |args| >= 5 && args[..4] == BaseLsArgs && Last(args) == path
    ensures showHidden <==> |args| == 6
    ensures showHidden ==> args[4] == "-a"
  {
    BaseLsArgs + (if showHidden then ["-a"] else []) + [path]
  }

  /** The argument vector, built with pushes as the route builds it. */
  method LsArgs(path: string, showHidden: bool) returns (lsArgs: seq<string>)
    ensures lsArgs == LsArgv(path, showHidden)
  {
    lsArgs := ["ls", "-F", "-1", "--group-directories-first"];
    if showHidden {
      lsArgs := lsArgs + ["-a"];
    }
    lsArgs := lsArgs + [path];
  }

  /** The handler up to the command: only GET is allowed. */
  function Plan(req: Request): (s: Step<Listing>)
    ensures req.verb != "GET" <==> s == Respond(MethodNotAllowed())
    ensures req.verb == "GET" ==> s == Run(LsArgv(ListPath(req), ShowHidden(req)))
  {
    if req.verb != "GET" then Respond(MethodNotAllowed())
    else Run(LsArgv(ListPath(req), ShowHidden(req)))
  }

  /** The reply once `ls` has run (or failed). */
  function Complete(req: Request, output: Result<string, string>): (r: Reply<Listing>)
    ensures output.Ok? ==> r == Reply(200, Content(Listing(Items(output.value, ListPath(req)), ListPath(req))))
    ensures output.Err? ==> r == Reply(500, Failure("Failed to list files", output.error))
  {
    match output
    case Ok(out) => var path := ListPath(req); Reply(200, Content(Listing(Items(out, path), path)))
    case Err(e) => Reply(500, Failure("Failed to list files", e))
  }

  // ---------------------------------------------------------------------
  // The output parser

  /** The type markers `ls -F` appends. */
  predicate IsLsMarker(c: char) {
    c == '/' || c == '*' || c == '@' || c == '=' || c == '|'
  }

  /** The line with one trailing marker removed. */
  function StripMarker(line: string): (r: string)
    ensures |line| > 0 && IsLsMarker(line[|line| - 1]) ==> r == line[..|line| - 1]
    ensures !(|line| > 0 && IsLsMarker(line[|line| - 1])) ==> r == line
  {
    if |line| > 0 && IsLsMarker(line[|line| - 1]) then line[..|line| - 1] else line
  }

  /** A line yields an item when it is not blank and is not the "." or
      ".." entry. */
  predicate Listed(line: string) {
    Trim(line) != "" && StripMarker(line) != "." && StripMarker(line) != ".."
  }

  /** The item of one line. */
  function ToItem(line: string, path: string): (item: Item)
    ensures item.isDirectory <==> EndsWith(line, "/")
    ensures item.isDirectory ==> item.name + "/" == line
    ensures !item.isDirectory && (EndsWith(line, "*") || EndsWith(line, "@")) ==>
      item.name + [line[|line| - 1]] == line
    ensures !item.isDirectory && !EndsWith(line, "*") && !EndsWith(line, "@") ==> item.name == line
    ensures item.path == CollapseSlashes(path + "/" + item.name)
  {
    var isDirectory := EndsWith(line, "/");
    var name := if isDirectory then line[..|line| - 1] else line;
    var cleanName := if !isDirectory && (EndsWith(name, "*") || EndsWith(name, "@")) then name[..|name| - 1] else name;
    assert isDirectory ==> line[|line| - 1..] == "/";
    assert !isDirectory && (EndsWith(line, "*") || EndsWith(line, "@")) ==>
      cleanName + [line[|line| - 1]] == line;
    Item(cleanName, isDirectory, CollapseSlashes(path + "/" + cleanName))
  }

  /** The items one line contributes: none or its own. */
  function LineItems(line: string, path: string): (items: seq<Item>)
    ensures |items| <= 1
  {
    if Listed(line) then [ToItem(line, path)] else []
  }

  /** The concatenation of what `f` gives for each element, in order. */
  function ConcatMap<A, B>(f: A -> seq<B>, xs: seq<A>): seq<B> {
    if |xs| == 0 then [] else f(xs[0]) + ConcatMap(f, xs[1..])
  }

  lemma {:induction false} ConcatMapAppend<A, B>(f: A -> seq<B>, a: seq<A>, b: seq<A>)
    ensures ConcatMap(f, a + b) == ConcatMap(f, a) + ConcatMap(f, b)
  {
    if |a| == 0 {
      assert a + b == b;
    } else {
      assert (a + b)[1..] == a[1..] + b;
      ConcatMapAppend(f, a[1..], b);
      assert f(a[0]) + (ConcatMap(f, a[1..]) + ConcatMap(f, b)) == (f(a[0]) + ConcatMap(f, a[1..])) + ConcatMap(f, b);
    }
  }

  /** The items of a sequence of lines. */
  function ItemsOf(lines: seq<string>, path: string): seq<Item> {
    ConcatMap(line => LineItems(line, path), lines)
  }

  /** The items of the whole output, one per listed line. */
  function Items(output: string, path: string): seq<Item> {
    ItemsOf(Split(output, '\n'), path)
  }

  /** Items follow the order of the lines. */
  lemma ItemsOfAppend(a: seq<string>, b: seq<string>, path: string)
    ensures ItemsOf(a + b, path) == ItemsOf(a, path) + ItemsOf(b, path)
  {
    ConcatMapAppend(line => LineItems(line, path), a, b);
  }

  /** A single line gives its item exactly when it is listed. */
  lemma ItemsOfLine(line: string, path: string)
    ensures ItemsOf([line], path) == if Listed(line) then [ToItem(line, path)] else []
  {
    assert [line][1..] == [];
    assert ItemsOf([line][1..], path) == [];
  }

  /** No item is the "." or ".." entry, and every item path is free of
      repeated slashes. */
  lemma {:induction false} ItemsOfNames(lines: seq<string>, path: string)
    ensures forall item | item in ItemsOf(lines, path) ::
      item.name != "." && item.name != ".." && NoDoubleSlash(item.path)
  {
    if |lines| > 0 {
      ItemsOfNames(lines[1..], path);
      var line := lines[0];
      if Listed(line) {
        var item := ToItem(line, path);
        CollapseSlashesSpec(path + "/" + item.name);
        if !item.isDirectory && !EndsWith(line, "*") && !EndsWith(line, "@") && |line| > 0 && IsLsMarker(line[|line| - 1]) {
          assert line[|line| - 1] != '.';
        }
        assert item.name == StripMarker(line) || (item.name == line && line[|line| - 1] != '.') by {
          if item.isDirectory {
            assert line[|line| - 1] == '/';
          } else if EndsWith(line, "*") || EndsWith(line, "@") {
            assert line[|line| - 1] == '*' || line[|line| - 1] == '@';
          }
        }
      }
    }
  }

  /** The names of the output's items are single lines. */
  lemma {:induction false} ItemsOfSingleLine(lines: seq<string>, path: string)
    requires forall k | 0 <= k < |lines| :: '\n' !in lines[k]
    ensures forall item | item in ItemsOf(lines, path) :: '\n' !in item.name
  {
    if |lines| > 0 {
      ItemsOfSingleLine(lines[1..], path);
      var line := lines[0];
      if Listed(line) {
        var item := ToItem(line, path);
        assert item.name <= line;
      }
    }
  }

  lemma ItemsSingleLine(output: string, path: string)
    ensures forall item | item in Items(output, path) :: '\n' !in item.name
  {
    SplitSpec(output, '\n');
    ItemsOfSingleLine(Split(output, '\n'), path);
  }
}
