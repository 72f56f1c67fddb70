/** The file browser of apps/web/src/pages/files.tsx: the current folder,
    its parent and breadcrumbs, the paths of new, renamed and uploaded
    items, and the requests the page sends to the file routes. */
module FilesPage {
  import opened Results
  import opened Text
  import Js
  import opened Http
  import opened DockerUtils
  import FsOperations
  import FsContent
  import FsDirectory
  import FsUpload

  type Item = FsDirectory.Item

  const Home := "/workspace"

  // ---------------------------------------------------------------------
  // Going up

  /** The folders the page does not leave by going up; the parent tile is
      hidden in them. */
  predicate AtTop(path: string) {
    path == Home || path == "/"
  }

  /** `path.split("/").slice(0, -1).join("/")`: the text before the last
      slash (see DirnameSpec). */
  function Dirname(path: string): string {
    Join(Js.Slice(Split(path, '/'), 0, -1), "/")
  }

  /** `path.split("/").pop()`: the text after the last slash. */
  function LastSegment(path: string): string {
    Last(Split(path, '/'))
  }

  /** `navigateUp`'s new folder: none at the top, otherwise the text before
      the last slash, or "/" when that is empty. The parent tile is shown
      under exactly the same condition. */
  function Parent(path: string): (r: Option<string>)
    ensures r.None? <==> AtTop(path)
    ensures r.Some? ==> r.value != ""
  {
    if AtTop(path) then None
    else
      var dir := Dirname(path);
      Some(if dir == "" then "/" else dir)
  }

  /** The last segment is the slash-free text after the last slash, and the
      directory name is what comes before that slash (nothing when the
      path holds no slash). */
  lemma DirnameSpec(path: string)
    ensures '/' !in LastSegment(path)
    ensures '/' in path ==> path == Dirname(path) + "/" + LastSegment(path)
    ensures '/' !in path ==> Dirname(path) == "" && LastSegment(path) == path
  {
    var parts := Split(path, '/');
    SplitLastPiece(path, '/');
    assert Js.Slice(parts, 0, -1) == DropLast(parts);
    if |parts| == 1 {
      assert Dirname(path) == Join([], "/");
    } else {
      assert path[|Dirname(path)|] == '/';
    }
  }

  /** Going up from a nested folder lands on the text before its last
      slash; from a folder directly under the root, on the root. */
  lemma ParentSpec(path: string)
    requires !AtTop(path)
    ensures '/' in path && Dirname(path) != "" ==>
      path == Parent(path).value + "/" + LastSegment(path)
    ensures '/' in path && Dirname(path) == "" ==>
      Parent(path) == Some("/") && path == "/" + LastSegment(path)
    ensures '/' !in path ==> Parent(path) == Some("/")
  {
    DirnameSpec(path);
  }

  // ---------------------------------------------------------------------
  // Breadcrumbs

  /** `parts.filter(Boolean)`: the non-empty strings, in order. */
  function NonEmptyPieces(parts: seq<string>): (r: seq<string>)
    ensures |r| <= |parts|
    ensures forall k | 0 <= k < |r| :: r[k] != "" && r[k] in parts
  {
    if |parts| == 0 then []
    else (if parts[0] != "" then [parts[0]] else []) + NonEmptyPieces(parts[1..])
  }

  /** The breadcrumbs: the non-empty segments of the path. */
  function Crumbs(path: string): seq<string> {
    NonEmptyPieces(Split(path, '/'))
  }

  /** The folder crumb `index` navigates to: a slash, then the crumbs up to
      and including it joined by slashes. */
  function CrumbPath(crumbs: seq<string>, index: nat): string
    requires index < |crumbs|
  {
    "/" + Join(crumbs[..index + 1], "/")
  }

  /** Every crumb is a plain name: not empty and without a slash. */
  lemma CrumbsAreNames(path: string)
    ensures forall k | 0 <= k < |Crumbs(path)| :: Crumbs(path)[k] != "" && '/' !in Crumbs(path)[k]
  {
    SplitSpec(path, '/');
  }

  lemma {:induction false} NonEmptyPiecesKeep(parts: seq<string>)
    requires forall k | 0 <= k < |parts| :: parts[k] != ""
    ensures NonEmptyPieces(parts) == parts
  {
    if |parts| > 0 {
      NonEmptyPiecesKeep(parts[1..]);
      assert parts == [parts[0]] + parts[1..];
    }
  }

  lemma NonEmptyPiecesSkip(rest: seq<string>)
    ensures NonEmptyPieces([""] + rest) == NonEmptyPieces(rest)
  {
    assert ([""] + rest)[1..] == rest;
  }

  lemma SplitAfterSlash(t: string)
    ensures Split("/" + t, '/') == [""] + Split(t, '/')
  {
    assert "/" + t == "" + ['/'] + t;
    SplitAppend("", '/', t);
  }

  /** Joining plain names after a slash gives a path whose breadcrumbs are
      those names. */
  lemma CrumbsOfJoin(names: seq<string>)
    requires forall k | 0 <= k < |names| :: names[k] != "" && '/' !in names[k]
    ensures Crumbs("/" + Join(names, "/")) == names
  {
    var joined := Join(names, "/");
    SplitAfterSlash(joined);
    NonEmptyPiecesSkip(Split(joined, '/'));
    if |names| == 0 {
      assert Split(joined, '/') == [""];
      NonEmptyPiecesSkip([]);
    } else {
      SplitJoin(names, '/');
      NonEmptyPiecesKeep(names);
    }
  }

  /** Following crumb `index` opens the folder whose breadcrumbs are the
      crumbs up to and including that one. */
  lemma CrumbNavigates(path: string, index: nat)
    requires index < |Crumbs(path)|
    ensures Crumbs(CrumbPath(Crumbs(path), index)) == Crumbs(path)[..index + 1]
  {
    var crumbs := Crumbs(path);
    CrumbsAreNames(path);
    var names := crumbs[..index + 1];
    assert forall k | 0 <= k < |names| :: names[k] == crumbs[k];
    CrumbsOfJoin(names);
  }

  // ---------------------------------------------------------------------
  // Paths of new, renamed and uploaded items

  /** `${currentPath}/${name}`.replace(/\/+/g, "/"). */
  function Target(currentPath: string, name: string): string {
    CollapseSlashes(currentPath + "/" + name)
  }

  /** The target has no doubled slash, keeps every other character of the
      folder and the name in order, starts with a slash when the folder
      does (or is empty), and collapsing it again changes nothing. */
  lemma TargetSpec(currentPath: string, name: string)
    ensures NoDoubleSlash(Target(currentPath, name))
    ensures NonSlash(Target(currentPath, name)) == NonSlash(currentPath) + NonSlash(name)
    ensures (currentPath == "" || currentPath[0] == '/') ==>
      |Target(currentPath, name)| > 0 && Target(currentPath, name)[0] == '/'
    ensures CollapseSlashes(Target(currentPath, name)) == Target(currentPath, name)
  {
    var s := currentPath + "/" + name;
    CollapseSlashesSpec(s);
    NonSlashAppend(currentPath + "/", name);
    NonSlashAppend(currentPath, "/");
    assert NonSlash("/") == "" by { assert "/"[1..] == ""; }
    assert s[0] == '/' <== (currentPath == "" || currentPath[0] == '/');
  }

  /** An item named with a slash-free, non-empty name lands directly in the
      folder: its path is the folder collapsed and ending in one slash,
      then the name; the editor shows the name as its title, and going up
      from it leads back to that folder. */
  lemma ChildTarget(currentPath: string, name: string)
    requires name != "" && '/' !in name
    ensures var folder := CollapseSlashes(currentPath + "/");
      |folder| > 0 && Last(folder) == '/' &&
      Target(currentPath, name) == folder + name &&
      LastSegment(Target(currentPath, name)) == name &&
      Dirname(Target(currentPath, name)) == DropLast(folder)
  {
    var folder := CollapseSlashes(currentPath + "/");
    assert (currentPath + "/")[|currentPath + "/"| - 1] == '/';
    CollapseTail(currentPath + "/", name);
    assert currentPath + "/" + name == (currentPath + "/") + name;
    CollapseEndsWithSlash(currentPath + "/");
    var front := DropLast(folder);
    assert folder == front + ['/'];
    var target := Target(currentPath, name);
    assert target == front + ['/'] + name;
    SplitAppend(front, '/', name);
    SplitNoSeparator(name, '/');
    var parts := Split(target, '/');
    assert parts == Split(front, '/') + [name];
    assert Js.Slice(parts, 0, -1) == Split(front, '/');
    SplitSpec(front, '/');
  }

  /** Inside the home folder a new item named "src" is "/workspace/src",
      and going up from it returns home. */
  lemma HomeChildExample()
    ensures Target(Home, "src") == "/workspace/src"
    ensures Parent("/workspace/src") == Some(Home)
  {
    HomeChildTarget();
    assert !AtTop("/workspace/src");
  }

  lemma HomeChildTarget()
    ensures Target(Home, "src") == "/workspace/src" && Dirname("/workspace/src") == Home
  {
    var folder := Home + "/";
    assert CollapseSlashes(folder) == folder by {
      assert NoDoubleSlash(folder);
      CollapseFixed(folder);
    }
    ChildTarget(Home, "src");
    assert folder == Home + ['/'];
    DropLastSnoc(Home, '/');
    HomeSrcPath();
  }

  lemma HomeSrcPath()
    ensures Home + "/" + "src" == "/workspace/src"
  {
  }

  /** The editor's title: the last segment of the open file's path. It is
      the slash-free tail of the path, after its last slash if it has one. */
  function EditorTitle(editorPath: string): (title: string)
    ensures '/' !in title
    ensures |title| <= |editorPath| && editorPath[|editorPath| - |title|..] == title
    ensures |title| < |editorPath| ==> editorPath[|editorPath| - |title| - 1] == '/'
  {
    DirnameSpec(editorPath);
    if '/' in editorPath then
      assert editorPath == Dirname(editorPath) + "/" + LastSegment(editorPath);
      LastSegment(editorPath)
    else LastSegment(editorPath)
  }

  // ---------------------------------------------------------------------
  // The requests the page sends

  /** The rename action: `newName` is what the prompt returned (`None` when
      it was dismissed). Nothing is sent for an empty or unchanged name. */
  function RenameRequest(currentPath: string, file: Item, newName: Option<string>): (r: Option<FsOperations.Request>)
    ensures r.None? <==> newName.None? || newName.value == "" || newName.value == file.name
    ensures r.Some? ==> r.value == FsOperations.Request("POST", Js.Str("rename"), Js.Str(file.path),
      Js.Str(Target(currentPath, newName.value)))
  {
    if newName.None? || newName.value == "" || newName.value == file.name then None
    else Some(FsOperations.Request("POST", Js.Str("rename"), Js.Str(file.path),
      Js.Str(Target(currentPath, newName.value))))
  }

  /** A rename the page sends moves the item to its target. */
  lemma RenameMoves(currentPath: string, file: Item, newName: Option<string>)
    requires RenameRequest(currentPath, file, newName).Some? && file.path != ""
    ensures FsOperations.Plan(RenameRequest(currentPath, file, newName).value) ==
      Run(["mv", file.path, Target(currentPath, newName.value)])
  {
    var target := Target(currentPath, newName.value);
    assert |currentPath + "/" + newName.value| > 0;
    assert target != "";
  }

  /** The delete action, once the user has answered the confirmation. */
  function DeleteRequest(file: Item, confirmed: bool): (r: Option<FsOperations.Request>)
    ensures r.Some? <==> confirmed
    ensures r.Some? ==> r.value.action == Js.Str("delete") && r.value.path == Js.Str(file.path)
  {
    if !confirmed then None
    else Some(FsOperations.Request("POST", Js.Str("delete"), Js.Str(file.path), Js.Undefined))
  }

  /** A confirmed delete removes the item unless it is a protected folder. */
  lemma DeleteRemoves(file: Item)
    requires file.path != ""
    ensures var plan := FsOperations.Plan(DeleteRequest(file, true).value);
      (plan.Run? <==> !FsOperations.Protected(file.path)) &&
      (plan.Run? ==> plan.cmd == ["rm", "-rf", file.path])
  {
  }

  datatype Kind = NewFile | NewFolder

  /** The request `handleNew` sends: a folder is made with the operations
      route, a file is written empty with the content route. */
  datatype NewRequest = Make(operation: FsOperations.Request) | Write(content: FsContent.Request)

  function NewItemRequest(kind: Kind, currentPath: string, name: Option<string>): (r: Option<NewRequest>)
    ensures r.None? <==> name.None? || name.value == ""
    ensures r.Some? && kind == NewFolder ==>
      r.value == Make(FsOperations.Request("POST", Js.Str("mkdir"), Js.Str(Target(currentPath, name.value)), Js.Undefined))
    ensures r.Some? && kind == NewFile ==>
      r.value == Write(FsContent.Request("POST", Js.Str(Target(currentPath, name.value)), Js.Str("")))
  {
    if name.None? || name.value == "" then None
    else
      var path := Target(currentPath, name.value);
      if kind == NewFolder then
        Some(Make(FsOperations.Request("POST", Js.Str("mkdir"), Js.Str(path), Js.Undefined)))
      else Some(Write(FsContent.Request("POST", Js.Str(path), Js.Str(""))))
  }

  /** A new folder is made with `mkdir -p` at the target, and a new file is
      written empty there. */
  lemma NewItemCreates(kind: Kind, currentPath: string, name: string)
    requires name != ""
    ensures var path := Target(currentPath, name);
      match NewItemRequest(kind, currentPath, Some(name)).value
      case Make(op) => FsOperations.Plan(op) == Run(["mkdir", "-p", path])
      case Write(req) => FsContent.Plan(req) == Run(WriteFileCommand(path, TextInput("")))
  {
    assert |currentPath + "/" + name| > 0;
  }

  /** The upload request for the first selected file, or none when nothing
      was selected. */
  function UploadRequest(currentPath: string, selected: seq<string>): (r: Option<FsUpload.Request>)
    ensures r.None? <==> selected == []
    ensures r.Some? ==> r.value == FsUpload.Request("POST", Js.Str(Target(currentPath, selected[0])))
  {
    if |selected| == 0 then None
    else Some(FsUpload.Request("POST", Js.Str(Target(currentPath, selected[0]))))
  }

  /** Every upload the page sends passes the route's checks. */
  lemma UploadAccepted(currentPath: string, selected: seq<string>)
    requires selected != []
    ensures FsUpload.Check(UploadRequest(currentPath, selected).value).None?
  {
    assert |currentPath + "/" + selected[0]| > 0;
  }

  /** `fetchFiles`: the listing query, with `showHidden=true` only when
      hidden files are shown. */
  function ListRequest(path: string, showHidden: bool): (r: FsDirectory.Request)
    ensures r.verb == "GET" && r.path == Some(path)
    ensures FsDirectory.ShowHidden(r) <==> showHidden
  {
    FsDirectory.Request("GET", Some(path), if showHidden then Some("true") else None)
  }

  /** The listing lists the page's folder (the home folder for an empty
      one), with hidden files exactly when the page shows them. */
  lemma ListsFolder(path: string, showHidden: bool)
    ensures FsDirectory.Plan(ListRequest(path, showHidden)) ==
      Run(FsDirectory.LsArgv(if path == "" then FsDirectory.DefaultPath else path, showHidden))
  {
  }

  // ---------------------------------------------------------------------
  // The page state

  class Page {
    var currentPath: string
    var files: seq<Item>
    var editorOpen: bool
    var editorPath: string
    var editorContent: string
    var showHidden: bool

    /** The page opens on the home folder; `storedShowHidden` is the saved
        preference (false when there is none). */
    constructor (storedShowHidden: bool)
      ensures currentPath == Home && files == [] && showHidden == storedShowHidden
      ensures !editorOpen && editorPath == "" && editorContent == ""
    {
      currentPath := Home;
      files := [];
      editorOpen := false;
      editorPath := "";
      editorContent := "";
      showHidden := storedShowHidden;
    }

    predicate ParentShown()
      reads this
    {
      currentPath != Home && currentPath != "/"
    }

    function Breadcrumbs(): seq<string>
      reads this
    {
      Crumbs(currentPath)
    }

    /** `navigateTo`, also used by the home button and the breadcrumbs. */
    method NavigateTo(path: string)
      modifies this
      ensures currentPath == path
      ensures files == old(files) && showHidden == old(showHidden)
      ensures editorOpen == old(editorOpen) && editorPath == old(editorPath) && editorContent == old(editorContent)
    {
      currentPath := path;
    }

    /** `navigateUp`: nothing happens at the top; the parent tile is shown
        exactly when it does something. */
    method NavigateUp()
      modifies this
      ensures old(ParentShown()) <==> Parent(old(currentPath)).Some?
      ensures currentPath == (if Parent(old(currentPath)).Some? then Parent(old(currentPath)).value else old(currentPath))
      ensures files == old(files) && showHidden == old(showHidden)
      ensures editorOpen == old(editorOpen) && editorPath == old(editorPath) && editorContent == old(editorContent)
    {
      if currentPath == "/workspace" || currentPath == "/" {
        return;
      }
      var parts := Split(currentPath, '/');
      var parent := Join(Js.Slice(parts, 0, -1), "/");
      if parent == "" {
        parent := "/";
      }
      currentPath := parent;
    }

    /** `handleFileClick`: a folder is opened; for a file, the path to load
        into the editor is returned and nothing else changes. */
    method HandleFileClick(file: Item) returns (load: Option<string>)
      modifies this
      ensures file.isDirectory ==> currentPath == file.path && load.None?
      ensures !file.isDirectory ==> currentPath == old(currentPath) && load == Some(file.path)
      ensures files == old(files) && showHidden == old(showHidden)
      ensures editorOpen == old(editorOpen) && editorPath == old(editorPath) && editorContent == old(editorContent)
    {
      if file.isDirectory {
        currentPath := file.path;
        load := None;
      } else {
        load := Some(file.path);
      }
    }

    /** The end of `fetchContent`: the file's text is shown in the editor. */
    method ContentLoaded(path: string, text: string)
      modifies this
      ensures editorOpen && editorPath == path && editorContent == text
      ensures currentPath == old(currentPath) && files == old(files) && showHidden == old(showHidden)
    {
      editorContent := text;
      editorPath := path;
      editorOpen := true;
    }

    /** The end of `fetchFiles`: the listed items replace the list. */
    method FilesLoaded(items: seq<Item>)
      modifies this
      ensures files == items
      ensures currentPath == old(currentPath) && showHidden == old(showHidden)
      ensures editorOpen == old(editorOpen) && editorPath == old(editorPath) && editorContent == old(editorContent)
    {
      files := items;
    }

    /** The end of `saveContent`: a saved file closes the editor. */
    method ContentSaved(ok: bool)
      modifies this
      ensures editorOpen == (old(editorOpen) && !ok)
      ensures editorPath == old(editorPath) && editorContent == old(editorContent)
      ensures currentPath == old(currentPath) && files == old(files) && showHidden == old(showHidden)
    {
      if ok {
        editorOpen := false;
      }
    }

    /** The hidden-files button. */
    method ToggleHidden()
      modifies this
      ensures showHidden == !old(showHidden)
      ensures currentPath == old(currentPath) && files == old(files)
      ensures editorOpen == old(editorOpen) && editorPath == old(editorPath) && editorContent == old(editorContent)
    {
      showHidden := !showHidden;
    }

    /** The listing request the page sends for its folder. */
    method FetchRequest() returns (request: FsDirectory.Request)
      ensures request == ListRequest(currentPath, showHidden)
    {
      request := FsDirectory.Request("GET", Some(currentPath), if showHidden then Some("true") else None);
    }
  }
}
