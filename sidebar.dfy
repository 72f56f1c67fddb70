/** The sidebar of apps/web/src/components/app-sidebar.tsx: the session
    labels with their middle truncation, the current project's name, the
    project fetcher and the new-session busy guard. */
module Sidebar {
  import opened Results
  import opened Text
  import Js
  import SwrFetch

  const DefaultMaxLength := 40
  const Ellipsis := "..."
  const ProjectFailure := "Failed to fetch"

  // ---------------------------------------------------------------------
  // Truncation

  /** `Math.floor((maxLength - 3) / 2)`: Dafny's division by a positive
      divisor rounds down, as floor does. */
  function HalfLength(maxLength: int): int {
    (maxLength - 3) / 2
  }

  /** `truncateTitle` as written: the first and last `halfLength`
      characters around "...", where the tail is `title.slice(-halfLength)`. */
  function TruncateTitle(title: string, maxLength: int): string {
    if |title| <= maxLength then title
    else
      var halfLength := HalfLength(maxLength);
      Js.Slice(title, 0, halfLength) + Ellipsis + Js.SliceFrom(title, -halfLength)
  }

  /** From a limit of 5 up, a long title keeps its first and last
      `halfLength` characters around "..." and fits the limit; a title
      within the limit is kept, and only such a title is. */
  lemma TruncateTitleSpec(title: string, maxLength: int)
    requires maxLength >= 5
    ensures TruncateTitle(title, maxLength) == title <==> |title| <= maxLength
    ensures |TruncateTitle(title, maxLength)| <= maxLength
    ensures |title| > maxLength ==>
      var h := HalfLength(maxLength);
      1 <= h && 2 * h + 3 <= maxLength &&
      TruncateTitle(title, maxLength) == title[..h] + Ellipsis + title[|title| - h..]
  {
    if |title| > maxLength {
      var h := HalfLength(maxLength);
      Js.SliceLast(title, h);
    }
  }

  /** At the default limit a long title becomes 18 + 3 + 18 = 39 characters. */
  lemma DefaultTruncation(title: string)
    requires |title| > DefaultMaxLength
    ensures TruncateTitle(title, DefaultMaxLength) == title[..18] + Ellipsis + title[|title| - 18..]
    ensures |TruncateTitle(title, DefaultMaxLength)| == 39
  {
    TruncateTitleSpec(title, DefaultMaxLength);
  }

  /** With a limit of 3 or 4, `halfLength` is 0 and `slice(-0)` is the whole
      title, so the truncated label is longer than the title itself. */
  lemma TruncateAtThree()
    ensures TruncateTitle("abcd", 3) == "...abcd"
    ensures |TruncateTitle("abcd", 3)| > 3
  {
    assert HalfLength(3) == 0;
    Js.SliceLast("abcd", 0);
    assert Js.Slice("abcd", 0, 0) == "";
  }

  /** The evidently intended truncation: the tail is the last `halfLength`
      characters, counted from the end, and nothing when that is zero. */
  function TruncateTitleFixed(title: string, maxLength: int): (r: string)
    ensures |title| <= maxLength ==> r == title
    ensures |title| > maxLength && maxLength >= 3 ==>
      var h := HalfLength(maxLength);
      r == title[..h] + Ellipsis + title[|title| - h..] && |r| == 2 * h + 3 && |r| <= maxLength && r != title
  {
    if |title| <= maxLength then title
    else
      var halfLength := if HalfLength(maxLength) < 0 then 0 else HalfLength(maxLength);
      Js.Slice(title, 0, halfLength) + Ellipsis + Js.SliceFrom(title, |title| - halfLength)
  }

  /** The two agree from a limit of 5 up, so the default labels are the
      same either way. */
  lemma FixedAgrees(title: string, maxLength: int)
    requires maxLength >= 5
    ensures TruncateTitleFixed(title, maxLength) == TruncateTitle(title, maxLength)
  {
    TruncateTitleSpec(title, maxLength);
  }

  /** A session's label: its title, or "Session " and the first 8
      characters of its id, truncated at the default limit. */
  function SessionLabel(title: Option<string>, id: string): string {
    var text := if title.Some? && title.value != "" then title.value else "Session " + Js.Slice(id, 0, 8);
    TruncateTitleFixed(text, DefaultMaxLength)
  }

  /** An untitled session is labelled by its id's first 8 characters,
      which always fits; a titled one by its title when that fits. */
  lemma SessionLabelSpec(title: Option<string>, id: string)
    ensures (title.None? || title.value == "") ==>
      SessionLabel(title, id) == "Session " + (if |id| <= 8 then id else id[..8])
    ensures title.Some? && title.value != "" && |title.value| <= DefaultMaxLength ==>
      SessionLabel(title, id) == title.value
    ensures |SessionLabel(title, id)| <= DefaultMaxLength
  {
    var prefix := if |id| <= 8 then id else id[..8];
    assert Js.Slice(id, 0, 8) == prefix;
  }

  // ---------------------------------------------------------------------
  // The current project

  /** `getProjectName`: the last "/"-segment of the worktree, or the whole
      worktree when that segment is empty. */
  function ProjectName(worktree: string): (name: string)
    ensures name == worktree || name == Last(Split(worktree, '/'))
  {
    var parts := Split(worktree, '/');
    if parts[|parts| - 1] != "" then parts[|parts| - 1] else worktree
  }

  /** The name is the slash-free text after the last slash; a worktree
      that ends in a slash (or is empty) is shown whole. */
  lemma ProjectNameSpec(worktree: string)
    ensures |worktree| > 0 && worktree[|worktree| - 1] != '/' ==>
      var name := ProjectName(worktree);
      name != "" && '/' !in name && |name| <= |worktree| && worktree[|worktree| - |name|..] == name &&
      (|name| == |worktree| || worktree[|worktree| - |name| - 1] == '/')
    ensures (|worktree| == 0 || worktree[|worktree| - 1] == '/') ==> ProjectName(worktree) == worktree
  {
    var parts := Split(worktree, '/');
    SplitLastPiece(worktree, '/');
    var last := Last(parts);
    var front := if |parts| == 1 then "" else Join(DropLast(parts), ['/']) + ['/'];
    assert worktree == front + last;
    if |worktree| > 0 && worktree[|worktree| - 1] != '/' {
      assert last != "";
      assert worktree[|worktree| - |last|..] == last;
      if |parts| > 1 {
        assert worktree[|front| - 1] == '/';
      }
    }
  }

  /** A project directly inside a folder is named after itself. */
  lemma ProjectNameOfChild(dir: string, name: string)
    requires name != "" && '/' !in name
    ensures ProjectName(dir + "/" + name) == name
  {
    SplitAppend(dir, '/', name);
    SplitNoSeparator(name, '/');
  }

  /** A worktree given with a trailing slash is shown whole. */
  lemma ProjectNameTrailingSlash(dir: string)
    ensures ProjectName(dir + "/") == dir + "/"
  {
    SplitAppend(dir, '/', "");
    assert dir + ['/'] + "" == dir + "/";
  }

  /** The project shown: its name once loaded, "Loading..." until then. */
  function ProjectLabel(worktree: Option<string>): (shown: string)
    ensures worktree.None? ==> shown == "Loading..."
    ensures worktree.Some? ==> shown == ProjectName(worktree.value)
  {
    if worktree.None? then "Loading..." else ProjectName(worktree.value)
  }

  /** `projectFetcher`: the same call as the session fetchers, and the
      `data.data || data` unwrapping with its own failure message. */
  function ProjectResult(response: SwrFetch.Response): (r: Result<Js.Value, string>)
    ensures !response.ok ==> r == Err(ProjectFailure)
    ensures r.Ok? <==> response.ok && response.json.Ok? && response.json.value != Js.Null && response.json.value != Js.Undefined
    ensures r.Ok? && !response.json.value.Obj? ==> r.value == response.json.value
    ensures r.Ok? && response.json.value.Obj? && Js.Truthy(Js.Lookup(response.json.value.entries, "data")) ==>
      r.value == Js.Lookup(response.json.value.entries, "data")
  {
    SwrFetch.ItemResult(response, ProjectFailure)
  }

  // ---------------------------------------------------------------------
  // Creating a session

  class NewSession {
    var creating: bool

    constructor ()
      ensures !creating
    {
      creating := false;
    }

    /** The start of `handleNewSession`: nothing happens while a creation
        is in flight. */
    method Start() returns (started: bool)
      modifies this
      ensures started <==> !old(creating)
      ensures creating
    {
      if creating {
        return false;
      }
      creating := true;
      started := true;
    }

    /** The `finally` block, reached whether the creation worked or not. */
    method Finish()
      modifies this
      ensures !creating
    {
      creating := false;
    }
  }
}
