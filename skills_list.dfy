/** The skill listing route of apps/web/src/pages/api/skills/list.ts: the
    Markdown files under the workspace-local and the global skill
    directories become skills with a name and a description, local ones
    first and taking precedence. */
module SkillsList {
  import opened Results
  import opened Text
  import opened Http

  const LocalSkillsPath := "/workspace/.opencode/skills"
  const GlobalSkillsPath := "/root/.config/opencode/skills"

  datatype Skill = Skill(name: string, path: string, description: string)

  /** The command that lists a skill directory; it succeeds even when the
      directory is missing. */
  function FindCommand(dir: string): seq<string> {
    ["sh", "-c", "find " + dir + " -name \"*.md\" -type f 2>/dev/null || true"]
  }

  /** The command that reads the start of a skill file. */
  function HeadCommand(filePath: string): seq<string> {
    ["head", "-n", "3", filePath]
  }

  // ---------------------------------------------------------------------
  // File list and names

  /** The lines that are not blank, untrimmed, in order. */
  function NonBlank(lines: seq<string>): (r: seq<string>)
    ensures |r| <= |lines|
  {
    if |lines| == 0 then []
    else (if Trim(lines[0]) != "" then [lines[0]] else []) + NonBlank(lines[1..])
  }

  /** The kept lines are exactly the lines that are not blank. */
  lemma {:induction false} NonBlankSpec(lines: seq<string>)
    ensures forall f | f in NonBlank(lines) :: f in lines && Trim(f) != ""
    ensures forall f | f in lines && Trim(f) != "" :: f in NonBlank(lines)
  {
    if |lines| > 0 {
      NonBlankSpec(lines[1..]);
      assert lines == [lines[0]] + lines[1..];
    }
  }

  /** The files a find output names. */
  function SkillFiles(output: string): seq<string> {
    NonBlank(Split(output, '\n'))
  }

  /** The skill name of a file: its last path segment with the first
      ".md" removed. */
  function SkillName(filePath: string): (name: string)
    ensures '/' !in name
  {
    var pieces := Split(filePath, '/');
    SplitSpec(filePath, '/');
    var base := Last(pieces);
    var name := ReplaceFirst(base, ".md", "");
    assert forall c | c in name :: c in base;
    name
  }

  /** A file named after a skill gives back that name. */
  lemma SkillNameOfFile(dir: string, name: string)
    requires '/' !in name && '.' !in name
    ensures SkillName(dir + "/" + name + ".md") == name
  {
    var base := name + ".md";
    assert dir + "/" + name + ".md" == dir + ['/'] + base;
    SplitAppend(dir, '/', base);
    SplitNoSeparator(base, '/');
    FirstOccurrenceAtEnd(name, ".md");
  }

  lemma FirstOccurrenceAtEnd(name: string, p: string)
    requires |p| > 0 && p[0] !in name
    ensures ReplaceFirst(name + p, p, "") == name
  {
    var s := name + p;
    assert OccursAt(s, p, |name|);
  }

  // ---------------------------------------------------------------------
  // Description

  /** The trimmed lines. */
  function Trims(lines: seq<string>): (r: seq<string>)
    ensures |r| == |lines|
  {
    if |lines| == 0 then [] else Trims(lines[..|lines| - 1]) + [Trim(lines[|lines| - 1])]
  }

  lemma {:induction false} TrimsAt(lines: seq<string>)
    ensures forall k | 0 <= k < |lines| :: Trims(lines)[k] == Trim(lines[k])
  {
    if |lines| > 0 {
      TrimsAt(lines[..|lines| - 1]);
    }
  }

  /** The number of leading '#' characters. */
  function LeadingHashes(s: string): (n: nat)
    ensures n <= |s| && forall i | 0 <= i < n :: s[i] == '#'
    ensures n < |s| ==> s[n] != '#'
  {
    if |s| == 0 || s[0] != '#' then 0 else 1 + LeadingHashes(s[1..])
  }

  /** The heading text: the leading run of '#' and the whitespace after
      it removed, as the route's regular-expression replace does. */
  function StripHashes(s: string): (r: string)
    ensures |r| <= |s|
    ensures |r| > 0 ==> !IsSpace(r[0])
  {
    TrimStart(s[LeadingHashes(s)..])
  }

  /** The first trimmed line that is a heading, if any. */
  function FirstHeading(ts: seq<string>): (r: Option<nat>)
    ensures r.Some? ==> r.value < |ts| && StartsWith(ts[r.value], "#")
    ensures r.Some? ==> forall j | 0 <= j < r.value :: !StartsWith(ts[j], "#")
    ensures r.None? ==> forall j | 0 <= j < |ts| :: !StartsWith(ts[j], "#")
  {
    if |ts| == 0 then None
    else if StartsWith(ts[0], "#") then Some(0)
    else match FirstHeading(ts[1..])
      case None => None
      case Some(k) => Some(k + 1)
  }

  /** The first non-empty trimmed line, computed as the scan does: set
      once, then kept. */
  function FirstNonEmpty(ts: seq<string>): string {
    if |ts| == 0 then ""
    else
      var earlier := FirstNonEmpty(ts[..|ts| - 1]);
      if earlier != "" then earlier else ts[|ts| - 1]
  }

  ghost predicate FirstFoundAt(ts: seq<string>, j: int, v: string) {
    0 <= j < |ts| && v == ts[j] && forall i | 0 <= i < j :: ts[i] == ""
  }

  /** It is the first line that is not empty, and "" when there is none. */
  lemma {:induction false} FirstNonEmptySpec(ts: seq<string>)
    ensures FirstNonEmpty(ts) == "" <==> forall j | 0 <= j < |ts| :: ts[j] == ""
    ensures FirstNonEmpty(ts) != "" ==> exists j :: FirstFoundAt(ts, j, FirstNonEmpty(ts))
  {
    if |ts| > 0 {
      var init := ts[..|ts| - 1];
      FirstNonEmptySpec(init);
      if FirstNonEmpty(init) != "" {
        var j :| FirstFoundAt(init, j, FirstNonEmpty(init));
        assert FirstFoundAt(ts, j, FirstNonEmpty(ts));
      } else {
        var n := |ts| - 1;
        assert forall j | 0 <= j < n :: ts[j] == init[j];
        if ts[n] != "" {
          assert FirstFoundAt(ts, n, FirstNonEmpty(ts));
        }
      }
    }
  }

  /** The description the scan of the head lines gives: the first
      heading, stripped of its hashes, or else the first non-blank line,
      trimmed. */
  function Description(lines: seq<string>): string {
    var ts := Trims(lines);
    match FirstHeading(ts)
    case Some(i) => StripHashes(ts[i])
    case None => FirstNonEmpty(ts)
  }

  lemma FirstHeadingAt(ts: seq<string>, i: nat)
    requires i < |ts| && StartsWith(ts[i], "#")
    requires forall j | 0 <= j < i :: !StartsWith(ts[j], "#")
    ensures FirstHeading(ts) == Some(i)
  {
  }

  /** The scan over the head lines, stopping at the first heading. */
  method Describe(lines: seq<string>) returns (description: string)
    ensures description == Description(lines)
  {
    description := "";
    ghost var seen: seq<string> := [];
    var i := 0;
    while i < |lines|
      invariant i <= |lines|
      invariant seen == Trims(lines[..i])
      invariant forall j | 0 <= j < i :: !StartsWith(seen[j], "#")
      invariant description == FirstNonEmpty(seen)
    {
      var trimmed := Trim(lines[i]);
      assert lines[..i + 1][..i] == lines[..i];
      if StartsWith(trimmed, "#") {
        description := StripHashes(trimmed);
        DescriptionAtHeading(lines, i, seen);
        return;
      } else if trimmed != "" && description == "" {
        description := trimmed;
      }
      seen := seen + [trimmed];
      i := i + 1;
    }
    assert lines[..i] == lines;
  }

  /** The scan stopping at a heading gives the description. */
  lemma DescriptionAtHeading(lines: seq<string>, i: nat, seen: seq<string>)
    requires i < |lines| && seen == Trims(lines[..i]) && StartsWith(Trim(lines[i]), "#")
    requires forall j | 0 <= j < i :: !StartsWith(seen[j], "#")
    ensures Description(lines) == StripHashes(Trim(lines[i]))
  {
    var ts := Trims(lines);
    TrimsAt(lines);
    TrimsAt(lines[..i]);
    assert ts[i] == Trim(lines[i]);
    assert forall j | 0 <= j < i :: ts[j] == seen[j];
    FirstHeadingAt(ts, i);
  }

  /** A heading wins over an earlier plain line. */
  lemma HeadingOverridesText(plain: string, heading: string)
    requires Trim(plain) != "" && !StartsWith(Trim(plain), "#") && StartsWith(Trim(heading), "#")
    ensures Description([plain, heading]) == StripHashes(Trim(heading))
  {
    var ts := Trims([plain, heading]);
    TrimsAt([plain, heading]);
    assert ts == [Trim(plain), Trim(heading)];
    assert FirstHeading(ts) == Some(1) by {
      assert ts[1..] == [Trim(heading)];
    }
  }

  // ---------------------------------------------------------------------
  // Collecting the skills

  /** The skill of one file, from its head read (a failed read leaves the
      description empty). */
  function SkillOf(filePath: string, head: Result<string, string>): Skill {
    Skill(SkillName(filePath), filePath, if head.Ok? then Description(Split(head.value, '\n')) else "")
  }

  predicate HasName(skills: seq<Skill>, name: string) {
    exists k | 0 <= k < |skills| :: skills[k].name == name
  }

  /** The local loop: every file with a non-empty name, in find order. */
  function LocalSkills(files: seq<string>, heads: string -> Result<string, string>): (r: seq<Skill>)
    ensures |r| <= |files|
    ensures forall k | 0 <= k < |r| :: r[k].name != ""
  {
    if |files| == 0 then []
    else
      var f := files[|files| - 1];
      LocalSkills(files[..|files| - 1], heads) + (if SkillName(f) != "" then [SkillOf(f, heads(f))] else [])
  }

  /** The skills the files would give, in order. */
  function Candidates(files: seq<string>, heads: string -> Result<string, string>): (r: seq<Skill>)
    ensures |r| == |files|
  {
    if |files| == 0 then [] else [SkillOf(files[0], heads(files[0]))] + Candidates(files[1..], heads)
  }

  /** The global loop on the candidates: one is added when its name is
      non-empty and not yet collected. */
  function AddNew(skills: seq<Skill>, candidates: seq<Skill>): seq<Skill>
    decreases |candidates|
  {
    if |candidates| == 0 then skills
    else
      var c := candidates[0];
      AddNew(if c.name != "" && !HasName(skills, c.name) then skills + [c] else skills, candidates[1..])
  }

  function GlobalSkills(skills: seq<Skill>, files: seq<string>, heads: string -> Result<string, string>): seq<Skill> {
    AddNew(skills, Candidates(files, heads))
  }

  method CollectLocal(files: seq<string>, heads: string -> Result<string, string>) returns (skills: seq<Skill>)
    ensures skills == LocalSkills(files, heads)
  {
    skills := [];
    var index := 0;
    while index < |files|
      invariant index <= |files|
      invariant skills == LocalSkills(files[..index], heads)
    {
      var filePath := files[index];
      assert files[..index + 1][..index] == files[..index];
      var name := SkillName(filePath);
      if name != "" {
        var description := "";
        var head := heads(filePath);
        if head.Ok? {
          description := Describe(Split(head.value, '\n'));
        }
        skills := skills + [Skill(name, filePath, description)];
      }
      index := index + 1;
    }
    assert files[..index] == files;
  }

  method CollectGlobal(local: seq<Skill>, files: seq<string>, heads: string -> Result<string, string>)
    returns (skills: seq<Skill>)
    ensures skills == GlobalSkills(local, files, heads)
  {
    skills := local;
    var index := 0;
    while index < |files|
      invariant index <= |files|
      invariant AddNew(skills, Candidates(files[index..], heads)) == GlobalSkills(local, files, heads)
    {
      var filePath := files[index];
      assert files[index..][1..] == files[index + 1..];
      assert files[index..][0] == filePath;
      var name := SkillName(filePath);
      if name != "" && !(exists k | 0 <= k < |skills| :: skills[k].name == name) {
        var description := "";
        var head := heads(filePath);
        if head.Ok? {
          description := Describe(Split(head.value, '\n'));
        }
        skills := skills + [Skill(name, filePath, description)];
      }
      index := index + 1;
    }
  }

  /** The handler: the two scans (a failed scan contributes nothing) and
      the head reads, given as their outcomes. */
  method ListSkills(verb: string, localScan: Result<string, string>, globalScan: Result<string, string>,
                    heads: string -> Result<string, string>) returns (reply: Reply<seq<Skill>>)
    ensures verb != "GET" ==> reply == MethodNotAllowed()
    ensures verb == "GET" ==> reply == Reply(200, Content(AllSkills(localScan, globalScan, heads)))
  {
    if verb != "GET" {
      return MethodNotAllowed();
    }
    var skills: seq<Skill> := [];
    if localScan.Ok? {
      skills := CollectLocal(SkillFiles(localScan.value), heads);
    }
    if globalScan.Ok? {
      skills := CollectGlobal(skills, SkillFiles(globalScan.value), heads);
    }
    reply := Reply(200, Content(skills));
  }

  function AllSkills(localScan: Result<string, string>, globalScan: Result<string, string>,
                     heads: string -> Result<string, string>): seq<Skill> {
    var local := if localScan.Ok? then LocalSkills(SkillFiles(localScan.value), heads) else [];
    if globalScan.Ok? then GlobalSkills(local, SkillFiles(globalScan.value), heads) else local
  }

  /** The collected list keeps the earlier skills as its prefix. */
  lemma {:induction false} AddNewKeeps(skills: seq<Skill>, candidates: seq<Skill>)
    ensures |AddNew(skills, candidates)| >= |skills|
    ensures AddNew(skills, candidates)[..|skills|] == skills
    decreases |candidates|
  {
    if |candidates| > 0 {
      var c := candidates[0];
      var next := if c.name != "" && !HasName(skills, c.name) then skills + [c] else skills;
      AddNewKeeps(next, candidates[1..]);
      var r := AddNew(skills, candidates);
      assert r[..|next|][..|skills|] == r[..|skills|];
    } else {
      assert AddNew(skills, candidates)[..|skills|] == skills;
    }
  }

  /** Every added skill has a non-empty name that no skill before it has. */
  lemma {:induction false} AddNewFresh(skills: seq<Skill>, candidates: seq<Skill>)
    ensures forall k | |skills| <= k < |AddNew(skills, candidates)| ::
      AddNew(skills, candidates)[k].name != "" &&
      !HasName(AddNew(skills, candidates)[..k], AddNew(skills, candidates)[k].name)
    decreases |candidates|
  {
    if |candidates| > 0 {
      var c := candidates[0];
      var added := c.name != "" && !HasName(skills, c.name);
      var next := if added then skills + [c] else skills;
      AddNewFresh(next, candidates[1..]);
      AddNewKeeps(next, candidates[1..]);
      var r := AddNew(skills, candidates);
      forall k | |skills| <= k < |r| ensures r[k].name != "" && !HasName(r[..k], r[k].name) {
        if k < |next| {
          assert added && k == |skills| && r[k] == next[k] == c;
          assert r[..k] == next[..k] == skills;
        }
      }
    }
  }

  /** Every candidate with a non-empty name ends up represented by name. */
  lemma {:induction false} AddNewCovers(skills: seq<Skill>, candidates: seq<Skill>)
    ensures forall c | c in candidates && c.name != "" :: HasName(AddNew(skills, candidates), c.name)
    decreases |candidates|
  {
    if |candidates| > 0 {
      var c := candidates[0];
      var added := c.name != "" && !HasName(skills, c.name);
      var next := if added then skills + [c] else skills;
      AddNewCovers(next, candidates[1..]);
      AddNewKeeps(next, candidates[1..]);
      var r := AddNew(skills, candidates);
      if c.name != "" {
        var k :| 0 <= k < |next| && next[k].name == c.name;
        assert r[..|next|][k] == r[k];
      }
      forall d | d in candidates && d.name != "" ensures HasName(r, d.name) {
        if d != c {
          assert d in candidates[1..];
        }
      }
    }
  }

  /** Every global file whose name is non-empty is represented by name. */
  lemma GlobalFilesCovered(skills: seq<Skill>, files: seq<string>, heads: string -> Result<string, string>)
    ensures forall k | 0 <= k < |files| && SkillName(files[k]) != "" ::
      HasName(GlobalSkills(skills, files, heads), SkillName(files[k]))
  {
    var cands := Candidates(files, heads);
    CandidatesAt(files, heads);
    AddNewCovers(skills, cands);
    forall k | 0 <= k < |files| && SkillName(files[k]) != ""
      ensures HasName(GlobalSkills(skills, files, heads), SkillName(files[k]))
    {
      assert cands[k] in cands;
    }
  }

  lemma {:induction false} CandidatesAt(files: seq<string>, heads: string -> Result<string, string>)
    ensures forall k | 0 <= k < |files| :: Candidates(files, heads)[k] == SkillOf(files[k], heads(files[k]))
  {
    if |files| > 0 {
      CandidatesAt(files[1..], heads);
    }
  }

  /** Local skills come first and all stay; a global skill never shadows
      a local one of the same name. */
  lemma LocalFirst(local: seq<Skill>, candidates: seq<Skill>)
    ensures var all := AddNew(local, candidates);
      |all| >= |local| && all[..|local|] == local &&
      forall k | |local| <= k < |all| :: !HasName(local, all[k].name)
  {
    var all := AddNew(local, candidates);
    AddNewKeeps(local, candidates);
    AddNewFresh(local, candidates);
    forall k | |local| <= k < |all| ensures !HasName(local, all[k].name) {
      assert all[..k][..|local|] == local;
    }
  }

  /** The listing is the local skills followed by the new global ones. */
  lemma AllSkillsShape(localScan: Result<string, string>, globalScan: Result<string, string>,
                       heads: string -> Result<string, string>)
    ensures var local := if localScan.Ok? then LocalSkills(SkillFiles(localScan.value), heads) else [];
      AllSkills(localScan, globalScan, heads) ==
        if globalScan.Ok? then AddNew(local, Candidates(SkillFiles(globalScan.value), heads)) else local
  {
  }
}
