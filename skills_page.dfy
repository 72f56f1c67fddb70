/** The skills page of apps/web/src/pages/skills.tsx: it shows the skills
    the listing route reports, parses skill lists out of free-form
    Markdown text, and posts new skills to the creation route. */
module SkillsPage {
  import opened Results
  import opened Text
  import Js
  import SkillsList
  import SkillsCreate

  // ---------------------------------------------------------------------
  // The two line patterns

  /** The characters `.` does not match in a JavaScript regular expression. */
  predicate IsLineTerminator(c: char) {
    c == '\n' || c == '\r' || c == '\U{2028}' || c == '\U{2029}'
  }

  predicate NoTerminator(s: string) {
    forall i | 0 <= i < |s| :: !IsLineTerminator(s[i])
  }

  /** A way `^#+\s+(.+)$` can match: `n` hashes, then `j` whitespace
      characters, then the capture, which runs to the end. */
  ghost predicate HeaderSplit(line: string, n: nat, j: nat) {
    1 <= n && 1 <= j && n + j < |line| &&
    (forall i | 0 <= i < n :: line[i] == '#') &&
    AllSpace(line[n..n + j]) && NoTerminator(line[n + j..])
  }

  /** The split the regular-expression engine picks: both `#+` and `\s+`
      are greedy, so it is the one with the most hashes and then the
      most whitespace. */
  ghost predicate HeaderCapture(line: string, capture: string) {
    exists n: nat, j: nat :: HeaderSplit(line, n, j) && capture == line[n + j..] &&
      forall n': nat, j': nat :: HeaderSplit(line, n', j') ==> n' < n || (n' == n && j' <= j)
  }

  /** The capture of `^#+\s+(.+)$` on a line, or `None` when it does not
      match. All leading hashes go to `#+`; `\s+` then gives back one
      whitespace character only when nothing else is left for `(.+)`. */
  function HeaderMatch(line: string): (r: Option<string>)
    ensures r.Some? ==> |line| > 0 && line[0] == '#'
  {
    var n := SkillsList.LeadingHashes(line);
    var rest := line[n..];
    var m := LeadingSpace(rest);
    if n == 0 || m == 0 then None
    else if m < |rest| then (if NoTerminator(rest[m..]) then Some(rest[m..]) else None)
    else if m >= 2 && !IsLineTerminator(rest[m - 1]) then Some([rest[m - 1]])
    else None
  }

  /** Every split keeps all hashes and leaves the capture within what
      follows the whitespace run, plus at most that run. */
  lemma HeaderSplitShape(line: string, n: nat, j: nat)
    requires HeaderSplit(line, n, j)
    ensures n == SkillsList.LeadingHashes(line)
    ensures j <= LeadingSpace(line[n..])
  {
    assert line[n..n + j][0] == line[n];
    var rest := line[n..];
    assert rest[..j] == line[n..n + j];
    assert forall q | 0 <= q < j :: IsSpace(rest[q]);
  }

  /** Every split takes all the hashes and at most the whole whitespace
      run, and its capture shows what the greedy split needs. */
  lemma HeaderSplitsBounded(line: string)
    ensures var n := SkillsList.LeadingHashes(line); var rest := line[n..]; var m := LeadingSpace(rest);
      forall n': nat, j': nat | HeaderSplit(line, n', j') ::
        n' == n && j' <= m &&
        (m < |rest| ==> NoTerminator(rest[m..])) &&
        (m == |rest| ==> j' < m && !IsLineTerminator(rest[m - 1]))
  {
    var n := SkillsList.LeadingHashes(line);
    var rest := line[n..];
    var m := LeadingSpace(rest);
    forall n': nat, j': nat | HeaderSplit(line, n', j')
      ensures n' == n && j' <= m
      ensures m < |rest| ==> NoTerminator(rest[m..])
      ensures m == |rest| ==> j' < m && !IsLineTerminator(rest[m - 1])
    {
      HeaderSplitBound(line, n', j');
    }
  }

  /** What one split tells about the greedy one. */
  lemma HeaderSplitBound(line: string, n': nat, j': nat)
    requires HeaderSplit(line, n', j')
    ensures var n := SkillsList.LeadingHashes(line); var rest := line[n..]; var m := LeadingSpace(rest);
      n' == n && j' <= m &&
      (m < |rest| ==> NoTerminator(rest[m..])) &&
      (m == |rest| ==> j' < m && !IsLineTerminator(rest[m - 1]))
  {
    var n := SkillsList.LeadingHashes(line);
    var rest := line[n..];
    var m := LeadingSpace(rest);
    HeaderSplitShape(line, n', j');
    assert line[n + j'..] == rest[j'..];
    NoTerminatorFrom(rest, j', m);
  }

  /** A terminator-free suffix stays so when it starts later. */
  lemma NoTerminatorFrom(s: string, a: nat, b: nat)
    requires a < |s| && a <= b <= |s| && NoTerminator(s[a..])
    ensures b < |s| ==> NoTerminator(s[b..])
    ensures b == |s| ==> a < b && !IsLineTerminator(s[b - 1])
  {
    if b < |s| {
      forall i | 0 <= i < |s| - b ensures !IsLineTerminator(s[b..][i]) {
        assert s[b..][i] == s[a..][b - a + i];
      }
    } else {
      assert s[b - 1] == s[a..][b - 1 - a];
    }
  }

  /** The function gives the capture the engine would: it matches exactly
      when some split exists, and then returns the preferred one. */
  lemma HeaderMatchSpec(line: string)
    ensures HeaderMatch(line).Some? ==> HeaderCapture(line, HeaderMatch(line).value)
    ensures HeaderMatch(line).None? ==> forall n: nat, j: nat :: !HeaderSplit(line, n, j)
  {
    HeaderSplitsBounded(line);
    if HeaderMatch(line).Some? {
      HeaderMatchPreferred(line);
    }
  }

  /** A match comes from a split that every other split gives way to. */
  lemma HeaderMatchPreferred(line: string)
    requires HeaderMatch(line).Some?
    ensures HeaderCapture(line, HeaderMatch(line).value)
  {
    var n := SkillsList.LeadingHashes(line);
    var rest := line[n..];
    var m := LeadingSpace(rest);
    var j := if m < |rest| then m else m - 1;
    assert line[n..n + j] == rest[..m][..j];
    assert line[n + j..] == rest[j..];
    assert HeaderSplit(line, n, j);
    HeaderSplitsBounded(line);
  }

  /** The characters `[:\s]` matches. */
  predicate ColonOrSpace(c: char) {
    c == ':' || IsSpace(c)
  }

  /** The length of the leading run of `[:\s]` characters. */
  function ColonSpace(t: string): (k: nat)
    ensures k <= |t| && forall i | 0 <= i < k :: ColonOrSpace(t[i])
    ensures k < |t| ==> !ColonOrSpace(t[k])
  {
    if |t| == 0 || !ColonOrSpace(t[0]) then 0 else 1 + ColonSpace(t[1..])
  }

  /** The run is as long as any run of `[:\s]` characters at the start. */
  lemma {:induction false} ColonSpaceLongest(t: string, k: nat)
    requires k <= |t| && forall i | 0 <= i < k :: ColonOrSpace(t[i])
    ensures k <= ColonSpace(t)
  {
    if k > 0 {
      forall i | 0 <= i < k - 1 ensures ColonOrSpace(t[1..][i]) {
        assert t[1..][i] == t[i + 1];
      }
      ColonSpaceLongest(t[1..], k - 1);
    }
  }

  /** The second capture of `[:\s]*(.*)$` on what follows the closing
      `**`, or `None` when it does not match: the greedy class takes its
      whole run, and giving characters back cannot help, since `.*` would
      have to cover the same line terminator. */
  function TailMatch(t: string): (r: Option<string>)
    ensures r.Some? <==> NoTerminator(t[ColonSpace(t)..])
    ensures r.Some? ==> r.value == t[ColonSpace(t)..]
  {
    var k := ColonSpace(t);
    if NoTerminator(t[k..]) then Some(t[k..]) else None
  }

  /** The tail matches for some split exactly when it matches for the
      greedy one. */
  lemma TailMatchSpec(t: string, k: nat)
    requires k <= |t| && (forall i | 0 <= i < k :: ColonOrSpace(t[i])) && NoTerminator(t[k..])
    ensures TailMatch(t).Some? && k <= ColonSpace(t)
  {
    var c := ColonSpace(t);
    ColonSpaceLongest(t, k);
    if c >= k {
      forall i | 0 <= i < |t| - c ensures !IsLineTerminator(t[c..][i]) {
        assert t[c..][i] == t[k..][c - k + i];
      }
    }
  }

  /** A way `^\*\*(.+?)\*\*[:\s]*(.*)$` can match with a first capture of
      `i` characters. */
  predicate BoldSplit(line: string, i: nat) {
    1 <= i && 2 + i + 2 <= |line| && line[..2] == "**" &&
    NoTerminator(line[2..2 + i]) && line[2 + i..2 + i + 2] == "**" &&
    TailMatch(line[2 + i + 2..]).Some?
  }

  /** The lazy search: try a first capture of `i` characters, then of
      one more, as long as the capture stays on the line. */
  function BoldFrom(line: string, i: nat): Option<(string, string)>
    requires 1 <= i
    decreases |line| - i
  {
    if 2 + i > |line| || IsLineTerminator(line[1 + i]) then None
    else if BoldSplit(line, i) then Some((line[2..2 + i], TailMatch(line[2 + i + 2..]).value))
    else BoldFrom(line, i + 1)
  }

  /** The search from `i` on finds the shortest capture that lets the
      pattern match, given that no shorter one does. */
  lemma {:induction false} BoldFromSpec(line: string, i: nat)
    requires 1 <= i && 1 + i <= |line| && NoTerminator(line[2..1 + i])
    requires forall k: nat :: 1 <= k < i ==> !BoldSplit(line, k)
    ensures BoldFrom(line, i).Some? ==>
      exists k: nat :: FirstBold(line, k) && BoldFrom(line, i).value == (line[2..2 + k], TailMatch(line[2 + k + 2..]).value)
    ensures BoldFrom(line, i).None? ==> forall k: nat :: !BoldSplit(line, k)
    decreases |line| - i
  {
    if 2 + i > |line| {
      BoldFromEnd(line, i);
    } else if IsLineTerminator(line[1 + i]) {
      TerminatorEndsSearch(line, i);
    } else if BoldSplit(line, i) {
      BoldFromHit(line, i);
    } else {
      BoldFromMiss(line, i);
      BoldFromSpec(line, i + 1);
    }
  }

  /** The search ends without a match once no room is left for the
      closing "**". */
  lemma BoldFromEnd(line: string, i: nat)
    requires 1 <= i && 2 + i > |line|
    requires forall k: nat :: 1 <= k < i ==> !BoldSplit(line, k)
    ensures BoldFrom(line, i).None? && forall k: nat :: !BoldSplit(line, k)
  {
  }

  /** The search stops at the first capture length that works. */
  lemma BoldFromHit(line: string, i: nat)
    requires 1 <= i && 2 + i <= |line| && !IsLineTerminator(line[1 + i]) && BoldSplit(line, i)
    requires forall k: nat :: 1 <= k < i ==> !BoldSplit(line, k)
    ensures BoldFrom(line, i).Some? &&
      exists k: nat :: FirstBold(line, k) && BoldFrom(line, i).value == (line[2..2 + k], TailMatch(line[2 + k + 2..]).value)
  {
    assert FirstBold(line, i);
    assert BoldFrom(line, i) == Some((line[2..2 + i], TailMatch(line[2 + i + 2..]).value));
  }

  /** The search goes on past a capture length that does not work, with
      one more character of capture known to stay on the line. */
  lemma BoldFromMiss(line: string, i: nat)
    requires 1 <= i && 2 + i <= |line| && !IsLineTerminator(line[1 + i]) && !BoldSplit(line, i)
    requires NoTerminator(line[2..1 + i])
    requires forall k: nat :: 1 <= k < i ==> !BoldSplit(line, k)
    ensures BoldFrom(line, i) == BoldFrom(line, i + 1)
    ensures NoTerminator(line[2..2 + i]) && forall k: nat :: 1 <= k < i + 1 ==> !BoldSplit(line, k)
  {
    NoTerminatorExtend(line, i);
  }

  /** A line terminator at the capture's end rules out every longer
      capture. */
  lemma TerminatorEndsSearch(line: string, i: nat)
    requires 1 <= i && 2 + i <= |line| && IsLineTerminator(line[1 + i])
    ensures BoldFrom(line, i).None? && forall k: nat :: i <= k ==> !BoldSplit(line, k)
  {
    forall k: nat | i <= k ensures !BoldSplit(line, k) {
      if 2 + k <= |line| {
        assert line[2..2 + k][i - 1] == line[1 + i];
      }
    }
  }

  lemma NoTerminatorExtend(line: string, i: nat)
    requires 1 <= i && 2 + i <= |line| && NoTerminator(line[2..1 + i]) && !IsLineTerminator(line[1 + i])
    ensures NoTerminator(line[2..2 + i])
  {
    var t, u := line[2..2 + i], line[2..1 + i];
    forall p | 0 <= p < i ensures !IsLineTerminator(t[p]) {
      if p < i - 1 { assert t[p] == u[p]; }
    }
  }

  /** The first capture length that lets the whole pattern match: `.+?`
      is lazy. */
  ghost predicate FirstBold(line: string, i: nat) {
    BoldSplit(line, i) && forall k: nat :: 1 <= k < i ==> !BoldSplit(line, k)
  }

  /** The two captures of `^\*\*(.+?)\*\*[:\s]*(.*)$`, or `None`. */
  function BoldMatch(line: string): (r: Option<(string, string)>)
    ensures r.Some? ==> StartsWith(line, "**")
  {
    if StartsWith(line, "**") then BoldFrom(line, 1) else None
  }

  /** The function gives the captures the engine would: it matches exactly
      when some capture length works, and then uses the shortest. */
  lemma BoldMatchSpec(line: string)
    ensures BoldMatch(line).Some? ==>
      exists k: nat :: FirstBold(line, k) && BoldMatch(line).value == (line[2..2 + k], TailMatch(line[2 + k + 2..]).value)
    ensures BoldMatch(line).None? ==> forall k: nat :: !BoldSplit(line, k)
  {
    if StartsWith(line, "**") {
      BoldFromSpec(line, 1);
    }
  }

  /** Example: a header's capture is the text after its whitespace. */
  lemma HeaderExample()
    ensures HeaderMatch("## Deploy") == Some("Deploy")
  {
    assert SkillsList.LeadingHashes("## Deploy") == 2;
    assert "## Deploy"[2..] == " Deploy";
    assert LeadingSpace(" Deploy") == 1;
    assert " Deploy"[1..] == "Deploy";
  }

  /** Example: a header line that ends in a carriage return (a CRLF text
      split at "\n") does not match, since `.` stops at "\r". */
  lemma HeaderCarriageReturn()
    ensures HeaderMatch("# Deploy\r") == None
  {
    assert SkillsList.LeadingHashes("# Deploy\r") == 1;
    assert "# Deploy\r"[1..] == " Deploy\r";
    assert LeadingSpace(" Deploy\r") == 1;
    assert " Deploy\r"[1..][6] == '\r';
  }

  /** Example: a header needs whitespace after its hashes. */
  lemma HeaderNeedsSpace()
    ensures HeaderMatch("#Deploy") == None
  {
    assert SkillsList.LeadingHashes("#Deploy") == 1;
    assert LeadingSpace("#Deploy"[1..]) == 0;
  }

  /** Example: a header of only whitespace matches with a blank capture,
      which trims to "". */
  lemma HeaderBlank()
    ensures HeaderMatch("#  ") == Some(" ")
  {
    assert SkillsList.LeadingHashes("#  ") == 1;
    assert "#  "[1..] == "  ";
    assert LeadingSpace("  ") == 2;
  }

  /** Example: the first capture is the shortest one, and the colon and
      spaces after the closing `**` are skipped. */
  lemma BoldExample()
    ensures BoldMatch("**a**: b") == Some(("a", "b"))
  {
    var line := "**a**: b";
    assert line[2..3] == "a" && line[3..5] == "**" && line[5..] == ": b";
    assert ColonSpace(": b") == 2 by {
      assert ": b"[1..] == " b" && " b"[1..] == "b";
    }
    assert ": b"[2..] == "b";
    assert NoTerminator(line[2..3]);
    assert BoldSplit(line, 1);
  }

  /** No line matches both patterns: a header starts with '#', a bold
      line with '*', so testing the header first never hides a bold line. */
  lemma PatternsExclusive(line: string)
    ensures HeaderMatch(line).Some? ==> BoldMatch(line).None?
  {
  }

  // ---------------------------------------------------------------------
  // Parsing skills out of text

  /** A skill under construction (`Partial<Skill>`): a header starts one
      with no description, a bold line one with a description. */
  datatype Draft = Draft(name: string, description: Option<string>)

  /** What the parse loop sees in a line: the draft it starts, or else
      its trimmed text. */
  datatype Line = Start(draft: Draft) | Plain(trimmed: string)

  /** The parser's state between lines: the skills emitted so far and the
      current draft. */
  datatype Scan = Scan(parsed: seq<Draft>, current: Option<Draft>)

  /** How a line is read: the header pattern is tried first, then the
      bold one. */
  function Classify(line: string): Line {
    match HeaderMatch(line)
    case Some(h) => Start(Draft(Trim(h), None))
    case None =>
      match BoldMatch(line)
      case Some(b) => Start(Draft(Trim(b.0), Some(Trim(b.1))))
      case None => Plain(Trim(line))
  }

  function ClassifyAll(lines: seq<string>): (r: seq<Line>)
    ensures |r| == |lines|
  {
    if |lines| == 0 then [] else ClassifyAll(DropLast(lines)) + [Classify(Last(lines))]
  }

  /** Emitting the current draft: only a draft with a non-empty name is
      kept (`currentSkill?.name`). */
  function Flush(parsed: seq<Draft>, current: Option<Draft>): (r: seq<Draft>)
    ensures |parsed| <= |r| <= |parsed| + 1 && r[..|parsed|] == parsed
    ensures |r| == |parsed| + 1 <==> current.Some? && current.value.name != ""
    ensures |r| == |parsed| + 1 ==> r[|parsed|] == current.value
  {
    if current.Some? && current.value.name != "" then parsed + [current.value] else parsed
  }

  /** `!currentSkill.description`: a missing and an empty description
      both count as absent. */
  predicate LacksDescription(d: Draft) {
    d.description.None? || d.description.value == ""
  }

  /** One iteration of the parse loop. */
  function Step(s: Scan, line: Line): Scan {
    match line
    case Start(d) => Scan(Flush(s.parsed, s.current), Some(d))
    case Plain(t) =>
      if s.current.Some? && t != "" && LacksDescription(s.current.value) then
        Scan(s.parsed, Some(s.current.value.(description := Some(t))))
      else s
  }

  /** The parser's state after the given lines. */
  function ScanLines(lines: seq<Line>): Scan {
    if |lines| == 0 then Scan([], None) else Step(ScanLines(DropLast(lines)), Last(lines))
  }

  /** The skills parsed out of a text: the last draft is emitted at the end. */
  function ParseSkills(text: string): seq<Draft> {
    SkillsOfLines(Split(text, '\n'))
  }

  /** The skills parsed out of the text's lines. */
  function SkillsOfLines(lines: seq<string>): seq<Draft> {
    var s := ScanLines(ClassifyAll(lines));
    Flush(s.parsed, s.current)
  }

  lemma ClassifyPrefix(lines: seq<string>, i: nat)
    requires i < |lines|
    ensures ClassifyAll(lines[..i + 1]) == ClassifyAll(lines[..i]) + [Classify(lines[i])]
  {
    assert DropLast(lines[..i + 1]) == lines[..i];
  }

  /** Before any line the parser has no skills and no draft. */
  lemma ScanNone(lines: seq<string>)
    ensures ScanLines(ClassifyAll(lines[..0])) == Scan([], None)
  {
    assert lines[..0] == [];
  }

  /** The state after one more line is one more step. */
  lemma ScanPrefix(lines: seq<string>, i: nat)
    requires i < |lines|
    ensures ScanLines(ClassifyAll(lines[..i + 1])) == Step(ScanLines(ClassifyAll(lines[..i])), Classify(lines[i]))
  {
    ClassifyPrefix(lines, i);
    var c := ClassifyAll(lines[..i]);
    assert DropLast(c + [Classify(lines[i])]) == c;
  }

  /** The two pattern tests of the loop body, header first. */
  method ReadLine(line: string) returns (read: Line)
    ensures read == Classify(line)
  {
    var headerMatch := HeaderMatch(line);
    var boldMatch := BoldMatch(line);
    if headerMatch.Some? {
      read := Start(Draft(Trim(headerMatch.value), None));
    } else if boldMatch.Some? {
      read := Start(Draft(Trim(boldMatch.value.0), Some(Trim(boldMatch.value.1))));
    } else {
      read := Plain(Trim(line));
    }
  }

  /** The body of the parse loop for one line that has been read: a line
      that starts a skill emits the current draft, a plain one may fill
      in its description. */
  method ApplyLine(parsed: seq<Draft>, current: Option<Draft>, read: Line)
    returns (parsedSkills: seq<Draft>, currentSkill: Option<Draft>)
    ensures Scan(parsedSkills, currentSkill) == Step(Scan(parsed, current), read)
  {
    parsedSkills, currentSkill := parsed, current;
    match read {
    case Start(d) =>
      if currentSkill.Some? && currentSkill.value.name != "" {
        parsedSkills := parsedSkills + [currentSkill.value];
      }
      currentSkill := Some(d);
    case Plain(t) =>
      if currentSkill.Some? && t != "" && LacksDescription(currentSkill.value) {
        currentSkill := Some(currentSkill.value.(description := Some(t)));
      }
    }
  }

  /** The parse loop of the page: a line that starts a skill emits the
      current draft, a plain line may fill in its description. */
  method ParseOutput(text: string) returns (parsedSkills: seq<Draft>)
    ensures parsedSkills == ParseSkills(text)
  {
    var lines := Split(text, '\n');
    parsedSkills := ParseOutputLines(lines);
  }

  /** The loop over the text's lines. */
  method ParseOutputLines(lines: seq<string>) returns (parsedSkills: seq<Draft>)
    ensures parsedSkills == SkillsOfLines(lines)
  {
    parsedSkills := [];
    PrefixBounds(lines);
    ScanNone(lines);
    var currentSkill: Option<Draft> := None;
    var i := 0;
    assert ScanLines(ClassifyAll(lines[..i])) == Scan(parsedSkills, currentSkill);
    while i < |lines|
      invariant 0 <= i <= |lines|
      invariant ScanLines(ClassifyAll(lines[..i])) == Scan(parsedSkills, currentSkill)
    {
      var read := ReadLine(lines[i]);
      parsedSkills, currentSkill := ApplyLine(parsedSkills, currentSkill, read);
      ScanPrefix(lines, i);
      i := i + 1;
      assert ScanLines(ClassifyAll(lines[..i])) == Scan(parsedSkills, currentSkill);
    }
    if currentSkill.Some? && currentSkill.value.name != "" {
      parsedSkills := parsedSkills + [currentSkill.value];
    }
  }

  // ---------------------------------------------------------------------
  // What parsing promises

  function Names(ds: seq<Draft>): (r: seq<string>)
    ensures |r| == |ds|
  {
    if |ds| == 0 then [] else Names(DropLast(ds)) + [Last(ds).name]
  }

  /** The names the lines start drafts with, in order, empty ones included. */
  function StartNames(lines: seq<Line>): seq<string> {
    if |lines| == 0 then []
    else
      var earlier := StartNames(DropLast(lines));
      match Last(lines)
      case Start(d) => earlier + [d.name]
      case Plain(_) => earlier
  }

  /** The non-empty names, in order. */
  function NonEmpty(names: seq<string>): (r: seq<string>)
    ensures forall k | 0 <= k < |r| :: r[k] != ""
  {
    if |names| == 0 then []
    else NonEmpty(DropLast(names)) + (if Last(names) != "" then [Last(names)] else [])
  }

  lemma NamesSnoc(ds: seq<Draft>, d: Draft)
    ensures Names(ds + [d]) == Names(ds) + [d.name]
  {
    assert DropLast(ds + [d]) == ds;
  }

  lemma NonEmptySnoc(names: seq<string>, n: string)
    ensures NonEmpty(names + [n]) == NonEmpty(names) + (if n != "" then [n] else [])
  {
    assert DropLast(names + [n]) == names;
  }

  /** The parser state tracks the starting lines: the current draft is
      the last one started, and the emitted drafts are the named ones
      among those before it. */
  lemma {:induction false} ScanTracksStarts(lines: seq<Line>)
    ensures var s, sn := ScanLines(lines), StartNames(lines);
      (s.current.Some? <==> |sn| > 0) &&
      (s.current.Some? ==> s.current.value.name == Last(sn) && Names(s.parsed) == NonEmpty(DropLast(sn))) &&
      (s.current.None? ==> s.parsed == [])
  {
    if |lines| > 0 {
      var earlier := DropLast(lines);
      ScanTracksStarts(earlier);
      var s0, sn0 := ScanLines(earlier), StartNames(earlier);
      match Last(lines)
      case Start(d) =>
        var sn := sn0 + [d.name];
        assert StartNames(lines) == sn;
        DropLastSnoc(sn0, d.name);
        if s0.current.Some? {
          DropLastThenLast(sn0);
          NonEmptySnoc(DropLast(sn0), Last(sn0));
          if s0.current.value.name != "" {
            NamesSnoc(s0.parsed, s0.current.value);
          }
        }
      case Plain(_) =>
    }
  }

  lemma {:induction false} NamesAt(ds: seq<Draft>, k: nat)
    requires k < |ds|
    ensures Names(ds)[k] == ds[k].name
  {
    if k < |ds| - 1 {
      NamesAt(DropLast(ds), k);
    }
  }

  /** The emitted skills are exactly the drafts with a non-empty name, in
      the order of the lines that started them, the last one included. */
  lemma ParsedNames(lines: seq<Line>)
    ensures var s := ScanLines(lines); var r := Flush(s.parsed, s.current);
      Names(r) == NonEmpty(StartNames(lines)) && forall k | 0 <= k < |r| :: r[k].name != ""
  {
    var s, sn := ScanLines(lines), StartNames(lines);
    ScanTracksStarts(lines);
    if s.current.Some? {
      assert sn == DropLast(sn) + [Last(sn)];
      NonEmptySnoc(DropLast(sn), Last(sn));
      if s.current.value.name != "" {
        NamesSnoc(s.parsed, s.current.value);
      }
    }
    var r := Flush(s.parsed, s.current);
    forall k | 0 <= k < |r| ensures r[k].name != "" {
      NamesAt(r, k);
    }
  }

  /** The skills parsed out of a text, named after the lines that start
      them. */
  lemma ParseSkillsNames(text: string)
    ensures Names(ParseSkills(text)) == NonEmpty(StartNames(ClassifyAll(Split(text, '\n'))))
    ensures forall d | d in ParseSkills(text) :: d.name != ""
  {
    ParsedNames(ClassifyAll(Split(text, '\n')));
  }

  /** Once the current draft has a description, lines that start no
      skill leave the whole parser state as it is. */
  lemma {:induction false} DescriptionKept(lines: seq<Line>, more: seq<Line>)
    requires ScanLines(lines).current.Some? && !LacksDescription(ScanLines(lines).current.value)
    requires forall k | 0 <= k < |more| :: more[k].Plain?
    ensures ScanLines(lines + more) == ScanLines(lines)
  {
    if |more| > 0 {
      assert DropLast(lines + more) == lines + DropLast(more);
      DescriptionKept(lines, DropLast(more));
      assert Last(lines + more) == Last(more);
    } else {
      assert lines + more == lines;
    }
  }

  /** A plain line fills in a draft's missing or empty description with
      its trimmed text, and changes nothing else. */
  lemma DescriptionFilled(lines: seq<Line>, t: string)
    requires t != ""
    requires ScanLines(lines).current.Some? && LacksDescription(ScanLines(lines).current.value)
    ensures ScanLines(lines + [Plain(t)]).current.value.description == Some(t)
    ensures ScanLines(lines + [Plain(t)]).current.value.name == ScanLines(lines).current.value.name
    ensures ScanLines(lines + [Plain(t)]).parsed == ScanLines(lines).parsed
  {
    assert DropLast(lines + [Plain(t)]) == lines;
  }

  // ---------------------------------------------------------------------
  // Discovery, creation and the page state

  /** A skill as the page holds it. Fields are JavaScript values: a
      discovered record copies what the listing route sent, and a parsed
      skill has no source and may have no description. */
  datatype Shown = Shown(name: Js.Value, description: Js.Value, source: Js.Value)

  function ShownDraft(d: Draft): (r: Shown)
    ensures r.name == Js.Str(d.name) && r.source == Js.Undefined
    ensures d.description.Some? ==> r.description == Js.Str(d.description.value)
    ensures d.description.None? ==> r.description == Js.Undefined
  {
    Shown(Js.Str(d.name), if d.description.Some? then Js.Str(d.description.value) else Js.Undefined, Js.Undefined)
  }

  function ShownDrafts(ds: seq<Draft>): (r: seq<Shown>)
    ensures |r| == |ds|
    ensures forall k | 0 <= k < |ds| :: r[k] == ShownDraft(ds[k])
  {
    if |ds| == 0 then [] else [ShownDraft(ds[0])] + ShownDrafts(ds[1..])
  }

  /** One record of the listing: `{name, description: description || "",
      source: path}`; reading a field of null or undefined throws. */
  function Record(v: Js.Value): (r: Result<Shown, string>)
    ensures r.Err? <==> v == Js.Undefined || v == Js.Null
  {
    match Js.Get(v, "name")
    case Err(e) => Err(e)
    case Ok(name) =>
      Ok(Shown(name, Js.Or(Js.Get(v, "description").value, Js.Str("")), Js.Get(v, "path").value))
  }

  function Records(vs: seq<Js.Value>): (r: Result<seq<Shown>, string>)
    ensures r.Ok? <==> forall k | 0 <= k < |vs| :: Record(vs[k]).Ok?
    ensures r.Ok? ==> |r.value| == |vs| && forall k | 0 <= k < |vs| :: r.value[k] == Record(vs[k]).value
  {
    if |vs| == 0 then Ok([])
    else
      match Record(vs[0])
      case Err(e) => Err(e)
      case Ok(first) =>
        match Records(vs[1..])
        case Err(e) => Err(e)
        case Ok(rest) => Ok([first] + rest)
  }

  /** The skills of the listing's JSON body: `(data.skills || []).map(...)`;
      `map` on anything but an array throws. */
  function Discovered(data: Js.Value): (r: Result<seq<Shown>, string>)
    ensures data == Js.Undefined || data == Js.Null ==> r.Err?
  {
    match Js.Get(data, "skills")
    case Err(e) => Err(e)
    case Ok(skills) =>
      var list := Js.Or(skills, Js.Arr([]));
      if list.Arr? then Records(list.items) else Err("TypeError")
  }

  /** The JSON body the listing route sends: `{skills}`, each skill as
      `{name, path, description}`. */
  function SkillJson(s: SkillsList.Skill): Js.Value {
    Js.Obj([("name", Js.Str(s.name)), ("path", Js.Str(s.path)), ("description", Js.Str(s.description))])
  }

  function ListingJson(skills: seq<SkillsList.Skill>): Js.Value {
    Js.Obj([("skills", Js.Arr(seq(|skills|, k requires 0 <= k < |skills| => SkillJson(skills[k]))))])
  }

  /** The page shows every skill the listing route reports, in order, with
      its name, description (empty when it has none) and path. */
  lemma DiscoverListing(skills: seq<SkillsList.Skill>)
    ensures var r := Discovered(ListingJson(skills));
      r.Ok? && |r.value| == |skills| &&
      forall k | 0 <= k < |skills| ::
        r.value[k] == Shown(Js.Str(skills[k].name), Js.Str(skills[k].description), Js.Str(skills[k].path))
  {
    var items := seq(|skills|, k requires 0 <= k < |skills| => SkillJson(skills[k]));
    assert Js.Get(ListingJson(skills), "skills") == Ok(Js.Arr(items));
    forall k | 0 <= k < |skills|
      ensures Record(items[k]) ==
        Ok(Shown(Js.Str(skills[k].name), Js.Str(skills[k].description), Js.Str(skills[k].path)))
    {
      var es := items[k].entries;
      assert Js.Lookup(es, "name") == Js.Str(skills[k].name);
      assert Js.Lookup(es, "path") == Js.Str(skills[k].path) by { assert es[1..][0].0 == "path"; }
      assert Js.Lookup(es[1..][1..], "description") == Js.Str(skills[k].description) by {
        assert es[1..][1..][0].0 == "description";
      }
      assert Js.Lookup(es[1..], "description") == Js.Lookup(es[1..][1..], "description");
    }
  }

  /** The request `handleCreateSkill` sends: none when the trimmed name
      or the trimmed content is empty; otherwise both untrimmed. */
  function CreateBody(name: string, content: string): (r: Option<(string, string)>)
    ensures r.Some? <==> Trim(name) != "" && Trim(content) != ""
    ensures r.Some? ==> r.value == (name, content)
  {
    if Trim(name) == "" || Trim(content) == "" then None else Some((name, content))
  }

  /** A request the page sends passes the creation route's check: the
      route creates the directory rather than answering 400. */
  lemma SentRequestAccepted(name: string, content: string, exec: seq<string> -> Result<string, string>,
                            bufferError: Js.Value -> string)
    requires CreateBody(name, content).Some?
    ensures var o := SkillsCreate.Handle(SkillsCreate.Request("POST", Js.Str(name), Js.Str(content)), exec, bufferError);
      o.Replied? && o.commands != [] && o.commands[0] == SkillsCreate.MkdirCommand()
  {
    assert name != "" && content != "";
  }

  class Page {
    var skills: seq<Shown>
    var newSkillName: string
    var newSkillContent: string

    constructor ()
      ensures skills == [] && newSkillName == "" && newSkillContent == ""
    {
      skills := [];
      newSkillName := "";
      newSkillContent := "";
    }

    /** `parseSkillsFromOutput`: the list is replaced only when at least
        one skill was parsed. */
    method ParseSkillsFromOutput(text: string)
      modifies this
      ensures |ParseSkills(text)| > 0 ==> skills == ShownDrafts(ParseSkills(text))
      ensures |ParseSkills(text)| == 0 ==> skills == old(skills)
      ensures newSkillName == old(newSkillName) && newSkillContent == old(newSkillContent)
    {
      var parsedSkills := ParseOutput(text);
      if |parsedSkills| > 0 {
        skills := ShownDrafts(parsedSkills);
      }
    }

    /** `discoverSkills` once the listing has answered: `body` is the JSON
        body of an OK response, `None` a failed one. A failure anywhere
        leaves the list as it was. */
    method DiscoverSkills(body: Option<Js.Value>)
      modifies this
      ensures body.Some? && Discovered(body.value).Ok? ==> skills == Discovered(body.value).value
      ensures !(body.Some? && Discovered(body.value).Ok?) ==> skills == old(skills)
      ensures newSkillName == old(newSkillName) && newSkillContent == old(newSkillContent)
    {
      if body.Some? {
        match Discovered(body.value)
        case Ok(fetched) => skills := fetched;
        case Err(_) =>
      }
    }

    /** The request `handleCreateSkill` would send from the form. */
    method CreateRequest() returns (request: Option<(string, string)>)
      ensures request == CreateBody(newSkillName, newSkillContent)
    {
      if Trim(newSkillName) == "" || Trim(newSkillContent) == "" {
        return None;
      }
      request := Some((newSkillName, newSkillContent));
    }

    /** The end of `handleCreateSkill`: an OK response clears the form. */
    method CreateFinished(ok: bool)
      modifies this
      ensures ok ==> newSkillName == "" && newSkillContent == ""
      ensures !ok ==> newSkillName == old(newSkillName) && newSkillContent == old(newSkillContent)
      ensures skills == old(skills)
    {
      if ok {
        newSkillName := "";
        newSkillContent := "";
      }
    }
  }
}
