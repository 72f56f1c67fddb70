/** String operations of JavaScript's `String.prototype` that the modelled
    code relies on, written out over `seq<char>` (and, where the same
    algorithm is used on byte buffers, over any sequence). */
module Text {
  import opened Results

  // ---------------------------------------------------------------------
  // Whitespace and trimming

  /** JavaScript's WhiteSpace and LineTerminator code points: the set that
      both `String.prototype.trim` and the regular-expression class `\s`
      use. */
  predicate IsSpace(c: char) {
    c == ' ' || c == '\t' || c == '\n' || c == '\r' || c == '\U{000B}' || c == '\U{000C}'
    || c == '\U{00A0}' || c == '\U{1680}' || ('\U{2000}' <= c <= '\U{200A}')
    || c == '\U{2028}' || c == '\U{2029}' || c == '\U{202F}' || c == '\U{205F}'
    || c == '\U{3000}' || c == '\U{FEFF}'
  }

  predicate AllSpace(s: string) {
    forall i | 0 <= i < |s| :: IsSpace(s[i])
  }

  /** The number of leading whitespace characters. */
  function LeadingSpace(s: string): (n: nat)
    ensures n <= |s|
    ensures AllSpace(s[..n])
    ensures n < |s| ==> !IsSpace(s[n])
  {
    if |s| == 0 || !IsSpace(s[0]) then 0
    else
      var m := LeadingSpace(s[1..]);
      assert s[1..][..m] == s[1..m + 1];
      1 + m
  }

  /** The number of trailing whitespace characters. */
  function TrailingSpace(s: string): (n: nat)
    ensures n <= |s|
    ensures AllSpace(s[|s| - n..])
    ensures n < |s| ==> !IsSpace(s[|s| - n - 1])
  {
    if |s| == 0 || !IsSpace(s[|s| - 1]) then 0
    else
      var m := TrailingSpace(s[..|s| - 1]);
      assert s[..|s| - 1][|s| - 1 - m..] == s[|s| - 1 - m..|s| - 1];
      1 + m
  }

  function TrimStart(s: string): (r: string)
    ensures r == s[LeadingSpace(s)..]
  {
    s[LeadingSpace(s)..]
  }

  function TrimEnd(s: string): (r: string)
    ensures r == s[..|s| - TrailingSpace(s)]
  {
    s[..|s| - TrailingSpace(s)]
  }

  /** `s.trim()`: `s` without its leading and its trailing whitespace
      (TrimSpec states what that is). */
  function Trim(s: string): (r: string)
    ensures |r| <= |s|
  {
    var t := s[LeadingSpace(s)..];
    t[..|t| - TrailingSpace(t)]
  }

  /** The trimmed text is the slice of `s` between its leading and its
      trailing whitespace; it is empty exactly when `s` is all
      whitespace. */
  lemma TrimSpec(s: string)
    ensures exists i, j :: 0 <= i <= j <= |s| && Trim(s) == s[i..j] && AllSpace(s[..i]) && AllSpace(s[j..])
    ensures Trim(s) != [] ==> !IsSpace(Trim(s)[0]) && !IsSpace(Trim(s)[|Trim(s)| - 1])
    ensures Trim(s) == [] <==> AllSpace(s)
  {
    var i := LeadingSpace(s);
    var t := s[i..];
    var k := TrailingSpace(t);
    TrimSlice(s, i, k);
    var j := |s| - k;
    assert 0 <= i <= j <= |s| && Trim(s) == s[i..j] && AllSpace(s[..i]) && AllSpace(s[j..]);
  }

  lemma TrimSlice(s: string, i: nat, k: nat)
    requires i == LeadingSpace(s) && k == TrailingSpace(s[i..])
    ensures i <= |s| - k && s[i..][..|s[i..]| - k] == s[i..|s| - k] && Trim(s) == s[i..|s| - k]
    ensures AllSpace(s[..i]) && AllSpace(s[|s| - k..])
    ensures var r := s[i..|s| - k]; r != [] ==> !IsSpace(r[0]) && !IsSpace(r[|r| - 1])
    ensures s[i..|s| - k] == [] <==> AllSpace(s)
  {
    var t := s[i..];
    assert s[|s| - k..] == t[|t| - k..];
    if i < |s| {
      assert !IsSpace(t[0]);
      assert k < |t|;
      assert !IsSpace(s[|s| - k - 1]) by { assert t[|t| - k - 1] == s[|s| - k - 1]; }
    } else {
      assert s[..i] == s;
    }
  }

  // ---------------------------------------------------------------------
  // Prefixes, suffixes, occurrences

  predicate StartsWith<T(==)>(s: seq<T>, p: seq<T>) {
    |p| <= |s| && s[..|p|] == p
  }

  predicate EndsWith<T(==)>(s: seq<T>, p: seq<T>) {
    |p| <= |s| && s[|s| - |p|..] == p
  }

  predicate OccursAt<T(==)>(s: seq<T>, p: seq<T>, j: nat) {
    j + |p| <= |s| && s[j..j + |p|] == p
  }

  /** The first occurrence of `p` in `s` at or after `from`. */
  function IndexOfFrom<T(==)>(s: seq<T>, p: seq<T>, from: nat): (r: Option<nat>)
    requires from <= |s|
    ensures r.Some? ==> from <= r.value && OccursAt(s, p, r.value)
    ensures r.Some? ==> forall j | from <= j < r.value :: !OccursAt(s, p, j)
    ensures r.None? ==> forall j | from <= j :: !OccursAt(s, p, j)
    decreases |s| - from
  {
    if from + |p| > |s| then None
    else if s[from..from + |p|] == p then Some(from)
    else if from == |s| then None
    else IndexOfFrom(s, p, from + 1)
  }

  /** `s.indexOf(p)` as an option: the position of the FIRST occurrence. */
  function IndexOf<T(==)>(s: seq<T>, p: seq<T>): (r: Option<nat>)
    ensures r.Some? ==> OccursAt(s, p, r.value)
    ensures r.Some? ==> forall j | 0 <= j < r.value :: !OccursAt(s, p, j)
    ensures r.None? ==> forall j | 0 <= j :: !OccursAt(s, p, j)
  {
    IndexOfFrom(s, p, 0)
  }

  /** `s.includes(p)`: a substring test. */
  predicate Contains<T(==)>(s: seq<T>, p: seq<T>) {
    IndexOf(s, p).Some?
  }

  /** `s.replace(p, q)` with a string pattern: only the first occurrence
      is replaced. */
  function ReplaceFirst(s: string, p: string, q: string): (r: string)
    ensures IndexOf(s, p).None? ==> r == s
    ensures IndexOf(s, p).Some? ==>
      var k := IndexOf(s, p).value; r == s[..k] + q + s[k + |p|..]
  {
    match IndexOf(s, p)
    case None => s
    case Some(k) => s[..k] + q + s[k + |p|..]
  }

  lemma StartsWithIndexOf(s: string, p: string)
    requires StartsWith(s, p)
    ensures IndexOf(s, p) == Some(0)
  {
    assert OccursAt(s, p, 0);
  }

  /** Replacing a prefix. */
  lemma ReplacePrefix(s: string, p: string, q: string)
    requires StartsWith(s, p)
    ensures ReplaceFirst(s, p, q) == q + s[|p|..]
  {
    StartsWithIndexOf(s, p);
  }

  // ---------------------------------------------------------------------
  // Splitting and joining

  /** `parts.join(sep)`. */
  function Join(parts: seq<string>, sep: string): string {
    if |parts| == 0 then ""
    else if |parts| == 1 then parts[0]
    else parts[0] + sep + Join(parts[1..], sep)
  }

  /** `s.split(c)` for a one-character separator: the pieces between the
      separators, in order (see SplitSpec). */
  function Split(s: string, c: char): (r: seq<string>)
    ensures |r| >= 1
  {
    if |s| == 0 then [""]
    else
      var r := Split(s[1..], c);
      if s[0] == c then [""] + r else [[s[0]] + r[0]] + r[1..]
  }

  lemma JoinCons(a: string, rest: seq<string>, sep: string)
    requires |rest| >= 1
    ensures Join([a] + rest, sep) == a + sep + Join(rest, sep)
  {
    assert ([a] + rest)[1..] == rest;
  }

  /** Joining the pieces again with `c` gives `s` back, and no piece
      contains `c`; together these two facts determine the pieces. */
  lemma {:induction false} SplitSpec(s: string, c: char)
    ensures Join(Split(s, c), [c]) == s
    ensures forall i | 0 <= i < |Split(s, c)| :: c !in Split(s, c)[i]
  {
    if |s| > 0 {
      var t := s[1..];
      SplitSpec(t, c);
      var r := Split(t, c);
      assert s == [s[0]] + t;
      if s[0] == c {
        assert Split(s, c) == [""] + r;
        JoinCons("", r, [c]);
      } else {
        var h := [s[0]] + r[0];
        assert Split(s, c) == [h] + r[1..];
        if |r| == 1 {
          assert Join(r, [c]) == r[0];
        } else {
          JoinCons(r[0], r[1..], [c]);
          assert r == [r[0]] + r[1..];
          JoinCons(h, r[1..], [c]);
        }
        forall i | 0 <= i < |Split(s, c)| ensures c !in Split(s, c)[i] {
          if i == 0 { assert c !in r[0]; } else { assert Split(s, c)[i] == r[i]; }
        }
      }
    } else {
      assert Split(s, c) == [""];
    }
  }

  /** Without a separator, the split is the whole text. */
  lemma {:induction false} SplitNoSeparator(s: string, c: char)
    requires c !in s
    ensures Split(s, c) == [s]
  {
    if |s| > 0 {
      SplitNoSeparator(s[1..], c);
      assert [s[0]] + s[1..] == s;
    }
  }

  /** One step of the split: the first character and the rest. */
  lemma SplitCons(h: char, t: string, c: char)
    ensures Split([h] + t, c) ==
      if h == c then [""] + Split(t, c) else [[h] + Split(t, c)[0]] + Split(t, c)[1..]
  {
    assert ([h] + t)[0] == h && ([h] + t)[1..] == t;
  }

  /** Splitting at a separator occurrence splits both sides. */
  lemma {:induction false} SplitAppend(a: string, c: char, b: string)
    ensures Split(a + [c] + b, c) == Split(a, c) + Split(b, c)
  {
    if |a| == 0 {
      assert a + [c] + b == [c] + b;
      SplitCons(c, b, c);
    } else {
      SplitAppend(a[1..], c, b);
      SplitAppendStep(a[0], a[1..], c, b);
      assert a == [a[0]] + a[1..];
    }
  }

  lemma SplitAppendStep(h: char, u: string, c: char, b: string)
    requires Split(u + [c] + b, c) == Split(u, c) + Split(b, c)
    ensures Split([h] + u + [c] + b, c) == Split([h] + u, c) + Split(b, c)
  {
    assert [h] + u + [c] + b == [h] + (u + [c] + b);
    SplitCons(h, u + [c] + b, c);
    SplitCons(h, u, c);
    ConsAppend(h == c, [h], Split(u, c), Split(b, c));
  }

  /** The sequence fact behind SplitAppendStep, kept apart from Split. */
  lemma ConsAppend(sep: bool, h: string, x: seq<string>, y: seq<string>)
    requires |x| >= 1
    ensures (if sep then [""] + (x + y) else [h + (x + y)[0]] + (x + y)[1..]) ==
      (if sep then [""] + x else [h + x[0]] + x[1..]) + y
  {
    if sep {
      assert [""] + (x + y) == ([""] + x) + y;
    } else {
      var p: seq<string> := [h + x[0]];
      assert (x + y)[0] == x[0];
      assert (x + y)[1..] == x[1..] + y;
      assert p + (x[1..] + y) == (p + x[1..]) + y;
    }
  }

  /** The first piece of a split is a prefix of the text. */
  lemma {:induction false} SplitHead(s: string, c: char)
    ensures Split(s, c)[0] <= s
  {
    if |s| > 0 && s[0] != c {
      SplitHead(s[1..], c);
      assert s == [s[0]] + s[1..];
    }
  }

  /** The first piece of a split ends at the end of the text or at a
      separator. */
  lemma {:induction false} SplitHeadStop(s: string, c: char)
    ensures var k := |Split(s, c)[0]|; k == |s| || (k < |s| && s[k] == c)
  {
    if |s| > 0 && s[0] != c {
      SplitHeadStop(s[1..], c);
      assert s == [s[0]] + s[1..];
    }
  }

  /** With a separator in the text, the first piece is the text before
      its first occurrence, and the other pieces are the split of what
      follows it. */
  lemma {:induction false} SplitFirst(s: string, c: char)
    requires c in s
    ensures var k := |Split(s, c)[0]|;
      k < |s| && s[k] == c && s[..k] == Split(s, c)[0]
      && |Split(s, c)| >= 2 && Split(s, c)[1..] == Split(s[k + 1..], c)
  {
    if s[0] != c {
      var t := s[1..];
      assert c in t by { var j :| 0 <= j < |s| && s[j] == c; assert t[j - 1] == c; }
      SplitFirst(t, c);
      var r := Split(t, c);
      var k := |r[0]| + 1;
      assert Split(s, c) == [[s[0]] + r[0]] + r[1..];
      assert s[..k] == [s[0]] + t[..k - 1];
      assert s[k + 1..] == t[k..];
    }
  }

  /** The head of the second piece of a split by `c`, split again by `d`:
      it starts just after the first `c`, holds neither separator, and
      ends at a `d`, a `c` or the end of the text. */
  lemma SecondPieceHead(s: string, c: char, d: char)
    requires c in s
    ensures |Split(s, c)| >= 2
    ensures var k := |Split(s, c)[0]|; var t := Split(Split(s, c)[1], d)[0];
      k < |s| && s[k] == c && c !in s[..k] && t <= s[k + 1..] && c !in t && d !in t
      && (k + 1 + |t| == |s| || s[k + 1 + |t|] == d || s[k + 1 + |t|] == c)
  {
    var pieces := Split(s, c);
    SplitSpec(s, c);
    SplitFirst(s, c);
    var k := |pieces[0]|;
    var rest := s[k + 1..];
    assert pieces[1] == Split(rest, c)[0];
    SplitHead(rest, c);
    SplitHeadStop(rest, c);
    var p := pieces[1];
    SplitSpec(p, d);
    SplitHead(p, d);
    SplitHeadStop(p, d);
    var t := Split(p, d)[0];
    assert c !in t by { assert forall j | 0 <= j < |t| :: t[j] == p[j]; }
    assert k + 1 + |t| == |s| || s[k + 1 + |t|] == d || s[k + 1 + |t|] == c by {
      if |t| < |p| {
        assert s[k + 1 + |t|] == p[|t|];
      } else if |p| < |rest| {
        assert s[k + 1 + |t|] == rest[|p|];
      }
    }
  }

  /** Regrouping a concatenation of three, over plain names. */
  lemma Regroup<T>(a: seq<T>, b: seq<T>, c: seq<T>, whole: seq<T>)
    requires a + (b + c) == whole
    ensures (a + b) + c == whole
  {
    assert a + (b + c) == (a + b) + c;
  }

  /** The empty and the whole prefix of a sequence. */
  lemma PrefixBounds<T>(s: seq<T>)
    ensures s[..0] == [] && s[..|s|] == s
  {
  }

  /** The last element of a sequence. */
  function Last<T>(s: seq<T>): T
    requires |s| > 0
  {
    s[|s| - 1]
  }

  function DropLast<T>(s: seq<T>): seq<T>
  {
    if |s| == 0 then [] else s[..|s| - 1]
  }

  /** Dropping the last element undoes appending one. */
  lemma DropLastSnoc<T>(s: seq<T>, x: T)
    ensures DropLast(s + [x]) == s && Last(s + [x]) == x
  {
    assert (s + [x])[..|s|] == s;
  }

  /** A non-empty sequence is its front and its last element. */
  lemma DropLastThenLast<T>(s: seq<T>)
    requires |s| > 0
    ensures s == DropLast(s) + [Last(s)]
  {
  }

  /** A join of two or more parts ends with the separator and the last part. */
  lemma {:induction false} JoinSnoc(parts: seq<string>, sep: string)
    requires |parts| >= 2
    ensures Join(parts, sep) == Join(DropLast(parts), sep) + sep + Last(parts)
  {
    var tail := parts[1..];
    if |parts| == 2 {
      assert DropLast(parts) == [parts[0]];
      assert tail == [parts[1]];
    } else {
      JoinSnoc(tail, sep);
      assert DropLast(parts) == [parts[0]] + DropLast(tail);
      JoinCons(parts[0], DropLast(tail), sep);
      assert Last(tail) == Last(parts);
    }
  }

  /** Joining all pieces but the last gives the text before the last
      separator (and nothing when there is no separator), and the last
      piece, which holds no separator, is the text after it. */
  lemma SplitLastPiece(s: string, c: char)
    ensures var r := Split(s, c);
      s == (if |r| == 1 then "" else Join(DropLast(r), [c]) + [c]) + Last(r)
    ensures c !in Last(Split(s, c))
  {
    SplitSpec(s, c);
    var r := Split(s, c);
    assert r[|r| - 1] == Last(r);
    if |r| > 1 {
      JoinSnoc(r, [c]);
    }
  }

  /** Splitting a join of separator-free pieces gives the pieces back. */
  lemma {:induction false} SplitJoin(parts: seq<string>, c: char)
    requires |parts| >= 1 && forall k | 0 <= k < |parts| :: c !in parts[k]
    ensures Split(Join(parts, [c]), c) == parts
  {
    if |parts| == 1 {
      SplitNoSeparator(parts[0], c);
    } else {
      var rest := parts[1..];
      SplitJoin(rest, c);
      JoinCons(parts[0], rest, [c]);
      SplitAppend(parts[0], c, Join(rest, [c]));
      SplitNoSeparator(parts[0], c);
      assert parts == [parts[0]] + rest;
    }
  }

  // ---------------------------------------------------------------------
  // Runs of slashes

  /** Removes a leading run of '/'. */
  function DropSlashes(s: string): (r: string)
    ensures |r| <= |s| && (r == [] || r[0] != '/')
    ensures |s| > 0 && s[0] == '/' ==> |r| < |s|
    ensures s == Repeat('/', |s| - |r|) + r
  {
    if |s| > 0 && s[0] == '/' then
      var r := DropSlashes(s[1..]);
      assert s == ['/'] + s[1..];
      assert ['/'] + Repeat('/', |s[1..]| - |r|) == Repeat('/', |s| - |r|);
      r
    else s
  }

  function Repeat(c: char, n: nat): (r: string)
    ensures |r| == n && forall i | 0 <= i < n :: r[i] == c
  {
    if n == 0 then [] else [c] + Repeat(c, n - 1)
  }

  predicate NoDoubleSlash(s: string) {
    forall i | 0 <= i < |s| - 1 :: !(s[i] == '/' && s[i + 1] == '/')
  }

  /** The characters of `s` other than '/', in order. */
  function NonSlash(s: string): string {
    if |s| == 0 then "" else (if s[0] == '/' then "" else [s[0]]) + NonSlash(s[1..])
  }

  /** Removing slashes works piece by piece. */
  lemma {:induction false} NonSlashAppend(a: string, b: string)
    ensures NonSlash(a + b) == NonSlash(a) + NonSlash(b)
  {
    if |a| == 0 {
      assert a + b == b;
    } else {
      assert (a + b)[1..] == a[1..] + b;
      assert (a + b)[0] == a[0];
      NonSlashAppend(a[1..], b);
    }
  }

  /** `s.replace(/\/+/g, "/")`: every run of slashes becomes one slash. */
  function CollapseSlashes(s: string): (r: string)
    ensures |r| <= |s|
    ensures r == [] <==> s == []
    ensures r != [] ==> (r[0] == '/' <==> s[0] == '/')
    decreases |s|
  {
    if |s| == 0 then ""
    else if s[0] == '/' then "/" + CollapseSlashes(DropSlashes(s))
    else [s[0]] + CollapseSlashes(s[1..])
  }

  lemma NonSlashRepeat(n: nat, t: string)
    ensures NonSlash(Repeat('/', n) + t) == NonSlash(t)
  {
    if n > 0 {
      var u := Repeat('/', n - 1) + t;
      assert Repeat('/', n) + t == ['/'] + u;
      assert (['/'] + u)[1..] == u;
      assert NonSlash(['/'] + u) == NonSlash(u);
      NonSlashRepeat(n - 1, t);
    } else {
      assert Repeat('/', n) + t == t;
    }
  }

  /** Text without slashes is left as it is. */
  lemma {:induction false} CollapseNoSlash(s: string)
    requires '/' !in s
    ensures CollapseSlashes(s) == s
  {
    if |s| > 0 {
      assert s[0] in s;
      CollapseNoSlash(s[1..]);
      assert s == [s[0]] + s[1..];
    }
  }

  /** Slash-free text after a leading run of slashes survives the drop. */
  lemma {:induction false} DropSlashesAppend(s: string, t: string)
    requires '/' !in t
    ensures DropSlashes(s + t) == DropSlashes(s) + t
  {
    if |s| > 0 && s[0] == '/' {
      assert (s + t)[1..] == s[1..] + t;
      DropSlashesAppend(s[1..], t);
    } else if |s| == 0 {
      assert s + t == t;
      if |t| > 0 { assert t[0] in t; }
    }
  }

  /** A text that ends with a slash collapses to one that does. */
  lemma {:induction false} CollapseEndsWithSlash(s: string)
    requires |s| > 0 && s[|s| - 1] == '/'
    ensures |CollapseSlashes(s)| > 0 && Last(CollapseSlashes(s)) == '/'
    decreases |s|
  {
    if s[0] == '/' {
      var t := DropSlashes(s);
      if |t| > 0 {
        assert s[|s| - |t|..] == t;
        assert t[|t| - 1] == s[|s| - 1];
        CollapseEndsWithSlash(t);
      }
    } else {
      assert |s| >= 2;
      CollapseEndsWithSlash(s[1..]);
    }
  }

  /** Collapsing distributes over a slash-free tail after a slash. */
  lemma {:induction false} CollapseTail(s: string, t: string)
    requires |s| > 0 && s[|s| - 1] == '/' && '/' !in t
    ensures CollapseSlashes(s + t) == CollapseSlashes(s) + t
    decreases |s|
  {
    if s[0] == '/' {
      CollapseTailSlash(s, t);
    } else {
      CollapseTailStep(s, t);
    }
  }

  lemma {:induction false} CollapseTailSlash(s: string, t: string)
    requires |s| > 0 && s[|s| - 1] == '/' && '/' !in t && s[0] == '/'
    ensures CollapseSlashes(s + t) == CollapseSlashes(s) + t
    decreases |s|, 0
  {
    var d := DropSlashes(s);
    assert CollapseSlashes(s + t) == "/" + CollapseSlashes(d + t) by {
      DropSlashesAppend(s, t);
      assert (s + t)[0] == '/';
      CollapseLeadingSlash(s + t);
    }
    assert CollapseSlashes(d + t) == CollapseSlashes(d) + t by {
      DropSlashesLast(s);
      if |d| == 0 {
        assert d + t == t;
        CollapseNoSlash(t);
      } else {
        CollapseTail(d, t);
      }
    }
    CollapseLeadingSlash(s);
    ConsTail(CollapseSlashes(s + t), "/", CollapseSlashes(d + t), CollapseSlashes(s), CollapseSlashes(d), t);
  }

  /** Associativity of concatenation, stated over plain names so that the
      solver does not look inside the terms it is used on. */
  lemma ConsTail<T>(a: seq<T>, h: seq<T>, b: seq<T>, c: seq<T>, x: seq<T>, t: seq<T>)
    requires a == h + b && b == x + t && c == h + x
    ensures a == c + t
  {
    assert h + (x + t) == (h + x) + t;
  }

  /** One step of the collapse at a leading slash. */
  lemma CollapseLeadingSlash(s: string)
    requires |s| > 0 && s[0] == '/'
    ensures CollapseSlashes(s) == "/" + CollapseSlashes(DropSlashes(s))
  {
  }

  /** One step of the collapse at a leading character other than '/'. */
  lemma CollapseLeadingChar(s: string)
    requires |s| > 0 && s[0] != '/'
    ensures CollapseSlashes(s) == [s[0]] + CollapseSlashes(s[1..])
  {
  }

  /** Dropping the leading slashes keeps the last character. */
  lemma {:induction false} DropSlashesLast(s: string)
    requires |s| > 0 && s[|s| - 1] == '/'
    ensures var d := DropSlashes(s); |d| == 0 || d[|d| - 1] == '/'
  {
    if s[0] == '/' && |s| > 1 {
      assert s[1..][|s| - 2] == '/';
      DropSlashesLast(s[1..]);
    }
  }

  lemma {:induction false} CollapseTailStep(s: string, t: string)
    requires |s| > 0 && s[|s| - 1] == '/' && '/' !in t && s[0] != '/'
    ensures CollapseSlashes(s + t) == CollapseSlashes(s) + t
    decreases |s|, 0
  {
    var u := s[1..];
    assert |s| >= 2;
    assert (s + t)[1..] == u + t;
    assert (s + t)[0] == s[0];
    assert CollapseSlashes(s + t) == [s[0]] + CollapseSlashes(u + t);
    assert u[|u| - 1] == '/';
    CollapseTail(u, t);
    CollapseLeadingChar(s);
    ConsTail(CollapseSlashes(s + t), [s[0]], CollapseSlashes(u + t), CollapseSlashes(s), CollapseSlashes(u), t);
  }

  /** A text is left as it is exactly when it has no doubled slash. */
  lemma {:induction false} CollapseFixed(s: string)
    ensures CollapseSlashes(s) == s <==> NoDoubleSlash(s)
  {
    CollapseSlashesSpec(s);
    if NoDoubleSlash(s) && |s| > 0 {
      var u := s[1..];
      assert NoDoubleSlash(u) by {
        forall i | 0 <= i < |u| - 1 ensures !(u[i] == '/' && u[i + 1] == '/') {
          assert u[i] == s[i + 1] && u[i + 1] == s[i + 2];
        }
      }
      CollapseFixed(u);
      assert s == [s[0]] + u;
      if s[0] == '/' {
        assert DropSlashes(s) == u by {
          assert DropSlashes(s) == DropSlashes(u);
          assert |u| == 0 || u[0] == s[1];
        }
        CollapseLeadingSlash(s);
        assert "/" == [s[0]];
      } else {
        CollapseLeadingChar(s);
      }
    }
  }

  /** The collapsed string has no two consecutive slashes, keeps every other
      character in order, and collapsing again changes nothing. */
  lemma {:induction false} CollapseSlashesSpec(s: string)
    ensures NoDoubleSlash(CollapseSlashes(s))
    ensures NonSlash(CollapseSlashes(s)) == NonSlash(s)
    ensures CollapseSlashes(CollapseSlashes(s)) == CollapseSlashes(s)
    decreases |s|
  {
    if |s| == 0 {
    } else if s[0] == '/' {
      var t := DropSlashes(s);
      CollapseSlashesSpec(t);
      var r := CollapseSlashes(t);
      CollapseLeadingSlash(s);
      assert r == [] || r[0] != '/' by {
        if r != [] { assert t != [] && t[0] != '/'; }
      }
      NonSlashRepeat(|s| - |t|, t);
      assert NonSlash("/" + r) == NonSlash(r) by { assert ("/" + r)[1..] == r; }
      assert DropSlashes("/" + r) == r by { assert ("/" + r)[1..] == r; }
      assert CollapseSlashes("/" + r) == "/" + CollapseSlashes(r);
    } else {
      var t := s[1..];
      CollapseSlashesSpec(t);
      var r := CollapseSlashes(t);
      CollapseLeadingChar(s);
      assert ([s[0]] + r)[1..] == r;
      assert NonSlash([s[0]] + r) == [s[0]] + NonSlash(r);
    }
  }

  // ---------------------------------------------------------------------
  // Numbers as text

  function DigitChar(d: nat): char
    requires d < 10
  {
    "0123456789"[d]
  }

  /** The decimal text of a number, as `String(n)` gives it. */
  function NatToString(n: nat): (r: string)
    ensures |r| >= 1
    ensures forall i | 0 <= i < |r| :: '0' <= r[i] <= '9'
    ensures n < 10 ==> r == [DigitChar(n)]
  {
    if n < 10 then [DigitChar(n)] else NatToString(n / 10) + [DigitChar(n % 10)]
  }

  function IntToString(n: int): (r: string)
    ensures |r| >= 1
  {
    if n < 0 then "-" + NatToString(-n) else NatToString(n)
  }

  /** ASCII lower-casing, which is what `toLowerCase` does to the
      characters that matter here (names, header names). */
  function AsciiLower(c: char): (r: char)
    ensures 'A' <= c <= 'Z' ==> r as int == c as int + 32
    ensures !('A' <= c <= 'Z') ==> r == c
  {
    if 'A' <= c <= 'Z' then (c as int - 'A' as int + 'a' as int) as char else c
  }
}
