/** The code-review workflow of app/workflows/code_review.py: five line-oriented
    analyses of a source text, the tools that wrap them, and the graph that
    chains them with a quality gate. Scores are integers counting hundredths
    (0.8 is 80). */
module CodeReview {
  import opened Wrappers
  import opened Schemas
  import opened Registry
  import opened Interpreter
  import opened Engine

  // ---------------------------------------------------------------------------
  // text

  /** `str.isspace` for one character. */
  predicate IsSpace(c: char) {
    || c == ' ' || ('\t' <= c <= '\r') || ('\U{1C}' <= c <= '\U{1F}')
    || c == '\U{85}' || c == '\U{A0}' || c == '\U{1680}' || ('\U{2000}' <= c <= '\U{200A}')
    || c == '\U{2028}' || c == '\U{2029}' || c == '\U{202F}' || c == '\U{205F}' || c == '\U{3000}'
  }

  predicate AllSpace(s: string) {
    forall i :: 0 <= i < |s| ==> IsSpace(s[i])
  }

  /** `s.lstrip()` */
  function StripLeading(s: string): (r: string)
    ensures |r| <= |s| && r == s[|s| - |r|..]
    ensures AllSpace(s[..|s| - |r|])
    ensures r == [] || !IsSpace(r[0])
  {
    if s != [] && IsSpace(s[0]) then
      var t := s[1..];
      var r := StripLeading(t);
      assert t[|t| - |r|..] == s[|s| - |r|..];
      var margin := s[..|s| - |r|];
      assert AllSpace(margin) by {
        forall q | 0 <= q < |margin|
          ensures IsSpace(margin[q])
        {
          if q > 0 {
            assert margin[q] == t[..|t| - |r|][q - 1];
          }
        }
      }
      r
    else s
  }

  /** `s.rstrip()` */
  function StripTrailing(s: string): (r: string)
    ensures |r| <= |s| && r == s[..|r|]
    ensures AllSpace(s[|r|..])
    ensures r == [] || !IsSpace(r[|r| - 1])
  {
    if s != [] && IsSpace(s[|s| - 1]) then
      var t := s[..|s| - 1];
      var r := StripTrailing(t);
      assert t[..|r|] == s[..|r|];
      assert AllSpace(s[|r|..]) by {
        forall q | 0 <= q < |s| - |r|
          ensures IsSpace(s[|r|..][q])
        {
          if q < |t| - |r| {
            assert s[|r|..][q] == t[|r|..][q];
          }
        }
      }
      r
    else s
  }

  /** `s.strip()`: the longest run of `s` that neither starts nor ends with
      whitespace, cut out of `s` between two all-whitespace margins. */
  function Strip(s: string): (r: string)
    ensures exists i, j :: 0 <= i <= j <= |s| && r == s[i..j] && AllSpace(s[..i]) && AllSpace(s[j..])
    ensures r == [] || (!IsSpace(r[0]) && !IsSpace(r[|r| - 1]))
  {
    var left := StripLeading(s);
    var r := StripTrailing(left);
    var i := |s| - |left|;
    assert r == s[i..i + |r|];
    assert s[i + |r|..] == left[|r|..];
    r
  }

  predicate NoNewline(s: string) {
    forall q :: 0 <= q < |s| ==> s[q] != '\n'
  }

  /** Where the first line of `s` ends: at the first newline, or at the end. */
  function LineEnd(s: string): (k: nat)
    ensures k <= |s| && (forall q :: 0 <= q < k ==> s[q] != '\n') && (k < |s| ==> s[k] == '\n')
  {
    if s == [] || s[0] == '\n' then 0
    else 1 + LineEnd(s[1..])
  }

  /** Only one position has the three properties `LineEnd` promises. */
  lemma LineEndUnique(s: string, k: nat)
    requires k <= |s| && (forall q :: 0 <= q < k ==> s[q] != '\n') && (k < |s| ==> s[k] == '\n')
    ensures LineEnd(s) == k
  {
  }

  /** The text after the first newline: the start of the next line. */
  function Rest(s: string): (r: string)
    ensures |r| < |s| || s == []
  {
    var k := LineEnd(s);
    if k < |s| then s[k + 1..] else []
  }

  /** Cutting off a prefix of the first line leaves the rest unchanged. */
  lemma RestAfter(s: string, j: nat)
    requires j <= LineEnd(s)
    ensures Rest(s[j..]) == Rest(s)
  {
    var k := LineEnd(s);
    var t := s[j..];
    forall q | 0 <= q < k - j
      ensures t[q] != '\n'
    {
      assert t[q] == s[j + q];
    }
    LineEndUnique(t, k - j);
    if k < |s| {
      assert t[k - j + 1..] == s[k + 1..];
    }
  }

  /** `code.splitlines()` with `\n` as the only line break: no empty line is
      produced for a final newline or for an empty text. */
  function Lines(s: string): (r: seq<string>)
    decreases |s|
  {
    if s == [] then [] else [s[..LineEnd(s)]] + Lines(Rest(s))
  }

  /** Each line followed by a newline. */
  function Unlines(lines: seq<string>): string {
    if lines == [] then [] else lines[0] + "\n" + Unlines(lines[1..])
  }

  /** No line holds a newline. */
  lemma {:induction false} LinesHaveNoNewline(s: string)
    ensures forall i :: 0 <= i < |Lines(s)| ==> NoNewline(Lines(s)[i])
    decreases |s|
  {
    if s != [] {
      LinesHaveNoNewline(Rest(s));
    }
  }

  /** The text with a newline added unless it is empty or already ends with one. */
  function Terminated(s: string): string {
    if s == [] || s[|s| - 1] == '\n' then s else s + "\n"
  }

  /** Joining the lines gives back the text, with a newline added at the end
      when the text did not end with one. */
  lemma {:induction false} UnlinesLines(s: string)
    ensures Unlines(Lines(s)) == Terminated(s)
    decreases |s|
  {
    if s != [] {
      var head := s[..LineEnd(s)];
      assert Lines(s) == [head] + Lines(Rest(s));
      assert ([head] + Lines(Rest(s)))[1..] == Lines(Rest(s));
      UnlinesLines(Rest(s));
      TerminatedSplit(s);
    }
  }

  /** The terminated text is its first line, a newline, and the rest
      terminated. */
  lemma TerminatedSplit(s: string)
    requires s != []
    ensures Terminated(s) == s[..LineEnd(s)] + "\n" + Terminated(Rest(s))
  {
    var k := LineEnd(s);
    if k < |s| {
      var t := s[k + 1..];
      SplitAround(s, k);
      assert [s[k]] == "\n";
      assert Rest(s) == t;
      TerminatedAfterNewline(s[..k], t);
    } else {
      assert s[..k] == s;
      assert s[|s| - 1] != '\n';
      assert Rest(s) == [] && Terminated([]) == [];
      assert s[..k] + "\n" + [] == s + "\n";
    }
  }

  /** A text is what comes before a position, the character there, and what
      comes after. */
  lemma SplitAround<T>(s: seq<T>, k: nat)
    requires k < |s|
    ensures s == s[..k] + [s[k]] + s[k + 1..]
  {
    assert s[k..] == [s[k]] + s[k + 1..];
    assert s == s[..k] + s[k..];
  }

  /** Terminating a text that has a newline after its head terminates only
      what follows that newline. */
  lemma TerminatedAfterNewline(head: string, t: string)
    ensures Terminated(head + "\n" + t) == head + "\n" + Terminated(t)
  {
    var s := head + "\n" + t;
    if t != [] {
      assert s[|s| - 1] == t[|t| - 1];
      if t[|t| - 1] != '\n' {
        assert s + "\n" == head + "\n" + (t + "\n");
      }
    }
  }

  /** Splitting the joined lines gives back the lines, as long as none holds a
      newline of its own. */
  lemma {:induction false} LinesUnlines(lines: seq<string>)
    requires forall i :: 0 <= i < |lines| ==> NoNewline(lines[i])
    ensures Lines(Unlines(lines)) == lines
  {
    if lines != [] {
      var s := Unlines(lines);
      var l := lines[0];
      assert s == l + ("\n" + Unlines(lines[1..]));
      assert s[..|l|] == l && s[|l|] == '\n';
      LineEndUnique(s, |l|);
      assert Rest(s) == Unlines(lines[1..]);
      LinesUnlines(lines[1..]);
    }
  }

  // ---------------------------------------------------------------------------
  // extract_functions: re.findall(r"^def\s+([a-zA-Z_][a-zA-Z0-9_]*)", code, MULTILINE)

  predicate IsIdentStart(c: char) {
    ('a' <= c <= 'z') || ('A' <= c <= 'Z') || c == '_'
  }

  predicate IsIdentChar(c: char) {
    IsIdentStart(c) || ('0' <= c <= '9')
  }

  predicate IsIdentifier(s: string) {
    s != [] && IsIdentStart(s[0]) && forall i :: 0 <= i < |s| ==> IsIdentChar(s[i])
  }

  /** The length of the longest run of whitespace from position `i` (a
      greedy `\s*`). */
  function SpaceRun(s: string, i: nat): (n: nat)
    requires i <= |s|
    ensures i + n <= |s|
    ensures forall q :: i <= q < i + n ==> IsSpace(s[q])
    ensures i + n == |s| || !IsSpace(s[i + n])
    decreases |s| - i
  {
    if i < |s| && IsSpace(s[i]) then 1 + SpaceRun(s, i + 1) else 0
  }

  /** The length of the longest run of identifier characters from position
      `i` (a greedy `[a-zA-Z0-9_]*`). */
  function IdentRun(s: string, i: nat): (n: nat)
    requires i <= |s|
    ensures i + n <= |s|
    ensures forall q :: i <= q < i + n ==> IsIdentChar(s[q])
    ensures i + n == |s| || !IsIdentChar(s[i + n])
    decreases |s| - i
  {
    if i < |s| && IsIdentChar(s[i]) then 1 + IdentRun(s, i + 1) else 0
  }

  /** Only one length has the three properties `SpaceRun` promises. */
  lemma SpaceRunUnique(s: string, i: nat, n: nat)
    requires i + n <= |s|
    requires forall q :: i <= q < i + n ==> IsSpace(s[q])
    requires i + n == |s| || !IsSpace(s[i + n])
    ensures SpaceRun(s, i) == n
  {
  }

  /** Only one length has the three properties `IdentRun` promises. */
  lemma IdentRunUnique(s: string, i: nat, n: nat)
    requires i + n <= |s|
    requires forall q :: i <= q < i + n ==> IsIdentChar(s[q])
    requires i + n == |s| || !IsIdentChar(s[i + n])
    ensures IdentRun(s, i) == n
  {
  }

  datatype DefMatch = DefMatch(name: string, end: nat)

  /** `s` opens with a declaration of `name`: `def`, `w > 0` whitespace
      characters (newlines included), then `name`, an identifier that runs
      as far as identifier characters go. */
  predicate Declares(s: string, w: nat, name: string) {
    && StartsWithDef(s) && 0 < w && 3 + w + |name| <= |s|
    && (forall q :: 3 <= q < 3 + w ==> IsSpace(s[q]))
    && IsIdentifier(name) && s[3 + w..3 + w + |name|] == name
    && (3 + w + |name| == |s| || !IsIdentChar(s[3 + w + |name|]))
  }

  /** One match of the pattern at the start of `s`: it matches exactly when
      `s` opens with a declaration, and then yields the declared name. */
  function MatchDef(s: string): (r: Option<DefMatch>)
    ensures r.Some? ==> 5 <= r.value.end <= |s| && IsIdentifier(r.value.name)
    ensures r.Some? ==> StartsWithDef(s)
    ensures r.Some? ==>
              exists w: nat :: Declares(s, w, r.value.name) && r.value.end == 3 + w + |r.value.name|
    ensures forall w: nat, name :: Declares(s, w, name) ==> r == Some(DefMatch(name, 3 + w + |name|))
  {
    if StartsWithDef(s) then
      var w := SpaceRun(s, 3);
      var r := MatchAfterDef(s, w);
      assert r.Some? ==> Declares(s, w, r.value.name);
      assert forall w': nat, name :: Declares(s, w', name) ==> r == Some(DefMatch(name, 3 + w' + |name|)) by {
        forall w': nat, name | Declares(s, w', name)
          ensures r == Some(DefMatch(name, 3 + w' + |name|))
        {
          DeclaredMatch(s, w', name);
        }
      }
      r
    else None
  }

  /** A declaration is the match: its whitespace is the whole run after
      `def`, and its name the whole identifier run after that. */
  lemma DeclaredMatch(s: string, w: nat, name: string)
    requires Declares(s, w, name)
    ensures SpaceRun(s, 3) == w && IdentRun(s, 3 + w) == |name|
    ensures MatchAfterDef(s, w) == Some(DefMatch(name, 3 + w + |name|))
  {
    var n := |name|;
    assert s[3 + w] == name[0];
    SpaceRunUnique(s, 3, w);
    assert forall q :: 3 + w <= q < 3 + w + n ==> s[q] == name[q - 3 - w];
    IdentRunUnique(s, 3 + w, n);
  }

  predicate StartsWithDef(s: string) {
    |s| >= 3 && s[0] == 'd' && s[1] == 'e' && s[2] == 'f'
  }

  /** The rest of a match once `def` and `w` whitespace characters are read. */
  function MatchAfterDef(s: string, w: nat): (r: Option<DefMatch>)
    requires 3 + w <= |s|
    ensures r.Some? ==> 5 <= r.value.end <= |s| && IsIdentifier(r.value.name)
  {
    if w > 0 && 3 + w < |s| && IsIdentStart(s[3 + w]) then
      var n := IdentRun(s, 3 + w);
      Some(DefMatch(s[3 + w..3 + w + n], 3 + w + n))
    else None
  }

  /** The scan of `re.findall` over a text that starts at the beginning of a
      line: a match is taken where one starts, and the scan resumes at the
      next line start after it (`^` matches only there). */
  function FindDefs(s: string): (r: seq<string>)
    ensures forall name :: name in r ==> IsIdentifier(name)
    decreases |s|
  {
    if s == [] then []
    else
      match MatchDef(s)
      case Some(m) => [m.name] + FindDefs(Rest(s[m.end..]))
      case None => FindDefs(Rest(s))
  }

  /** `extract_functions`: the names of the top-level `def`s, in order. */
  function ExtractFunctions(code: string): (names: seq<string>)
    ensures forall name :: name in names ==> IsIdentifier(name)
    ensures forall w: nat, name :: Declares(code, w, name) ==> |names| > 0 && names[0] == name
  {
    FindDefs(code)
  }

  /** `name` is declared at position `i` of `s`, which starts a line. */
  ghost predicate DeclaredAt(s: string, i: nat, name: string) {
    i <= |s| && (i == 0 || s[i - 1] == '\n') && exists w: nat :: Declares(s[i..], w, name)
  }

  /** Every name the scan finds is declared at the start of some line. */
  lemma {:induction false} FoundAreDeclared(s: string)
    ensures forall name :: name in FindDefs(s) ==> exists i: nat :: DeclaredAt(s, i, name)
    decreases |s|
  {
    if s == [] {
      assert FindDefs(s) == [];
    } else {
      var m := MatchDef(s);
      var a := if m.Some? then m.value.end else 0;
      var t := Rest(s[a..]);
      var first := if m.Some? then [m.value.name] else [];
      var later := FindDefs(t);
      assert FindDefs(s) == first + later;
      if m.Some? {
        assert s[0..] == s;
        assert DeclaredAt(s, 0, m.value.name);
      }
      if t != [] {
        var p := RestSuffix(s, a);
        FoundAreDeclared(t);
        forall name | name in later
          ensures exists i: nat :: DeclaredAt(s, i, name)
        {
          var i: nat :| DeclaredAt(t, i, name);
          ShiftDeclared(s, p, i, name);
        }
      } else {
        assert later == [];
      }
    }
  }

  /** What follows the first line break from position `a` is a suffix of `s`
      that starts a line. */
  lemma RestSuffix(s: string, a: nat) returns (p: nat)
    requires a <= |s| && Rest(s[a..]) != []
    ensures a < p <= |s| && s[p - 1] == '\n' && Rest(s[a..]) == s[p..]
  {
    var x := s[a..];
    var k := LineEnd(x);
    p := a + k + 1;
    assert x[k] == s[p - 1];
    assert x[k + 1..] == s[p..];
  }

  /** A declaration at a line start of a suffix is one of the whole text. */
  lemma ShiftDeclared(s: string, p: nat, i: nat, name: string)
    requires 0 < p <= |s| && s[p - 1] == '\n' && DeclaredAt(s[p..], i, name)
    ensures DeclaredAt(s, p + i, name)
  {
    var t := s[p..];
    assert t[i..] == s[p + i..];
    if i > 0 {
      assert t[i - 1] == s[p + i - 1];
    }
  }

  /** A line that is `def` followed by nothing but whitespace: only there can
      the pattern's `\s+` run on into the next line. */
  predicate BareDef(line: string) {
    StartsWithDef(line) && 3 + SpaceRun(line, 3) == |line|
  }

  /** The reference reading: the name a single line declares. */
  function LineDef(line: string): (r: Option<string>)
    ensures r.Some? ==> exists w: nat :: Declares(line, w, r.value)
    ensures forall w: nat, name :: Declares(line, w, name) ==> r == Some(name)
  {
    match MatchDef(line)
    case Some(m) => Some(m.name)
    case None => None
  }

  function DefsByLine(lines: seq<string>): seq<string> {
    if lines == [] then []
    else (if LineDef(lines[0]).Some? then [LineDef(lines[0]).value] else []) + DefsByLine(lines[1..])
  }

  /** On a text whose first line is not a bare `def`, the pattern matches
      within the first line or not at all, and the scan then resumes at the
      second line. */
  lemma MatchInFirstLine(s: string)
    requires s != [] && !BareDef(s[..LineEnd(s)])
    ensures MatchDef(s) == MatchDef(s[..LineEnd(s)])
    ensures MatchDef(s).Some? ==> MatchDef(s).value.end <= LineEnd(s)
  {
    var k := LineEnd(s);
    var line := s[..k];
    if StartsWithDef(s) {
      assert k >= 3 by { assert k < |s| ==> s[k] == '\n'; }
      DefInFirstLine(s, k);
    } else if |line| >= 3 {
      assert line[0] == s[0] && line[1] == s[1] && line[2] == s[2];
    }
  }

  /** The case of `MatchInFirstLine` where the text starts with `def`. */
  lemma DefInFirstLine(s: string, k: nat)
    requires 3 <= k <= |s| && (forall q :: 0 <= q < k ==> s[q] != '\n') && (k < |s| ==> s[k] == '\n')
    requires StartsWithDef(s) && !BareDef(s[..k])
    ensures MatchDef(s) == MatchDef(s[..k])
    ensures MatchDef(s).Some? ==> MatchDef(s).value.end <= k
  {
    var line := s[..k];
    assert StartsWithDef(line);
    var w := SpaceRun(line, 3);
    SpaceRunUnique(s, 3, w);
    MatchAfterDefInLine(s, k, w);
  }

  lemma MatchAfterDefInLine(s: string, k: nat, w: nat)
    requires 3 + w < k <= |s| && (k < |s| ==> s[k] == '\n')
    ensures MatchAfterDef(s, w) == MatchAfterDef(s[..k], w)
    ensures MatchAfterDef(s, w).Some? ==> MatchAfterDef(s, w).value.end <= k
  {
    var line := s[..k];
    if w > 0 && IsIdentStart(line[3 + w]) {
      var n := IdentRun(line, 3 + w);
      IdentRunUnique(s, 3 + w, n);
      var m := DefMatch(line[3 + w..3 + w + n], 3 + w + n);
      assert MatchAfterDef(line, w) == Some(m);
      assert s[3 + w..3 + w + n] == m.name;
    } else {
      assert MatchAfterDef(line, w) == None;
    }
  }

  /** When no line is a bare `def`, the scan finds exactly the names the
      lines declare one by one: a `def` at the start of a line, whitespace,
      an identifier; an indented `def` is not found. */
  lemma {:induction false} ExtractFunctionsByLine(code: string)
    requires forall l :: l in Lines(code) ==> !BareDef(l)
    ensures ExtractFunctions(code) == DefsByLine(Lines(code))
    decreases |code|
  {
    if code != [] {
      var k := LineEnd(code);
      var lines := Lines(code);
      assert lines[0] == code[..k] && lines[1..] == Lines(Rest(code));
      MatchInFirstLine(code);
      var m := MatchDef(code);
      if m.Some? {
        RestAfter(code, m.value.end);
        assert FindDefs(code) == [m.value.name] + FindDefs(Rest(code));
      } else {
        assert FindDefs(code) == FindDefs(Rest(code));
      }
      assert DefsByLine(lines) ==
        (if LineDef(lines[0]).Some? then [LineDef(lines[0]).value] else []) + DefsByLine(lines[1..]);
      ExtractFunctionsByLine(Rest(code));
    }
  }

  /** The one place the scan and the line-by-line reading part: after a bare
      `def` line the pattern reads the next line's first word as the name. */
  lemma BareDefReadsNextLine()
    ensures ExtractFunctions("def\ndef f") == ["def"]
  {
    var s := "def\ndef f";
    assert s[4..7] == "def" && s[7..] == " f";
    SpaceRunUnique(s, 3, 1);
    IdentRunUnique(s, 4, 3);
    assert MatchDef(s) == Some(DefMatch("def", 7));
    LineEndUnique(s[7..], 2);
    assert Rest(s[7..]) == [];
  }

  /** Read line by line, the same text declares `f`. */
  lemma BareDefLineByLine()
    ensures DefsByLine(Lines("def\ndef f")) == ["f"]
  {
    TwoLines();
    BareDefLine();
    DefFLine();
  }

  /** A bare `def` line declares nothing. */
  lemma BareDefLine()
    ensures LineDef("def") == None
  {
    SpaceRunUnique("def", 3, 0);
  }

  /** The line `def f` declares `f`. */
  lemma DefFLine()
    ensures LineDef("def f") == Some("f")
  {
    var t := "def f";
    SpaceRunUnique(t, 3, 1);
    IdentRunUnique(t, 4, 1);
    assert t[4..5] == "f";
  }

  /** The example text has two lines. */
  lemma TwoLines()
    ensures Lines("def\ndef f") == ["def", "def f"]
  {
    var s := "def\ndef f";
    var t := "def f";
    LineEndUnique(s, 3);
    assert s[..3] == "def" && s[4..] == t;
    LineEndUnique(t, 5);
    assert t[..5] == t;
    assert Lines(t) == [t] + Lines([]);
  }

  // ---------------------------------------------------------------------------
  // check_complexity

  predicate StartsWith(s: string, prefix: string) {
    |prefix| <= |s| && s[..|prefix|] == prefix
  }

  /** `sub in s` for strings. */
  predicate Contains(s: string, sub: string)
    decreases |s|
  {
    StartsWith(s, sub) || (s != [] && Contains(s[1..], sub))
  }

  const BranchKeywords: seq<string> := ["if ", "for ", "while ", "try:", "except ", "with "]

  /** A line that opens a branch: it contains one of the branch keywords. */
  predicate Branching(line: string) {
    exists k :: 0 <= k < |BranchKeywords| && Contains(line, BranchKeywords[k])
  }

  predicate IsDef(line: string) {
    StartsWith(line, "def ")
  }

  /** `[line.strip() for line in lines if line.strip()]` */
  function Significant(lines: seq<string>): (r: seq<string>)
    ensures forall i :: 0 <= i < |r| ==> r[i] != []
  {
    if lines == [] then []
    else
      var line := Strip(lines[0]);
      var rest := Significant(lines[1..]);
      if line != [] then [line] + rest else rest
  }

  function StrippedLines(code: string): seq<string> {
    Significant(Lines(code))
  }

  /** The loop's variables after some lines: the complexities of the
      functions closed so far and the running count of the open one. */
  datatype Tally = Tally(closed: seq<nat>, current: nat)

  /** The loop of `check_complexity` over `lines`: a branching line adds one
      to the open count, and a `def` line then closes it and opens a new one
      at 1. The branch test comes first, so a `def` line's own branch counts
      toward the entry it closes. */
  function TallyOf(lines: seq<string>): Tally
    decreases |lines|
  {
    if lines == [] then Tally([], 1)
    else
      var line := lines[|lines| - 1];
      Step(TallyOf(lines[..|lines| - 1]), Branching(line), IsDef(line))
  }

  /** One turn of the loop: the branch test first, then the `def` split. */
  function Step(t: Tally, branching: bool, def: bool): Tally {
    var current := t.current + (if branching then 1 else 0);
    if def then Tally(t.closed + [current], 1) else Tally(t.closed, current)
  }

  /** The complexity list: every closed entry and the final open one. */
  function Complexities(lines: seq<string>): seq<nat> {
    TallyOf(lines).closed + [TallyOf(lines).current]
  }

  function CountDefs(lines: seq<string>): nat {
    if lines == [] then 0 else CountDefs(lines[..|lines| - 1]) + (if IsDef(lines[|lines| - 1]) then 1 else 0)
  }

  function CountBranching(lines: seq<string>): nat {
    if lines == [] then 0
    else CountBranching(lines[..|lines| - 1]) + (if Branching(lines[|lines| - 1]) then 1 else 0)
  }

  function Sum(xs: seq<nat>): nat {
    if xs == [] then 0 else Sum(xs[..|xs| - 1]) + xs[|xs| - 1]
  }

  /** What the loop keeps: one closed entry per `def` line, every count at
      least 1, and the counts add up to one per entry plus one per branching
      line. */
  lemma {:induction false} TallyFacts(lines: seq<string>)
    ensures var t := TallyOf(lines);
            && |t.closed| == CountDefs(lines)
            && t.current >= 1
            && (forall i :: 0 <= i < |t.closed| ==> t.closed[i] >= 1)
            && Sum(t.closed) + t.current == |t.closed| + 1 + CountBranching(lines)
    decreases |lines|
  {
    if lines != [] {
      var t := TallyOf(lines[..|lines| - 1]);
      TallyFacts(lines[..|lines| - 1]);
      var current := t.current + (if Branching(lines[|lines| - 1]) then 1 else 0);
      if IsDef(lines[|lines| - 1]) {
        assert (t.closed + [current])[..|t.closed|] == t.closed;
      }
    }
  }

  /** `check_complexity`'s list has one entry per `def` line plus one, every
      entry is at least 1, and the entries add up to their number plus the
      number of branching lines. */
  lemma ComplexitiesFacts(lines: seq<string>)
    ensures var c := Complexities(lines);
            && |c| == CountDefs(lines) + 1
            && (forall i :: 0 <= i < |c| ==> c[i] >= 1)
            && Sum(c) == |c| + CountBranching(lines)
  {
    TallyFacts(lines);
    var t := TallyOf(lines);
    assert (t.closed + [t.current])[..|t.closed|] == t.closed;
  }

  /** A `def` line that also branches counts its branch toward the entry it
      closes, and the new entry starts at 1. */
  lemma DefBranchCountsBeforeSplit(before: seq<string>, line: string)
    requires IsDef(line) && Branching(line)
    ensures Complexities(before + [line]) ==
              TallyOf(before).closed + [TallyOf(before).current + 1, 1]
  {
    var lines := before + [line];
    assert lines[..|lines| - 1] == before && lines[|lines| - 1] == line;
    assert TallyOf(lines) == Step(TallyOf(before), true, true);
  }

  /** The loop of `check_complexity`, over the stripped non-empty lines. */
  method CheckComplexity(code: string) returns (complexities: seq<nat>)
    ensures complexities == Complexities(StrippedLines(code))
    ensures |complexities| == CountDefs(StrippedLines(code)) + 1
    ensures forall i :: 0 <= i < |complexities| ==> complexities[i] >= 1
  {
    var lines := StrippedLines(code);
    complexities := [];
    var current := 1;
    for i := 0 to |lines|
      invariant TallyOf(lines[..i]) == Tally(complexities, current)
    {
      assert lines[..i + 1][..i] == lines[..i];
      var line := lines[i];
      assert TallyOf(lines[..i + 1]) == Step(Tally(complexities, current), Branching(line), IsDef(line));
      if Branching(line) {
        current := current + 1;
      }
      if IsDef(line) {
        complexities := complexities + [current];
        current := 1;
      }
    }
    assert lines[..|lines|] == lines;
    complexities := complexities + [current];
    ComplexitiesFacts(lines);
  }

  /** Quotient and remainder by repeated subtraction. */
  function DivMod(n: nat, d: nat): (nat, nat)
    requires d > 0
    decreases n
  {
    if n < d then (0, n) else (DivMod(n - d, d).0 + 1, DivMod(n - d, d).1)
  }

  lemma {:induction false} DivModSpec(n: nat, d: nat)
    requires d > 0
    ensures n == DivMod(n, d).0 * d + DivMod(n, d).1 && DivMod(n, d).1 < d
    decreases n
  {
    if n >= d {
      DivModSpec(n - d, d);
      var q := DivMod(n - d, d).0;
      assert (q + 1) * d == q * d + d;
    }
  }

  /** `round(n / d, 0)` in exact arithmetic: the nearest integer, ties to
      the even one. */
  function RoundHalfEven(n: nat, d: nat): nat
    requires d > 0
  {
    var q := DivMod(n, d).0;
    var rem := DivMod(n, d).1;
    if 2 * rem < d then q
    else if 2 * rem > d then q + 1
    else if q % 2 == 0 then q
    else q + 1
  }

  /** The rounded quotient is within half of `d` of `n`, and on a tie it is
      even. */
  lemma RoundHalfEvenNearest(n: nat, d: nat)
    requires d > 0
    ensures var r := RoundHalfEven(n, d);
            && -(d as int) <= 2 * (r * d - n) <= d
            && (2 * (r * d - n) == d || 2 * (r * d - n) == -(d as int) ==> r % 2 == 0)
  {
    var q := DivMod(n, d).0;
    DivModSpec(n, d);
    assert (q + 1) * d == q * d + d;
  }

  /** `round(mean(complexities), 2)` in hundredths. */
  function AverageHundredths(c: seq<nat>): nat
    requires c != []
  {
    RoundHalfEven(100 * Sum(c), |c|)
  }

  // ---------------------------------------------------------------------------
  // detect_basic_issues

  /** The 1-based numbers of the lines satisfying `p`, in increasing order. */
  function Marked(lines: seq<string>, p: string -> bool): (r: seq<nat>)
    ensures forall k :: k in r <==> 1 <= k <= |lines| && p(lines[k - 1])
    ensures forall i, j :: 0 <= i < j < |r| ==> r[i] < r[j]
    decreases |lines|
  {
    if lines == [] then []
    else
      var n := |lines|;
      var front := Marked(lines[..n - 1], p);
      assert forall i :: 0 <= i < |front| ==> front[i] in front;
      assert forall k :: 1 <= k < n && k in front ==> p(lines[..n - 1][k - 1]);
      front + (if p(lines[n - 1]) then [n] else [])
  }

  predicate IsLong(line: string) {
    |line| > 100
  }

  predicate HasTodo(line: string) {
    Contains(line, "TODO")
  }

  const LongLinesKind := "long_lines"
  const TodoCommentsKind := "todo_comments"

  datatype Issue = Issue(kind: string, lines: seq<nat>)

  /** The issue list of `detect_basic_issues`: long lines first, then TODO
      comments, each only when it has lines. */
  function Issues(lines: seq<string>): (r: seq<Issue>)
    ensures |r| <= 2
    ensures (exists i :: 0 <= i < |r| && r[i].kind == LongLinesKind) <==> Marked(lines, IsLong) != []
    ensures (exists i :: 0 <= i < |r| && r[i].kind == TodoCommentsKind) <==> Marked(lines, HasTodo) != []
    ensures forall i :: 0 <= i < |r| ==>
              || (r[i].kind == LongLinesKind && r[i].lines == Marked(lines, IsLong))
              || (r[i].kind == TodoCommentsKind && r[i].lines == Marked(lines, HasTodo))
    ensures |r| == 2 ==> r[0].kind == LongLinesKind && r[1].kind == TodoCommentsKind
  {
    var long := Marked(lines, IsLong);
    var todo := Marked(lines, HasTodo);
    assert LongLinesKind[0] != TodoCommentsKind[0];
    var r := (if long != [] then [Issue(LongLinesKind, long)] else []) +
             (if todo != [] then [Issue(TodoCommentsKind, todo)] else []);
    assert long != [] ==> r[0].kind == LongLinesKind;
    assert todo != [] ==> r[|r| - 1].kind == TodoCommentsKind;
    r
  }

  // ---------------------------------------------------------------------------
  // suggest_improvements and refine_suggestions

  const ReduceBranching := "Reduce branching or split functions to lower complexity."
  const WrapLongLines := "Wrap or refactor long lines to improve readability."
  const ResolveTodos := "Resolve or track TODO comments explicitly."
  const ApplyOne := "Apply one suggestion and re-evaluate quality."

  /** The position of a suggestion in the fixed order. */
  function Rank(suggestion: string): nat {
    if suggestion == ReduceBranching then 0 else if suggestion == WrapLongLines then 1 else 2
  }

  /** The suggestions for the three triggers: each present exactly when its
      trigger holds, none other, in the fixed order. */
  function Suggestions(complex: bool, long: bool, todo: bool): (r: seq<string>)
    ensures |r| <= 3
    ensures ReduceBranching in r <==> complex
    ensures WrapLongLines in r <==> long
    ensures ResolveTodos in r <==> todo
    ensures forall s :: s in r ==> s == ReduceBranching || s == WrapLongLines || s == ResolveTodos
    ensures forall i, j :: 0 <= i < j < |r| ==> Rank(r[i]) < Rank(r[j])
  {
    (if complex then [ReduceBranching] else []) +
    (if long then [WrapLongLines] else []) +
    (if todo then [ResolveTodos] else [])
  }

  /** The appends of `suggest_improvements`. */
  method SuggestImprovements(complex: bool, long: bool, todo: bool) returns (suggestions: seq<string>)
    ensures suggestions == Suggestions(complex, long, todo)
  {
    suggestions := [];
    if complex {
      suggestions := suggestions + [ReduceBranching];
    }
    if long {
      suggestions := suggestions + [WrapLongLines];
    }
    if todo {
      suggestions := suggestions + [ResolveTodos];
    }
  }

  /** `max(0.1, 1.0 - 0.1 * n)` in hundredths. */
  function QualityScore(n: nat): (q: int)
    ensures 10 <= q <= 100
    ensures q > 10 ==> q == 100 - 10 * n
    ensures n <= 9 ==> q == 100 - 10 * n
  {
    if 100 - 10 * n < 10 then 10 else 100 - 10 * n
  }

  /** The gate at 0.8 passes the first time unless all three triggers hold. */
  lemma FirstGate(complex: bool, long: bool, todo: bool)
    ensures QualityScore(|Suggestions(complex, long, todo)|) >= 80 <==> !(complex && long && todo)
  {
    var r := Suggestions(complex, long, todo);
    if complex && long && todo {
      assert r == [ReduceBranching, WrapLongLines, ResolveTodos];
    }
  }

  /** `previous + ["Apply one suggestion ..."]` */
  function Refined(previous: seq<Value>): (r: seq<Value>)
    ensures |r| == |previous| + 1 && r[..|previous|] == previous && r[|previous|] == Str(ApplyOne)
  {
    previous + [Str(ApplyOne)]
  }

  /** `min(1.0, score + 0.1)` in hundredths. */
  function RaiseScore(score: int): (r: int)
    ensures r <= 100 && (r == 100 || r == score + 10)
    ensures score < 100 ==> r > score
  {
    if score + 10 < 100 then score + 10 else 100
  }

  function RaiseTimes(score: int, k: nat): int {
    if k == 0 then score else RaiseScore(RaiseTimes(score, k - 1))
  }

  /** `k` refinements raise the score by a tenth each, up to 1.0. */
  lemma {:induction false} RaiseTimesValue(score: int, k: nat)
    requires k > 0
    ensures RaiseTimes(score, k) == if score + 10 * k < 100 then score + 10 * k else 100
  {
    if k > 1 {
      RaiseTimesValue(score, k - 1);
    }
  }

  /** One refinement after `suggest_improvements` always passes the gate. */
  lemma OneRefinementPasses(complex: bool, long: bool, todo: bool)
    ensures RaiseScore(QualityScore(|Suggestions(complex, long, todo)|)) >= 80
  {
  }

  // ---------------------------------------------------------------------------
  // the tools: reading their inputs from the state bag and writing their
  // outputs back as values

  function StrList(xs: seq<string>): (v: Value)
    ensures v.List? && |v.items| == |xs| && forall i :: 0 <= i < |xs| ==> v.items[i] == Str(xs[i])
  {
    List(seq(|xs|, i requires 0 <= i < |xs| => Str(xs[i])))
  }

  function IntList(xs: seq<nat>): (v: Value)
    ensures v.List? && |v.items| == |xs| && forall i :: 0 <= i < |xs| ==> v.items[i] == Int(xs[i])
  {
    List(seq(|xs|, i requires 0 <= i < |xs| => Int(xs[i])))
  }

  /** An issue as the dict `{"type": ..., "lines": [...]}`. */
  function IssueValue(issue: Issue): Value {
    Dict(map["type" := Str(issue.kind), "lines" := IntList(issue.lines)])
  }

  function IssueValues(issues: seq<Issue>): (v: seq<Value>)
    ensures |v| == |issues| && forall i :: 0 <= i < |issues| ==> v[i] == IssueValue(issues[i])
  {
    seq(|issues|, i requires 0 <= i < |issues| => IssueValue(issues[i]))
  }

  /** `state.get("code", "")` */
  function Code(state: State): Value {
    GetOr(state, "code", Str(""))
  }

  /** `extract_functions` as a tool: a non-string `code` raises. */
  function ExtractFunctionsTool(state: State): (r: ToolResult)
    ensures r.Raised? <==> !Code(state).Str?
    ensures r.Returned? ==> r == Returned(Some(map["functions" := StrList(ExtractFunctions(Code(state).s))]))
  {
    match Code(state)
    case Str(code) => Returned(Some(map["functions" := StrList(ExtractFunctions(code))]))
    case _ => Raised("TypeError")
  }

  /** `check_complexity` as a tool: the average complexity in hundredths. */
  function CheckComplexityTool(state: State): (r: ToolResult)
    ensures r.Raised? <==> !Code(state).Str?
    ensures r.Returned? ==>
              var c := Complexities(StrippedLines(Code(state).s));
              r == Returned(Some(map["avg_complexity" := Int(AverageHundredths(c))]))
  {
    match Code(state)
    case Str(code) => Returned(Some(map["avg_complexity" := Int(AverageHundredths(Complexities(StrippedLines(code))))]))
    case _ => Raised("AttributeError")
  }

  /** `detect_basic_issues` as a tool: the issues and their number. */
  function DetectBasicIssuesTool(state: State): (r: ToolResult)
    ensures r.Raised? <==> !Code(state).Str?
    ensures r.Returned? ==>
              var issues := Issues(Lines(Code(state).s));
              r == Returned(Some(map["issues" := List(IssueValues(issues)), "issue_count" := Int(|issues|)]))
  {
    match Code(state)
    case Str(code) =>
      var issues := Issues(Lines(code));
      Returned(Some(map["issues" := List(IssueValues(issues)), "issue_count" := Int(|issues|)]))
    case _ => Raised("AttributeError")
  }

  /** A number read by the workflow's tools, in hundredths: integers already
      count hundredths, and `True`/`False` are the floats 1.0 and 0.0. */
  function Hundredths(v: Value): int
    requires IsNumeric(v)
  {
    if v.Bool? then (if v.b then 100 else 0) else v.i
  }

  /** `state.get("avg_complexity", 1) > 5`: anything but a number raises. */
  function ComplexTrigger(state: State): Result<bool, string> {
    var avg := GetOr(state, "avg_complexity", Int(100));
    if IsNumeric(avg) then Success(Hundredths(avg) > 500) else Failure("TypeError")
  }

  /** What a `for` over a value yields. Iterating a non-empty string or dict
      yields strings, which have no `.get`, so those fail straight away. */
  function Iterate(v: Value): Result<seq<Value>, string> {
    match v
    case List(items) => Success(items)
    case Str(s) => if s == [] then Success([]) else Failure("AttributeError")
    case Dict(fields) => if fields == map[] then Success([]) else Failure("AttributeError")
    case _ => Failure("TypeError")
  }

  /** `issue.get("type") == kind` on a dict. */
  predicate IsIssueOf(v: Value, kind: string) {
    v.Dict? && PyEq(Get(v.fields, "type"), Str(kind))
  }

  /** `any(issue.get("type") == kind for issue in items)`: stops at the first
      hit, and raises at the first non-dict before it. */
  function AnyOfType(items: seq<Value>, kind: string): (r: Result<bool, string>)
    ensures r == Success(true) <==>
              exists i :: 0 <= i < |items| && IsIssueOf(items[i], kind) &&
                          forall j :: 0 <= j < i ==> items[j].Dict?
    ensures r.Failure? <==>
              exists i :: 0 <= i < |items| && !items[i].Dict? &&
                          forall j :: 0 <= j < i ==> items[j].Dict? && !IsIssueOf(items[j], kind)
  {
    if items == [] then Success(false)
    else if !items[0].Dict? then Failure("AttributeError")
    else if IsIssueOf(items[0], kind) then Success(true)
    else
      var r := AnyOfType(items[1..], kind);
      assert forall i :: 1 <= i < |items| ==> items[i] == items[1..][i - 1];
      if r == Success(true) then
        var i :| 0 <= i < |items| - 1 && IsIssueOf(items[1..][i], kind) &&
                 forall j :: 0 <= j < i ==> items[1..][j].Dict?;
        assert forall j :: 0 <= j < i + 1 ==> items[j].Dict?;
        r
      else if r.Failure? then
        var i :| 0 <= i < |items| - 1 && !items[1..][i].Dict? &&
                 forall j :: 0 <= j < i ==> items[1..][j].Dict? && !IsIssueOf(items[1..][j], kind);
        assert forall j :: 0 <= j < i + 1 ==> items[j].Dict? && !IsIssueOf(items[j], kind);
        r
      else
        r
  }

  /** `suggest_improvements` as a tool: it raises exactly when the average is
      not a number, the issues cannot be iterated, or one of the two scans
      meets a non-dict item before it stops; otherwise it suggests what the
      average and the issue kinds call for, scored by their number. */
  function SuggestImprovementsTool(state: State): (r: ToolResult)
    ensures ComplexTrigger(state).Failure? ==> r.Raised?
    ensures Iterate(GetOr(state, "issues", List([]))).Failure? ==> r.Raised?
    ensures r.Raised? <==>
              || ComplexTrigger(state).Failure?
              || Iterate(GetOr(state, "issues", List([]))).Failure?
              || AnyOfType(Iterate(GetOr(state, "issues", List([]))).value, LongLinesKind).Failure?
              || AnyOfType(Iterate(GetOr(state, "issues", List([]))).value, TodoCommentsKind).Failure?
    ensures r.Returned? ==> r.result.Some? && r.result.value.Keys == {"suggestions", "quality_score"}
    ensures r.Returned? ==>
              var items := Iterate(GetOr(state, "issues", List([]))).value;
              var expected := Suggestions(ComplexTrigger(state) == Success(true),
                                          AnyOfType(items, LongLinesKind) == Success(true),
                                          AnyOfType(items, TodoCommentsKind) == Success(true));
              r == Returned(Some(map["suggestions" := StrList(expected),
                                     "quality_score" := Int(QualityScore(|expected|))]))
  {
    var complex := ComplexTrigger(state);
    var items := Iterate(GetOr(state, "issues", List([])));
    if complex.Failure? then Raised(complex.error)
    else if items.Failure? then Raised(items.error)
    else
      var long := AnyOfType(items.value, LongLinesKind);
      var todo := AnyOfType(items.value, TodoCommentsKind);
      if long.Failure? then Raised(long.error)
      else if todo.Failure? then Raised(todo.error)
      else
        var suggestions := Suggestions(complex.value, long.value, todo.value);
        Returned(Some(map["suggestions" := StrList(suggestions),
                          "quality_score" := Int(QualityScore(|suggestions|))]))
  }

  /** `refine_suggestions` as a tool: a non-list `suggestions` raises, and so
      does a score that is truthy but not a number; a missing or falsy score
      counts as 0.5. */
  function RefineSuggestionsTool(state: State): (r: ToolResult)
    ensures !GetOr(state, "suggestions", List([])).List? ==> r.Raised?
    ensures r.Raised? <==>
              || !GetOr(state, "suggestions", List([])).List?
              || (Truthy(GetOr(state, "quality_score", Int(50)))
                  && !IsNumeric(GetOr(state, "quality_score", Int(50))))
    ensures r.Returned? ==>
              var previous := GetOr(state, "suggestions", List([])).items;
              && r.result.Some?
              && r.result.value.Keys == {"suggestions", "quality_score"}
              && r.result.value["suggestions"] == List(Refined(previous))
              && r.result.value["quality_score"].Int?
              && r.result.value["quality_score"].i <= 100
    ensures r.Returned? ==>
              var score := GetOr(state, "quality_score", Int(50));
              r.result.Some? && "quality_score" in r.result.value &&
              r.result.value["quality_score"] ==
                Int(RaiseScore(if Truthy(score) then Hundredths(score) else 50))
  {
    var previous := GetOr(state, "suggestions", List([]));
    var score := GetOr(state, "quality_score", Int(50));
    var base := if Truthy(score) then score else Int(50);
    if !previous.List? then Raised("TypeError")
    else if !IsNumeric(base) then Raised("TypeError")
    else
      Returned(Some(map["suggestions" := List(Refined(previous.items)),
                        "quality_score" := Int(RaiseScore(Hundredths(base)))]))
  }

  /** Whether any encoded issue has the given kind. */
  lemma {:induction false} AnyOfIssues(issues: seq<Issue>, kind: string)
    ensures AnyOfType(IssueValues(issues), kind) ==
              Success(exists i :: 0 <= i < |issues| && issues[i].kind == kind)
  {
    var items := IssueValues(issues);
    forall i | 0 <= i < |issues| ensures items[i].Dict? && (IsIssueOf(items[i], kind) <==> issues[i].kind == kind) {
      assert Get(items[i].fields, "type") == Str(issues[i].kind);
    }
    var r := AnyOfType(items, kind);
    assert !r.Failure?;
    if exists i :: 0 <= i < |issues| && issues[i].kind == kind {
      var i :| 0 <= i < |issues| && issues[i].kind == kind;
      assert IsIssueOf(items[i], kind);
      assert r == Success(true);
    } else {
      assert r != Success(true);
      assert r.Success? && !r.value;
    }
  }

  /** The first three tools followed by `suggest_improvements`, each update
      merged into the state as the engine does, suggest exactly what the
      code's complexity, long lines and TODO comments call for. */
  lemma SuggestionsFromCode(state: State, code: string)
    requires Code(state) == Str(code)
    ensures var s1 := ToolUpdate(Str("extract_functions"), state, CodeReviewTools);
            s1.Success? &&
            var s2 := ToolUpdate(Str("check_complexity"), s1.value, CodeReviewTools);
            s2.Success? &&
            var s3 := ToolUpdate(Str("detect_basic_issues"), s2.value, CodeReviewTools);
            s3.Success? &&
            var lines := Lines(code);
            var expected := Suggestions(AverageHundredths(Complexities(StrippedLines(code))) > 500,
                                        Marked(lines, IsLong) != [], Marked(lines, HasTodo) != []);
            SuggestImprovementsTool(s3.value) ==
              Returned(Some(map["suggestions" := StrList(expected),
                                "quality_score" := Int(QualityScore(|expected|))]))
  {
    var avg := AverageHundredths(Complexities(StrippedLines(code)));
    var issues := Issues(Lines(code));
    AfterExtract(state, code);
    var s1 := KeepsCode(state, "functions", StrList(ExtractFunctions(code)));
    AfterComplexity(s1, code);
    var s2 := KeepsCode(s1, "avg_complexity", Int(avg));
    AfterDetect(s2, code);
    var s3 := Detected(s2, avg, List(IssueValues(issues)), |issues|);
    SuggestOn(s3, avg, issues);
  }

  /** Merging an update that does not touch `code` keeps it. */
  lemma KeepsCode(state: State, key: string, v: Value) returns (next: State)
    requires key != "code"
    ensures next == state + map[key := v]
    ensures Code(next) == Code(state)
    ensures key in next && next[key] == v
  {
    next := state + map[key := v];
  }

  /** Merging the detector's update keeps the average and adds the issues. */
  lemma Detected(s2: State, avg: int, encoded: Value, count: int) returns (s3: State)
    requires "avg_complexity" in s2 && s2["avg_complexity"] == Int(avg)
    ensures s3 == s2 + map["issues" := encoded, "issue_count" := Int(count)]
    ensures "avg_complexity" in s3 && s3["avg_complexity"] == Int(avg)
    ensures "issues" in s3 && s3["issues"] == encoded
  {
    s3 := s2 + map["issues" := encoded, "issue_count" := Int(count)];
  }

  /** `suggest_improvements` on a state holding a numeric average and a list
      of encoded issues. */
  lemma SuggestOn(state: State, avg: int, issues: seq<Issue>)
    requires "avg_complexity" in state && state["avg_complexity"] == Int(avg)
    requires "issues" in state && state["issues"] == List(IssueValues(issues))
    ensures var expected := Suggestions(avg > 500,
                                        exists i :: 0 <= i < |issues| && issues[i].kind == LongLinesKind,
                                        exists i :: 0 <= i < |issues| && issues[i].kind == TodoCommentsKind);
            SuggestImprovementsTool(state) ==
              Returned(Some(map["suggestions" := StrList(expected),
                                "quality_score" := Int(QualityScore(|expected|))]))
  {
    AnyOfIssues(issues, LongLinesKind);
    AnyOfIssues(issues, TodoCommentsKind);
  }

  lemma AfterExtract(state: State, code: string)
    requires Code(state) == Str(code)
    ensures ToolUpdate(Str("extract_functions"), state, CodeReviewTools) ==
              Success(state + map["functions" := StrList(ExtractFunctions(code))])
  {
    var update := map["functions" := StrList(ExtractFunctions(code))];
    assert CodeReviewTools["extract_functions"].run(state) == Returned(Some(update));
    assert Normalize(Returned(Some(update))) == Success(update);
    assert |update| > 0;
  }

  lemma AfterComplexity(state: State, code: string)
    requires Code(state) == Str(code)
    ensures ToolUpdate(Str("check_complexity"), state, CodeReviewTools) ==
              Success(state + map["avg_complexity" := Int(AverageHundredths(Complexities(StrippedLines(code))))])
  {
    var update := map["avg_complexity" := Int(AverageHundredths(Complexities(StrippedLines(code))))];
    assert CodeReviewTools["check_complexity"].run(state) == Returned(Some(update));
    assert Normalize(Returned(Some(update))) == Success(update);
    assert |update| > 0;
  }

  lemma AfterDetect(state: State, code: string)
    requires Code(state) == Str(code)
    ensures var issues := Issues(Lines(code));
            ToolUpdate(Str("detect_basic_issues"), state, CodeReviewTools) ==
              Success(state + map["issues" := List(IssueValues(issues)), "issue_count" := Int(|issues|)])
  {
    var issues := Issues(Lines(code));
    var update := map["issues" := List(IssueValues(issues)), "issue_count" := Int(|issues|)];
    assert CodeReviewTools["detect_basic_issues"].run(state) == Returned(Some(update));
    assert Normalize(Returned(Some(update))) == Success(update);
    assert |update| > 0;
  }

  // ---------------------------------------------------------------------------
  // register_code_review_workflow

  const CodeReviewTools: map<string, ToolFunction> := map[
    "extract_functions" := ToolFunction(ExtractFunctionsTool, None),
    "check_complexity" := ToolFunction(CheckComplexityTool, None),
    "detect_basic_issues" := ToolFunction(DetectBasicIssuesTool, None),
    "suggest_improvements" := ToolFunction(SuggestImprovementsTool, None),
    "refine_suggestions" := ToolFunction(RefineSuggestionsTool, None)]

  function ToolNode(name: string, tool: string, next: string): NodeDefinition {
    NodeDefinition(name, Tool, Some(next), map["tool" := Str(tool)])
  }

  /** The gate: done once the score reaches 0.8, else refine. */
  const QualityGate := NodeDefinition("quality_gate", Conditional, None,
    map["key" := Str("quality_score"), "op" := Str(">="), "value" := Int(80),
        "on_true" := Null, "on_false" := Str("refine")])

  const CodeReviewNodes: seq<NodeDefinition> := [
    ToolNode("extract", "extract_functions", "complexity"),
    ToolNode("complexity", "check_complexity", "detect"),
    ToolNode("detect", "detect_basic_issues", "suggest"),
    ToolNode("suggest", "suggest_improvements", "quality_gate"),
    QualityGate,
    ToolNode("refine", "refine_suggestions", "quality_gate")]

  const CodeReviewGraph := GraphDefinition("code_review", "extract", CodeReviewNodes)

  /** The built-in graph passes `validate_graph`. */
  lemma CodeReviewGraphValid()
    ensures ValidateGraph(CodeReviewGraph) == Success(CodeReviewGraph)
  {
    var nodes := CodeReviewNodes;
    var names := Names(nodes);
    assert nodes[0].name in names && nodes[1].name in names && nodes[2].name in names;
    assert nodes[3].name in names && nodes[4].name in names && nodes[5].name in names;
    assert forall i :: 0 <= i < |nodes| ==> NodeResolves(nodes[i], names);
  }

  /** Every tool node of the graph names one of the workflow's tools. */
  lemma CodeReviewToolsCover()
    ensures forall i :: 0 <= i < |CodeReviewNodes| && CodeReviewNodes[i].kind == Tool ==>
              var tool := Get(CodeReviewNodes[i].config, "tool");
              tool.Str? && tool.s in CodeReviewTools
  {
  }

  /** The only edge that ends a run is the gate's `on_true`; every other
      successor names a node. */
  lemma OnlyGateEnds()
    ensures forall i, t :: 0 <= i < |CodeReviewNodes| && t in Successors(CodeReviewNodes[i]) && !Live(t) ==>
              CodeReviewNodes[i] == QualityGate && t == AsTarget(Get(QualityGate.config, "on_true"))
    ensures None in Successors(QualityGate)
  {
  }

  /** `register_code_review_workflow`: binds the five tools and files the
      graph under "code_review". */
  method RegisterCodeReviewWorkflow(engine: WorkflowEngine)
    requires engine.Valid()
    modifies engine, engine.tools
    ensures engine.Valid()
    ensures engine.tools.tools == old(engine.tools.tools) + CodeReviewTools
    ensures engine.graphs == old(engine.graphs)["code_review" := CodeReviewGraph]
    ensures engine.runs == old(engine.runs) && engine.scheduled == old(engine.scheduled)
  {
    RegisterTools(engine.tools);
    CodeReviewGraphValid();
    engine.RegisterGraph(CodeReviewGraph);
  }

  /** The five `engine.tools.register` calls. */
  method RegisterTools(registry: ToolRegistry)
    modifies registry
    ensures registry.tools == old(registry.tools) + CodeReviewTools
  {
    ghost var before := registry.tools;
    registry.Register("extract_functions", CodeReviewTools["extract_functions"]);
    registry.Register("check_complexity", CodeReviewTools["check_complexity"]);
    registry.Register("detect_basic_issues", CodeReviewTools["detect_basic_issues"]);
    registry.Register("suggest_improvements", CodeReviewTools["suggest_improvements"]);
    registry.Register("refine_suggestions", CodeReviewTools["refine_suggestions"]);
    RegisteredInTurn(before);
  }

  /** Registering the five tools one after another merges the whole table. */
  lemma RegisteredInTurn(m: map<string, ToolFunction>)
    ensures m["extract_functions" := CodeReviewTools["extract_functions"]]
             ["check_complexity" := CodeReviewTools["check_complexity"]]
             ["detect_basic_issues" := CodeReviewTools["detect_basic_issues"]]
             ["suggest_improvements" := CodeReviewTools["suggest_improvements"]]
             ["refine_suggestions" := CodeReviewTools["refine_suggestions"]]
            == m + CodeReviewTools
  {
    var r := m["extract_functions" := CodeReviewTools["extract_functions"]]
             ["check_complexity" := CodeReviewTools["check_complexity"]]
             ["detect_basic_issues" := CodeReviewTools["detect_basic_issues"]]
             ["suggest_improvements" := CodeReviewTools["suggest_improvements"]]
             ["refine_suggestions" := CodeReviewTools["refine_suggestions"]];
    assert r.Keys == m.Keys + CodeReviewTools.Keys;
  }
}
