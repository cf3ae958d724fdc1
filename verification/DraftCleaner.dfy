/** `strip_code_fences`: what of a drafted source file is written to disk. The regular
    expressions that recognise a line and the Python compiler are parameters. */
module DraftCleaner {
  import opened Unicode

  const NEWLINE: CodePoint := 10

  datatype Rules = Rules(
    fence: PyStr -> bool,
    marker: PyStr -> bool,
    annotation: PyStr -> bool,
    compiles: PyStr -> bool)
  {
    /** The line opens a trailing report. */
    predicate Report(line: PyStr) {
      marker(line) && !annotation(line)
    }

    predicate Clean(line: PyStr) {
      !fence(line) && !Report(line)
    }
  }

  // ---- Lines ----

  /** `s.split("\n")` */
  function Lines(s: PyStr): (lines: seq<PyStr>)
    ensures lines != []
  {
    if s == [] then [[]]
    else
      var rest := Lines(s[1..]);
      if s[0] == NEWLINE then [[]] + rest else [[s[0]] + rest[0]] + rest[1..]
  }

  /** `"\n".join(lines)` */
  function Join(lines: seq<PyStr>): PyStr {
    if lines == [] then []
    else if |lines| == 1 then lines[0]
    else lines[0] + ([NEWLINE] + Join(lines[1..]))
  }

  function TrimLeft(s: PyStr): PyStr {
    if s != [] && s[0] == NEWLINE then TrimLeft(s[1..]) else s
  }

  function TrimRight(s: PyStr): PyStr {
    if s != [] && s[|s| - 1] == NEWLINE then TrimRight(s[..|s| - 1]) else s
  }

  /** `s.strip("\n")` */
  function Trim(s: PyStr): PyStr {
    TrimRight(TrimLeft(s))
  }

  // ---- Specification ----

  /** The lines that are not fences. */
  function NonFences(rules: Rules, lines: seq<PyStr>): seq<PyStr> {
    if lines == [] then []
    else (if rules.fence(lines[0]) then [] else [lines[0]]) + NonFences(rules, lines[1..])
  }

  /** The lines before the first trailing report; a fence never opens one. */
  function BeforeReport(rules: Rules, lines: seq<PyStr>): seq<PyStr> {
    if lines == [] || (rules.Report(lines[0]) && !rules.fence(lines[0])) then []
    else [lines[0]] + BeforeReport(rules, lines[1..])
  }

  function Kept(rules: Rules, lines: seq<PyStr>): seq<PyStr> {
    NonFences(rules, BeforeReport(rules, lines))
  }

  predicate AllClean(rules: Rules, lines: seq<PyStr>) {
    forall i :: 0 <= i < |lines| ==> rules.Clean(lines[i])
  }

  /** Text without fences and reports stays as it is; otherwise the kept lines, without outer blank lines. */
  function Unfenced(rules: Rules, text: PyStr): PyStr {
    if AllClean(rules, Lines(text)) then text
    else
      var body := Trim(Join(Kept(rules, Lines(text))));
      if body == [] then [] else body + [NEWLINE]
  }

  /** The first `count` lines without outer newlines. */
  function Candidate(lines: seq<PyStr>, count: nat): PyStr
    requires count <= |lines|
  {
    Trim(Join(lines[..count]))
  }

  predicate Accepted(rules: Rules, lines: seq<PyStr>, count: nat)
    requires count <= |lines|
  {
    Candidate(lines, count) != [] && rules.compiles(Candidate(lines, count) + [NEWLINE])
  }

  /** The text needs no truncation: it is blank or compiles as it is. */
  predicate Whole(rules: Rules, source: PyStr) {
    IsBlank(source) || rules.compiles(source)
  }

  /** `result` is the longest accepted proper line prefix of `source`, or `source` if there is none. */
  ghost predicate Truncated(rules: Rules, source: PyStr, result: PyStr) {
    var lines := Lines(source);
    || (exists count: nat ::
          && 1 <= count < |lines| && Accepted(rules, lines, count)
          && (forall longer: nat :: count < longer < |lines| ==> !Accepted(rules, lines, longer))
          && result == Candidate(lines, count) + [NEWLINE])
    || (result == source && forall count: nat :: 1 <= count < |lines| ==> !Accepted(rules, lines, count))
  }

  ghost predicate Compilable(rules: Rules, source: PyStr, result: PyStr) {
    if Whole(rules, source) then result == source else Truncated(rules, source, result)
  }

  /** What cleaning makes of `text`. */
  ghost predicate Cleaned(rules: Rules, text: PyStr, python: bool, value: PyStr) {
    if python then Compilable(rules, Unfenced(rules, text), value) else value == Unfenced(rules, text)
  }

  // ---- The two functions of the source ----

  method LongestCompilablePrefix(rules: Rules, source: PyStr) returns (result: PyStr)
    ensures Compilable(rules, source, result)
  {
    if IsBlank(source) {
      return source;
    }
    if rules.compiles(source) {
      return source;
    }
    var lines := Lines(source);
    for count := |lines| downto 1
      invariant forall longer: nat :: count <= longer < |lines| ==> !Accepted(rules, lines, longer)
    {
      var candidate := Trim(Join(lines[..count]));
      if candidate == [] {
        continue;
      }
      if !rules.compiles(candidate + [NEWLINE]) {
        continue;
      }
      assert Accepted(rules, lines, count);
      return candidate + [NEWLINE];
    }
    return source;
  }

  lemma {:induction false} NonFencesAppend(rules: Rules, lines: seq<PyStr>, line: PyStr)
    ensures NonFences(rules, lines + [line]) == NonFences(rules, lines) + if rules.fence(line) then [] else [line]
  {
    if lines == [] {
      assert [line][1..] == [];
    } else {
      NonFencesAppend(rules, lines[1..], line);
      assert (lines + [line])[1..] == lines[1..] + [line];
    }
  }

  lemma {:induction false} OneLine(rules: Rules, line: PyStr)
    ensures Kept(rules, [line]) == if rules.Clean(line) then [line] else []
  {
    assert [line][1..] == [];
    assert BeforeReport(rules, []) == [] && NonFences(rules, []) == [];
    assert BeforeReport(rules, [line]) == if rules.Report(line) && !rules.fence(line) then [] else [line];
    assert NonFences(rules, [line]) == if rules.fence(line) then [] else [line];
  }

  lemma {:induction false} EmptyText(rules: Rules)
    ensures Unfenced(rules, []) == []
  {
    assert Lines([]) == [[]];
    OneLine(rules, []);
  }

  lemma {:induction false} LoopStep(rules: Rules, lines: seq<PyStr>, i: nat)
    requires i < |lines|
    ensures NonFences(rules, lines[..i + 1]) ==
      NonFences(rules, lines[..i]) + if rules.fence(lines[i]) then [] else [lines[i]]
    ensures AllClean(rules, lines[..i + 1]) <==> AllClean(rules, lines[..i]) && rules.Clean(lines[i])
    ensures AllClean(rules, lines) ==> rules.Clean(lines[i])
    ensures lines[..i] + BeforeReport(rules, lines[i..]) ==
      if rules.Report(lines[i]) && !rules.fence(lines[i]) then lines[..i]
      else lines[..i + 1] + BeforeReport(rules, lines[i + 1..])
  {
    var (before, line, after) := (lines[..i], lines[i], lines[i + 1..]);
    assert lines[..i + 1] == before + [line] && lines[i..] == [line] + after;
    NonFencesAppend(rules, before, line);
    assert ([line] + after)[1..] == after;
  }

  method StripCodeFences(rules: Rules, text: PyStr, python: bool) returns (value: PyStr)
    ensures Cleaned(rules, text, python, value)
  {
    value := text;
    if value == [] {
      EmptyText(rules);
      return;
    }
    var lines := Lines(value);
    var cleaned: seq<PyStr> := [];
    var changed := false;
    ghost var stop := |lines|;
    for i := 0 to |lines|
      invariant cleaned == NonFences(rules, lines[..i])
      invariant changed <==> !AllClean(rules, lines[..i])
      invariant BeforeReport(rules, lines) == lines[..i] + BeforeReport(rules, lines[i..])
      invariant stop == |lines|
    {
      var line := lines[i];
      LoopStep(rules, lines, i);
      if rules.fence(line) {
        changed := true;
        continue;
      }
      if rules.marker(line) && !rules.annotation(line) {
        changed := true;
        stop := i;
        break;
      }
      cleaned := cleaned + [line];
    }
    assert lines[..|lines|] == lines;
    assert BeforeReport(rules, lines) == lines[..stop];
    if changed {
      var body := Trim(Join(cleaned));
      value := if body != [] then body + [NEWLINE] else [];
    }
    if python {
      value := LongestCompilablePrefix(rules, value);
    }
  }

  // ---- Splitting and joining lines ----

  predicate NoNewline(line: PyStr) {
    10 !in line
  }

  predicate AllLines(lines: seq<PyStr>) {
    forall i :: 0 <= i < |lines| ==> NoNewline(lines[i])
  }

  lemma {:induction false} JoinEmptyFirst(lines: seq<PyStr>)
    requires |lines| > 1 && lines[0] == []
    ensures Join(lines) == [NEWLINE] + Join(lines[1..])
  {
  }

  lemma {:induction false} JoinLongerFirst(c: CodePoint, lines: seq<PyStr>)
    requires lines != []
    ensures Join([[c] + lines[0]] + lines[1..]) == [c] + Join(lines)
  {
  }

  lemma {:induction false} LinesOfText(s: PyStr)
    ensures AllLines(Lines(s)) && Join(Lines(s)) == s
  {
    if s != [] {
      var rest := Lines(s[1..]);
      LinesOfText(s[1..]);
      if s[0] == NEWLINE {
        assert ([[]] + rest)[1..] == rest;
        JoinEmptyFirst([[]] + rest);
      } else {
        JoinLongerFirst(s[0], rest);
      }
    }
  }

  /** The lines of a text are its pieces between line feeds: without one the text is a line, and up to the first one
      there is a line. */
  lemma {:induction false} LinesEndAtFeeds(x: PyStr, s: PyStr)
    requires 10 !in x
    ensures Lines(x) == [x] && Lines(x + [10] + s) == [x] + Lines(s)
  {
    LinesOfLine(x);
    LinesCons(x, s);
    assert x + [10] + s == x + ([10] + s);
  }

  lemma {:induction false} LinesOfLine(x: PyStr)
    requires NoNewline(x)
    ensures Lines(x) == [x]
  {
    if x != [] {
      LinesOfLine(x[1..]);
      assert x == [x[0]] + x[1..];
    }
  }

  lemma {:induction false} LinesCons(x: PyStr, s: PyStr)
    requires NoNewline(x)
    ensures Lines(x + ([10] + s)) == [x] + Lines(s)
  {
    var t := x + ([10] + s);
    if x == [] {
      assert t[1..] == s;
    } else {
      assert t[1..] == x[1..] + ([10] + s);
      LinesCons(x[1..], s);
      assert x == [x[0]] + x[1..];
    }
  }

  lemma {:induction false} LinesOfJoin(lines: seq<PyStr>)
    requires lines != [] && AllLines(lines)
    ensures Lines(Join(lines)) == lines
  {
    if |lines| == 1 {
      LinesOfLine(lines[0]);
    } else {
      LinesCons(lines[0], Join(lines[1..]));
      LinesOfJoin(lines[1..]);
    }
  }

  lemma {:induction false} JoinAppend(lines: seq<PyStr>, line: PyStr)
    requires lines != []
    ensures Join(lines + [line]) == Join(lines) + ([NEWLINE] + line)
  {
    var all := lines + [line];
    if |lines| == 1 {
      assert all[1..] == [line];
    } else {
      assert all[1..] == lines[1..] + [line];
      JoinAppend(lines[1..], line);
      assert lines[0] + ([NEWLINE] + (Join(lines[1..]) + ([NEWLINE] + line)))
          == lines[0] + ([NEWLINE] + Join(lines[1..])) + ([NEWLINE] + line);
    }
  }

  lemma {:induction false} TrimLeftNewline(s: PyStr)
    ensures TrimLeft([NEWLINE] + s) == TrimLeft(s)
  {
  }

  lemma {:induction false} TrimLeftNothing(lines: seq<PyStr>)
    requires lines != [] && lines[0] != [] && AllLines(lines)
    ensures TrimLeft(Join(lines)) == Join(lines)
  {
  }

  /** Stripping newlines from the left drops the leading empty lines and nothing else. */
  lemma {:induction false} TrimLeftDropsLines(lines: seq<PyStr>) returns (a: nat)
    requires AllLines(lines)
    ensures a <= |lines| && TrimLeft(Join(lines)) == Join(lines[a..])
    ensures forall i :: 0 <= i < a ==> lines[i] == []
    ensures a < |lines| ==> lines[a] != []
  {
    if lines == [] {
      a := 0;
    } else if lines[0] != [] {
      a := 0;
      assert lines[a..] == lines;
      TrimLeftNothing(lines);
    } else if |lines| == 1 {
      a := 1;
    } else {
      var b := TrimLeftDropsLines(lines[1..]);
      a := b + 1;
      JoinEmptyFirst(lines);
      TrimLeftNewline(Join(lines[1..]));
      assert lines[1..][b..] == lines[a..];
      assert forall i :: 1 <= i < a ==> lines[i] == lines[1..][i - 1];
    }
  }

  lemma {:induction false} TrimRightDropsLines(lines: seq<PyStr>) returns (b: nat)
    requires AllLines(lines)
    ensures b <= |lines| && TrimRight(Join(lines)) == Join(lines[..b])
    ensures forall i :: b <= i < |lines| ==> lines[i] == []
    ensures b > 0 ==> lines[b - 1] != []
  {
    var n := |lines|;
    if n == 0 {
      b := 0;
    } else if lines[n - 1] != [] {
      b := n;
      assert lines[..b] == lines;
      LastOfJoin(lines);
    } else if n == 1 {
      b := 0;
    } else {
      b := TrimRightDropsLines(lines[..n - 1]);
      assert lines == lines[..n - 1] + [lines[n - 1]];
      JoinAppend(lines[..n - 1], []);
      assert Join(lines)[..|Join(lines)| - 1] == Join(lines[..n - 1]);
      assert lines[..n - 1][..b] == lines[..b];
    }
  }

  lemma {:induction false} LastOfJoin(lines: seq<PyStr>)
    requires lines != [] && lines[|lines| - 1] != [] && AllLines(lines)
    ensures Join(lines) != [] && Join(lines)[|Join(lines)| - 1] != NEWLINE
  {
    var last := lines[|lines| - 1];
    assert last[|last| - 1] in last;
    if |lines| > 1 {
      assert lines == lines[..|lines| - 1] + [last];
      JoinAppend(lines[..|lines| - 1], last);
    }
  }

  /** The lines `a` to `b`, the others being empty. */
  predicate InnerLines(lines: seq<PyStr>, a: nat, b: nat) {
    && a <= b <= |lines|
    && (forall i :: 0 <= i < a ==> lines[i] == [])
    && (forall i :: b <= i < |lines| ==> lines[i] == [])
    && (a < b ==> lines[a] != [] && lines[b - 1] != [])
  }

  /** Stripping outer newlines drops outer empty lines: no line in between is altered. */
  lemma {:induction false} TrimDropsOuterLines(lines: seq<PyStr>) returns (a: nat, b: nat)
    requires AllLines(lines)
    ensures InnerLines(lines, a, b) && Trim(Join(lines)) == Join(lines[a..b])
    ensures Trim(Join(lines)) == [] <==> a == b
  {
    a := TrimLeftDropsLines(lines);
    var n := TrimRightDropsLines(lines[a..]);
    b := a + n;
    assert lines[a..][..n] == lines[a..b];
    forall i | b <= i < |lines| ensures lines[i] == [] {
      assert lines[i] == lines[a..][i - a];
    }
    if a < b {
      assert lines[b - 1] == lines[a..][n - 1];
      LastOfJoin(lines[a..b]);
    }
  }

  lemma {:induction false} TrimmedStays(lines: seq<PyStr>)
    requires AllLines(lines) && lines != [] && lines[0] != [] && lines[|lines| - 1] != []
    ensures Trim(Join(lines)) == Join(lines) != []
  {
    var a, b := TrimDropsOuterLines(lines);
    assert a == 0 && b == |lines|;
    assert lines[0..|lines|] == lines;
  }

  // ---- Idempotence ----

  lemma {:induction false} KeptLines(rules: Rules, lines: seq<PyStr>)
    requires AllLines(lines)
    ensures AllClean(rules, Kept(rules, lines)) && AllLines(Kept(rules, lines))
  {
    if lines != [] {
      KeptLines(rules, lines[1..]);
      if !(rules.Report(lines[0]) && !rules.fence(lines[0])) {
        var before := BeforeReport(rules, lines);
        assert before[0] == lines[0] && before[1..] == BeforeReport(rules, lines[1..]);
      }
    }
  }

  lemma {:induction false} CleanLinesAreKept(rules: Rules, lines: seq<PyStr>, last: PyStr)
    requires AllClean(rules, lines)
    ensures Kept(rules, lines + [last]) == lines + if rules.Clean(last) then [last] else []
  {
    var all := lines + [last];
    if lines == [] {
      assert all == [last];
      OneLine(rules, last);
    } else {
      assert all[1..] == lines[1..] + [last];
      CleanLinesAreKept(rules, lines[1..], last);
      assert rules.Clean(lines[0]);
      var before := BeforeReport(rules, all);
      assert before[0] == lines[0] && before[1..] == BeforeReport(rules, all[1..]);
    }
  }

  /** Clean lines between non-empty ones, ended by a newline, are a fixed point, even when the
      predicates call the empty line a fence or a report. */
  lemma {:induction false} TrimmedTextIsFixed(rules: Rules, lines: seq<PyStr>)
    requires AllLines(lines) && AllClean(rules, lines)
    requires lines != [] && lines[0] != [] && lines[|lines| - 1] != []
    ensures Unfenced(rules, Join(lines) + [NEWLINE]) == Join(lines) + [NEWLINE]
  {
    var all := lines + [[]];
    JoinAppend(lines, []);
    assert [NEWLINE] + [] == [NEWLINE];
    LinesOfJoin(all);
    CleanLinesAreKept(rules, lines, []);
    TrimmedStays(lines);
    assert lines + [] == lines;
    if !rules.Clean([]) {
      assert !rules.Clean(all[|lines|]);
    }
  }

  lemma {:induction false} UnfencedIsFixed(rules: Rules, text: PyStr)
    ensures Unfenced(rules, Unfenced(rules, text)) == Unfenced(rules, text)
  {
    var lines := Lines(text);
    LinesOfText(text);
    if !AllClean(rules, lines) {
      KeptLines(rules, lines);
      var kept := Kept(rules, lines);
      var a, b := TrimDropsOuterLines(kept);
      if a == b {
        EmptyText(rules);
      } else {
        TrimmedTextIsFixed(rules, kept[a..b]);
      }
    }
  }

  /** The lines of a stripped body and its final newline. */
  lemma {:induction false} LinesOfTrimmed(lines: seq<PyStr>) returns (a: nat, b: nat)
    requires AllLines(lines) && Trim(Join(lines)) != []
    ensures InnerLines(lines, a, b) && Lines(Trim(Join(lines)) + [NEWLINE]) == lines[a..b] + [[]]
  {
    a, b := TrimDropsOuterLines(lines);
    JoinAppend(lines[a..b], []);
    assert [NEWLINE] + [] == [NEWLINE];
    LinesOfJoin(lines[a..b] + [[]]);
  }

  /** The lines of cleaned text that may be truncated are clean but for a last empty line. */
  lemma {:induction false} UnfencedLines(rules: Rules, text: PyStr)
    ensures var lines := Lines(Unfenced(rules, text));
      AllClean(rules, lines) || (AllClean(rules, lines[..|lines| - 1]) && lines[|lines| - 1] == [])
  {
    var lines := Lines(text);
    LinesOfText(text);
    if !AllClean(rules, lines) {
      KeptLines(rules, lines);
      var kept := Kept(rules, lines);
      if Trim(Join(kept)) != [] {
        var a, b := LinesOfTrimmed(kept);
        assert (kept[a..b] + [[]])[..b - a] == kept[a..b];
      }
    }
  }

  /** Truncation is a cut: the result's lines are consecutive lines of the source, unaltered,
      with only empty lines dropped in front, and a final newline. */
  lemma {:induction false} TruncationOnlyCuts(rules: Rules, source: PyStr, result: PyStr) returns (a: nat, b: nat)
    requires Truncated(rules, source, result) && result != source
    ensures a <= b <= |Lines(source)| && Lines(result) == Lines(source)[a..b] + [[]]
    ensures forall i :: 0 <= i < a ==> Lines(source)[i] == []
  {
    var lines := Lines(source);
    var count: nat :| 1 <= count < |lines| && Accepted(rules, lines, count) &&
      result == Candidate(lines, count) + [NEWLINE];
    LinesOfText(source);
    a, b := LinesOfTrimmed(lines[..count]);
    assert lines[..count][a..b] == lines[a..b];
    forall i | 0 <= i < a ensures lines[i] == [] {
      assert lines[i] == lines[..count][i];
    }
  }

  lemma {:induction false} CleanFrontIsFixed(rules: Rules, front: seq<PyStr>)
    requires AllLines(front) && AllClean(rules, front) && Trim(Join(front)) != []
    ensures var cut := Trim(Join(front)) + [NEWLINE]; Unfenced(rules, cut) == cut
  {
    var a, b := TrimDropsOuterLines(front);
    TrimmedTextIsFixed(rules, front[a..b]);
  }

  /** A truncated draft is again a fixed point. */
  lemma {:induction false} CandidateIsFixed(rules: Rules, text: PyStr, lines: seq<PyStr>, count: nat)
    requires lines == Lines(Unfenced(rules, text)) && count < |lines| && Candidate(lines, count) != []
    ensures Unfenced(rules, Candidate(lines, count) + [NEWLINE]) == Candidate(lines, count) + [NEWLINE]
  {
    UnfencedLines(rules, text);
    LinesOfText(Unfenced(rules, text));
    assert forall i :: 0 <= i < count ==> lines[..count][i] == lines[..|lines| - 1][i];
    CleanFrontIsFixed(rules, lines[..count]);
  }

  /** Cleaning twice is cleaning once, for every choice of line predicates and every compiler. */
  lemma {:induction false} CleaningIsIdempotent(rules: Rules, text: PyStr, python: bool, value: PyStr, again: PyStr)
    requires Cleaned(rules, text, python, value) && Cleaned(rules, value, python, again)
    ensures again == value
  {
    UnfencedIsFixed(rules, text);
    var unfenced := Unfenced(rules, text);
    if python && value != unfenced {
      var count: nat :| 1 <= count < |Lines(unfenced)| && Accepted(rules, Lines(unfenced), count)
        && value == Candidate(Lines(unfenced), count) + [NEWLINE];
      CandidateIsFixed(rules, text, Lines(unfenced), count);
    }
  }
}
