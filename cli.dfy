/**
 * The batch front end's input reader of cli.go: every scanned line is trimmed, split at `|` and
 * turned into a job when it has exactly three non-empty fields; other lines are skipped. The
 * channel the jobs are sent on is the returned sequence of jobs.
 */
module Cli {
  import opened Common
  import opened Processor

  /** The ASCII characters strings.TrimSpace removes. */
  predicate IsSpace(c: char)
  {
    c == ' ' || c == '\t' || c == '\n' || c == '\r' || c as int == 0x0B || c as int == 0x0C
  }

  /** `s` without its leading white space. */
  function TrimLeft(s: string): (t: string)
    ensures |t| <= |s| && t == s[|s| - |t|..]
    ensures t == [] || !IsSpace(t[0])
    ensures forall i :: 0 <= i < |s| - |t| ==> IsSpace(s[i])
  {
    if s != [] && IsSpace(s[0]) then TrimLeft(s[1..]) else s
  }

  /** `s` without its trailing white space. */
  function TrimRight(s: string): (t: string)
    ensures |t| <= |s| && t == s[..|t|]
    ensures t == [] || !IsSpace(t[|t| - 1])
    ensures forall i :: |t| <= i < |s| ==> IsSpace(s[i])
  {
    if s != [] && IsSpace(s[|s| - 1]) then TrimRight(s[..|s| - 1]) else s
  }

  /** `t` is the part of `s` from `k` on, with only white space before and after it. */
  predicate TrimmedAt(s: string, t: string, k: nat)
  {
    k + |t| <= |s| && t == s[k..k + |t|]
    && (forall i :: 0 <= i < k ==> IsSpace(s[i]))
    && (forall i :: k + |t| <= i < |s| ==> IsSpace(s[i]))
  }

  /** `t`, a prefix of the suffix `l` of `s`, with white space before `l` and after `t` in `l`,
      is the part of `s` at the start of `l`. */
  lemma MiddleAt(s: string, l: string, t: string)
    requires |l| <= |s| && l == s[|s| - |l|..] && |t| <= |l| && t == l[..|t|]
    requires forall i :: 0 <= i < |s| - |l| ==> IsSpace(s[i])
    requires forall i :: |t| <= i < |l| ==> IsSpace(l[i])
    ensures TrimmedAt(s, t, |s| - |l|)
  {
    var k := |s| - |l|;
    assert s[k..k + |t|] == s[k..][..|t|];
    forall i | k + |t| <= i < |s| ensures IsSpace(s[i]) {
      assert s[i] == l[i - k];
    }
  }

  /** Trimming the left, then the right, leaves the part of `s` after the removed prefix. */
  lemma TrimBothAt(s: string)
    ensures TrimmedAt(s, TrimRight(TrimLeft(s)), |s| - |TrimLeft(s)|)
  {
    MiddleAt(s, TrimLeft(s), TrimRight(TrimLeft(s)));
  }

  /** strings.TrimSpace, for ASCII white space: the middle of `s` between a white-space prefix
      and a white-space suffix, neither starting nor ending with white space. */
  function TrimSpace(s: string): (t: string)
    ensures t == [] || (!IsSpace(t[0]) && !IsSpace(t[|t| - 1]))
    ensures exists k :: TrimmedAt(s, t, k)
  {
    TrimBothAt(s);
    TrimRight(TrimLeft(s))
  }

  /** The number of occurrences of `c` in `s`. */
  function Count(s: string, c: char): (n: nat)
  {
    if s == [] then 0 else (if s[0] == c then 1 else 0) + Count(s[1..], c)
  }

  /** strings.Join with a one-character separator. */
  function Join(parts: seq<string>, sep: char): (joined: string)
    requires |parts| >= 1
  {
    if |parts| == 1 then parts[0] else parts[0] + [sep] + Join(parts[1..], sep)
  }

  /** strings.Split with a one-character separator: the pieces between separators, empty ones
      included, so there is always one piece more than there are separators. */
  function Split(s: string, sep: char): (parts: seq<string>)
    ensures |parts| == Count(s, sep) + 1
    ensures forall i :: 0 <= i < |parts| ==> sep !in parts[i]
    ensures Join(parts, sep) == s
  {
    if s == [] then [""]
    else
      var rest := Split(s[1..], sep);
      if s[0] == sep then
        assert Join([""] + rest, sep) == [sep] + Join(rest, sep) by {
          assert ([""] + rest)[1..] == rest;
        }
        assert s == [sep] + s[1..];
        [""] + rest
      else
        var parts := [[s[0]] + rest[0]] + rest[1..];
        assert s == [s[0]] + s[1..];
        assert parts[1..] == rest[1..];
        assert sep !in [s[0]] + rest[0];
        parts
  }

  /** The line's pieces make a job: exactly three, none empty. */
  predicate ValidChunks(chunks: seq<string>)
  {
    |chunks| == 3 && |chunks[0]| != 0 && |chunks[1]| != 0 && |chunks[2]| != 0
  }

  /** The job one input line yields, if any: its fields are non-empty, hold no `|`, spell the
      trimmed line back, and it carries no password. */
  function ParseLine(line: string): (r: Option<Job>)
    ensures r.Some? ==> FormatLine(r.value) == TrimSpace(line) && r.value.password == []
    ensures r.Some? ==> r.value.certName != [] && r.value.inFile != [] && r.value.outFile != []
    ensures r.Some? ==> '|' !in r.value.certName && '|' !in r.value.inFile && '|' !in r.value.outFile
  {
    var t := TrimSpace(line);
    if |t| == 0 then None
    else
      var chunks := Split(t, '|');
      if !ValidChunks(chunks) then None
      else
        assert chunks == [chunks[0], chunks[1], chunks[2]];
        Join3(chunks[0], chunks[1], chunks[2], '|');
        Some(Job(chunks[0], chunks[1], chunks[2], []))
  }

  /** The values `parse` yields for the lines it accepts, in line order. */
  function FilterMap<T>(lines: seq<string>, parse: string -> Option<T>): (kept: seq<T>)
  {
    if lines == [] then []
    else
      var last := parse(lines[|lines| - 1]);
      FilterMap(lines[..|lines| - 1], parse) + (if last.Some? then [last.value] else [])
  }

  /** The jobs the lines yield, in line order. */
  function JobsOf(lines: seq<string>): (jobs: seq<Job>)
  {
    FilterMap(lines, ParseLine)
  }

  /** A batch input line for a job. */
  function FormatLine(j: Job): (line: string)
  {
    j.certName + "|" + j.inFile + "|" + j.outFile
  }

  /** readJobsFromStdin over the scanner's lines and its final error: sends the job of every
      accepted line, in order, then returns the scanner's error. */
  method ReadJobsFromStdin(lines: seq<string>, scanErr: Option<string>) returns (sent: seq<Job>, err: Option<string>)
    ensures sent == JobsOf(lines)
    ensures err == scanErr
  {
    sent := [];
    for i := 0 to |lines|
      invariant sent == JobsOf(lines[..i])
    {
      assert lines[..i + 1][..i] == lines[..i];
      var line := TrimSpace(lines[i]);
      if |line| != 0 {
        var chunks := Split(line, '|');
        if ValidChunks(chunks) {
          sent := sent + [Job(chunks[0], chunks[1], chunks[2], [])];
        }
      }
    }
    assert lines[..|lines|] == lines;
    err := scanErr;
  }

  // ---------------------------------------------------------------------------------------------
  // Properties.

  /** Splitting `a`, a separator and `t`, where `a` has no separator, gives `a` then the pieces of `t`. */
  lemma {:induction false} SplitAfter(a: string, sep: char, t: string)
    requires sep !in a
    ensures Split(a + [sep] + t, sep) == [a] + Split(t, sep)
  {
    if a == [] {
      assert ([] + [sep] + t)[1..] == t;
    } else {
      SplitAfter(a[1..], sep, t);
      assert (a + [sep] + t)[1..] == a[1..] + [sep] + t;
      assert [a[0]] + a[1..] == a;
    }
  }

  /** A string without a separator is one piece. */
  lemma {:induction false} SplitNone(a: string, sep: char)
    requires sep !in a
    ensures Split(a, sep) == [a]
  {
    if a != [] {
      SplitNone(a[1..], sep);
      assert [a[0]] + a[1..] == a;
    }
  }

  /** Split undoes Join when no piece holds the separator. */
  lemma {:induction false} SplitJoin(parts: seq<string>, sep: char)
    requires |parts| >= 1
    requires forall i :: 0 <= i < |parts| ==> sep !in parts[i]
    ensures Split(Join(parts, sep), sep) == parts
  {
    if |parts| == 1 {
      SplitNone(parts[0], sep);
    } else {
      SplitJoin(parts[1..], sep);
      SplitAfter(parts[0], sep, Join(parts[1..], sep));
      assert [parts[0]] + parts[1..] == parts;
    }
  }

  /** Three pieces joined. */
  lemma Join3(a: string, b: string, c: string, sep: char)
    ensures Join([a, b, c], sep) == a + [sep] + b + [sep] + c
  {
    assert [a, b, c][1..] == [b, c];
    assert [b, c][1..] == [c];
    assert Join([b, c], sep) == b + [sep] + c;
    assert a + [sep] + (b + [sep] + c) == a + [sep] + b + [sep] + c;
  }

  /** Trimming leaves a string alone that neither starts nor ends with white space. */
  lemma TrimSpaceKeeps(s: string)
    requires s != [] && !IsSpace(s[0]) && !IsSpace(s[|s| - 1])
    ensures TrimSpace(s) == s
  {
  }

  /** A job whose fields are non-empty, hold no `|`, and do not start or end the line with white
      space is read back from its line. */
  lemma {:induction false} FormattedLineParses(j: Job)
    requires j.certName != [] && j.inFile != [] && j.outFile != []
    requires '|' !in j.certName && '|' !in j.inFile && '|' !in j.outFile
    requires !IsSpace(j.certName[0]) && !IsSpace(j.outFile[|j.outFile| - 1])
    ensures ParseLine(FormatLine(j)) == Some(j.(password := []))
  {
    var line := FormatLine(j);
    TrimSpaceKeeps(line);
    var parts := [j.certName, j.inFile, j.outFile];
    Join3(j.certName, j.inFile, j.outFile, '|');
    SplitJoin(parts, '|');
  }

  /** `t` is three non-empty `|`-free fields joined by `|`. */
  ghost predicate ThreeFields(t: string)
  {
    exists a: string, b: string, c: string :: a != [] && b != [] && c != []
      && '|' !in a && '|' !in b && '|' !in c && t == a + "|" + b + "|" + c
  }

  /** An accepted line's trimmed form is three non-empty `|`-free fields joined by `|`. */
  lemma AcceptedHasThreeFields(line: string)
    requires ParseLine(line).Some?
    ensures ThreeFields(TrimSpace(line))
  {
    var t := TrimSpace(line);
    var j := ParseLine(line).value;
    var chunks := Split(t, '|');
    assert '|' !in chunks[0] && '|' !in chunks[1] && '|' !in chunks[2];
    assert t == j.certName + "|" + j.inFile + "|" + j.outFile;
  }

  /** A line whose trimmed form is three non-empty `|`-free fields joined by `|` is accepted. */
  lemma ThreeFieldsAccepted(line: string)
    requires ThreeFields(TrimSpace(line))
    ensures ParseLine(line).Some?
  {
    var t := TrimSpace(line);
    var a: string, b: string, c: string :| a != [] && b != [] && c != []
      && '|' !in a && '|' !in b && '|' !in c && t == a + "|" + b + "|" + c;
    Join3(a, b, c, '|');
    SplitJoin([a, b, c], '|');
  }

  /** A line is accepted exactly when its trimmed form is three non-empty `|`-free fields joined by `|`. */
  lemma AcceptedLines(line: string)
    ensures ParseLine(line).Some? <==> ThreeFields(TrimSpace(line))
  {
    if ParseLine(line).Some? {
      AcceptedHasThreeFields(line);
    } else if ThreeFields(TrimSpace(line)) {
      ThreeFieldsAccepted(line);
    }
  }

  /** Trimming removes the white space at the ends only. */
  lemma TrimExample()
    ensures TrimSpace(" a | b | c ") == "a | b | c"
  {
    var inner := "a | b | c";
    assert " a | b | c "[1..] == inner + " ";
    assert TrimLeft(inner + " ") == inner + " ";
    assert (inner + " ")[..|inner|] == inner;
    assert TrimRight(inner) == inner;
  }

  /** The pieces between bars keep their white space. */
  lemma SplitExample()
    ensures Split("a | b | c", '|') == ["a ", " b ", " c"]
  {
    Join3("a ", " b ", " c", '|');
    assert "a " + ['|'] + " b " + ['|'] + " c" == "a | b | c";
    SplitJoin(["a ", " b ", " c"], '|');
  }

  /** Fields keep their inner white space: only the line's ends are trimmed. */
  lemma UntrimmedFields()
    ensures ParseLine(" a | b | c ") == Some(Job("a ", " b ", " c", []))
  {
    TrimExample();
    SplitExample();
  }

  /** A blank line yields no job. */
  lemma BlankLineSkipped(line: string)
    requires forall i :: 0 <= i < |line| ==> IsSpace(line[i])
    ensures ParseLine(line) == None
  {
  }

  /** Filtering lines in two parts gives the values of the first part, then those of the second. */
  lemma {:induction false} FilterMapAppend<T>(xs: seq<string>, ys: seq<string>, parse: string -> Option<T>)
    ensures FilterMap(xs + ys, parse) == FilterMap(xs, parse) + FilterMap(ys, parse)
    decreases |ys|
  {
    if ys == [] {
      assert xs + ys == xs;
    } else {
      var n := |ys| - 1;
      var zs := xs + ys;
      assert zs[..|zs| - 1] == xs + ys[..n];
      assert zs[|zs| - 1] == ys[n];
      FilterMapAppend(xs, ys[..n], parse);
    }
  }

  /** Reading lines in two parts yields the jobs of the first part, then those of the second. */
  lemma JobsOfAppend(xs: seq<string>, ys: seq<string>)
    ensures JobsOf(xs + ys) == JobsOf(xs) + JobsOf(ys)
  {
    FilterMapAppend(xs, ys, ParseLine);
  }

  /** One line yields its own job, or nothing. */
  lemma JobsOfOne(line: string)
    ensures JobsOf([line]) == if ParseLine(line).Some? then [ParseLine(line).value] else []
  {
    assert [line][..0] == [];
    var last := ParseLine(line);
    assert FilterMap([line], ParseLine) == FilterMap([], ParseLine) + (if last.Some? then [last.value] else []);
  }

  /** There are never more jobs than lines, and every job has its fields non-empty, free of `|`,
      and no password. */
  lemma {:induction false} JobsOfBounds(lines: seq<string>)
    ensures |JobsOf(lines)| <= |lines|
    ensures forall k :: 0 <= k < |JobsOf(lines)| ==> var j := JobsOf(lines)[k];
      j.certName != [] && j.inFile != [] && j.outFile != [] && j.password == []
      && '|' !in j.certName && '|' !in j.inFile && '|' !in j.outFile
  {
    if lines != [] {
      JobsOfBounds(lines[..|lines| - 1]);
    }
  }
}
