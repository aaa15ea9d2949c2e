/** Trimming the progress lines out of a command's output. */
module Trim {
  import opened Text

  const Newline: string := "\n"
  const Snip: seq<string> := ["...", "<snipped dcp progress output>", "..."]

  predicate Digits(s: string) {
    forall i :: 0 <= i < |s| ==> '0' <= s[i] <= '9'
  }

  /** The line has "Copied", at least one more character, and then one to three digits and a percent
      sign in parentheses. */
  predicate IsProgress(line: string) {
    exists i, j, n :: 0 <= i <= |line| && 0 <= j <= |line| && 1 <= n <= 3 && ProgressAt(line, i, j, n)
  }

  predicate ProgressAt(line: string, i: int, j: int, n: int) {
    && OccursAt(line, "Copied", i)
    && i + 7 <= j && 0 <= n && OccursAt(line, "(", j)
    && OccursAt(line, "%)", j + 1 + n) && Digits(line[j + 1..j + 1 + n])
  }

  /** The first progress line at or after `i`, or -1. */
  function First(lines: seq<string>, i: nat): (r: int)
    requires i <= |lines|
    ensures r == -1 || (i <= r < |lines| && IsProgress(lines[r]))
    ensures forall k :: i <= k < |lines| && (r == -1 || k < r) ==> !IsProgress(lines[k])
    decreases |lines| - i
  {
    if i == |lines| then -1
    else if IsProgress(lines[i]) then i
    else First(lines, i + 1)
  }

  /** The last progress line before `i`, or -1. */
  function Last(lines: seq<string>, i: nat): (r: int)
    requires i <= |lines|
    ensures -1 <= r < i && (r == -1 || IsProgress(lines[r]))
    ensures forall k :: r < k < i ==> !IsProgress(lines[k])
  {
    if i == 0 then -1
    else if IsProgress(lines[i - 1]) then i - 1
    else Last(lines, i - 1)
  }

  /** There is something between the first and the last progress line. */
  predicate Long(lines: seq<string>) {
    First(lines, 0) != -1 && Last(lines, |lines|) - First(lines, 0) > 1
  }

  function TrimmedLines(lines: seq<string>): seq<string> {
    if Long(lines) then lines[..First(lines, 0) + 1] + Snip + lines[Last(lines, |lines|)..] else lines
  }

  function Trimmed(output: string): string {
    var lines := Split(output, Newline);
    if Long(lines) then Join(TrimmedLines(lines), Newline) else output
  }

  /** The two loops of the code: one finds the lines, the other copies those that stay. */
  method TrimDcpProgressFromOutput(output: string) returns (r: string)
    ensures r == Trimmed(output)
  {
    var threshold := 2;
    var progressFound := false;
    var first, last := -1, -1;
    var lines := Split(output, Newline);

    for i := 0 to |lines|
      invariant progressFound == (first != -1)
      invariant -1 <= first <= last < i && (first == -1 <==> last == -1)
      invariant first == -1 ==> forall k :: 0 <= k < i ==> !IsProgress(lines[k])
      invariant first != -1 ==> first == First(lines, 0)
      invariant last == Last(lines, i)
    {
      if IsProgress(lines[i]) {
        if !progressFound {
          first := i;
          progressFound := true;
        }
        last := i;
      }
    }

    if !progressFound || first == -1 || last == -1 || last - first <= threshold - 1 {
      return output;
    }

    var result := KeepLines(lines, first, last);
    r := Join(result, Newline);
  }

  /** What the second loop has put together when it comes to line `i`. */
  function KeptUpTo(lines: seq<string>, first: int, last: int, i: nat): seq<string>
    requires i <= |lines|
  {
    if i == 0 then []
    else
      KeptUpTo(lines, first, last, i - 1) +
      (if !(first < i - 1 < last) then [lines[i - 1]] else if i - 1 == first + 1 then Snip else [])
  }

  lemma {:induction false} KeptBefore(lines: seq<string>, first: int, last: int, i: nat)
    requires i <= |lines| && i <= first + 1
    ensures KeptUpTo(lines, first, last, i) == lines[..i]
  {
    if i > 0 {
      KeptBefore(lines, first, last, i - 1);
      assert lines[..i] == lines[..i - 1] + [lines[i - 1]];
    }
  }

  lemma {:induction false} KeptBetween(lines: seq<string>, first: int, last: int, i: nat)
    requires 0 <= first && first + 1 < i <= last < |lines|
    ensures KeptUpTo(lines, first, last, i) == lines[..first + 1] + Snip
  {
    if i == first + 2 {
      KeptBefore(lines, first, last, first + 1);
    } else {
      KeptBetween(lines, first, last, i - 1);
    }
  }

  lemma {:induction false} KeptAfter(lines: seq<string>, first: int, last: int, i: nat)
    requires 0 <= first && first + 1 < last && last <= i <= |lines| && last < |lines|
    ensures KeptUpTo(lines, first, last, i) == lines[..first + 1] + Snip + lines[last..i]
  {
    if i == last {
      KeptBetween(lines, first, last, last);
      assert lines[last..last] == [];
    } else {
      KeptAfter(lines, first, last, i - 1);
      assert lines[last..i] == lines[last..i - 1] + [lines[i - 1]];
    }
  }

  /** The second loop. */
  method KeepLines(lines: seq<string>, first: int, last: int) returns (result: seq<string>)
    requires 0 <= first && first + 1 < last < |lines|
    ensures result == lines[..first + 1] + Snip + lines[last..]
  {
    result := [];
    var insertedSnip := false;
    for i := 0 to |lines|
      invariant insertedSnip == (i > first + 1)
      invariant result == KeptUpTo(lines, first, last, i)
    {
      if i == first || i == last {
        result := result + [lines[i]];
      } else if i > first && i < last {
        if !insertedSnip {
          result := result + ["..."];
          result := result + ["<snipped dcp progress output>"];
          result := result + ["..."];
          insertedSnip := true;
        }
      } else {
        result := result + [lines[i]];
      }
    }
    KeptAfter(lines, first, last, |lines|);
    assert lines[last..|lines|] == lines[last..];
  }

  lemma StartsSomewhere(line: string, sub: string, k: int)
    requires sub != "" && OccursAt(line, sub, k)
    ensures sub[0] in line
  {
    assert line[k..k + |sub|][0] == line[k];
  }

  lemma StartsNowhere(line: string, sub: string, k: int)
    requires sub != "" && sub[0] !in line
    ensures !OccursAt(line, sub, k)
  {
    if OccursAt(line, sub, k) {
      StartsSomewhere(line, sub, k);
    }
  }

  lemma SnipIsNoProgress(i: nat)
    requires i < 3
    ensures !IsProgress(Snip[i]) && '\n' !in Snip[i]
  {
    var line := Snip[i];
    assert 'C' !in line;
    forall k
      ensures !OccursAt(line, "Copied", k)
    {
      StartsNowhere(line, "Copied", k);
    }
  }

  /** The last progress line is found wherever the search from the front finds one. */
  lemma FirstBeforeLast(lines: seq<string>)
    ensures First(lines, 0) <= Last(lines, |lines|)
    ensures First(lines, 0) == -1 <==> Last(lines, |lines|) == -1
  {
  }

  /** A trimmed output has exactly two progress lines: the first and the last of the output. */
  lemma TwoProgressLines(lines: seq<string>)
    requires Long(lines)
    ensures var f, t := First(lines, 0), TrimmedLines(lines);
      && f + 4 < |t| && t[f] == lines[f] && t[f + 4] == lines[Last(lines, |lines|)]
      && forall i :: 0 <= i < |t| ==> (IsProgress(t[i]) <==> i == f || i == f + 4)
  {
    var f, l, t := First(lines, 0), Last(lines, |lines|), TrimmedLines(lines);
    forall i | 0 <= i < |t|
      ensures IsProgress(t[i]) <==> i == f || i == f + 4
    {
      if i <= f {
        assert t[i] == lines[i];
      } else if i < f + 4 {
        assert t[i] == Snip[i - f - 1];
        SnipIsNoProgress(i - f - 1);
      } else {
        assert t[i] == lines[i - f - 4 + l];
      }
    }
  }

  lemma FoundAgain(lines: seq<string>, f: nat, l: nat)
    requires f < l < |lines| && forall i :: 0 <= i < |lines| ==> (IsProgress(lines[i]) <==> i == f || i == l)
    ensures First(lines, 0) == f && Last(lines, |lines|) == l
  {
    assert IsProgress(lines[f]) && IsProgress(lines[l]);
  }

  lemma TrimmedLinesTwice(lines: seq<string>)
    ensures TrimmedLines(TrimmedLines(lines)) == TrimmedLines(lines)
    ensures Long(TrimmedLines(lines)) == Long(lines)
  {
    if Long(lines) {
      TwoProgressLines(lines);
      var f, t := First(lines, 0), TrimmedLines(lines);
      FoundAgain(t, f, f + 4);
      assert t[..f + 1] == lines[..f + 1];
      assert t[f + 4..] == lines[Last(lines, |lines|)..];
    }
  }

  /** The lines of a trimmed output are the trimmed lines of the output. */
  lemma {:induction false} LinesOfTrimmed(output: string)
    ensures Split(Trimmed(output), Newline) == TrimmedLines(Split(output, Newline))
  {
    var lines := Split(output, Newline);
    if Long(lines) {
      var t := TrimmedLines(lines);
      SplitParts(output, '\n');
      SnipIsNoProgress(0);
      SnipIsNoProgress(1);
      SnipIsNoProgress(2);
      assert forall p :: p in t ==> p in lines || p in Snip;
      SplitJoin(t, '\n');
    }
  }

  /** Trimming twice is trimming once. */
  lemma {:induction false} TrimTwice(output: string)
    ensures Trimmed(Trimmed(output)) == Trimmed(output)
  {
    LinesOfTrimmed(output);
    TrimmedLinesTwice(Split(output, Newline));
    JoinSplit(Trimmed(output), Newline);
  }

  function Others(lines: seq<string>): seq<string> {
    if lines == [] then []
    else (if IsProgress(lines[0]) then [] else [lines[0]]) + Others(lines[1..])
  }

  /** What the comment on the code says: only progress lines go, and a snip tells of it. */
  function AsDocumented(lines: seq<string>): seq<string> {
    if Long(lines) then
      var f, l := First(lines, 0), Last(lines, |lines|);
      lines[..f + 1] + Snip + Others(lines[f + 1..l]) + lines[l..]
    else lines
  }

  predicate OnlyProgressBetween(lines: seq<string>, f: int, l: int)
    requires -1 <= f && l <= |lines|
  {
    forall k :: f < k < l ==> IsProgress(lines[k])
  }

  lemma Between(lines: seq<string>, f: int, l: int)
    requires -1 <= f < l <= |lines|
    ensures OnlyProgressBetween(lines, f, l) <==> Others(lines[f + 1..l]) == []
  {
    var between := lines[f + 1..l];
    NoOthers(between);
    assert forall i :: 0 <= i < |between| ==> between[i] == lines[f + 1 + i];
    forall k | f < k < l
      ensures lines[k] == between[k - f - 1]
    {
    }
  }

  lemma Middle(a: seq<string>, b: seq<string>, c: seq<string>)
    ensures a + c == a + b + c <==> b == []
  {
    assert |a + b + c| == |a + c| + |b|;
    assert a + [] == a;
  }

  /** The code does as its comment says exactly when only progress lines stand between the first and
      the last one; other lines there are dropped as well. */
  lemma {:induction false} TrimsAsDocumented(lines: seq<string>)
    ensures TrimmedLines(lines) == AsDocumented(lines) <==>
      OnlyProgressBetween(lines, First(lines, 0), Last(lines, |lines|))
  {
    var f, l := First(lines, 0), Last(lines, |lines|);
    FirstBeforeLast(lines);
    if Long(lines) {
      Between(lines, f, l);
      Middle(lines[..f + 1] + Snip, Others(lines[f + 1..l]), lines[l..]);
    }
  }

  lemma {:induction false} NoOthers(lines: seq<string>)
    ensures Others(lines) == [] <==> forall i :: 0 <= i < |lines| ==> IsProgress(lines[i])
  {
    if lines != [] {
      NoOthers(lines[1..]);
      assert forall i :: 1 <= i < |lines| ==> lines[i] == lines[1..][i - 1];
    }
  }

  function Copied(percent: string): string {
    "Copied 1 MiB (" + percent + "%)"
  }

  lemma CopiedIsProgress(percent: string)
    requires 1 <= |percent| <= 3 && Digits(percent)
    ensures IsProgress(Copied(percent)) && '\n' !in Copied(percent)
  {
    var line := Copied(percent);
    assert line[0..6] == "Copied" && line[13..14] == "(";
    assert line[14..14 + |percent|] == percent;
    assert line[14 + |percent|..16 + |percent|] == "%)";
    assert ProgressAt(line, 0, 13, |percent|);
    forall k | 0 <= k < |line|
      ensures line[k] != '\n'
    {
      assert 14 <= k < 14 + |percent| ==> line[k] == percent[k - 14];
    }
  }

  /** Whatever line stands between two progress lines is dropped. */
  lemma MiddleIsDropped(a: string, b: string, c: string)
    requires IsProgress(a) && IsProgress(c) && '\n' !in a && '\n' !in b && '\n' !in c
    ensures Trimmed(a + "\n" + b + "\n" + c) == Join([a] + Snip + [c], Newline)
  {
    var lines := [a, b, c];
    ThreeLines(a, b, c);
    FoundBetween(lines);
    assert lines[..1] == [a] && lines[2..] == [c];
  }

  /** An error message, for one. */
  lemma ErrorIsDropped()
    ensures Trimmed(Copied("1") + "\n" + "ERROR: no space" + "\n" + Copied("100")) ==
      Join([Copied("1")] + Snip + [Copied("100")], Newline)
  {
    CopiedIsProgress("1");
    CopiedIsProgress("100");
    MiddleIsDropped(Copied("1"), "ERROR: no space", Copied("100"));
  }

  lemma ThreeLines(a: string, b: string, c: string)
    requires '\n' !in a && '\n' !in b && '\n' !in c
    ensures Split(a + "\n" + b + "\n" + c, Newline) == [a, b, c]
  {
    var lines := [a, b, c];
    assert Join(lines[1..], Newline) == b + "\n" + c;
    assert Join(lines, Newline) == a + "\n" + (b + "\n" + c);
    assert a + "\n" + b + "\n" + c == a + "\n" + (b + "\n" + c);
    SplitJoin(lines, '\n');
  }

  lemma FoundBetween(lines: seq<string>)
    requires |lines| == 3 && IsProgress(lines[0]) && IsProgress(lines[2])
    ensures First(lines, 0) == 0 && Last(lines, 3) == 2
  {
  }

  // ---------------------------------------------------------------- when nothing is trimmed

  /** No progress line, no line between the first and the last, or only the snip. */
  predicate NothingToTrim(lines: seq<string>) {
    var f, l := First(lines, 0), Last(lines, |lines|);
    f == -1 || l <= f + 1 || lines[f + 1..l] == Snip
  }

  lemma LinesLeftAlone(lines: seq<string>)
    ensures TrimmedLines(lines) == lines <==> NothingToTrim(lines)
  {
    var f, l := First(lines, 0), Last(lines, |lines|);
    FirstBeforeLast(lines);
    if Long(lines) {
      SameMiddle(lines[..f + 1], Snip, lines[f + 1..l], lines[l..]);
      CutTwice(lines, f + 1, l);
    }
  }

  lemma CutTwice(lines: seq<string>, i: nat, j: nat)
    requires i <= j <= |lines|
    ensures lines == lines[..i] + lines[i..j] + lines[j..]
  {
  }

  /** An output is left alone exactly when it has no progress line, when no line stands between the
      first and the last of them, or when what stands there is the snip already. */
  lemma {:induction false} LeftAlone(output: string)
    ensures Trimmed(output) == output <==> NothingToTrim(Split(output, Newline))
  {
    LinesLeftAlone(Split(output, Newline));
    LinesOfTrimmed(output);
    JoinSplit(output, Newline);
    JoinSplit(Trimmed(output), Newline);
  }

  lemma SameMiddle(a: seq<string>, b: seq<string>, b': seq<string>, c: seq<string>)
    ensures a + b + c == a + b' + c <==> b == b'
  {
    var s, t := a + b + c, a + b' + c;
    if s == t {
      assert |b| == |b'|;
      assert b == s[|a|..|a| + |b|] && b' == t[|a|..|a| + |b'|];
    }
  }

  // ---------------------------------------------------------------- what a progress line is

  /** A progress line, written out: something, "Copied", at least one character, and one to three digits
      and a percent sign in parentheses. */
  ghost predicate ReadsAsProgress(line: string) {
    exists a, mid, digits, rest :: IsReading(line, a, mid, digits, rest)
  }

  predicate IsReading(line: string, a: string, mid: string, digits: string, rest: string) {
    line == a + "Copied" + mid + "(" + digits + "%)" + rest && mid != "" && 1 <= |digits| <= 3 && Digits(digits)
  }

  lemma ReadingIsProgress(line: string, a: string, mid: string, digits: string, rest: string)
    requires IsReading(line, a, mid, digits, rest)
    ensures IsProgress(line)
  {
    var i, j, n := |a|, |a| + 6 + |mid|, |digits|;
    assert line[i..i + 6] == "Copied";
    assert line[j..j + 1] == "(";
    assert line[j + 1..j + 1 + n] == digits;
    assert line[j + 1 + n..j + 3 + n] == "%)";
    assert ProgressAt(line, i, j, n);
  }

  lemma ProgressIsReading(line: string, i: int, j: int, n: int) returns (a: string, mid: string, digits: string, rest: string)
    requires ProgressAt(line, i, j, n) && 1 <= n <= 3
    ensures IsReading(line, a, mid, digits, rest)
  {
    a, mid, digits, rest := line[..i], line[i + 6..j], line[j + 1..j + 1 + n], line[j + 3 + n..];
    assert line == line[..i] + line[i..i + 6] + line[i + 6..j] + line[j..j + 1] + line[j + 1..j + 1 + n] +
      line[j + 1 + n..j + 3 + n] + line[j + 3 + n..];
  }

  lemma ProgressMeans(line: string)
    ensures IsProgress(line) <==> ReadsAsProgress(line)
  {
    if IsProgress(line) {
      var i, j, n :| 0 <= i <= |line| && 0 <= j <= |line| && 1 <= n <= 3 && ProgressAt(line, i, j, n);
      var a, mid, digits, rest := ProgressIsReading(line, i, j, n);
    }
    if ReadsAsProgress(line) {
      var a, mid, digits, rest :| IsReading(line, a, mid, digits, rest);
      ReadingIsProgress(line, a, mid, digits, rest);
    }
  }
}
