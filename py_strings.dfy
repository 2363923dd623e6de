/** The Python string methods the code-generation endpoints rely on:
    str.isspace, str.strip, str.startswith, str.endswith, str.split("\n")
    and "\n".join. */
module PyStrings {

  /** str.isspace() of a single character: the code points Python counts as whitespace. */
  predicate IsSpace(c: char) {
    ('\t' <= c <= '\r') || ('\U{1c}' <= c <= '\U{20}') || c == '\U{85}' || c == '\U{a0}'
    || c == '\U{1680}' || ('\U{2000}' <= c <= '\U{200a}') || c == '\U{2028}' || c == '\U{2029}'
    || c == '\U{202f}' || c == '\U{205f}' || c == '\U{3000}'
  }

  /** Among ASCII characters, str.isspace() holds exactly for tab, line feed,
      vertical tab, form feed, carriage return, the separators 0x1c-0x1f and space. */
  lemma AsciiSpace(c: char)
    requires c < '\U{80}'
    ensures IsSpace(c) <==> c in " \t\n\r\U{0b}\U{0c}\U{1c}\U{1d}\U{1e}\U{1f}"
  {
  }

  /** Every character of s is whitespace: exactly when the whitespace prefix is all of s. */
  predicate AllSpace(s: string): (r: bool)
    ensures r <==> LeadingSpace(s) == |s|
  {
    forall i :: 0 <= i < |s| ==> IsSpace(s[i])
  }

  /** How many whitespace characters s starts with. */
  function LeadingSpace(s: string): (n: nat)
    ensures n <= |s|
    ensures forall i :: 0 <= i < n ==> IsSpace(s[i])
    ensures n < |s| ==> !IsSpace(s[n])
  {
    if s == [] || !IsSpace(s[0]) then 0 else 1 + LeadingSpace(s[1..])
  }

  /** How many whitespace characters s ends with. */
  function TrailingSpace(s: string): (n: nat)
    ensures n <= |s|
    ensures forall i :: |s| - n <= i < |s| ==> IsSpace(s[i])
    ensures n < |s| ==> !IsSpace(s[|s| - 1 - n])
  {
    if s == [] || !IsSpace(s[|s| - 1]) then 0 else 1 + TrailingSpace(s[..|s| - 1])
  }

  /** s.strip(): s with its whitespace prefix and suffix removed. */
  function Strip(s: string): (r: string)
    ensures |r| <= |s|
    ensures r == [] <==> AllSpace(s)
    ensures r != [] ==> !IsSpace(r[0]) && !IsSpace(r[|r| - 1])
    ensures exists i, j :: 0 <= i <= j <= |s| && r == s[i..j] && AllSpace(s[..i]) && AllSpace(s[j..])
  {
    var i := LeadingSpace(s);
    var j := |s| - TrailingSpace(s[i..]);
    SpaceBefore(s, i);
    SpaceAfter(s, i, j);
    KeptEnds(s, i, j);
    KeptNothing(s, i, j);
    s[i..j]
  }

  /** What Strip keeps has non-space ends. */
  lemma KeptEnds(s: string, i: nat, j: nat)
    requires i == LeadingSpace(s) && j == |s| - TrailingSpace(s[i..])
    ensures i <= j <= |s|
    ensures i < |s| ==> i < j && !IsSpace(s[i]) && !IsSpace(s[j - 1])
  {
    var l := s[i..];
    if i < |s| {
      assert l[0] == s[i];
      TrailingStopsAtNonSpace(l);
      assert s[j - 1] == l[|l| - 1 - TrailingSpace(l)];
    }
  }

  /** Strip keeps nothing exactly when the text is all whitespace. */
  lemma KeptNothing(s: string, i: nat, j: nat)
    requires i == LeadingSpace(s) && j == |s| - TrailingSpace(s[i..])
    requires i <= j <= |s|
    requires i < |s| ==> i < j && !IsSpace(s[i])
    ensures i == j <==> AllSpace(s)
  {
    if i == |s| {
      assert s[i..] == [];
    }
  }

  /** A text that starts with a non-space character is not all trailing whitespace. */
  lemma TrailingStopsAtNonSpace(l: string)
    requires l != [] && !IsSpace(l[0])
    ensures TrailingSpace(l) < |l|
  {
    var first := l[0];
    assert TrailingSpace(l) == |l| ==> IsSpace(first);
  }

  lemma SpaceBefore(s: string, i: nat)
    requires i == LeadingSpace(s)
    ensures AllSpace(s[..i])
  {
    forall k | 0 <= k < i ensures IsSpace(s[..i][k]) {
      assert s[..i][k] == s[k];
    }
  }

  lemma SpaceAfter(s: string, i: nat, j: nat)
    requires i <= |s| && j == |s| - TrailingSpace(s[i..])
    ensures i <= j <= |s|
    ensures AllSpace(s[j..])
  {
    var l := s[i..];
    forall k | 0 <= k < |s| - j ensures IsSpace(s[j..][k]) {
      assert s[j..][k] == l[|l| - TrailingSpace(l) + k];
    }
  }

  predicate StartsWith(s: string, prefix: string) {
    |prefix| <= |s| && s[..|prefix|] == prefix
  }

  predicate EndsWith(s: string, suffix: string) {
    |suffix| <= |s| && s[|s| - |suffix|..] == suffix
  }

  /** s.split("\n"): the lines of s, empty ones included; there is always at least one. */
  function Split(s: string): (lines: seq<string>)
    ensures |lines| >= 1
    ensures forall k :: 0 <= k < |lines| ==> '\n' !in lines[k]
  {
    if s == [] then [""]
    else
      var rest := Split(s[1..]);
      if s[0] == '\n' then [""] + rest
      else [[s[0]] + rest[0]] + rest[1..]
  }

  /** "\n".join(lines) */
  function Join(lines: seq<string>): (r: string)
    ensures lines == [] ==> r == ""
    ensures lines != [] ==> lines[0] <= r && |r| >= |lines[0]| + |lines| - 1
    ensures |lines| >= 2 ==> r[|lines[0]|] == '\n'
  {
    if lines == [] then ""
    else if |lines| == 1 then lines[0]
    else lines[0] + "\n" + Join(lines[1..])
  }

  /** Python's list slice lines[1:-1]: empty when there are fewer than three lines. */
  function Inner(lines: seq<string>): (r: seq<string>)
    ensures |lines| <= 2 ==> r == []
    ensures |lines| > 2 ==> |r| == |lines| - 2 && forall k :: 0 <= k < |r| ==> r[k] == lines[k + 1]
  {
    if |lines| <= 2 then [] else lines[1..|lines| - 1]
  }

  lemma {:induction false} JoinPrepend(c: char, lines: seq<string>)
    requires |lines| >= 1
    ensures Join([[c] + lines[0]] + lines[1..]) == [c] + Join(lines)
  {
    var l := [[c] + lines[0]] + lines[1..];
    if |lines| > 1 {
      assert l[1..] == lines[1..];
    }
  }

  /** Joining the lines of s gives s back. */
  lemma {:induction false} JoinSplit(s: string)
    ensures Join(Split(s)) == s
  {
    if s != [] {
      var rest := Split(s[1..]);
      JoinSplit(s[1..]);
      if s[0] == '\n' {
        assert ([""] + rest)[1..] == rest;
      } else {
        JoinPrepend(s[0], rest);
      }
    }
  }

  lemma {:induction false} SplitNoNewline(s: string)
    requires '\n' !in s
    ensures Split(s) == [s]
  {
    if s != [] {
      assert '\n' !in s[1..] by {
        forall k | 0 <= k < |s| - 1 ensures s[1..][k] != '\n' {
          assert s[1..][k] == s[k + 1];
        }
      }
      SplitNoNewline(s[1..]);
      assert [s[0]] + s[1..] == s;
    }
  }

  lemma {:induction false} SplitAfterLine(line: string, rest: string)
    requires '\n' !in line
    ensures Split(line + "\n" + rest) == [line] + Split(rest)
  {
    if line == [] {
      assert line + "\n" + rest == "\n" + rest;
      assert ("\n" + rest)[1..] == rest;
    } else {
      var s := line + "\n" + rest;
      assert s[1..] == line[1..] + "\n" + rest;
      assert '\n' !in line[1..] by {
        forall k | 0 <= k < |line| - 1 ensures line[1..][k] != '\n' {
          assert line[1..][k] == line[k + 1];
        }
      }
      SplitAfterLine(line[1..], rest);
      assert [line[0]] + line[1..] == line;
    }
  }

  /** Splitting lines that hold no newline, once joined, gives the same lines back. */
  lemma {:induction false} SplitJoin(lines: seq<string>)
    requires |lines| >= 1
    requires forall k :: 0 <= k < |lines| ==> '\n' !in lines[k]
    ensures Split(Join(lines)) == lines
  {
    if |lines| == 1 {
      SplitNoNewline(lines[0]);
    } else {
      SplitJoin(lines[1..]);
      SplitAfterLine(lines[0], Join(lines[1..]));
    }
  }

  /** The last line splits off the same way the first one does. */
  lemma {:induction false} JoinSnoc(lines: seq<string>)
    requires |lines| >= 2
    ensures Join(lines) == Join(lines[..|lines| - 1]) + "\n" + lines[|lines| - 1]
  {
    if |lines| > 2 {
      JoinSnoc(lines[1..]);
      assert lines[1..][..|lines| - 2] == lines[..|lines| - 1][1..];
    }
  }
}
