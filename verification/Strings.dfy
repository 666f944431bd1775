/** The few operations of Go's strings package that the other modules use. */
module Strings {
  /** unicode.IsSpace */
  predicate IsSpace(c: char) {
    || c == ' ' || c == '\t' || c == '\n' || c == '\r' || c == 11 as char || c == 12 as char
    || c == 0x85 as char || c == 0xA0 as char || c == 0x1680 as char || 0x2000 as char <= c <= 0x200A as char
    || c == 0x2028 as char || c == 0x2029 as char || c == 0x202F as char || c == 0x205F as char || c == 0x3000 as char
  }

  function TrimLeft(s: string): string {
    if |s| > 0 && IsSpace(s[0]) then TrimLeft(s[1..]) else s
  }

  function TrimRight(s: string): string {
    if |s| > 0 && IsSpace(s[|s|-1]) then TrimRight(s[..|s|-1]) else s
  }

  function TrimSpace(s: string): string {
    TrimRight(TrimLeft(s))
  }

  predicate Trimmed(s: string) {
    |s| > 0 ==> !IsSpace(s[0]) && !IsSpace(s[|s|-1])
  }

  lemma {:induction false} TrimLeftIsSuffix(s: string)
    ensures |TrimLeft(s)| <= |s| && TrimLeft(s) == s[|s|-|TrimLeft(s)|..]
    ensures |TrimLeft(s)| > 0 ==> !IsSpace(TrimLeft(s)[0])
  {
    if |s| > 0 && IsSpace(s[0]) {
      TrimLeftIsSuffix(s[1..]);
    }
  }

  lemma {:induction false} TrimRightIsPrefix(s: string)
    ensures |TrimRight(s)| <= |s| && TrimRight(s) == s[..|TrimRight(s)|]
    ensures |TrimRight(s)| > 0 ==> !IsSpace(TrimRight(s)[|TrimRight(s)|-1])
  {
    if |s| > 0 && IsSpace(s[|s|-1]) {
      TrimRightIsPrefix(s[..|s|-1]);
    }
  }

  lemma {:induction false} TrimSpaceTrims(s: string)
    ensures Trimmed(TrimSpace(s)) && TrimSpace(TrimSpace(s)) == TrimSpace(s)
    ensures forall c :: c in TrimSpace(s) ==> c in s
  {
    TrimLeftIsSuffix(s);
    TrimRightIsPrefix(TrimLeft(s));
  }

  predicate AllSpaces(s: string) {
    forall i :: 0 <= i < |s| ==> IsSpace(s[i])
  }

  /** Of the ASCII characters these six are white space. */
  lemma AsciiSpaces(c: char)
    requires c < 128 as char
    ensures IsSpace(c) <==> c == ' ' || 9 as char <= c <= 13 as char
  {
  }

  lemma {:induction false} TrimLeftLosesSpaces(s: string)
    ensures |TrimLeft(s)| <= |s| && AllSpaces(s[..|s|-|TrimLeft(s)|])
  {
    TrimLeftIsSuffix(s);
    if |s| > 0 && IsSpace(s[0]) {
      TrimLeftIsSuffix(s[1..]);
      TrimLeftLosesSpaces(s[1..]);
      var n := |s| - |TrimLeft(s)|;
      assert s[1..][..n-1] == s[..n][1..];
      forall i | 0 <= i < n ensures IsSpace(s[..n][i]) {
        assert i > 0 ==> s[..n][i] == s[1..][..n-1][i-1];
      }
    }
  }

  lemma {:induction false} TrimRightLosesSpaces(s: string)
    ensures |TrimRight(s)| <= |s| && AllSpaces(s[|TrimRight(s)|..])
  {
    TrimRightIsPrefix(s);
    if |s| > 0 && IsSpace(s[|s|-1]) {
      TrimRightIsPrefix(s[..|s|-1]);
      TrimRightLosesSpaces(s[..|s|-1]);
      var n := |TrimRight(s)|;
      forall i | 0 <= i < |s| - n ensures IsSpace(s[n..][i]) {
        assert n + i < |s| - 1 ==> s[n..][i] == s[..|s|-1][n..][i];
      }
    }
  }

  /** Trimming loses white space at both ends and nothing else. */
  lemma {:induction false} TrimSpaceLosesSpaces(s: string) returns (lead: string, trail: string)
    ensures s == lead + TrimSpace(s) + trail && AllSpaces(lead) && AllSpaces(trail)
  {
    TrimLeftIsSuffix(s);
    TrimLeftLosesSpaces(s);
    TrimRightIsPrefix(TrimLeft(s));
    TrimRightLosesSpaces(TrimLeft(s));
    hide *;
    var rest := TrimLeft(s);
    lead, trail := s[..|s|-|rest|], rest[|TrimRight(rest)|..];
    assert TrimSpace(s) == TrimRight(rest) by {
      TrimsBothEnds(s);
    }
  }

  lemma TrimsBothEnds(s: string)
    ensures TrimSpace(s) == TrimRight(TrimLeft(s))
  {
  }

  lemma TrimmedStays(s: string)
    requires Trimmed(s)
    ensures TrimSpace(s) == s
  {
  }

  /** strings.Split(s, "\n") */
  function Split(s: string): (lines: seq<string>)
    ensures |lines| > 0
  {
    if |s| == 0 then [""]
    else
      var rest := Split(s[1..]);
      if s[0] == '\n' then [""] + rest else [[s[0]] + rest[0]] + rest[1..]
  }

  /** strings.Join(lines, "\n") */
  function Join(lines: seq<string>): string {
    if |lines| == 0 then "" else if |lines| == 1 then lines[0] else lines[0] + "\n" + Join(lines[1..])
  }

  /** Nothing is lost between the pieces. */
  lemma {:induction false} JoinSplit(s: string)
    ensures Join(Split(s)) == s
  {
    if |s| > 0 {
      var rest := Split(s[1..]);
      JoinSplit(s[1..]);
      if s[0] == '\n' {
        assert ([""] + rest)[1..] == rest;
      } else if |rest| > 1 {
        assert ([[s[0]] + rest[0]] + rest[1..])[1..] == rest[1..];
      }
    }
  }

  predicate OneLine(s: string) {
    '\n' !in s
  }

  lemma {:induction false} SplitGivesLines(s: string, i: nat)
    requires i < |Split(s)|
    ensures OneLine(Split(s)[i])
  {
    if |s| > 0 {
      if i > 0 {
        SplitGivesLines(s[1..], if s[0] == '\n' then i - 1 else i);
      } else if s[0] != '\n' {
        SplitGivesLines(s[1..], 0);
      }
    }
  }

  lemma {:induction false} SplitFirstLine(line: string, rest: string)
    requires OneLine(line)
    ensures Split(line + "\n" + rest) == [line] + Split(rest)
  {
    var s := line + "\n" + rest;
    if |line| == 0 {
      assert s[1..] == rest;
    } else {
      SplitFirstLine(line[1..], rest);
      assert s[1..] == line[1..] + "\n" + rest;
      assert [line[0]] + line[1..] == line;
    }
  }

  /** Lines written one under the other come back, with an empty piece behind the last "\n". */
  lemma {:induction false} SplitJoined(lines: seq<string>)
    requires |lines| > 0 && forall i :: 0 <= i < |lines| ==> OneLine(lines[i])
    ensures Split(Join(lines) + "\n") == lines + [""]
  {
    if |lines| == 1 {
      SplitFirstLine(lines[0], "");
      assert lines[0] + "\n" + "" == lines[0] + "\n";
    } else {
      SplitJoined(lines[1..]);
      SplitFirstLine(lines[0], Join(lines[1..]) + "\n");
      assert Join(lines) + "\n" == lines[0] + "\n" + (Join(lines[1..]) + "\n");
      assert [lines[0]] + (lines[1..] + [""]) == lines + [""];
    }
  }

  /** strings.IndexByte */
  function IndexOf(s: string, c: char): (i: int)
    ensures -1 <= i < |s|
    ensures i >= 0 ==> s[i] == c && c !in s[..i]
    ensures i < 0 ==> c !in s
  {
    if |s| == 0 then -1
    else if s[0] == c then 0
    else
      var i := IndexOf(s[1..], c);
      if i < 0 then -1 else i + 1
  }
}
