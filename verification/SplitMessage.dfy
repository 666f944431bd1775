/** internal/channel/telegram.go, SplitMessage: a long text in chunks that fit a message. A string
    is a sequence of bytes. */
module SplitMessage {
  predicate Occurs(s: string, sep: string, i: int) {
    0 <= i && i + |sep| <= |s| && s[i..i+|sep|] == sep
  }

  /** strings.LastIndex */
  function LastIndex(s: string, sep: string): (i: int)
    ensures i == -1 || Occurs(s, sep, i)
    ensures forall j :: Occurs(s, sep, j) ==> j <= i
  {
    LastIndexUpTo(s, sep, |s| + 1)
  }

  /** The last place before n at which sep begins. */
  function LastIndexUpTo(s: string, sep: string, n: nat): (i: int)
    ensures i == -1 || Occurs(s, sep, i)
    ensures forall j :: Occurs(s, sep, j) && j < n ==> j <= i
  {
    if n == 0 then -1
    else if Occurs(s, sep, n - 1) then n - 1
    else LastIndexUpTo(s, sep, n - 1)
  }

  /** The length of the next piece: behind the last paragraph break, line break, sentence or word
      end of the window, in this order of preference, if it lies past the first quarter. */
  function CutAt(text: string, maxLen: nat): (cut: nat)
    requires 1 <= maxLen < |text|
    ensures 1 <= cut <= maxLen
  {
    var chunk := text[..maxLen];
    if LastIndex(chunk, "\n\n") > maxLen / 4 then LastIndex(chunk, "\n\n") + 2
    else if LastIndex(chunk, "\n") > maxLen / 4 then LastIndex(chunk, "\n") + 1
    else if LastIndex(chunk, ". ") > maxLen / 4 then LastIndex(chunk, ". ") + 2
    else if LastIndex(chunk, " ") > maxLen / 4 then LastIndex(chunk, " ") + 1
    else maxLen
  }

  function TrimSpaces(s: string): string {
    if |s| > 0 && s[|s|-1] == ' ' then TrimSpaces(s[..|s|-1]) else s
  }

  function Concat(pieces: seq<string>): string {
    if |pieces| == 0 then "" else Concat(pieces[..|pieces|-1]) + pieces[|pieces|-1]
  }

  /** A chunk is its piece, or its piece without trailing spaces if the text goes on. */
  predicate ChunkOf(chunk: string, piece: string, last: bool) {
    chunk == if last then piece else TrimSpaces(piece)
  }

  /** Piece i is cut off what the pieces before it leave of the text. */
  predicate CutHere(text: string, maxLen: nat, pieces: seq<string>, i: nat)
    requires maxLen >= 1 && i < |pieces|
  {
    var done := |Concat(pieces[..i])|;
    done + maxLen < |text| && |pieces[i]| == CutAt(text[done..], maxLen)
  }

  /** Trimming loses spaces only. */
  lemma {:induction false} TrimmedIsShorter(s: string)
    ensures |TrimSpaces(s)| <= |s| && TrimSpaces(s) == s[..|TrimSpaces(s)|]
    ensures forall i :: |TrimSpaces(s)| <= i < |s| ==> s[i] == ' '
    ensures TrimSpaces(s) != "" ==> TrimSpaces(s)[|TrimSpaces(s)|-1] != ' '
  {
    if |s| > 0 {
      TrimmedIsShorter(s[..|s|-1]);
    }
  }

  /** A space or a line break in the last three quarters of the window. */
  predicate BreakAt(text: string, maxLen: nat, i: int) {
    maxLen / 4 < i < maxLen && i < |text| && (text[i] == ' ' || text[i] == '\n')
  }

  /** The separator the cut lies behind; none if the cut is at the end of the window. */
  lemma {:induction false} SeparatorOf(text: string, maxLen: nat) returns (sep: string)
    requires 1 <= maxLen < |text|
    ensures var chunk := text[..maxLen];
            if sep == "" then CutAt(text, maxLen) == maxLen && LastIndex(chunk, " ") <= maxLen / 4 && LastIndex(chunk, "\n") <= maxLen / 4
            else LastIndex(chunk, sep) > maxLen / 4 && CutAt(text, maxLen) == LastIndex(chunk, sep) + |sep|
    ensures sep == "" || sep == "\n\n" || sep == "\n" ||
            ((sep == ". " || sep == " ") && LastIndex(text[..maxLen], "\n") <= maxLen / 4)
  {
    hide LastIndex;
    var chunk := text[..maxLen];
    sep := if LastIndex(chunk, "\n\n") > maxLen / 4 then "\n\n"
           else if LastIndex(chunk, "\n") > maxLen / 4 then "\n"
           else if LastIndex(chunk, ". ") > maxLen / 4 then ". "
           else if LastIndex(chunk, " ") > maxLen / 4 then " "
           else "";
  }

  lemma {:induction false} BreakIsFound(text: string, maxLen: nat, i: int)
    requires maxLen <= |text| && BreakAt(text, maxLen, i)
    ensures LastIndex(text[..maxLen], [text[i]]) > maxLen / 4
  {
    var chunk := text[..maxLen];
    assert chunk[i..i+1] == [text[i]];
    assert Occurs(chunk, [text[i]], i);
  }

  lemma {:induction false} EndOfSeparator(s: string, sep: string)
    requires |sep| > 0 && LastIndex(s, sep) >= 0
    ensures var i := LastIndex(s, sep); i + |sep| <= |s| && s[i+|sep|-1] == sep[|sep|-1]
  {
    var i := LastIndex(s, sep);
    assert Occurs(s, sep, i);
    assert s[i..i+|sep|][|sep|-1] == sep[|sep|-1];
  }

  /** A word is cut only if there is no such break; otherwise the piece ends right behind one, and
      behind a paragraph or a line break before behind a space. */
  lemma {:induction false} WordsStayWholeIff(text: string, maxLen: nat)
    requires 1 <= maxLen < |text|
    ensures (exists i :: BreakAt(text, maxLen, i)) <==> BreakAt(text, maxLen, CutAt(text, maxLen) - 1)
    ensures !(exists i :: BreakAt(text, maxLen, i)) ==> CutAt(text, maxLen) == maxLen
    ensures (exists i :: BreakAt(text, maxLen, i) && text[i] == '\n') ==> text[CutAt(text, maxLen)-1] == '\n'
  {
    var sep := SeparatorOf(text, maxLen);
    hide CutAt, LastIndex;
    forall i | BreakAt(text, maxLen, i) ensures LastIndex(text[..maxLen], [text[i]]) > maxLen / 4 {
      BreakIsFound(text, maxLen, i);
    }
    if sep != "" {
      EndOfSeparator(text[..maxLen], sep);
      assert BreakAt(text, maxLen, CutAt(text, maxLen) - 1);
    }
  }

  /** The last place in the window, past its first quarter, at which sep occurs. */
  ghost predicate LastPast(text: string, maxLen: nat, sep: string, i: int)
    requires maxLen <= |text|
  {
    i > maxLen / 4 && Occurs(text[..maxLen], sep, i) && forall j :: Occurs(text[..maxLen], sep, j) ==> j <= i
  }

  ghost predicate NonePast(text: string, maxLen: nat, sep: string)
    requires maxLen <= |text|
  {
    forall i :: Occurs(text[..maxLen], sep, i) ==> i <= maxLen / 4
  }

  /** Behind the last paragraph break, or else the last line break, or else the last sentence, or else
      the last word; and if there is none of them, at the end of the window. */
  lemma {:induction false} CutPrefers(text: string, maxLen: nat)
    requires 1 <= maxLen < |text|
    ensures var cut := CutAt(text, maxLen);
            || LastPast(text, maxLen, "\n\n", cut - 2)
            || (NonePast(text, maxLen, "\n\n") && LastPast(text, maxLen, "\n", cut - 1))
            || (NonePast(text, maxLen, "\n\n") && NonePast(text, maxLen, "\n") && LastPast(text, maxLen, ". ", cut - 2))
            || (NonePast(text, maxLen, "\n\n") && NonePast(text, maxLen, "\n") && NonePast(text, maxLen, ". ") &&
                LastPast(text, maxLen, " ", cut - 1))
            || (NonePast(text, maxLen, "\n\n") && NonePast(text, maxLen, "\n") && NonePast(text, maxLen, ". ") &&
                NonePast(text, maxLen, " ") && cut == maxLen)
  {
    PastIff(text, maxLen, "\n\n");
    PastIff(text, maxLen, "\n");
    PastIff(text, maxLen, ". ");
    PastIff(text, maxLen, " ");
    hide LastPast, NonePast, LastIndex;
  }

  lemma {:induction false} PastIff(text: string, maxLen: nat, sep: string)
    requires maxLen <= |text|
    ensures if LastIndex(text[..maxLen], sep) > maxLen / 4 then LastPast(text, maxLen, sep, LastIndex(text[..maxLen], sep))
            else NonePast(text, maxLen, sep)
  {
    hide LastIndex;
  }

  lemma {:induction false} OneMorePiece(text: string, maxLen: nat, pieces: seq<string>, rest: string, cut: nat)
    requires maxLen >= 1 && Concat(pieces) + rest == text && |rest| > maxLen && cut == CutAt(rest, maxLen)
    requires forall i :: 0 <= i < |pieces| ==> CutHere(text, maxLen, pieces, i)
    ensures var more := pieces + [rest[..cut]];
            Concat(more) + rest[cut..] == text && forall i :: 0 <= i < |more| ==> CutHere(text, maxLen, more, i)
    ensures |TrimSpaces(rest[..cut])| <= cut
  {
    TrimmedIsShorter(rest[..cut]);
    hide *;
    ConcatGrows(pieces, rest[..cut]);
    Regroup(Concat(pieces), rest, cut);
    SameCuts(text, maxLen, pieces, rest[..cut]);
    LastCut(text, maxLen, pieces, rest, cut);
  }

  lemma {:induction false} ConcatGrows(pieces: seq<string>, piece: string)
    ensures Concat(pieces + [piece]) == Concat(pieces) + piece
  {
    assert (pieces + [piece])[..|pieces|] == pieces;
  }

  lemma Regroup(done: string, rest: string, cut: nat)
    requires cut <= |rest|
    ensures done + rest[..cut] + rest[cut..] == done + rest
    ensures (done + rest)[|done|..] == rest
  {
  }

  lemma {:induction false} LastCut(text: string, maxLen: nat, pieces: seq<string>, rest: string, cut: nat)
    requires maxLen >= 1 && Concat(pieces) + rest == text && |rest| > maxLen && cut == CutAt(rest, maxLen)
    ensures CutHere(text, maxLen, pieces + [rest[..cut]], |pieces|)
  {
    hide CutAt, Concat;
    Regroup(Concat(pieces), rest, cut);
    assert (pieces + [rest[..cut]])[..|pieces|] == pieces;
  }

  lemma {:induction false} SameCuts(text: string, maxLen: nat, pieces: seq<string>, piece: string)
    requires maxLen >= 1 && forall i :: 0 <= i < |pieces| ==> CutHere(text, maxLen, pieces, i)
    ensures forall i :: 0 <= i < |pieces| ==> CutHere(text, maxLen, pieces + [piece], i)
  {
    hide CutAt, Concat;
    forall i | 0 <= i < |pieces| ensures CutHere(text, maxLen, pieces + [piece], i) {
      assert CutHere(text, maxLen, pieces, i);
      assert (pieces + [piece])[..i] == pieces[..i];
    }
  }

  method SplitMessage(text: string, maxLen: nat) returns (chunks: seq<string>, ghost pieces: seq<string>)
    requires maxLen >= 1
    ensures Concat(pieces) == text && |chunks| == |pieces| >= 1
    ensures forall i :: 0 <= i < |chunks| ==> |chunks[i]| <= |pieces[i]| <= maxLen
    ensures forall i :: 0 <= i < |chunks| ==> ChunkOf(chunks[i], pieces[i], i == |chunks| - 1)
    ensures chunks[|chunks|-1] == pieces[|pieces|-1]
    ensures forall i :: 0 <= i < |chunks| - 1 ==> chunks[i] == TrimSpaces(pieces[i])
    ensures |text| <= maxLen ==> chunks == [text]
    ensures |text| > maxLen ==> forall i :: 0 <= i < |pieces| ==> |pieces[i]| > 0
    ensures forall i :: 0 <= i < |pieces| - 1 ==> CutHere(text, maxLen, pieces, i)
  {
    if |text| <= maxLen {
      return [text], [text];
    }
    chunks, pieces := [], [];
    var rest := text;
    while |rest| > 0
      invariant |rest| > 0 && Concat(pieces) + rest == text && |chunks| == |pieces|
      invariant forall i :: 0 <= i < |chunks| ==> |chunks[i]| <= |pieces[i]| <= maxLen && |pieces[i]| > 0
      invariant forall i :: 0 <= i < |chunks| ==> ChunkOf(chunks[i], pieces[i], false)
      invariant forall i :: 0 <= i < |pieces| ==> CutHere(text, maxLen, pieces, i)
      decreases |rest|
    {
      if |rest| <= maxLen {
        assert (pieces + [rest])[..|pieces|] == pieces;
        SameCuts(text, maxLen, pieces, rest);
        return chunks + [rest], pieces + [rest];
      }
      var chunk := rest[..maxLen];
      var splitAt := maxLen;
      var idx := LastIndex(chunk, "\n\n");
      if idx > maxLen / 4 {
        splitAt := idx + 2;
      } else {
        idx := LastIndex(chunk, "\n");
        if idx > maxLen / 4 {
          splitAt := idx + 1;
        } else {
          idx := LastIndex(chunk, ". ");
          if idx > maxLen / 4 {
            splitAt := idx + 2;
          } else {
            idx := LastIndex(chunk, " ");
            if idx > maxLen / 4 {
              splitAt := idx + 1;
            }
          }
        }
      }
      assert splitAt == CutAt(rest, maxLen);
      hide *;
      ghost var before := pieces;
      OneMorePiece(text, maxLen, before, rest, splitAt);
      chunks := chunks + [TrimSpaces(rest[..splitAt])];
      pieces := pieces + [rest[..splitAt]];
      rest := rest[splitAt..];
    }
  }
}
