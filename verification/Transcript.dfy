/** The shape a provider asks of a transcript: every tool call answered at once, in order. */
module Transcript {
  import opened Messages

  function Calls(m: Message): seq<ToolCall> {
    if m.role == "assistant" then m.toolCalls else []
  }

  predicate Answers(m: Message, call: ToolCall) {
    m.role == "tool" && m.toolCallId == call.id
  }

  /** The first n messages answer the first n calls. */
  predicate AnswersUpTo(h: seq<Message>, calls: seq<ToolCall>, n: nat)
    requires n <= |h| && n <= |calls|
  {
    forall k :: 0 <= k < n ==> Answers(h[k], calls[k])
  }

  /** Read from the front: a message, the answers to its calls, and so on. No tool message is
      left over and no answer is missing. */
  predicate Closed(h: seq<Message>) {
    if |h| == 0 then true
    else
      var n := |Calls(h[0])|;
      h[0].role != "tool" && n < |h| && AnswersUpTo(h[1..], Calls(h[0]), n) && Closed(h[n+1..])
  }

  /** The same, but the answers of the very last block may break off. */
  predicate OpenOnlyAtEnd(h: seq<Message>) {
    if |h| == 0 then true
    else
      var n := |Calls(h[0])|;
      h[0].role != "tool" &&
      (if n < |h| then AnswersUpTo(h[1..], Calls(h[0]), n) && OpenOnlyAtEnd(h[n+1..])
       else AnswersUpTo(h[1..], Calls(h[0]), |h| - 1))
  }

  // ----- What it means, position by position -----

  predicate BlockAt(h: seq<Message>, i: nat)
    requires i < |h|
  {
    var n := |Calls(h[i])|;
    i + n < |h| && AnswersUpTo(h[i+1..], Calls(h[i]), n)
  }

  predicate Covers(h: seq<Message>, j: nat, i: nat)
    requires i < |h|
  {
    j < i <= j + |Calls(h[j])|
  }

  predicate Covered(h: seq<Message>, i: nat)
    requires i < |h|
  {
    exists j :: 0 <= j < i && Covers(h, j, i)
  }

  /** Each call's answer follows at once, and each tool message is such an answer. */
  predicate SoundAt(h: seq<Message>, i: nat)
    requires i < |h|
  {
    BlockAt(h, i) && (h[i].role == "tool" ==> Covered(h, i))
  }

  predicate Sound(h: seq<Message>) {
    forall i :: 0 <= i < |h| ==> SoundAt(h, i)
  }

  /** The two descriptions agree. */
  lemma {:induction false} ClosedIff(h: seq<Message>)
    ensures Closed(h) <==> Sound(h)
    decreases |h|
  {
    hide Sound, BlockAt;
    if |h| == 0 {
      EmptySound(h);
    } else {
      if BlockAt(h, 0) && h[0].role != "tool" {
        FirstBlock(h);
        ClosedIff(h[|Calls(h[0])|+1..]);
        SoundTail(h);
      }
      if !(BlockAt(h, 0) && h[0].role != "tool") {
        FirstBlockNeeded(h);
      }
    }
  }

  lemma EmptySound(h: seq<Message>)
    requires |h| == 0
    ensures Sound(h)
  {
  }

  lemma FirstBlock(h: seq<Message>)
    requires |h| > 0 && BlockAt(h, 0) && h[0].role != "tool"
    ensures |Calls(h[0])| + 1 <= |h| && (Closed(h) <==> Closed(h[|Calls(h[0])|+1..]))
  {
  }

  lemma {:induction false} FirstBlockNeeded(h: seq<Message>)
    requires |h| > 0 && !(BlockAt(h, 0) && h[0].role != "tool")
    ensures !Closed(h) && !Sound(h)
  {
    assert !SoundAt(h, 0);
  }

  lemma {:induction false} SoundTail(h: seq<Message>)
    requires |h| > 0 && BlockAt(h, 0) && h[0].role != "tool"
    ensures |Calls(h[0])| + 1 <= |h| && (Sound(h) <==> Sound(h[|Calls(h[0])|+1..]))
  {
    hide SoundAt, BlockAt, AnswersUpTo;
    FirstBlock(h);
    var m := |Calls(h[0])| + 1;
    forall i | 0 <= i < m ensures SoundAt(h, i) {
      InFirstBlock(h, i);
    }
    var tail := h[m..];
    forall i | 0 <= i < |tail| ensures SoundAt(h, m + i) <==> SoundAt(tail, i) {
      InTail(h, m, i);
    }
    forall i | m <= i < |h| ensures SoundAt(h, i) <==> SoundAt(tail, i - m) {
      InTail(h, m, i - m);
    }
  }

  lemma {:induction false} InFirstBlock(h: seq<Message>, i: nat)
    requires |h| > 0 && BlockAt(h, 0) && i <= |Calls(h[0])|
    ensures i < |h| && BlockAt(h, i) && (0 < i ==> h[i].role == "tool" && Covered(h, i))
    ensures h[0].role != "tool" ==> SoundAt(h, i)
  {
    if 0 < i {
      assert Answers(h[1..][i-1], Calls(h[0])[i-1]) && Covers(h, 0, i);
    }
  }

  lemma {:induction false} InTail(h: seq<Message>, m: nat, i: nat)
    requires |h| > 0 && BlockAt(h, 0) && m == |Calls(h[0])| + 1 && m + i < |h|
    ensures SoundAt(h[m..], i) <==> SoundAt(h, m + i)
  {
    hide BlockAt;
    assert BlockAt(h[m..], i) <==> BlockAt(h, m + i) by {
      SameBlock(h, m, i);
    }
    if Covered(h[m..], i) {
      var j :| 0 <= j < i && Covers(h[m..], j, i);
      assert Covers(h, m + j, m + i);
    }
    if Covered(h, m + i) {
      var j :| 0 <= j < m + i && Covers(h, j, m + i);
      if j < m {
        InFirstBlock(h, j);
      }
      assert Covers(h[m..], j - m, i);
    }
  }

  lemma {:induction false} SameBlock(h: seq<Message>, m: nat, i: nat)
    requires m + i < |h|
    ensures BlockAt(h[m..], i) <==> BlockAt(h, m + i)
  {
    assert h[m..][i+1..] == h[m+i+1..];
  }

  // ----- Putting transcripts together and cutting them -----

  lemma {:induction false} JoinClosed(a: seq<Message>, b: seq<Message>)
    requires Closed(a)
    ensures Closed(b) <==> Closed(a + b)
    ensures OpenOnlyAtEnd(b) <==> OpenOnlyAtEnd(a + b)
  {
    if |a| == 0 {
      assert a + b == b;
    } else {
      var m := |Calls(a[0])| + 1;
      JoinClosed(a[m..], b);
      hide AnswersUpTo;
      SameFirstBlock(a, b, m);
    }
  }

  lemma {:induction false} SameFirstBlock(a: seq<Message>, b: seq<Message>, m: nat)
    requires |a| > 0 && m == |Calls(a[0])| + 1 <= |a| && AnswersUpTo(a[1..], Calls(a[0]), m - 1)
    ensures (a + b)[m..] == a[m..] + b
    ensures AnswersUpTo((a + b)[1..], Calls((a + b)[0]), m - 1)
  {
    assert forall k :: 0 <= k < m - 1 ==> (a + b)[1..][k] == a[1..][k];
  }

  /** Where a closed transcript can be cut: not in front of a tool message. */
  lemma {:induction false} CutClosedIff(h: seq<Message>, k: nat)
    requires Closed(h) && k <= |h|
    ensures Closed(h[..k]) <==> k == |h| || h[k].role != "tool"
    ensures Closed(h[k..]) <==> k == |h| || h[k].role != "tool"
    decreases |h|
  {
    if k == 0 {
      assert h[..0] == [] && h[0..] == h;
    } else {
      var n := |Calls(h[0])|;
      if k <= n {
        CutInFirstBlock(h, k);
      } else {
        CutClosedIff(h[n+1..], k - n - 1);
        hide Closed, AnswersUpTo;
        CutBehindFirstBlock(h, n + 1, k);
      }
    }
  }

  lemma {:induction false} CutInFirstBlock(h: seq<Message>, k: nat)
    requires |h| > 0 && Closed(h) && 0 < k <= |Calls(h[0])|
    ensures k < |h| && h[k].role == "tool" && !Closed(h[..k]) && !Closed(h[k..])
  {
    assert Answers(h[1..][k-1], Calls(h[0])[k-1]);
    assert h[k..][0] == h[k] && h[..k][0] == h[0];
  }

  lemma {:induction false} CutBehindFirstBlock(h: seq<Message>, m: nat, k: nat)
    requires |h| > 0 && Closed(h) && m == |Calls(h[0])| + 1 <= k <= |h|
    ensures Closed(h[..k]) <==> Closed(h[m..][..k-m])
    ensures h[m..][k-m..] == h[k..]
  {
    hide *;
    FirstBlockClosed(h, m);
    JoinClosed(h[..m], h[m..][..k-m]);
    SliceInTwo(h, m, k);
  }

  lemma SliceInTwo<T>(s: seq<T>, m: nat, k: nat)
    requires m <= k <= |s|
    ensures s[..k] == s[..m] + s[m..][..k-m]
    ensures s[m..][k-m..] == s[k..]
  {
  }

  lemma {:induction false} FirstBlockClosed(h: seq<Message>, m: nat)
    requires |h| > 0 && Closed(h) && m == |Calls(h[0])| + 1 <= |h|
    ensures Closed(h[..m])
  {
    assert h[..m][m..] == [];
    assert forall j :: 0 <= j < m - 1 ==> h[..m][1..][j] == h[1..][j];
  }

  /** Whatever part of a closed transcript is there, from its start, breaks off in one block at most. */
  lemma {:induction false} PrefixOpenOnlyAtEnd(h: seq<Message>, p: seq<Message>)
    requires Closed(h) && p <= h
    ensures OpenOnlyAtEnd(p)
  {
    if |p| > 0 {
      var m := |Calls(h[0])| + 1;
      if m <= |p| {
        PrefixOpenOnlyAtEnd(h[m..], p[m..]);
      }
      hide Closed, OpenOnlyAtEnd;
      PrefixOfFirstBlock(h, p, m);
    }
  }

  lemma {:induction false} PrefixOfFirstBlock(h: seq<Message>, p: seq<Message>, m: nat)
    requires 0 < |p| && p <= h && m == |Calls(h[0])| + 1 <= |h| && AnswersUpTo(h[1..], Calls(h[0]), m - 1)
    ensures p[0] == h[0]
    ensures m <= |p| ==> AnswersUpTo(p[1..], Calls(p[0]), m - 1)
    ensures |p| < m ==> AnswersUpTo(p[1..], Calls(p[0]), |p| - 1)
  {
    assert forall k :: 0 <= k < |p| - 1 ==> p[1..][k] == h[1..][k];
  }

  /** One block, answered up to some call. */
  lemma {:induction false} BlockShape(block: seq<Message>)
    requires |block| > 0 && block[0].role == "assistant" && |block| <= |block[0].toolCalls| + 1
    requires AnswersUpTo(block[1..], block[0].toolCalls, |block| - 1)
    ensures OpenOnlyAtEnd(block)
    ensures Closed(block) <==> |block| == |block[0].toolCalls| + 1
  {
    if |block| == |block[0].toolCalls| + 1 {
      assert block[|block|..] == [];
    }
  }

  lemma {:induction false} SingleClosed(m: Message)
    requires m.role != "tool" && Calls(m) == []
    ensures Closed([m])
  {
    assert [m][1..] == [];
  }
}
