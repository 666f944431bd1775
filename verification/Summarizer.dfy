/** internal/memory/summarizer.go: when a history is summarised, and where it is cut. A string
    is a sequence of bytes, so |content| is Go's len. */
module Summarizer {
  import opened Wrappers
  import opened Messages
  import opened Session
  import opened Transcript

  const MIN_USER_TURNS: nat := 6
  const SUMMARY_MARK := "[Previous conversation summary]: "

  /** What the provider's CountTokens gives for each message; None if it fails or there is no
      provider. */
  type Counts = seq<Option<nat>>

  function Bytes(m: Message): nat {
    |m.content| / 4
  }

  function Counted(m: Message, count: Option<nat>): nat {
    if m.role == "tool" then 0 else if count.Some? then count.value else Bytes(m)
  }

  function Tokens(history: seq<Message>, counts: Counts): nat
    requires |counts| == |history|
  {
    if |history| == 0 then 0
    else Tokens(history[..|history|-1], counts[..|history|-1]) + Counted(history[|history|-1], counts[|history|-1])
  }

  /** The running total of findSplitPoint, which counts tool messages too. */
  function Running(history: seq<Message>): nat {
    if |history| == 0 then 0 else Running(history[..|history|-1]) + Bytes(history[|history|-1])
  }

  function UserTurns(history: seq<Message>): nat {
    if |history| == 0 then 0
    else UserTurns(history[..|history|-1]) + (if history[|history|-1].role == "user" then 1 else 0)
  }

  predicate NoUserIn(history: seq<Message>, from: nat, to: nat)
    requires to <= |history|
  {
    forall j :: from <= j < to ==> history[j].role != "user"
  }

  /** Message i is the first at which the running total reaches the target. */
  predicate HalfPoint(history: seq<Message>, target: nat, i: nat)
    requires i < |history|
  {
    Running(history[..i]) < target <= Running(history[..i+1]) || (target == 0 && i == 0)
  }

  /** The cut: in front of the first user message behind the half point, or right behind the half
      point if no user message follows, or in the middle if the target is never reached. */
  predicate IsSplit(history: seq<Message>, total: nat, split: nat)
    requires split <= |history|
  {
    if Running(history) < total / 2 || history == [] then split == |history| / 2
    else exists i :: 0 <= i < |history| && HalfPoint(history, total / 2, i) && IsSplitBehind(history, i, split)
  }

  predicate IsSplitBehind(history: seq<Message>, i: nat, split: nat)
    requires i < |history| && split <= |history|
  {
    i < split &&
    if NoUserIn(history, i + 1, |history|) then split == i + 1
    else split < |history| && history[split].role == "user" && NoUserIn(history, i + 1, split)
  }

  lemma {:induction false} RunningGrows(history: seq<Message>, i: nat, j: nat)
    requires i <= j <= |history|
    ensures Running(history[..i]) <= Running(history[..j])
    decreases j
  {
    if i < j {
      RunningGrows(history, i, j - 1);
      assert history[..j][..j-1] == history[..j-1];
    }
  }

  /** The cut is determined. */
  lemma {:induction false} SplitUnique(history: seq<Message>, total: nat, s: nat, t: nat)
    requires s <= |history| && t <= |history| && IsSplit(history, total, s) && IsSplit(history, total, t)
    ensures s == t
  {
    hide Running, HalfPoint;
    if Running(history) >= total / 2 && history != [] {
      var i :| 0 <= i < |history| && HalfPoint(history, total / 2, i) && IsSplitBehind(history, i, s);
      var j :| 0 <= j < |history| && HalfPoint(history, total / 2, j) && IsSplitBehind(history, j, t);
      HalfPointUnique(history, total / 2, i, j);
    }
  }

  lemma {:induction false} HalfPointUnique(history: seq<Message>, target: nat, i: nat, j: nat)
    requires i < |history| && j < |history| && HalfPoint(history, target, i) && HalfPoint(history, target, j)
    ensures i == j
  {
    hide Running;
    if i < j {
      RunningGrows(history, i + 1, j);
    } else if j < i {
      RunningGrows(history, j + 1, i);
    }
  }

  class Summarizer {
    var thresholdTokens: int

    constructor (thresholdTokens: int)
      ensures this.thresholdTokens == if thresholdTokens <= 0 then 3072 else thresholdTokens
    {
      this.thresholdTokens := if thresholdTokens <= 0 then 3072 else thresholdTokens;
    }

    method EstimateHistoryTokens(history: seq<Message>, counts: Counts) returns (total: nat)
      requires |counts| == |history|
      ensures total == Tokens(history, counts)
    {
      total := 0;
      for i := 0 to |history|
        invariant total == Tokens(history[..i], counts[..i])
      {
        assert history[..i+1][..i] == history[..i] && counts[..i+1][..i] == counts[..i];
        if history[i].role == "tool" {
          continue;
        }
        if counts[i].Some? {
          total := total + counts[i].value;
          continue;
        }
        total := total + |history[i].content| / 4;
      }
      assert history[..|history|] == history && counts[..|history|] == counts;
    }

    method FindSplitPoint(history: seq<Message>, totalTokens: nat) returns (split: nat)
      ensures split <= |history| && IsSplit(history, totalTokens, split)
    {
      var target := totalTokens / 2;
      var running := 0;
      for i := 0 to |history|
        invariant running == Running(history[..i])
        invariant i > 0 ==> running < target
      {
        assert history[..i+1][..i] == history[..i];
        running := running + |history[i].content| / 4;
        if running >= target {
          RunningGrows(history, i + 1, |history|);
          assert history[..|history|] == history;
          assert HalfPoint(history, target, i);
          for j := i + 1 to |history|
            invariant NoUserIn(history, i + 1, j)
          {
            if history[j].role == "user" {
              assert IsSplitBehind(history, i, j);
              return j;
            }
          }
          assert IsSplitBehind(history, i, i + 1);
          return i + 1;
        }
      }
      assert history[..|history|] == history;
      return |history| / 2;
    }

    /** None: nothing to do. The reply is the provider's, trimmed; None stands for its failure. */
    method MaybeSummarize(history: seq<Message>, counts: Counts, reply: Option<string>)
      returns (result: Result<Option<Summary>, ()>, ghost split: nat)
      requires |counts| == |history|
      ensures result == Success(None) <==>
                UserTurns(history) < MIN_USER_TURNS || Tokens(history, counts) <= thresholdTokens
      ensures result == Success(None) <==>
                |set i: nat {:trigger history[i]} | i < |history| && history[i].role == "user"| < 6 ||
                Tokens(history, counts) <= thresholdTokens
      ensures result.Failure? ==> reply == None
      ensures result.Success? && result.value.Some? ==>
                && reply.Some? && 0 < split <= |history| && IsSplit(history, Tokens(history, counts), split)
                && result.value.value == Summary(Some([SystemMessage(SUMMARY_MARK + reply.value)] + history[split..]))
                && (var first := result.value.value.remaining.value[0];
                    && first.role == "system" && first.content == "[Previous conversation summary]: " + reply.value
                    && first.toolCalls == [])
    {
      UserTurnsAre(history);
      assert UserTurns(history) == |set i: nat {:trigger history[i]} | i < |history| && history[i].role == "user"|;

      split := 0;
      var userTurns := 0;
      for i := 0 to |history|
        invariant userTurns == UserTurns(history[..i])
      {
        assert history[..i+1][..i] == history[..i];
        if history[i].role == "user" {
          userTurns := userTurns + 1;
        }
      }
      assert history[..|history|] == history;
      if userTurns < MIN_USER_TURNS {
        return Success(None), split;
      }
      var totalTokens := EstimateHistoryTokens(history, counts);
      if totalTokens <= thresholdTokens {
        return Success(None), split;
      }
      var splitIdx := FindSplitPoint(history, totalTokens);
      split := splitIdx;
      EnoughTurnsSplitLate(history, totalTokens, splitIdx);
      if splitIdx <= 0 {
        return Success(None), split;
      }
      var newer := history[splitIdx..];
      if reply == None {
        return Failure(()), split;
      }
      var remaining := [SystemMessage(SUMMARY_MARK + reply.value)];
      remaining := remaining + newer;
      return Success(Some(Summary(Some(remaining)))), split;
    }
  }

  function UsersAt(history: seq<Message>): set<nat> {
    set i: nat {:trigger history[i]} | i < |history| && history[i].role == "user"
  }

  lemma {:induction false} UserTurnsAre(history: seq<Message>)
    ensures UserTurns(history) == |UsersAt(history)|
  {
    if |history| > 0 {
      var front, n := history[..|history|-1], |history| - 1;
      UserTurnsAre(front);
      assert UserTurns(history) == UserTurns(front) + (if history[n].role == "user" then 1 else 0);
      hide UserTurns;
      assert UsersAt(history) == UsersAt(front) + (if history[n].role == "user" then {n} else {});
    }
  }

  lemma {:induction false} TurnsAreMessages(history: seq<Message>)
    ensures UserTurns(history) <= |history|
  {
    if |history| > 0 {
      TurnsAreMessages(history[..|history|-1]);
    }
  }

  /** With the required user turns the cut is never at the front: the last early return of
      MaybeSummarize is not taken. */
  lemma {:induction false} EnoughTurnsSplitLate(history: seq<Message>, total: nat, split: nat)
    requires UserTurns(history) >= MIN_USER_TURNS && split <= |history| && IsSplit(history, total, split)
    ensures split > 0
  {
    TurnsAreMessages(history);
  }

  // ----- What the cut preserves -----

  /** What every provider of the repository counts, and what is counted without one. */
  predicate ByteCounts(history: seq<Message>, counts: Counts) {
    |counts| == |history| && forall i :: 0 <= i < |counts| ==> counts[i] == None || counts[i] == Some(Bytes(history[i]))
  }

  function ByteCount(history: seq<Message>): Counts {
    seq(|history|, i requires 0 <= i < |history| => Some(Bytes(history[i])))
  }

  /** With these counts the running total reaches the target on every history that is not empty:
      the middle of the list is never used. */
  lemma {:induction false} ByteCountsReachTarget(history: seq<Message>, counts: Counts)
    requires ByteCounts(history, counts)
    ensures Tokens(history, counts) <= Running(history)
  {
    if |history| > 0 {
      ByteCountsReachTarget(history[..|history|-1], counts[..|history|-1]);
    }
  }

  lemma {:induction false} FallbackUnreachable(history: seq<Message>, counts: Counts, split: nat)
    requires ByteCounts(history, counts)
    requires history != [] && split <= |history| && IsSplit(history, Tokens(history, counts), split)
    ensures exists i :: 0 <= i < |history| && HalfPoint(history, Tokens(history, counts) / 2, i) && IsSplitBehind(history, i, split)
  {
    ByteCountsReachTarget(history, counts);
  }

  /** Told from the history: a user message follows the half point, or nothing does, or something
      that is not a tool message. Without a half point the message in the middle decides. */
  predicate CleanCut(history: seq<Message>, total: nat) {
    if Running(history) < total / 2 || history == [] then history == [] || history[|history|/2].role != "tool"
    else forall i :: 0 <= i < |history| && HalfPoint(history, total / 2, i) ==>
                       !NoUserIn(history, i + 1, |history|) || i + 1 == |history| || history[i+1].role != "tool"
  }

  lemma {:induction false} CleanCutIff(history: seq<Message>, total: nat, split: nat)
    requires split <= |history| && IsSplit(history, total, split)
    ensures CleanCut(history, total) <==> split == |history| || history[split].role != "tool"
  {
    hide Running, HalfPoint;
    if Running(history) >= total / 2 && history != [] {
      var i :| 0 <= i < |history| && HalfPoint(history, total / 2, i) && IsSplitBehind(history, i, split);
      forall j | 0 <= j < |history| && HalfPoint(history, total / 2, j) ensures j == i {
        HalfPointUnique(history, total / 2, i, j);
      }
    }
  }

  /** The two parts are the history. A closed history falls into two closed parts exactly when the
      cut is clean. */
  lemma {:induction false} SplitPartitions(history: seq<Message>, total: nat, split: nat)
    requires split <= |history| && IsSplit(history, total, split)
    ensures history[..split] + history[split..] == history
    ensures Closed(history) ==> (Closed(history[..split]) && Closed(history[split..]) <==> CleanCut(history, total))
  {
    hide *;
    if Closed(history) {
      CutClosedIff(history, split);
    }
    CleanCutIff(history, total, split);
  }

  /** If a user message follows the half point, the cut is in front of one, and so a closed
      history falls into two closed halves. */
  lemma {:induction false} UserBehindHalfPoint(history: seq<Message>, total: nat, split: nat, i: nat, u: nat)
    requires split <= |history| && IsSplit(history, total, split) && Running(history) >= total / 2
    requires i < u < |history| && HalfPoint(history, total / 2, i) && history[u].role == "user"
    ensures i < split <= u && history[split].role == "user"
    ensures Closed(history) ==> Closed(history[..split]) && Closed(history[split..])
  {
    var k :| 0 <= k < |history| && HalfPoint(history, total / 2, k) && IsSplitBehind(history, k, split);
    HalfPointUnique(history, total / 2, i, k);
    hide Closed, Running;
    if Closed(history) {
      CutClosedIff(history, split);
    }
  }

  /** A summary merged into a closed history leaves it closed, exactly when the snapshot's cut was
      clean. */
  lemma {:induction false} CompactionKeepsClosedIff(snapshot: seq<Message>, appended: seq<Message>, total: nat, split: nat, summary: string)
    requires Closed(snapshot) && Closed(snapshot + appended) && 0 < split <= |snapshot| && IsSplit(snapshot, total, split)
    ensures var p := Pending(Some(Summary(Some([SystemMessage(summary)] + snapshot[split..]))), |snapshot|);
            Splice(snapshot + appended, p) == [SystemMessage(summary)] + snapshot[split..] + appended &&
            (Closed(Splice(snapshot + appended, p)) <==> CleanCut(snapshot, total))
  {
    hide *;
    var head, kept := [SystemMessage(summary)], snapshot[split..];
    SpliceKept(snapshot, appended, split, summary);
    JoinClosed(snapshot, appended);
    CutClosedIff(snapshot, split);
    CleanCutIff(snapshot, total, split);
    SystemClosed(summary);
    JoinClosed(head, kept + appended);
    assert head + kept + appended == head + (kept + appended);
    if split == |snapshot| || snapshot[split].role != "tool" {
      JoinClosed(kept, appended);
    } else {
      assert (kept + appended)[0] == snapshot[split];
      ToolFirst(kept + appended);
    }
  }

  lemma {:induction false} SpliceKept(snapshot: seq<Message>, appended: seq<Message>, split: nat, summary: string)
    requires split <= |snapshot|
    ensures Splice(snapshot + appended, Pending(Some(Summary(Some([SystemMessage(summary)] + snapshot[split..]))), |snapshot|))
         == [SystemMessage(summary)] + snapshot[split..] + appended
  {
    assert (snapshot + appended)[|snapshot|..] == appended;
  }

  lemma {:induction false} SystemClosed(summary: string)
    ensures Closed([SystemMessage(summary)])
  {
    SingleClosed(SystemMessage(summary));
  }

  lemma ToolFirst(h: seq<Message>)
    requires |h| > 0 && h[0].role == "tool"
    ensures !Closed(h)
  {
  }

  /** What one more message adds to the three sums. */
  lemma {:induction false} OneMore(h: seq<Message>, counts: Counts, m: Message, count: Option<nat>)
    requires |counts| == |h|
    ensures Tokens(h + [m], counts + [count])
         == Tokens(h, counts) + (if m.role == "tool" then 0 else if count.Some? then count.value else |m.content| / 4)
    ensures Running(h + [m]) == Running(h) + |m.content| / 4
    ensures UserTurns(h + [m]) == UserTurns(h) + (if m.role == "user" then 1 else 0)
    ensures ByteCounts(h, counts) && (count == None || count == Some(Bytes(m))) ==> ByteCounts(h + [m], counts + [count])
  {
    assert (h + [m])[..|h|] == h && (counts + [count])[..|h|] == counts;
  }

  function Repeat<T>(x: T, n: nat): (r: seq<T>)
    ensures |r| == n
  {
    if n == 0 then [] else Repeat(x, n - 1) + [x]
  }

  lemma RepeatGrows<T>(x: T, n: nat)
    requires n > 0
    ensures Repeat(x, n) == Repeat(x, n - 1) + [x]
  {
  }

  lemma {:induction false} EmptyTurnsClosed(n: nat)
    ensures Closed(Repeat(UserMessage(""), n))
  {
    if n > 0 {
      SingleClosed(UserMessage(""));
      hide *;
      EmptyTurnsClosed(n - 1);
      RepeatGrows(UserMessage(""), n);
      JoinClosed(Repeat(UserMessage(""), n - 1), [UserMessage("")]);
    }
  }

  lemma {:induction false} EmptyTurns(n: nat)
    ensures var h, counts := Repeat(UserMessage(""), n), Repeat(Some(0), n);
            UserTurns(h) == n && Running(h) == 0 && Tokens(h, counts) == 0 && ByteCounts(h, counts)
  {
    if n > 0 {
      var h, counts := Repeat(UserMessage(""), n - 1), Repeat(Some(0), n - 1);
      EmptyTurns(n - 1);
      OneMore(h, counts, UserMessage(""), Some(0));
      hide Tokens, Running, UserTurns;
      RepeatGrows(UserMessage(""), n);
      RepeatGrows(Some(0), n);
    }
  }

  /** Six user messages, a long reply with two calls, their answers, and the final reply: what a
      turn leaves. */
  function LongBlock(content: string, calls: seq<ToolCall>): (h: seq<Message>)
    requires |calls| == 2
    ensures |h| == 10 && h[7].role == "tool" && forall j :: 6 <= j < 10 ==> h[j].role != "user"
  {
    Repeat(UserMessage(""), MIN_USER_TURNS) + [AssistantMessage(content, calls)] + [ToolMessage(calls[0].id, "")]
    + [ToolMessage(calls[1].id, "")] + [AssistantMessage("", [])]
  }

  function LongBlockCounts(content: string): (counts: Counts)
    ensures |counts| == 10
  {
    Repeat(Some(0), MIN_USER_TURNS) + [Some(|content| / 4)] + [Some(0)] + [Some(0)] + [Some(0)]
  }

  lemma {:induction false} LongBlockCounted(content: string, calls: seq<ToolCall>)
    requires |calls| == 2
    ensures var h, counts := LongBlock(content, calls), LongBlockCounts(content);
            && ByteCounts(h, counts) && UserTurns(h) == MIN_USER_TURNS && Tokens(h, counts) == Running(h) == |content| / 4
            && Running(h[..6]) == 0 && Running(h[..7]) == |content| / 4
  {
    var u, c := Repeat(UserMessage(""), MIN_USER_TURNS), Repeat(Some(0), MIN_USER_TURNS);
    var a, x, y, z := AssistantMessage(content, calls), ToolMessage(calls[0].id, ""), ToolMessage(calls[1].id, ""), AssistantMessage("", []);
    var n := Some(|content| / 4);
    EmptyTurns(MIN_USER_TURNS);
    hide Tokens, Running, UserTurns, Repeat, ByteCounts;
    OneMore(u, c, a, n);
    OneMore(u + [a], c + [n], x, Some(0));
    OneMore(u + [a] + [x], c + [n] + [Some(0)], y, Some(0));
    OneMore(u + [a] + [x] + [y], c + [n] + [Some(0)] + [Some(0)], z, Some(0));
    var h := LongBlock(content, calls);
    assert h[..6] == u && h[..7] == u + [a];
  }

  lemma {:induction false} LongBlockClosed(content: string, calls: seq<ToolCall>)
    requires |calls| == 2
    ensures Closed(LongBlock(content, calls))
  {
    hide *;
    var u := Repeat(UserMessage(""), MIN_USER_TURNS);
    EmptyTurnsClosed(MIN_USER_TURNS);
    AnsweredBlockClosed(content, calls);
    LongBlockIs(content, calls);
    JoinClosed(AnsweredBlock(content, calls), [AssistantMessage("", [])]);
    JoinClosed(u, AnsweredBlock(content, calls) + [AssistantMessage("", [])]);
  }

  function AnsweredBlock(content: string, calls: seq<ToolCall>): seq<Message>
    requires |calls| == 2
  {
    [AssistantMessage(content, calls), ToolMessage(calls[0].id, ""), ToolMessage(calls[1].id, "")]
  }

  lemma {:induction false} AnsweredBlockClosed(content: string, calls: seq<ToolCall>)
    requires |calls| == 2
    ensures Closed(AnsweredBlock(content, calls)) && Closed([AssistantMessage("", [])])
  {
    BlockShape(AnsweredBlock(content, calls));
    SingleClosed(AssistantMessage("", []));
  }

  lemma {:induction false} LongBlockIs(content: string, calls: seq<ToolCall>)
    requires |calls| == 2
    ensures LongBlock(content, calls)
         == Repeat(UserMessage(""), MIN_USER_TURNS) + (AnsweredBlock(content, calls) + [AssistantMessage("", [])])
  {
    hide Repeat;
  }

  /** A summariser cuts this closed history, with the counts of its own provider, between the calls
      and their answers: what remains begins, after the summary, with two answers to nothing. */
  method BlockCanBeCut(s: Summarizer, content: string, calls: seq<ToolCall>, reply: string)
    returns (history: seq<Message>, remaining: seq<Message>)
    requires |calls| == 2 && |content| >= 8 && |content| / 4 > s.thresholdTokens
    ensures |history| == 10 && Closed(history) && remaining == [SystemMessage(SUMMARY_MARK + reply)] + history[7..] && !Closed(remaining)
  {
    hide Closed, Running, Tokens, UserTurns, LongBlockCounts, ByteCounts;
    history := LongBlock(content, calls);
    var counts := LongBlockCounts(content);
    LongBlockCounted(content, calls);
    LongBlockClosed(content, calls);
    var result;
    ghost var split;
    result, split := s.MaybeSummarize(history, counts, Some(reply));
    assert HalfPoint(history, |content| / 8, 6) by {
      assert |content| / 4 / 2 == |content| / 8;
    }
    assert IsSplitBehind(history, 6, 7);
    assert IsSplit(history, Tokens(history, counts), 7);
    SplitUnique(history, Tokens(history, counts), split, 7);
    remaining := result.value.value.remaining.value;
    SystemClosed(SUMMARY_MARK + reply);
    JoinClosed([SystemMessage(SUMMARY_MARK + reply)], history[7..]);
    ToolFirst(history[7..]);
  }
}
