/** internal/engine/context.go, Assemble: how much of the history fits the token budget. */
module ContextAssembler {
  import opened Messages
  import opened Transcript

  const RESPONSE_RESERVE: int := 1024

  function Sum(tokens: seq<nat>): nat {
    if |tokens| == 0 then 0 else tokens[0] + Sum(tokens[1..])
  }

  lemma {:induction false} LongerSuffixCostsMore(tokens: seq<nat>, j: nat, k: nat)
    requires j <= k <= |tokens|
    ensures Sum(tokens[k..]) <= Sum(tokens[j..])
    decreases k - j
  {
    if j < k {
      LongerSuffixCostsMore(tokens, j + 1, k);
      assert tokens[j..][1..] == tokens[j+1..];
    }
  }

  lemma {:induction false} SumFrom(tokens: seq<nat>, i: nat)
    requires i < |tokens|
    ensures Sum(tokens[i..]) == tokens[i] + Sum(tokens[i+1..])
  {
    assert tokens[i..][1..] == tokens[i+1..];
  }

  lemma NothingIncluded(tokens: seq<nat>)
    ensures Sum(tokens[|tokens|..]) == 0
  {
  }

  /** The budget for history. The reserve is only set aside if there is more than the reserve. */
  function HistoryBudget(maxTokens: int, sysTokens: nat, toolTokens: int): int {
    var left := maxTokens - sysTokens - toolTokens;
    if left > RESPONSE_RESERVE then left - RESPONSE_RESERVE else left
  }

  /** Told from the tokens: the suffix from k on fits and its own newest part leaves budget over, and
      it could not be extended: it is everything, or the budget is used up, or the next older
      message does not fit. */
  predicate IsCut(tokens: seq<nat>, budget: int, k: nat)
    requires k <= |tokens|
  {
    && (k < |tokens| ==> Sum(tokens[k..]) <= budget && Sum(tokens[k+1..]) < budget)
    && (k == 0 || Sum(tokens[k..]) >= budget || Sum(tokens[k-1..]) > budget)
  }

  /** There is only one. */
  lemma {:induction false} CutUnique(tokens: seq<nat>, budget: int, j: nat, k: nat)
    requires j <= |tokens| && k <= |tokens| && IsCut(tokens, budget, j) && IsCut(tokens, budget, k)
    ensures j == k
  {
    hide Sum;
    if j < k {
      LongerSuffixCostsMore(tokens, j + 1, k);
      LongerSuffixCostsMore(tokens, j, k - 1);
    } else if k < j {
      LongerSuffixCostsMore(tokens, k + 1, j);
      LongerSuffixCostsMore(tokens, k, j - 1);
    }
  }

  /** The prompt, if any, and the history from message k on. */
  function Sent(prompt: string, history: seq<Message>, k: nat): seq<Message>
    requires k <= |history|
  {
    (if prompt != "" then [SystemMessage(prompt)] else []) + history[k..]
  }

  lemma SentIs(prompt: string, history: seq<Message>, k: nat)
    requires k <= |history|
    ensures var n := if prompt != "" then 1 else 0;
            |Sent(prompt, history, k)| == n + |history| - k && Sent(prompt, history, k)[n..] == history[k..]
    ensures prompt != "" ==>
              var first := Sent(prompt, history, k)[0]; first.role == "system" && first.content == prompt && first.toolCalls == []
  {
  }

  class ContextAssembler {
    const maxContextTokens: int

    constructor (maxContextTokens: int)
      ensures this.maxContextTokens == if maxContextTokens <= 0 then 8192 else maxContextTokens
    {
      this.maxContextTokens := if maxContextTokens <= 0 then 8192 else maxContextTokens;
    }

    /** prompt already holds the memories. sysTokens and tokens are what estimateTokens gives for
        the prompt and for each message. */
    method Assemble(prompt: string, sysTokens: nat, history: seq<Message>, tokens: seq<nat>, toolTokenOverhead: int)
      returns (msgs: seq<Message>)
      requires |tokens| == |history|
      ensures prompt != "" ==> |msgs| > 0 && msgs[0].role == "system" && msgs[0].content == prompt && msgs[0].toolCalls == []
      ensures var left := maxContextTokens - sysTokens - toolTokenOverhead;
              exists k :: 0 <= k <= |history| && msgs == Sent(prompt, history, k) &&
                          IsCut(tokens, if left > 1024 then left - 1024 else left, k)
      ensures Closed(history) ==>
                (Closed(msgs) <==> !PartsABlock(history, tokens, HistoryBudget(maxContextTokens, sysTokens, toolTokenOverhead)))
    {
      var budget := maxContextTokens;
      budget := budget - sysTokens;
      budget := budget - toolTokenOverhead;
      if budget > RESPONSE_RESERVE {
        budget := budget - RESPONSE_RESERVE;
      }
      assert budget == HistoryBudget(maxContextTokens, sysTokens, toolTokenOverhead);
      ghost var left := maxContextTokens - sysTokens - toolTokenOverhead;
      assert budget == if left > 1024 then left - 1024 else left;
      ghost var whole := budget;
      hide Sum, HistoryBudget, Closed, PartsABlock;
      NothingIncluded(tokens);
      var included: seq<Message> := [];
      var i := |history| - 1;
      while i >= 0 && budget > 0
        invariant -1 <= i < |history| && included == history[i+1..]
        invariant budget == whole - Sum(tokens[i+1..])
        invariant i + 1 < |history| ==> budget >= 0 && Sum(tokens[i+2..]) < whole
      {
        SumFrom(tokens, i);
        if tokens[i] > budget {
          break;
        }
        budget := budget - tokens[i];
        assert [history[i]] + history[i+1..] == history[i..];
        included := [history[i]] + included;
        i := i - 1;
      }
      msgs := [];
      if prompt != "" {
        msgs := msgs + [SystemMessage(prompt)];
      }
      msgs := msgs + included;
      assert msgs == Sent(prompt, history, i + 1);
      SentIs(prompt, history, i + 1);
      assert IsCut(tokens, whole, i + 1);
      if Closed(history) {
        SentIsClosedIff(prompt, history, tokens, whole, i + 1);
      }
    }
  }

  /** No longer suffix of the history would fit, unless the budget is used up to the last token. */
  lemma {:induction false} CutIsLongest(tokens: seq<nat>, budget: int, k: nat, j: nat)
    requires j < k <= |tokens| && IsCut(tokens, budget, k)
    ensures Sum(tokens[j..]) > budget || Sum(tokens[k..]) >= budget
  {
    LongerSuffixCostsMore(tokens, j, k - 1);
  }

  /** If more than the reserve is left for history and answer, both get it: prompt, tools, history
      and reserve stay within the limit. */
  lemma ReserveIsKept(maxTokens: int, sysTokens: nat, toolTokens: int, tokens: seq<nat>, k: nat)
    requires k <= |tokens| && IsCut(tokens, HistoryBudget(maxTokens, sysTokens, toolTokens), k)
    requires maxTokens - sysTokens - toolTokens > RESPONSE_RESERVE
    ensures sysTokens + toolTokens + Sum(tokens[k..]) + RESPONSE_RESERVE <= maxTokens
  {
  }

  /** Otherwise the history can take all of it: nothing is kept for the answer. */
  lemma {:induction false} ReserveCanBeSpent(maxTokens: int)
    requires maxTokens >= RESPONSE_RESERVE
    ensures var sysTokens, tokens := maxTokens - RESPONSE_RESERVE, [RESPONSE_RESERVE as nat];
            IsCut(tokens, HistoryBudget(maxTokens, sysTokens, 0), 0) && sysTokens + Sum(tokens[0..]) == maxTokens
  {
    assert [RESPONSE_RESERVE as nat][1..] == [];
  }

  /** Told from the history and its tokens: the budget runs out in front of a tool message. */
  predicate PartsABlock(history: seq<Message>, tokens: seq<nat>, budget: int)
    requires |tokens| == |history|
  {
    exists k :: 0 <= k < |history| && history[k].role == "tool" && IsCut(tokens, budget, k)
  }

  /** Exactly then what is sent to the provider is not a closed transcript. */
  lemma {:induction false} SentIsClosedIff(prompt: string, history: seq<Message>, tokens: seq<nat>, budget: int, k: nat)
    requires Closed(history) && |tokens| == |history| && k <= |history| && IsCut(tokens, budget, k)
    ensures Closed(Sent(prompt, history, k)) <==> !PartsABlock(history, tokens, budget)
  {
    hide Closed, OpenOnlyAtEnd, IsCut;
    CutClosedIff(history, k);
    var head := if prompt != "" then [SystemMessage(prompt)] else [];
    HeadClosed(prompt);
    JoinClosed(head, history[k..]);
    forall j | 0 <= j < |history| && IsCut(tokens, budget, j) ensures j == k {
      CutUnique(tokens, budget, j, k);
    }
  }

  /** It happens, with tokens counted as a quarter of the bytes: a reply with two calls, too long for
      the budget that its answers leave. */
  method BudgetPartsABlock(ca: ContextAssembler, prompt: string, sysTokens: nat, text: string, calls: seq<ToolCall>, toolTokenOverhead: int)
    returns (history: seq<Message>, msgs: seq<Message>)
    requires |calls| == 2 && 2 <= HistoryBudget(ca.maxContextTokens, sysTokens, toolTokenOverhead) < |text| / 4 + 2
    ensures Closed(history) && !Closed(msgs)
  {
    var question := UserMessage("?");
    var block := [AssistantMessage(text, calls), ToolMessage(calls[0].id, "done"), ToolMessage(calls[1].id, "done")];
    history := [question] + block;
    var tokens: seq<nat> := [|question.content| / 4, |text| / 4, |"done"| / 4, |"done"| / 4];
    BlockShape(block);
    SingleClosed(question);
    JoinClosed([question], block);
    SumOfLastTwo(tokens);
    hide Sum, Closed, OpenOnlyAtEnd;
    assert history[2] == block[1];
    assert PartsABlock(history, tokens, HistoryBudget(ca.maxContextTokens, sysTokens, toolTokenOverhead));
    msgs := ca.Assemble(prompt, sysTokens, history, tokens, toolTokenOverhead);
  }

  lemma {:induction false} SumOfLastTwo(tokens: seq<nat>)
    requires |tokens| == 4 && tokens[2] == tokens[3] == 1
    ensures Sum(tokens[3..]) == 1 && Sum(tokens[2..]) == 2 && Sum(tokens[1..]) == tokens[1] + 2
  {
    NothingIncluded(tokens);
    SumFrom(tokens, 3);
    SumFrom(tokens, 2);
    SumFrom(tokens, 1);
  }

  lemma {:induction false} HeadClosed(prompt: string)
    ensures Closed(if prompt != "" then [SystemMessage(prompt)] else [])
  {
    SingleClosed(SystemMessage(prompt));
  }
}
