/** internal/provider/openai_compat.go, parseSSE: tool calls put together from the fragments of a
    stream. */
module Sse {
  import opened Wrappers
  import opened Messages

  /** One piece of a tool call, for the call at an index. */
  datatype Fragment = Fragment(index: int, id: string, name: string, arguments: string)

  /** A line of the stream: the delta of its first choice, the end mark, or anything else. */
  datatype Line = Delta(content: string, fragments: seq<Fragment>) | Done | Ignored

  datatype Chunk = Content(text: string) | Calls(calls: seq<ToolCall>) | End | EndCancelled | EndScanError

  // ----- Putting calls together -----

  function Take(calls: map<int, ToolCall>, f: Fragment): map<int, ToolCall> {
    if f.index in calls
    then calls[f.index := calls[f.index].(arguments := calls[f.index].arguments + f.arguments)]
    else calls[f.index := ToolCall(f.id, f.name, f.arguments)]
  }

  function Assembled(fragments: seq<Fragment>): map<int, ToolCall> {
    if |fragments| == 0 then map[] else Take(Assembled(fragments[..|fragments|-1]), fragments[|fragments|-1])
  }

  function OfIndex(fragments: seq<Fragment>, index: int): seq<Fragment> {
    if |fragments| == 0 then []
    else OfIndex(fragments[..|fragments|-1], index) +
         (if fragments[|fragments|-1].index == index then [fragments[|fragments|-1]] else [])
  }

  function Concatenated(fragments: seq<Fragment>): string {
    if |fragments| == 0 then "" else Concatenated(fragments[..|fragments|-1]) + fragments[|fragments|-1].arguments
  }

  /** What the fragments of one index amount to: the first one's id and name, all arguments in
      the order of arrival. */
  function CallOf(fragments: seq<Fragment>): ToolCall
    requires |fragments| > 0
  {
    ToolCall(fragments[0].id, fragments[0].name, Concatenated(fragments))
  }

  lemma {:induction false} AssembledAt(fragments: seq<Fragment>, index: int)
    ensures index in Assembled(fragments) <==> OfIndex(fragments, index) != []
    ensures index in Assembled(fragments) ==> Assembled(fragments)[index] == CallOf(OfIndex(fragments, index))
  {
    if |fragments| > 0 {
      var front, last := fragments[..|fragments|-1], fragments[|fragments|-1];
      AssembledAt(front, index);
      var mine := OfIndex(front, index);
      hide OfIndex, Concatenated;
      OfIndexGrows(fragments, index);
      if last.index == index {
        CallGrows(mine, last);
      }
    }
  }

  lemma OfIndexGrows(fragments: seq<Fragment>, index: int)
    requires |fragments| > 0
    ensures var front, last := fragments[..|fragments|-1], fragments[|fragments|-1];
            OfIndex(fragments, index) == if last.index == index then OfIndex(front, index) + [last] else OfIndex(front, index)
  {
  }

  lemma {:induction false} CallGrows(mine: seq<Fragment>, last: Fragment)
    ensures mine == [] ==> CallOf(mine + [last]) == ToolCall(last.id, last.name, last.arguments)
    ensures mine != [] ==> CallOf(mine + [last]) == CallOf(mine).(arguments := CallOf(mine).arguments + last.arguments)
  {
    assert (mine + [last])[..|mine|] == mine;
    assert Concatenated([]) + last.arguments == last.arguments;
  }

  /** However the indexes interleave: the same fragments per index give the same calls. */
  lemma {:induction false} InterleavingDoesNotMatter(a: seq<Fragment>, b: seq<Fragment>)
    requires forall index :: OfIndex(a, index) == OfIndex(b, index)
    ensures Assembled(a) == Assembled(b)
  {
    forall index ensures index in Assembled(a) <==> index in Assembled(b) {
      AssembledAt(a, index);
      AssembledAt(b, index);
    }
    forall index | index in Assembled(a) ensures Assembled(a)[index] == Assembled(b)[index] {
      AssembledAt(a, index);
      AssembledAt(b, index);
    }
  }

  lemma {:induction false} OfIndexJoins(a: seq<Fragment>, b: seq<Fragment>, index: int)
    ensures OfIndex(a + b, index) == OfIndex(a, index) + OfIndex(b, index)
  {
    if |b| == 0 {
      assert a + b == a;
    } else {
      OfIndexJoins(a, b[..|b|-1], index);
      assert (a + b)[..|a + b|-1] == a + b[..|b|-1];
    }
  }

  /** Two neighbouring fragments of different indexes can change places. */
  lemma {:induction false} SwapNeighbours(before: seq<Fragment>, f: Fragment, g: Fragment, after: seq<Fragment>)
    requires f.index != g.index
    ensures Assembled(before + [f, g] + after) == Assembled(before + [g, f] + after)
  {
    forall index ensures OfIndex(before + [f, g] + after, index) == OfIndex(before + [g, f] + after, index) {
      hide Assembled;
      assert [f, g][..1] == [f] && [g, f][..1] == [g] && [f][..0] == [] && [g][..0] == [];
      assert OfIndex([f, g], index) == OfIndex([g, f], index);
      OfIndexJoins(before, [f, g], index);
      OfIndexJoins(before, [g, f], index);
      OfIndexJoins(before + [f, g], after, index);
      OfIndexJoins(before + [g, f], after, index);
    }
    InterleavingDoesNotMatter(before + [f, g] + after, before + [g, f] + after);
  }

  // ----- The stream -----

  function Fragments(lines: seq<Line>): seq<Fragment> {
    if |lines| == 0 then []
    else Fragments(lines[..|lines|-1]) + (if lines[|lines|-1].Delta? then lines[|lines|-1].fragments else [])
  }

  function Contents(lines: seq<Line>): seq<Chunk> {
    if |lines| == 0 then []
    else Contents(lines[..|lines|-1]) +
         (if lines[|lines|-1].Delta? && lines[|lines|-1].content != "" then [Content(lines[|lines|-1].content)] else [])
  }

  /** The first end mark, or the length of the stream. */
  function FirstDone(lines: seq<Line>): (n: nat)
    ensures n <= |lines| && Done !in lines[..n] && (n < |lines| ==> lines[n] == Done)
  {
    if |lines| == 0 || lines[0] == Done then 0
    else
      var n := FirstDone(lines[1..]) + 1;
      assert lines[..n] == [lines[0]] + lines[1..][..n-1];
      n
  }

  lemma {:induction false} OneMoreLine(lines: seq<Line>, k: nat)
    requires k < |lines|
    ensures Fragments(lines[..k+1])
         == if lines[k].Delta? then Fragments(lines[..k]) + lines[k].fragments else Fragments(lines[..k])
    ensures Contents(lines[..k+1])
         == if lines[k].Delta? && lines[k].content != "" then Contents(lines[..k]) + [Content(lines[k].content)]
            else Contents(lines[..k])
  {
    assert lines[..k+1][..k] == lines[..k];
  }

  lemma {:induction false} DoneIsFirst(lines: seq<Line>, k: nat)
    requires k < |lines| && k <= FirstDone(lines) && lines[k] == Done
    ensures k == FirstDone(lines)
  {
    assert forall i :: 0 <= i < FirstDone(lines) ==> lines[i] in lines[..FirstDone(lines)];
  }

  /** The calls of a map, one each, in some order. */
  predicate ListsCalls<K(==)>(list: seq<ToolCall>, order: seq<K>, calls: map<K, ToolCall>) {
    && |list| == |order| && (forall i, j :: 0 <= i < j < |order| ==> order[i] != order[j])
    && (forall index :: index in calls ==> index in order)
    && (forall i :: 0 <= i < |order| ==> order[i] in calls && list[i] == calls[order[i]])
  }

  /** Go ranges over a map in any order. */
  method Flush<K(==)>(calls: map<K, ToolCall>) returns (list: seq<ToolCall>, order: seq<K>)
    ensures ListsCalls(list, order, calls)
  {
    list, order := [], [];
    var rest := calls.Keys;
    while rest != {}
      invariant rest <= calls.Keys && |list| == |order|
      invariant forall i, j :: 0 <= i < j < |order| ==> order[i] != order[j]
      invariant forall index :: index in calls && index !in rest ==> index in order
      invariant forall i :: 0 <= i < |order| ==> order[i] !in rest
      invariant forall i :: 0 <= i < |order| ==> order[i] in calls && list[i] == calls[order[i]]
      decreases |rest|
    {
      var index :| index in rest;
      list, order, rest := list + [calls[index]], order + [index], rest - {index};
    }
  }

  method TakeAll(calls: map<int, ToolCall>, fragments: seq<Fragment>, ghost before: seq<Fragment>) returns (after: map<int, ToolCall>)
    requires calls == Assembled(before)
    ensures after == Assembled(before + fragments)
  {
    after := calls;
    assert before + fragments[..0] == before;
    for i := 0 to |fragments|
      invariant after == Assembled(before + fragments[..i])
    {
      var f := fragments[i];
      assert (before + fragments[..i+1])[..|before| + i] == before + fragments[..i];
      if f.index in after {
        var existing := after[f.index];
        after := after[f.index := existing.(arguments := existing.arguments + f.arguments)];
      } else {
        after := after[f.index := ToolCall(f.id, f.name, f.arguments)];
      }
    }
    assert fragments[..|fragments|] == fragments;
  }

  /** Text is passed on as it comes; the calls follow at the end mark, one per index. A stream that
      breaks off without the mark yields no calls. stop is the line before which the context ends. */
  method ParseSse(lines: seq<Line>, stop: Option<nat>, scanError: bool) returns (chunks: seq<Chunk>, order: seq<int>)
    ensures var n := FirstDone(lines);
            if stop.Some? && stop.value < |lines| && stop.value <= n
            then chunks == Contents(lines[..stop.value]) + [EndCancelled]
            else if n == |lines|
            then chunks == Contents(lines) + (if scanError then [EndScanError] else [])
            else if Assembled(Fragments(lines[..n])) == map[]
            then chunks == Contents(lines[..n]) + [End]
            else |chunks| == |Contents(lines[..n])| + 2 && chunks[|chunks|-2].Calls? &&
                 chunks == Contents(lines[..n]) + [chunks[|chunks|-2], End] &&
                 ListsCalls(chunks[|chunks|-2].calls, order, Assembled(Fragments(lines[..n])))
  {
    chunks, order := [], [];
    var toolCalls: map<int, ToolCall> := map[];
    assert Assembled(Fragments(lines[..0])) == map[] && Contents(lines[..0]) == [];
    hide Assembled, ListsCalls, FirstDone, Contents, Fragments;
    for k := 0 to |lines|
      invariant k <= FirstDone(lines) && (stop.Some? ==> k <= stop.value)
      invariant chunks == Contents(lines[..k]) && toolCalls == Assembled(Fragments(lines[..k]))
    {
      if stop == Some(k) {
        return chunks + [EndCancelled], order;
      }
      if lines[k] == Done {
        DoneIsFirst(lines, k);
        if |toolCalls| > 0 {
          var tcs;
          tcs, order := Flush(toolCalls);
          return chunks + [Calls(tcs), End], order;
        }
        return chunks + [End], order;
      }
      OneMoreLine(lines, k);
      if lines[k].Delta? {
        if lines[k].content != "" {
          chunks := chunks + [Content(lines[k].content)];
        }
        toolCalls := TakeAll(toolCalls, lines[k].fragments, Fragments(lines[..k]));
      }
    }
    assert lines[..|lines|] == lines;
    if scanError {
      chunks := chunks + [EndScanError];
    }
  }
}
