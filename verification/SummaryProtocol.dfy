/** Turns of one session and its background summariser, interleaved step by step
    (internal/engine/engine.go, applyPendingSummary to maybeStartSummarization). Turns follow
    each other; the worker runs beside them. */
module SummaryProtocol {
  import opened Wrappers
  import opened Messages
  import opened Session
  import Summarizer

  /** A result on its way, with the length of the log when its snapshot was taken. */
  datatype Item = Item(pending: Pending, at: nat)

  datatype Stage = FirstTry | Drain | SecondTry

  datatype Worker =
    | Idle
    | Running(snapshot: seq<Message>, at: nat)
    | Delivering(item: Item, stage: Stage)
    | Finished   // the deferred clearing of the flag is still to come

  /** history, slot and flag are the session's. log is every message ever appended; the history
      is head + log[headAt..] as long as each splice so far was exact. received is a result the
      turn has taken from the channel and not merged yet. */
  datatype State = State(
    history: seq<Message>, slot: Option<Item>, flag: bool, worker: Worker, received: Option<Item>,
    log: seq<Message>, head: seq<Message>, headAt: nat, exactSoFar: bool)

  datatype Step =
    | Append(m: Message)
    | Capture                                  // CompareAndSwap, then the copy of the history
    | Fail                                     // the summariser failed, or had nothing to do
    | Produce(remaining: seq<Message>)         // the summariser's compacted history
    | Try                                      // a non-blocking send
    | DrainSlot                                // a non-blocking receive by the worker
    | Clear                                    // the flag
    | Receive                                  // a non-blocking receive by the turn
    | Reconcile

  function Initial(history: seq<Message>): State {
    State(history, None, false, Idle, None, history, [], 0, true)
  }

  /** When a step can happen. A summary is never longer than the snapshot it replaces. */
  predicate Enabled(s: State, step: Step) {
    match step
    case Append(_) => s.received == None
    case Capture => !s.flag && s.received == None
    case Fail => s.worker.Running?
    case Produce(remaining) => s.worker.Running? && |remaining| <= |s.worker.snapshot|
    case Try => s.worker.Delivering? && s.worker.stage != Drain
    case DrainSlot => s.worker.Delivering? && s.worker.stage == Drain
    case Clear => s.worker.Finished?
    case Receive => s.received == None && s.slot.Some?
    case Reconcile => s.received.Some?
  }

  /** What a merge should give: the compacted history, then the messages appended since. */
  function Wanted(s: State, item: Item): seq<Message>
    requires item.at <= |s.log| && Summarised(item)
  {
    item.pending.result.value.remaining.value + s.log[item.at..]
  }

  predicate Summarised(item: Item) {
    item.pending.result.Some? && item.pending.result.value.remaining.Some?
  }

  function Next(s: State, step: Step): State
    requires Enabled(s, step)
  {
    match step
    case Append(m) => s.(history := s.history + [m], log := s.log + [m])
    case Capture => s.(flag := true, worker := Running(s.history, |s.log|))
    case Fail => s.(worker := Finished)
    case Produce(remaining) =>
      s.(worker := Delivering(Item(Pending(Some(Summary(Some(remaining))), |s.worker.snapshot|), s.worker.at), FirstTry))
    case Try =>
      if s.slot == None then s.(slot := Some(s.worker.item), worker := Finished)
      else if s.worker.stage == FirstTry then s.(worker := s.worker.(stage := Drain))
      else s.(worker := Finished)   // "failed to deliver pending summary after drain"
    case DrainSlot => s.(slot := None, worker := s.worker.(stage := SecondTry))
    case Clear => s.(worker := Idle, flag := false)
    case Receive => s.(received := s.slot, slot := None)
    case Reconcile =>
      var item := s.received.value;
      var merged := Splice(s.history, item.pending);
      if Applicable(s.history, item.pending) then
        var exact := item.at <= |s.log| && merged == Wanted(s, item);
        s.(history := merged, received := None, exactSoFar := s.exactSoFar && exact,
           head := item.pending.result.value.remaining.value, headAt := item.at)
      else s.(received := None)
  }

  /** What the summariser can make of a snapshot, with a quarter of the bytes as the count. */
  predicate SummaryOf(threshold: int, snapshot: seq<Message>, split: nat, reply: string, remaining: seq<Message>)
    requires split <= |snapshot|
  {
    var total := Summarizer.Tokens(snapshot, Summarizer.ByteCount(snapshot));
    && Summarizer.UserTurns(snapshot) >= Summarizer.MIN_USER_TURNS && total > threshold
    && Summarizer.IsSplit(snapshot, total, split)
    && remaining == [SystemMessage(Summarizer.SUMMARY_MARK + reply)] + snapshot[split..]
  }

  /** Each result of a run is one the summariser can give. */
  ghost predicate RealSummaries(threshold: int, states: seq<State>, steps: seq<Step>)
    requires |states| == |steps| + 1
  {
    forall i :: 0 <= i < |steps| && steps[i].Produce? ==> states[i].worker.Running? && IsSummary(threshold, states[i].worker.snapshot, steps[i].remaining)
  }

  ghost predicate IsSummary(threshold: int, snapshot: seq<Message>, remaining: seq<Message>) {
    exists split: nat, reply: string :: split <= |snapshot| && SummaryOf(threshold, snapshot, split, reply, remaining)
  }

  // ----- Runs -----

  predicate Run(states: seq<State>, steps: seq<Step>) {
    |states| == |steps| + 1 &&
    forall i :: 0 <= i < |steps| ==> Enabled(states[i], steps[i]) && states[i+1] == Next(states[i], steps[i])
  }

  /** The discipline under which the protocol is right: no snapshot while a result waits. */
  predicate SlotEmptyAtCapture(states: seq<State>, steps: seq<Step>)
    requires |states| == |steps| + 1
  {
    forall i :: 0 <= i < |steps| && steps[i] == Capture ==> states[i].slot == None
  }

  /** The distance between history and log. Only a merge changes it. */
  function Offset(s: State): int {
    |s.history| - |s.log|
  }

  function ItemOffset(item: Item): int {
    item.pending.snapshotLen - item.at
  }

  predicate ItemSound(s: State, item: Item) {
    && Summarised(item) && s.headAt <= item.at <= |s.log| && 0 <= item.pending.snapshotLen
    && |item.pending.result.value.remaining.value| <= item.pending.snapshotLen
    && Offset(s) <= ItemOffset(item)
  }

  predicate HistoryExplained(s: State) {
    s.headAt <= |s.log| && s.history == s.head + s.log[s.headAt..]
  }

  /** Results are merged in the order of their snapshots. */
  predicate InOrder(s: State) {
    && (s.received.Some? ==> ItemSound(s, s.received.value))
    && (s.slot.Some? ==> ItemSound(s, s.slot.value))
    && (s.worker.Running? ==> s.headAt <= s.worker.at <= |s.log| && Offset(s) <= |s.worker.snapshot| - s.worker.at)
    && (s.worker.Delivering? ==> ItemSound(s, s.worker.item))
    && (s.received.Some? && s.slot.Some? ==> s.received.value.at <= s.slot.value.at)
    && (s.received.Some? && s.worker.Running? ==> s.received.value.at <= s.worker.at)
    && (s.received.Some? && s.worker.Delivering? ==> s.received.value.at <= s.worker.item.at)
    && (s.slot.Some? && s.worker.Running? ==> s.slot.value.at <= s.worker.at)
    && (s.slot.Some? && s.worker.Delivering? ==> s.slot.value.at <= s.worker.item.at)
  }

  /** What every step keeps, whatever the interleaving. */
  predicate Invariant(s: State) {
    && (s.flag <==> !s.worker.Idle?)
    && (s.worker.Delivering? && s.worker.stage == SecondTry ==> s.slot == None)
    && (s.exactSoFar ==> HistoryExplained(s) && InOrder(s))
  }

  lemma {:induction false} InitialInvariant(history: seq<Message>)
    ensures Invariant(Initial(history))
  {
    assert history[0..] == history;
  }

  /** Merging an item that was captured at an offset of its own: the first messages appended
      after the snapshot are dropped, as many as merges since then have shortened the history. */
  lemma {:induction false} SpliceDrops(s: State, item: Item)
    requires HistoryExplained(s) && ItemSound(s, item) && Applicable(s.history, item.pending)
    ensures var d := ItemOffset(item) - Offset(s);
            0 <= d && item.at + d <= |s.log| &&
            Splice(s.history, item.pending) == item.pending.result.value.remaining.value + s.log[item.at + d..]
  {
    var n := item.pending.snapshotLen;
    var d := ItemOffset(item) - Offset(s);
    assert n - |s.head| + s.headAt == item.at + d;
    assert s.history[n..] == s.log[item.at + d..];
  }

  /** A merge is exact if and only if no merge since its snapshot has changed the length of the
      history. A result that is refused is stale in this sense. */
  lemma {:induction false} MergeExactIff(s: State)
    requires Invariant(s) && s.exactSoFar && s.received.Some?
    ensures var item := s.received.value;
            && item.at <= |s.log| && Summarised(item)
            && (Next(s, Reconcile).history == Wanted(s, item) && Applicable(s.history, item.pending)
                <==> Offset(s) == ItemOffset(item))
            && (!Applicable(s.history, item.pending) ==> Offset(s) < ItemOffset(item) && Next(s, Reconcile).history == s.history)
  {
    var item := s.received.value;
    if Applicable(s.history, item.pending) {
      SpliceDrops(s, item);
      var d := ItemOffset(item) - Offset(s);
      assert |s.log[item.at..]| == |s.log[item.at + d..]| + d;
    }
  }

  lemma StepKeepsFlags(s: State, step: Step)
    requires Invariant(s) && Enabled(s, step)
    ensures Next(s, step).flag <==> !Next(s, step).worker.Idle?
    ensures Next(s, step).worker.Delivering? && Next(s, step).worker.stage == SecondTry ==> Next(s, step).slot == None
  {
  }

  lemma {:induction false} MergeKeepsOrder(s: State)
    requires Invariant(s) && s.exactSoFar && s.received.Some? && Next(s, Reconcile).exactSoFar
    ensures HistoryExplained(Next(s, Reconcile)) && InOrder(Next(s, Reconcile))
  {
    if Applicable(s.history, s.received.value.pending) {
      SpliceDrops(s, s.received.value);
    }
  }

  lemma {:induction false} OtherStepsKeepExplained(s: State, step: Step)
    requires HistoryExplained(s) && Enabled(s, step) && step != Reconcile
    ensures HistoryExplained(Next(s, step))
  {
    hide Splice, Wanted;
    if step.Append? {
      assert Next(s, step).log[s.headAt..] == s.log[s.headAt..] + [step.m];
    }
  }

  lemma {:induction false} OtherStepsKeepOrder(s: State, step: Step)
    requires Invariant(s) && s.exactSoFar && Enabled(s, step) && step != Reconcile
    ensures InOrder(Next(s, step))
  {
    hide Splice, Wanted;
  }

  lemma {:induction false} StepKeepsInvariant(s: State, step: Step)
    requires Invariant(s) && Enabled(s, step)
    ensures Invariant(Next(s, step))
  {
    hide HistoryExplained, InOrder, Splice, Wanted;
    StepKeepsFlags(s, step);
    if Next(s, step).exactSoFar {
      if step == Reconcile {
        MergeKeepsOrder(s);
      } else {
        OtherStepsKeepExplained(s, step);
        OtherStepsKeepOrder(s, step);
      }
    }
  }

  lemma {:induction false} RunKeepsInvariant(states: seq<State>, steps: seq<Step>, i: nat)
    requires Run(states, steps) && Invariant(states[0]) && i <= |steps|
    ensures Invariant(states[i])
  {
    hide Invariant, Next, Enabled;
    if i > 0 {
      RunKeepsInvariant(states, steps, i - 1);
      assert Enabled(states[i-1], steps[i-1]) && states[i] == Next(states[i-1], steps[i-1]);
      StepKeepsInvariant(states[i-1], steps[i-1]);
    }
  }

  /** The branch that logs "failed to deliver" is never taken: a second send finds the slot empty. */
  lemma {:induction false} SecondSendSucceeds(states: seq<State>, steps: seq<Step>, i: nat)
    requires Run(states, steps) && Invariant(states[0]) && i < |steps|
    requires steps[i] == Try && states[i].worker.Delivering? && states[i].worker.stage == SecondTry
    ensures states[i+1].slot == Some(states[i].worker.item)
  {
    RunKeepsInvariant(states, steps, i);
    assert states[i+1] == Next(states[i], steps[i]);
  }

  // ----- With the discipline -----

  /** At most one result is anywhere between its snapshot and its merge, and nothing was merged
      in the meantime. */
  predicate OneOutstanding(s: State) {
    && s.exactSoFar
    && (s.received.Some? ==> s.slot == None && !s.worker.Running? && !s.worker.Delivering? &&
                             Offset(s) == ItemOffset(s.received.value))
    && (s.slot.Some? ==> s.received == None && !s.worker.Running? && !s.worker.Delivering? &&
                         Offset(s) == ItemOffset(s.slot.value))
    && (s.worker.Running? ==> Offset(s) == |s.worker.snapshot| - s.worker.at)
    && (s.worker.Delivering? ==> s.worker.stage == FirstTry && Offset(s) == ItemOffset(s.worker.item))
  }

  lemma {:induction false} DisciplinedStep(s: State, step: Step)
    requires Invariant(s) && OneOutstanding(s) && Enabled(s, step)
    requires step == Capture ==> s.slot == None
    ensures OneOutstanding(Next(s, step))
    ensures step == Reconcile ==>
              s.received.value.at <= |s.log| && Summarised(s.received.value) &&
              Next(s, step).history == Wanted(s, s.received.value)
  {
    if step == Reconcile {
      MergeExactIff(s);
    }
  }

  lemma {:induction false} DisciplinedRun(states: seq<State>, steps: seq<Step>, i: nat)
    requires Run(states, steps) && Invariant(states[0]) && OneOutstanding(states[0])
    requires SlotEmptyAtCapture(states, steps) && i <= |steps|
    ensures Invariant(states[i]) && OneOutstanding(states[i])
  {
    hide Invariant, OneOutstanding, Next, Enabled;
    if i > 0 {
      DisciplinedRun(states, steps, i - 1);
      assert Enabled(states[i-1], steps[i-1]) && states[i] == Next(states[i-1], steps[i-1]);
      StepKeepsInvariant(states[i-1], steps[i-1]);
      DisciplinedStep(states[i-1], steps[i-1]);
    }
  }

  /** In every interleaving in which no snapshot is taken while a result waits, every merge gives
      the compacted history followed by exactly the messages appended since its snapshot, and at
      every moment the history is the last compacted history and the log from there on. */
  lemma {:induction false} NothingLostUnderDiscipline(states: seq<State>, steps: seq<Step>, history: seq<Message>)
    requires Run(states, steps) && states[0] == Initial(history) && SlotEmptyAtCapture(states, steps)
    ensures forall i :: 0 <= i <= |steps| ==> HistoryExplained(states[i])
    ensures forall i :: 0 <= i < |steps| && steps[i] == Reconcile ==>
              states[i].received.Some? && states[i].received.value.at <= |states[i].log| && Summarised(states[i].received.value) &&
              states[i+1].history == Wanted(states[i], states[i].received.value)
  {
    InitialInvariant(history);
    forall i | 0 <= i <= |steps| ensures Invariant(states[i]) && OneOutstanding(states[i]) {
      DisciplinedRun(states, steps, i);
    }
    forall i | 0 <= i < |steps| && steps[i] == Reconcile
      ensures states[i].received.Some? && states[i].received.value.at <= |states[i].log| && Summarised(states[i].received.value) &&
              states[i+1].history == Wanted(states[i], states[i].received.value)
    {
      assert Enabled(states[i], steps[i]) && states[i+1] == Next(states[i], steps[i]);
      DisciplinedStep(states[i], steps[i]);
    }
  }

  // ----- Without it -----

  lemma {:induction false} JoinRuns(a: seq<State>, x: seq<Step>, b: seq<State>, y: seq<Step>)
    requires Run(a, x) && Run(b, y) && a[|a|-1] == b[0]
    ensures Run(a + b[1..], x + y)
  {
    var states, steps := a + b[1..], x + y;
    forall i | 0 <= i < |steps| ensures Enabled(states[i], steps[i]) && states[i+1] == Next(states[i], steps[i]) {
      if i < |x| {
        assert states[i] == a[i] && states[i+1] == a[i+1];
      } else {
        assert states[i] == b[i - |x|] && states[i+1] == b[i - |x| + 1];
      }
    }
  }

  /** A long question, and n short ones, each with its answer. */
  function Talk(text: string, n: nat): (h: seq<Message>)
    ensures |h| == 2 * n + 2 && h[0] == UserMessage(text) && h[1].role == "assistant" && (n > 0 ==> h[2].role == "user")
  {
    (if n == 0 then [UserMessage(text)] else Talk(text, n - 1) + [Question()]) + [Answer()]
  }

  function Question(): Message {
    UserMessage("hi")
  }

  function Answer(): Message {
    AssistantMessage("ok", [])
  }

  function ShortSummary(text: string, n: nat, reply: string): (r: seq<Message>)
    ensures |r| == 2 * n + 1
  {
    [SystemMessage(Summarizer.SUMMARY_MARK + reply)] + Talk(text, n)[2..]
  }

  lemma {:induction false} OneMoreCounted(h: seq<Message>, m: Message)
    ensures Summarizer.Tokens(h + [m], Summarizer.ByteCount(h + [m]))
         == Summarizer.Tokens(h, Summarizer.ByteCount(h)) + (if m.role == "tool" then 0 else Summarizer.Bytes(m))
    ensures Summarizer.Running(h + [m]) == Summarizer.Running(h) + Summarizer.Bytes(m)
    ensures Summarizer.UserTurns(h + [m]) == Summarizer.UserTurns(h) + (if m.role == "user" then 1 else 0)
  {
    assert Summarizer.ByteCount(h + [m]) == Summarizer.ByteCount(h) + [Some(Summarizer.Bytes(m))];
    Summarizer.OneMore(h, Summarizer.ByteCount(h), m, Some(Summarizer.Bytes(m)));
  }

  lemma {:induction false} TalkCounted(text: string, n: nat)
    ensures var h := Talk(text, n);
            && Summarizer.Tokens(h, Summarizer.ByteCount(h)) == Summarizer.Running(h) == |text| / 4
            && Summarizer.UserTurns(h) == n + 1
  {
    hide Summarizer.Tokens, Summarizer.Running, Summarizer.UserTurns, Summarizer.ByteCount;
    if n == 0 {
      NothingCounted();
      OneMoreCounted([], UserMessage(text));
      assert [] + [UserMessage(text)] == [UserMessage(text)];
      OneMoreCounted([UserMessage(text)], Answer());
    } else {
      TalkCounted(text, n - 1);
      OneMoreCounted(Talk(text, n - 1), Question());
      OneMoreCounted(Talk(text, n - 1) + [Question()], Answer());
      TalkGrows(text, n - 1);
    }
  }

  lemma NothingCounted()
    ensures Summarizer.Tokens([], Summarizer.ByteCount([])) == Summarizer.Running([]) == Summarizer.UserTurns([]) == 0
  {
  }

  lemma TalkGrows(text: string, n: nat)
    ensures Talk(text, n + 1) == Talk(text, n) + [Question()] + [Answer()]
  {
  }

  /** All the tokens are in the first message, so the cut is in front of the second question. */
  lemma {:induction false} TalkSummary(threshold: int, text: string, n: nat, reply: string)
    requires n + 1 >= Summarizer.MIN_USER_TURNS && 0 < threshold < |text| / 4
    ensures SummaryOf(threshold, Talk(text, n), 2, reply, ShortSummary(text, n, reply))
    ensures IsSummary(threshold, Talk(text, n), ShortSummary(text, n, reply))
  {
    var h, total := Talk(text, n), |text| / 4;
    TalkCounted(text, n);
    hide Talk, Summarizer.Tokens, Summarizer.UserTurns;
    assert h[..1] == [] + [h[0]] && h[..0] == [];
    OneMoreCounted([], h[0]);
    assert Summarizer.HalfPoint(h, total / 2, 0);
    assert Summarizer.IsSplitBehind(h, 0, 2);
  }

  function Compacted(remaining: seq<Message>, n: nat): Item {
    Item(Pending(Some(Summary(Some(remaining))), n), n)
  }

  /** A turn takes a snapshot. During the next turn its summary arrives and the worker ends; so that
      turn takes a second snapshot while the summary still waits. */
  function FirstSteps(text: string, reply: string): seq<Step> {
    [Append(Question()), Append(Answer()), Capture] +
    [Append(Question()), Produce(ShortSummary(text, 5, reply)), Try, Clear, Append(Answer()), Capture]
  }

  /** The third turn merges the first summary. The second one arrives, and the fourth turn merges it. */
  function LastSteps(text: string, reply: string, question: string, answer: string): seq<Step> {
    [Receive, Reconcile, Append(UserMessage(question)), Append(AssistantMessage(answer, []))] +
    [Produce(ShortSummary(text, 6, reply)), Try, Receive, Reconcile]
  }

  function SecondSnapshot(text: string, reply: string): State {
    State(Talk(text, 6), Some(Compacted(ShortSummary(text, 5, reply), 12)), true, Running(Talk(text, 6), 14), None,
          Talk(text, 6), [], 0, true)
  }

  lemma {:induction false} SecondSnapshotTooEarly(threshold: int, text: string, reply: string) returns (states: seq<State>)
    requires 0 < threshold < |text| / 4
    ensures var steps := FirstSteps(text, reply);
            Run(states, steps) && RealSummaries(threshold, states, steps)
    ensures states[0] == Initial(Talk(text, 4)) && states[9] == SecondSnapshot(text, reply) && states[8].slot.Some?
  {
    TalkSummary(threshold, text, 5, reply);
    var h, r, q, a := Talk(text, 5), ShortSummary(text, 5, reply), Question(), Answer();
    hide Talk, ShortSummary, IsSummary, SummaryOf, Question, Answer, Next, Enabled;
    TalkGrows(text, 4);
    TalkGrows(text, 5);
    var s0 := Initial(Talk(text, 4));
    var s1 := s0.(history := Talk(text, 4) + [q], log := Talk(text, 4) + [q]);
    var s2 := s0.(history := h, log := h);
    var s3 := s2.(flag := true, worker := Running(h, 12));
    var s4 := s3.(history := h + [q], log := h + [q]);
    var s5 := s4.(worker := Delivering(Compacted(r, 12), FirstTry));
    var s6 := s5.(worker := Finished, slot := Some(Compacted(r, 12)));
    var s7 := s6.(worker := Idle, flag := false);
    var s8 := s7.(history := Talk(text, 6), log := Talk(text, 6));
    var s9 := SecondSnapshot(text, reply);
    FirstTurn(s0, s1, s2, s3, s4, q, a);
    SecondTurn(s4, s5, s6, s7, s8, s9, r, a);
    states := [s0, s1, s2, s3, s4, s5, s6, s7, s8, s9];
  }

  lemma FirstTurn(s0: State, s1: State, s2: State, s3: State, s4: State, q: Message, a: Message)
    requires s0.received == None && !s0.flag && s1 == s0.(history := s0.history + [q], log := s0.log + [q])
    requires s2 == s0.(history := s0.history + [q] + [a], log := s0.log + [q] + [a])
    requires s3 == s2.(flag := true, worker := Running(s2.history, |s2.log|))
    requires s4 == s3.(history := s3.history + [q], log := s3.log + [q])
    ensures Enabled(s0, Append(q)) && s1 == Next(s0, Append(q)) && Enabled(s1, Append(a)) && s2 == Next(s1, Append(a))
    ensures Enabled(s2, Capture) && s3 == Next(s2, Capture) && Enabled(s3, Append(q)) && s4 == Next(s3, Append(q))
  {
  }

  lemma SecondTurn(s4: State, s5: State, s6: State, s7: State, s8: State, s9: State, r: seq<Message>, a: Message)
    requires s4.worker.Running? && |r| <= |s4.worker.snapshot| && s4.received == None && s4.slot == None
    requires s5 == s4.(worker := Delivering(Item(Pending(Some(Summary(Some(r))), |s4.worker.snapshot|), s4.worker.at), FirstTry))
    requires s6 == s5.(worker := Finished, slot := Some(s5.worker.item)) && s7 == s6.(worker := Idle, flag := false)
    requires s8 == s7.(history := s7.history + [a], log := s7.log + [a])
    requires s9 == s8.(flag := true, worker := Running(s8.history, |s8.log|))
    ensures Enabled(s4, Produce(r)) && s5 == Next(s4, Produce(r)) && Enabled(s5, Try) && s6 == Next(s5, Try)
    ensures Enabled(s6, Clear) && s7 == Next(s6, Clear) && Enabled(s7, Append(a)) && s8 == Next(s7, Append(a))
    ensures Enabled(s8, Capture) && s9 == Next(s8, Capture)
  {
  }

  /** The first merge shortens the history by one; the second one cuts at the index of the longer one. */
  lemma {:induction false} LateMerge(threshold: int, text: string, first: string, second: string, question: string, answer: string)
    returns (states: seq<State>)
    requires 0 < threshold < |text| / 4
    ensures var steps := LastSteps(text, second, question, answer);
            Run(states, steps) && RealSummaries(threshold, states, steps)
    ensures states[0] == SecondSnapshot(text, first)
    ensures states[7].received == Some(Compacted(ShortSummary(text, 6, second), 14))
    ensures states[7].log == Talk(text, 6) + [UserMessage(question), AssistantMessage(answer, [])]
    ensures states[8].history == ShortSummary(text, 6, second) + [AssistantMessage(answer, [])]
  {
    TalkSummary(threshold, text, 6, second);
    var h, q, a := Talk(text, 6), UserMessage(question), AssistantMessage(answer, []);
    var r, late := ShortSummary(text, 5, first), ShortSummary(text, 6, second);
    hide Talk, ShortSummary, IsSummary, SummaryOf, Next, Enabled;
    var s0 := SecondSnapshot(text, first);
    var s1 := s0.(slot := None, received := s0.slot);
    var s2 := State(r + h[12..], None, true, s0.worker, None, h, r, 12, true);
    MergeOf(s1, s2);
    var s3 := s2.(history := r + h[12..] + [q], log := h + [q]);
    var s4 := s3.(history := r + h[12..] + [q] + [a], log := h + [q] + [a]);
    var s5 := s4.(worker := Delivering(Compacted(late, 14), FirstTry));
    var s6 := s5.(worker := Finished, slot := Some(Compacted(late, 14)));
    var s7 := s6.(slot := None, received := s6.slot);
    FirstHalf(s0, s1, s2, s3, s4, q, a);
    SecondHalf(s4, s5, s6, s7, late);
    assert s7.history[14..] == [a];
    MergeApplies(s7);
    states := [s0, s1, s2, s3, s4, s5, s6, s7, Next(s7, Reconcile)];
  }

  lemma FirstHalf(s0: State, s1: State, s2: State, s3: State, s4: State, q: Message, a: Message)
    requires s0.slot.Some? && s0.received == None && s1 == s0.(slot := None, received := s0.slot) && s2.received == None
    requires s3 == s2.(history := s2.history + [q], log := s2.log + [q])
    requires s4 == s3.(history := s3.history + [a], log := s3.log + [a])
    ensures Enabled(s0, Receive) && s1 == Next(s0, Receive) && Enabled(s1, Reconcile)
    ensures Enabled(s2, Append(q)) && s3 == Next(s2, Append(q)) && Enabled(s3, Append(a)) && s4 == Next(s3, Append(a))
  {
  }

  lemma SecondHalf(s4: State, s5: State, s6: State, s7: State, late: seq<Message>)
    requires s4.worker.Running? && |late| <= |s4.worker.snapshot| && s4.received == None && s4.slot == None
    requires s5 == s4.(worker := Delivering(Item(Pending(Some(Summary(Some(late))), |s4.worker.snapshot|), s4.worker.at), FirstTry))
    requires s6 == s5.(worker := Finished, slot := Some(s5.worker.item)) && s7 == s6.(slot := None, received := s6.slot)
    ensures Enabled(s4, Produce(late)) && s5 == Next(s4, Produce(late)) && Enabled(s5, Try) && s6 == Next(s5, Try)
    ensures Enabled(s6, Receive) && s7 == Next(s6, Receive) && Enabled(s7, Reconcile)
  {
  }

  lemma MergeOf(s: State, t: State)
    requires s.received.Some? && Applicable(s.history, s.received.value.pending) && s.exactSoFar
    requires var item := s.received.value;
             && item.at <= |s.log| && s.history[item.pending.snapshotLen..] == s.log[item.at..]
             && t == s.(history := Wanted(s, item), received := None, head := item.pending.result.value.remaining.value, headAt := item.at)
    ensures Enabled(s, Reconcile) && t == Next(s, Reconcile)
  {
  }

  lemma MergeApplies(s: State)
    requires s.received.Some? && Applicable(s.history, s.received.value.pending)
    ensures Enabled(s, Reconcile)
    ensures Next(s, Reconcile).history
         == s.received.value.pending.result.value.remaining.value + s.history[s.received.value.pending.snapshotLen..]
  {
  }

  /** The compare-and-swap flag alone is not enough: a run it allows, from five turns in the store,
      with whole turns and with results the summariser gives, in which a question is dropped. */
  lemma {:induction false} FlagAloneLosesAMessage(threshold: int, text: string, first: string, second: string, question: string, answer: string)
    returns (states: seq<State>, steps: seq<Step>)
    requires 0 < threshold < |text| / 4
    ensures Run(states, steps) && states[0] == Initial(Talk(text, 4)) && RealSummaries(threshold, states, steps)
    ensures steps == FirstSteps(text, first) + LastSteps(text, second, question, answer) && !SlotEmptyAtCapture(states, steps)
    ensures var item := Compacted(ShortSummary(text, 6, second), 14);
            && states[16].received == Some(item) && item.at <= |states[16].log|
            && Wanted(states[16], item) == ShortSummary(text, 6, second) + [UserMessage(question), AssistantMessage(answer, [])]
    ensures states[17].history == ShortSummary(text, 6, second) + [AssistantMessage(answer, [])]
  {
    hide Enabled, Next, Talk, ShortSummary, IsSummary;
    var before := SecondSnapshotTooEarly(threshold, text, first);
    var after := LateMerge(threshold, text, first, second, question, answer);
    var x, y := FirstSteps(text, first), LastSteps(text, second, question, answer);
    JoinRuns(before, x, after, y);
    JoinRealSummaries(threshold, before, x, after, y);
    states, steps := before + after[1..], x + y;
    assert steps[8] == x[8] && states[8] == before[8];
    assert states[16] == after[7] && states[17] == after[8];
  }

  lemma {:induction false} JoinRealSummaries(threshold: int, a: seq<State>, x: seq<Step>, b: seq<State>, y: seq<Step>)
    requires |a| == |x| + 1 && |b| == |y| + 1 && a[|a|-1] == b[0]
    requires RealSummaries(threshold, a, x) && RealSummaries(threshold, b, y)
    ensures RealSummaries(threshold, a + b[1..], x + y)
  {
    hide IsSummary;
    var states, steps := a + b[1..], x + y;
    forall i | 0 <= i < |steps| && steps[i].Produce?
      ensures states[i].worker.Running? && IsSummary(threshold, states[i].worker.snapshot, steps[i].remaining)
    {
      if i < |x| {
        assert states[i] == a[i] && steps[i] == x[i];
      } else {
        assert states[i] == b[i - |x|] && steps[i] == y[i - |x|];
      }
    }
  }

  // ----- The session's methods take these steps -----

  function PendingOf(item: Option<Item>): Option<Pending> {
    if item.Some? then Some(item.value.pending) else None
  }

  ghost predicate Represents(session: Session, s: State)
    reads session
  {
    && session.Valid() && session.channelMade
    && session.history == s.history && session.summarizing == s.flag && session.slot == PendingOf(s.slot)
  }

  method BeginTurn(session: Session, ghost s: State) returns (ghost t: State)
    requires Represents(session, s) && s.received == None
    modifies session
    ensures Represents(session, t)
    ensures t == if s.slot.Some? then Next(Next(s, Receive), Reconcile) else s
  {
    session.ApplyPendingSummary();
    t := if s.slot.Some? then Next(Next(s, Receive), Reconcile) else s;
  }

  method AppendInTurn(session: Session, m: Message, ghost s: State) returns (ghost t: State)
    requires Represents(session, s) && s.received == None
    modifies session
    ensures Represents(session, t) && t == Next(s, Append(m))
  {
    session.AppendMessage(m);
    t := Next(s, Append(m));
  }

  method EndTurn(session: Session, ghost s: State) returns (snapshot: Option<seq<Message>>, ghost t: State)
    requires Represents(session, s) && s.received == None
    modifies session
    ensures Represents(session, t)
    ensures t == if s.flag then s else Next(s, Capture)
    ensures snapshot.Some? <==> !s.flag
    ensures !s.flag ==> t.worker.Running? && snapshot == Some(t.worker.snapshot)
  {
    snapshot := session.StartSummarization();
    t := if s.flag then s else Next(s, Capture);
  }

  /** A delivery that no turn interrupts: the send, or drain and send. */
  method DeliverUndisturbed(session: Session, item: Item, ghost s: State) returns (ghost t: State)
    requires Represents(session, s) && s.worker == Delivering(item, FirstTry)
    modifies session
    ensures Represents(session, t)
    ensures t == if s.slot == None then Next(s, Try) else Next(Next(Next(s, Try), DrainSlot), Try)
    ensures t.slot == Some(item) && t.worker == Finished
  {
    session.Deliver(item.pending);
    t := if s.slot == None then Next(s, Try) else Next(Next(Next(s, Try), DrainSlot), Try);
  }

  /** The worker's last act: from then on the next turn may start another one. */
  method ClearFlag(session: Session, ghost s: State) returns (ghost t: State)
    requires Represents(session, s) && s.worker == Finished
    modifies session
    ensures Represents(session, t) && t == Next(s, Clear)
    ensures s.received == None ==> Enabled(t, Capture)
  {
    session.FinishWorker();
    t := Next(s, Clear);
  }

  /** The worker on its snapshot: what it produces is a result of the summariser, and never longer
      than the snapshot. */
  method Summarise(sm: Summarizer.Summarizer, reply: Option<string>, ghost s: State, snapshot: seq<Message>)
    returns (result: Option<Pending>, ghost t: State)
    requires s.worker.Running? && snapshot == s.worker.snapshot
    ensures result == None ==> t == Next(s, Fail)
    ensures result.Some? ==>
              && result.value.snapshotLen == |snapshot| && Summarised(Item(result.value, s.worker.at))
              && IsSummary(sm.thresholdTokens, snapshot, result.value.result.value.remaining.value)
              && Enabled(s, Produce(result.value.result.value.remaining.value))
              && t == Next(s, Produce(result.value.result.value.remaining.value))
              && t.worker == Delivering(Item(result.value, s.worker.at), FirstTry)
    ensures result == None && reply.Some? ==> !exists remaining :: IsSummary(sm.thresholdTokens, snapshot, remaining)
  {
    hide Summarizer.Tokens, Summarizer.UserTurns, Summarizer.IsSplit;
    var counts := Summarizer.ByteCount(snapshot);
    var made;
    ghost var split;
    made, split := sm.MaybeSummarize(snapshot, counts, reply);
    if made.Failure? || made.value == None {
      return None, Next(s, Fail);
    }
    ghost var remaining := made.value.value.remaining.value;
    assert SummaryOf(sm.thresholdTokens, snapshot, split, reply.value, remaining);
    t := Next(s, Produce(remaining));
    result := Some(Pending(Some(made.value.value), |snapshot|));
  }

  /** A whole turn with no delivery in between. The discipline can only be broken by a result that
      arrives during a turn: here none waits when the snapshot is taken. */
  method UndisturbedTurn(session: Session, said: seq<Message>, ghost s: State)
    returns (snapshot: Option<seq<Message>>, ghost states: seq<State>, ghost steps: seq<Step>)
    requires Represents(session, s) && s.received == None
    modifies session
    ensures Run(states, steps) && states[0] == s && Represents(session, states[|steps|])
    ensures SlotEmptyAtCapture(states, steps)
    ensures states[|steps|].log == s.log + said && states[|steps|].slot == None
    ensures snapshot.Some? <==> !s.flag
    ensures snapshot.Some? ==> states[|steps|].worker == Running(snapshot.value, |s.log + said|)
  {
    hide Enabled, Next, Represents;
    states, steps := [s], [];
    ghost var t := BeginTurn(session, s);
    if s.slot.Some? {
      Receives(s);
      states, steps := [s, Next(s, Receive), t], [Receive, Reconcile];
    } else {
      NoneWaits(s, t);
    }
    for i := 0 to |said|
      invariant Run(states, steps) && states[0] == s && t == states[|steps|] && Represents(session, t)
      invariant SlotEmptyAtCapture(states, steps) && t.slot == None && t.received == None && t.flag == s.flag
      invariant t.log == s.log + said[..i]
    {
      ghost var u := AppendInTurn(session, said[i], t);
      Appends(t, said[i]);
      states, steps := OneMoreStep(states, steps, Append(said[i]), u);
      t := u;
      assert said[..i] + [said[i]] == said[..i+1];
    }
    assert said[..|said|] == said;
    ghost var u;
    snapshot, u := EndTurn(session, t);
    if !t.flag {
      Captures(t);
      states, steps := OneMoreStep(states, steps, Capture, u);
    }
  }

  lemma Receives(s: State)
    requires s.received == None && s.slot.Some?
    ensures Enabled(s, Receive) && Enabled(Next(s, Receive), Reconcile)
    ensures var t := Next(Next(s, Receive), Reconcile); t.slot == None && t.received == None && t.flag == s.flag && t.log == s.log
  {
  }

  lemma NoneWaits(s: State, t: State)
    requires s.slot == None && t == s
    ensures t.slot == None && t.log == s.log + []
  {
  }

  lemma Appends(s: State, m: Message)
    requires s.received == None
    ensures Enabled(s, Append(m))
    ensures var t := Next(s, Append(m)); t.slot == s.slot && t.received == None && t.flag == s.flag && t.log == s.log + [m]
  {
  }

  lemma Captures(s: State)
    requires s.received == None && !s.flag
    ensures Enabled(s, Capture)
    ensures Next(s, Capture).slot == s.slot && Next(s, Capture).log == s.log && Next(s, Capture).worker == Running(s.history, |s.log|)
  {
  }

  lemma {:induction false} OneMoreStep(states: seq<State>, steps: seq<Step>, step: Step, t: State) returns (states': seq<State>, steps': seq<Step>)
    requires Run(states, steps) && SlotEmptyAtCapture(states, steps)
    requires Enabled(states[|steps|], step) && t == Next(states[|steps|], step) && (step == Capture ==> states[|steps|].slot == None)
    ensures Run(states', steps') && SlotEmptyAtCapture(states', steps')
    ensures states'[0] == states[0] && |steps'| == |steps| + 1 && states'[|steps'|] == t
  {
    states', steps' := states + [t], steps + [step];
  }
}
