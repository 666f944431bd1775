/** Memory and store: what a session's history has to do with the rows of its conversation, over
    turns that fail anywhere, summaries that arrive at any moment, and restarts
    (internal/engine/engine.go:158-523, internal/engine/persistence.go:43-97). */
module Agreement {
  import opened Wrappers
  import opened Faults
  import opened Messages
  import opened Session
  import opened SessionManager
  import opened Engine

  /** A remembered message and its row: as it was written, or as it was loaded. */
  predicate Kept(c: Codec, m: Message, row: Message) {
    row == m || row == Stored(c, m)
  }

  /** The history, summaries aside, is a subsequence of the rows. */
  predicate Within(c: Codec, history: seq<Message>, rows: seq<Message>)
    decreases |history| + |rows|
  {
    if |history| == 0 then true
    else
      var m := history[|history|-1];
      || (m.role == "system" && Within(c, history[..|history|-1], rows))
      || (|rows| > 0 && Kept(c, m, rows[|rows|-1]) && Within(c, history[..|history|-1], rows[..|rows|-1]))
      || (|rows| > 0 && Within(c, history, rows[..|rows|-1]))
  }

  /** The history is the rows. */
  predicate Same(c: Codec, history: seq<Message>, rows: seq<Message>) {
    |history| == |rows| && forall i :: 0 <= i < |rows| ==> Kept(c, history[i], rows[i])
  }

  lemma {:induction false} MoreRows(c: Codec, history: seq<Message>, rows: seq<Message>, more: seq<Message>)
    requires Within(c, history, rows)
    ensures Within(c, history, rows + more)
  {
    if |more| == 0 {
      assert rows + more == rows;
    } else {
      MoreRows(c, history, rows, more[..|more|-1]);
      assert (rows + more)[..|rows + more|-1] == rows + more[..|more|-1];
    }
  }

  lemma {:induction false} Joined(c: Codec, a: seq<Message>, x: seq<Message>, b: seq<Message>, y: seq<Message>)
    requires Within(c, a, x) && Within(c, b, y)
    ensures Within(c, a + b, x + y)
    decreases |b| + |y|
  {
    if |b| == 0 {
      assert a + b == a;
      MoreRows(c, a, x, y);
    } else {
      var m, b' := b[|b|-1], b[..|b|-1];
      assert (a + b)[..|a + b|-1] == a + b';
      if m.role == "system" && Within(c, b', y) {
        Joined(c, a, x, b', y);
      } else {
        var y' := y[..|y|-1];
        assert (x + y)[..|x + y|-1] == x + y';
        if Kept(c, m, y[|y|-1]) && Within(c, b', y') {
          Joined(c, a, x, b', y');
        } else {
          Joined(c, a, x, b, y');
        }
      }
    }
  }

  lemma {:induction false} Suffix(c: Codec, history: seq<Message>, rows: seq<Message>, k: nat)
    requires Within(c, history, rows) && k <= |history|
    ensures Within(c, history[k..], rows)
    decreases |history| + |rows|
  {
    if k < |history| {
      var m, front := history[|history|-1], history[..|history|-1];
      assert history[k..][|history[k..]|-1] == m && history[k..][..|history[k..]|-1] == front[k..];
      if m.role == "system" && Within(c, front, rows) {
        Suffix(c, front, rows, k);
      } else if |rows| > 0 && Kept(c, m, rows[|rows|-1]) && Within(c, front, rows[..|rows|-1]) {
        Suffix(c, front, rows[..|rows|-1], k);
      } else {
        Suffix(c, history, rows[..|rows|-1], k);
      }
    }
  }

  lemma {:induction false} OneMore(c: Codec, m: Message)
    ensures Within(c, [m], [Stored(c, m)]) && Within(c, [m], [m])
    ensures m.role == "system" ==> Within(c, [m], [])
  {
    assert [m][..0] == [];
  }

  // ----- The protocol -----

  /** A summary of the first `split` messages of a snapshot, taken when the conversation had
      `at` rows. */
  datatype Item = Item(snapshot: seq<Message>, at: nat, split: nat, summary: string)

  datatype Snapshot = Snapshot(messages: seq<Message>, at: nat)

  datatype State = State(history: seq<Message>, rows: seq<Message>, slot: Option<Item>, worker: Option<Snapshot>, inTurn: bool)

  /** What becomes of one message: written and appended, written although the call failed, or
      neither. */
  datatype Write = Both | RowOnly | Neither

  datatype Step =
    | Begin                                  // of a turn: a waiting summary is merged
    | Persist(m: Message, write: Write)
    | End(capture: bool)                     // of a turn; a successful one takes a snapshot
    | Deliver(split: nat, summary: string)   // by the worker, over a result still waiting
    | Drain                                  // the worker empties the slot
    | GiveUp                                 // the worker failed, or had nothing to summarise
    | Restart                                // the session is loaded from the store again

  function PendingOf(i: Item): Pending
    requires i.split <= |i.snapshot|
  {
    Pending(Some(Summary(Some([SystemMessage(i.summary)] + i.snapshot[i.split..]))), |i.snapshot|)
  }

  predicate Enabled(s: State, step: Step) {
    match step
    case Begin => !s.inTurn && (s.slot.Some? ==> s.slot.value.split <= |s.slot.value.snapshot|)
    case Persist(_, _) => s.inTurn
    case End(_) => s.inTurn
    case Deliver(split, _) => s.worker.Some? && 0 < split <= |s.worker.value.messages|
    case Drain => s.worker.Some?
    case GiveUp => s.worker.Some?
    case Restart => !s.inTurn
  }

  function Next(c: Codec, s: State, step: Step): State
    requires Enabled(s, step)
  {
    match step
    case Begin =>
      s.(history := if s.slot.Some? then Splice(s.history, PendingOf(s.slot.value)) else s.history, slot := None, inTurn := true)
    case Persist(m, write) =>
      s.(history := if write.Both? then s.history + [m] else s.history,
         rows := if write.Neither? then s.rows else s.rows + [Stored(c, m)])
    case End(capture) =>
      s.(inTurn := false, worker := if capture && s.worker == None then Some(Snapshot(s.history, |s.rows|)) else s.worker)
    case Deliver(split, summary) =>
      s.(slot := Some(Item(s.worker.value.messages, s.worker.value.at, split, summary)), worker := None)
    case Drain => s.(slot := None)
    case GiveUp => s.(worker := None)
    case Restart => State(s.rows, s.rows, None, None, false)
  }

  /** A snapshot agrees with the rows of its time, and what was appended since with the rows since. */
  predicate Consistent(c: Codec, s: State, snapshot: seq<Message>, at: nat) {
    && at <= |s.rows| && Within(c, snapshot, s.rows[..at])
    && (|snapshot| <= |s.history| ==> Within(c, s.history[|snapshot|..], s.rows[at..]))
  }

  predicate Invariant(c: Codec, s: State) {
    && Within(c, s.history, s.rows)
    && (s.slot.Some? ==> 0 < s.slot.value.split <= |s.slot.value.snapshot| && Consistent(c, s, s.slot.value.snapshot, s.slot.value.at))
    && (s.worker.Some? ==> Consistent(c, s, s.worker.value.messages, s.worker.value.at))
    // a snapshot taken while a result waits: until the next turn nothing is appended
    && (s.slot.Some? && s.worker.Some? ==> !s.inTurn && |s.history| == |s.worker.value.messages|)
  }

  /** Merging a summary: the part it replaces was in the rows up to its snapshot, the rest after. */
  lemma {:induction false} MergeStaysWithin(c: Codec, s: State)
    requires Invariant(c, s) && s.slot.Some?
    ensures Within(c, Splice(s.history, PendingOf(s.slot.value)), s.rows)
    ensures |Splice(s.history, PendingOf(s.slot.value))| <= |s.history|
  {
    var i := s.slot.value;
    if |i.snapshot| <= |s.history| {
      var rest := s.history[|i.snapshot|..];
      Suffix(c, i.snapshot, s.rows[..i.at], i.split);
      OneMore(c, SystemMessage(i.summary));
      Joined(c, [SystemMessage(i.summary)], [], i.snapshot[i.split..], s.rows[..i.at]);
      assert [] + s.rows[..i.at] == s.rows[..i.at];
      Joined(c, [SystemMessage(i.summary)] + i.snapshot[i.split..], s.rows[..i.at], rest, s.rows[i.at..]);
      assert s.rows[..i.at] + s.rows[i.at..] == s.rows;
    }
  }

  /** A snapshot stays consistent when the history grows or shrinks at its end of the log. */
  lemma {:induction false} AppendKeepsConsistent(c: Codec, s: State, m: Message, write: Write, snapshot: seq<Message>, at: nat)
    requires s.inTurn && Consistent(c, s, snapshot, at)
    ensures Consistent(c, Next(c, s, Persist(m, write)), snapshot, at)
  {
    var t := Next(c, s, Persist(m, write));
    hide Within;
    assert t.rows[..at] == s.rows[..at];
    if |snapshot| > |s.history| {
      NothingWithin(c, t.rows[at..]);
    } else if write.Both? {
      OneMore(c, m);
      Joined(c, s.history[|snapshot|..], s.rows[at..], [m], [Stored(c, m)]);
      assert t.history[|snapshot|..] == s.history[|snapshot|..] + [m] && t.rows[at..] == s.rows[at..] + [Stored(c, m)];
    } else if write.RowOnly? {
      MoreRows(c, s.history[|snapshot|..], s.rows[at..], [Stored(c, m)]);
      assert t.rows[at..] == s.rows[at..] + [Stored(c, m)];
    }
  }

  lemma NothingWithin(c: Codec, rows: seq<Message>)
    ensures Within(c, [], rows)
  {
  }

  lemma {:induction false} RowsWithinThemselves(c: Codec, rows: seq<Message>)
    ensures Within(c, rows, rows)
  {
    if |rows| > 0 {
      RowsWithinThemselves(c, rows[..|rows|-1]);
    }
  }

  lemma {:induction false} BeginKeeps(c: Codec, s: State)
    requires Invariant(c, s) && Enabled(s, Begin)
    ensures Invariant(c, Next(c, s, Begin))
  {
    var t := Next(c, s, Begin);
    hide Within, Splice;
    if s.slot.Some? {
      MergeStaysWithin(c, s);
      if s.worker.Some? {
        NothingWithin(c, s.rows[s.worker.value.at..]);
        if |t.history| == |s.worker.value.messages| {
          assert t.history[|s.worker.value.messages|..] == [];
        }
      }
    }
  }

  lemma {:induction false} PersistKeeps(c: Codec, s: State, m: Message, write: Write)
    requires Invariant(c, s) && Enabled(s, Persist(m, write))
    ensures Invariant(c, Next(c, s, Persist(m, write)))
  {
    hide Within, Consistent;
    if write.Both? {
      OneMore(c, m);
      Joined(c, s.history, s.rows, [m], [Stored(c, m)]);
    } else if write.RowOnly? {
      MoreRows(c, s.history, s.rows, [Stored(c, m)]);
    }
    if s.slot.Some? {
      AppendKeepsConsistent(c, s, m, write, s.slot.value.snapshot, s.slot.value.at);
    }
    if s.worker.Some? {
      AppendKeepsConsistent(c, s, m, write, s.worker.value.messages, s.worker.value.at);
    }
  }

  lemma {:induction false} SnapshotConsistent(c: Codec, s: State)
    requires Within(c, s.history, s.rows)
    ensures Consistent(c, s, s.history, |s.rows|)
  {
    assert s.rows[..|s.rows|] == s.rows && s.history[|s.history|..] == [];
    NothingWithin(c, s.rows[|s.rows|..]);
  }

  lemma {:induction false} StepKeepsInvariant(c: Codec, s: State, step: Step)
    requires Invariant(c, s) && Enabled(s, step)
    ensures Invariant(c, Next(c, s, step))
  {
    hide Within;
    match step
    case Begin => BeginKeeps(c, s);
    case Persist(m, write) => PersistKeeps(c, s, m, write);
    case End(capture) => SnapshotConsistent(c, s);
    case Restart => RowsWithinThemselves(c, s.rows);
    case _ =>
  }

  predicate Run(c: Codec, states: seq<State>, steps: seq<Step>) {
    |states| == |steps| + 1 &&
    forall i :: 0 <= i < |steps| ==> Enabled(states[i], steps[i]) && states[i+1] == Next(c, states[i], steps[i])
  }

  /** In every run, from a session just loaded: the history, summaries aside, is a subsequence of
      the rows, in order. */
  lemma {:induction false} HistoryStaysWithinRows(c: Codec, states: seq<State>, steps: seq<Step>, i: nat)
    requires Run(c, states, steps) && states[0] == State(states[0].rows, states[0].rows, None, None, false) && i <= |steps|
    ensures Invariant(c, states[i]) && Within(c, states[i].history, states[i].rows)
  {
    hide Within, Consistent, Enabled, Next;
    if i == 0 {
      RowsWithinThemselves(c, states[0].rows);
    } else {
      HistoryStaysWithinRows(c, states, steps, i - 1);
      assert Enabled(states[i-1], steps[i-1]) && states[i] == Next(c, states[i-1], steps[i-1]);
      StepKeepsInvariant(c, states[i-1], steps[i-1]);
    }
  }

  /** A step of a session whose hook is all-or-nothing and that applies no summary. */
  predicate Plain(s: State, step: Step) {
    (step.Persist? ==> step.write != RowOnly) && (step == Begin ==> s.slot == None)
  }

  lemma PlainStep(c: Codec, s: State, step: Step)
    requires Same(c, s.history, s.rows) && Enabled(s, step) && Plain(s, step)
    ensures Same(c, Next(c, s, step).history, Next(c, s, step).rows)
  {
  }

  /** A row was written by a call that then failed, and the session has not been loaded since. */
  predicate OrphanSinceLoad(steps: seq<Step>, i: nat)
    requires i <= |steps|
  {
    exists k :: 0 <= k < i && OrphanAt(steps, k, i)
  }

  predicate OrphanAt(steps: seq<Step>, k: nat, i: nat)
    requires k < i <= |steps|
  {
    Orphan(steps[k]) && forall j :: k < j < i ==> steps[j] != Restart
  }

  predicate Orphan(step: Step) {
    step.Persist? && step.write == RowOnly
  }

  predicate NoSummaryMerged(states: seq<State>, steps: seq<Step>, i: nat)
    requires |states| == |steps| + 1 && i <= |steps|
  {
    forall k :: 0 <= k < i && steps[k] == Begin ==> states[k].slot == None
  }

  lemma {:induction false} OrphanOneStepLater(steps: seq<Step>, i: nat)
    requires 0 < i <= |steps|
    ensures OrphanSinceLoad(steps, i) <==> Orphan(steps[i-1]) || (steps[i-1] != Restart && OrphanSinceLoad(steps, i - 1))
  {
    if OrphanSinceLoad(steps, i) {
      var k :| 0 <= k < i && OrphanAt(steps, k, i);
      if k < i - 1 {
        assert OrphanAt(steps, k, i - 1);
      }
    }
    if steps[i-1] != Restart && OrphanSinceLoad(steps, i - 1) {
      var k :| 0 <= k < i - 1 && OrphanAt(steps, k, i - 1);
      assert OrphanAt(steps, k, i);
    }
    if Orphan(steps[i-1]) {
      assert OrphanAt(steps, i - 1, i);
    }
  }

  lemma AheadStep(c: Codec, s: State, step: Step)
    requires |s.history| < |s.rows| && Enabled(s, step) && step != Restart && (step == Begin ==> s.slot == None)
    ensures |Next(c, s, step).history| < |Next(c, s, step).rows|
  {
  }

  lemma OrphanStep(c: Codec, s: State, step: Step)
    requires |s.history| <= |s.rows| && Enabled(s, step) && Orphan(step)
    ensures |Next(c, s, step).history| < |Next(c, s, step).rows|
  {
  }

  lemma LoadedAgain(c: Codec, s: State)
    requires Enabled(s, Restart)
    ensures Same(c, Next(c, s, Restart).history, Next(c, s, Restart).rows)
  {
  }

  /** At every moment of every run in which no summary is merged: the history is the rows, all of
      them, if and only if no row was left by a failed call since the session was last loaded.
      Otherwise the store is ahead. */
  lemma {:induction false} HistoryIsRowsIff(c: Codec, states: seq<State>, steps: seq<Step>, i: nat)
    requires Run(c, states, steps) && states[0] == State(states[0].rows, states[0].rows, None, None, false) && i <= |steps|
    requires NoSummaryMerged(states, steps, i)
    ensures Same(c, states[i].history, states[i].rows) <==> !OrphanSinceLoad(steps, i)
    ensures OrphanSinceLoad(steps, i) ==> |states[i].history| < |states[i].rows|
  {
    hide Enabled, Next;
    if i > 0 {
      HistoryIsRowsIff(c, states, steps, i - 1);
      var s, step := states[i-1], steps[i-1];
      assert Enabled(s, step) && states[i] == Next(c, s, step);
      OrphanOneStepLater(steps, i);
      hide OrphanSinceLoad;
      if step == Restart {
        LoadedAgain(c, s);
      } else if Orphan(step) {
        OrphanStep(c, s, step);
      } else if OrphanSinceLoad(steps, i - 1) {
        AheadStep(c, s, step);
      } else {
        PlainStep(c, s, step);
      }
    }
  }

  // ----- The engine's turns take these steps -----

  /** The messages said in a turn, each written and appended. */
  function Said(c: Codec, s: State, said: seq<Message>): State
    requires s.inTurn
    ensures Said(c, s, said).inTurn
  {
    if |said| == 0 then s else Next(c, Said(c, s, said[..|said|-1]), Persist(said[|said|-1], Both))
  }

  /** A whole turn that nothing interrupts. */
  function Turn(c: Codec, s: State, said: seq<Message>, orphan: Option<Message>, capture: bool): State
    requires Enabled(s, Begin)
  {
    var spoken := Said(c, Next(c, s, Begin), said);
    Next(c, if orphan.Some? then Next(c, spoken, Persist(orphan.value, RowOnly)) else spoken, End(capture))
  }

  lemma {:induction false} SaidEffect(c: Codec, s: State, said: seq<Message>)
    requires s.inTurn
    ensures Said(c, s, said) == s.(history := s.history + said, rows := s.rows + AllStored(c, said))
    ensures Invariant(c, s) ==> Invariant(c, Said(c, s, said))
  {
    if |said| == 0 {
      assert s.history + said == s.history && s.rows + [] == s.rows;
    } else {
      var front, m := said[..|said|-1], said[|said|-1];
      SaidEffect(c, s, front);
      assert s.history + said == s.history + front + [m];
      assert s.rows + AllStored(c, said) == s.rows + AllStored(c, front) + [Stored(c, m)];
      if Invariant(c, s) {
        StepKeepsInvariant(c, Said(c, s, front), Persist(m, Both));
      }
    }
  }

  lemma {:induction false} TurnKeepsInvariant(c: Codec, s: State, said: seq<Message>, orphan: Option<Message>, capture: bool)
    requires Invariant(c, s) && Enabled(s, Begin)
    ensures Invariant(c, Turn(c, s, said, orphan, capture))
  {
    hide Invariant;
    StepKeepsInvariant(c, s, Begin);
    SaidEffect(c, Next(c, s, Begin), said);
    var spoken := Said(c, Next(c, s, Begin), said);
    if orphan.Some? {
      StepKeepsInvariant(c, spoken, Persist(orphan.value, RowOnly));
      StepKeepsInvariant(c, Next(c, spoken, Persist(orphan.value, RowOnly)), End(capture));
    } else {
      StepKeepsInvariant(c, spoken, End(capture));
    }
  }

  ghost predicate Represents(engine: Engine, session: Session, s: State)
    reads session, engine.persistence, engine.persistence.store
  {
    && engine.Ready(session) && engine.persistence.store != null && !s.inTurn && Enabled(s, Begin)
    && session.history == s.history && (session.summarizing <==> s.worker.Some?)
    && session.slot == (if s.slot.Some? then Some(PendingOf(s.slot.value)) else None)
    && Conversation(engine.persistence.store.rows, session.conversationId) == s.rows
  }

  /** Send is such a turn: whatever the provider, the tools and the store do. */
  method SendIsATurn(engine: Engine, session: Session, text: string, env: Environment, faults: FaultPlan, ghost s: State)
    returns (ghost t: State)
    requires Represents(engine, session, s) && Invariant(engine.persistence.store.codec, s)
    modifies session, engine.persistence`known, engine.persistence.store, env, faults
    ensures Represents(engine, session, t) && Invariant(engine.persistence.store.codec, t)
    ensures Within(engine.persistence.store.codec, session.history, Conversation(engine.persistence.store.rows, session.conversationId))
    ensures exists said, orphan, capture :: t == Turn(engine.persistence.store.codec, s, said, orphan, capture)
  {
    hide Within, Consistent, Wrote, Splice, Invariant, Turn, Next, Conversation, Appeared;
    ghost var before, c := engine.persistence.store.rows, engine.persistence.store.codec;
    var outcome, snapshot;
    ghost var start, said, orphan;
    outcome, snapshot, start, said, orphan := engine.Send(session, text, env, faults);
    WroteConversation(before, engine.persistence.store.rows, c, session.conversationId, said, orphan, session.conversationId);
    t := Turn(c, s, said, orphan, outcome.Success?);
    TurnEffect(c, s, said, orphan, outcome.Success?);
    TurnKeepsInvariant(c, s, said, orphan, outcome.Success?);
    InvariantMeansWithin(c, t);
  }

  /** Closing the session of a conversation and opening it again is a restart: whatever the old
      session had lost or was still waiting for, the new one starts with the rows. */
  method ReopenIsARestart(engine: Engine, session: Session, channel: string, faults: FaultPlan, ghost s: State)
    returns (reopened: Result<Session, ()>, ghost t: State)
    requires Represents(engine, session, s)
    modifies engine.persistence, faults
    ensures t == Next(engine.persistence.store.codec, s, Restart) && Same(engine.persistence.store.codec, t.history, t.rows)
    ensures reopened.Success? ==> fresh(reopened.value) && Represents(engine, reopened.value, t)
    ensures reopened.Success? ==> Invariant(engine.persistence.store.codec, t)
    ensures faults.reliable ==> reopened.Success?
    ensures forall key :: key in old(engine.persistence.sessions) && key != SessionKey(channel, session.conversationId) ==>
              key in engine.persistence.sessions && engine.persistence.sessions[key] == old(engine.persistence.sessions)[key]
  {
    ghost var c := engine.persistence.store.codec;
    hide Within, Consistent, Splice, Conversation;
    var key := SessionKey(channel, session.conversationId);
    engine.persistence.Remove(key);
    reopened := engine.persistence.GetOrCreate(key, faults);
    t := Next(c, s, Restart);
    RowsWithinThemselves(c, s.rows);
  }

  lemma InvariantMeansWithin(c: Codec, s: State)
    requires Invariant(c, s)
    ensures Within(c, s.history, s.rows)
  {
  }

  lemma {:induction false} TurnEffect(c: Codec, s: State, said: seq<Message>, orphan: Option<Message>, capture: bool)
    requires Enabled(s, Begin)
    ensures var t := Turn(c, s, said, orphan, capture);
            && t.history == (if s.slot.Some? then Splice(s.history, PendingOf(s.slot.value)) else s.history) + said
            && t.rows == s.rows + Appeared(c, said, orphan)
            && t.slot == None && !t.inTurn && (t.worker.Some? <==> s.worker.Some? || capture)
  {
    hide Splice, AllStored;
    SaidEffect(c, Next(c, s, Begin), said);
    assert s.rows + AllStored(c, said) + [] == s.rows + AllStored(c, said);
  }
}
