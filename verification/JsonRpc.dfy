/** internal/mcp/client.go: requests and responses matched by id (section 5 of the JSON-RPC 2.0
    specification), with any number of calls and the receive loop interleaved. */
module JsonRpc {
  import opened Wrappers

  /** error is the message of the error, quoted as %q does. */
  datatype Response = Response(id: Option<nat>, result: string, error: Option<string>)

  /** What the caller is sent: the result, or the message of the error. */
  function Payload(r: Response): string {
    if r.error.Some? then "{\"error\":" + r.error.value + "}" else r.result
  }

  /** A channel with room for one payload. */
  datatype Channel = Channel(buffer: Option<string>, closed: bool)

  /** What the mutex protects, and the channels. The channel of a call is named by its id. */
  datatype Table = Table(nextId: nat, pending: set<nat>, channels: map<nat, Channel>)

  datatype Outcome = Answer(payload: string) | SendError | Cancelled | ConnectionClosed

  datatype Stage = Numbered | Registered | Waiting | Leaving(outcome: Outcome) | Returned(outcome: Outcome)

  datatype Loop = Reading | Holding(id: nat, payload: string) | Stopped

  /** received is every response that carried an id, in order. */
  datatype State = State(table: Table, calls: map<nat, Stage>, loop: Loop, received: seq<Response>)

  datatype Step =
    | Number                     // the id of a new call
    | Register(id: nat)
    | Sent(id: nat, ok: bool)
    | Cancel(id: nat)            // the caller's context ends
    | TakeAnswer(id: nat)
    | TakeClosed(id: nat)
    | Forget(id: nat)            // the deferred delete
    | Receive(r: Response)       // a message, looked up under the lock
    | Deliver                    // sent on the channel found, without the lock
    | ReceiveError               // every pending channel closed, the loop ends

  function Initial(): State {
    State(Table(0, {}, map[]), map[], Reading, [])
  }

  predicate At(s: State, id: nat, stage: Stage) {
    id in s.calls && s.calls[id] == stage
  }

  predicate Enabled(s: State, step: Step) {
    match step
    case Number => true
    case Register(id) => At(s, id, Numbered)
    case Sent(id, _) => At(s, id, Registered)
    case Cancel(id) => At(s, id, Waiting)
    case TakeAnswer(id) => At(s, id, Waiting) && id in s.table.channels && s.table.channels[id].buffer.Some?
    case TakeClosed(id) =>
      At(s, id, Waiting) && id in s.table.channels && s.table.channels[id] == Channel(None, true)
    case Forget(id) => id in s.calls && s.calls[id].Leaving?
    case Receive(_) => s.loop == Reading
    case Deliver => s.loop.Holding? && CanSend(s.table, s.loop.id)
    case ReceiveError => s.loop == Reading
  }

  /** A send on a full channel waits; a send on a closed one would panic. */
  predicate CanSend(t: Table, id: nat) {
    id in t.channels && t.channels[id].buffer == None
  }

  function SetBuffer(t: Table, id: nat, buffer: Option<string>): Table
    requires id in t.channels
  {
    t.(channels := t.channels[id := t.channels[id].(buffer := buffer)])
  }

  /** The channels of the pending calls, closed; the table, empty. */
  function Drained(t: Table): Table {
    t.(pending := {},
       channels := map id | id in t.channels :: if id in t.pending then t.channels[id].(closed := true) else t.channels[id])
  }

  function Next(s: State, step: Step): State
    requires Enabled(s, step)
  {
    match step
    case Number => s.(table := s.table.(nextId := s.table.nextId + 1), calls := s.calls[s.table.nextId + 1 := Numbered])
    case Register(id) =>
      s.(table := s.table.(pending := s.table.pending + {id}, channels := s.table.channels[id := Channel(None, false)]),
         calls := s.calls[id := Registered])
    case Sent(id, ok) => s.(calls := s.calls[id := if ok then Waiting else Leaving(SendError)])
    case Cancel(id) => s.(calls := s.calls[id := Leaving(Cancelled)])
    case TakeAnswer(id) =>
      s.(table := SetBuffer(s.table, id, None), calls := s.calls[id := Leaving(Answer(s.table.channels[id].buffer.value))])
    case TakeClosed(id) => s.(calls := s.calls[id := Leaving(ConnectionClosed)])
    case Forget(id) =>
      s.(table := s.table.(pending := s.table.pending - {id}), calls := s.calls[id := Returned(s.calls[id].outcome)])
    case Receive(r) =>
      if r.id == None then s   // a notification
      else if r.id.value !in s.table.pending then s.(received := s.received + [r])   // "unexpected response ID"
      else s.(received := s.received + [r], loop := Holding(r.id.value, Payload(r)))
    case Deliver => s.(table := SetBuffer(s.table, s.loop.id, Some(s.loop.payload)), loop := Reading)
    case ReceiveError => s.(table := Drained(s.table), loop := Stopped)
  }

  // ----- What every step keeps -----

  predicate ReceivedUnder(s: State, id: nat, payload: string) {
    exists k :: 0 <= k < |s.received| && s.received[k].id == Some(id) && Payload(s.received[k]) == payload
  }

  predicate OwnAnswer(s: State, id: nat) {
    && (id in s.table.channels && s.table.channels[id].buffer.Some? ==> ReceivedUnder(s, id, s.table.channels[id].buffer.value))
    && (id in s.calls && (s.calls[id].Leaving? || s.calls[id].Returned?) && s.calls[id].outcome.Answer? ==>
          ReceivedUnder(s, id, s.calls[id].outcome.payload))
  }

  predicate Wired(s: State, id: nat) {
    && (id in s.calls ==> id <= s.table.nextId)
    && (id in s.table.channels <==> id in s.calls && s.calls[id] != Numbered)
    && (id in s.table.pending ==> id in s.table.channels && !s.calls[id].Returned?)
    && (id in s.table.channels && s.table.channels[id].closed ==> s.loop == Stopped && id !in s.table.pending)
  }

  ghost predicate Invariant(s: State) {
    && (forall id :: OwnAnswer(s, id) && Wired(s, id))
    && (s.loop.Holding? ==> s.loop.id in s.table.channels && ReceivedUnder(s, s.loop.id, s.loop.payload))
  }

  lemma {:induction false} StillReceived(s: State, t: State, id: nat, payload: string)
    requires s.received <= t.received && ReceivedUnder(s, id, payload)
    ensures ReceivedUnder(t, id, payload)
  {
    var k :| 0 <= k < |s.received| && s.received[k].id == Some(id) && Payload(s.received[k]) == payload;
    assert t.received[k] == s.received[k];
  }

  lemma {:induction false} StepKeepsWiring(s: State, step: Step, id: nat)
    requires Invariant(s) && Enabled(s, step)
    ensures Wired(Next(s, step), id)
  {
    assert Wired(s, id);
    hide OwnAnswer, Payload;
  }

  lemma {:induction false} StepKeepsAnswers(s: State, step: Step, id: nat)
    requires Invariant(s) && Enabled(s, step)
    ensures OwnAnswer(Next(s, step), id)
  {
    hide ReceivedUnder, Payload;
    assert OwnAnswer(s, id) && Wired(s, id);
    var t := Next(s, step);
    if id in s.table.channels && s.table.channels[id].buffer.Some? {
      StillReceived(s, t, id, s.table.channels[id].buffer.value);
    }
    if id in s.calls && (s.calls[id].Leaving? || s.calls[id].Returned?) && s.calls[id].outcome.Answer? {
      StillReceived(s, t, id, s.calls[id].outcome.payload);
    }
    if step == Deliver && id == s.loop.id {
      StillReceived(s, t, id, s.loop.payload);
    }
  }

  lemma {:induction false} StepKeepsInvariant(s: State, step: Step)
    requires Invariant(s) && Enabled(s, step)
    ensures Invariant(Next(s, step))
  {
    var t := Next(s, step);
    hide OwnAnswer, Payload, Wired;
    forall id ensures OwnAnswer(t, id) && Wired(t, id) {
      StepKeepsWiring(s, step, id);
      StepKeepsAnswers(s, step, id);
    }
    if t.loop.Holding? {
      HeldWasReceived(s, step);
    }
  }

  lemma {:induction false} HeldWasReceived(s: State, step: Step)
    requires Invariant(s) && Enabled(s, step) && Next(s, step).loop.Holding?
    ensures var t := Next(s, step); t.loop.id in t.table.channels && ReceivedUnder(t, t.loop.id, t.loop.payload)
  {
    var t := Next(s, step);
    assert Wired(s, t.loop.id);
    if step.Receive? {
      assert t.received[|t.received|-1] == step.r;
    } else {
      StillReceived(s, t, s.loop.id, s.loop.payload);
    }
  }

  // ----- Over whole runs -----

  predicate Run(states: seq<State>, steps: seq<Step>) {
    |states| == |steps| + 1 &&
    forall i :: 0 <= i < |steps| ==> Enabled(states[i], steps[i]) && states[i+1] == Next(states[i], steps[i])
  }

  lemma {:induction false} RunKeepsInvariant(states: seq<State>, steps: seq<Step>, i: nat)
    requires Run(states, steps) && states[0] == Initial() && i <= |steps|
    ensures Invariant(states[i])
  {
    hide Enabled, Next, Invariant;
    if i == 0 {
      InitialInvariant();
    } else {
      RunKeepsInvariant(states, steps, i - 1);
      assert Enabled(states[i-1], steps[i-1]) && states[i] == Next(states[i-1], steps[i-1]);
      StepKeepsInvariant(states[i-1], steps[i-1]);
    }
  }

  lemma InitialInvariant()
    ensures Invariant(Initial())
  {
  }

  /** A call that returns an answer returns a payload received under its own id. */
  lemma {:induction false} AnswersAreOwn(states: seq<State>, steps: seq<Step>, i: nat, id: nat, payload: string)
    requires Run(states, steps) && states[0] == Initial() && i <= |steps| && At(states[i], id, Returned(Answer(payload)))
    ensures ReceivedUnder(states[i], id, payload)
  {
    RunKeepsInvariant(states, steps, i);
    assert OwnAnswer(states[i], id);
  }

  /** The loop never sends on a closed channel and never closes one twice. */
  lemma {:induction false} NoSendAfterClose(states: seq<State>, steps: seq<Step>, i: nat)
    requires Run(states, steps) && states[0] == Initial() && i <= |steps|
    ensures states[i].loop.Holding? ==> states[i].loop.id in states[i].table.channels && !states[i].table.channels[states[i].loop.id].closed
    ensures forall id :: id in states[i].table.pending ==> id in states[i].table.channels && !states[i].table.channels[id].closed
  {
    RunKeepsInvariant(states, steps, i);
    var s := states[i];
    assert s.loop.Holding? ==> Wired(s, s.loop.id);
    forall id | id in s.table.pending ensures id in s.table.channels && !s.table.channels[id].closed {
      assert Wired(s, id);
    }
  }

  /** A response under an id that is not pending changes no call and no channel. */
  lemma UnknownIdChangesNothing(s: State, r: Response)
    requires Enabled(s, Receive(r)) && (r.id.Some? ==> r.id.value !in s.table.pending)
    ensures Next(s, Receive(r)).table == s.table && Next(s, Receive(r)).calls == s.calls && Next(s, Receive(r)).loop == Reading
  {
  }

  /** The call can go on: there is something to take, or the channel is closed. */
  predicate Released(s: State, id: nat) {
    id in s.table.channels && s.table.channels[id].closed
  }

  lemma {:induction false} ReleasedStays(s: State, step: Step, id: nat)
    requires Invariant(s) && Enabled(s, step) && Released(s, id)
    ensures Released(Next(s, step), id)
  {
    assert Wired(s, id);
  }

  /** A receive error releases every call then pending: from that moment on, a call among them that
      waits can take its answer or the closing of its channel, whatever else happens. */
  lemma {:induction false} ReceiveErrorReleases(states: seq<State>, steps: seq<Step>, i: nat, j: nat, id: nat)
    requires Run(states, steps) && states[0] == Initial() && i < j <= |steps|
    requires steps[i] == ReceiveError && id in states[i].table.pending
    ensures Released(states[j], id)
    ensures At(states[j], id, Waiting) ==> Enabled(states[j], TakeAnswer(id)) || Enabled(states[j], TakeClosed(id))
    decreases j
  {
    RunKeepsInvariant(states, steps, i);
    RunKeepsInvariant(states, steps, j - 1);
    assert Enabled(states[j-1], steps[j-1]) && states[j] == Next(states[j-1], steps[j-1]);
    if j == i + 1 {
      assert Wired(states[i], id);
    } else {
      ReceiveErrorReleases(states, steps, i, j - 1, id);
      ReleasedStays(states[j-1], steps[j-1], id);
    }
  }

  /** A call registered after that waits for its context: nothing else ever reaches it. */
  predicate Unheard(s: State, id: nat) {
    s.loop == Stopped && id in s.table.channels && s.table.channels[id] == Channel(None, false)
  }

  lemma {:induction false} UnheardStays(s: State, step: Step, id: nat)
    requires Invariant(s) && Enabled(s, step) && Unheard(s, id)
    ensures Unheard(Next(s, step), id) && step != TakeAnswer(id) && step != TakeClosed(id)
  {
    assert Wired(s, id);
  }

  lemma {:induction false} LateCallIsNeverAnswered(states: seq<State>, steps: seq<Step>, i: nat, j: nat, id: nat)
    requires Run(states, steps) && states[0] == Initial() && i < j <= |steps|
    requires states[i].loop == Stopped && steps[i] == Register(id)
    ensures Unheard(states[j], id) && (j < |steps| ==> steps[j] != TakeAnswer(id) && steps[j] != TakeClosed(id))
    decreases j
  {
    RunKeepsInvariant(states, steps, j - 1);
    RunKeepsInvariant(states, steps, j);
    assert Enabled(states[j-1], steps[j-1]) && states[j] == Next(states[j-1], steps[j-1]);
    if j > i + 1 {
      LateCallIsNeverAnswered(states, steps, i, j - 1, id);
      UnheardStays(states[j-1], steps[j-1], id);
    }
    if j < |steps| {
      assert Enabled(states[j], steps[j]);
      UnheardStays(states[j], steps[j], id);
    }
  }

  // ----- Two responses under one id -----

  function Count(received: seq<Response>, id: nat): nat {
    if |received| == 0 then 0
    else Count(received[..|received|-1], id) + (if received[|received|-1].id == Some(id) then 1 else 0)
  }

  /** On their way to a call: in its channel, or in the loop's hand. */
  function InFlight(s: State, id: nat): nat {
    (if id in s.table.channels && s.table.channels[id].buffer.Some? then 1 else 0) +
    (if s.loop.Holding? && s.loop.id == id then 1 else 0)
  }

  lemma {:induction false} InFlightWasReceived(states: seq<State>, steps: seq<Step>, i: nat, id: nat)
    requires Run(states, steps) && states[0] == Initial() && i <= |steps|
    ensures InFlight(states[i], id) <= Count(states[i].received, id)
  {
    hide Enabled, Next, Invariant;
    if i == 0 {
    } else {
      InFlightWasReceived(states, steps, i - 1, id);
      RunKeepsInvariant(states, steps, i - 1);
      assert Enabled(states[i-1], steps[i-1]) && states[i] == Next(states[i-1], steps[i-1]);
      StepKeepsInFlight(states[i-1], steps[i-1], id);
    }
  }

  lemma {:induction false} StepKeepsInFlight(s: State, step: Step, id: nat)
    requires Invariant(s) && Enabled(s, step) && InFlight(s, id) <= Count(s.received, id)
    ensures InFlight(Next(s, step), id) <= Count(Next(s, step).received, id)
  {
    var t := Next(s, step);
    assert Wired(s, id);
    if step.Receive? && t.received != s.received {
      assert t.received[..|t.received|-1] == s.received;
    }
  }

  /** While no id is answered twice, the loop never waits at a full channel. */
  lemma {:induction false} LoopNeverBlocks(states: seq<State>, steps: seq<Step>, i: nat)
    requires Run(states, steps) && states[0] == Initial() && i <= |steps| && states[i].loop.Holding?
    requires Count(states[i].received, states[i].loop.id) <= 1
    ensures Enabled(states[i], Deliver)
  {
    RunKeepsInvariant(states, steps, i);
    InFlightWasReceived(states, steps, i, states[i].loop.id);
  }

  /** The loop holds a second response for a call that no longer listens. */
  predicate Stuck(s: State) {
    && s.loop.Holding? && s.loop.id in s.table.channels && s.table.channels[s.loop.id].buffer.Some?
    && s.loop.id in s.calls && (s.calls[s.loop.id].Leaving? || s.calls[s.loop.id].Returned?)
  }

  lemma {:induction false} StuckStays(states: seq<State>, steps: seq<Step>, i: nat, j: nat)
    requires Run(states, steps) && states[0] == Initial() && i <= j <= |steps| && Stuck(states[i])
    ensures Stuck(states[j]) && states[j].loop == states[i].loop && states[j].received == states[i].received
    decreases j
  {
    if i < j {
      StuckStays(states, steps, i, j - 1);
      RunKeepsInvariant(states, steps, j - 1);
      assert Enabled(states[j-1], steps[j-1]) && states[j] == Next(states[j-1], steps[j-1]);
      assert Wired(states[j-1], states[j-1].loop.id);
    }
  }

  lemma {:induction false} StuckStep(s: State, step: Step)
    requires Invariant(s) && Stuck(s) && Enabled(s, step)
    ensures Stuck(Next(s, step)) && step != Deliver
  {
    assert Wired(s, s.loop.id);
  }

  lemma {:induction false} StuckNeverDelivers(states: seq<State>, steps: seq<Step>, j: nat)
    requires Run(states, steps) && j <= |steps| && Invariant(states[0]) && Stuck(states[0])
    ensures Invariant(states[j]) && Stuck(states[j]) && (j < |steps| ==> steps[j] != Deliver)
  {
    hide Invariant, Stuck, Enabled, Next;
    if j > 0 {
      StuckNeverDelivers(states, steps, j - 1);
      assert Enabled(states[j-1], steps[j-1]) && states[j] == Next(states[j-1], steps[j-1]);
      StepKeepsInvariant(states[j-1], steps[j-1]);
      StuckStep(states[j-1], steps[j-1]);
    }
    if j < |steps| {
      assert Enabled(states[j], steps[j]);
      StuckStep(states[j], steps[j]);
    }
  }

  /** A run in which the loop sends what it holds. */
  predicate Delivers(s: State, states: seq<State>, steps: seq<Step>) {
    Run(states, steps) && states[0] == s && |steps| > 0 && steps[|steps|-1] == Deliver
  }

  /** What callers can do to let it: take the earlier answer, once the request is sent. */
  lemma {:induction false} WaysOut(s: State)
    requires Invariant(s) && s.loop.Holding? && !Stuck(s)
    ensures var id := s.loop.id;
            || Enabled(s, Deliver)
            || (Enabled(s, TakeAnswer(id)) && Enabled(Next(s, TakeAnswer(id)), Deliver))
            || (Enabled(s, Sent(id, true)) && Enabled(Next(s, Sent(id, true)), TakeAnswer(id)) &&
                Enabled(Next(Next(s, Sent(id, true)), TakeAnswer(id)), Deliver))
  {
    assert Wired(s, s.loop.id);
  }

  /** These are the only states in which the loop waits for good. */
  lemma {:induction false} StuckIff(s: State)
    requires Invariant(s) && s.loop.Holding?
    ensures Stuck(s) <==> !exists states, steps :: Delivers(s, states, steps)
  {
    hide Invariant, Stuck, Enabled, Next;
    if Stuck(s) {
      forall states, steps | Delivers(s, states, steps) ensures false {
        StuckNeverDelivers(states, steps, |steps| - 1);
      }
    } else {
      WaysOut(s);
      var id := s.loop.id;
      if Enabled(s, Deliver) {
        assert Delivers(s, [s, Next(s, Deliver)], [Deliver]);
      } else if Enabled(s, TakeAnswer(id)) && Enabled(Next(s, TakeAnswer(id)), Deliver) {
        var t := Next(s, TakeAnswer(id));
        assert Delivers(s, [s, t, Next(t, Deliver)], [TakeAnswer(id), Deliver]);
      } else {
        var t := Next(s, Sent(id, true));
        var u := Next(t, TakeAnswer(id));
        assert Delivers(s, [s, t, u, Next(u, Deliver)], [Sent(id, true), TakeAnswer(id), Deliver]);
      }
    }
  }

  lemma {:induction false} Twice(r: Response, id: nat)
    requires r.id == Some(id)
    ensures Count([r, r], id) == 2
  {
    assert [r, r][..1] == [r] && [r][..0] == [];
    assert Count([r], id) == 1;
  }

  /** A call that waits, with no answer yet. */
  lemma {:induction false} OneCallWaits() returns (s1: State, s2: State, s3: State)
    ensures s1 == Next(Initial(), Number)
    ensures Enabled(s1, Register(1)) && s2 == Next(s1, Register(1))
    ensures Enabled(s2, Sent(1, true)) && s3 == Next(s2, Sent(1, true))
    ensures At(s3, 1, Waiting) && 1 in s3.table.pending && 1 in s3.table.channels && s3.table.channels[1] == Channel(None, false)
    ensures s3.loop == Reading && s3.received == []
  {
    s1 := Next(Initial(), Number);
    s2 := Next(s1, Register(1));
    s3 := Next(s2, Sent(1, true));
  }

  lemma {:induction false} TwoAnswers(s3: State, r: Response) returns (s4: State, s5: State, s6: State, s7: State)
    requires At(s3, 1, Waiting) && 1 in s3.table.pending && 1 in s3.table.channels && s3.table.channels[1] == Channel(None, false)
    requires s3.loop == Reading && s3.received == [] && r.id == Some(1)
    ensures Enabled(s3, Receive(r)) && s4 == Next(s3, Receive(r))
    ensures Enabled(s4, Deliver) && s5 == Next(s4, Deliver)
    ensures Enabled(s5, Receive(r)) && s6 == Next(s5, Receive(r))
    ensures Enabled(s6, Cancel(1)) && s7 == Next(s6, Cancel(1))
    ensures Stuck(s7) && s7.received == [r, r]
  {
    s4 := Next(s3, Receive(r));
    assert s4.loop == Holding(1, Payload(r)) && s4.received == [r] && CanSend(s4.table, 1);
    s5 := Next(s4, Deliver);
    s6 := Next(s5, Receive(r));
    assert s6.loop == Holding(1, Payload(r)) && s6.received == [r, r] && s6.table.channels[1].buffer == Some(Payload(r));
    s7 := Next(s6, Cancel(1));
  }

  /** It can come to that: a response, its duplicate, and a caller who gave up in between. */
  lemma {:induction false} DuplicateStopsTheLoop(r: Response) returns (states: seq<State>, steps: seq<Step>)
    requires r.id == Some(1)
    ensures Run(states, steps) && states[0] == Initial() && Stuck(states[|steps|])
    ensures Count(states[|steps|].received, 1) == 2
  {
    assert Enabled(Initial(), Number);
    hide Enabled, Next, Count, Stuck;
    var s1, s2, s3 := OneCallWaits();
    var s4, s5, s6, s7 := TwoAnswers(s3, r);
    states := [Initial(), s1, s2, s3, s4, s5, s6, s7];
    steps := [Number, Register(1), Sent(1, true), Receive(r), Deliver, Receive(r), Cancel(1)];
    Twice(r, 1);
    assert states[|steps|] == s7;
  }

  // ----- The critical sections, in place -----

  /** The table and channels of a client, and what its receive loop is at. How far each call has
      come is known to its caller alone. */
  class Client {
    var table: Table
    var loop: Loop

    constructor ()
      ensures Represents(this, Initial())
    {
      table, loop := Table(0, {}, map[]), Reading;
    }

    /** An id no call has had. */
    method NextId(ghost s: State) returns (id: nat, ghost t: State)
      requires Represents(this, s) && Invariant(s)
      modifies this`table
      ensures t == Next(s, Number) && Represents(this, t)
      ensures At(t, id, Numbered) && id !in s.calls && id !in s.table.pending && id !in s.table.channels
    {
      table := table.(nextId := table.nextId + 1);
      id := table.nextId;
      t := Next(s, Number);
      assert Wired(s, id);
    }

    method Register(id: nat, ghost s: State) returns (ghost t: State)
      requires Represents(this, s) && Enabled(s, Step.Register(id))
      modifies this`table
      ensures t == Next(s, Step.Register(id)) && Represents(this, t)
    {
      var ch := Channel(None, false);
      table := table.(channels := table.channels[id := ch], pending := table.pending + {id});
      t := Next(s, Step.Register(id));
    }

    /** The caller's receive, once there is something to receive. */
    method Take(id: nat, ghost s: State) returns (outcome: Outcome, ghost t: State)
      requires Represents(this, s) && (Enabled(s, TakeAnswer(id)) || Enabled(s, TakeClosed(id)))
      modifies this`table
      ensures t == Next(s, if Enabled(s, TakeAnswer(id)) then TakeAnswer(id) else TakeClosed(id)) && Represents(this, t)
      ensures At(t, id, Leaving(outcome))
      ensures Invariant(s) && outcome.Answer? ==> ReceivedUnder(s, id, outcome.payload)
    {
      var ch := table.channels[id];
      assert OwnAnswer(s, id) || !Invariant(s);
      if ch.buffer.Some? {
        table := table.(channels := table.channels[id := ch.(buffer := None)]);
        outcome := Answer(ch.buffer.value);
        t := Next(s, TakeAnswer(id));
      } else {
        outcome := ConnectionClosed;
        t := Next(s, TakeClosed(id));
      }
    }

    method Forget(id: nat, ghost s: State) returns (ghost t: State)
      requires Represents(this, s) && Enabled(s, Step.Forget(id))
      modifies this`table
      ensures t == Next(s, Step.Forget(id)) && Represents(this, t)
    {
      table := table.(pending := table.pending - {id});
      t := Next(s, Step.Forget(id));
    }

    /** The receive loop on one message: it then holds a payload to send, or goes on reading. */
    method Handle(r: Response, ghost s: State) returns (ghost t: State)
      requires Represents(this, s) && Enabled(s, Receive(r))
      modifies this`loop
      ensures t == Next(s, Receive(r)) && Represents(this, t)
      ensures loop.Holding? <==> r.id.Some? && r.id.value in s.table.pending
    {
      t := Next(s, Receive(r));
      if r.id == None || r.id.value !in table.pending {
        return;
      }
      if r.error.Some? {
        loop := Holding(r.id.value, "{\"error\":" + r.error.value + "}");
      } else {
        loop := Holding(r.id.value, r.result);
      }
    }

    /** The send, once there is room. */
    method Deliver(ghost s: State) returns (ghost t: State)
      requires Represents(this, s) && Enabled(s, Step.Deliver)
      modifies this
      ensures t == Next(s, Step.Deliver) && Represents(this, t)
    {
      var ch := table.channels[loop.id];
      table := table.(channels := table.channels[loop.id := ch.(buffer := Some(loop.payload))]);
      loop := Reading;
      t := Next(s, Step.Deliver);
    }

    /** The loop over the pending map, in any order. */
    method DrainPending()
      requires forall id :: id in table.pending ==> id in table.channels && !table.channels[id].closed
      modifies this`table
      ensures table == Drained(old(table))
    {
      ghost var start := table;
      while table.pending != {}
        invariant table.pending <= start.pending && table.nextId == start.nextId
        invariant table.channels == Drained(start.(pending := start.pending - table.pending)).channels
        invariant forall id :: id in table.pending ==> id in table.channels && !table.channels[id].closed
        decreases |table.pending|
      {
        var id :| id in table.pending;
        table := table.(channels := table.channels[id := table.channels[id].(closed := true)], pending := table.pending - {id});
      }
      assert start.pending - {} == start.pending;
    }

    /** A receive error. No channel is closed twice, and every call then pending can go on. */
    method Fail(ghost s: State) returns (ghost t: State)
      requires Represents(this, s) && Invariant(s) && Enabled(s, ReceiveError)
      modifies this
      ensures t == Next(s, ReceiveError) && Represents(this, t)
      ensures forall id :: id in s.table.pending ==> Released(t, id)
    {
      forall id | id in table.pending ensures id in table.channels && !table.channels[id].closed {
        assert Wired(s, id);
      }
      hide Invariant;
      DrainPending();
      loop := Stopped;
      t := Next(s, ReceiveError);
    }
  }

  ghost predicate Represents(client: Client, s: State)
    reads client
  {
    client.table == s.table && client.loop == s.loop
  }

  /** One step, by whoever takes it: a caller or the receive loop. A send to the server and a
      caller that gives up leave the client alone. */
  method TakeStep(client: Client, step: Step, ghost s: State) returns (ghost t: State)
    requires Represents(client, s) && Invariant(s) && Enabled(s, step)
    modifies client
    ensures t == Next(s, step) && Represents(client, t) && Invariant(t)
  {
    StepKeepsInvariant(s, step);
    hide Invariant;
    match step {
      case Number => { var _, t' := client.NextId(s); t := t'; }
      case Register(id) => t := client.Register(id, s);
      case Sent(_, _) => t := Next(s, step);
      case Cancel(_) => t := Next(s, step);
      case TakeAnswer(id) => { var _, t' := client.Take(id, s); t := t'; }
      case TakeClosed(id) => { var _, t' := client.Take(id, s); t := t'; }
      case Forget(id) => t := client.Forget(id, s);
      case Receive(r) => t := client.Handle(r, s);
      case Deliver => t := client.Deliver(s);
      case ReceiveError => t := client.Fail(s);
    }
  }

  /** Any interleaving of callers and receive loop is a run of the protocol. */
  method Interleave(client: Client, steps: seq<Step>, ghost states: seq<State>)
    requires Run(states, steps) && states[0] == Initial() && Represents(client, states[0])
    modifies client
    ensures Represents(client, states[|steps|]) && Invariant(states[|steps|])
  {
    RunKeepsInvariant(states, steps, 0);
    hide Invariant, Enabled, Next;
    for i := 0 to |steps|
      invariant Represents(client, states[i]) && Invariant(states[i])
    {
      assert Enabled(states[i], steps[i]) && states[i+1] == Next(states[i], steps[i]);
      var _ := TakeStep(client, steps[i], states[i]);
    }
  }

  /** Nothing but that call is different. */
  predicate OthersUndisturbed(s: State, t: State, id: nat) {
    && t.calls - {id} == s.calls - {id} && t.table.channels - {id} == s.table.channels - {id}
    && t.table.pending - {id} == s.table.pending - {id}
  }

  lemma PayloadIs(result: string, error: Option<string>)
    ensures forall id :: Payload(Response(id, result, error)) == if error.Some? then "{\"error\":" + error.value + "}" else result
  {
  }

  method StartCall(client: Client, ghost s: State) returns (id: nat, ghost t: State)
    requires Represents(client, s) && Invariant(s)
    modifies client
    ensures Represents(client, t) && Invariant(t) && t.loop == s.loop && OthersUndisturbed(s, t, id)
    ensures id !in s.calls && id !in s.table.pending && At(t, id, Waiting) && id in t.table.pending
    ensures id in t.table.channels && t.table.channels[id] == Channel(None, false)
  {
    ghost var s1, s2;
    id, s1 := client.NextId(s);
    StepKeepsInvariant(s, Number);
    s2 := client.Register(id, s1);
    StepKeepsInvariant(s1, Step.Register(id));
    t := Next(s2, Sent(id, true));
    StepKeepsInvariant(s2, Sent(id, true));
  }

  method FinishCall(client: Client, id: nat, r: Response, ghost s: State) returns (outcome: Outcome, ghost t: State)
    requires Represents(client, s) && Invariant(s) && s.loop == Reading && r.id == Some(id)
    requires At(s, id, Waiting) && id in s.table.pending && id in s.table.channels && s.table.channels[id] == Channel(None, false)
    modifies client
    ensures Represents(client, t) && Invariant(t) && t.loop == Reading && OthersUndisturbed(s, t, id)
    ensures outcome == Answer(Payload(r)) && At(t, id, Returned(outcome)) && id !in t.table.pending
  {
    ghost var s1, s2, s3;
    s1 := client.Handle(r, s);
    StepKeepsInvariant(s, Receive(r));
    s2 := client.Deliver(s1);
    StepKeepsInvariant(s1, Step.Deliver);
    hide Invariant;
    outcome, s3 := client.Take(id, s2);
    StepKeepsInvariant(s2, TakeAnswer(id));
    t := client.Forget(id, s3);
    StepKeepsInvariant(s3, Step.Forget(id));
  }

  /** A call beside any others, answered: it returns what the server sent under its id, the set
      of pending calls is as before, and no other call or channel is disturbed. */
  method CallAnswered(client: Client, result: string, error: Option<string>, ghost s: State)
    returns (id: nat, outcome: Outcome, ghost t: State)
    requires Represents(client, s) && Invariant(s) && s.loop == Reading
    modifies client
    ensures Represents(client, t) && Invariant(t) && t.loop == Reading
    ensures id !in s.calls && At(t, id, Returned(outcome))
    ensures error == None ==> outcome == Answer(result)
    ensures error.Some? ==> outcome == Answer("{\"error\":" + error.value + "}")
    ensures OthersUndisturbed(s, t, id) && t.table.pending == s.table.pending
  {
    ghost var s1;
    PayloadIs(result, error);
    hide Invariant, Payload;
    id, s1 := StartCall(client, s);
    outcome, t := FinishCall(client, id, Response(Some(id), result, error), s1);
    assert t.table.pending == t.table.pending - {id} && s.table.pending == s.table.pending - {id};
  }
}
