/** internal/engine/engine.go, Send and SendStream: write, then append; call the provider, run
    its tools, and again, ten times at most. */
module Engine {
  import opened Wrappers
  import opened Faults
  import opened Messages
  import opened Session
  import opened Transcript
  import opened SessionManager
  import opened Dispatcher

  const MAX_TOOL_ROUNDS: nat := 10   // maxToolRounds

  datatype EngineError = PersistFailed | ChatFailed | NoDispatcher | RoundLimit

  datatype Reply = Reply(content: string, toolCalls: seq<ToolCall>)

  datatype Chunk = Chunk(content: string, toolCalls: seq<ToolCall>)

  /** The provider and the tools: what they will answer is arbitrary. */
  class Environment {
    var replies: seq<Option<Reply>>            // None, or nothing left: an error
    var toolRuns: seq<Result<string, string>>
    var chats: nat                             // how often Chat was called

    constructor (replies: seq<Option<Reply>>, toolRuns: seq<Result<string, string>>)
      ensures this.replies == replies && this.toolRuns == toolRuns && chats == 0
    {
      this.replies, this.toolRuns, chats := replies, toolRuns, 0;
    }

    method Chat() returns (reply: Option<Reply>)
      modifies this
      ensures chats == old(chats) + 1 && toolRuns == old(toolRuns)
      ensures reply == FirstReply(old(replies)) && replies == Rest(old(replies))
    {
      reply := if |replies| == 0 then None else replies[0];
      if |replies| > 0 {
        replies := replies[1..];
      }
      chats := chats + 1;
    }

    method RunTools(n: nat) returns (ran: seq<Result<string, string>>)
      modifies this`toolRuns
      ensures ran == RunsOf(old(toolRuns), n) && |ran| == n && toolRuns == RestAfter(old(toolRuns), n)
    {
      hide RunsOf, RestAfter;
      ran := [];
      NoRuns(toolRuns);
      while |ran| < n
        invariant |ran| <= n && ran + RunsOf(toolRuns, n - |ran|) == RunsOf(old(toolRuns), n)
        invariant RestAfter(toolRuns, n - |ran|) == RestAfter(old(toolRuns), n)
      {
        OneRun(ran, toolRuns, n - |ran|);
        ran := ran + [if |toolRuns| == 0 then Failure("timeout") else toolRuns[0]];
        if |toolRuns| > 0 {
          toolRuns := toolRuns[1..];
        }
      }
      NoRuns(toolRuns);
      assert ran + [] == ran;
    }
  }

  // ----- What a turn says when nothing fails -----

  function Rest<T>(s: seq<T>): seq<T> {
    if |s| == 0 then s else s[1..]
  }

  function FirstReply(replies: seq<Option<Reply>>): Option<Reply> {
    if |replies| == 0 then None else replies[0]
  }

  function RunsOf(toolRuns: seq<Result<string, string>>, n: nat): (ran: seq<Result<string, string>>)
    ensures |ran| == n
  {
    if n == 0 then []
    else [if |toolRuns| == 0 then Failure("timeout") else toolRuns[0]] + RunsOf(Rest(toolRuns), n - 1)
  }

  function RestAfter<T>(s: seq<T>, n: nat): seq<T> {
    if n == 0 then s else RestAfter(Rest(s), n - 1)
  }

  lemma NoRuns(toolRuns: seq<Result<string, string>>)
    ensures RunsOf(toolRuns, 0) == [] && RestAfter(toolRuns, 0) == toolRuns
  {
  }

  lemma OneRun(ran: seq<Result<string, string>>, toolRuns: seq<Result<string, string>>, n: nat)
    requires n > 0
    ensures var first := if |toolRuns| == 0 then Failure("timeout") else toolRuns[0];
            ran + RunsOf(toolRuns, n) == ran + [first] + RunsOf(Rest(toolRuns), n - 1)
    ensures RestAfter(toolRuns, n) == RestAfter(Rest(toolRuns), n - 1)
  {
  }

  /** The tool messages for the calls, each with the result of its own call. */
  function AnswersTo(calls: seq<ToolCall>, ran: seq<Result<string, string>>, tools: set<string>): (said: seq<Message>)
    requires |ran| == |calls|
    ensures |said| == |calls| && AnswersUpTo(said, calls, |calls|)
  {
    seq(|calls|, i requires 0 <= i < |calls| => ToolMessage(calls[i].id, ResultOf(calls[i], ran[i], tools).content))
  }

  function Block(reply: Reply, toolRuns: seq<Result<string, string>>, tools: set<string>): seq<Message> {
    [AssistantMessage(reply.content, reply.toolCalls)] +
    AnswersTo(reply.toolCalls, RunsOf(toolRuns, |reply.toolCalls|), tools)
  }

  /** Each answer is what its own tool returned, its error, or that there is no such tool. */
  predicate AnswersSay(said: seq<Message>, calls: seq<ToolCall>, ran: seq<Result<string, string>>, tools: set<string>)
    requires |said| <= |calls| == |ran|
  {
    forall i :: 0 <= i < |said| ==>
      && said[i].role == "tool" && said[i].toolCallId == calls[i].id && said[i].toolCalls == []
      && said[i].content == if calls[i].name !in tools then "unknown tool: " + calls[i].name
                            else if ran[i].Success? then ran[i].value else ran[i].error
  }

  lemma AnswersToSay(calls: seq<ToolCall>, ran: seq<Result<string, string>>, tools: set<string>, n: nat)
    requires |ran| == |calls| && n <= |calls|
    ensures AnswersSay(AnswersTo(calls, ran, tools)[..n], calls, ran, tools)
  {
  }

  /** The i-th call gets the i-th run of the tools. */
  lemma {:induction false} RunsOfAt(toolRuns: seq<Result<string, string>>, n: nat, i: nat)
    requires i < n
    ensures RunsOf(toolRuns, n)[i] == if i < |toolRuns| then toolRuns[i] else Failure("timeout")
    ensures RestAfter(toolRuns, i) == if i <= |toolRuns| then toolRuns[i..] else []
  {
    if i > 0 {
      RunsOfAt(Rest(toolRuns), n - 1, i - 1);
    }
  }

  lemma AnswersSoFar(calls: seq<ToolCall>, ran: seq<Result<string, string>>, tools: set<string>, i: nat)
    requires |ran| == |calls| && i <= |calls|
    ensures var all := AnswersTo(calls, ran, tools);
            && AnswersUpTo(all[..i], calls, i) && Faithful(all[..i], None, all)
            && (i < |calls| ==> all[i] == ToolMessage(calls[i].id, ResultOf(calls[i], ran[i], tools).content) &&
                                all[..i+1] == all[..i] + [all[i]] && Faithful(all[..i], Some(all[i]), all))
  {
  }

  /** The replies of the provider, each with the answers to its calls, up to the first without
      calls, the first failure, or the last round. */
  function Rounds(replies: seq<Option<Reply>>, toolRuns: seq<Result<string, string>>, tools: set<string>, rounds: nat): seq<Message> {
    if rounds == 0 || FirstReply(replies) == None then []
    else
      var reply := FirstReply(replies).value;
      Block(reply, toolRuns, tools) +
      (if reply.toolCalls == [] then []
       else Rounds(Rest(replies), RestAfter(toolRuns, |reply.toolCalls|), tools, rounds - 1))
  }

  /** The message of a streamed reply, the answers to its calls, and the rounds that follow them. */
  function AfterStream(reply: Reply, replies: seq<Option<Reply>>, toolRuns: seq<Result<string, string>>, tools: set<string>): seq<Message> {
    Block(reply, toolRuns, tools) +
    (if reply.toolCalls == [] then []
     else Rounds(replies, RestAfter(toolRuns, |reply.toolCalls|), tools, MAX_TOOL_ROUNDS))
  }

  function Streamed(stream: Option<seq<Chunk>>, replies: seq<Option<Reply>>, toolRuns: seq<Result<string, string>>,
                    tools: set<string>): seq<Message> {
    if stream == None then []
    else AfterStream(Reply(AllContent(stream.value), AllCalls(stream.value)), replies, toolRuns, tools)
  }

  /** What is said is a part of what should be, from its start; an orphan is what comes next. */
  predicate Faithful(said: seq<Message>, orphan: Option<Message>, script: seq<Message>) {
    said <= script && (orphan.Some? ==> said + [orphan.value] <= script)
  }

  // ----- What a turn leaves in the store -----

  function Logged(c: Codec, id: string, said: seq<Message>): seq<StoredRow> {
    if |said| == 0 then []
    else Logged(c, id, said[..|said|-1]) + [StoredRow(id, Stored(c, said[|said|-1]))]
  }

  /** Rows for the messages said, in order, and perhaps for one more whose write then failed. */
  predicate Wrote(before: seq<StoredRow>, after: seq<StoredRow>, c: Codec, id: string, said: seq<Message>, orphan: Option<Message>) {
    after == before + Logged(c, id, said) + (if orphan.Some? then [StoredRow(id, Stored(c, orphan.value))] else [])
  }

  lemma {:induction false} LoggedJoins(c: Codec, id: string, a: seq<Message>, b: seq<Message>)
    ensures Logged(c, id, a + b) == Logged(c, id, a) + Logged(c, id, b)
  {
    if |b| == 0 {
      assert a + b == a;
    } else {
      LoggedJoins(c, id, a, b[..|b|-1]);
      assert (a + b)[..|a + b|-1] == a + b[..|b|-1];
    }
  }

  lemma {:induction false} WroteMore(x: seq<StoredRow>, y: seq<StoredRow>, z: seq<StoredRow>, c: Codec, id: string,
                  a: seq<Message>, b: seq<Message>, orphan: Option<Message>)
    requires Wrote(x, y, c, id, a, None) && Wrote(y, z, c, id, b, orphan)
    ensures Wrote(x, z, c, id, a + b, orphan)
  {
    LoggedJoins(c, id, a, b);
  }

  lemma WroteNothing(x: seq<StoredRow>, c: Codec, id: string)
    ensures Wrote(x, x, c, id, [], None)
  {
  }

  lemma {:induction false} ConversationJoins(x: seq<StoredRow>, y: seq<StoredRow>, id: string)
    ensures Conversation(x + y, id) == Conversation(x, id) + Conversation(y, id)
  {
    if |y| == 0 {
      assert x + y == x;
    } else {
      var front, r := y[..|y|-1], y[|y|-1];
      ConversationJoins(x, front, id);
      assert x + y == x + front + [r] && y == front + [r];
      hide *;
      ConversationGrows(x + front, r, id);
      ConversationGrows(front, r, id);
    }
  }

  lemma {:induction false} LoggedConversation(c: Codec, id: string, said: seq<Message>, other: string)
    ensures Conversation(Logged(c, id, said), other) == if other == id then AllStored(c, said) else []
  {
    if |said| > 0 {
      LoggedConversation(c, id, said[..|said|-1], other);
      hide Conversation, Stored;
      ConversationGrows(Logged(c, id, said[..|said|-1]), StoredRow(id, Stored(c, said[|said|-1])), other);
    }
  }

  /** The turn is visible in its own conversation only. */
  lemma {:induction false} WroteConversation(x: seq<StoredRow>, y: seq<StoredRow>, c: Codec, id: string, said: seq<Message>, orphan: Option<Message>,
                          other: string)
    requires Wrote(x, y, c, id, said, orphan)
    ensures Conversation(y, other) == if other == id then Conversation(x, id) + Appeared(c, said, orphan) else Conversation(x, other)
  {
    hide Conversation, Logged, AllStored, Stored;
    ConversationJoins(x, Logged(c, id, said), other);
    LoggedConversation(c, id, said, other);
    if orphan.Some? {
      ConversationGrows(x + Logged(c, id, said), StoredRow(id, Stored(c, orphan.value)), other);
    } else {
      assert y == x + Logged(c, id, said);
    }
  }

  /** The messages a turn adds to its stored conversation. */
  function Appeared(c: Codec, said: seq<Message>, orphan: Option<Message>): seq<Message> {
    AllStored(c, said) + (if orphan.Some? then [Stored(c, orphan.value)] else [])
  }

  /** What the top of a turn makes of the history. */
  function Opening(core: Core): seq<Message> {
    if core.slot.Some? then Splice(core.history, core.slot.value) else core.history
  }

  /** The tool loop between two rounds: the history and the rows it started from, what was said, what
      there is to say, the replies to come and the rounds left. */
  datatype Loop = Loop(start: seq<Message>, rows: seq<StoredRow>, said: seq<Message>, script: seq<Message>,
                       replies: seq<Option<Reply>>, left: nat)

  predicate InLoop(l: Loop, history: seq<Message>, toolRuns: seq<Result<string, string>>, tools: set<string>) {
    history == l.start + l.said && l.said + Rounds(l.replies, toolRuns, tools, l.left) == l.script
  }

  lemma LoopBegins(l: Loop, toolRuns: seq<Result<string, string>>, tools: set<string>)
    requires l.said == [] && l.script == Rounds(l.replies, toolRuns, tools, l.left)
    ensures InLoop(l, l.start, toolRuns, tools)
  {
    hide Rounds;
    assert l.start + [] == l.start && [] + l.script == l.script;
  }

  lemma LoopEnds(l: Loop, history: seq<Message>, toolRuns: seq<Result<string, string>>, tools: set<string>)
    requires InLoop(l, history, toolRuns, tools)
    ensures history == l.start + l.said
    ensures l.left == 0 || FirstReply(l.replies) == None ==> l.said == l.script && Faithful(l.said, None, l.script)
  {
    assert l.said + [] == l.said;
  }

  class Engine {
    const dispatcher: Dispatcher?
    const persistence: SessionManager   // without a store it stands for a missing hook too

    constructor (dispatcher: Dispatcher?, persistence: SessionManager)
      ensures this.dispatcher == dispatcher && this.persistence == persistence
    {
      this.dispatcher, this.persistence := dispatcher, persistence;
    }

    ghost function Tools(): set<string>
      reads dispatcher
    {
      if dispatcher == null then {} else dispatcher.tools
    }

    ghost function Rows(): seq<StoredRow>
      reads persistence.store
    {
      if persistence.store == null then [] else persistence.store.rows
    }

    ghost predicate WroteSince(before: seq<StoredRow>, id: string, said: seq<Message>, orphan: Option<Message>)
      reads persistence.store
    {
      if persistence.store == null then orphan == None
      else Wrote(before, persistence.store.rows, persistence.store.codec, id, said, orphan)
    }

    ghost predicate Ready(session: Session)
      reads session, persistence, persistence.store
    {
      session.Valid() && persistence.Valid()
    }

    /** persistAndAppendUser, -Assistant and -Tool. */
    method PersistAndAppend(session: Session, m: Message, faults: FaultPlan)
      returns (ok: bool, ghost said: seq<Message>, ghost orphan: Option<Message>)
      requires Ready(session)
      modifies session`history, persistence`known, persistence.store, faults
      ensures Ready(session) && session.history == old(session.history) + said
      ensures said == (if ok then [m] else []) && (orphan.Some? ==> !ok && orphan.value == m)
      ensures WroteSince(old(Rows()), session.conversationId, said, orphan)
      ensures faults.reliable ==> ok
    {
      ok := persistence.PersistMessage(session, m, faults);
      said, orphan := [], None;
      assert session.history == old(session.history);
      if ok {
        session.AppendMessage(m);
        said := [m];
        if persistence.store != null {
          assert Logged(persistence.store.codec, session.conversationId, [m][..0]) == [];
        }
      } else if persistence.store.rows != old(persistence.store.rows) {
        orphan := Some(m);
      }
    }

    method DispatchToolCalls(session: Session, toolCalls: seq<ToolCall>, env: Environment, faults: FaultPlan)
      returns (error: Option<EngineError>, ghost said: seq<Message>, ghost orphan: Option<Message>)
      requires Ready(session)
      modifies session`history, persistence`known, persistence.store, env`toolRuns, faults
      ensures Ready(session) && session.history == old(session.history) + said
      ensures WroteSince(old(Rows()), session.conversationId, said, orphan)
      ensures |said| <= |toolCalls| && AnswersUpTo(said, toolCalls, |said|)
      ensures |said| <= |toolCalls| && AnswersSay(said, toolCalls, RunsOf(old(env.toolRuns), |toolCalls|), Tools())
      ensures var answers := AnswersTo(toolCalls, RunsOf(old(env.toolRuns), |toolCalls|), Tools());
              Faithful(said, orphan, answers) && (error == None ==> said == answers)
      ensures error == None ==> orphan == None && env.toolRuns == RestAfter(old(env.toolRuns), |toolCalls|)
      ensures error == Some(NoDispatcher) <==> dispatcher == null
      ensures error.Some? ==> error.value == NoDispatcher || error.value == PersistFailed
      ensures orphan.Some? ==> error == Some(PersistFailed)
      ensures faults.reliable ==> error == None || error == Some(NoDispatcher)
    {
      hide Wrote, ResultOf, RunsOf, RestAfter, AnswersTo, Faithful, AnswersUpTo, AnswersSay;
      said, orphan := [], None;
      if persistence.store != null {
        WroteNothing(Rows(), persistence.store.codec, session.conversationId);
      }
      AnswersSoFar(toolCalls, RunsOf(env.toolRuns, |toolCalls|), Tools(), 0);
      AnswersToSay(toolCalls, RunsOf(env.toolRuns, |toolCalls|), Tools(), 0);
      if dispatcher == null {
        return Some(NoDispatcher), said, orphan;
      }
      var ran := env.RunTools(|toolCalls|);
      var results := dispatcher.Dispatch(toolCalls, ran);
      ghost var answers := AnswersTo(toolCalls, ran, dispatcher.tools);
      for i := 0 to |results|
        invariant Ready(session) && session.history == old(session.history) + said
        invariant WroteSince(old(Rows()), session.conversationId, said, None)
        invariant said == answers[..i] && orphan == None
        invariant dispatcher.tools == old(dispatcher.tools) && env.toolRuns == RestAfter(old(env.toolRuns), |toolCalls|)
      {
        ResultKeepsId(toolCalls[i], ran[i], dispatcher.tools);
        var toolMsg := ToolMessage(results[i].callId, results[i].content);
        AnswersSoFar(toolCalls, ran, dispatcher.tools, i);
        AnswersSoFar(toolCalls, ran, dispatcher.tools, i + 1);
        AnswersToSay(toolCalls, ran, dispatcher.tools, i);
        ghost var before := Rows();
        ghost var more;
        var ok;
        ok, more, orphan := PersistAndAppend(session, toolMsg, faults);
        if persistence.store != null {
          WroteMore(old(Rows()), before, Rows(), persistence.store.codec, session.conversationId, said, more, orphan);
        }
        if !ok {
          assert said + more == said;
          return Some(PersistFailed), said, orphan;
        }
        said := said + more;
      }
      assert answers[..|results|] == answers;
      AnswersSoFar(toolCalls, ran, dispatcher.tools, |results|);
      AnswersToSay(toolCalls, ran, dispatcher.tools, |results|);
      error := None;
    }

    /** One round: the assistant message and, if it has calls, their answers. */
    method TakeReply(session: Session, reply: Reply, env: Environment, faults: FaultPlan)
      returns (error: Option<EngineError>, ghost said: seq<Message>, ghost orphan: Option<Message>)
      requires Ready(session)
      modifies session`history, persistence`known, persistence.store, env`toolRuns, faults
      ensures Ready(session) && session.history == old(session.history) + said
      ensures WroteSince(old(Rows()), session.conversationId, said, orphan)
      ensures error == None ==> orphan == None
      ensures error == None && reply.toolCalls == [] ==> said == [AssistantMessage(reply.content, [])]
      ensures |said| > 0 ==> said[0].role == "assistant" && said[0].content == reply.content && said[0].toolCalls == reply.toolCalls
      ensures error == None ==> |said| == 1 + |reply.toolCalls|
      ensures error == Some(NoDispatcher) ==> dispatcher == null && reply.toolCalls != []
      ensures var block := Block(reply, old(env.toolRuns), Tools());
              Faithful(said, orphan, block) && (error == None ==> said == block)
      ensures error == None ==> env.toolRuns == RestAfter(old(env.toolRuns), |reply.toolCalls|)
      ensures error.Some? ==> error.value == NoDispatcher || error.value == PersistFailed
      ensures orphan.Some? ==> error == Some(PersistFailed)
      ensures faults.reliable ==> error != Some(PersistFailed)
    {
      hide Wrote, Faithful, AnswersTo, RunsOf, AnswersSay, AnswersUpTo, RestAfter;
      ghost var runs := env.toolRuns;
      assert |Block(reply, runs, Tools())| == 1 + |reply.toolCalls|;
      hide Block;
      var assistantMsg := AssistantMessage(reply.content, reply.toolCalls);
      var ok;
      ok, said, orphan := PersistAndAppend(session, assistantMsg, faults);
      BlockBegins(reply, runs, Tools(), orphan);
      NoRuns(runs);
      if !ok {
        return Some(PersistFailed), said, orphan;
      }
      ghost var before := Rows();
      if |reply.toolCalls| > 0 {
        ghost var answers;
        error, answers, orphan := DispatchToolCalls(session, reply.toolCalls, env, faults);
        if persistence.store != null {
          WroteMore(old(Rows()), before, Rows(), persistence.store.codec, session.conversationId, said, answers, orphan);
        }
        BlockGoesOn(reply, runs, Tools(), answers, orphan);
        said := said + answers;
      } else {
        error := None;
      }
    }

    /** One round of the loop, on top of what was said before it. */
    method TakeRound(session: Session, reply: Reply, env: Environment, faults: FaultPlan, ghost before: Loop)
      returns (error: Option<EngineError>, ghost after: Loop, ghost orphan: Option<Message>)
      requires Ready(session) && WroteSince(before.rows, session.conversationId, before.said, None)
      requires InLoop(before, session.history, env.toolRuns, Tools()) && before.left > 0 && FirstReply(before.replies) == Some(reply)
      modifies session`history, persistence`known, persistence.store, env`toolRuns, faults
      ensures Ready(session) && WroteSince(before.rows, session.conversationId, after.said, orphan)
      ensures session.history == before.start + after.said && Faithful(after.said, orphan, before.script)
      ensures after == before.(said := after.said, replies := Rest(before.replies), left := before.left - 1)
      ensures orphan.Some? ==> error == Some(PersistFailed)
      ensures error == None && reply.toolCalls == [] ==>
                after.said == before.script && |after.said| > 0 && after.said[|after.said|-1] == AssistantMessage(reply.content, [])
      ensures error == None && reply.toolCalls != [] ==> InLoop(after, session.history, env.toolRuns, Tools())
      ensures error.Some? ==> error.value == PersistFailed || (error.value == NoDispatcher && dispatcher == null)
      ensures faults.reliable ==> error != Some(PersistFailed)
    {
      hide Wrote, Faithful, Block, Rounds, RestAfter, RunsOf, Rest, FirstReply;
      ghost var rows, runs := Rows(), env.toolRuns;
      ghost var more;
      error, more, orphan := TakeReply(session, reply, env, faults);
      if persistence.store != null {
        WroteMore(before.rows, rows, Rows(), persistence.store.codec, session.conversationId, before.said, more, orphan);
      }
      RoundSaid(before.said, more, orphan, before.replies, runs, Tools(), before.left, before.script);
      after := before.(said := before.said + more, replies := Rest(before.replies), left := before.left - 1);
      assert before.start + before.said + more == before.start + after.said;
    }

    method RunToolLoop(session: Session, env: Environment, faults: FaultPlan)
      returns (outcome: Result<string, EngineError>, ghost said: seq<Message>, ghost orphan: Option<Message>)
      requires Ready(session)
      modifies session`history, persistence`known, persistence.store, env, faults
      ensures Ready(session) && session.history == old(session.history) + said
      ensures WroteSince(old(Rows()), session.conversationId, said, orphan)
      ensures outcome.Success? ==> |said| > 0 && said[|said|-1] == AssistantMessage(outcome.value, [])
      ensures outcome == Failure(NoDispatcher) ==> dispatcher == null
      ensures outcome == Failure(ChatFailed) ==> said == Rounds(old(env.replies), old(env.toolRuns), Tools(), MAX_TOOL_ROUNDS)
      ensures var script := Rounds(old(env.replies), old(env.toolRuns), Tools(), MAX_TOOL_ROUNDS);
              Faithful(said, orphan, script) && (outcome.Success? || outcome == Failure(RoundLimit) ==> said == script)
      ensures orphan.Some? ==> outcome == Failure(PersistFailed)
      ensures outcome == Failure(PersistFailed) ==> !faults.reliable
      ensures old(env.chats) < env.chats <= old(env.chats) + MAX_TOOL_ROUNDS
      ensures outcome == Failure(RoundLimit) ==> env.chats == old(env.chats) + 10
    {
      hide Wrote, Faithful, Block, Rounds, RestAfter, RunsOf, Rest, FirstReply, InLoop;
      ghost var script := Rounds(env.replies, env.toolRuns, Tools(), MAX_TOOL_ROUNDS);
      ghost var loop := Loop(session.history, Rows(), [], script, env.replies, MAX_TOOL_ROUNDS);
      LoopBegins(loop, env.toolRuns, Tools());
      if persistence.store != null {
        WroteNothing(Rows(), persistence.store.codec, session.conversationId);
      }
      orphan := None;
      for round := 0 to MAX_TOOL_ROUNDS
        invariant Ready(session) && WroteSince(old(Rows()), session.conversationId, loop.said, None) && orphan == None
        invariant InLoop(loop, session.history, env.toolRuns, Tools())
        invariant loop.start == old(session.history) && loop.rows == old(Rows()) && loop.script == script
        invariant loop.replies == env.replies && loop.left == MAX_TOOL_ROUNDS - round && env.chats == old(env.chats) + round
      {
        LoopEnds(loop, session.history, env.toolRuns, Tools());
        var resp := env.Chat();
        if resp == None {
          return Failure(ChatFailed), loop.said, orphan;
        }
        var error;
        error, loop, orphan := TakeRound(session, resp.value, env, faults, loop);
        if error.Some? {
          return Failure(error.value), loop.said, orphan;
        }
        if |resp.value.toolCalls| == 0 {
          return Success(resp.value.content), loop.said, orphan;
        }
      }
      LoopEnds(loop, session.history, env.toolRuns, Tools());
      return Failure(RoundLimit), loop.said, orphan;
    }

    /** A turn. start is the history after a waiting summary was merged; snapshot is the copy a
        background summariser starts from, if one is started. */
    method Send(session: Session, text: string, env: Environment, faults: FaultPlan)
      returns (outcome: Result<string, EngineError>, snapshot: Option<seq<Message>>,
               ghost start: seq<Message>, ghost said: seq<Message>, ghost orphan: Option<Message>)
      requires Ready(session)
      modifies session, persistence`known, persistence.store, env, faults
      ensures Ready(session) && start == Opening(old(session.State()))
      ensures session.history == start + said && session.slot == None
      ensures WroteSince(old(Rows()), session.conversationId, said, orphan)
      ensures var script := [UserMessage(text)] + Rounds(old(env.replies), old(env.toolRuns), Tools(), MAX_TOOL_ROUNDS);
              Faithful(said, orphan, script) && (outcome.Success? || outcome == Failure(RoundLimit) ==> said == script)
      ensures Closed(start) && (outcome.Success? || outcome == Failure(RoundLimit)) ==> Closed(session.history)
      ensures Closed(start) ==> OpenOnlyAtEnd(session.history)
      ensures orphan.Some? ==> outcome == Failure(PersistFailed)
      ensures outcome == Failure(PersistFailed) ==> !faults.reliable
      ensures env.chats <= old(env.chats) + 10
      ensures outcome == Failure(RoundLimit) ==> env.chats == old(env.chats) + 10
      ensures outcome == Failure(NoDispatcher) ==> dispatcher == null
      ensures |said| > 0 ==> said[0].role == "user" && said[0].content == text && said[0].toolCalls == []
      ensures snapshot == if outcome.Success? && !old(session.summarizing) then Some(session.history) else None
      ensures session.summarizing == (old(session.summarizing) || outcome.Success?)
      ensures outcome == Failure(ChatFailed) ==> said == [UserMessage(text)] + Rounds(old(env.replies), old(env.toolRuns), Tools(), MAX_TOOL_ROUNDS)
      ensures outcome.Success? ==> |said| > 1 && said[|said|-1].role == "assistant" && said[|said|-1].content == outcome.value
    {
      hide Closed, OpenOnlyAtEnd, Wrote, Faithful, Rounds, Splice, UserMessage, AssistantMessage;
      ghost var script := Rounds(env.replies, env.toolRuns, Tools(), MAX_TOOL_ROUNDS);
      RoundsClosed(env.replies, env.toolRuns, Tools(), MAX_TOOL_ROUNDS);
      session.ApplyPendingSummary();
      start, snapshot := session.history, None;
      var ok;
      ok, said, orphan := PersistAndAppend(session, UserMessage(text), faults);
      UserFirst(text, orphan, script);
      UserSays(text);
      TurnTranscript(start, text, said, script);
      if !ok {
        return Failure(PersistFailed), snapshot, start, said, orphan;
      }
      ghost var before := Rows();
      ghost var more;
      outcome, more, orphan := RunToolLoop(session, env, faults);
      if persistence.store != null {
        WroteMore(old(Rows()), before, Rows(), persistence.store.codec, session.conversationId, said, more, orphan);
      }
      TurnGoesOn(start, text, more, orphan, script);
      said := said + more;
      if outcome.Success? {
        AssistantSays(outcome.value);
        snapshot := session.StartSummarization();
      }
    }

    /** The streaming turn. stream is what the provider sends, None if ChatStream fails. */
    method SendStream(session: Session, text: string, stream: Option<seq<Chunk>>, env: Environment, faults: FaultPlan)
      returns (outcome: Result<(), EngineError>, snapshot: Option<seq<Message>>,
               ghost start: seq<Message>, ghost said: seq<Message>, ghost orphan: Option<Message>)
      requires Ready(session)
      modifies session, persistence`known, persistence.store, env, faults
      ensures Ready(session) && start == Opening(old(session.State()))
      ensures session.history == start + said && session.slot == None
      ensures WroteSince(old(Rows()), session.conversationId, said, orphan)
      ensures var script := [UserMessage(text)] + Streamed(stream, old(env.replies), old(env.toolRuns), Tools());
              Faithful(said, orphan, script) && (outcome.Success? || outcome == Failure(RoundLimit) ==> said == script)
      ensures Closed(start) && (outcome.Success? || outcome == Failure(RoundLimit)) ==> Closed(session.history)
      ensures Closed(start) ==> OpenOnlyAtEnd(session.history)
      ensures orphan.Some? ==> outcome == Failure(PersistFailed)
      ensures outcome == Failure(PersistFailed) ==> !faults.reliable
      ensures env.chats <= old(env.chats) + 10
      ensures outcome == Failure(RoundLimit) ==> env.chats == old(env.chats) + 10
      ensures outcome == Failure(NoDispatcher) ==> dispatcher == null
      ensures |said| > 0 ==> said[0].role == "user" && said[0].content == text && said[0].toolCalls == []
      ensures snapshot == if outcome.Success? && !old(session.summarizing) then Some(session.history) else None
      ensures session.summarizing == (old(session.summarizing) || outcome.Success?)
      ensures outcome.Success? && stream.Some? && AllCalls(stream.value) == [] ==> env.chats == old(env.chats)
      ensures outcome.Success? ==> stream.Some? && |said| > 1
      ensures stream.Some? && |said| > 1 ==>
                said[1].role == "assistant" && said[1].content == AllContent(stream.value) && said[1].toolCalls == AllCalls(stream.value)
      ensures outcome == Failure(ChatFailed) ==> said == [UserMessage(text)] + Streamed(stream, old(env.replies), old(env.toolRuns), Tools())
    {
      hide Closed, OpenOnlyAtEnd, Wrote, Faithful, Rounds, AfterStream, AllContent, AllCalls, Splice, UserMessage, Streamed;
      ghost var script := Streamed(stream, env.replies, env.toolRuns, Tools());
      StreamedClosed(stream, env.replies, env.toolRuns, Tools());
      session.ApplyPendingSummary();
      start, snapshot := session.history, None;
      var ok;
      ok, said, orphan := PersistAndAppend(session, UserMessage(text), faults);
      UserFirst(text, orphan, script);
      UserSays(text);
      TurnTranscript(start, text, said, script);
      if !ok {
        return Failure(PersistFailed), snapshot, start, said, orphan;
      }
      if stream == None {
        NothingStreamed(env.replies, env.toolRuns, Tools());
        return Failure(ChatFailed), snapshot, start, said, orphan;
      }
      StreamedIs(stream.value, env.replies, env.toolRuns, Tools());
      var fullContent, toolCalls := ReadStream(stream.value);
      ghost var before := Rows();
      ghost var more;
      var error;
      error, more, orphan := FinishStream(session, Reply(fullContent, toolCalls), env, faults);
      if persistence.store != null {
        WroteMore(old(Rows()), before, Rows(), persistence.store.codec, session.conversationId, said, more, orphan);
      }
      TurnGoesOn(start, text, more, orphan, script);
      said := said + more;
      if error.Some? {
        return Failure(error.value), snapshot, start, said, orphan;
      }
      snapshot := session.StartSummarization();
      outcome := Success(());
    }

    /** What follows the stream: its assistant message, and the tool loop if it had calls. */
    method FinishStream(session: Session, reply: Reply, env: Environment, faults: FaultPlan)
      returns (error: Option<EngineError>, ghost said: seq<Message>, ghost orphan: Option<Message>)
      requires Ready(session)
      modifies session`history, persistence`known, persistence.store, env, faults
      ensures Ready(session) && session.history == old(session.history) + said
      ensures WroteSince(old(Rows()), session.conversationId, said, orphan)
      ensures error == None && reply.toolCalls == [] ==> env.chats == old(env.chats)
      ensures var script := AfterStream(reply, old(env.replies), old(env.toolRuns), Tools());
              Faithful(said, orphan, script) && (error == None || error == Some(RoundLimit) ==> said == script)
      ensures orphan.Some? ==> error == Some(PersistFailed)
      ensures error == Some(PersistFailed) ==> !faults.reliable
      ensures env.chats <= old(env.chats) + MAX_TOOL_ROUNDS
      ensures error == Some(RoundLimit) ==> env.chats == old(env.chats) + MAX_TOOL_ROUNDS
      ensures error == Some(NoDispatcher) ==> dispatcher == null
      ensures error == None ==> |said| > 0
      ensures |said| > 0 ==> said[0].role == "assistant" && said[0].content == reply.content && said[0].toolCalls == reply.toolCalls
      ensures error == Some(ChatFailed) ==> said == AfterStream(reply, old(env.replies), old(env.toolRuns), Tools())
    {
      hide Wrote, Faithful, Rounds, Block, AfterStream, RestAfter, RunsOf;
      ghost var replies, runs := env.replies, env.toolRuns;
      error, said, orphan := TakeReply(session, reply, env, faults);
      StreamBegins(reply, said, orphan, replies, runs, Tools());
      if error == None && |reply.toolCalls| > 0 {
        ghost var before, more := Rows(), [];
        var finalText;
        finalText, more, orphan := RunToolLoop(session, env, faults);
        if persistence.store != null {
          WroteMore(old(Rows()), before, Rows(), persistence.store.codec, session.conversationId, said, more, orphan);
        }
        StreamGoesOn(reply, more, orphan, replies, runs, Tools());
        assert old(session.history) + said + more == old(session.history) + (said + more);
        said := said + more;
        error := if finalText.Failure? then Some(finalText.error) else None;
      }
    }
  }

  function AllContent(stream: seq<Chunk>): string {
    if |stream| == 0 then "" else AllContent(stream[..|stream|-1]) + stream[|stream|-1].content
  }

  function AllCalls(stream: seq<Chunk>): seq<ToolCall> {
    if |stream| == 0 then [] else AllCalls(stream[..|stream|-1]) + stream[|stream|-1].toolCalls
  }

  /** The text of a stream is the text of its chunks, one behind the other; so are its calls. */
  lemma {:induction false} StreamsJoin(a: seq<Chunk>, b: seq<Chunk>)
    ensures AllContent(a + b) == AllContent(a) + AllContent(b) && AllCalls(a + b) == AllCalls(a) + AllCalls(b)
  {
    if |b| == 0 {
      assert a + b == a;
    } else {
      var front, last := b[..|b|-1], b[|b|-1];
      StreamsJoin(a, front);
      assert a + b == (a + front) + [last] && b == front + [last];
      hide *;
      OneMoreChunk(a + front, last);
      OneMoreChunk(front, last);
    }
  }

  lemma {:induction false} OneMoreChunk(stream: seq<Chunk>, ch: Chunk)
    ensures AllContent(stream + [ch]) == AllContent(stream) + ch.content
    ensures AllCalls(stream + [ch]) == AllCalls(stream) + ch.toolCalls
  {
    assert (stream + [ch])[..|stream|] == stream;
  }

  lemma {:induction false} StreamOfOne(ch: Chunk)
    ensures AllContent([ch]) == ch.content && AllCalls([ch]) == ch.toolCalls
    ensures AllContent([]) == "" && AllCalls([]) == []
  {
    assert [ch][..0] == [];
  }

  method ReadStream(stream: seq<Chunk>) returns (fullContent: string, toolCalls: seq<ToolCall>)
    ensures fullContent == AllContent(stream) && toolCalls == AllCalls(stream)
  {
    fullContent, toolCalls := "", [];
    for i := 0 to |stream|
      invariant fullContent == AllContent(stream[..i]) && toolCalls == AllCalls(stream[..i])
    {
      assert stream[..i+1][..i] == stream[..i];
      fullContent := fullContent + stream[i].content;
      if |stream[i].toolCalls| > 0 {
        toolCalls := toolCalls + stream[i].toolCalls;
      } else {
        assert toolCalls + stream[i].toolCalls == toolCalls;
      }
    }
    assert stream[..|stream|] == stream;
  }

  /** What a turn adds to a closed history: with the whole script it stays closed, with a part of
      it at most the last block is open. */
  lemma {:induction false} TurnTranscript(start: seq<Message>, text: string, said: seq<Message>, script: seq<Message>)
    requires Closed(script)
    ensures Closed(start) && said <= [UserMessage(text)] + script ==> OpenOnlyAtEnd(start + said)
    ensures Closed(start) && said == [UserMessage(text)] + script ==> Closed(start + said)
  {
    UserClosed(text);
    hide *;
    var whole := [UserMessage(text)] + script;
    JoinClosed([UserMessage(text)], script);
    if Closed(start) && said <= whole {
      PrefixOpenOnlyAtEnd(whole, said);
      JoinClosed(start, said);
    }
  }

  lemma {:induction false} UserClosed(text: string)
    ensures Closed([UserMessage(text)])
  {
    SingleClosed(UserMessage(text));
  }

  lemma {:induction false} BlockClosed(reply: Reply, runs: seq<Result<string, string>>, tools: set<string>)
    ensures Closed(Block(reply, runs, tools))
  {
    hide AnswersTo, RunsOf, ResultOf;
    var block := Block(reply, runs, tools);
    assert block[1..] == AnswersTo(reply.toolCalls, RunsOf(runs, |reply.toolCalls|), tools);
    BlockShape(block);
  }

  lemma {:induction false} RoundsClosed(replies: seq<Option<Reply>>, runs: seq<Result<string, string>>, tools: set<string>, rounds: nat)
    ensures Closed(Rounds(replies, runs, tools, rounds))
    decreases rounds
  {
    hide Closed, OpenOnlyAtEnd, Block, Rounds, RestAfter, RunsOf;
    NothingSaid();
    RoundsUnfold(replies, runs, tools, rounds);
    if rounds > 0 && FirstReply(replies).Some? {
      var reply := FirstReply(replies).value;
      var rest := RestAfter(runs, |reply.toolCalls|);
      BlockClosed(reply, runs, tools);
      RoundsClosed(Rest(replies), rest, tools, rounds - 1);
      JoinClosed(Block(reply, runs, tools), if reply.toolCalls == [] then [] else Rounds(Rest(replies), rest, tools, rounds - 1));
    }
  }

  lemma {:induction false} StreamedClosed(stream: Option<seq<Chunk>>, replies: seq<Option<Reply>>, runs: seq<Result<string, string>>,
                      tools: set<string>)
    ensures Closed(Streamed(stream, replies, runs, tools))
  {
    hide Closed, OpenOnlyAtEnd, Block, Rounds;
    NothingSaid();
    if stream.Some? {
      var reply := Reply(AllContent(stream.value), AllCalls(stream.value));
      BlockClosed(reply, runs, tools);
      RoundsClosed(replies, RestAfter(runs, |reply.toolCalls|), tools, MAX_TOOL_ROUNDS);
      JoinClosed(Block(reply, runs, tools), []);
      JoinClosed(Block(reply, runs, tools), Rounds(replies, RestAfter(runs, |reply.toolCalls|), tools, MAX_TOOL_ROUNDS));
    }
  }

  lemma BlockBegins(reply: Reply, runs: seq<Result<string, string>>, tools: set<string>, orphan: Option<Message>)
    requires orphan.Some? ==> orphan.value == AssistantMessage(reply.content, reply.toolCalls)
    ensures Faithful([], orphan, Block(reply, runs, tools))
    ensures Faithful([AssistantMessage(reply.content, reply.toolCalls)], None, Block(reply, runs, tools))
    ensures reply.toolCalls == [] ==> [AssistantMessage(reply.content, reply.toolCalls)] == Block(reply, runs, tools)
  {
    hide AnswersTo;
  }

  lemma BlockGoesOn(reply: Reply, runs: seq<Result<string, string>>, tools: set<string>, answers: seq<Message>, orphan: Option<Message>)
    ensures var all := AnswersTo(reply.toolCalls, RunsOf(runs, |reply.toolCalls|), tools);
            var a := AssistantMessage(reply.content, reply.toolCalls);
            && (Faithful(answers, orphan, all) ==> Faithful([a] + answers, orphan, Block(reply, runs, tools)))
            && (answers == all ==> [a] + answers == Block(reply, runs, tools))
  {
    hide AnswersTo, RunsOf;
    var a := AssistantMessage(reply.content, reply.toolCalls);
    assert orphan.Some? ==> [a] + answers + [orphan.value] == [a] + (answers + [orphan.value]);
  }

  lemma RoundsUnfold(replies: seq<Option<Reply>>, runs: seq<Result<string, string>>, tools: set<string>, rounds: nat)
    ensures rounds == 0 || FirstReply(replies) == None ==> Rounds(replies, runs, tools, rounds) == []
    ensures rounds > 0 && FirstReply(replies).Some? ==>
              var reply := FirstReply(replies).value;
              Rounds(replies, runs, tools, rounds) == Block(reply, runs, tools) +
                (if reply.toolCalls == [] then [] else Rounds(Rest(replies), RestAfter(runs, |reply.toolCalls|), tools, rounds - 1))
  {
  }

  /** What a round adds, in the script of the whole loop. */
  lemma RoundSaid(said: seq<Message>, more: seq<Message>, orphan: Option<Message>, replies: seq<Option<Reply>>,
                  runs: seq<Result<string, string>>, tools: set<string>, rounds: nat, script: seq<Message>)
    requires rounds > 0 && FirstReply(replies).Some? && said + Rounds(replies, runs, tools, rounds) == script
    requires Faithful(more, orphan, Block(FirstReply(replies).value, runs, tools))
    ensures Faithful(said + more, orphan, script)
    ensures var reply := FirstReply(replies).value;
            more == Block(reply, runs, tools) ==>
              if reply.toolCalls == [] then said + more == script
              else said + more + Rounds(Rest(replies), RestAfter(runs, |reply.toolCalls|), tools, rounds - 1) == script
  {
    hide Block;
    var reply := FirstReply(replies).value;
    var block := Block(reply, runs, tools);
    var rest := if reply.toolCalls == [] then [] else Rounds(Rest(replies), RestAfter(runs, |reply.toolCalls|), tools, rounds - 1);
    assert Rounds(replies, runs, tools, rounds) == block + rest;
    assert said + (block + rest) == said + block + rest;
    assert orphan.Some? ==> said + more + [orphan.value] == said + (more + [orphan.value]);
  }

  lemma AssistantSays(text: string)
    ensures AssistantMessage(text, []).role == "assistant" && AssistantMessage(text, []).content == text
  {
  }

  /** What the rest of a turn says comes behind the message of the user. */
  lemma {:induction false} TurnGoesOn(start: seq<Message>, text: string, more: seq<Message>, orphan: Option<Message>, script: seq<Message>)
    requires Closed(script) && Faithful(more, orphan, script)
    ensures var said, whole := [UserMessage(text)] + more, [UserMessage(text)] + script;
            && Faithful(said, orphan, whole) && start + [UserMessage(text)] + more == start + said
            && (more == script ==> said == whole) && said[0] == UserMessage(text) && said[1..] == more
            && (Closed(start) ==> OpenOnlyAtEnd(start + said)) && (Closed(start) && more == script ==> Closed(start + said))
  {
    hide Closed, OpenOnlyAtEnd, UserMessage;
    UserThen(text, more, orphan, script);
    TurnTranscript(start, text, [UserMessage(text)] + more, script);
    assert start + [UserMessage(text)] + more == start + ([UserMessage(text)] + more);
  }

  lemma UserSays(text: string)
    ensures UserMessage(text).role == "user" && UserMessage(text).content == text && UserMessage(text).toolCalls == []
  {
  }

  lemma UserFirst(text: string, orphan: Option<Message>, script: seq<Message>)
    requires orphan.Some? ==> orphan.value == UserMessage(text)
    ensures Faithful([], orphan, [UserMessage(text)] + script)
    ensures Faithful([UserMessage(text)], None, [UserMessage(text)] + script)
  {
  }

  lemma {:induction false} UserThen(text: string, more: seq<Message>, orphan: Option<Message>, script: seq<Message>)
    requires Faithful(more, orphan, script)
    ensures Faithful([UserMessage(text)] + more, orphan, [UserMessage(text)] + script)
  {
    assert orphan.Some? ==> [UserMessage(text)] + more + [orphan.value] == [UserMessage(text)] + (more + [orphan.value]);
  }

  lemma {:induction false} StreamBegins(reply: Reply, said: seq<Message>, orphan: Option<Message>, replies: seq<Option<Reply>>,
                    runs: seq<Result<string, string>>, tools: set<string>)
    requires Faithful(said, orphan, Block(reply, runs, tools))
    ensures Faithful(said, orphan, AfterStream(reply, replies, runs, tools))
    ensures said == Block(reply, runs, tools) && reply.toolCalls == [] ==> said == AfterStream(reply, replies, runs, tools)
  {
    hide Block, Rounds;
  }

  lemma StreamedIs(stream: seq<Chunk>, replies: seq<Option<Reply>>, runs: seq<Result<string, string>>, tools: set<string>)
    ensures Streamed(Some(stream), replies, runs, tools) == AfterStream(Reply(AllContent(stream), AllCalls(stream)), replies, runs, tools)
  {
  }

  lemma NothingStreamed(replies: seq<Option<Reply>>, runs: seq<Result<string, string>>, tools: set<string>)
    ensures Streamed(None, replies, runs, tools) == []
  {
  }

  lemma {:induction false} StreamGoesOn(reply: Reply, more: seq<Message>, orphan: Option<Message>, replies: seq<Option<Reply>>,
                    runs: seq<Result<string, string>>, tools: set<string>)
    requires reply.toolCalls != []
    requires Faithful(more, orphan, Rounds(replies, RestAfter(runs, |reply.toolCalls|), tools, MAX_TOOL_ROUNDS))
    ensures Faithful(Block(reply, runs, tools) + more, orphan, AfterStream(reply, replies, runs, tools))
    ensures more == Rounds(replies, RestAfter(runs, |reply.toolCalls|), tools, MAX_TOOL_ROUNDS) ==>
              Block(reply, runs, tools) + more == AfterStream(reply, replies, runs, tools)
  {
    hide Block, Rounds;
    var block := Block(reply, runs, tools);
    assert orphan.Some? ==> block + more + [orphan.value] == block + (more + [orphan.value]);
  }

  lemma ResultKeepsId(call: ToolCall, ran: Result<string, string>, tools: set<string>)
    ensures ResultOf(call, ran, tools).callId == call.id
  {
  }

  lemma NothingSaid()
    ensures Closed([]) && OpenOnlyAtEnd([])
  {
  }
}
