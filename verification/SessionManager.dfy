/** internal/engine/session_manager.go and persistence.go over the message operations of
    internal/storage/conversations.go: one session per conversation, each message written before
    it is appended. */
module SessionManager {
  import opened Wrappers
  import opened Faults
  import opened Messages
  import opened Session
  import opened Transcript
  import MessageTable
  import Aead

  /** What storing and loading does to the text of a message. json gives the arguments of a tool
      call as they come back, or None if they are not JSON and the marshalling fails. */
  datatype Codec = Codec(scrub: string -> string, json: string -> Option<string>)

  predicate Marshals(c: Codec, calls: seq<ToolCall>) {
    forall i :: 0 <= i < |calls| ==> c.json(calls[i].arguments).Some?
  }

  /** Tool calls that do not marshal are left out of the row. */
  function StoredCalls(c: Codec, calls: seq<ToolCall>): seq<ToolCall> {
    if Marshals(c, calls)
    then seq(|calls|, i requires 0 <= i < |calls| => calls[i].(arguments := c.json(calls[i].arguments).value))
    else []
  }

  /** The message as it comes back from the store. */
  function Stored(c: Codec, m: Message): Message {
    Message(m.role, c.scrub(m.content), StoredCalls(c, m.toolCalls), m.toolCallId)
  }

  function AllStored(c: Codec, ms: seq<Message>): seq<Message> {
    if |ms| == 0 then [] else AllStored(c, ms[..|ms|-1]) + [Stored(c, ms[|ms|-1])]
  }

  /** Role and call id are stored as they are, the text scrubbed. A message is stored as itself exactly
      if the scrubber leaves its text alone and its arguments come back unchanged. */
  lemma {:induction false} StoredAsItselfIff(c: Codec, m: Message)
    ensures Stored(c, m).role == m.role && Stored(c, m).toolCallId == m.toolCallId && Stored(c, m).content == c.scrub(m.content)
    ensures Marshals(c, m.toolCalls) ==>
              |Stored(c, m).toolCalls| == |m.toolCalls| &&
              forall i :: 0 <= i < |m.toolCalls| ==> Some(Stored(c, m).toolCalls[i].arguments) == c.json(m.toolCalls[i].arguments)
    ensures Stored(c, m) == m <==>
              c.scrub(m.content) == m.content &&
              forall i :: 0 <= i < |m.toolCalls| ==> c.json(m.toolCalls[i].arguments) == Some(m.toolCalls[i].arguments)
  {
    if Stored(c, m) == m {
      forall i | 0 <= i < |m.toolCalls| ensures c.json(m.toolCalls[i].arguments) == Some(m.toolCalls[i].arguments) {
        assert Stored(c, m).toolCalls[i] == m.toolCalls[i];
      }
    }
    if forall i :: 0 <= i < |m.toolCalls| ==> c.json(m.toolCalls[i].arguments) == Some(m.toolCalls[i].arguments) {
      assert Marshals(c, m.toolCalls);
      assert StoredCalls(c, m.toolCalls) == m.toolCalls;
    }
  }

  lemma {:induction false} AllStoredAt(c: Codec, ms: seq<Message>)
    ensures |AllStored(c, ms)| == |ms|
    ensures forall i :: 0 <= i < |ms| ==> AllStored(c, ms)[i] == Stored(c, ms[i])
  {
    if |ms| > 0 {
      AllStoredAt(c, ms[..|ms|-1]);
    }
  }

  lemma {:induction false} AllStoredFrom(c: Codec, ms: seq<Message>, k: nat)
    requires k <= |ms|
    ensures |AllStored(c, ms)| == |ms| && AllStored(c, ms)[k..] == AllStored(c, ms[k..])
  {
    hide AllStored, Stored;
    AllStoredAt(c, ms);
    AllStoredAt(c, ms[k..]);
  }

  /** Every message that calls tools gives arguments that are JSON. */
  predicate AllMarshal(c: Codec, ms: seq<Message>) {
    forall i :: 0 <= i < |ms| ==> Marshals(c, Calls(ms[i]))
  }

  /** The calls of one message are all kept, in order and under their ids, or all lost: exactly
      if the arguments of one of them are not JSON. */
  lemma {:induction false} CallsLostIff(c: Codec, m: Message)
    requires m.toolCalls != []
    ensures Stored(c, m).toolCalls == [] <==> exists i :: 0 <= i < |m.toolCalls| && c.json(m.toolCalls[i].arguments) == None
    ensures Stored(c, m).toolCalls != [] ==>
              |Stored(c, m).toolCalls| == |m.toolCalls| &&
              forall i :: 0 <= i < |m.toolCalls| ==>
                Stored(c, m).toolCalls[i].id == m.toolCalls[i].id && Stored(c, m).toolCalls[i].name == m.toolCalls[i].name
  {
    if Marshals(c, m.toolCalls) {
      assert |Stored(c, m).toolCalls| == |m.toolCalls|;
    }
  }

  /** A closed transcript that is stored and loaded again is closed if and only if none of its
      calls was lost: the answers to a lost call are left over. */
  lemma {:induction false} StoredClosedIff(c: Codec, ms: seq<Message>)
    requires Closed(ms)
    ensures Closed(AllStored(c, ms)) <==> AllMarshal(c, ms)
  {
    if |ms| > 0 {
      var n := |Calls(ms[0])|;
      StoredClosedIff(c, ms[n+1..]);
      hide Closed;
      AllStoredFrom(c, ms, n + 1);
      if Marshals(c, Calls(ms[0])) {
        BlockMarshals(c, ms, n);
        StoredBlock(c, ms, n);
      } else {
        LostCallLeavesAnswers(c, ms, n);
      }
    }
  }

  lemma {:induction false} BlockMarshals(c: Codec, ms: seq<Message>, n: nat)
    requires Closed(ms) && |ms| > 0 && n == |Calls(ms[0])| < |ms| && Marshals(c, Calls(ms[0]))
    ensures AllMarshal(c, ms) <==> AllMarshal(c, ms[n+1..])
  {
    forall i | 0 < i <= n ensures Calls(ms[i]) == [] {
      assert Answers(ms[1..][i-1], Calls(ms[0])[i-1]);
    }
    forall i | n < i < |ms| ensures ms[i] == ms[n+1..][i-n-1] {
    }
    hide Marshals, Closed;
    if AllMarshal(c, ms[n+1..]) {
      forall i | 0 <= i < |ms| ensures Marshals(c, Calls(ms[i])) {
        if 0 < i <= n {
          NothingMarshals(c);
        } else if n < i {
          assert Marshals(c, Calls(ms[n+1..][i-n-1]));
        }
      }
    }
  }

  lemma NothingMarshals(c: Codec)
    ensures Marshals(c, [])
  {
  }

  lemma {:induction false} StoredBlock(c: Codec, ms: seq<Message>, n: nat)
    requires Closed(ms) && |ms| > 0 && n == |Calls(ms[0])| < |ms| && Marshals(c, Calls(ms[0]))
    requires |AllStored(c, ms)| == |ms|
    ensures Closed(AllStored(c, ms)) <==> Closed(AllStored(c, ms)[n+1..])
  {
    AllStoredAt(c, ms);
    var s := AllStored(c, ms);
    assert s[0] == Stored(c, ms[0]) && |Calls(s[0])| == n;
    forall k | 0 <= k < n ensures Answers(s[1..][k], Calls(s[0])[k]) {
      assert Answers(ms[1..][k], Calls(ms[0])[k]) && s[k+1] == Stored(c, ms[k+1]);
    }
    hide AllStored, Stored, Marshals;
  }

  lemma {:induction false} LostCallLeavesAnswers(c: Codec, ms: seq<Message>, n: nat)
    requires Closed(ms) && |ms| > 0 && n == |Calls(ms[0])| < |ms| && !Marshals(c, Calls(ms[0]))
    ensures !Closed(AllStored(c, ms)) && !AllMarshal(c, ms)
  {
    AllStoredAt(c, ms);
    var s := AllStored(c, ms);
    assert n > 0 && Answers(ms[1..][0], Calls(ms[0])[0]);
    assert Calls(s[0]) == [] && s[1..][0].role == "tool";
  }

  datatype StoredRow = StoredRow(conversationId: string, message: Message)

  /** The messages of one conversation, oldest first. */
  function Conversation(rows: seq<StoredRow>, id: string): seq<Message> {
    if |rows| == 0 then []
    else Conversation(rows[..|rows|-1], id) +
         (if rows[|rows|-1].conversationId == id then [rows[|rows|-1].message] else [])
  }

  lemma {:induction false} ConversationGrows(rows: seq<StoredRow>, r: StoredRow, id: string)
    ensures Conversation(rows + [r], id) == Conversation(rows, id) + (if r.conversationId == id then [r.message] else [])
  {
    assert (rows + [r])[..|rows|] == rows;
  }

  lemma {:induction false} SaidSomething(rows: seq<StoredRow>, id: string)
    ensures Conversation(rows, id) != [] ==> exists i :: 0 <= i < |rows| && rows[i].conversationId == id
  {
    if |rows| > 0 && rows[|rows|-1].conversationId != id {
      SaidSomething(rows[..|rows|-1], id);
    }
  }

  /** Row by row, what the table holds for a reader with that key; decode is the step from a row
      that was read to a message. */
  predicate Holds(rows: seq<MessageTable.Row>, key: Option<Aead.Key>, decode: MessageTable.StoredMessage -> Message,
                  stored: seq<StoredRow>)
  {
    |rows| == |stored| && forall i :: 0 <= i < |rows| ==> HoldsRow(rows[i], key, decode, stored[i])
  }

  predicate HoldsRow(row: MessageTable.Row, key: Option<Aead.Key>, decode: MessageTable.StoredMessage -> Message,
                     stored: StoredRow)
  {
    && row.conversationId == stored.conversationId && MessageTable.ReadRow(row, key).Success?
    && decode(MessageTable.ReadRow(row, key).value) == stored.message
  }

  /** The reading of the table, message by message, is the conversation: if the stamps of its rows
      never went backwards. */
  lemma {:induction false} TableConversation(rows: seq<MessageTable.Row>, key: Option<Aead.Key>,
                                             decode: MessageTable.StoredMessage -> Message, stored: seq<StoredRow>, id: string)
    requires Holds(rows, key, decode, stored) && MessageTable.RowidsGrow(rows)
    requires MessageTable.Chronological(MessageTable.Filed(rows, id))
    ensures var read := MessageTable.ReadAll(MessageTable.Conversation(rows, id), key);
            && read.Success? && |read.value| == |Conversation(stored, id)|
            && forall i :: 0 <= i < |read.value| ==> decode(read.value[i]) == Conversation(stored, id)[i]
  {
    MessageTable.WrittenOrderIff(rows, id);
    hide MessageTable.RowidsGrow, MessageTable.Chronological;
    FiledConversation(rows, key, decode, stored, id);
  }

  lemma {:induction false} FiledConversation(rows: seq<MessageTable.Row>, key: Option<Aead.Key>,
                                             decode: MessageTable.StoredMessage -> Message, stored: seq<StoredRow>, id: string)
    requires Holds(rows, key, decode, stored)
    ensures var read := MessageTable.ReadAll(MessageTable.Filed(rows, id), key);
            && read.Success? && |read.value| == |Conversation(stored, id)|
            && forall i :: 0 <= i < |read.value| ==> decode(read.value[i]) == Conversation(stored, id)[i]
  {
    hide MessageTable.ReadRow;
    if |rows| > 0 {
      var front, last := rows[..|rows|-1], rows[|rows|-1];
      FiledConversation(front, key, decode, stored[..|rows|-1], id);
      assert HoldsRow(last, key, decode, stored[|rows|-1]);
      var filed := MessageTable.Filed(front, id);
      if last.conversationId == id {
        ReadOneMore(filed, last, key);
      } else {
        assert MessageTable.Filed(rows, id) == filed;
      }
    }
  }

  lemma ReadOneMore(rows: seq<MessageTable.Row>, row: MessageTable.Row, key: Option<Aead.Key>)
    requires MessageTable.ReadAll(rows, key).Success? && MessageTable.ReadRow(row, key).Success?
    ensures MessageTable.ReadAll(rows + [row], key)
         == Success(MessageTable.ReadAll(rows, key).value + [MessageTable.ReadRow(row, key).value])
  {
    assert (rows + [row])[..|rows|] == rows;
  }

  class Store {
    var conversations: set<string>
    var rows: seq<StoredRow>
    const codec: Codec

    /** No message without its conversation. */
    predicate Valid()
      reads this
    {
      forall i :: 0 <= i < |rows| ==> rows[i].conversationId in conversations
    }

    constructor (codec: Codec)
      ensures Valid() && conversations == {} && rows == [] && this.codec == codec
    {
      this.codec := codec;
      conversations, rows := {}, [];
    }

    /** Two statements without a transaction: the row can be there although the call fails. */
    method AddMessage(id: string, m: Message, faults: FaultPlan) returns (ok: bool)
      modifies this`rows, faults
      ensures old(Valid()) && id in conversations ==> Valid()
      ensures rows == old(rows) || rows == old(rows) + [StoredRow(id, Stored(codec, m))]
      ensures ok ==> rows == old(rows) + [StoredRow(id, Stored(codec, m))]
      ensures faults.reliable ==> ok
    {
      ok := faults.Proceed();   // INSERT INTO messages
      if !ok {
        return;
      }
      rows := rows + [StoredRow(id, Stored(codec, m))];
      ok := faults.Proceed();   // UPDATE conversations
    }

    /** One transaction. */
    method EnsureConversationAndAddMessage(id: string, m: Message, faults: FaultPlan) returns (ok: bool)
      modifies this, faults
      ensures old(Valid()) ==> Valid()
      ensures !ok ==> rows == old(rows) && conversations == old(conversations)
      ensures ok ==> rows == old(rows) + [StoredRow(id, Stored(codec, m))] && conversations == old(conversations) + {id}
      ensures faults.reliable ==> ok
    {
      var txConversations, txRows := conversations, rows;
      ok := faults.Proceed();   // begin, look for the conversation
      if !ok {
        return;
      }
      if id !in txConversations {
        ok := faults.Proceed();
        if !ok {
          return;
        }
        txConversations := txConversations + {id};
      }
      ok := faults.Proceed();   // insert, touch, commit
      if !ok {
        return;
      }
      txRows := txRows + [StoredRow(id, Stored(codec, m))];
      conversations, rows := txConversations, txRows;
    }

    method GetMessages(id: string, faults: FaultPlan) returns (messages: Result<seq<Message>, ()>)
      modifies faults
      ensures messages.Success? ==> messages.value == Conversation(rows, id)
      ensures faults.reliable ==> messages.Success?
    {
      var ok := faults.Proceed();
      messages := if ok then Success(Conversation(rows, id)) else Failure(());
    }
  }

  datatype SessionKey = SessionKey(channel: string, conversationId: string)

  class SessionManager {
    var sessions: map<SessionKey, Session>
    var known: set<string>
    const store: Store?

    /** A conversation marked known has its row; each session is its key's. */
    ghost predicate Valid()
      reads this, store
    {
      && (store != null ==> store.Valid() && known <= store.conversations)
      && (forall key :: key in sessions ==> sessions[key].conversationId == key.conversationId)
    }

    constructor (store: Store?)
      requires store != null ==> store.Valid()
      ensures Valid() && this.store == store && sessions == map[] && known == {}
    {
      this.store := store;
      sessions, known := map[], {};
    }

    /** A new session starts with the stored conversation; an existing one is handed out as it is. */
    method GetOrCreate(key: SessionKey, faults: FaultPlan) returns (session: Result<Session, ()>)
      requires Valid()
      modifies this, faults
      ensures Valid()
      ensures session.Failure? ==> sessions == old(sessions) && known == old(known)
      ensures session.Success? ==> sessions == old(sessions)[key := session.value] && session.value.conversationId == key.conversationId
      ensures session.Success? && key in old(sessions) ==> session.value == old(sessions)[key] && known == old(known)
      ensures session.Success? && key !in old(sessions) ==>
                && fresh(session.value) && session.value.Valid() && session.value.channelMade && session.value.slot == None
                && !session.value.summarizing
                && session.value.history == if store == null then [] else Conversation(store.rows, key.conversationId)
      ensures session.Success? && key !in old(sessions) ==>
                known == old(known) + (if session.value.history != [] then {key.conversationId} else {})
      ensures faults.reliable ==> session.Success?
    {
      if key in sessions {
        return Success(sessions[key]);
      }
      var s := new Session(key.conversationId);
      if store != null {
        var messages := store.GetMessages(key.conversationId, faults);
        if messages.Failure? {
          return Failure(());
        }
        SaidSomething(store.rows, key.conversationId);
        if |messages.value| > 0 {
          s.history := messages.value;
          known := known + {key.conversationId};
        }
      }
      s.InitAsync();
      sessions := sessions[key := s];
      return Success(s);
    }

    method Remove(key: SessionKey)
      requires Valid()
      modifies this`sessions
      ensures Valid() && sessions == old(sessions) - {key}
    {
      sessions := sessions - {key};
    }

    /** The same for user, assistant and tool messages. On the first message of a conversation
        nothing is written unless everything is; later a row can outlive a failed call. */
    method PersistMessage(session: Session, m: Message, faults: FaultPlan) returns (ok: bool)
      requires Valid()
      modifies this`known, store, faults
      ensures Valid() && old(known) <= known <= old(known) + {session.conversationId}
      ensures store != null ==> old(store.conversations) <= store.conversations <= old(store.conversations) + {session.conversationId}
      ensures store == null ==> ok
      ensures store != null && ok ==>
                store.rows == old(store.rows) + [StoredRow(session.conversationId, Stored(store.codec, m))] &&
                session.conversationId in known
      ensures store != null && !ok ==>
                || store.rows == old(store.rows)
                || (store.rows == old(store.rows) + [StoredRow(session.conversationId, Stored(store.codec, m))] &&
                    session.conversationId in old(known))
      ensures faults.reliable ==> ok
    {
      if store == null {
        return true;
      }
      if session.conversationId in known {
        ok := store.AddMessage(session.conversationId, m, faults);
        return;
      }
      ok := store.EnsureConversationAndAddMessage(session.conversationId, m, faults);
      if ok {
        known := known + {session.conversationId};
      }
    }
  }
}
