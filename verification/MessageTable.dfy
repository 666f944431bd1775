/** internal/storage/conversations.go: the messages table, reading a conversation back, and the
    one-off encryption of plaintext rows. */
module MessageTable {
  import opened Wrappers
  import opened Aead
  import opened Ordering
  import opened Faults

  /** created_at: the stored text, what SQLite's datetime() makes of it (NULL is None), and what
      datetime() makes of the text the driver hands back when the column is scanned. */
  datatype CreatedAt = CreatedAt(text: string, second: Option<int>, scanned: Option<int>)

  type Stamp = s: CreatedAt | s.second.Some? ==> s.scanned == s.second witness CreatedAt("", None, None)

  datatype Row = Row(
    rowid: nat,
    id: string,
    conversationId: string,
    role: string,
    content: Text,
    toolCalls: Text,
    toolCallId: string,
    tokenCount: int,
    createdAt: Stamp,
    encrypted: bool)

  datatype StoredMessage = StoredMessage(
    id: string,
    conversationId: string,
    role: string,
    content: Text,
    toolCalls: Option<Text>,
    toolCallId: string,
    tokenCount: int,
    createdAt: Stamp)

  datatype StoreError =
    | NoEncryptor(id: string)
    | BadBase64(id: string, field: string)
    | CannotDecrypt(id: string, field: string)
    | NoKeySet
    | Interrupted

  function Aad(r: Row): string {
    MessageAad(r.id, r.conversationId, r.role)
  }

  // ----- Reading -----

  function ReadField(r: Row, value: Text, key: Key, field: string): Result<Text, StoreError> {
    if !Decodes(value) then Failure(BadBase64(r.id, field))
    else match Open(key, Aad(r), value)
      case Some(plain) => Success(plain)
      case None => Failure(CannotDecrypt(r.id, field))
  }

  /** One row as GetMessages returns it, read with the given encryptor. */
  function ReadRow(r: Row, key: Option<Key>): Result<StoredMessage, StoreError> {
    var message := StoredMessage(r.id, r.conversationId, r.role, r.content,
                                 if r.toolCalls == EMPTY then None else Some(r.toolCalls),
                                 r.toolCallId, r.tokenCount, r.createdAt);
    if !r.encrypted then Success(message)
    else if key.None? then Failure(NoEncryptor(r.id))
    else match ReadField(r, r.content, key.value, "content")
      case Failure(e) => Failure(e)
      case Success(content) =>
        if r.toolCalls == EMPTY then Success(message.(content := content))
        else match ReadField(r, r.toolCalls, key.value, "tool_calls")
          case Failure(e) => Failure(e)
          case Success(calls) => Success(message.(content := content, toolCalls := Some(calls)))
  }

  /** Exactly which rows can be read, and as what: a plaintext row as it is, whatever the key; an
      encrypted one with the key it was sealed under, for this very row. */
  lemma ReadRowIff(r: Row, key: Option<Key>, m: StoredMessage)
    ensures ReadRow(r, key) == Success(m) <==>
              && m.id == r.id && m.conversationId == r.conversationId && m.role == r.role && m.toolCallId == r.toolCallId
              && m.tokenCount == r.tokenCount && m.createdAt == r.createdAt
              && (if !r.encrypted then m.content == r.content && m.toolCalls == (if r.toolCalls == EMPTY then None else Some(r.toolCalls))
                  else
                    && key.Some? && r.content == Sealed(key.value, MessageAad(r.id, r.conversationId, r.role), m.content)
                    && (if r.toolCalls == EMPTY then m.toolCalls == None
                        else m.toolCalls.Some? &&
                             r.toolCalls == Sealed(key.value, MessageAad(r.id, r.conversationId, r.role), m.toolCalls.value)))
  {
  }

  /** And with which error the others cannot. */
  lemma ReadRowFailsIff(r: Row, key: Option<Key>)
    ensures ReadRow(r, key) == Failure(NoEncryptor(r.id)) <==> r.encrypted && key == None
    ensures ReadRow(r, key) == Failure(BadBase64(r.id, "content")) <==> r.encrypted && key.Some? && !Decodes(r.content)
    ensures ReadRow(r, key) == Failure(CannotDecrypt(r.id, "content")) <==>
              r.encrypted && key.Some? && Decodes(r.content) && Open(key.value, Aad(r), r.content) == None
    ensures ReadRow(r, key).Failure? ==>
              var e := ReadRow(r, key).error;
              || e == NoEncryptor(r.id)
              || ((e.BadBase64? || e.CannotDecrypt?) && e.id == r.id && (e.field == "content" || e.field == "tool_calls"))
  {
  }

  function ReadAll(rows: seq<Row>, key: Option<Key>): Result<seq<StoredMessage>, StoreError> {
    if |rows| == 0 then Success([])
    else match ReadAll(rows[..|rows|-1], key)
      case Failure(e) => Failure(e)
      case Success(messages) =>
        match ReadRow(rows[|rows|-1], key)
        case Failure(e) => Failure(e)
        case Success(m) => Success(messages + [m])
  }

  /** ORDER BY created_at; rows with equal stamps come out in rowid order. */
  predicate Earlier(a: Row, b: Row) {
    Less(a.createdAt.text, b.createdAt.text) || (a.createdAt.text == b.createdAt.text && a.rowid < b.rowid)
  }

  function Insert(r: Row, sorted: seq<Row>): seq<Row> {
    if |sorted| == 0 || Earlier(r, sorted[0]) then [r] + sorted
    else [sorted[0]] + Insert(r, sorted[1..])
  }

  /** SELECT ... WHERE conversation_id = ? ORDER BY created_at ASC */
  function Conversation(rows: seq<Row>, conversationId: string): seq<Row> {
    if |rows| == 0 then []
    else
      var rest := Conversation(rows[1..], conversationId);
      if rows[0].conversationId == conversationId then Insert(rows[0], rest) else rest
  }

  predicate Chronological(rows: seq<Row>) {
    forall i, j :: 0 <= i < j < |rows| ==> !Earlier(rows[j], rows[i])
  }

  /** Never a later stamp in front of an earlier one, and equal stamps in the order of insertion. */
  lemma {:induction false} ChronologicalIff(rows: seq<Row>)
    ensures Chronological(rows) <==>
              forall i, j :: 0 <= i < j < |rows| ==>
                !Less(rows[j].createdAt.text, rows[i].createdAt.text) &&
                (rows[i].createdAt.text == rows[j].createdAt.text ==> rows[i].rowid <= rows[j].rowid)
  {
    if forall i, j :: 0 <= i < j < |rows| ==>
         !Less(rows[j].createdAt.text, rows[i].createdAt.text) &&
         (rows[i].createdAt.text == rows[j].createdAt.text ==> rows[i].rowid <= rows[j].rowid) {
      forall i, j | 0 <= i < j < |rows| ensures !Earlier(rows[j], rows[i]) {
      }
    }
    if Chronological(rows) {
      forall i, j | 0 <= i < j < |rows|
        ensures !Less(rows[j].createdAt.text, rows[i].createdAt.text)
        ensures rows[i].createdAt.text == rows[j].createdAt.text ==> rows[i].rowid <= rows[j].rowid
      {
        assert !Earlier(rows[j], rows[i]);
      }
    }
  }

  /** id is the primary key. */
  predicate UniqueIds(rows: seq<Row>) {
    UniqueUpTo(rows, |rows|)
  }

  predicate UniqueUpTo(rows: seq<Row>, n: nat)
    requires n <= |rows|
  {
    n == 0 || (UniqueUpTo(rows, n - 1) && forall i :: 0 <= i < n - 1 ==> rows[i].id != rows[n-1].id)
  }

  lemma {:induction false} UniqueIdsPairwise(rows: seq<Row>, n: nat)
    requires n <= |rows|
    ensures UniqueUpTo(rows, n) <==> forall i, j :: 0 <= i < j < n ==> rows[i].id != rows[j].id
  {
    if n > 0 {
      UniqueIdsPairwise(rows, n - 1);
    }
  }

  lemma {:induction false} SameIdsUnique(a: seq<Row>, b: seq<Row>)
    requires UniqueIds(a) && |a| == |b| && forall i :: 0 <= i < |a| ==> b[i].id == a[i].id
    ensures UniqueIds(b)
  {
    UniqueIdsPairwise(a, |a|);
    UniqueIdsPairwise(b, |b|);
  }

  lemma {:induction false} EarlierTransitive(a: Row, b: Row, c: Row)
    requires !Earlier(b, a) && !Earlier(c, b)
    ensures !Earlier(c, a)
  {
    var x, y, z := a.createdAt.text, b.createdAt.text, c.createdAt.text;
    LessTotal(x, y);
    LessTotal(y, z);
    LessIrreflexive(x);
    if Less(x, y) && Less(y, z) {
      LessTransitive(x, y, z);
    }
    if Less(z, x) && Less(x, z) {
      LessTransitive(x, z, x);
    }
  }

  lemma {:induction false} EarlierAsymmetric(a: Row, b: Row)
    requires Earlier(a, b)
    ensures !Earlier(b, a)
  {
    LessIrreflexive(a.createdAt.text);
    if Less(b.createdAt.text, a.createdAt.text) {
      if Less(a.createdAt.text, b.createdAt.text) {
        LessTransitive(a.createdAt.text, b.createdAt.text, a.createdAt.text);
      }
    }
  }

  lemma {:induction false} InsertKeepsOrder(r: Row, sorted: seq<Row>)
    requires Chronological(sorted)
    ensures Chronological(Insert(r, sorted))
    ensures multiset(Insert(r, sorted)) == multiset{r} + multiset(sorted)
  {
    if |sorted| == 0 {
    } else if Earlier(r, sorted[0]) {
      EarlierAsymmetric(r, sorted[0]);
      forall j | 0 <= j < |sorted| ensures !Earlier(sorted[j], r) {
        if j > 0 {
          EarlierTransitive(r, sorted[0], sorted[j]);
        }
      }
    } else {
      InsertKeepsOrder(r, sorted[1..]);
      var tail := Insert(r, sorted[1..]);
      assert sorted == [sorted[0]] + sorted[1..];
      forall j | 0 <= j < |tail| ensures !Earlier(tail[j], sorted[0]) {
        assert tail[j] in multiset(tail);
        assert tail[j] == r || tail[j] in sorted[1..];
      }
    }
  }

  /** The rows of a conversation, all of them, oldest first. */
  lemma {:induction false} ConversationIsSorted(rows: seq<Row>, conversationId: string)
    ensures Chronological(Conversation(rows, conversationId))
    ensures forall r :: multiset(Conversation(rows, conversationId))[r]
                     == if r.conversationId == conversationId then multiset(rows)[r] else 0
  {
    if |rows| > 0 {
      ConversationIsSorted(rows[1..], conversationId);
      assert rows == [rows[0]] + rows[1..];
      InsertKeepsOrder(rows[0], Conversation(rows[1..], conversationId));
    }
  }

  /** The rows of a conversation as they stand in the table. */
  function Filed(rows: seq<Row>, conversationId: string): seq<Row> {
    if |rows| == 0 then []
    else Filed(rows[..|rows|-1], conversationId) +
         (if rows[|rows|-1].conversationId == conversationId then [rows[|rows|-1]] else [])
  }

  lemma {:induction false} FiledFront(rows: seq<Row>, conversationId: string)
    requires |rows| > 0
    ensures Filed(rows, conversationId) ==
              (if rows[0].conversationId == conversationId then [rows[0]] else []) + Filed(rows[1..], conversationId)
    ensures forall r :: r in Filed(rows, conversationId) ==> r in rows
  {
    if |rows| > 1 {
      FiledFront(rows[..|rows|-1], conversationId);
      assert rows[..|rows|-1][1..] == rows[1..][..|rows|-2];
    }
  }

  /** Each row inserted behind the last. */
  predicate RowidsGrow(rows: seq<Row>) {
    forall i, j :: 0 <= i < j < |rows| ==> rows[i].rowid < rows[j].rowid
  }

  lemma {:induction false} FirstStaysFirst(r: Row, rest: seq<Row>)
    requires Chronological([r] + rest) && (|rest| > 0 ==> r.rowid < rest[0].rowid)
    ensures Insert(r, rest) == [r] + rest && Chronological(rest)
  {
    assert forall i :: 0 <= i < |rest| ==> ([r] + rest)[i+1] == rest[i];
    if |rest| > 0 {
      assert !Earlier(([r] + rest)[1], ([r] + rest)[0]);
      LessTotal(r.createdAt.text, rest[0].createdAt.text);
    }
  }

  /** A conversation comes back in the order in which it was written, exactly if its stamps never
      went backwards. */
  lemma {:induction false} WrittenOrderIff(rows: seq<Row>, conversationId: string)
    requires RowidsGrow(rows)
    ensures Conversation(rows, conversationId) == Filed(rows, conversationId) <==> Chronological(Filed(rows, conversationId))
  {
    ConversationIsSorted(rows, conversationId);
    if Chronological(Filed(rows, conversationId)) {
      InWrittenOrder(rows, conversationId);
    }
  }

  lemma {:induction false} InWrittenOrder(rows: seq<Row>, conversationId: string)
    requires RowidsGrow(rows) && Chronological(Filed(rows, conversationId))
    ensures Conversation(rows, conversationId) == Filed(rows, conversationId)
  {
    if |rows| > 0 {
      FiledFront(rows, conversationId);
      var rest := Filed(rows[1..], conversationId);
      if |rows| > 1 {
        FiledFront(rows[1..], conversationId);
      }
      if rows[0].conversationId == conversationId {
        assert |rest| > 0 ==> rest[0] in rows[1..];
        FirstStaysFirst(rows[0], rest);
      } else {
        assert Filed(rows, conversationId) == rest;
      }
      InWrittenOrder(rows[1..], conversationId);
    }
  }

  /** Two tables a reader cannot tell apart, each read with its own key. */
  predicate SameReading(a: seq<Row>, ka: Option<Key>, b: seq<Row>, kb: Option<Key>) {
    |a| == |b| && forall i :: 0 <= i < |a| ==> SamePlace(a[i], b[i]) && ReadRow(a[i], ka) == ReadRow(b[i], kb)
  }

  predicate SamePlace(r: Row, s: Row) {
    r.rowid == s.rowid && r.createdAt == s.createdAt && r.conversationId == s.conversationId
  }

  predicate SameRow(r: Row, ka: Option<Key>, s: Row, kb: Option<Key>) {
    SamePlace(r, s) && ReadRow(r, ka) == ReadRow(s, kb)
  }

  lemma {:induction false} ConsKeepsReading(r: Row, a: seq<Row>, ka: Option<Key>, s: Row, b: seq<Row>, kb: Option<Key>)
    requires SameReading(a, ka, b, kb) && SameRow(r, ka, s, kb)
    ensures SameReading([r] + a, ka, [s] + b, kb)
  {
    hide SamePlace, ReadRow;
  }

  lemma {:induction false} TailKeepsReading(a: seq<Row>, ka: Option<Key>, b: seq<Row>, kb: Option<Key>)
    requires SameReading(a, ka, b, kb) && |a| > 0
    ensures SameRow(a[0], ka, b[0], kb) && SameReading(a[1..], ka, b[1..], kb)
  {
    hide SamePlace, ReadRow;
    assert SamePlace(a[0], b[0]);
  }

  lemma {:induction false} InsertKeepsReading(r: Row, a: seq<Row>, ka: Option<Key>, s: Row, b: seq<Row>, kb: Option<Key>)
    requires SameReading(a, ka, b, kb) && SameRow(r, ka, s, kb)
    ensures SameReading(Insert(r, a), ka, Insert(s, b), kb)
  {
    hide ReadRow, Less, SameReading;
    if |a| == 0 || Earlier(r, a[0]) {
      if |a| > 0 {
        TailKeepsReading(a, ka, b, kb);
      }
      ConsKeepsReading(r, a, ka, s, b, kb);
      SameLength(a, ka, b, kb);
    } else {
      SameLength(a, ka, b, kb);
      TailKeepsReading(a, ka, b, kb);
      InsertKeepsReading(r, a[1..], ka, s, b[1..], kb);
      ConsKeepsReading(a[0], Insert(r, a[1..]), ka, b[0], Insert(s, b[1..]), kb);
    }
  }

  lemma SameLength(a: seq<Row>, ka: Option<Key>, b: seq<Row>, kb: Option<Key>)
    requires SameReading(a, ka, b, kb)
    ensures |a| == |b|
  {
  }

  lemma {:induction false} ConversationKeepsReading(a: seq<Row>, ka: Option<Key>, b: seq<Row>, kb: Option<Key>, conversationId: string)
    requires SameReading(a, ka, b, kb)
    ensures SameReading(Conversation(a, conversationId), ka, Conversation(b, conversationId), kb)
  {
    hide ReadRow;
    if |a| > 0 {
      TailKeepsReading(a, ka, b, kb);
      ConversationKeepsReading(a[1..], ka, b[1..], kb, conversationId);
      InsertKeepsReading(a[0], Conversation(a[1..], conversationId), ka, b[0], Conversation(b[1..], conversationId), kb);
    }
  }

  lemma {:induction false} ReadAllKeepsReading(a: seq<Row>, ka: Option<Key>, b: seq<Row>, kb: Option<Key>)
    requires SameReading(a, ka, b, kb)
    ensures ReadAll(a, ka) == ReadAll(b, kb)
  {
    if |a| > 0 {
      ReadAllKeepsReading(a[..|a|-1], ka, b[..|b|-1], kb);
      assert ReadRow(a[|a|-1], ka) == ReadRow(b[|b|-1], kb);
    }
  }

  /** Row-by-row agreement carries over to whole conversations: same messages, same order, same
      error if there is one. */
  lemma {:induction false} SameReadingSameConversation(a: seq<Row>, ka: Option<Key>, b: seq<Row>, kb: Option<Key>, conversationId: string)
    requires SameReading(a, ka, b, kb)
    ensures ReadAll(Conversation(a, conversationId), ka) == ReadAll(Conversation(b, conversationId), kb)
  {
    ConversationKeepsReading(a, ka, b, kb, conversationId);
    ReadAllKeepsReading(Conversation(a, conversationId), ka, Conversation(b, conversationId), kb);
  }

  lemma {:induction false} ReadAllAt(rows: seq<Row>, key: Option<Key>)
    ensures ReadAll(rows, key).Success? <==> forall i :: 0 <= i < |rows| ==> ReadRow(rows[i], key).Success?
    ensures ReadAll(rows, key).Success? ==>
              |ReadAll(rows, key).value| == |rows| &&
              forall i :: 0 <= i < |rows| ==> ReadRow(rows[i], key) == Success(ReadAll(rows, key).value[i])
  {
    if |rows| > 0 {
      var front := rows[..|rows|-1];
      ReadAllAt(front, key);
      if forall i :: 0 <= i < |rows| ==> ReadRow(rows[i], key).Success? {
        forall i | 0 <= i < |front| ensures ReadRow(front[i], key).Success? {
          assert front[i] == rows[i];
        }
      }
      if ReadAll(rows, key).Success? {
        forall i | 0 <= i < |rows| ensures ReadRow(rows[i], key) == Success(ReadAll(rows, key).value[i]) {
          if i < |front| {
            assert front[i] == rows[i];
          }
        }
      }
    }
  }

  /** What is read is of this conversation and in the order of its stamps. */
  lemma {:induction false} ReadInOrder(rows: seq<Row>, conversationId: string, key: Option<Key>)
    ensures var read := ReadAll(Conversation(rows, conversationId), key);
            read.Success? ==>
              && (forall i :: 0 <= i < |read.value| ==> read.value[i].conversationId == conversationId)
              && (forall i, j :: 0 <= i < j < |read.value| ==> !Less(read.value[j].createdAt.text, read.value[i].createdAt.text))
  {
    var selected := Conversation(rows, conversationId);
    ConversationIsSorted(rows, conversationId);
    ChronologicalIff(selected);
    ReadAllAt(selected, key);
    hide Conversation, Chronological, Earlier, Less, ReadAll, ReadRow;
    if ReadAll(selected, key).Success? {
      forall i | 0 <= i < |selected|
        ensures ReadAll(selected, key).value[i].conversationId == conversationId
        ensures ReadAll(selected, key).value[i].createdAt == selected[i].createdAt
      {
        ReadRowIff(selected[i], key, ReadAll(selected, key).value[i]);
        assert multiset(selected)[selected[i]] > 0;
      }
    }
  }

  // ----- Selecting rows for a batch -----

  /** Where a paged query resumes: nowhere yet, or after the last row of the previous page. */
  datatype Cursor = Start | After(second: Option<int>, id: string)

  datatype Where = Plaintext | Encrypted(cursor: Cursor)

  /** datetime(created_at) > datetime(?) OR (datetime(created_at) = datetime(?) AND id > ?),
      false when either side is NULL. */
  predicate Past(r: Row, c: Cursor) {
    match c
    case Start => true
    case After(second, id) =>
      r.createdAt.second.Some? && second.Some? &&
      (r.createdAt.second.value > second.value || (r.createdAt.second.value == second.value && Less(id, r.id)))
  }

  predicate Matches(r: Row, w: Where) {
    match w
    case Plaintext => !r.encrypted
    case Encrypted(cursor) => r.encrypted && Past(r, cursor)
  }

  /** The positions of the matching rows. The table is kept in (created_at, id) order, so this
      is the order of the queries' ORDER BY. */
  function Select(rows: seq<Row>, w: Where): seq<nat> {
    if |rows| == 0 then []
    else Select(rows[..|rows|-1], w) + (if Matches(rows[|rows|-1], w) then [|rows|-1] else [])
  }

  function Limit(positions: seq<nat>, limit: nat): seq<nat> {
    if |positions| <= limit then positions else positions[..limit]
  }

  predicate OrderedTable(rows: seq<Row>) {
    UniqueIds(rows) && forall i, j :: 0 <= i < j < |rows| ==> Before(rows[i], rows[j])
  }

  predicate Before(a: Row, b: Row) {
    Less(a.createdAt.text, b.createdAt.text) || (a.createdAt.text == b.createdAt.text && Less(a.id, b.id))
  }

  predicate Ascending(s: seq<nat>) {
    forall i, j :: 0 <= i < j < |s| ==> s[i] < s[j]
  }

  lemma {:induction false} SelectFinds(rows: seq<Row>, w: Where)
    ensures Ascending(Select(rows, w))
    ensures forall p :: p in Select(rows, w) <==> 0 <= p < |rows| && Matches(rows[p], w)
    ensures forall i :: 0 <= i < |Select(rows, w)| ==> Select(rows, w)[i] < |rows|
  {
    if |rows| > 0 {
      SelectFinds(rows[..|rows|-1], w);
    }
  }

  lemma {:induction false} AscendingUnique(s: seq<nat>, t: seq<nat>)
    requires Ascending(s) && Ascending(t)
    requires forall p :: p in s <==> p in t
    ensures s == t
  {
    assert |s| > 0 <==> |t| > 0 by {
      assert |s| > 0 ==> s[0] in s;
      assert |t| > 0 ==> t[0] in t;
    }
    if |s| > 0 {
      var a, b := s[|s|-1], t[|t|-1];
      assert a in t && b in s;
      assert a == b;
      var s', t' := s[..|s|-1], t[..|t|-1];
      forall p ensures p in s' <==> p in t' {
        assert p in s <==> p in s' || p == a;
        assert p in t <==> p in t' || p == b;
        if p in s' {
          assert p < a;
        }
        if p in t' {
          assert p < b;
        }
      }
      AscendingUnique(s', t');
      assert s == s' + [a] && t == t' + [b];
    }
  }

  lemma {:induction false} AscendingHalvesDisjoint(s: seq<nat>, m: nat, p: nat)
    requires Ascending(s) && m <= |s|
    ensures p in s[..m] ==> p !in s[m..]
  {
    if p in s[..m] {
      var i :| 0 <= i < m && s[i] == p;
      forall j | m <= j < |s| ensures s[j] != p {
        assert s[i] < s[j];
      }
    }
  }

  /** UPDATE messages SET content = ?, tool_calls = ?, encrypted = 1 WHERE id = ? */
  function UpdateById(rows: seq<Row>, id: string, content: Text, toolCalls: Text): seq<Row> {
    if |rows| == 0 then []
    else
      var last := rows[|rows|-1];
      UpdateById(rows[..|rows|-1], id, content, toolCalls) +
      [if last.id == id then last.(content := content, toolCalls := toolCalls, encrypted := true) else last]
  }

  lemma {:induction false} UpdateByIdIndex(rows: seq<Row>, id: string, content: Text, toolCalls: Text)
    ensures var updated := UpdateById(rows, id, content, toolCalls);
            |updated| == |rows| &&
            forall i :: 0 <= i < |rows| ==>
              updated[i] == if rows[i].id == id then rows[i].(content := content, toolCalls := toolCalls, encrypted := true)
                            else rows[i]
  {
    if |rows| > 0 {
      UpdateByIdIndex(rows[..|rows|-1], id, content, toolCalls);
    }
  }

  lemma {:induction false} UpdateByIdHits(rows: seq<Row>, p: nat, content: Text, toolCalls: Text)
    requires UniqueIds(rows) && p < |rows|
    ensures UpdateById(rows, rows[p].id, content, toolCalls)
         == rows[p := rows[p].(content := content, toolCalls := toolCalls, encrypted := true)]
  {
    UniqueIdsPairwise(rows, |rows|);
    UpdateByIdIndex(rows, rows[p].id, content, toolCalls);
  }

  // ----- Encrypting plaintext rows -----

  function SealIfAny(key: Key, aad: string, t: Text): Text {
    if t == EMPTY then EMPTY else Seal(key, aad, t)
  }

  function SealRow(r: Row, key: Key): Row {
    r.(content := Seal(key, Aad(r), r.content), toolCalls := SealIfAny(key, Aad(r), r.toolCalls), encrypted := true)
  }

  /** Sealing a plaintext row is invisible to a reader who holds the key. */
  lemma SealRowReads(r: Row, key: Key, other: Option<Key>)
    requires !r.encrypted
    ensures ReadRow(SealRow(r, key), Some(key)) == ReadRow(r, other)
  {
  }

  /** The row AddMessage inserts, with or without an encryptor. */
  function NewRow(m: StoredMessage, rowid: nat, key: Option<Key>): Row {
    var aad := MessageAad(m.id, m.conversationId, m.role);
    var calls := if m.toolCalls.Some? then m.toolCalls.value else EMPTY;
    Row(rowid, m.id, m.conversationId, m.role,
        if key.Some? then Seal(key.value, aad, m.content) else m.content,
        if key.Some? then SealIfAny(key.value, aad, calls) else calls,
        m.toolCallId, m.tokenCount, m.createdAt, key.Some?)
  }

  /** It reads back as the message, unless the message came with tool calls of no text at all. */
  lemma NewRowReadsIff(m: StoredMessage, rowid: nat, key: Option<Key>)
    ensures ReadRow(NewRow(m, rowid, key), key) == Success(m) <==> m.toolCalls != Some(EMPTY)
  {
  }

  /** With a key, nothing of the message is stored in the clear: both columns are sealed under it for
      this row, no other key reads the row, and no reader does without one. */
  lemma NewRowIsSealed(m: StoredMessage, rowid: nat, k: Key)
    ensures var r := NewRow(m, rowid, Some(k));
            var aad := m.id + "\0" + m.conversationId + "\0" + m.role;
            && r.encrypted && r.content == Sealed(k, aad, m.content)
            && (m.toolCalls.Some? && m.toolCalls.value != EMPTY ==> r.toolCalls == Sealed(k, aad, m.toolCalls.value))
            && (m.toolCalls == None || m.toolCalls == Some(EMPTY) ==> r.toolCalls == EMPTY)
    ensures ReadRow(NewRow(m, rowid, Some(k)), None) == Failure(NoEncryptor(m.id))
    ensures forall other :: other != k ==> ReadRow(NewRow(m, rowid, Some(k)), Some(other)) == Failure(CannotDecrypt(m.id, "content"))
  {
  }

  /** Without one it is stored as it is, and not flagged. */
  lemma NewRowIsPlain(m: StoredMessage, rowid: nat)
    ensures var r := NewRow(m, rowid, None);
            !r.encrypted && r.content == m.content && r.toolCalls == (if m.toolCalls.Some? then m.toolCalls.value else EMPTY)
    ensures forall reader :: ReadRow(NewRow(m, rowid, None), reader) == ReadRow(NewRow(m, rowid, None), None)
  {
  }

  /** The table after the rows at the given positions were sealed. */
  function SealAt(rows: seq<Row>, ps: seq<nat>, key: Key): seq<Row> {
    if |rows| == 0 then []
    else
      var last := rows[|rows|-1];
      SealAt(rows[..|rows|-1], ps, key) + [if |rows| - 1 in ps then SealRow(last, key) else last]
  }

  lemma {:induction false} SealAtIndex(rows: seq<Row>, ps: seq<nat>, key: Key)
    ensures |SealAt(rows, ps, key)| == |rows|
    ensures forall i :: 0 <= i < |rows| ==> SealAt(rows, ps, key)[i] == if i in ps then SealRow(rows[i], key) else rows[i]
  {
    if |rows| > 0 {
      SealAtIndex(rows[..|rows|-1], ps, key);
    }
  }

  /** After the first n plaintext rows were sealed the query returns the others. */
  lemma SelectAfterSealing(rows: seq<Row>, n: nat, key: Key)
    requires n <= |Select(rows, Plaintext)|
    ensures Select(SealAt(rows, Select(rows, Plaintext)[..n], key), Plaintext) == Select(rows, Plaintext)[n..]
  {
    var ps := Select(rows, Plaintext);
    var sealed := SealAt(rows, ps[..n], key);
    SealAtIndex(rows, ps[..n], key);
    SelectFinds(rows, Plaintext);
    SelectFinds(sealed, Plaintext);
    hide Select, SealAt;
    forall p: nat ensures p in Select(sealed, Plaintext) <==> p in ps[n..] {
      assert ps == ps[..n] + ps[n..];
      assert p in ps <==> p in ps[..n] || p in ps[n..];
      AscendingHalvesDisjoint(ps, n, p);
    }
    AscendingUnique(Select(sealed, Plaintext), ps[n..]);
  }

  /** One transaction over a page of plaintext rows: all of them sealed, or none. */
  method SealBatch(rows: seq<Row>, batch: seq<nat>, key: Key, faults: FaultPlan) returns (tx: seq<Row>, ok: bool)
    requires UniqueIds(rows) && Ascending(batch)
    requires forall i :: 0 <= i < |batch| ==> batch[i] < |rows|
    modifies faults
    ensures ok ==> tx == SealAt(rows, batch, key)
    ensures !ok ==> !faults.reliable
  {
    tx := rows;
    ok := true;
    SealAtNothing(rows, key);
    for k := 0 to |batch|
      invariant ok && tx == SealAt(rows, batch[..k], key)
    {
      ok := faults.Proceed();
      if !ok {
        return;
      }
      var r := rows[batch[k]];
      SealOneMore(rows, batch, k, key);
      tx := UpdateById(tx, r.id, Seal(key, Aad(r), r.content), SealIfAny(key, Aad(r), r.toolCalls));
    }
    assert batch[..|batch|] == batch;
  }

  lemma {:induction false} SealAtNothing(rows: seq<Row>, key: Key)
    ensures SealAt(rows, [], key) == rows
  {
    SealAtIndex(rows, [], key);
  }

  lemma {:induction false} SealOneMore(rows: seq<Row>, batch: seq<nat>, k: nat, key: Key)
    requires UniqueIds(rows) && Ascending(batch) && k < |batch| && batch[k] < |rows|
    ensures var r := rows[batch[k]];
            UpdateById(SealAt(rows, batch[..k], key), r.id, Seal(key, Aad(r), r.content), SealIfAny(key, Aad(r), r.toolCalls))
            == SealAt(rows, batch[..k+1], key)
  {
    var before := SealAt(rows, batch[..k], key);
    var r := rows[batch[k]];
    assert batch[k..][0] == batch[k];
    AscendingHalvesDisjoint(batch, k, batch[k]);
    assert batch[..k+1] == batch[..k] + [batch[k]];
    SealAtKeepsIds(rows, batch[..k], key);
    SealAtIndex(rows, batch[..k], key);
    SealAtIndex(rows, batch[..k+1], key);
    UpdateByIdHits(before, batch[k], Seal(key, Aad(r), r.content), SealIfAny(key, Aad(r), r.toolCalls));
  }

  const BATCH_SIZE: nat := 100

  /** The first n plaintext rows of the old table are sealed, a whole number of pages, and
      nothing else changed. */
  predicate SealedSoFar(before: seq<Row>, rows: seq<Row>, n: nat, key: Key) {
    var all := Select(before, Plaintext);
    n <= |all| && rows == SealAt(before, all[..n], key) && (n % BATCH_SIZE == 0 || n == |all|)
  }

  /** The page the query returns next: the first plaintext rows not sealed yet. */
  lemma {:induction false} NextPage(before: seq<Row>, rows: seq<Row>, n: nat, key: Key)
    requires UniqueIds(before) && SealedSoFar(before, rows, n, key)
    ensures UniqueIds(rows)
    ensures var all := Select(before, Plaintext);
            var batch := Limit(Select(rows, Plaintext), BATCH_SIZE);
            n + |batch| <= |all| && batch == all[n..n + |batch|] && Ascending(batch)
            && (|batch| == BATCH_SIZE || n + |batch| == |all|)
            && (forall i :: 0 <= i < |batch| ==> batch[i] < |rows|)
  {
    hide SealAt, Select, Matches, UniqueIds;
    SelectFinds(before, Plaintext);
    SelectAfterSealing(before, n, key);
    SelectFinds(rows, Plaintext);
    SealAtKeepsIds(before, Select(before, Plaintext)[..n], key);
  }

  /** Committing it seals a page more. */
  lemma {:induction false} NextPageSealed(before: seq<Row>, rows: seq<Row>, n: nat, batch: seq<nat>, tx: seq<Row>, key: Key)
    requires UniqueIds(before) && SealedSoFar(before, rows, n, key) && batch == Limit(Select(rows, Plaintext), BATCH_SIZE)
    requires tx == SealAt(rows, batch, key)
    ensures SealedSoFar(before, tx, n + |batch|, key)
  {
    hide SealAt, Select, Limit, Ascending;
    SelectFinds(before, Plaintext);
    NextPage(before, rows, n, key);
    SealAtInTwoSteps(before, Select(before, Plaintext), n, n + |batch|, key);
  }

  lemma {:induction false} SealAtKeepsIds(rows: seq<Row>, ps: seq<nat>, key: Key)
    requires UniqueIds(rows)
    ensures UniqueIds(SealAt(rows, ps, key))
  {
    SealAtIndex(rows, ps, key);
    SameIdsUnique(rows, SealAt(rows, ps, key));
  }

  class Database {
    var present: bool
    var rows: seq<Row>

    constructor (rows: seq<Row>)
      ensures this.rows == rows && present
    {
      this.rows := rows;
      this.present := true;
    }

    method GetMessages(conversationId: string, key: Option<Key>) returns (messages: Result<seq<StoredMessage>, StoreError>)
      ensures messages == ReadAll(Conversation(rows, conversationId), key)
      ensures messages.Success? ==>
                && (forall i :: 0 <= i < |messages.value| ==> messages.value[i].conversationId == conversationId)
                && (forall i, j :: 0 <= i < j < |messages.value| ==>
                      !Less(messages.value[j].createdAt.text, messages.value[i].createdAt.text))
    {
      ReadInOrder(rows, conversationId, key);
      hide Conversation, ReadRow, Less;
      var selected := Conversation(rows, conversationId);
      var read: seq<StoredMessage> := [];
      for i := 0 to |selected|
        invariant ReadAll(selected[..i], key) == Success(read)
        invariant forall j :: 0 <= j < i ==> ReadRow(selected[j], key).Success?
      {
        assert selected[..i+1][..i] == selected[..i];
        match ReadRow(selected[i], key) {
          case Failure(e) =>
            FailsAtFirstBadRow(selected, i, key);
            return Failure(e);
          case Success(m) => read := read + [m];
        }
      }
      assert selected[..|selected|] == selected;
      return Success(read);
    }

    /** Encrypts all plaintext rows in place, a transaction per page. */
    method MigrateToEncrypted(key: Option<Key>, faults: FaultPlan)
      returns (outcome: Result<(), StoreError>, ghost sealed: nat)
      requires UniqueIds(rows)
      modifies this`rows, faults
      ensures key.None? ==> outcome == Failure(NoKeySet) && rows == old(rows)
      ensures key.Some? ==> SealedSoFar(old(rows), rows, sealed, key.value)
      ensures outcome.Success? ==> sealed == |Select(old(rows), Plaintext)|
      ensures key.Some? && outcome.Failure? ==> outcome.error == Interrupted && !faults.reliable
      ensures outcome.Success? ==> forall i :: 0 <= i < |rows| ==> rows[i].encrypted
    {
      hide SealedSoFar, Select, SealAt, UniqueIds, Ascending;
      sealed := 0;
      if key.None? {
        return Failure(NoKeySet), 0;
      }
      ghost var start := rows;
      NothingSealedYet(rows, key.value);
      while true
        invariant SealedSoFar(start, rows, sealed, key.value)
        decreases |Select(start, Plaintext)| - sealed
      {
        var ok := faults.Proceed();
        if !ok {
          return Failure(Interrupted), sealed;
        }
        var batch := Limit(Select(rows, Plaintext), BATCH_SIZE);
        NextPage(start, rows, sealed, key.value);
        if |batch| == 0 {
          AllEncrypted(rows);
          return Success(()), sealed;
        }
        var tx, done := SealBatch(rows, batch, key.value, faults);
        if !done {
          return Failure(Interrupted), sealed;
        }
        NextPageSealed(start, rows, sealed, batch, tx, key.value);
        ok := faults.Proceed();
        if !ok {
          return Failure(Interrupted), sealed;
        }
        rows := tx;
        sealed := sealed + |batch|;
      }
    }
  }

  /** However far the migration got, each conversation reads as before. */
  lemma {:induction false} MigrationIsInvisible(before: seq<Row>, rows: seq<Row>, n: nat, key: Key, conversationId: string)
    requires SealedSoFar(before, rows, n, key)
    ensures ReadAll(Conversation(rows, conversationId), Some(key)) == ReadAll(Conversation(before, conversationId), Some(key))
  {
    hide SealAt, Select, ReadAll, Conversation;
    var ps := Select(before, Plaintext)[..n];
    SelectFinds(before, Plaintext);
    SealAtIndex(before, ps, key);
    forall i | 0 <= i < |before| ensures SameRow(rows[i], Some(key), before[i], Some(key)) {
      if i in ps {
        assert i in Select(before, Plaintext);
        SealRowReads(before[i], key, Some(key));
      }
    }
    assert SameReading(rows, Some(key), before, Some(key));
    SameReadingSameConversation(rows, Some(key), before, Some(key), conversationId);
  }

  lemma {:induction false} NothingSealedYet(rows: seq<Row>, key: Key)
    ensures SealedSoFar(rows, rows, 0, key)
  {
    assert Select(rows, Plaintext)[..0] == [];
    SealAtNothing(rows, key);
  }

  lemma {:induction false} AllEncrypted(rows: seq<Row>)
    requires Select(rows, Plaintext) == []
    ensures forall i :: 0 <= i < |rows| ==> rows[i].encrypted
  {
    SelectFinds(rows, Plaintext);
    forall i | 0 <= i < |rows| ensures rows[i].encrypted {
      assert i !in Select(rows, Plaintext);
    }
  }

  lemma {:induction false} SealAtInTwoSteps(rows: seq<Row>, ps: seq<nat>, m: nat, n: nat, key: Key)
    requires Ascending(ps) && m <= n <= |ps|
    ensures SealAt(SealAt(rows, ps[..m], key), ps[m..n], key) == SealAt(rows, ps[..n], key)
  {
    hide SealAt, SealRow;
    assert ps[..n] == ps[..m] + ps[m..n] && ps[m..] == ps[m..n] + ps[n..];
    forall i: nat ensures i in ps[..m] ==> i !in ps[m..n] {
      AscendingHalvesDisjoint(ps, m, i);
    }
    SealAtIndex(rows, ps[..m], key);
    SealAtIndex(SealAt(rows, ps[..m], key), ps[m..n], key);
    SealAtIndex(rows, ps[..n], key);
  }

  lemma {:induction false} FailsAtFirstBadRow(rows: seq<Row>, i: nat, key: Option<Key>)
    requires i < |rows| && ReadRow(rows[i], key).Failure?
    requires forall j :: 0 <= j < i ==> ReadRow(rows[j], key).Success?
    ensures ReadAll(rows, key) == Failure(ReadRow(rows[i], key).error)
  {
    if i < |rows| - 1 {
      FailsAtFirstBadRow(rows[..|rows|-1], i, key);
    } else {
      ReadAllAt(rows[..i], key);
    }
  }
}
