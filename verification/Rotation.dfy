/** internal/storage/rotation.go, the database passes: re-encrypting encrypted rows page by page
    and encrypting the plaintext ones. */
module Rotation {
  import opened Wrappers
  import opened Aead
  import opened Faults
  import opened MessageTable
  import opened Keyset

  /** The two keys of a rotation: what rows were sealed with, what they shall be sealed with. */
  datatype KeyPair = KeyPair(from: Key, to: Key)

  datatype Side = OldKey | NewKey

  datatype RotateError =
    | NilEncryptor
    | IdenticalKeys
    | NoDatabase
    | InvalidBase64(id: string, field: string)
    | NeitherKey(id: string, field: string)
    | Inconsistent(id: string, contentKey: Side, toolCallsKey: Side)
    | AuditInvalidBase64
    | AuditOldKeyFails
    | Cancelled   // an I/O error, a cancelled context or a crash

  function TryBothKeys(r: Row, value: Text, ks: KeyPair, field: string): Result<(Side, Text), RotateError> {
    if !Decodes(value) then Failure(InvalidBase64(r.id, field))
    else match Open(ks.from, Aad(r), value)
      case Some(plain) => Success((OldKey, plain))
      case None =>
        match Open(ks.to, Aad(r), value)
        case Some(plain) => Success((NewKey, plain))
        case None => Failure(NeitherKey(r.id, field))
  }

  /** What the loop body makes of one encrypted row: an error, nothing to do, or the row sealed
      under the new key. */
  function RotateRow(r: Row, ks: KeyPair): Result<Option<Row>, RotateError> {
    match TryBothKeys(r, r.content, ks, "content")
    case Failure(e) => Failure(e)
    case Success((side, content)) =>
      if r.toolCalls == EMPTY then
        Success(if side == NewKey then None else Some(r.(content := Seal(ks.to, Aad(r), content), encrypted := true)))
      else match TryBothKeys(r, r.toolCalls, ks, "tool_calls")
        case Failure(e) => Failure(e)
        case Success((callsSide, calls)) =>
          if side != callsSide then Failure(Inconsistent(r.id, side, callsSide))
          else if side == NewKey then Success(None)
          else Success(Some(r.(content := Seal(ks.to, Aad(r), content),
                               toolCalls := Seal(ks.to, Aad(r), calls),
                               encrypted := true)))
  }

  predicate UnderOldKey(r: Row, ks: KeyPair) {
    RotateRow(r, ks).Success? && RotateRow(r, ks).value.Some?
  }

  function Resealed(r: Row, ks: KeyPair): Row {
    if UnderOldKey(r, ks) then RotateRow(r, ks).value.value else r
  }

  /** A resealed row reads with the new key exactly as it read with the old one. */
  lemma ResealedReads(r: Row, ks: KeyPair)
    requires r.encrypted && UnderOldKey(r, ks)
    ensures ReadRow(r, Some(ks.from)).Success?
    ensures ReadRow(Resealed(r, ks), Some(ks.to)) == ReadRow(r, Some(ks.from))
  {
  }

  /** A row needs no work under the new key exactly when the new key reads it and the old key
      does not come first. */
  lemma SkippedIffNewKeyReads(r: Row, ks: KeyPair)
    requires r.encrypted && ks.from != ks.to
    ensures RotateRow(r, ks) == Success(None) <==> ReadRow(r, Some(ks.to)).Success?
    ensures UnderOldKey(r, ks) <==> ReadRow(r, Some(ks.from)).Success?
    ensures RotateRow(r, ks).Success? <==> ReadRow(r, Some(ks.from)).Success? || ReadRow(r, Some(ks.to)).Success?
  {
  }

  /** Which errors stop a row: its id, the column at fault, and which column is under which key. */
  lemma RotateRowFailsIff(r: Row, ks: KeyPair)
    requires r.encrypted && ks.from != ks.to
    ensures RotateRow(r, ks).Failure? ==>
              match RotateRow(r, ks).error
              case InvalidBase64(id, field) =>
                id == r.id && ((field == "content" && !Decodes(r.content)) || (field == "tool_calls" && !Decodes(r.toolCalls)))
              case NeitherKey(id, field) =>
                && id == r.id && (field == "content" || field == "tool_calls")
                && var t := if field == "content" then r.content else r.toolCalls;
                   Decodes(t) && Open(ks.from, Aad(r), t) == None && Open(ks.to, Aad(r), t) == None
              case Inconsistent(id, a, b) => id == r.id && (a == OldKey || b == OldKey) && (a == NewKey || b == NewKey)
              case _ => false
    ensures forall c, t :: r.content == Sealed(ks.from, Aad(r), c) && r.toolCalls == Sealed(ks.to, Aad(r), t) ==>
              RotateRow(r, ks) == Failure(Inconsistent(r.id, OldKey, NewKey))
    ensures forall c, t :: r.content == Sealed(ks.to, Aad(r), c) && r.toolCalls == Sealed(ks.from, Aad(r), t) ==>
              RotateRow(r, ks) == Failure(Inconsistent(r.id, NewKey, OldKey))
    ensures RotateRow(r, ks) == Failure(InvalidBase64(r.id, "content")) <==> !Decodes(r.content)
  {
  }

  lemma ResealedIsDone(r: Row, ks: KeyPair)
    requires ks.from != ks.to
    ensures !UnderOldKey(Resealed(r, ks), ks)
    ensures SamePlace(r, Resealed(r, ks)) && Resealed(r, ks).id == r.id
    ensures UnderOldKey(r, ks) ==> RotateRow(Resealed(r, ks), ks) == Success(None)
    ensures RotateRow(Resealed(r, ks), ks).Success? <==> RotateRow(r, ks).Success?
  {
  }

  lemma ResealedKeepsKeys(r: Row, ks: KeyPair)
    ensures Resealed(r, ks).id == r.id && Resealed(r, ks).createdAt == r.createdAt
    ensures r.encrypted ==> Resealed(r, ks).encrypted
  {
  }

  // ----- One transaction -----

  /** The table after the rows at the given positions went through the loop body. */
  function RotateAt(rows: seq<Row>, ps: seq<nat>, ks: KeyPair): seq<Row> {
    if |rows| == 0 then []
    else
      var last := rows[|rows|-1];
      RotateAt(rows[..|rows|-1], ps, ks) + [if |rows| - 1 in ps then Resealed(last, ks) else last]
  }

  lemma {:induction false} RotateAtIndex(rows: seq<Row>, ps: seq<nat>, ks: KeyPair)
    ensures |RotateAt(rows, ps, ks)| == |rows|
    ensures forall i :: 0 <= i < |rows| ==> RotateAt(rows, ps, ks)[i] == if i in ps then Resealed(rows[i], ks) else rows[i]
  {
    if |rows| > 0 {
      RotateAtIndex(rows[..|rows|-1], ps, ks);
    }
  }

  lemma {:induction false} RotateAtNothing(rows: seq<Row>, ks: KeyPair)
    ensures RotateAt(rows, [], ks) == rows && OldPositions(rows, [], ks) == {}
  {
    RotateAtIndex(rows, [], ks);
  }

  function OldPositions(rows: seq<Row>, ps: seq<nat>, ks: KeyPair): set<nat> {
    set p | p in ps && p < |rows| && UnderOldKey(rows[p], ks)
  }

  /** A transaction under way: the uncommitted table and the counts of its batch. */
  datatype Work = Work(tx: seq<Row>, rotated: nat, skipped: nat)

  /** The loop body: the row is sealed under the new key and written back, or skipped. */
  function Advance(w: Work, r: Row, ks: KeyPair): Result<Work, RotateError> {
    match RotateRow(r, ks)
    case Failure(e) => Failure(e)
    case Success(None) => Success(w.(skipped := w.skipped + 1))
    case Success(Some(u)) => Success(Work(UpdateById(w.tx, u.id, u.content, u.toolCalls), w.rotated + 1, w.skipped))
  }

  /** The first k rows of the page are done in the transaction and counted. */
  predicate InBatch(rows: seq<Row>, batch: seq<nat>, k: nat, ks: KeyPair, w: Work) {
    && k <= |batch|
    && w.tx == RotateAt(rows, batch[..k], ks)
    && w.rotated == |OldPositions(rows, batch[..k], ks)| && w.rotated + w.skipped == k
    && forall i :: 0 <= i < k && batch[i] < |rows| ==> RotateRow(rows[batch[i]], ks).Success?
  }

  lemma {:induction false} AdvanceSkips(rows: seq<Row>, batch: seq<nat>, k: nat, ks: KeyPair, w: Work)
    requires InBatch(rows, batch, k, ks, w)
    requires k < |batch| && batch[k] < |rows| && RotateRow(rows[batch[k]], ks) == Success(None)
    ensures InBatch(rows, batch, k + 1, ks, w.(skipped := w.skipped + 1))
  {
    hide RotateAt, RotateRow;
    assert batch[..k+1] == batch[..k] + [batch[k]];
    RotateAtIndex(rows, batch[..k], ks);
    RotateAtIndex(rows, batch[..k+1], ks);
    assert OldPositions(rows, batch[..k+1], ks) == OldPositions(rows, batch[..k], ks);
  }

  lemma ResealedUpdates(r: Row, ks: KeyPair)
    requires UnderOldKey(r, ks)
    ensures var u := Resealed(r, ks);
            u == r.(content := u.content, toolCalls := u.toolCalls, encrypted := true)
  {
  }

  lemma {:induction false} AdvanceUpdates(rows: seq<Row>, batch: seq<nat>, k: nat, ks: KeyPair, w: Work, r: Row)
    requires UniqueIds(rows) && Ascending(batch) && InBatch(rows, batch, k, ks, w)
    requires k < |batch| && batch[k] < |rows| && RotateRow(rows[batch[k]], ks) == Success(Some(r))
    ensures InBatch(rows, batch, k + 1, ks, Work(UpdateById(w.tx, r.id, r.content, r.toolCalls), w.rotated + 1, w.skipped))
  {
    hide RotateAt, UpdateById, UniqueIds, RotateRow;
    var p := batch[k];
    assert batch[k..][0] == p;
    AscendingHalvesDisjoint(batch, k, p);
    assert batch[..k+1] == batch[..k] + [p];
    RotateAtKeepsIds(rows, batch[..k], ks);
    RotateAtIndex(rows, batch[..k], ks);
    RotateAtIndex(rows, batch[..k+1], ks);
    ResealedUpdates(rows[p], ks);
    assert w.tx[p] == rows[p];
    UpdateByIdHits(w.tx, p, r.content, r.toolCalls);
    assert w.tx[p := r] == RotateAt(rows, batch[..k+1], ks);
    assert OldPositions(rows, batch[..k+1], ks) == OldPositions(rows, batch[..k], ks) + {p};
  }

  lemma {:induction false} AdvanceInBatch(rows: seq<Row>, batch: seq<nat>, k: nat, ks: KeyPair, w: Work)
    requires UniqueIds(rows) && Ascending(batch) && InBatch(rows, batch, k, ks, w) && k < |batch| && batch[k] < |rows|
    ensures var next := Advance(w, rows[batch[k]], ks);
            && (next.Success? ==> InBatch(rows, batch, k + 1, ks, next.value))
            && (next.Failure? ==> BadRowAt(rows, batch, k, ks, next.error) && next.error != Cancelled)
  {
    match RotateRow(rows[batch[k]], ks)
    case Failure(_) =>
    case Success(None) => AdvanceSkips(rows, batch, k, ks, w);
    case Success(Some(r)) => AdvanceUpdates(rows, batch, k, ks, w, r);
  }

  lemma {:induction false} RotateAtKeepsIds(rows: seq<Row>, ps: seq<nat>, ks: KeyPair)
    requires UniqueIds(rows)
    ensures UniqueIds(RotateAt(rows, ps, ks))
  {
    RotateAtIndex(rows, ps, ks);
    SameIdsUnique(rows, RotateAt(rows, ps, ks));
  }

  /** The rows of one page, in one transaction. On a row that neither key opens, or whose two
      columns are under different keys, the transaction is rolled back. */
  method RotateBatch(rows: seq<Row>, batch: seq<nat>, ks: KeyPair, faults: FaultPlan)
    returns (outcome: Result<Work, RotateError>)
    requires UniqueIds(rows) && Ascending(batch)
    requires forall i :: 0 <= i < |batch| ==> batch[i] < |rows|
    modifies faults
    ensures outcome.Success? ==> InBatch(rows, batch, |batch|, ks, outcome.value)
    ensures outcome == Failure(Cancelled) ==> !faults.reliable
    ensures outcome.Failure? && outcome.error != Cancelled ==> FirstBadRow(rows, batch, ks, outcome.error)
  {
    var w := Work(rows, 0, 0);
    assert batch[..0] == [];
    RotateAtNothing(rows, ks);
    for k := 0 to |batch|
      invariant InBatch(rows, batch, k, ks, w)
    {
      var ok := faults.Proceed();
      if !ok {
        return Failure(Cancelled);
      }
      AdvanceInBatch(rows, batch, k, ks, w);
      match Advance(w, rows[batch[k]], ks) {
        case Failure(e) => return Failure(e);
        case Success(next) => w := next;
      }
    }
    outcome := Success(w);
  }

  predicate FirstBadRow(rows: seq<Row>, ps: seq<nat>, ks: KeyPair, e: RotateError) {
    exists k :: 0 <= k < |ps| && BadRowAt(rows, ps, k, ks, e)
  }

  predicate BadRowAt(rows: seq<Row>, ps: seq<nat>, k: nat, ks: KeyPair, e: RotateError)
    requires k < |ps|
  {
    ps[k] < |rows| && RotateRow(rows[ps[k]], ks) == Failure(e) &&
    forall i :: 0 <= i < k && ps[i] < |rows| ==> RotateRow(rows[ps[i]], ks).Success?
  }

  // ----- The whole pass -----

  class RotateResult {
    var messagesRotated: nat
    var messagesSkipped: nat
    var plaintextEncrypted: nat
    var auditLinesRotated: nat
    var auditLinesPassedThru: nat

    constructor ()
      ensures messagesRotated == messagesSkipped == plaintextEncrypted == auditLinesRotated == auditLinesPassedThru == 0
    {
      messagesRotated, messagesSkipped, plaintextEncrypted, auditLinesRotated, auditLinesPassedThru := 0, 0, 0, 0, 0;
    }
  }

  datatype Tally = Tally(rotated: int, skipped: int)

  /** After n visits: the rows visited so far are under the new key if they were under the old
      one, none of them was unreadable, and the tally says how many were rotated. */
  predicate Visited(before: seq<Row>, rows: seq<Row>, n: nat, ks: KeyPair, tally: Tally) {
    n <= |Visits(before, Start)| && VisitedAll(before, rows, Visits(before, Start)[..n], ks, tally)
  }

  predicate VisitedAll(before: seq<Row>, rows: seq<Row>, ps: seq<nat>, ks: KeyPair, tally: Tally) {
    && rows == RotateAt(before, ps, ks)
    && tally.rotated == |OldPositions(before, ps, ks)|
    && tally.rotated + tally.skipped == |ps|
    && forall p :: p in ps && p < |before| ==> RotateRow(before[p], ks).Success?
  }

  lemma {:induction false} SelectIgnoresContent(a: seq<Row>, b: seq<Row>, w: Where)
    requires |a| == |b|
    requires forall i :: 0 <= i < |a| ==> (Matches(a[i], w) <==> Matches(b[i], w))
    ensures Select(a, w) == Select(b, w)
  {
    if |a| > 0 {
      SelectIgnoresContent(a[..|a|-1], b[..|b|-1], w);
    }
  }

  lemma {:induction false} RotateAtKeepsPages(rows: seq<Row>, n: nat, ks: KeyPair, c: Cursor)
    requires n <= |Visits(rows, Start)|
    ensures Page(RotateAt(rows, Visits(rows, Start)[..n], ks), c) == Page(rows, c)
  {
    hide RotateAt, Resealed, Visits, Select;
    var ps := Visits(rows, Start)[..n];
    RotateAtIndex(rows, ps, ks);
    VisitsAreBeyond(rows, Start);
    SelectFinds(rows, Encrypted(Start));
    forall i | 0 <= i < |rows| ensures Matches(RotateAt(rows, ps, ks)[i], Encrypted(c)) <==> Matches(rows[i], Encrypted(c)) {
      ResealedKeepsKeys(rows[i], ks);
      if i in ps {
        assert i in Visits(rows, Start);
      }
    }
    SelectIgnoresContent(RotateAt(rows, ps, ks), rows, Encrypted(c));
  }

  lemma {:induction false} RotateAtKeepsCursor(rows: seq<Row>, ps: seq<nat>, ks: KeyPair, p: nat)
    requires p < |rows|
    ensures |RotateAt(rows, ps, ks)| == |rows| && CursorAt(RotateAt(rows, ps, ks)[p]) == CursorAt(rows[p])
  {
    RotateAtIndex(rows, ps, ks);
  }

  lemma {:induction false} CutTwice(v: seq<nat>, n: nat, page: seq<nat>, rest: seq<nat>)
    requires n <= |v| && v[n..] == page + rest
    ensures n + |page| <= |v| && v[..n+|page|] == v[..n] + page && v[n+|page|..] == rest
  {
    assert v == v[..n] + v[n..];
  }

  lemma {:induction false} VisitsUnfold(rows: seq<Row>, c: Cursor, last: nat)
    requires |Page(rows, c)| > 0 && last == Page(rows, c)[|Page(rows, c)|-1]
    ensures last < |rows| && Visits(rows, c) == Page(rows, c) + Visits(rows, CursorAt(rows[last]))
    ensures |Select(rows, Encrypted(CursorAt(rows[last])))| < |Select(rows, Encrypted(c))|
  {
    SelectFinds(rows, Encrypted(c));
    FewerBeyond(rows, c, last);
  }

  lemma {:induction false} RotateAtTwice(rows: seq<Row>, ps: seq<nat>, qs: seq<nat>, ks: KeyPair)
    requires ks.from != ks.to
    ensures RotateAt(RotateAt(rows, ps, ks), qs, ks) == RotateAt(rows, ps + qs, ks)
  {
    RotateAtIndex(rows, ps, ks);
    RotateAtIndex(RotateAt(rows, ps, ks), qs, ks);
    RotateAtIndex(rows, ps + qs, ks);
    forall i | 0 <= i < |rows| ensures Resealed(Resealed(rows[i], ks), ks) == Resealed(rows[i], ks) {
      ResealedIsDone(rows[i], ks);
    }
  }

  /** A row visited before counts as skipped. */
  lemma {:induction false} OldPositionsTwice(rows: seq<Row>, ps: seq<nat>, qs: seq<nat>, ks: KeyPair)
    requires ks.from != ks.to
    ensures |OldPositions(rows, ps + qs, ks)| == |OldPositions(rows, ps, ks)| + |OldPositions(RotateAt(rows, ps, ks), qs, ks)|
  {
    RotateAtIndex(rows, ps, ks);
    var sofar, now := OldPositions(rows, ps, ks), OldPositions(RotateAt(rows, ps, ks), qs, ks);
    forall p | 0 <= p < |rows| ensures p in now <==> p in qs && p !in ps && UnderOldKey(rows[p], ks) {
      ResealedIsDone(rows[p], ks);
    }
    assert OldPositions(rows, ps + qs, ks) == sofar + now;
  }

  lemma {:induction false} SuccessTwice(rows: seq<Row>, ps: seq<nat>, qs: seq<nat>, ks: KeyPair)
    requires ks.from != ks.to
    requires forall p :: p in ps && p < |rows| ==> RotateRow(rows[p], ks).Success?
    requires |RotateAt(rows, ps, ks)| == |rows|
    requires forall p :: p in qs && p < |rows| ==> RotateRow(RotateAt(rows, ps, ks)[p], ks).Success?
    ensures forall p :: p in ps + qs && p < |rows| ==> RotateRow(rows[p], ks).Success?
  {
    RotateAtIndex(rows, ps, ks);
    forall p | p in qs && p < |rows| ensures RotateRow(rows[p], ks).Success? {
      ResealedIsDone(rows[p], ks);
    }
  }

  /** Committing a page on top of the visits before it. */
  lemma {:induction false} PageVisited(before: seq<Row>, rows: seq<Row>, ps: seq<nat>, page: seq<nat>, w: Work, ks: KeyPair, tally: Tally)
    requires ks.from != ks.to && VisitedAll(before, rows, ps, ks, tally) && InBatch(rows, page, |page|, ks, w)
    ensures VisitedAll(before, w.tx, ps + page, ks, Tally(tally.rotated + w.rotated, tally.skipped + w.skipped))
  {
    assert page[..|page|] == page;
    RotateAtIndex(before, ps, ks);
    RotateAtTwice(before, ps, page, ks);
    OldPositionsTwice(before, ps, page, ks);
    SuccessTwice(before, ps, page, ks);
  }

  function Handled(result: RotateResult): Tally
    reads result
  {
    Tally(result.messagesRotated, result.messagesSkipped)
  }

  function Since(now: Tally, was: Tally): Tally {
    Tally(now.rotated - was.rotated, now.skipped - was.skipped)
  }

  /** Pass 1 between two pages: n visits are done and the cursor is where the others begin. */
  predicate InPass(before: seq<Row>, rows: seq<Row>, n: nat, c: Cursor, ks: KeyPair, tally: Tally) {
    Visited(before, rows, n, ks, tally) && Visits(before, Start)[n..] == Visits(before, c)
  }

  /** The page the query returns is the next stretch of visits. */
  lemma {:induction false} NextPageInPass(before: seq<Row>, rows: seq<Row>, n: nat, c: Cursor, ks: KeyPair, tally: Tally)
    requires UniqueIds(before) && InPass(before, rows, n, c, ks, tally)
    ensures UniqueIds(rows) && Page(rows, c) == Page(before, c) && n <= |Visits(before, Start)|
    ensures Ascending(Page(rows, c)) && forall i :: 0 <= i < |Page(rows, c)| ==> Page(rows, c)[i] < |rows|
    ensures |Page(rows, c)| == 0 <==> n == |Visits(before, Start)|
    ensures Page(rows, c) <= Visits(before, Start)[n..]
  {
    RotateAtKeepsPages(before, n, ks, c);
    RotateAtKeepsIds(before, Visits(before, Start)[..n], ks);
    SelectFinds(before, Encrypted(c));
    RotateAtIndex(before, Visits(before, Start)[..n], ks);
  }

  lemma {:induction false} PageCommitted(before: seq<Row>, rows: seq<Row>, n: nat, c: Cursor, page: seq<nat>, w: Work, ks: KeyPair, tally: Tally,
                      n': nat, next: Cursor, tally': Tally)
    requires UniqueIds(before) && ks.from != ks.to && InPass(before, rows, n, c, ks, tally)
    requires page == Page(rows, c) && |page| > 0 && InBatch(rows, page, |page|, ks, w)
    requires page[|page|-1] < |rows| && next == CursorAt(rows[page[|page|-1]])
    requires n' == n + |page| && tally' == Tally(tally.rotated + w.rotated, tally.skipped + w.skipped)
    ensures InPass(before, w.tx, n', next, ks, tally')
    ensures |Select(before, Encrypted(next))| < |Select(before, Encrypted(c))|
  {
    hide Visits, RotateAt, Select, Page, InBatch, OldPositions, CursorAt, UniqueIds, RotateRow;
    var last := page[|page|-1];
    RotateAtKeepsPages(before, n, ks, c);
    VisitsUnfold(before, c, last);
    RotateAtKeepsCursor(before, Visits(before, Start)[..n], ks, last);
    CutTwice(Visits(before, Start), n, page, Visits(before, CursorAt(before[last])));
    PageVisited(before, rows, Visits(before, Start)[..n], page, w, ks, tally);
  }

  lemma {:induction false} PassBegins(rows: seq<Row>, ks: KeyPair)
    ensures InPass(rows, rows, 0, Start, ks, Tally(0, 0))
  {
    assert Visits(rows, Start)[..0] == [];
    RotateAtNothing(rows, ks);
  }

  /** The loop body of pass 1: query a page, rotate it in one transaction, commit, count it.
      None means that the query came back empty. */
  method RotatePage(db: Database, cursor: Cursor, ks: KeyPair, faults: FaultPlan, result: RotateResult,
                    ghost before: seq<Row>, ghost n: nat, ghost tally: Tally)
    returns (outcome: Result<Option<Cursor>, RotateError>, ghost n': nat, ghost tally': Tally)
    requires UniqueIds(before) && ks.from != ks.to && InPass(before, db.rows, n, cursor, ks, tally)
    modifies db`rows, faults, result`messagesRotated, result`messagesSkipped
    ensures Since(Handled(result), old(Handled(result))) == Since(tally', tally)
    ensures outcome == Failure(Cancelled) ==> !faults.reliable
    ensures outcome.Failure? || outcome.value.None? ==> n' == n && db.rows == old(db.rows) && tally' == tally
    ensures outcome.Failure? && outcome.error != Cancelled ==>
              FirstBadRow(db.rows, Visits(before, Start)[n..], ks, outcome.error)
    ensures outcome == Success(None) ==> n == |Visits(before, Start)|
    ensures outcome.Success? && outcome.value.Some? ==>
              InPass(before, db.rows, n', outcome.value.value, ks, tally') &&
              |Select(before, Encrypted(outcome.value.value))| < |Select(before, Encrypted(cursor))|
  {
    hide InPass, InBatch, Visits, FirstBadRow, Ascending, UniqueIds, Page;
    n', tally' := n, tally;
    NextPageInPass(before, db.rows, n, cursor, ks, tally);
    var batch := Page(db.rows, cursor);
    if |batch| == 0 {
      return Success(None), n', tally';
    }
    var done := RotateBatch(db.rows, batch, ks, faults);
    if done.Failure? {
      if done.error != Cancelled {
        BadRowAhead(db.rows, batch, Visits(before, Start)[n..], ks, done.error);
      }
      return Failure(done.error), n', tally';
    }
    var ok := faults.Proceed();
    if !ok {
      return Failure(Cancelled), n', tally';
    }
    var last := CursorAt(db.rows[batch[|batch|-1]]);
    n' := n + |batch|;
    tally' := Tally(tally.rotated + done.value.rotated, tally.skipped + done.value.skipped);
    PageCommitted(before, db.rows, n, cursor, batch, done.value, ks, tally, n', last, tally');
    db.rows := done.value.tx;
    result.messagesRotated := result.messagesRotated + done.value.rotated;
    result.messagesSkipped := result.messagesSkipped + done.value.skipped;
    outcome := Success(Some(last));
  }

  /** Pass 1. Every page is one transaction; a failure leaves the pages committed before it. */
  method RotateEncryptedRows(db: Database, ks: KeyPair, faults: FaultPlan, result: RotateResult)
    returns (outcome: Result<(), RotateError>, ghost n: nat)
    requires UniqueIds(db.rows) && ks.from != ks.to
    modifies db`rows, faults, result`messagesRotated, result`messagesSkipped
    ensures Visited(old(db.rows), db.rows, n, ks, Since(Handled(result), old(Handled(result))))
    ensures outcome.Success? ==> n == |Visits(old(db.rows), Start)|
    ensures outcome == Failure(Cancelled) ==> !faults.reliable
    ensures outcome.Failure? && outcome.error != Cancelled ==>
              FirstBadRow(db.rows, Visits(old(db.rows), Start)[n..], ks, outcome.error)
  {
    ghost var before := db.rows;
    ghost var tally := Tally(0, 0);
    n := 0;
    var cursor := Start;
    PassBegins(before, ks);
    while true
      invariant InPass(before, db.rows, n, cursor, ks, tally)
      invariant tally == Since(Handled(result), old(Handled(result)))
      decreases |Select(before, Encrypted(cursor))|
    {
      var ok := faults.Proceed();
      if !ok {
        return Failure(Cancelled), n;
      }
      var page;
      page, n, tally := RotatePage(db, cursor, ks, faults, result, before, n, tally);
      match page {
        case Failure(e) => return Failure(e), n;
        case Success(None) => return Success(()), n;
        case Success(Some(next)) => cursor := next;
      }
    }
  }

  lemma {:induction false} BadRowAhead(rows: seq<Row>, page: seq<nat>, visits: seq<nat>, ks: KeyPair, e: RotateError)
    requires page <= visits && FirstBadRow(rows, page, ks, e)
    ensures FirstBadRow(rows, visits, ks, e)
  {
    var k :| 0 <= k < |page| && BadRowAt(rows, page, k, ks, e);
    assert BadRowAt(rows, visits, k, ks, e);
  }

  /** Pass 2. The query has no cursor: what it returns shrinks as rows are sealed. */
  method EncryptPlaintextRows(db: Database, key: Key, faults: FaultPlan, result: RotateResult)
    returns (outcome: Result<(), RotateError>, ghost n: nat)
    requires UniqueIds(db.rows)
    modifies db`rows, faults, result`plaintextEncrypted
    ensures SealedSoFar(old(db.rows), db.rows, n, key)
    ensures result.plaintextEncrypted == old(result.plaintextEncrypted) + n
    ensures outcome.Success? ==> n == |Select(old(db.rows), Plaintext)|
    ensures outcome.Failure? ==> outcome.error == Cancelled && !faults.reliable
  {
    hide SealedSoFar, Select, SealAt, UniqueIds, Ascending;
    ghost var before := db.rows;
    n := 0;
    NothingSealedYet(before, key);
    while true
      invariant SealedSoFar(before, db.rows, n, key)
      invariant result.plaintextEncrypted == old(result.plaintextEncrypted) + n
      decreases |Select(before, Plaintext)| - n
    {
      var ok := faults.Proceed();
      if !ok {
        return Failure(Cancelled), n;
      }
      var batch := Limit(Select(db.rows, Plaintext), BATCH_SIZE);
      NextPage(before, db.rows, n, key);
      if |batch| == 0 {
        return Success(()), n;
      }
      var tx, sealed := SealBatch(db.rows, batch, key, faults);
      if !sealed {
        return Failure(Cancelled), n;
      }
      NextPageSealed(before, db.rows, n, batch, tx, key);
      ok := faults.Proceed();
      if !ok {
        return Failure(Cancelled), n;
      }
      db.rows := tx;
      result.plaintextEncrypted := result.plaintextEncrypted + |batch|;
      n := n + |batch|;
    }
  }

  // ----- What any run does to a row, and what it never does -----

  /** Left alone, re-encrypted, or encrypted for the first time. */
  predicate Progress(r: Row, s: Row, ks: KeyPair) {
    || s == r
    || (r.encrypted && UnderOldKey(r, ks) && s == Resealed(r, ks))
    || (!r.encrypted && s == SealRow(r, ks.to))
  }

  predicate Ran(a: seq<Row>, b: seq<Row>, ks: KeyPair) {
    |a| == |b| && forall i :: 0 <= i < |a| ==> Progress(a[i], b[i], ks)
  }

  /** The message a row stands for during a rotation, whichever of the two keys opens it. */
  function Meaning(r: Row, ks: KeyPair): Option<StoredMessage> {
    if ReadRow(r, Some(ks.from)).Success? then Some(ReadRow(r, Some(ks.from)).value)
    else if ReadRow(r, Some(ks.to)).Success? then Some(ReadRow(r, Some(ks.to)).value)
    else None
  }

  /** content and tool_calls of an encrypted row are under one key. */
  predicate OneKey(r: Row) {
    r.encrypted && r.content.Sealed? && r.toolCalls.Sealed? ==> r.content.key == r.toolCalls.key
  }

  lemma {:induction false} ProgressKeepsMeaning(r: Row, s: Row, ks: KeyPair)
    requires ks.from != ks.to && Progress(r, s, ks)
    ensures Meaning(s, ks) == Meaning(r, ks) && SamePlace(r, s) && s.id == r.id
    ensures OneKey(r) ==> OneKey(s)
    ensures r.encrypted ==> s.encrypted
    ensures Meaning(r, ks).Some? && s.encrypted ==> RotateRow(s, ks).Success?
  {
    if !r.encrypted && s == SealRow(r, ks.to) {
      SealRowReads(r, ks.to, Some(ks.from));
    } else if r.encrypted && s == Resealed(r, ks) && UnderOldKey(r, ks) {
      ResealedReads(r, ks);
    }
  }

  /** What the complete run leaves: the row is flagged and only the new key opens it. */
  predicate Done(r: Row, ks: KeyPair) {
    r.encrypted && ReadRow(r, Some(ks.to)).Success?
  }

  predicate AllDone(rows: seq<Row>, ks: KeyPair) {
    forall i :: 0 <= i < |rows| ==> Done(rows[i], ks)
  }

  /** The tables between runs, any number of which may have failed or crashed. */
  predicate RunsOf(tables: seq<seq<Row>>, ks: KeyPair) {
    |tables| > 0 && forall k :: 0 < k < |tables| ==> Ran(tables[k-1], tables[k], ks)
  }

  lemma {:induction false} RunsKeepMeaning(tables: seq<seq<Row>>, ks: KeyPair)
    requires ks.from != ks.to && RunsOf(tables, ks)
    ensures |tables[|tables|-1]| == |tables[0]|
    ensures forall i :: 0 <= i < |tables[0]| ==>
              var r, s := tables[0][i], tables[|tables|-1][i];
              Meaning(s, ks) == Meaning(r, ks) && SamePlace(r, s) && (OneKey(r) ==> OneKey(s))
  {
    hide Meaning, OneKey, Progress;
    if |tables| > 1 {
      var front := tables[..|tables|-1];
      assert RunsOf(front, ks) by {
        forall k | 0 < k < |front| ensures Ran(front[k-1], front[k], ks) {
          assert Ran(tables[k-1], tables[k], ks);
        }
      }
      RunsKeepMeaning(front, ks);
      var a, b := tables[|tables|-2], tables[|tables|-1];
      assert Ran(a, b, ks) && front[|front|-1] == a;
      forall i | 0 <= i < |a| ensures Meaning(b[i], ks) == Meaning(a[i], ks) && SamePlace(a[i], b[i]) && (OneKey(a[i]) ==> OneKey(b[i])) {
        ProgressKeepsMeaning(a[i], b[i], ks);
      }
    }
  }

  /** Once every row is under the new key, however many runs that took, each conversation reads with
      it exactly as it read with the old key before. */
  lemma {:induction false} AllDoneReadsTheSame(tables: seq<seq<Row>>, ks: KeyPair, conversationId: string)
    requires ks.from != ks.to && RunsOf(tables, ks)
    requires forall i :: 0 <= i < |tables[0]| ==> ReadRow(tables[0][i], Some(ks.from)).Success?
    requires AllDone(tables[|tables|-1], ks)
    ensures ReadAll(Conversation(tables[|tables|-1], conversationId), Some(ks.to))
         == ReadAll(Conversation(tables[0], conversationId), Some(ks.from))
  {
    hide ReadAll, Conversation, Progress, OneKey;
    RunsKeepMeaning(tables, ks);
    var first, last := tables[0], tables[|tables|-1];
    forall i | 0 <= i < |first| ensures SameRow(last[i], Some(ks.to), first[i], Some(ks.from)) {
      OnlyNewKeyReads(last[i], ks);
    }
    assert SameReading(last, Some(ks.to), first, Some(ks.from));
    SameReadingSameConversation(last, Some(ks.to), first, Some(ks.from), conversationId);
  }

  lemma OnlyNewKeyReads(r: Row, ks: KeyPair)
    requires ks.from != ks.to && Done(r, ks)
    ensures Meaning(r, ks) == Some(ReadRow(r, Some(ks.to)).value)
  {
  }

  // ----- What the two passes achieve -----

  /** A table on which no row can stop a rotation: each encrypted row opens, all of it, under one
      of the two keys. */
  predicate Rotatable(rows: seq<Row>, ks: KeyPair) {
    forall i :: 0 <= i < |rows| && rows[i].encrypted ==> RotateRow(rows[i], ks).Success?
  }

  lemma {:induction false} RanStaysRotatable(a: seq<Row>, b: seq<Row>, ks: KeyPair)
    requires ks.from != ks.to && Ran(a, b, ks) && Rotatable(a, ks)
    ensures Rotatable(b, ks)
  {
    forall i | 0 <= i < |b| && b[i].encrypted ensures RotateRow(b[i], ks).Success? {
      assert Progress(a[i], b[i], ks);
      if a[i].encrypted {
        ResealedIsDone(a[i], ks);
      }
    }
  }

  /** The two passes together, after n visits of pass 1 and m rows of pass 2. */
  lemma {:induction false} PassesRan(before: seq<Row>, mid: seq<Row>, after: seq<Row>, n: nat, m: nat, ks: KeyPair, tally: Tally)
    requires ks.from != ks.to && Visited(before, mid, n, ks, tally) && SealedSoFar(mid, after, m, ks.to)
    ensures Ran(before, after, ks)
  {
    hide RotateAt, SealAt, Resealed, UnderOldKey;
    var ps, qs := Visits(before, Start)[..n], Select(mid, Plaintext)[..m];
    RotateAtIndex(before, ps, ks);
    SealAtIndex(mid, qs, ks.to);
    forall i | 0 <= i < |before| ensures Progress(before[i], after[i], ks) {
      VisitedRowIsEncrypted(before, n, i);
      PlaintextSelected(mid, m, i);
      RowAfterPasses(before[i], mid[i], after[i], i in ps, i in qs, ks);
    }
  }

  lemma {:induction false} RowAfterPasses(r: Row, mid: Row, s: Row, visited: bool, sealed: bool, ks: KeyPair)
    requires mid == (if visited then Resealed(r, ks) else r) && s == (if sealed then SealRow(mid, ks.to) else mid)
    requires (visited ==> r.encrypted) && (sealed ==> !mid.encrypted)
    ensures Progress(r, s, ks)
  {
    ResealedKeepsKeys(r, ks);
  }

  lemma {:induction false} VisitedRowIsEncrypted(rows: seq<Row>, n: nat, i: nat)
    requires n <= |Visits(rows, Start)| && i < |rows|
    ensures i in Visits(rows, Start)[..n] ==> rows[i].encrypted
  {
    hide Visits, Select;
    VisitsAreBeyond(rows, Start);
    SelectFinds(rows, Encrypted(Start));
  }

  lemma {:induction false} PlaintextSelected(rows: seq<Row>, m: nat, i: nat)
    requires m <= |Select(rows, Plaintext)| && i < |rows|
    ensures i in Select(rows, Plaintext)[..m] ==> !rows[i].encrypted
    ensures m == |Select(rows, Plaintext)| && !rows[i].encrypted ==> i in Select(rows, Plaintext)[..m]
  {
    hide Select;
    SelectFinds(rows, Plaintext);
  }

  /** After both passes ran to their end: a row that was visited, or was plaintext, is done; an
      encrypted row the paging passed over is as it was. */
  lemma {:induction false} PassesFinish(before: seq<Row>, mid: seq<Row>, after: seq<Row>, ks: KeyPair, tally: Tally, i: nat)
    requires ks.from != ks.to && i < |before|
    requires Visited(before, mid, |Visits(before, Start)|, ks, tally)
    requires SealedSoFar(mid, after, |Select(mid, Plaintext)|, ks.to)
    ensures |after| == |before|
    ensures i in Visits(before, Start) || !before[i].encrypted ==> Done(after[i], ks)
    ensures i !in Visits(before, Start) && before[i].encrypted ==> after[i] == before[i]
  {
    hide RotateAt, SealAt, Visits, Select, OldPositions;
    var ps, qs := Visits(before, Start), Select(mid, Plaintext);
    assert ps[..|ps|] == ps && qs[..|qs|] == qs;
    RotateAtIndex(before, ps, ks);
    SealAtIndex(mid, qs, ks.to);
    VisitedRowIsEncrypted(before, |ps|, i);
    PlaintextSelected(mid, |qs|, i);
    ResealedKeepsKeys(before[i], ks);
    if i in ps {
      RotatedRowIsDone(before[i], ks);
    } else if !before[i].encrypted {
      SealRowReads(before[i], ks.to, None);
    }
  }

  lemma {:induction false} RotatedRowIsDone(r: Row, ks: KeyPair)
    requires ks.from != ks.to && r.encrypted && RotateRow(r, ks).Success?
    ensures Done(Resealed(r, ks), ks)
  {
    if UnderOldKey(r, ks) {
      ResealedReads(r, ks);
    } else {
      SkippedIffNewKeyReads(r, ks);
    }
  }
}
