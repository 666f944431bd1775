/** internal/storage/rotation.go, RotateKeys: the database first, then the audit log. */
module KeyRotation {
  import opened Wrappers
  import opened Aead
  import opened Faults
  import opened MessageTable
  import opened Keyset
  import opened Rotation
  import opened AuditLog

  /** What a run that reports success did to the table: every row the paging visited and every
      plaintext row is done, every encrypted row it passed over is as it was. */
  predicate Complete(before: seq<Row>, after: seq<Row>, ks: KeyPair) {
    |after| == |before| && forall i :: 0 <= i < |before| ==> RowComplete(before, i, after[i], ks)
  }

  predicate RowComplete(before: seq<Row>, i: nat, after: Row, ks: KeyPair)
    requires i < |before|
  {
    if i in Visits(before, Start) || !before[i].encrypted then Done(after, ks) else after == before[i]
  }

  /** The encrypted rows the paging passes over are under the new key already. */
  predicate PassedOverDone(rows: seq<Row>, ks: KeyPair) {
    forall i :: 0 <= i < |rows| && rows[i].encrypted && i !in Visits(rows, Start) ==> Done(rows[i], ks)
  }

  /** That is exactly when success means that every row is under the new key. */
  lemma {:induction false} CompleteMeansAllDoneIff(before: seq<Row>, after: seq<Row>, ks: KeyPair)
    requires Complete(before, after, ks)
    ensures AllDone(after, ks) <==> PassedOverDone(before, ks)
    ensures NonePassedOver(before) ==> AllDone(after, ks)
  {
    hide Visits, Done;
    if AllDone(after, ks) {
      forall i | 0 <= i < |before| && before[i].encrypted && i !in Visits(before, Start) ensures Done(before[i], ks) {
        assert RowComplete(before, i, after[i], ks) && Done(after[i], ks);
      }
    }
    if PassedOverDone(before, ks) {
      forall i | 0 <= i < |after| ensures Done(after[i], ks) {
        assert RowComplete(before, i, after[i], ks);
      }
    }
  }

  /** So it does where the cursor agrees with the order at every page edge. */
  lemma {:induction false} CompleteMeansAllDone(before: seq<Row>, after: seq<Row>, ks: KeyPair)
    requires Complete(before, after, ks) && EdgesAgree(before)
    ensures AllDone(after, ks)
  {
    hide Visits, Done, EdgesAgree, Select, Complete;
    CoversExactlyOnceIff(before);
    SelectFinds(before, Encrypted(Start));
    CompleteMeansAllDoneIff(before, after, ks);
  }

  /** Where it does not, a run can report success and leave a row under the old key. */
  lemma {:induction false} PassedOverRowStaysUnderOldKey(after: seq<Row>, ks: KeyPair)
    requires ks.from != ks.to && Complete(SubSecondTable(ks.from), after, ks)
    ensures |after| == 101 && after[100] == SubSecondTable(ks.from)[100]
    ensures ReadRow(after[100], Some(ks.from)).Success? && ReadRow(after[100], Some(ks.to)).Failure?
  {
    hide Visits, Select;
    SubSecondRowPassedOver(ks.from);
    var before := SubSecondTable(ks.from);
    assert RowComplete(before, 100, after[100], ks);
  }

  /** Each row the paging visits opens, all of it, under one of the two keys. */
  predicate VisitsRotatable(rows: seq<Row>, ks: KeyPair) {
    forall p :: p in Visits(rows, Start) && p < |rows| ==> RotateRow(rows[p], ks).Success?
  }

  lemma {:induction false} RotatableVisits(rows: seq<Row>, ks: KeyPair)
    requires Rotatable(rows, ks)
    ensures VisitsRotatable(rows, ks)
  {
    hide Visits, RotateRow, Select;
    VisitsAreBeyond(rows, Start);
    SelectFinds(rows, Encrypted(Start));
  }

  lemma {:induction false} AllVisitsWereRotatable(before: seq<Row>, rows: seq<Row>, ks: KeyPair, tally: Tally)
    requires Visited(before, rows, |Visits(before, Start)|, ks, tally)
    ensures VisitsRotatable(before, ks)
  {
    hide Visits, RotateRow, RotateAt, OldPositions;
    assert Visits(before, Start)[..|Visits(before, Start)|] == Visits(before, Start);
  }

  lemma {:induction false} NoBadRowAhead(before: seq<Row>, rows: seq<Row>, n: nat, ks: KeyPair, tally: Tally, e: RotateError)
    requires ks.from != ks.to && Visited(before, rows, n, ks, tally) && VisitsRotatable(before, ks)
    ensures !FirstBadRow(rows, Visits(before, Start)[n..], ks, e)
  {
    hide RotateAt, RotateRow, Visits, Select, OldPositions;
    var visits := Visits(before, Start);
    RotateAtIndex(before, visits[..n], ks);
    VisitsAreBeyond(before, Start);
    SelectFinds(before, Encrypted(Start));
    forall k | 0 <= k < |visits[n..]| ensures !BadRowAt(rows, visits[n..], k, ks, e) {
      var p := visits[n..][k];
      assert p == visits[n+k] && p in visits;
      ResealedIsDone(before[p], ks);
    }
  }

  lemma {:induction false} PlaintextUntouched(before: seq<Row>, mid: seq<Row>, n: nat, ks: KeyPair, tally: Tally)
    requires Visited(before, mid, n, ks, tally)
    ensures Select(mid, Plaintext) == Select(before, Plaintext)
  {
    hide RotateAt, Resealed, Visits, OldPositions;
    RotateAtIndex(before, Visits(before, Start)[..n], ks);
    forall i | 0 <= i < |before| ensures Matches(mid[i], Plaintext) <==> Matches(before[i], Plaintext) {
      VisitedRowIsEncrypted(before, n, i);
      ResealedKeepsKeys(before[i], ks);
    }
    SelectIgnoresContent(mid, before, Plaintext);
  }

  lemma {:induction false} PassesComplete(before: seq<Row>, mid: seq<Row>, after: seq<Row>, ks: KeyPair, tally: Tally)
    requires ks.from != ks.to && Visited(before, mid, |Visits(before, Start)|, ks, tally)
    requires SealedSoFar(mid, after, |Select(mid, Plaintext)|, ks.to)
    ensures Complete(before, after, ks)
  {
    hide Visits, Select, Visited, SealedSoFar, Done;
    if |before| > 0 {
      PassesFinish(before, mid, after, ks, tally, 0);
    } else {
      EmptyTable(before, mid, after, ks, tally);
    }
    forall i | 0 <= i < |before| ensures RowComplete(before, i, after[i], ks) {
      PassesFinish(before, mid, after, ks, tally, i);
    }
  }

  lemma EmptyTable(before: seq<Row>, mid: seq<Row>, after: seq<Row>, ks: KeyPair, tally: Tally)
    requires before == [] && Visited(before, mid, |Visits(before, Start)|, ks, tally)
    requires SealedSoFar(mid, after, |Select(mid, Plaintext)|, ks.to)
    ensures after == []
  {
  }

  lemma {:induction false} VisitedKeepsIds(before: seq<Row>, rows: seq<Row>, n: nat, ks: KeyPair, tally: Tally)
    requires UniqueIds(before) && Visited(before, rows, n, ks, tally)
    ensures UniqueIds(rows)
  {
    RotateAtKeepsIds(before, Visits(before, Start)[..n], ks);
  }

  /** Data that stop no run. */
  predicate Workable(rows: seq<Row>, log: seq<Line>, ks: KeyPair) {
    Rotatable(rows, ks) && RewriteLog(log, ks).Success?
  }

  /** The visited rows that the old key reads. */
  function ReadByOld(rows: seq<Row>, from: Key): set<nat> {
    set p | p in Visits(rows, Start) && p < |rows| && ReadRow(rows[p], Some(from)).Success?
  }

  lemma {:induction false} RotatedAreReadByOld(before: seq<Row>, rows: seq<Row>, ks: KeyPair, tally: Tally)
    requires ks.from != ks.to && Visited(before, rows, |Visits(before, Start)|, ks, tally)
    ensures tally.rotated == |ReadByOld(before, ks.from)|
  {
    hide RotateAt, Select, RotateRow, ReadRow;
    var visits := Visits(before, Start);
    assert visits[..|visits|] == visits;
    VisitsAreBeyond(before, Start);
    SelectFinds(before, Encrypted(Start));
    forall p | p in visits && p < |before| ensures UnderOldKey(before[p], ks) <==> ReadRow(before[p], Some(ks.from)).Success? {
      SkippedIffNewKeyReads(before[p], ks);
    }
    assert OldPositions(before, visits, ks) == ReadByOld(before, ks.from);
  }

  /** A row is the first one visited that cannot be rotated, and it was so from the start. */
  predicate StoppedBy(rows: seq<Row>, ks: KeyPair, e: RotateError) {
    exists p :: p in Visits(rows, Start) && p < |rows| && RotateRow(rows[p], ks) == Failure(e)
  }

  /** What a row or a line can be the matter with; nothing of the kind is an error of the arguments. */
  predicate OfTheData(e: RotateError) {
    e.InvalidBase64? || e.NeitherKey? || e.Inconsistent? || e == AuditInvalidBase64 || e == AuditOldKeyFails
  }

  lemma {:induction false} StoppedByData(rows: seq<Row>, log: seq<Line>, ks: KeyPair, e: RotateError)
    ensures StoppedBy(rows, ks, e) ==> OfTheData(e)
    ensures RewriteLog(log, ks) == Failure(e) ==> OfTheData(e)
  {
    hide Visits;
    if RewriteLog(log, ks) == Failure(e) {
      FailureComesFromALine(log, ks);
      var i :| 0 <= i < |log| && RewriteLine(log[i], ks) == Failure(e);
      RewriteLineIff(log[i], ks);
    }
  }

  lemma {:induction false} BadRowWasBad(before: seq<Row>, rows: seq<Row>, n: nat, ks: KeyPair, tally: Tally, e: RotateError)
    requires ks.from != ks.to && Visited(before, rows, n, ks, tally) && FirstBadRow(rows, Visits(before, Start)[n..], ks, e)
    ensures StoppedBy(before, ks, e)
  {
    hide RotateAt, RotateRow, Visits, OldPositions, Resealed;
    var visits := Visits(before, Start);
    RotateAtIndex(before, visits[..n], ks);
    var k :| 0 <= k < |visits[n..]| && BadRowAt(rows, visits[n..], k, ks, e);
    var p := visits[n..][k];
    assert p == visits[n+k] && p in visits;
    ResealedIsDone(before[p], ks);
  }

  /** The two database passes. */
  method RotateDatabase(db: Database, ks: KeyPair, faults: FaultPlan, result: RotateResult)
    returns (outcome: Result<(), RotateError>)
    requires UniqueIds(db.rows) && ks.from != ks.to
    requires result.messagesRotated == result.messagesSkipped == result.plaintextEncrypted == 0
    modifies db`rows, faults, result`messagesRotated, result`messagesSkipped, result`plaintextEncrypted
    ensures UniqueIds(db.rows) && Ran(old(db.rows), db.rows, ks)
    ensures outcome.Success? ==>
              && Complete(old(db.rows), db.rows, ks)
              && result.messagesRotated == |ReadByOld(old(db.rows), ks.from)|
              && result.messagesRotated + result.messagesSkipped == |Visits(old(db.rows), Start)|
              && result.plaintextEncrypted == |Select(old(db.rows), Plaintext)|
    ensures outcome == Failure(Cancelled) ==> !faults.reliable
    ensures outcome.Failure? && outcome.error != Cancelled ==> StoppedBy(old(db.rows), ks, outcome.error)
    ensures outcome.Success? ==> VisitsRotatable(old(db.rows), ks)
    ensures faults.reliable && VisitsRotatable(old(db.rows), ks) ==> outcome.Success?
  {
    hide Visited, SealedSoFar, Complete, VisitsRotatable, UniqueIds, FirstBadRow, Ran, ReadByOld, StoppedBy;
    ghost var before := db.rows;
    assert Since(Handled(result), old(Handled(result))) == Handled(result);
    var first, n := RotateEncryptedRows(db, ks, faults, result);
    ghost var mid, tally := db.rows, Since(Handled(result), old(Handled(result)));
    VisitedKeepsIds(before, mid, n, ks, tally);
    VisitsTallied(before, mid, n, ks, tally);
    if first.Failure? {
      StoppedInPassOne(before, mid, n, ks, tally);
      if VisitsRotatable(before, ks) {
        NoBadRowAhead(before, mid, n, ks, tally, first.error);
      }
      if first.error != Cancelled {
        BadRowWasBad(before, mid, n, ks, tally, first.error);
      }
      return Failure(first.error);
    }
    AllVisitsWereRotatable(before, mid, ks, tally);
    RotatedAreReadByOld(before, mid, ks, tally);
    var second, m := EncryptPlaintextRows(db, ks.to, faults, result);
    PassesRan(before, mid, db.rows, n, m, ks, tally);
    RanKeepsIds(before, db.rows, ks);
    if second.Failure? {
      return Failure(second.error);
    }
    PlaintextUntouched(before, mid, n, ks, tally);
    PassesComplete(before, mid, db.rows, ks, tally);
    return Success(());
  }

  lemma VisitsTallied(before: seq<Row>, rows: seq<Row>, n: nat, ks: KeyPair, tally: Tally)
    requires Visited(before, rows, n, ks, tally)
    ensures tally.rotated + tally.skipped == n
  {
  }

  lemma {:induction false} StoppedInPassOne(before: seq<Row>, mid: seq<Row>, n: nat, ks: KeyPair, tally: Tally)
    requires ks.from != ks.to && Visited(before, mid, n, ks, tally)
    ensures Ran(before, mid, ks)
  {
    NothingSealedYet(mid, ks.to);
    PassesRan(before, mid, mid, n, 0, ks, tally);
  }

  lemma {:induction false} RanKeepsIds(a: seq<Row>, b: seq<Row>, ks: KeyPair)
    requires UniqueIds(a) && Ran(a, b, ks)
    ensures UniqueIds(b)
  {
    forall i | 0 <= i < |a| ensures b[i].id == a[i].id {
      assert Progress(a[i], b[i], ks);
      ResealedKeepsKeys(a[i], ks);
    }
    SameIdsUnique(a, b);
  }

  predicate TwoKeys(from: Option<Key>, to: Option<Key>) {
    from.Some? && to.Some? && from != to
  }

  method RotateKeys(from: Option<Key>, to: Option<Key>, db: Database, audit: LogFile, faults: FaultPlan)
    returns (outcome: Result<RotateResult, RotateError>)
    requires UniqueIds(db.rows)
    modifies db`rows, audit`lines, audit`temp, faults
    ensures outcome == Failure(NilEncryptor) ==> from.None? || to.None?
    ensures outcome == Failure(IdenticalKeys) ==> from.Some? && from == to
    ensures outcome == Failure(NoDatabase) ==> !db.present
    ensures from.None? || to.None? ==>
              outcome == Failure(NilEncryptor) && db.rows == old(db.rows) && audit.lines == old(audit.lines)
    ensures from.Some? && from == to ==>
              outcome == Failure(IdenticalKeys) && db.rows == old(db.rows) && audit.lines == old(audit.lines)
    ensures TwoKeys(from, to) && !db.present ==>
              outcome == Failure(NoDatabase) && db.rows == old(db.rows) && audit.lines == old(audit.lines)
    ensures outcome.Failure? ==> audit.lines == old(audit.lines)
    ensures TwoKeys(from, to) ==>
              UniqueIds(db.rows) && Ran(old(db.rows), db.rows, KeyPair(from.value, to.value))
    ensures outcome.Success? ==>
              && TwoKeys(from, to)
              && Complete(old(db.rows), db.rows, KeyPair(from.value, to.value))
              && fresh(outcome.value)
              && outcome.value.messagesRotated == |set p | p in Visits(old(db.rows), Start) && p < |old(db.rows)| &&
                                                           ReadRow(old(db.rows)[p], Some(from.value)).Success?|
              && outcome.value.messagesRotated + outcome.value.messagesSkipped == |Visits(old(db.rows), Start)|
              && outcome.value.plaintextEncrypted == |Select(old(db.rows), Plaintext)|
              && outcome.value.auditLinesRotated ==
                   (if audit.configured && audit.present then |EncryptedAt(Texts(old(audit.lines)))| else 0)
              && outcome.value.auditLinesPassedThru ==
                   (if audit.configured && audit.present then |PassedThruAt(Texts(old(audit.lines)))| else 0)
              && (if audit.configured && audit.present
                  then RewriteLog(Texts(old(audit.lines)), KeyPair(from.value, to.value)).Success? &&
                       audit.lines == Written(RewriteLog(Texts(old(audit.lines)), KeyPair(from.value, to.value)).value)
                  else audit.lines == old(audit.lines))
    ensures outcome == Failure(Cancelled) ==> !faults.reliable
    ensures TwoKeys(from, to) && db.present && outcome.Failure? && outcome.error != Cancelled ==>
              || StoppedBy(old(db.rows), KeyPair(from.value, to.value), outcome.error)
              || (audit.configured && audit.present &&
                  RewriteLog(Texts(old(audit.lines)), KeyPair(from.value, to.value)) == Failure(outcome.error))
    ensures TwoKeys(from, to) && db.present && faults.reliable ==>
              (outcome.Success? <==>
                 VisitsRotatable(old(db.rows), KeyPair(from.value, to.value)) &&
                 (audit.configured && audit.present ==> RewriteLog(Texts(old(audit.lines)), KeyPair(from.value, to.value)).Success?))
  {
    hide Complete, VisitsRotatable, UniqueIds, Ran, RewriteLog, StoppedBy, ReadRow, Visits, EncryptedAt, PassedThruAt, CountEncrypted,
         CountPassedThru, RewriteLine, Texts;
    if from.None? || to.None? {
      return Failure(NilEncryptor);
    }
    if from == to {
      return Failure(IdenticalKeys);
    }
    var ks := KeyPair(from.value, to.value);
    NothingRan(db.rows, ks);
    if !db.present {
      return Failure(NoDatabase);
    }
    var result := new RotateResult();
    var ok := faults.Proceed();   // open the database, set its journal mode, count the messages
    if !ok {
      return Failure(Cancelled);
    }
    if |db.rows| == 0 {
      NothingToDo(db.rows, ks);
    } else {
      var rotated := RotateDatabase(db, ks, faults, result);
      if rotated.Failure? {
        StoppedByData(old(db.rows), [], ks, rotated.error);
        return Failure(rotated.error);
      }
    }
    CountsAre(Texts(audit.lines));
    assert ReadByOld(old(db.rows), ks.from) == set p | p in Visits(old(db.rows), Start) && p < |old(db.rows)| &&
                                                      ReadRow(old(db.rows)[p], Some(ks.from)).Success?;
    var rewritten := RotateAuditLog(audit, ks, faults, result);
    if rewritten.Failure? {
      StoppedByData([], Texts(old(audit.lines)), ks, rewritten.error);
      return Failure(rewritten.error);
    }
    return Success(result);
  }

  lemma NothingRan(rows: seq<Row>, ks: KeyPair)
    ensures Ran(rows, rows, ks)
  {
  }

  lemma NothingToDo(rows: seq<Row>, ks: KeyPair)
    requires rows == []
    ensures Complete(rows, rows, ks) && Visits(rows, Start) == [] && Select(rows, Plaintext) == []
    ensures VisitsRotatable(rows, ks)
  {
  }

  /** A failed run can be repeated: it leaves a table and a log that stop no later run. */
  lemma {:induction false} FailedRunStaysWorkable(before: seq<Row>, after: seq<Row>, log: seq<Line>, ks: KeyPair)
    requires ks.from != ks.to && Ran(before, after, ks) && Workable(before, log, ks)
    ensures Workable(after, log, ks)
  {
    RanStaysRotatable(before, after, ks);
  }

  /** A run that reported success can be repeated exactly when the log held no encrypted line. */
  lemma {:induction false} SuccessfulRunStaysWorkableIff(before: seq<Row>, after: seq<Row>, log: seq<Line>, ks: KeyPair)
    requires ks.from != ks.to && Ran(before, after, ks) && Workable(before, log, ks)
    ensures Workable(after, RewriteLog(log, ks).value, ks) <==> CountEncrypted(log) == 0
  {
    RanStaysRotatable(before, after, ks);
    SecondRewriteSucceedsIff(log, ks);
  }

  // ----- Failed runs, then one that succeeds -----

  /** Rotation is resumable and invisible: after any number of partial runs and one that reported
      success, every row is under the new key exactly if the last run passed over none that was
      not, and then each conversation reads with the new key as it read with the old one before. */
  lemma {:induction false} RotationIsInvisible(tables: seq<seq<Row>>, ks: KeyPair, conversationId: string)
    requires ks.from != ks.to && RunsOf(tables, ks) && |tables| > 1
    requires forall i :: 0 <= i < |tables[0]| ==> ReadRow(tables[0][i], Some(ks.from)).Success?
    requires Complete(tables[|tables|-2], tables[|tables|-1], ks)
    ensures AllDone(tables[|tables|-1], ks) <==> PassedOverDone(tables[|tables|-2], ks)
    ensures PassedOverDone(tables[|tables|-2], ks) ==>
              ReadAll(Conversation(tables[|tables|-1], conversationId), Some(ks.to))
              == ReadAll(Conversation(tables[0], conversationId), Some(ks.from))
  {
    hide Complete, PassedOverDone, AllDone, ReadAll, Conversation, Ran;
    CompleteMeansAllDoneIff(tables[|tables|-2], tables[|tables|-1], ks);
    if AllDone(tables[|tables|-1], ks) {
      AllDoneReadsTheSame(tables, ks, conversationId);
    }
  }

  lemma {:induction false} RanKeepsStamps(a: seq<Row>, b: seq<Row>, ks: KeyPair)
    requires Ran(a, b, ks)
    ensures |a| == |b| && forall i :: 0 <= i < |a| ==> b[i].id == a[i].id && b[i].createdAt == a[i].createdAt
    ensures LaterArePast(a) ==> LaterArePast(b)
  {
    hide Past, Resealed, UnderOldKey;
    forall i | 0 <= i < |a| ensures b[i].id == a[i].id && b[i].createdAt == a[i].createdAt {
      assert Progress(a[i], b[i], ks);
      ResealedKeepsKeys(a[i], ks);
    }
    if LaterArePast(a) {
      forall i, j | BATCH_SIZE - 1 <= i < j < |b| ensures Past(b[j], CursorAt(b[i])) {
        assert Past(a[j], CursorAt(a[i]));
        SameStampsSamePast(a[i], a[j], b[i], b[j]);
      }
    }
  }

  lemma SameStampsSamePast(r: Row, s: Row, r': Row, s': Row)
    requires r.id == r'.id && r.createdAt == r'.createdAt && s.id == s'.id && s.createdAt == s'.createdAt
    ensures Past(s, CursorAt(r)) <==> Past(s', CursorAt(r'))
  {
  }

  lemma {:induction false} OneMoreRun(tables: seq<seq<Row>>, after: seq<Row>, ks: KeyPair)
    requires RunsOf(tables, ks) && Ran(tables[|tables|-1], after, ks)
    ensures RunsOf(tables + [after], ks)
  {
    hide Ran;
  }

  /** RotateKeys called again and again, with the same two keys, until it succeeds. `last` is the
      table the successful call started from. */
  method RotateUntilSuccess(from: Key, to: Key, db: Database, audit: LogFile, plans: seq<FaultPlan>, conversationId: string)
    returns (done: bool, ghost last: seq<Row>)
    requires from != to && UniqueIds(db.rows)
    requires forall i :: 0 <= i < |db.rows| ==> ReadRow(db.rows[i], Some(from)).Success?
    modifies db`rows, audit`lines, audit`temp, plans
    ensures done ==> (AllDone(db.rows, KeyPair(from, to)) <==> PassedOverDone(last, KeyPair(from, to)))
    ensures done && PassedOverDone(last, KeyPair(from, to)) ==>
              ReadAll(Conversation(db.rows, conversationId), Some(to)) == ReadAll(Conversation(old(db.rows), conversationId), Some(from))
    ensures done && LaterArePast(old(db.rows)) ==> PassedOverDone(last, KeyPair(from, to))
    ensures !done ==> audit.lines == old(audit.lines)
  {
    hide Complete, PassedOverDone, AllDone, ReadAll, ReadRow, Conversation, Ran, RunsOf, LaterArePast, UniqueIds, RewriteLog;
    ghost var ks, start := KeyPair(from, to), db.rows;
    ghost var tables := [db.rows];
    NoRunYet(db.rows, ks);
    for k := 0 to |plans|
      invariant UniqueIds(db.rows) && audit.lines == old(audit.lines)
      invariant |tables| > 0 && RunsOf(tables, ks) && tables[0] == start && tables[|tables|-1] == db.rows
      invariant LaterArePast(start) ==> LaterArePast(db.rows)
    {
      last := db.rows;
      var outcome := RotateKeys(Some(from), Some(to), db, audit, plans[k]);
      OneMoreRun(tables, db.rows, ks);
      RanKeepsStamps(last, db.rows, ks);
      tables := tables + [db.rows];
      if outcome.Success? {
        RotationIsInvisible(tables, ks, conversationId);
        NothingPassedOver(last, ks);
        return true, last;
      }
    }
    return false, db.rows;
  }

  lemma NoRunYet(rows: seq<Row>, ks: KeyPair)
    ensures RunsOf([rows], ks)
  {
  }

  lemma {:induction false} NothingPassedOver(rows: seq<Row>, ks: KeyPair)
    ensures LaterArePast(rows) ==> PassedOverDone(rows, ks)
  {
    hide LaterArePast, Visits;
    if LaterArePast(rows) {
      LaterArePastReachesAll(rows);
    }
  }
}
