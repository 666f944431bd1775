/** internal/storage/rotation.go, the paging of rotateEncryptedRows: a query ordered by the raw
    created_at text, resumed by a cursor that compares datetime(created_at). */
module Keyset {
  import opened Wrappers
  import opened Aead
  import opened Ordering
  import opened MessageTable

  function CursorAt(r: Row): Cursor {
    After(r.createdAt.scanned, r.id)
  }

  /** The resumed query: a later second than the one scanned from the last row of the page, or the
      same second and a larger id; nothing if either is NULL. */
  lemma PastIff(r: Row, last: Row)
    ensures Past(r, CursorAt(last)) <==>
              exists s: int, t: int ::
                && r.createdAt.second == Some(s) && last.createdAt.scanned == Some(t)
                && (t < s || (s == t && Less(last.id, r.id)))
  {
  }

  function EncryptedRows(rows: seq<Row>): seq<nat> {
    Select(rows, Encrypted(Start))
  }

  function Page(rows: seq<Row>, c: Cursor): seq<nat> {
    Limit(Select(rows, Encrypted(c)), BATCH_SIZE)
  }

  /** The positions the loop visits from a cursor on, in order, over all its pages. */
  function Visits(rows: seq<Row>, c: Cursor): seq<nat>
    decreases |Select(rows, Encrypted(c))|
  {
    var page := Page(rows, c);
    SelectFinds(rows, Encrypted(c));
    if |page| == 0 then []
    else
      var last := page[|page|-1];
      FewerBeyond(rows, c, last);
      page + Visits(rows, CursorAt(rows[last]))
  }

  /** A row past the cursor left by a row past c is past c. */
  lemma {:induction false} PastTransitive(r: Row, last: Row, c: Cursor)
    requires Past(last, c) && Past(r, CursorAt(last)) && (c.After? ==> last.createdAt.second.Some?)
    ensures Past(r, c)
  {
    if c.After? && Less(c.id, last.id) && Less(last.id, r.id) {
      LessTransitive(c.id, last.id, r.id);
    }
  }

  lemma {:induction false} NotPastItself(r: Row)
    ensures !Past(r, CursorAt(r))
  {
    LessIrreflexive(r.id);
  }

  lemma {:induction false} SelectShrinks(rows: seq<Row>, w: Where, w': Where, p: nat)
    requires forall i :: 0 <= i < |rows| && Matches(rows[i], w') ==> Matches(rows[i], w)
    requires p < |rows| ==> Matches(rows[p], w) && !Matches(rows[p], w')
    ensures |Select(rows, w')| + (if p < |rows| then 1 else 0) <= |Select(rows, w)|
  {
    if |rows| > 0 {
      SelectShrinks(rows[..|rows|-1], w, w', p);
    }
  }

  /** The cursor moves on: fewer rows lie beyond the last row of a page than beyond the cursor
      that produced it. */
  lemma {:induction false} FewerBeyond(rows: seq<Row>, c: Cursor, p: nat)
    requires p < |rows| && Matches(rows[p], Encrypted(c))
    ensures |Select(rows, Encrypted(CursorAt(rows[p])))| < |Select(rows, Encrypted(c))|
  {
    forall i | 0 <= i < |rows| && Matches(rows[i], Encrypted(CursorAt(rows[p]))) ensures Matches(rows[i], Encrypted(c)) {
      PastTransitive(rows[i], rows[p], c);
    }
    NotPastItself(rows[p]);
    SelectShrinks(rows, Encrypted(c), Encrypted(CursorAt(rows[p])), p);
  }

  // ----- When does the paging cover the table? -----

  /** The cursor left by the e-th encrypted row separates the rows up to it from those after it. */
  predicate AgreesAt(rows: seq<Row>, e: nat)
    requires e < |EncryptedRows(rows)|
  {
    var all := EncryptedRows(rows);
    SelectFinds(rows, Encrypted(Start));
    forall j :: 0 <= j < |all| ==> (Past(rows[all[j]], CursorAt(rows[all[e]])) <==> e < j)
  }

  /** The last row of each full page, and the last row of all. */
  predicate PageEdge(e: nat, n: nat) {
    (e + 1) % BATCH_SIZE == 0 || e + 1 == n
  }

  predicate EdgesAgree(rows: seq<Row>) {
    var n := |EncryptedRows(rows)|;
    forall e :: 0 <= e < n && PageEdge(e, n) ==> AgreesAt(rows, e)
  }

  lemma {:induction false} SelectBeyondEdge(rows: seq<Row>, e: nat)
    requires e < |EncryptedRows(rows)| && AgreesAt(rows, e)
    ensures EncryptedRows(rows)[e] < |rows|
    ensures Select(rows, Encrypted(CursorAt(rows[EncryptedRows(rows)[e]]))) == EncryptedRows(rows)[e+1..]
  {
    var all := EncryptedRows(rows);
    SelectFinds(rows, Encrypted(Start));
    var beyond := Select(rows, Encrypted(CursorAt(rows[all[e]])));
    SelectFinds(rows, Encrypted(CursorAt(rows[all[e]])));
    forall p: nat ensures p in beyond <==> p in all[e+1..] {
      if p in all {
        var j :| 0 <= j < |all| && all[j] == p;
        AscendingHalvesDisjoint(all, e + 1, p);
        if j <= e {
          assert all[..e+1][j] == p;
        } else {
          assert all[e+1..][j-e-1] == p;
        }
      }
    }
    AscendingUnique(beyond, all[e+1..]);
  }

  /** One page of the loop, seen in the list of all encrypted rows. */
  lemma {:induction false} VisitsOnePage(rows: seq<Row>, m: nat, e: nat, c: Cursor)
    requires m <= e < |EncryptedRows(rows)| && Select(rows, Encrypted(c)) == EncryptedRows(rows)[m..]
    requires e == if |EncryptedRows(rows)| - m <= BATCH_SIZE then |EncryptedRows(rows)| - 1 else m + BATCH_SIZE - 1
    ensures EncryptedRows(rows)[e] < |rows|
    ensures Visits(rows, c) == EncryptedRows(rows)[m..e+1] + Visits(rows, CursorAt(rows[EncryptedRows(rows)[e]]))
  {
    hide Select, Ascending, Past, Matches;
    SelectFinds(rows, Encrypted(c));
    var all := EncryptedRows(rows);
    var page := Page(rows, c);
    assert page == all[m..e+1];
    assert all[m..][e-m] == all[e] && page[|page|-1] == all[e];
    assert all[e] in Select(rows, Encrypted(c));
    FewerBeyond(rows, c, all[e]);
  }

  lemma NothingBeyond(rows: seq<Row>, c: Cursor)
    requires Select(rows, Encrypted(c)) == []
    ensures Visits(rows, c) == []
  {
  }

  lemma {:induction false} AgreeingEdgesCover(rows: seq<Row>, m: nat, c: Cursor)
    requires EdgesAgree(rows) && m <= |EncryptedRows(rows)| && m % BATCH_SIZE == 0
    requires Select(rows, Encrypted(c)) == EncryptedRows(rows)[m..]
    ensures Visits(rows, c) == EncryptedRows(rows)[m..]
    decreases |EncryptedRows(rows)| - m
  {
    hide Visits, Select, CursorAt, AgreesAt;
    var all := EncryptedRows(rows);
    if m == |all| {
      NothingBeyond(rows, c);
    } else {
      var e := if |all| - m <= BATCH_SIZE then |all| - 1 else m + BATCH_SIZE - 1;
      VisitsOnePage(rows, m, e, c);
      assert PageEdge(e, |all|) && AgreesAt(rows, e);
      SelectBeyondEdge(rows, e);
      var next := CursorAt(rows[all[e]]);
      if e + 1 == |all| {
        NothingBeyond(rows, next);
      } else {
        AgreeingEdgesCover(rows, e + 1, next);
      }
      assert all[m..] == all[m..e+1] + all[e+1..];
    }
  }

  lemma {:induction false} VisitsAreBeyond(rows: seq<Row>, c: Cursor)
    ensures forall p :: p in Visits(rows, c) ==> p in Select(rows, Encrypted(c))
    decreases |Select(rows, Encrypted(c))|
  {
    var page := Page(rows, c);
    SelectFinds(rows, Encrypted(c));
    if |page| > 0 {
      var last := page[|page|-1];
      FewerBeyond(rows, c, last);
      VisitsAreBeyond(rows, CursorAt(rows[last]));
      SelectFinds(rows, Encrypted(CursorAt(rows[last])));
      forall i | 0 <= i < |rows| && Past(rows[i], CursorAt(rows[last])) ensures Past(rows[i], c) {
        PastTransitive(rows[i], rows[last], c);
      }
    }
  }

  /** Nothing past c sorts before the rows up to e but the rows of the page that ends at e, and
      those would come back on the next page. */
  lemma ReturnsOnNextPage(rows: seq<Row>, m: nat, e: nat, j: nat, next: Cursor)
    requires m <= j <= e < m + BATCH_SIZE && e < |EncryptedRows(rows)|
    requires forall i :: 0 <= i < m ==> EncryptedRows(rows)[i] < |rows| && !Past(rows[EncryptedRows(rows)[i]], next)
    requires EncryptedRows(rows)[j] < |rows| && Past(rows[EncryptedRows(rows)[j]], next)
    ensures EncryptedRows(rows)[j] in Visits(rows, next)
  {
    var all := EncryptedRows(rows);
    var beyond := Select(rows, Encrypted(next));
    SelectFinds(rows, Encrypted(Start));
    SelectFinds(rows, Encrypted(next));
    assert all[j] in all && all[j] in beyond;
    var k :| 0 <= k < |beyond| && beyond[k] == all[j];
    IndexWithin(beyond, k, all, m, j);
    assert Page(rows, next)[k] == all[j];
  }

  /** An ascending sequence drawn from t whose elements up to k avoid t[..m] and end at t[j] has
      at most j - m elements before k. */
  lemma {:induction false} IndexWithin(s: seq<nat>, k: nat, t: seq<nat>, m: nat, j: nat)
    requires Ascending(s) && Ascending(t) && k < |s| && m <= j < |t| && s[k] == t[j]
    requires forall i :: 0 <= i < |s| ==> s[i] in t
    requires forall i :: 0 <= i < m ==> t[i] !in s
    ensures k <= j - m
  {
    if k > 0 {
      var i :| 0 <= i < |t| && t[i] == s[k-1];
      assert s[k-1] < s[k];
      assert i < j && m <= i;
      IndexWithin(s, k - 1, t, m, i);
    }
  }

  predicate EdgesAgreeFrom(rows: seq<Row>, m: nat) {
    var n := |EncryptedRows(rows)|;
    forall e :: m <= e < n && PageEdge(e, n) ==> AgreesAt(rows, e)
  }

  lemma NoEdgesLeft(rows: seq<Row>, m: nat)
    requires m >= |EncryptedRows(rows)|
    ensures EdgesAgreeFrom(rows, m)
  {
  }

  lemma {:induction false} EdgesAgreeFromEarlier(rows: seq<Row>, m: nat, e: nat)
    requires m <= e < |EncryptedRows(rows)| && AgreesAt(rows, e) && m % BATCH_SIZE == 0
    requires e + 1 == m + BATCH_SIZE || (e + 1 == |EncryptedRows(rows)| && e < m + BATCH_SIZE)
    requires EdgesAgreeFrom(rows, e + 1)
    ensures EdgesAgreeFrom(rows, m)
  {
    forall e' | m <= e' < |EncryptedRows(rows)| && PageEdge(e', |EncryptedRows(rows)|) ensures AgreesAt(rows, e') {
      assert e' >= e;
    }
  }

  /** If each remaining row is visited exactly once then the cursor agrees with the order at
      each remaining edge. */
  lemma {:induction false} CoverageForcesEdges(rows: seq<Row>, m: nat, c: Cursor)
    requires m <= |EncryptedRows(rows)| && m % BATCH_SIZE == 0
    requires Select(rows, Encrypted(c)) == EncryptedRows(rows)[m..]
    requires multiset(Visits(rows, c)) == multiset(EncryptedRows(rows)[m..])
    ensures EdgesAgreeFrom(rows, m)
    decreases |EncryptedRows(rows)| - m
  {
    hide Visits, Select, CursorAt, AgreesAt, EdgesAgreeFrom;
    var all := EncryptedRows(rows);
    if m == |all| {
      NoEdgesLeft(rows, m);
    } else {
      var e := if |all| - m <= BATCH_SIZE then |all| - 1 else m + BATCH_SIZE - 1;
      CoverageOfTheRest(rows, m, e, c);
      var next := CursorAt(rows[all[e]]);
      EdgeAgrees(rows, m, e, c, next);
      SelectBeyondEdge(rows, e);
      if e + 1 < |all| {
        NextPageStart(m, e);
        CoverageForcesEdges(rows, e + 1, next);
      } else {
        NoEdgesLeft(rows, e + 1);
      }
      EdgesAgreeFromEarlier(rows, m, e);
    }
  }

  lemma NextPageStart(m: nat, e: nat)
    requires m % BATCH_SIZE == 0 && e == m + BATCH_SIZE - 1
    ensures (e + 1) % BATCH_SIZE == 0
  {
  }

  lemma {:induction false} CoverageOfTheRest(rows: seq<Row>, m: nat, e: nat, c: Cursor)
    requires m <= e < |EncryptedRows(rows)| && Select(rows, Encrypted(c)) == EncryptedRows(rows)[m..]
    requires e == if |EncryptedRows(rows)| - m <= BATCH_SIZE then |EncryptedRows(rows)| - 1 else m + BATCH_SIZE - 1
    requires multiset(Visits(rows, c)) == multiset(EncryptedRows(rows)[m..])
    ensures EncryptedRows(rows)[e] < |rows|
    ensures multiset(Visits(rows, CursorAt(rows[EncryptedRows(rows)[e]]))) == multiset(EncryptedRows(rows)[e+1..])
  {
    hide Visits, Select, CursorAt;
    var all := EncryptedRows(rows);
    VisitsOnePage(rows, m, e, c);
    var seen, later := all[m..e+1], Visits(rows, CursorAt(rows[all[e]]));
    assert all[m..] == seen + all[e+1..];
    assert multiset(seen + later) == multiset(seen + all[e+1..]);
    MultisetCancel(multiset(seen), multiset(later), multiset(all[e+1..]));
  }

  lemma {:induction false} MultisetCancel(a: multiset<nat>, x: multiset<nat>, y: multiset<nat>)
    requires a + x == a + y
    ensures x == y
  {
    forall p ensures x[p] == y[p] {
      assert (a + x)[p] == (a + y)[p];
    }
  }

  lemma {:induction false} EdgeAgrees(rows: seq<Row>, m: nat, e: nat, c: Cursor, next: Cursor)
    requires m <= e < |EncryptedRows(rows)| && e < m + BATCH_SIZE
    requires Select(rows, Encrypted(c)) == EncryptedRows(rows)[m..]
    requires EncryptedRows(rows)[e] < |rows| && next == CursorAt(rows[EncryptedRows(rows)[e]])
    requires multiset(Visits(rows, next)) == multiset(EncryptedRows(rows)[e+1..])
    ensures AgreesAt(rows, e)
  {
    var all := EncryptedRows(rows);
    SelectFinds(rows, Encrypted(Start));
    assert all[e] in all && all[m..][e-m] == all[e];
    assert all[e] in Select(rows, Encrypted(c));
    EarlierPagesStayBehind(rows, m, c, all[e]);
    forall j | 0 <= j < |all| ensures Past(rows[all[j]], next) <==> e < j {
      if j > e {
        LaterRowsArePast(rows, e, j, next);
      } else if j >= m {
        NotVisitedAgain(rows, e, j, next);
        if Past(rows[all[j]], next) {
          ReturnsOnNextPage(rows, m, e, j, next);
        }
      }
    }
  }

  lemma {:induction false} NotVisitedAgain(rows: seq<Row>, e: nat, j: nat, next: Cursor)
    requires j <= e < |EncryptedRows(rows)|
    requires multiset(Visits(rows, next)) == multiset(EncryptedRows(rows)[e+1..])
    ensures EncryptedRows(rows)[j] !in Visits(rows, next)
  {
    var all := EncryptedRows(rows);
    SelectFinds(rows, Encrypted(Start));
    assert all[..e+1][j] == all[j];
    AscendingHalvesDisjoint(all, e + 1, all[j]);
    assert all[j] !in multiset(all[e+1..]);
    assert all[j] !in multiset(Visits(rows, next));
  }

  lemma {:induction false} EarlierPagesStayBehind(rows: seq<Row>, m: nat, c: Cursor, last: nat)
    requires m <= |EncryptedRows(rows)| && Select(rows, Encrypted(c)) == EncryptedRows(rows)[m..]
    requires last < |rows| && last in Select(rows, Encrypted(c))
    ensures forall i :: 0 <= i < m ==>
              EncryptedRows(rows)[i] < |rows| && !Past(rows[EncryptedRows(rows)[i]], CursorAt(rows[last]))
  {
    var all := EncryptedRows(rows);
    SelectFinds(rows, Encrypted(Start));
    SelectFinds(rows, Encrypted(c));
    forall i | 0 <= i < m ensures !Past(rows[all[i]], CursorAt(rows[last])) {
      assert all[..m][i] == all[i];
      AscendingHalvesDisjoint(all, m, all[i]);
      assert all[i] in all;
      if Past(rows[all[i]], CursorAt(rows[last])) {
        PastTransitive(rows[all[i]], rows[last], c);
      }
    }
  }

  lemma {:induction false} LaterRowsArePast(rows: seq<Row>, e: nat, j: nat, next: Cursor)
    requires e < j < |EncryptedRows(rows)|
    requires multiset(Visits(rows, next)) == multiset(EncryptedRows(rows)[e+1..])
    ensures EncryptedRows(rows)[j] < |rows| && Past(rows[EncryptedRows(rows)[j]], next)
  {
    var all := EncryptedRows(rows);
    SelectFinds(rows, Encrypted(next));
    VisitsAreBeyond(rows, next);
    assert all[e+1..][j-e-1] == all[j];
    assert all[j] in multiset(all[e+1..]);
    assert all[j] in Visits(rows, next);
  }

  /** The paging visits each encrypted row exactly once if and only if, at the last row of each
      page, the cursor comparison agrees with the sort order. */
  lemma {:induction false} CoversExactlyOnceIff(rows: seq<Row>)
    ensures multiset(Visits(rows, Start)) == multiset(EncryptedRows(rows)) <==> EdgesAgree(rows)
    ensures EdgesAgree(rows) ==> Visits(rows, Start) == EncryptedRows(rows)
  {
    assert EncryptedRows(rows)[0..] == EncryptedRows(rows);
    if EdgesAgree(rows) {
      AgreeingEdgesCover(rows, 0, Start);
    }
    if multiset(Visits(rows, Start)) == multiset(EncryptedRows(rows)) {
      CoverageForcesEdges(rows, 0, Start);
    }
  }

  /** Stamps the cursor can tell apart exactly when the sort order can: every stamp has a
      datetime() value, and two stamps with the same second have the same text. */
  predicate WholeSeconds(rows: seq<Row>) {
    && (forall i :: 0 <= i < |rows| ==> rows[i].createdAt.second.Some?)
    && (forall i, j :: 0 <= i < |rows| && 0 <= j < |rows| ==>
          (Less(rows[i].createdAt.text, rows[j].createdAt.text) ==> rows[i].createdAt.second.value < rows[j].createdAt.second.value) &&
          (rows[i].createdAt.text == rows[j].createdAt.text ==> rows[i].createdAt.second.value == rows[j].createdAt.second.value))
  }

  lemma {:induction false} WholeSecondsAgree(rows: seq<Row>)
    requires OrderedTable(rows) && WholeSeconds(rows)
    ensures EdgesAgree(rows)
  {
    var all := EncryptedRows(rows);
    SelectFinds(rows, Encrypted(Start));
    forall e | 0 <= e < |all| ensures AgreesAt(rows, e) {
      forall j | 0 <= j < |all| ensures Past(rows[all[j]], CursorAt(rows[all[e]])) <==> e < j {
        PastFollowsOrder(rows, all[e], all[j]);
      }
    }
  }

  lemma {:induction false} PastFollowsOrder(rows: seq<Row>, p: nat, q: nat)
    requires OrderedTable(rows) && WholeSeconds(rows) && p < |rows| && q < |rows|
    ensures Past(rows[q], CursorAt(rows[p])) <==> p < q
  {
    if p == q {
      NotPastItself(rows[p]);
    } else if q < p {
      assert Before(rows[q], rows[p]);
      if Less(rows[q].id, rows[p].id) && Less(rows[p].id, rows[q].id) {
        LessTransitive(rows[q].id, rows[p].id, rows[q].id);
        LessIrreflexive(rows[q].id);
      }
    } else {
      assert Before(rows[p], rows[q]);
    }
  }

  // ----- When is nothing passed over? -----

  predicate NonePassedOver(rows: seq<Row>) {
    forall i :: 0 <= i < |rows| && rows[i].encrypted ==> i in Visits(rows, Start)
  }

  /** From the hundredth row on, the cursor left by a row never hides a later row. Up to a hundred
      rows this asks for nothing. */
  predicate LaterArePast(rows: seq<Row>) {
    forall i, j :: BATCH_SIZE - 1 <= i < j < |rows| ==> Past(rows[j], CursorAt(rows[i]))
  }

  lemma {:induction false} AscendingAtLeast(s: seq<nat>, k: nat)
    requires Ascending(s) && k < |s|
    ensures s[k] >= k
  {
    if k > 0 {
      AscendingAtLeast(s, k - 1);
    }
  }

  lemma {:induction false} BeyondIsVisited(rows: seq<Row>, c: Cursor)
    requires LaterArePast(rows)
    ensures forall p :: p in Select(rows, Encrypted(c)) ==> p in Visits(rows, c)
    decreases |Select(rows, Encrypted(c))|
  {
    hide Select, Past;
    var sel, page := Select(rows, Encrypted(c)), Page(rows, c);
    SelectFinds(rows, Encrypted(c));
    if |sel| > BATCH_SIZE {
      var last := page[|page|-1];
      AscendingAtLeast(sel, BATCH_SIZE - 1);
      FewerBeyond(rows, c, last);
      var next := CursorAt(rows[last]);
      BeyondIsVisited(rows, next);
      SelectFinds(rows, Encrypted(next));
      forall k | BATCH_SIZE <= k < |sel| ensures sel[k] in Visits(rows, next) {
        assert sel[BATCH_SIZE-1] < sel[k];
        assert Past(rows[sel[k]], next);
      }
    }
  }

  lemma {:induction false} LaterArePastReachesAll(rows: seq<Row>)
    requires LaterArePast(rows)
    ensures NonePassedOver(rows)
  {
    hide Select, Visits;
    SelectFinds(rows, Encrypted(Start));
    BeyondIsVisited(rows, Start);
  }

  /** The table with its encrypted flags set one by one. */
  function Flagged(rows: seq<Row>, flags: seq<bool>): seq<Row>
    requires |flags| == |rows|
  {
    seq(|rows|, i requires 0 <= i < |rows| => rows[i].(encrypted := flags[i]))
  }

  /** Whichever rows are encrypted, the paging passes over none of them: exactly the tables on which
      no cursor from the hundredth row on hides a later row. */
  lemma {:induction false} NeverPassesOverIff(rows: seq<Row>)
    ensures (forall flags: seq<bool> :: |flags| == |rows| ==> NonePassedOver(Flagged(rows, flags))) <==> LaterArePast(rows)
  {
    if LaterArePast(rows) {
      forall flags: seq<bool> | |flags| == |rows| ensures NonePassedOver(Flagged(rows, flags)) {
        var t := Flagged(rows, flags);
        forall i, j | BATCH_SIZE - 1 <= i < j < |t| ensures Past(t[j], CursorAt(t[i])) {
          assert Past(rows[j], CursorAt(rows[i]));
        }
        LaterArePastReachesAll(t);
      }
    } else {
      var i, j :| BATCH_SIZE - 1 <= i < j < |rows| && !Past(rows[j], CursorAt(rows[i]));
      HiddenRowIsPassedOver(rows, i, j);
    }
  }

  /** The first 99 rows, row i and row j encrypted: the first page ends at i, and j is never reached. */
  lemma {:induction false} HiddenRowIsPassedOver(rows: seq<Row>, i: nat, j: nat)
    requires BATCH_SIZE - 1 <= i < j < |rows| && !Past(rows[j], CursorAt(rows[i]))
    ensures exists flags: seq<bool> :: |flags| == |rows| && !NonePassedOver(Flagged(rows, flags))
  {
    var flags := seq(|rows|, p requires 0 <= p < |rows| => p < BATCH_SIZE - 1 || p == i || p == j);
    var t := Flagged(rows, flags);
    SelectFinds(t, Encrypted(CursorAt(t[i])));
    assert j !in Select(t, Encrypted(CursorAt(t[i]))) && t[j].encrypted;
    hide Visits, Select, Past, CursorAt;
    FirstPageEndsAt(t, i, j);
    VisitsAreBeyond(t, CursorAt(t[i]));
    assert j !in Visits(t, Start);
  }

  lemma {:induction false} FirstPageEndsAt(t: seq<Row>, i: nat, j: nat)
    requires BATCH_SIZE - 1 <= i < j < |t|
    requires forall p :: 0 <= p < |t| ==> (t[p].encrypted <==> p < BATCH_SIZE - 1 || p == i || p == j)
    ensures Visits(t, Start) == Page(t, Start) + Visits(t, CursorAt(t[i])) && j !in Page(t, Start)
  {
    var sel := Select(t, Encrypted(Start));
    var front: seq<nat> := seq(BATCH_SIZE - 1, p => p);
    var all := front + [i, j];
    SelectFinds(t, Encrypted(Start));
    forall p: nat ensures p in sel <==> p in all {
      if p < BATCH_SIZE - 1 {
        assert all[p] == p;
      }
      assert all[BATCH_SIZE-1] == i && all[BATCH_SIZE] == j;
    }
    AscendingUnique(sel, all);
    assert Page(t, Start) == all[..BATCH_SIZE] == front + [i];
  }

  lemma {:induction false} WholeSecondsLaterArePast(rows: seq<Row>)
    requires OrderedTable(rows) && WholeSeconds(rows)
    ensures LaterArePast(rows)
  {
    hide OrderedTable, WholeSeconds, Past;
    forall i, j | BATCH_SIZE - 1 <= i < j < |rows| ensures Past(rows[j], CursorAt(rows[i])) {
      PastFollowsOrder(rows, i, j);
    }
  }

  // ----- A table that is not covered -----

  function Zs(n: nat): string {
    seq(n, _ => 'z')
  }

  /** A hundred messages in one instant, then one a fraction of a second later whose id sorts
      first. All stamps fall in the same second. */
  function SubSecondTable(key: Key): seq<Row> {
    seq(101, i requires 0 <= i < 101 => SubSecondRow(i, key))
  }

  const INSTANT := "2026-04-01 00:00:00."

  function SubSecondRow(i: nat, key: Key): Row {
    var id := if i < 100 then Zs(i + 1) else "a";
    var text := INSTANT + [if i < 100 then '1' else '2'];
    SealRow(Row(i, id, "conv-1", "user", Plain("hello"), EMPTY, "", 0, CreatedAt(text, Some(0), Some(0)), false), key)
  }

  lemma {:induction false} SubSecondTableOrdered(key: Key)
    ensures OrderedTable(SubSecondTable(key))
  {
    var rows := SubSecondTable(key);
    UniqueIdsPairwise(rows, |rows|);
    forall i, j | 0 <= i < j < |rows| ensures Before(rows[i], rows[j]) && rows[i].id != rows[j].id {
      SubSecondRowsOrdered(i, j, key);
    }
  }

  lemma {:induction false} SubSecondRowsOrdered(i: nat, j: nat, key: Key)
    requires i < j <= 100
    ensures Before(SubSecondRow(i, key), SubSecondRow(j, key)) && SubSecondRow(i, key).id != SubSecondRow(j, key).id
  {
    if j < 100 {
      assert Zs(i + 1) < Zs(j + 1);
      ProperPrefixIsLess(Zs(i + 1), Zs(j + 1));
    } else {
      LastDigitDecides(INSTANT, '1', '2');
      assert SubSecondRow(i, key).id[0] == 'z';
    }
  }

  lemma {:induction false} LastDigitDecides(s: string, a: char, b: char)
    requires a < b
    ensures Less(s + [a], s + [b])
  {
    if |s| > 0 {
      assert (s + [a])[1..] == s[1..] + [a] && (s + [b])[1..] == s[1..] + [b];
      LastDigitDecides(s[1..], a, b);
    }
  }

  /** The last row of that table is past every page the loop asks for: it is never visited. */
  lemma {:induction false} SubSecondRowPassedOver(key: Key)
    ensures OrderedTable(SubSecondTable(key)) && !EdgesAgree(SubSecondTable(key))
    ensures 100 in EncryptedRows(SubSecondTable(key)) && 100 !in Visits(SubSecondTable(key), Start)
  {
    var rows := SubSecondTable(key);
    SubSecondTableOrdered(key);
    SelectFinds(rows, Encrypted(Start));
    AllSelected(rows);
    var all := EncryptedRows(rows);
    var page := Page(rows, Start);
    var next := CursorAt(rows[99]);
    assert page == all[..100] && page[99] == 99;
    assert rows[99].id[0] == 'z' && rows[100].id == "a";
    assert !Less(rows[99].id, rows[100].id);
    assert !Past(rows[100], next);
    SelectFinds(rows, Encrypted(next));
    VisitsAreBeyond(rows, next);
    assert Visits(rows, Start) == page + Visits(rows, next);
    assert 100 !in page;
    assert 100 in all;
    if EdgesAgree(rows) {
      CoversExactlyOnceIff(rows);
      assert false;
    }
  }

  /** With no usable datetime() value at all, only the first page is ever visited. */
  lemma {:induction false} UnreadableStampsStopAfterOnePage(rows: seq<Row>)
    requires forall i :: 0 <= i < |rows| ==> rows[i].createdAt.second.None?
    ensures Visits(rows, Start) == Page(rows, Start)
    ensures EdgesAgree(rows) <==> |EncryptedRows(rows)| <= BATCH_SIZE
  {
    var page := Page(rows, Start);
    SelectFinds(rows, Encrypted(Start));
    if |page| > 0 {
      var next := CursorAt(rows[page[|page|-1]]);
      SelectFinds(rows, Encrypted(next));
      EmptyOrFirst(Select(rows, Encrypted(next)));
      NothingBeyond(rows, next);
    }
    CoversExactlyOnceIff(rows);
    if |EncryptedRows(rows)| > BATCH_SIZE {
      assert |multiset(page)| != |multiset(EncryptedRows(rows))|;
    }
  }

  lemma EmptyOrFirst(s: seq<nat>)
    ensures s == [] || s[0] in s
  {
  }

  lemma {:induction false} AllSelected(rows: seq<Row>)
    requires forall i :: 0 <= i < |rows| ==> rows[i].encrypted
    ensures EncryptedRows(rows) == seq(|rows|, i => i)
  {
    var all := EncryptedRows(rows);
    var ids: seq<nat> := seq(|rows|, i => i);
    SelectFinds(rows, Encrypted(Start));
    forall p: nat ensures p in all <==> p in ids {
      if p < |rows| {
        assert ids[p] == p;
      }
    }
    AscendingUnique(all, ids);
  }
}
