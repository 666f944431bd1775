/** cmd/gogoclaw/main.go, runRotateKey: resolve both keys, rotate, promote, clean up - and what
    survives of the data if the process dies between any two steps. */
module RotateCommand {
  import opened Wrappers
  import opened Ordering
  import opened Aead
  import opened Faults
  import opened MessageTable
  import opened Keyset
  import opened Rotation
  import opened AuditLog
  import opened KeyRotation
  import opened KeyFiles

  // ----- What is readable with the material on disk -----

  predicate Opens(r: Row) {
    !r.encrypted || (r.content.Sealed? && ReadRow(r, Some(r.content.key)).Success?)
  }

  function Message(r: Row): StoredMessage
    requires Opens(r)
  {
    ReadRow(r, if r.encrypted then Some(r.content.key) else None).value
  }

  predicate RowReadable(f: Files, r: Row) {
    Opens(r) && (r.encrypted ==> OnDisk(f, r.content.key))
  }

  predicate LineReadable(f: Files, l: Line) {
    IsEncrypted(l) ==> l.body.Sealed? && OnDisk(f, l.body.key) && DecryptAuditLine(l, l.body.key).Success?
  }

  predicate RowsReadable(f: Files, rows: seq<Row>) {
    forall i :: 0 <= i < |rows| ==> RowReadable(f, rows[i])
  }

  predicate LinesReadable(f: Files, lines: seq<Line>) {
    forall i :: 0 <= i < |lines| ==> LineReadable(f, lines[i])
  }

  /** Row by row the same message, whatever keys the two tables are under. */
  predicate SameMessages(a: seq<Row>, b: seq<Row>) {
    |a| == |b| && forall i :: 0 <= i < |a| ==> Opens(a[i]) && Opens(b[i]) && Message(a[i]) == Message(b[i])
  }

  /** Line by line the same text for the reader. */
  predicate SameLog(a: seq<Line>, b: seq<Line>) {
    |a| == |b| && forall i :: 0 <= i < |a| ==> SameLine(a[i], b[i])
  }

  predicate SameLine(l: Line, m: Line) {
    if IsEncrypted(l)
    then IsEncrypted(m) && l.body.Sealed? && m.body.Sealed? &&
         DecryptAuditLine(l, l.body.key) == DecryptAuditLine(m, m.body.key)
    else m == l
  }

  ghost predicate MoreOnDisk(f: Files, g: Files) {
    forall k :: OnDisk(f, k) ==> OnDisk(g, k)
  }

  lemma {:induction false} MoreStaysReadable(f: Files, g: Files, rows: seq<Row>, lines: seq<Line>)
    requires MoreOnDisk(f, g) && RowsReadable(f, rows) && LinesReadable(f, lines)
    ensures RowsReadable(g, rows) && LinesReadable(g, lines)
  {
    hide OnDisk, DecryptAuditLine, ReadRow;
    forall i | 0 <= i < |rows| ensures RowReadable(g, rows[i]) {
      assert RowReadable(f, rows[i]);
    }
    forall i | 0 <= i < |lines| ensures LineReadable(g, lines[i]) {
      assert LineReadable(f, lines[i]);
    }
  }

  lemma {:induction false} ProgressStaysReadable(f: Files, r: Row, s: Row, ks: KeyPair)
    requires ks.from != ks.to && Progress(r, s, ks) && RowReadable(f, r) && OnDisk(f, ks.to)
    ensures RowReadable(f, s) && Message(s) == Message(r)
  {
    if r.encrypted && UnderOldKey(r, ks) && s == Resealed(r, ks) {
      ResealedReads(r, ks);
    } else if !r.encrypted && s == SealRow(r, ks.to) {
      SealRowReads(r, ks.to, None);
    }
  }

  /** A run of the rotation, finished or not, leaves every row readable with the same content. */
  lemma {:induction false} RanStaysReadable(f: Files, a: seq<Row>, b: seq<Row>, ks: KeyPair)
    requires ks.from != ks.to && Ran(a, b, ks) && RowsReadable(f, a) && OnDisk(f, ks.to)
    ensures RowsReadable(f, b) && SameMessages(a, b)
  {
    hide Progress, RowReadable, OnDisk, Message, Opens;
    forall i | 0 <= i < |a| ensures RowReadable(f, b[i]) && Opens(a[i]) && Opens(b[i]) && Message(a[i]) == Message(b[i]) {
      ProgressStaysReadable(f, a[i], b[i], ks);
      RowReadableOpens(f, a[i]);
      RowReadableOpens(f, b[i]);
    }
  }

  lemma RowReadableOpens(f: Files, r: Row)
    requires RowReadable(f, r)
    ensures Opens(r)
  {
  }

  lemma {:induction false} RewrittenIsReadable(f: Files, lines: seq<Line>, ks: KeyPair)
    requires RewriteLog(lines, ks).Success? && OnDisk(f, ks.to)
    ensures LinesReadable(f, RewriteLog(lines, ks).value) && SameLog(lines, RewriteLog(lines, ks).value)
  {
    hide OnDisk;
    RewriteLogAt(lines, ks);
    var out := RewriteLog(lines, ks).value;
    forall i | 0 <= i < |lines| ensures LineReadable(f, out[i]) && SameLine(lines[i], out[i]) {
      assert RewriteLine(lines[i], ks) == Success(out[i]);
    }
  }

  lemma {:induction false} SameMessagesReflexive(f: Files, rows: seq<Row>)
    requires RowsReadable(f, rows)
    ensures SameMessages(rows, rows)
  {
    forall i | 0 <= i < |rows| ensures Opens(rows[i]) {
      assert RowReadable(f, rows[i]);
    }
  }

  lemma {:induction false} SameMessagesTransitive(a: seq<Row>, b: seq<Row>, c: seq<Row>)
    requires SameMessages(a, b) && SameMessages(b, c)
    ensures SameMessages(a, c)
  {
    hide Opens, Message;
    forall i | 0 <= i < |a| ensures Opens(a[i]) && Opens(c[i]) && Message(a[i]) == Message(c[i]) {
      assert Opens(b[i]) && Message(a[i]) == Message(b[i]);
    }
  }

  lemma {:induction false} SameLogReflexive(f: Files, lines: seq<Line>)
    requires LinesReadable(f, lines)
    ensures SameLog(lines, lines)
  {
    forall i | 0 <= i < |lines| ensures SameLine(lines[i], lines[i]) {
      assert LineReadable(f, lines[i]);
    }
  }

  lemma {:induction false} SameLogTransitive(a: seq<Line>, b: seq<Line>, c: seq<Line>)
    requires SameLog(a, b) && SameLog(b, c)
    ensures SameLog(a, c)
  {
    forall i | 0 <= i < |a| ensures SameLine(a[i], c[i]) {
      assert SameLine(a[i], b[i]) && SameLine(b[i], c[i]);
    }
  }

  // ----- What a promotion must not lose -----

  function SourceOf(k: Key): string {
    if k.AutoKey? then AUTO else PASS
  }

  /** The same bytes, or the same salt: passphrases are the operator's. */
  predicate SameMaterial(j: Key, k: Key) {
    match j
    case AutoKey(b) => k.AutoKey? && k.bytes == b
    case Derived(_, s) => k.Derived? && k.salt == s
  }

  /** Told from the files before a run: the material of k is still on disk after the first `at`
      steps of its promotion. */
  predicate Kept(f: Files, ks: KeyPair, at: nat, k: Key) {
    Survives(f, SourceOf(ks.from), SourceOf(ks.to), at, k) || SameMaterial(k, ks.from) || SameMaterial(k, ks.to)
  }

  /** No encrypted row that the paging passes over loses its key. */
  predicate NoneLost(rows: seq<Row>, f: Files, ks: KeyPair, at: nat) {
    forall i :: 0 <= i < |rows| && rows[i].encrypted && i !in Visits(rows, Start) ==>
                  rows[i].content.Sealed? && Kept(f, ks, at, rows[i].content.key)
  }

  predicate AllEncrypted(rows: seq<Row>) {
    forall i :: 0 <= i < |rows| ==> rows[i].encrypted
  }

  /** No run passes over a row: because none is left to encrypt and the pages reach them all, or
      because no cursor a run can come to hides one. */
  predicate StaysCovered(rows: seq<Row>) {
    LaterArePast(rows) || (AllEncrypted(rows) && NonePassedOver(rows))
  }

  lemma {:induction false} NothingPassedOverNoneLost(rows: seq<Row>, f: Files, ks: KeyPair, at: nat)
    requires StaysCovered(rows)
    ensures NoneLost(rows, f, ks, at)
  {
    hide Visits, LaterArePast, Kept;
    if LaterArePast(rows) {
      LaterArePastReachesAll(rows);
    }
  }

  lemma {:induction false} RanStaysCovered(a: seq<Row>, b: seq<Row>, ks: KeyPair)
    requires Ran(a, b, ks) && StaysCovered(a)
    ensures StaysCovered(b)
  {
    hide LaterArePast, Visits, Resealed, UnderOldKey;
    RanKeepsStamps(a, b, ks);
    if AllEncrypted(a) {
      forall i | 0 <= i < |a| ensures b[i].encrypted {
        assert Progress(a[i], b[i], ks);
        ResealedKeepsKeys(a[i], ks);
      }
      VisitsIgnoreContent(a, b, Start);
    }
  }

  lemma {:induction false} RanStaysOrdered(a: seq<Row>, b: seq<Row>, ks: KeyPair)
    requires OrderedTable(a) && Ran(a, b, ks)
    ensures OrderedTable(b)
  {
    hide Less, Resealed, UnderOldKey, UniqueIds;
    RanKeepsIds(a, b, ks);
    RanKeepsStamps(a, b, ks);
    forall i, j | 0 <= i < j < |b| ensures Before(b[i], b[j]) {
      assert Before(a[i], a[j]);
    }
  }

  // ----- The command -----

  datatype Args = Args(
    newPassphrase: string, generateNewKey: bool, dryRun: bool, confirmed: bool,
    encryptionEnabled: bool, currentPassphrase: string,   // the configuration and the environment
    freshKey: nat, freshSalt: string)                     // what the random source yields

  datatype Exit =
    | UsageError | EncryptionOff | NoCurrentKey | NoNewKey | NoStats | DryRun | Aborted
    | RotationFailed(error: RotateError) | PromotionFailed | Completed(key: Key)

  /** What every run starts from and leaves, at whatever step it ends. */
  predicate Safe(f: Files, rows: seq<Row>, lines: seq<Line>) {
    OrderedTable(rows) && RowsReadable(f, rows) && LinesReadable(f, lines)
  }

  /** The exits of a run in which RotateKeys reported success. */
  predicate RotationSucceeded(exit: Exit) {
    exit.Completed? || exit == PromotionFailed
  }

  /** What the two keys are, told from the files before the run: the old one comes from the current
      files or is fresh, the new one is staged or fresh. */
  predicate KeysFound(f: Files, ks: KeyPair, args: Args) {
    && (ks.from.AutoKey? <==> args.currentPassphrase == "")
    && (if ks.from.AutoKey? then f.key == Some(Encoded(ks.from.bytes)) || (f.key == None && ks.from.bytes == args.freshKey)
        else f.salt == Some(ks.from.salt) || (f.salt == None && ks.from.salt == args.freshSalt))
    && (f.keyNew.Some? ==> f.keyNew.value.Encoded? && ks.to == AutoKey(f.keyNew.value.bytes) && f.saltNew == None)
    && (f.saltNew.Some? ==> ks.to == Derived(args.newPassphrase, f.saltNew.value) && f.keyNew == None)
    && (f.keyNew == None && f.saltNew == None ==>
          ks.to == if args.newPassphrase != "" then Derived(args.newPassphrase, args.freshSalt) else AutoKey(args.freshKey))
  }

  /** What was in the key files is still there; what was missing may have been made. */
  predicate SameKeys(f: Files, g: Files, args: Args) {
    && g.keyBak == f.keyBak && g.saltBak == f.saltBak
    && (g.key == f.key || (f.key == None && g.key == Some(Encoded(args.freshKey))))
    && (g.salt == f.salt || (f.salt == None && g.salt == Some(args.freshSalt)))
    && (f.keyNew.Some? || f.saltNew.Some? ==> g.keyNew == f.keyNew && g.saltNew == f.saltNew)
  }

  /** The current key was there, or was made. */
  predicate CurrentMade(f0: Files, f1: Files, args: Args) {
    || f1 == f0
    || (args.currentPassphrase == "" && f0.key == None && f1 == f0.(key := Some(Encoded(args.freshKey))))
    || (args.currentPassphrase != "" && f0.salt == None && f1 == f0.(salt := Some(args.freshSalt)))
  }

  /** The two keys were resolved: f0 before, f1 in between, f2 after. */
  predicate Resolved(f0: Files, f1: Files, f2: Files, ks: KeyPair, args: Args) {
    && CurrentMade(f0, f1, args) && SameButStaging(f2, f1)
    && CurrentKey(f1, args.currentPassphrase) == Some(ks.from)
    && Staged(f2, ks.to, SourceOf(ks.to), args.newPassphrase) && (ks.to.Derived? ==> args.newPassphrase != "")
    && (if f1.keyNew.Some? || f1.saltNew.Some? then f2 == f1
        else ks.to == if args.newPassphrase != "" then Derived(args.newPassphrase, args.freshSalt) else AutoKey(args.freshKey))
  }

  lemma ResolvedKeys(f0: Files, f1: Files, f2: Files, ks: KeyPair, args: Args)
    requires Resolved(f0, f1, f2, ks, args)
    ensures KeysFound(f0, ks, args) && SameKeys(f0, f2, args)
    ensures OnDisk(f2, ks.to) && CurrentKey(f2, args.currentPassphrase) == Some(ks.from)
    ensures Staged(f2, ks.to, SourceOf(ks.to), args.newPassphrase) && (ks.to.Derived? ==> args.newPassphrase != "")
    ensures OldFile(f2, SourceOf(ks.from)) && StagedFile(f2, SourceOf(ks.to))
  {
  }

  /** Resolving the keys changes nothing about what a promotion keeps. */
  lemma KeptBeforeResolving(f0: Files, f1: Files, f2: Files, ks: KeyPair, args: Args, at: nat, k: Key)
    requires Resolved(f0, f1, f2, ks, args)
    ensures Kept(f0, ks, at, k) <==> Survives(f2, SourceOf(ks.from), SourceOf(ks.to), at, k)
  {
  }

  predicate LogKnown(audit: LogFile)
    reads audit
  {
    audit.configured && (!audit.present ==> audit.lines == [])
  }

  /** The arguments under which a run goes on to change data. */
  predicate Ready(args: Args) {
    !(args.newPassphrase != "" && args.generateNewKey) && args.encryptionEnabled && !args.dryRun && args.confirmed
  }

  /** Both encryptors: the current key, then the new one. */
  method ResolveKeys(dir: KeyDir, args: Args, faults: FaultPlan) returns (found: Result<KeyPair, Exit>, ghost f1: Files)
    requires |args.freshSalt| == SALT_LENGTH
    modifies dir, faults
    ensures MoreOnDisk(old(dir.files), dir.files) && SameKeys(old(dir.files), dir.files, args)
    ensures found.Failure? ==> found.error == NoCurrentKey || found.error == NoNewKey
    ensures found.Failure? && faults.reliable ==> (found.error == NoCurrentKey <==> !CurrentUsable(old(dir.files), args.currentPassphrase))
    ensures found.Success? && !args.dryRun ==> Resolved(old(dir.files), f1, dir.files, found.value, args)
    ensures faults.reliable ==>
              (found.Success? <==> CurrentUsable(old(dir.files), args.currentPassphrase) && StagingUsable(old(dir.files), args.newPassphrase))
  {
    hide Resolved, CurrentUsable, StagingUsable, Staged, CurrentKey, SameKeys;
    ghost var f0 := dir.files;
    var from := dir.ResolveEncryptor(args.currentPassphrase, args.freshKey, args.freshSalt, faults);
    f1 := dir.files;
    CurrentMadeStaging(f0, f1, args);
    if from.Failure? {
      return Failure(NoCurrentKey), f1;
    }
    var staged := dir.ResolveNewEncryptor(args.newPassphrase, args.dryRun, args.freshKey, args.freshSalt, faults);
    StagingKeeps(f0, f1, dir.files, args);
    if staged.Failure? {
      return Failure(NoNewKey), f1;
    }
    if !args.dryRun {
      BothResolved(f0, f1, dir.files, KeyPair(from.value, staged.value.0), args, SourceBase(staged.value.1));
    }
    return Success(KeyPair(from.value, staged.value.0)), f1;
  }

  lemma CurrentMadeStaging(f0: Files, f1: Files, args: Args)
    requires CurrentMade(f0, f1, args)
    ensures SameKeys(f0, f1, args) && MoreOnDisk(f0, f1)
    ensures StagingUsable(f0, args.newPassphrase) <==> StagingUsable(f1, args.newPassphrase)
  {
  }

  /** `keys` is None for a run that ended before it knew them. `at` counts the steps of the
      promotion that took effect. */
  method RunRotateKey(dir: KeyDir, db: Database, audit: LogFile, args: Args, faults: FaultPlan)
    returns (exit: Exit, ghost keys: Option<KeyPair>, ghost at: nat)
    requires |args.freshSalt| == SALT_LENGTH && LogKnown(audit)
    requires Safe(dir.files, db.rows, Texts(audit.lines))
    modifies dir, db`rows, audit`lines, audit`temp, faults
    ensures LogKnown(audit) && OrderedTable(db.rows)
    ensures SameMessages(old(db.rows), db.rows) && SameLog(Texts(old(audit.lines)), Texts(audit.lines))
    ensures !RotationSucceeded(exit) ==> Safe(dir.files, db.rows, Texts(audit.lines))
    ensures RotationSucceeded(exit) ==> keys.Some?
    ensures RotationSucceeded(exit) ==>
              (Safe(dir.files, db.rows, Texts(audit.lines)) <==> NoneLost(old(db.rows), old(dir.files), keys.value, at))
    ensures (exit.Completed? ==> at >= 2) && (exit == PromotionFailed ==> at < 2)
    ensures exit == UsageError <==> args.newPassphrase != "" && args.generateNewKey
    ensures exit == EncryptionOff <==> !(args.newPassphrase != "" && args.generateNewKey) && !args.encryptionEnabled
    ensures exit == UsageError || exit == EncryptionOff ==> dir.files == old(dir.files) && keys.None?
    ensures exit == NoCurrentKey && faults.reliable ==> !CurrentUsable(old(dir.files), args.currentPassphrase)
    ensures exit == NoNewKey && faults.reliable ==>
              CurrentUsable(old(dir.files), args.currentPassphrase) && !StagingUsable(old(dir.files), args.newPassphrase)
    ensures exit == NoStats && faults.reliable ==> !db.present
    ensures (exit == DryRun ==> args.dryRun) && (exit == Aborted ==> !args.dryRun && !args.confirmed)
    ensures exit == RotationFailed(IdenticalKeys) <==> keys.Some? && keys.value.from == keys.value.to
    ensures exit.Completed? && faults.reliable && keys.value.from.AutoKey? && exit.key.Derived? ==> CurrentKey(dir.files, "") == None
    ensures exit.Completed? && faults.reliable && keys.value.from.Derived? && exit.key.AutoKey? ==>
              CurrentKey(dir.files, args.currentPassphrase) == None
    ensures args.dryRun || !args.confirmed ==> db.rows == old(db.rows) && audit.lines == old(audit.lines)
    ensures keys.None? ==> db.rows == old(db.rows)
    ensures keys.Some? ==> KeysFound(old(dir.files), keys.value, args) && Ran(old(db.rows), db.rows, keys.value)
    ensures keys.Some? && !RotationSucceeded(exit) ==> Staged(dir.files, keys.value.to, SourceOf(keys.value.to), args.newPassphrase)
    ensures exit.Completed? ==> exit.key == keys.value.to && Complete(old(db.rows), db.rows, keys.value)
    ensures exit.Completed? ==>
              OnDisk(dir.files, exit.key) && dir.files.keyNew == None && dir.files.saltNew == None &&
              (exit.key.AutoKey? || |exit.key.salt| == SALT_LENGTH ==>
                 CurrentKey(dir.files, if exit.key.AutoKey? then "" else args.newPassphrase) == Some(exit.key))
    ensures RotationSucceeded(exit) ==> RewriteLog(Texts(old(audit.lines)), keys.value).Success?
    ensures !RotationSucceeded(exit) ==> audit.lines == old(audit.lines) && SameKeys(old(dir.files), dir.files, args)
    ensures faults.reliable && Ready(args) && db.present && CurrentUsable(old(dir.files), args.currentPassphrase)
            && StagingUsable(old(dir.files), args.newPassphrase) ==>
              keys.Some? &&
              (exit.Completed? <==> keys.value.from != keys.value.to && VisitsRotatable(old(db.rows), keys.value) &&
                                    RewriteLog(Texts(old(audit.lines)), keys.value).Success?)
  {
    hide Safe, SameMessages, SameLog, OnDisk, Texts, CurrentKey, RewriteLog, NoneLost, Complete, Ran, Resolved, KeysFound, SameKeys,
         VisitsRotatable, OrderedTable, Kept, Survives, Staged;
    keys, at := None, 0;
    SafeReflexive(dir.files, db.rows, Texts(audit.lines));
    SafeIsOrdered(dir.files, db.rows, Texts(audit.lines));
    ghost var f0 := dir.files;
    NothingMade(f0, args);
    if args.newPassphrase != "" && args.generateNewKey {
      return UsageError, keys, at;
    }
    if !args.encryptionEnabled {
      return EncryptionOff, keys, at;
    }
    var found;
    ghost var f1;
    found, f1 := ResolveKeys(dir, args, faults);
    MoreStaysSafe(f0, dir.files, db.rows, Texts(audit.lines));
    if found.Failure? {
      return found.error, keys, at;
    }
    var from, to := found.value.from, found.value.to;
    var ok := faults.Proceed();   // read the statistics
    if !ok || !db.present {
      return NoStats, keys, at;
    }
    if args.dryRun {
      return DryRun, keys, at;
    }
    if !args.confirmed {
      return Aborted, keys, at;
    }
    ghost var f2, ks := dir.files, KeyPair(from, to);
    keys := Some(ks);
    ResolvedKeys(f0, f1, f2, ks, args);
    exit, at := RotateAndPromote(dir, db, audit, from, to, SourceOf(from), SourceOf(to), args, faults);
    NoneLostBeforeResolving(f0, f1, f2, ks, args, at);
  }

  /** The part that changes data: RotateKeys, and on success the promotion and the clean-up. */
  method RotateAndPromote(dir: KeyDir, db: Database, audit: LogFile, from: Key, to: Key, oldSource: string, newSource: string,
                          args: Args, faults: FaultPlan)
    returns (exit: Exit, ghost at: nat)
    requires oldSource == SourceOf(from) && newSource == SourceOf(to) && LogKnown(audit)
    requires newSource == PASS ==> args.newPassphrase != ""
    requires args.currentPassphrase == "" <==> oldSource == AUTO
    requires CurrentKey(dir.files, args.currentPassphrase) == Some(from)
    requires Staged(dir.files, to, newSource, args.newPassphrase) && OnDisk(dir.files, to)
    requires OldFile(dir.files, oldSource) && StagedFile(dir.files, newSource)
    requires Safe(dir.files, db.rows, Texts(audit.lines))
    modifies dir, db`rows, audit`lines, audit`temp, faults
    ensures LogKnown(audit) && OrderedTable(db.rows) && Ran(old(db.rows), db.rows, KeyPair(from, to))
    ensures SameMessages(old(db.rows), db.rows) && SameLog(Texts(old(audit.lines)), Texts(audit.lines))
    ensures !RotationSucceeded(exit) ==>
              Safe(dir.files, db.rows, Texts(audit.lines)) && audit.lines == old(audit.lines) && dir.files == old(dir.files)
    ensures RotationSucceeded(exit) ==>
              (Safe(dir.files, db.rows, Texts(audit.lines)) <==> PassedOverSurvive(old(db.rows), old(dir.files), KeyPair(from, to), at))
    ensures (exit.Completed? ==> at >= 2) && (exit == PromotionFailed ==> at < 2)
    ensures exit == RotationFailed(IdenticalKeys) <==> from == to
    ensures exit.Completed? && faults.reliable && from.AutoKey? && to.Derived? ==> CurrentKey(dir.files, "") == None
    ensures exit.Completed? && faults.reliable && from.Derived? && to.AutoKey? ==> CurrentKey(dir.files, args.currentPassphrase) == None
    ensures exit.Completed? ==>
              && exit.key == to && OnDisk(dir.files, to) && Complete(old(db.rows), db.rows, KeyPair(from, to))
              && dir.files.keyNew == None && dir.files.saltNew == None
              && (to.AutoKey? || |to.salt| == SALT_LENGTH ==>
                    CurrentKey(dir.files, if to.AutoKey? then "" else args.newPassphrase) == Some(to))
    ensures RotationSucceeded(exit) ==> RewriteLog(Texts(old(audit.lines)), KeyPair(from, to)).Success?
    ensures exit.Completed? || exit == PromotionFailed || exit.RotationFailed?
    ensures faults.reliable && db.present ==>
              (exit.Completed? <==> from != to && VisitsRotatable(old(db.rows), KeyPair(from, to)) &&
                                    RewriteLog(Texts(old(audit.lines)), KeyPair(from, to)).Success?)
  {
    hide Safe, SameMessages, SameLog, OnDisk, Texts, CurrentKey, Staged, Promotion, RewriteLog, Ran, Complete, UniqueIds,
         PassedOverSurvive, OrderedTable, VisitsRotatable, OldFile, StagedFile, Survives;
    at := 0;
    ghost var f, rows, lines, ks := dir.files, db.rows, Texts(audit.lines), KeyPair(from, to);
    SafeReflexive(f, rows, lines);
    SafeHasUniqueIds(f, rows, lines);
    SafeIsOrdered(f, rows, lines);
    NothingRan(rows, ks);
    NoTexts();
    NothingToRewrite(ks);
    var rotated := RotateKeys(Some(from), Some(to), db, audit, faults);
    if from != to {
      AfterRotation(f, rows, db.rows, lines, ks);
    }
    if rotated.Failure? {
      return RotationFailed(rotated.error), at;
    }
    TextsOfWritten(lines, audit.lines, ks);
    AfterSuccess(f, rows, db.rows, lines, Texts(audit.lines), ks);
    var promoted;
    promoted, at := dir.PromoteKeyFiles(oldSource, newSource, faults);
    PromotionKeepsNewKey(f, to, oldSource, newSource, args.newPassphrase, at);
    PromotionKeepsOldKey(f, from, oldSource, newSource, args.currentPassphrase, at);
    SafeIffPassedOverSurvive(f, at, rows, db.rows, Texts(audit.lines), ks);
    if promoted.Failure? {
      return PromotionFailed, at;
    }
    ghost var g := dir.files;
    dir.CleanupStagingFiles(faults);
    CleanedUp(g, dir.files, to, newSource, args.newPassphrase);
    OldKindGone(dir.files, args.currentPassphrase);
    StagedIsOnDisk(f, to, newSource, args.newPassphrase);
    return Completed(to), at;
  }

  // ----- The steps of the argument -----

  lemma {:induction false} SafeReflexive(f: Files, rows: seq<Row>, lines: seq<Line>)
    requires Safe(f, rows, lines)
    ensures SameMessages(rows, rows) && SameLog(lines, lines)
  {
    SameMessagesReflexive(f, rows);
    SameLogReflexive(f, lines);
  }

  lemma NothingMade(f: Files, args: Args)
    ensures SameKeys(f, f, args)
  {
  }

  lemma StagingKeeps(f0: Files, f1: Files, f2: Files, args: Args)
    requires CurrentMade(f0, f1, args) && SameButStaging(f2, f1) && (f1.keyNew.Some? || f1.saltNew.Some? ==> f2 == f1)
    ensures SameKeys(f0, f2, args) && MoreOnDisk(f0, f2)
  {
  }

  lemma BothResolved(f0: Files, f1: Files, f2: Files, ks: KeyPair, args: Args, newSource: string)
    requires CurrentMade(f0, f1, args) && SameButStaging(f2, f1) && CurrentKey(f1, args.currentPassphrase) == Some(ks.from)
    requires Staged(f2, ks.to, newSource, args.newPassphrase) && (newSource == PASS ==> args.newPassphrase != "")
    requires if f1.keyNew.Some? || f1.saltNew.Some? then f2 == f1
             else ks.to == if args.newPassphrase != "" then Derived(args.newPassphrase, args.freshSalt) else AutoKey(args.freshKey)
    ensures Resolved(f0, f1, f2, ks, args) && newSource == SourceOf(ks.to)
    ensures SourceOf(ks.from) == if args.currentPassphrase != "" then PASS else AUTO
  {
  }

  lemma SafeHasUniqueIds(f: Files, rows: seq<Row>, lines: seq<Line>)
    requires Safe(f, rows, lines)
    ensures UniqueIds(rows)
  {
  }

  lemma {:induction false} MoreStaysSafe(f: Files, g: Files, rows: seq<Row>, lines: seq<Line>)
    requires Safe(f, rows, lines) && MoreOnDisk(f, g)
    ensures Safe(g, rows, lines)
  {
    hide MoreOnDisk, OrderedTable;
    MoreStaysReadable(f, g, rows, lines);
  }

  lemma StagedIsOnDisk(f: Files, k: Key, base: string, passphrase: string)
    requires Staged(f, k, base, passphrase)
    ensures OnDisk(f, k) && (base == AUTO <==> k.AutoKey?)
  {
  }

  lemma {:induction false} AfterRotation(f: Files, rows: seq<Row>, rows': seq<Row>, lines: seq<Line>, ks: KeyPair)
    requires ks.from != ks.to && Ran(rows, rows', ks) && Safe(f, rows, lines) && OnDisk(f, ks.to)
    ensures Safe(f, rows', lines) && SameMessages(rows, rows') && OrderedTable(rows')
  {
    hide Ran, RowsReadable, LinesReadable, OnDisk, SameMessages, OrderedTable;
    RanStaysReadable(f, rows, rows', ks);
    RanStaysOrdered(rows, rows', ks);
  }

  lemma NothingToRewrite(ks: KeyPair)
    ensures RewriteLog([], ks).Success?
  {
  }

  lemma NoTexts()
    ensures Texts([]) == []
  {
  }

  lemma {:induction false} TextsOfWritten(lines: seq<Line>, written: seq<FileLine>, ks: KeyPair)
    ensures RewriteLog(lines, ks).Success? && written == Written(RewriteLog(lines, ks).value) ==>
              Texts(written) == RewriteLog(lines, ks).value
  {
    hide RewriteLog;
    if RewriteLog(lines, ks).Success? {
      WrittenTexts(RewriteLog(lines, ks).value);
    }
  }

  /** Every row is under the new key, or one the paging passed over; every line of the log is under
      the new key. */
  predicate UnderTheKeys(rows: seq<Row>, rows': seq<Row>, lines: seq<Line>, ks: KeyPair) {
    && Complete(rows, rows', ks) && (forall i :: 0 <= i < |rows| ==> Opens(rows[i]))
    && forall i :: 0 <= i < |lines| && IsEncrypted(lines[i]) ==> DecryptAuditLine(lines[i], ks.to).Success?
  }

  lemma {:induction false} AfterSuccess(f: Files, rows: seq<Row>, rows': seq<Row>, lines: seq<Line>, lines': seq<Line>, ks: KeyPair)
    requires ks.from != ks.to && Safe(f, rows, lines) && Complete(rows, rows', ks) && OnDisk(f, ks.to)
    requires lines' == (if RewriteLog(lines, ks).Success? then RewriteLog(lines, ks).value else lines) || lines == lines' == []
    requires RewriteLog(lines, ks).Success?
    ensures UnderTheKeys(rows, rows', lines', ks) && SameLog(lines, lines')
  {
    hide OnDisk, Complete, OrderedTable;
    forall i | 0 <= i < |rows| ensures Opens(rows[i]) {
      assert RowReadable(f, rows[i]);
    }
    if lines == [] {
      assert RewriteLog(lines, ks) == Success([]);
    }
    RewrittenIsReadable(f, lines, ks);
    RewriteKeepsLines(lines, ks);
  }

  /** The passed-over rows keep their keys through the promotion of the files f. */
  predicate PassedOverSurvive(rows: seq<Row>, f: Files, ks: KeyPair, at: nat) {
    forall i :: 0 <= i < |rows| && rows[i].encrypted && i !in Visits(rows, Start) ==>
                  rows[i].content.Sealed? && Survives(f, SourceOf(ks.from), SourceOf(ks.to), at, rows[i].content.key)
  }

  /** After a rotation that succeeded everything is readable, if and only if they do. */
  lemma {:induction false} SafeIffPassedOverSurvive(f: Files, at: nat, rows: seq<Row>, rows': seq<Row>, lines: seq<Line>, ks: KeyPair)
    requires at < |Promotion(f, SourceOf(ks.from), SourceOf(ks.to))| && UnderTheKeys(rows, rows', lines, ks) && OrderedTable(rows')
    requires OnDisk(Promotion(f, SourceOf(ks.from), SourceOf(ks.to))[at], ks.to)
    ensures Safe(Promotion(f, SourceOf(ks.from), SourceOf(ks.to))[at], rows', lines) <==> PassedOverSurvive(rows, f, ks, at)
  {
    hide OnDisk, OrderedTable, Visits, Opens, Promotion, Survives;
    var g := Promotion(f, SourceOf(ks.from), SourceOf(ks.to))[at];
    forall i | 0 <= i < |rows|
      ensures RowReadable(g, rows'[i]) <==>
                (rows[i].encrypted && i !in Visits(rows, Start) ==>
                   rows[i].content.Sealed? && Survives(f, SourceOf(ks.from), SourceOf(ks.to), at, rows[i].content.key))
    {
      assert RowComplete(rows, i, rows'[i], ks) && Opens(rows[i]);
      RowReadableIff(g, rows, i, rows'[i], ks);
      if rows[i].encrypted && rows[i].content.Sealed? {
        SurvivesIff(f, SourceOf(ks.from), SourceOf(ks.to), at, rows[i].content.key);
      }
    }
    forall i | 0 <= i < |lines| ensures LineReadable(g, lines[i]) {
    }
  }

  lemma {:induction false} RowReadableIff(g: Files, rows: seq<Row>, i: nat, r: Row, ks: KeyPair)
    requires i < |rows| && RowComplete(rows, i, r, ks) && Opens(rows[i]) && OnDisk(g, ks.to)
    ensures RowReadable(g, r) <==>
              (rows[i].encrypted && i !in Visits(rows, Start) ==> rows[i].content.Sealed? && OnDisk(g, rows[i].content.key))
  {
    hide OnDisk, Visits;
  }

  lemma {:induction false} NoneLostBeforeResolving(f0: Files, f1: Files, f2: Files, ks: KeyPair, args: Args, at: nat)
    requires Resolved(f0, f1, f2, ks, args)
    ensures forall rows :: NoneLost(rows, f0, ks, at) <==> PassedOverSurvive(rows, f2, ks, at)
  {
    hide Resolved, Kept, Survives, Visits;
    forall k ensures Kept(f0, ks, at, k) <==> Survives(f2, SourceOf(ks.from), SourceOf(ks.to), at, k) {
      KeptBeforeResolving(f0, f1, f2, ks, args, at, k);
    }
  }

  lemma CleanedUp(g: Files, h: Files, k: Key, newSource: string, passphrase: string)
    requires IsBase(newSource) && g.keyNew == None && g.saltNew == None && OnDisk(g.(keyNew := None, saltNew := None), k)
    requires SameButStaging(h, g) && (h.keyNew == g.keyNew || h.keyNew == None) && (h.saltNew == g.saltNew || h.saltNew == None)
    ensures h == g && OnDisk(h, k)
  {
  }

  lemma OldKindGone(f: Files, passphrase: string)
    ensures f.key == None ==> CurrentKey(f, "") == None
    ensures f.salt == None && passphrase != "" ==> CurrentKey(f, passphrase) == None
  {
  }

  lemma SafeIsOrdered(f: Files, rows: seq<Row>, lines: seq<Line>)
    requires Safe(f, rows, lines)
    ensures OrderedTable(rows)
  {
  }

  /** Any number of runs, each with its own arguments and its own failures and crashes, on a table
      that stays covered: every message and every log line stays readable, and says what
      it said at the start. */
  method RunAnyNumberOfTimes(dir: KeyDir, db: Database, audit: LogFile, runs: seq<Args>, plans: seq<FaultPlan>)
    requires |runs| == |plans| && forall k :: 0 <= k < |runs| ==> |runs[k].freshSalt| == SALT_LENGTH
    requires LogKnown(audit) && Safe(dir.files, db.rows, Texts(audit.lines)) && StaysCovered(db.rows)
    modifies dir, db`rows, audit`lines, audit`temp, plans
    ensures LogKnown(audit) && Safe(dir.files, db.rows, Texts(audit.lines)) && StaysCovered(db.rows)
    ensures SameMessages(old(db.rows), db.rows) && SameLog(Texts(old(audit.lines)), Texts(audit.lines))
  {
    hide Safe, SameMessages, SameLog, Texts, StaysCovered, OrderedTable, NoneLost, Complete, Ran, KeysFound, Staged;
    ghost var rows, lines := db.rows, Texts(audit.lines);
    SafeReflexive(dir.files, rows, lines);
    for k := 0 to |runs|
      invariant LogKnown(audit) && Safe(dir.files, db.rows, Texts(audit.lines)) && StaysCovered(db.rows)
      invariant SameMessages(rows, db.rows) && SameLog(lines, Texts(audit.lines))
    {
      ghost var f, rows', lines' := dir.files, db.rows, Texts(audit.lines);
      var exit;
      ghost var keys, at;
      exit, keys, at := RunRotateKey(dir, db, audit, runs[k], plans[k]);
      if keys.Some? {
        NothingPassedOverNoneLost(rows', f, keys.value, at);
        RanStaysCovered(rows', db.rows, keys.value);
      }
      SameMessagesTransitive(rows, rows', db.rows);
      SameLogTransitive(lines, lines', Texts(audit.lines));
    }
  }

  // ----- At most one success, arbitrary stamps -----

  /** The material of k outlives one promotion from this source, to whichever kind of key. */
  predicate OutlivesOne(f: Files, source: string, k: Key) {
    Survives(f, source, AUTO, 2, k) && Survives(f, source, PASS, 2, k)
  }

  predicate AllOutliveOne(f: Files, rows: seq<Row>, source: string) {
    forall i :: 0 <= i < |rows| && rows[i].encrypted ==>
                  rows[i].content.Sealed? && OutlivesOne(f, source, rows[i].content.key)
  }

  /** So do all keys of a table that is wholly under the current key. */
  lemma CurrentOutlivesOne(f: Files, rows: seq<Row>, k: Key, passphrase: string)
    requires CurrentKey(f, passphrase) == Some(k)
    requires forall i :: 0 <= i < |rows| && rows[i].encrypted ==> rows[i].content.Sealed? && rows[i].content.key == k
    ensures AllOutliveOne(f, rows, SourceOf(k))
  {
  }

  lemma {:induction false} OutliveMeansNoneLost(f: Files, rows: seq<Row>, ks: KeyPair, at: nat)
    requires AllOutliveOne(f, rows, SourceOf(ks.from))
    ensures NoneLost(rows, f, ks, at)
  {
    hide Visits, Survives;
    forall i | 0 <= i < |rows| && rows[i].encrypted && i !in Visits(rows, Start)
      ensures rows[i].content.Sealed? && Kept(f, ks, at, rows[i].content.key)
    {
      SurvivesEarlier(f, SourceOf(ks.from), SourceOf(ks.to), at, rows[i].content.key);
    }
  }

  lemma SurvivesEarlier(f: Files, oldSource: string, newSource: string, at: nat, k: Key)
    requires Survives(f, oldSource, newSource, 2, k)
    ensures Survives(f, oldSource, newSource, at, k)
  {
  }

  lemma {:induction false} FailedRunKeepsOutliving(f: Files, g: Files, rows: seq<Row>, rows': seq<Row>, ks: KeyPair, args: Args, source: string)
    requires AllOutliveOne(f, rows, source) && SameKeys(f, g, args) && Ran(rows, rows', ks)
    requires Staged(g, ks.to, SourceOf(ks.to), args.newPassphrase)
    ensures AllOutliveOne(g, rows', source)
  {
    forall i | 0 <= i < |rows'| && rows'[i].encrypted
      ensures rows'[i].content.Sealed? && OutlivesOne(g, source, rows'[i].content.key)
    {
      assert Progress(rows[i], rows'[i], ks);
      if rows'[i] == rows[i] {
        assert rows[i].content.Sealed? && OutlivesOne(f, source, rows[i].content.key);
        StillOutlives(f, g, args, source, rows[i].content.key);
      } else {
        SealedUnderNewKey(rows[i], rows'[i], ks);
        StagedOutlives(g, ks.to, args, source);
      }
    }
  }

  lemma StillOutlives(f: Files, g: Files, args: Args, source: string, k: Key)
    requires SameKeys(f, g, args) && OutlivesOne(f, source, k)
    ensures OutlivesOne(g, source, k)
  {
  }

  lemma StagedOutlives(g: Files, k: Key, args: Args, source: string)
    requires Staged(g, k, SourceOf(k), args.newPassphrase)
    ensures OutlivesOne(g, source, k)
  {
  }

  lemma SealedUnderNewKey(r: Row, s: Row, ks: KeyPair)
    requires Progress(r, s, ks) && s != r
    ensures s.content.Sealed? && s.content.key == ks.to
  {
  }

  lemma {:induction false} UntouchedKeepsOutliving(f: Files, g: Files, rows: seq<Row>, args: Args, source: string)
    requires AllOutliveOne(f, rows, source) && SameKeys(f, g, args)
    ensures AllOutliveOne(g, rows, source)
  {
    hide SameKeys, OutlivesOne;
    forall i | 0 <= i < |rows| && rows[i].encrypted ensures rows[i].content.Sealed? && OutlivesOne(g, source, rows[i].content.key) {
      StillOutlives(f, g, args, source, rows[i].content.key);
    }
  }

  /** Any number of runs of which at most one reports success, on any table at all: `first` are run
      until one succeeds, then `more` until another does. Unless another does, everything stays
      readable, if at the start every key could outlive one promotion. */
  method RunsWithOneSuccess(dir: KeyDir, db: Database, audit: LogFile, first: seq<Args>, firstPlans: seq<FaultPlan>,
                            more: seq<Args>, morePlans: seq<FaultPlan>, source: string) returns (another: bool)
    requires |first| == |firstPlans| && |more| == |morePlans| && IsBase(source)
    requires forall k :: 0 <= k < |first| ==> |first[k].freshSalt| == SALT_LENGTH && (first[k].currentPassphrase == "" <==> source == AUTO)
    requires forall k :: 0 <= k < |more| ==> |more[k].freshSalt| == SALT_LENGTH
    requires LogKnown(audit) && Safe(dir.files, db.rows, Texts(audit.lines)) && AllOutliveOne(dir.files, db.rows, source)
    modifies dir, db`rows, audit`lines, audit`temp, firstPlans, morePlans
    ensures !another ==> LogKnown(audit) && Safe(dir.files, db.rows, Texts(audit.lines))
    ensures SameMessages(old(db.rows), db.rows) && SameLog(Texts(old(audit.lines)), Texts(audit.lines))
  {
    hide Safe, SameMessages, SameLog, Texts, OrderedTable, NoneLost, Complete, Ran, Staged, SameKeys, AllOutliveOne;
    ghost var rows, lines := db.rows, Texts(audit.lines);
    SafeReflexive(dir.files, rows, lines);
    var k, succeeded := 0, false;
    while k < |first| && !succeeded
      invariant 0 <= k <= |first| && LogKnown(audit) && Safe(dir.files, db.rows, Texts(audit.lines))
      invariant !succeeded ==> AllOutliveOne(dir.files, db.rows, source)
      invariant SameMessages(rows, db.rows) && SameLog(lines, Texts(audit.lines))
      decreases |first| - k
    {
      ghost var f, rows', lines' := dir.files, db.rows, Texts(audit.lines);
      var exit;
      ghost var keys, at;
      exit, keys, at := RunRotateKey(dir, db, audit, first[k], firstPlans[k]);
      SameMessagesTransitive(rows, rows', db.rows);
      SameLogTransitive(lines, lines', Texts(audit.lines));
      succeeded := exit.Completed? || exit == PromotionFailed;
      if succeeded {
        OutliveMeansNoneLost(f, rows', keys.value, at);
      } else if keys.Some? {
        FailedRunKeepsOutliving(f, dir.files, rows', db.rows, keys.value, first[k], source);
      } else {
        UntouchedKeepsOutliving(f, dir.files, rows', first[k], source);
      }
      k := k + 1;
    }
    for j := 0 to |more|
      invariant LogKnown(audit) && Safe(dir.files, db.rows, Texts(audit.lines))
      invariant SameMessages(rows, db.rows) && SameLog(lines, Texts(audit.lines))
    {
      ghost var rows', lines' := db.rows, Texts(audit.lines);
      var exit;
      ghost var keys, at;
      exit, keys, at := RunRotateKey(dir, db, audit, more[j], morePlans[j]);
      SameMessagesTransitive(rows, rows', db.rows);
      SameLogTransitive(lines, lines', Texts(audit.lines));
      if exit.Completed? || exit == PromotionFailed {
        return true;
      }
    }
    return false;
  }

  // ----- A run that dies between the rotation and the promotion -----

  /** k is the staged key and not the current one. */
  predicate OnlyStaged(f: Files, k: Key) {
    match k
    case AutoKey(b) => f.keyNew == Some(Encoded(b)) && f.saltNew == None && f.key != Some(Encoded(b))
    case Derived(_, s) => f.saltNew == Some(s) && f.keyNew == None && f.salt != Some(s)
  }

  /** A line of the log is under the staged key. */
  predicate Stranded(f: Files, lines: seq<Line>) {
    exists i :: 0 <= i < |lines| && StrandedLine(f, lines[i])
  }

  predicate StrandedLine(f: Files, l: Line) {
    IsEncrypted(l) && l.body.Sealed? && OnlyStaged(f, l.body.key)
  }

  /** What the random source yields is not what is staged. */
  predicate Fresh(f: Files, args: Args) {
    f.keyNew != Some(Encoded(args.freshKey)) && f.saltNew != Some(args.freshSalt)
  }

  lemma {:induction false} StrandedStopsTheRewrite(f: Files, lines: seq<Line>, ks: KeyPair, args: Args)
    requires Stranded(f, lines) && KeysFound(f, ks, args) && Fresh(f, args)
    ensures RewriteLog(lines, ks).Failure?
  {
    RewriteLogAt(lines, ks);
    var i :| 0 <= i < |lines| && StrandedLine(f, lines[i]);
    assert ks.from != lines[i].body.key;
    assert RewriteLine(lines[i], ks).Failure?;
  }

  lemma {:induction false} StaysStranded(f: Files, g: Files, lines: seq<Line>, args: Args)
    requires Stranded(f, lines) && SameKeys(f, g, args) && Fresh(f, args)
    ensures Stranded(g, lines) && g.keyNew == f.keyNew && g.saltNew == f.saltNew
  {
    var i :| 0 <= i < |lines| && StrandedLine(f, lines[i]);
    assert StrandedLine(g, lines[i]);
  }

  /** From there no number of further runs, with whatever arguments, gets the rotation to succeed. */
  method StrandedForGood(dir: KeyDir, db: Database, audit: LogFile, runs: seq<Args>, plans: seq<FaultPlan>)
    returns (exits: seq<Exit>)
    requires |runs| == |plans|
    requires forall k :: 0 <= k < |runs| ==> |runs[k].freshSalt| == SALT_LENGTH && Fresh(dir.files, runs[k])
    requires LogKnown(audit) && Safe(dir.files, db.rows, Texts(audit.lines)) && Stranded(dir.files, Texts(audit.lines))
    modifies dir, db`rows, audit`lines, audit`temp, plans
    ensures |exits| == |runs| && forall k :: 0 <= k < |exits| ==> !RotationSucceeded(exits[k])
    ensures Stranded(dir.files, Texts(audit.lines))
  {
    hide Safe, SameMessages, SameLog, Texts, Stranded, RewriteLog, NoneLost, Complete, OrderedTable, Ran, SameKeys, KeysFound, Staged;
    exits := [];
    ghost var f0 := dir.files;
    for k := 0 to |runs|
      invariant LogKnown(audit) && Safe(dir.files, db.rows, Texts(audit.lines)) && Stranded(dir.files, Texts(audit.lines))
      invariant dir.files.keyNew == f0.keyNew && dir.files.saltNew == f0.saltNew
      invariant |exits| == k && forall j :: 0 <= j < k ==> !RotationSucceeded(exits[j])
    {
      ghost var f, lines := dir.files, Texts(audit.lines);
      assert Fresh(f0, runs[k]);
      var exit;
      ghost var keys, at;
      exit, keys, at := RunRotateKey(dir, db, audit, runs[k], plans[k]);
      if keys.Some? {
        StrandedStopsTheRewrite(f, lines, keys.value, runs[k]);
      }
      StaysStranded(f, dir.files, lines, runs[k]);
      exits := exits + [exit];
    }
  }

  /** All the data are under one key. */
  predicate AllUnder(rows: seq<Row>, lines: seq<Line>, k: Key) {
    && (forall i :: 0 <= i < |rows| && rows[i].encrypted ==> ReadRow(rows[i], Some(k)).Success?)
    && (forall i :: 0 <= i < |lines| && IsEncrypted(lines[i]) ==>
          DecryptAuditLine(lines[i], k).Success? && OnlyCarriageReturns(lines[i].trail))
  }

  lemma {:induction false} AllUnderSucceeds(rows: seq<Row>, lines: seq<Line>, ks: KeyPair)
    requires AllUnder(rows, lines, ks.from) && ks.from != ks.to
    ensures VisitsRotatable(rows, ks) && RewriteLog(lines, ks).Success?
  {
    forall i | 0 <= i < |rows| && rows[i].encrypted ensures RotateRow(rows[i], ks).Success? {
      SkippedIffNewKeyReads(rows[i], ks);
    }
    RotatableVisits(rows, ks);
    RewriteLogAt(lines, ks);
  }

  /** The steps of a run up to the success of RotateKeys; then the process dies. On any data that
      are under the current key, an encrypted line in the log among them, this strands the
      installation. */
  method DieBeforePromotion(dir: KeyDir, db: Database, audit: LogFile, args: Args)
    requires |args.freshSalt| == SALT_LENGTH && LogKnown(audit) && audit.present && db.present && Ready(args)
    requires Safe(dir.files, db.rows, Texts(audit.lines)) && CountEncrypted(Texts(audit.lines)) > 0
    requires StagingUsable(dir.files, args.newPassphrase)
    requires CurrentKey(dir.files, args.currentPassphrase).Some?
    requires AllUnder(db.rows, Texts(audit.lines), CurrentKey(dir.files, args.currentPassphrase).value)
    requires FreshStart(dir.files, args)
    modifies dir, db`rows, audit`lines, audit`temp
    ensures Stranded(dir.files, Texts(audit.lines)) && Safe(dir.files, db.rows, Texts(audit.lines)) && LogKnown(audit)
  {
    hide Safe, OrderedTable, Texts, Ran, Complete, Resolved, AllUnder, RewriteLog, VisitsRotatable, CurrentKey, MoreOnDisk, SameMessages,
         UniqueIds, StagingUsable, CurrentUsable, FreshStart, OnDisk;
    ghost var f0, rows, lines := dir.files, db.rows, Texts(audit.lines);
    SafeHasUniqueIds(f0, rows, lines);
    CurrentIsUsable(f0, args.currentPassphrase);
    var faults := new FaultPlan([], true);
    var found, f1 := ResolveKeys(dir, args, faults);
    ghost var f2 := dir.files;
    var ks := found.value;
    ResolvedKeys(f0, f1, f2, ks, args);
    ResolvedFresh(f0, f1, f2, ks, args);
    MoreStaysSafe(f0, f2, rows, lines);
    AllUnderSucceeds(rows, lines, ks);
    var rotated := RotateKeys(Some(ks.from), Some(ks.to), db, audit, faults);
    AfterRotation(f2, rows, db.rows, lines, ks);
    TextsOfWritten(lines, audit.lines, ks);
    RewrittenIsStranded(f2, db.rows, lines, ks);
  }

  /** The random source gives something new, or the staged key is one that is not current. */
  predicate FreshStart(f: Files, args: Args) {
    && (f.key.Some? ==> f.key != Some(Encoded(args.freshKey)) && f.key != f.keyNew)
    && (f.salt.Some? ==> f.salt != Some(args.freshSalt) && f.salt != f.saltNew)
  }

  lemma CurrentIsUsable(f: Files, passphrase: string)
    requires CurrentKey(f, passphrase).Some?
    ensures CurrentUsable(f, passphrase)
  {
  }

  lemma ResolvedFresh(f0: Files, f1: Files, f2: Files, ks: KeyPair, args: Args)
    requires Resolved(f0, f1, f2, ks, args) && FreshStart(f0, args) && CurrentKey(f0, args.currentPassphrase).Some?
    ensures ks.from != ks.to && OnlyStaged(f2, ks.to) && CurrentKey(f0, args.currentPassphrase) == Some(ks.from)
  {
  }

  lemma {:induction false} RewrittenIsStranded(f: Files, rows: seq<Row>, lines: seq<Line>, ks: KeyPair)
    requires RewriteLog(lines, ks).Success? && CountEncrypted(lines) > 0 && OnlyStaged(f, ks.to) && OnDisk(f, ks.to)
    requires Safe(f, rows, lines)
    ensures Stranded(f, RewriteLog(lines, ks).value) && Safe(f, rows, RewriteLog(lines, ks).value)
  {
    hide OrderedTable, OnDisk, RowsReadable;
    RewriteLogAt(lines, ks);
    NoneEncryptedIff(lines);
    var i :| 0 <= i < |lines| && IsEncrypted(lines[i]);
    assert RewriteLine(lines[i], ks) == Success(RewriteLog(lines, ks).value[i]);
    assert StrandedLine(f, RewriteLog(lines, ks).value[i]);
    RewrittenIsReadable(f, lines, ks);
  }

  // ----- Why the table must be covered -----

  lemma {:induction false} VisitsIgnoreContent(a: seq<Row>, b: seq<Row>, c: Cursor)
    requires |a| == |b|
    requires forall i :: 0 <= i < |a| ==> a[i].encrypted == b[i].encrypted && a[i].id == b[i].id && a[i].createdAt == b[i].createdAt
    ensures Visits(a, c) == Visits(b, c)
    decreases |Select(a, Encrypted(c))|
  {
    hide Select;
    SelectIgnoresContent(a, b, Encrypted(c));
    SelectFinds(a, Encrypted(c));
    SelectFinds(b, Encrypted(c));
    var page := Page(a, c);
    if |page| > 0 {
      var last := page[|page|-1];
      FewerBeyond(a, c, last);
      VisitsUnfold(a, c, last);
      VisitsUnfold(b, c, last);
      VisitsIgnoreContent(a, b, CursorAt(a[last]));
    }
  }

  /** The installation with that table: one auto-key, everything under it. */
  function OneKeyFile(k: nat): Files {
    Files(Some(Encoded(k)), None, None, None, None, None)
  }

  lemma {:induction false} UnderOneKey(k: nat, rows: seq<Row>)
    requires Safe(OneKeyFile(k), rows, [])
    ensures AllUnder(rows, [], AutoKey(k))
    ensures forall i :: 0 <= i < |rows| && rows[i].encrypted ==> rows[i].content.Sealed? && rows[i].content.key == AutoKey(k)
  {
    hide OrderedTable;
    forall i | 0 <= i < |rows| && rows[i].encrypted
      ensures rows[i].content.Sealed? && rows[i].content.key == AutoKey(k) && ReadRow(rows[i], Some(AutoKey(k))).Success?
    {
      assert RowReadable(OneKeyFile(k), rows[i]);
    }
  }

  /** The first rotation finds everything under the old key, and so loses nothing. */
  lemma {:induction false} BeforeTheFirst(k0: nat, k1: nat, rows: seq<Row>)
    requires k0 != k1 && Safe(OneKeyFile(k0), rows, [])
    ensures var ks := KeyPair(AutoKey(k0), AutoKey(k1)); VisitsRotatable(rows, ks) && forall f, at :: NoneLost(rows, f, ks, at)
  {
    hide Visits, OrderedTable;
    UnderOneKey(k0, rows);
    AllUnderSucceeds(rows, [], KeyPair(AutoKey(k0), AutoKey(k1)));
  }

  /** The second one can rotate what it visits, and loses exactly what it passes over. */
  lemma {:induction false} BeforeTheSecond(k0: nat, k1: nat, k2: nat, start: seq<Row>, once: seq<Row>, f: Files, at: nat)
    requires k0 != k1 && k0 != k2 && k1 != k2 && at >= 2 && Safe(OneKeyFile(k0), start, []) && AllEncrypted(start)
    requires Complete(start, once, KeyPair(AutoKey(k0), AutoKey(k1)))
    requires Ran(start, once, KeyPair(AutoKey(k0), AutoKey(k1)))
    requires f.key == Some(Encoded(k1)) && f.keyNew == None
    ensures VisitsRotatable(once, KeyPair(AutoKey(k1), AutoKey(k2)))
    ensures NoneLost(once, f, KeyPair(AutoKey(k1), AutoKey(k2)), at) <==> NonePassedOver(start)
  {
    var ks, ks' := KeyPair(AutoKey(k0), AutoKey(k1)), KeyPair(AutoKey(k1), AutoKey(k2));
    SameVisits(start, once, ks);
    UnderOneKey(k0, start);
    hide Visits, Safe, Ran;
    forall p | p in Visits(once, Start) && p < |once| ensures RotateRow(once[p], ks').Success? {
      assert RowComplete(start, p, once[p], ks);
      SkippedIffNewKeyReads(once[p], ks');
    }
    forall p | 0 <= p < |start| && p !in Visits(start, Start) ensures once[p].content.key == AutoKey(k0) {
      assert RowComplete(start, p, once[p], ks);
    }
    FirstKeyLost(f, k0, k1, k2, at);
  }

  lemma {:induction false} SameVisits(start: seq<Row>, once: seq<Row>, ks: KeyPair)
    requires Ran(start, once, ks) && AllEncrypted(start)
    ensures |start| == |once| && AllEncrypted(once) && Visits(once, Start) == Visits(start, Start)
  {
    RanKeepsStamps(start, once, ks);
    forall i | 0 <= i < |start| ensures once[i].encrypted {
      assert Progress(start[i], once[i], ks);
      ResealedKeepsKeys(start[i], ks);
    }
    VisitsIgnoreContent(start, once, Start);
  }

  lemma FirstKeyLost(f: Files, k0: nat, k1: nat, k2: nat, at: nat)
    requires k0 != k1 && k0 != k2 && at >= 2 && f.key == Some(Encoded(k1)) && f.keyNew == None
    ensures !Kept(f, KeyPair(AutoKey(k1), AutoKey(k2)), at, AutoKey(k0))
  {
  }

  /** Two runs in a row on any table that is encrypted under one auto-key: both complete, and then
      everything is readable if and only if the paging passes over no row. */
  method TwoRotationsSafeIff(k0: nat, k1: nat, k2: nat, rows: seq<Row>, salt: string) returns (exits: seq<Exit>, dir: KeyDir, db: Database)
    requires k0 != k1 && k0 != k2 && k1 != k2 && |salt| == SALT_LENGTH
    requires Safe(OneKeyFile(k0), rows, []) && AllEncrypted(rows)
    ensures exits == [Completed(AutoKey(k1)), Completed(AutoKey(k2))] && SameMessages(rows, db.rows)
    ensures RowsReadable(dir.files, db.rows) <==> NonePassedOver(rows)
  {
    hide RewriteLog, NoneLost, Complete, OrderedTable, Ran, SameMessages, NonePassedOver, VisitsRotatable, RowsReadable, OnDisk,
         Staged, StagingUsable, CurrentUsable, AllEncrypted;
    dir := new KeyDir(OneKeyFile(k0));
    db := new Database(rows);
    var audit := new LogFile([]);
    var args := Args("", true, false, true, true, "", k1, salt);
    NoTexts();
    BeforeTheFirst(k0, k1, rows);
    UsableForAutoKeys(dir.files, k0);
    NothingToRewrite(KeyPair(AutoKey(k0), AutoKey(k1)));
    NothingToRewrite(KeyPair(AutoKey(k1), AutoKey(k2)));
    var faults := new FaultPlan([], true);
    var exit;
    ghost var keys, at;
    exit, keys, at := RunRotateKey(dir, db, audit, args, faults);
    ghost var once, f := db.rows, dir.files;
    BeforeTheSecond(k0, k1, k2, rows, once, f, 2);
    UsableForAutoKeys(dir.files, k1);
    faults := new FaultPlan([], true);
    var exit';
    exit', keys, at := RunRotateKey(dir, db, audit, args.(freshKey := k2), faults);
    BeforeTheSecond(k0, k1, k2, rows, once, f, at);
    SameMessagesTransitive(rows, once, db.rows);
    exits := [exit, exit'];
  }

  /** Such a row there is, in the table whose stamps fall in one second: at the start every message
      can be read with the keys on disk, at the end one cannot. */
  method TwoRotationsLoseTheRow(k0: nat, k1: nat, k2: nat) returns (exits: seq<Exit>, dir: KeyDir, db: Database)
    requires k0 != k1 && k0 != k2 && k1 != k2
    ensures RowsReadable(OneKeyFile(k0), SubSecondTable(AutoKey(k0)))
    ensures exits == [Completed(AutoKey(k1)), Completed(AutoKey(k2))] && !RowsReadable(dir.files, db.rows)
  {
    hide OrderedTable, Visits, SameMessages;
    SubSecondRowPassedOver(AutoKey(k0));
    assert SubSecondTable(AutoKey(k0))[100].encrypted && !NonePassedOver(SubSecondTable(AutoKey(k0)));
    exits, dir, db := TwoRotationsSafeIff(k0, k1, k2, SubSecondTable(AutoKey(k0)), "0123456789abcdef");
  }

  lemma UsableForAutoKeys(f: Files, k: nat)
    requires f.key == Some(Encoded(k)) && f.keyNew == None && f.saltNew == None
    ensures CurrentUsable(f, "") && StagingUsable(f, "")
  {
  }
}
