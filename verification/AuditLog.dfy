/** internal/audit/logger.go (the line format and its reader) and the audit pass of
    internal/storage/rotation.go (the rewrite through a temporary file). */
module AuditLog {
  import opened Wrappers
  import opened Aead
  import opened Faults
  import opened Rotation
  import opened Strings

  const MARK := "enc:v1:"

  predicate AllSpace(s: string) {
    forall i :: 0 <= i < |s| ==> IsSpace(s[i])
  }

  predicate StartsWith(s: string, prefix: string) {
    |prefix| <= |s| && s[..|prefix|] == prefix
  }

  /** A line of the log without its line end. A marked line is white space, the mark, a base64
      body and white space. Any other line does not start with the mark. */
  datatype RawLine = Marked(lead: string, body: Text, trail: string) | Other(text: string)

  type Line = l: RawLine | if l.Marked? then AllSpace(l.lead) && AllSpace(l.trail) else !StartsWith(l.text, MARK)
    witness Other("")

  /** A line as the file holds it: it may end in "\r\n", and the scanner drops that '\r'. */
  datatype FileLine = FileLine(line: Line, carriageReturn: bool)

  function Texts(lines: seq<FileLine>): seq<Line> {
    seq(|lines|, i requires 0 <= i < |lines| => lines[i].line)
  }

  // ----- Writing and reading one line -----

  /** What Log writes for an event. A JSON object starts with '{', so it is never taken for an
      encrypted line. */
  function LogLine(event: string, key: Option<Key>): Line
    requires StartsWith(event, "{")
  {
    assert event[..1][0] == event[0] && MARK[0] == 'e';
    assert !StartsWith(event, MARK) by {
      assert |event| >= 7 ==> event[..7][0] == event[0];
    }
    match key
    case None => Other(event)
    case Some(k) => Marked("", Seal(k, "", Plain(event)), "")
  }

  datatype ReadError = MissingMark | NotBase64 | CannotOpen

  /** DecryptAuditLine, up to the JSON decoding. It trims the line first. */
  function DecryptAuditLine(l: Line, key: Key): Result<Text, ReadError> {
    if l.Other? then Failure(MissingMark)
    else if !Decodes(l.body) then Failure(NotBase64)
    else match Open(key, "", l.body)
      case None => Failure(CannotOpen)
      case Some(plain) => Success(plain)
  }

  /** What Log wrote is read back with the key it was written under, and with no other; without one
      the line is the event itself. */
  lemma {:induction false} LoggedEventReads(event: string, key: Option<Key>, reader: Key)
    requires StartsWith(event, "{")
    ensures key == None ==> LogLine(event, key) == Other(event)
    ensures DecryptAuditLine(LogLine(event, key), reader)
         == if key == None then Failure(MissingMark)
            else if key == Some(reader) then Success(Plain(event)) else Failure(CannotOpen)
  {
    assert LogLine(event, key).Marked? <==> key.Some?;
  }

  /** A line reads, whatever white space surrounds it, exactly if it carries the mark and a text sealed
      under the reader's key. */
  lemma DecryptsIff(l: Line, key: Key, plain: Text)
    ensures DecryptAuditLine(l, key) == Success(plain) <==> l.Marked? && l.body == Sealed(key, "", plain)
    ensures DecryptAuditLine(l, key) == Failure(MissingMark) <==> l.Other?
    ensures DecryptAuditLine(l, key) == Failure(NotBase64) <==> l.Marked? && l.body.Plain? && !IsBase64(l.body.s)
  {
  }

  // ----- Rewriting -----

  predicate IsBlank(l: Line) {
    l.Other? && AllSpace(l.text)
  }

  /** The rewrite looks for the mark at the very start of the line. */
  predicate IsEncrypted(l: Line) {
    l.Marked? && l.lead == ""
  }

  predicate OnlyCarriageReturns(s: string) {
    forall i :: 0 <= i < |s| ==> s[i] == '\r'
  }

  function RewriteLine(l: Line, ks: KeyPair): Result<Line, RotateError> {
    if !IsEncrypted(l) then Success(l)
    else if !Decodes(l.body) || !OnlyCarriageReturns(l.trail) then Failure(AuditInvalidBase64)
    else match Open(ks.from, "", l.body)
      case None => Failure(AuditOldKeyFails)
      case Some(plain) => Success(Marked("", Seal(ks.to, "", plain), ""))
  }

  /** Line by line: what stays, what is sealed anew, and the two ways to fail. */
  lemma RewriteLineIff(l: Line, ks: KeyPair)
    ensures !(l.Marked? && l.lead == "") ==> RewriteLine(l, ks) == Success(l)
    ensures forall plain, trail :: l == Marked("", Sealed(ks.from, "", plain), trail) && OnlyCarriageReturns(trail) ==>
              RewriteLine(l, ks) == Success(Marked("", Sealed(ks.to, "", plain), ""))
    ensures RewriteLine(l, ks) == Failure(AuditInvalidBase64) <==>
              l.Marked? && l.lead == "" && ((l.body.Plain? && !IsBase64(l.body.s)) || exists i :: 0 <= i < |l.trail| && l.trail[i] != '\r')
    ensures RewriteLine(l, ks) == Failure(AuditOldKeyFails) <==>
              l.Marked? && l.lead == "" && (forall i :: 0 <= i < |l.trail| ==> l.trail[i] == '\r') &&
              (if l.body.Plain? then IsBase64(l.body.s) else l.body.key != ks.from || l.body.aad != "")
    ensures RewriteLine(l, ks).Failure? ==> RewriteLine(l, ks).error == AuditInvalidBase64 || RewriteLine(l, ks).error == AuditOldKeyFails
  {
  }

  /** The rewritten log, or the error of the first line that cannot be rewritten. */
  function RewriteLog(lines: seq<Line>, ks: KeyPair): Result<seq<Line>, RotateError> {
    if |lines| == 0 then Success([])
    else match RewriteLog(lines[..|lines|-1], ks)
      case Failure(e) => Failure(e)
      case Success(front) =>
        match RewriteLine(lines[|lines|-1], ks)
        case Failure(e) => Failure(e)
        case Success(l) => Success(front + [l])
  }

  function CountEncrypted(lines: seq<Line>): nat {
    if |lines| == 0 then 0 else CountEncrypted(lines[..|lines|-1]) + (if IsEncrypted(lines[|lines|-1]) then 1 else 0)
  }

  function CountBlank(lines: seq<Line>): nat {
    if |lines| == 0 then 0 else CountBlank(lines[..|lines|-1]) + (if IsBlank(lines[|lines|-1]) then 1 else 0)
  }

  function CountPassedThru(lines: seq<Line>): nat {
    if |lines| == 0 then 0
    else CountPassedThru(lines[..|lines|-1]) +
         (if !IsEncrypted(lines[|lines|-1]) && !IsBlank(lines[|lines|-1]) then 1 else 0)
  }

  lemma {:induction false} CountsAddUp(lines: seq<Line>)
    ensures CountEncrypted(lines) + CountPassedThru(lines) + CountBlank(lines) == |lines|
  {
    if |lines| > 0 {
      CountsAddUp(lines[..|lines|-1]);
    }
  }

  /** The lines that carry the mark at their very start; the lines that neither do nor are blank. */
  function EncryptedAt(lines: seq<Line>): set<nat> {
    set i: nat {:trigger lines[i]} | i < |lines| && lines[i].Marked? && lines[i].lead == ""
  }

  function PassedThruAt(lines: seq<Line>): set<nat> {
    set i: nat {:trigger lines[i]} | i < |lines| && PassesThru(lines[i])
  }

  predicate PassesThru(l: Line) {
    if l.Marked? then l.lead != "" else exists k :: 0 <= k < |l.text| && !IsSpace(l.text[k])
  }

  lemma PassesThruIff(l: Line)
    ensures PassesThru(l) <==> !IsEncrypted(l) && !IsBlank(l)
  {
  }

  lemma {:induction false} CountsAre(lines: seq<Line>)
    ensures CountEncrypted(lines) == |EncryptedAt(lines)| && CountPassedThru(lines) == |PassedThruAt(lines)|
  {
    if |lines| > 0 {
      CountsAre(lines[..|lines|-1]);
      OneMoreCounted(lines);
      OneMoreEncrypted(lines);
      OneMorePassedThru(lines);
      hide *;
    }
  }

  lemma {:induction false} OneMoreEncrypted(lines: seq<Line>)
    requires |lines| > 0
    ensures var front, n := lines[..|lines|-1], |lines| - 1;
            |EncryptedAt(lines)| == |EncryptedAt(front)| + (if IsEncrypted(lines[n]) then 1 else 0)
  {
    var front, n := lines[..|lines|-1], |lines| - 1;
    assert EncryptedAt(lines) == EncryptedAt(front) + (if IsEncrypted(lines[n]) then {n} else {});
  }

  lemma {:induction false} OneMorePassedThru(lines: seq<Line>)
    requires |lines| > 0
    ensures var front, n := lines[..|lines|-1], |lines| - 1;
            |PassedThruAt(lines)| == |PassedThruAt(front)| + (if !IsEncrypted(lines[n]) && !IsBlank(lines[n]) then 1 else 0)
  {
    var front, n := lines[..|lines|-1], |lines| - 1;
    PassesThruIff(lines[n]);
    hide PassesThru, IsBlank, IsEncrypted;
    assert PassedThruAt(lines) == PassedThruAt(front) + (if PassesThru(lines[n]) then {n} else {});
  }

  lemma OneMoreCounted(lines: seq<Line>)
    requires |lines| > 0
    ensures var front, last := lines[..|lines|-1], lines[|lines|-1];
            && CountEncrypted(lines) == CountEncrypted(front) + (if IsEncrypted(last) then 1 else 0)
            && CountPassedThru(lines) == CountPassedThru(front) + (if !IsEncrypted(last) && !IsBlank(last) then 1 else 0)
  {
  }

  lemma {:induction false} RewriteLogAt(lines: seq<Line>, ks: KeyPair)
    ensures RewriteLog(lines, ks).Success? <==> forall i :: 0 <= i < |lines| ==> RewriteLine(lines[i], ks).Success?
    ensures RewriteLog(lines, ks).Success? ==>
              |RewriteLog(lines, ks).value| == |lines| &&
              forall i :: 0 <= i < |lines| ==> RewriteLine(lines[i], ks) == Success(RewriteLog(lines, ks).value[i])
  {
    hide RewriteLine;
    if |lines| > 0 {
      var front := lines[..|lines|-1];
      RewriteLogAt(front, ks);
      assert forall i :: 0 <= i < |front| ==> front[i] == lines[i];
      if RewriteLog(lines, ks).Success? {
        forall i | 0 <= i < |lines| ensures RewriteLine(lines[i], ks) == Success(RewriteLog(lines, ks).value[i]) {
          if i < |front| {
            assert front[i] == lines[i];
          }
        }
      }
    }
  }

  /** The rewrite keeps the number and the order of the lines, keeps every line that is not
      encrypted, and seals what the old key opened under the new key. */
  lemma {:induction false} RewriteKeepsLines(lines: seq<Line>, ks: KeyPair)
    requires RewriteLog(lines, ks).Success?
    ensures var out := RewriteLog(lines, ks).value;
            |out| == |lines| &&
            forall i :: 0 <= i < |lines| ==>
              if IsEncrypted(lines[i])
              then DecryptAuditLine(lines[i], ks.from).Success? &&
                   DecryptAuditLine(out[i], ks.to) == DecryptAuditLine(lines[i], ks.from)
              else out[i] == lines[i]
  {
    RewriteLogAt(lines, ks);
    var out := RewriteLog(lines, ks).value;
    forall i | 0 <= i < |lines| ensures RewriteLine(lines[i], ks) == Success(out[i]) {
    }
  }

  /** The reader, which trims, agrees with the rewrite, which does not, on every line but an
      indented one under one of the two keys. */
  lemma {:induction false} ReaderAgreesIff(lines: seq<Line>, ks: KeyPair, i: nat)
    requires ks.from != ks.to && RewriteLog(lines, ks).Success? && i < |lines|
    ensures |RewriteLog(lines, ks).value| == |lines|
    ensures DecryptAuditLine(RewriteLog(lines, ks).value[i], ks.to) == DecryptAuditLine(lines[i], ks.from)
       <==> !(lines[i].Marked? && lines[i].lead != "" &&
              (Open(ks.from, "", lines[i].body).Some? || Open(ks.to, "", lines[i].body).Some?))
  {
    RewriteLogAt(lines, ks);
    assert RewriteLine(lines[i], ks) == Success(RewriteLog(lines, ks).value[i]);
  }

  /** A log that Log wrote, some of it before encryption was turned on, can always be rewritten
      and reads the same afterwards. */
  lemma {:induction false} LoggedLinesRewrite(events: seq<string>, keys: seq<Option<Key>>, lines: seq<Line>, ks: KeyPair)
    requires |events| == |keys| == |lines|
    requires forall i :: 0 <= i < |lines| ==> StartsWith(events[i], "{") && (keys[i] == None || keys[i] == Some(ks.from))
                                              && lines[i] == LogLine(events[i], keys[i])
    ensures RewriteLog(lines, ks).Success? && |RewriteLog(lines, ks).value| == |lines|
    ensures forall i :: 0 <= i < |lines| ==>
              RewriteLog(lines, ks).value[i] == LogLine(events[i], if keys[i] == None then None else Some(ks.to))
  {
    RewriteLogAt(lines, ks);
    forall i | 0 <= i < |lines| ensures RewriteLine(lines[i], ks) == Success(LogLine(events[i], if keys[i] == None then None else Some(ks.to))) {
      assert keys[i] == None || keys[i] == Some(ks.from);
    }
  }

  /** Running the rewrite again over its own output fails exactly when there was anything to
      re-encrypt: this pass tries the old key only. */
  lemma {:induction false} SecondRewriteSucceedsIff(lines: seq<Line>, ks: KeyPair)
    requires ks.from != ks.to && RewriteLog(lines, ks).Success?
    ensures RewriteLog(RewriteLog(lines, ks).value, ks).Success? <==> CountEncrypted(lines) == 0
    ensures RewriteLog(RewriteLog(lines, ks).value, ks).Failure? ==>
              RewriteLog(RewriteLog(lines, ks).value, ks).error == AuditOldKeyFails
  {
    var out := RewriteLog(lines, ks).value;
    RewriteLogAt(lines, ks);
    RewriteLogAt(out, ks);
    NoneEncryptedIff(lines);
    forall i | 0 <= i < |lines|
      ensures RewriteLine(out[i], ks) == if IsEncrypted(lines[i]) then Failure(AuditOldKeyFails) else Success(lines[i])
    {
      assert RewriteLine(lines[i], ks) == Success(out[i]);
    }
    if RewriteLog(out, ks).Failure? {
      FailureComesFromALine(out, ks);
    }
  }

  lemma {:induction false} NoneEncryptedIff(lines: seq<Line>)
    ensures CountEncrypted(lines) == 0 <==> forall i :: 0 <= i < |lines| ==> !IsEncrypted(lines[i])
  {
    if |lines| > 0 {
      NoneEncryptedIff(lines[..|lines|-1]);
    }
  }

  lemma {:induction false} FailureComesFromALine(lines: seq<Line>, ks: KeyPair)
    requires RewriteLog(lines, ks).Failure?
    ensures exists i :: 0 <= i < |lines| && RewriteLine(lines[i], ks) == Failure(RewriteLog(lines, ks).error)
  {
    hide RewriteLine;
    var front := lines[..|lines|-1];
    if RewriteLog(front, ks).Failure? {
      FailureComesFromALine(front, ks);
      var i :| 0 <= i < |front| && RewriteLine(front[i], ks) == Failure(RewriteLog(front, ks).error);
      assert lines[i] == front[i];
    }
  }

  lemma {:induction false} FailsAtLine(lines: seq<Line>, k: nat, ks: KeyPair)
    requires k < |lines| && RewriteLog(lines[..k], ks).Success? && RewriteLine(lines[k], ks).Failure?
    ensures RewriteLog(lines, ks) == Failure(RewriteLine(lines[k], ks).error)
    decreases |lines|
  {
    var front := lines[..|lines|-1];
    if k < |front| {
      assert front[..k] == lines[..k];
      FailsAtLine(front, k, ks);
    }
  }

  // ----- The rewrite through a temporary file -----

  class LogFile {
    var configured: bool              // auditPath is not empty
    var present: bool                 // the file exists
    var lines: seq<FileLine>
    var temp: Option<seq<FileLine>>   // the .rotating file beside it

    constructor (lines: seq<FileLine>)
      ensures configured && present && this.lines == lines && temp == None
    {
      configured, present, this.lines, temp := true, true, lines, None;
    }
  }

  function Written(lines: seq<Line>): seq<FileLine> {
    seq(|lines|, i requires 0 <= i < |lines| => FileLine(lines[i], false))
  }

  lemma WrittenTexts(lines: seq<Line>)
    ensures Texts(Written(lines)) == lines
  {
  }

  method RotateAuditLog(file: LogFile, ks: KeyPair, faults: FaultPlan, result: RotateResult)
    returns (outcome: Result<(), RotateError>)
    requires result.auditLinesRotated == 0 && result.auditLinesPassedThru == 0
    modifies file`lines, file`temp, faults, result`auditLinesRotated, result`auditLinesPassedThru
    ensures !file.configured || !file.present ==>
              outcome.Success? && file.lines == old(file.lines) && file.temp == old(file.temp) &&
              result.auditLinesRotated == result.auditLinesPassedThru == 0
    ensures outcome.Success? && file.configured && file.present ==>
              && RewriteLog(Texts(old(file.lines)), ks).Success?
              && file.lines == Written(RewriteLog(Texts(old(file.lines)), ks).value)
              && file.temp == None
              && |file.lines| == |old(file.lines)|
              && (forall i :: 0 <= i < |file.lines| ==>
                    !file.lines[i].carriageReturn && RewriteLine(old(file.lines)[i].line, ks) == Success(file.lines[i].line))
              && result.auditLinesRotated == CountEncrypted(Texts(old(file.lines)))
              && result.auditLinesPassedThru == CountPassedThru(Texts(old(file.lines)))
    ensures outcome.Failure? ==> file.lines == old(file.lines)
    ensures outcome.Failure? && !(outcome.error == Cancelled && faults.crashed) ==>
              (file.temp == None || file.temp == old(file.temp)) &&
              result.auditLinesRotated == 0 && result.auditLinesPassedThru == 0
    ensures outcome == Failure(Cancelled) ==> !faults.reliable
    ensures outcome.Failure? && outcome.error != Cancelled ==>
              RewriteLog(Texts(old(file.lines)), ks) == Failure(outcome.error)
  {
    if !file.configured || !file.present {
      return Success(());
    }
    var ok := faults.Proceed();
    if !ok {
      return Failure(Cancelled);
    }
    var failure: Option<RotateError>;
    var rewritten;
    failure, rewritten := WriteTemp(file, ks, faults, result);
    if failure == None {
      ok := faults.Proceed();   // flush, sync, last look at the context, rename
      failure := if ok then None else Some(Cancelled);
    }
    if failure.Some? {
      if !(failure.value == Cancelled && faults.crashed) {
        file.temp := None;
        result.auditLinesRotated, result.auditLinesPassedThru := 0, 0;
      }
      return Failure(failure.value);
    }
    RewriteLogAt(Texts(file.lines), ks);
    file.lines, file.temp := Written(rewritten), None;
    return Success(());
  }

  /** The scan: every line goes to the temporary file, rewritten or as it is. */
  method WriteTemp(file: LogFile, ks: KeyPair, faults: FaultPlan, result: RotateResult)
    returns (failure: Option<RotateError>, rewritten: seq<Line>)
    requires result.auditLinesRotated == 0 && result.auditLinesPassedThru == 0
    modifies file`temp, faults, result`auditLinesRotated, result`auditLinesPassedThru
    ensures failure == None ==>
              && RewriteLog(Texts(file.lines), ks) == Success(rewritten)
              && file.temp == Some(Written(rewritten))
              && result.auditLinesRotated == CountEncrypted(Texts(file.lines))
              && result.auditLinesPassedThru == CountPassedThru(Texts(file.lines))
    ensures failure == Some(Cancelled) ==> !faults.reliable
    ensures failure.Some? && failure.value != Cancelled ==> RewriteLog(Texts(file.lines), ks) == Failure(failure.value)
  {
    var lines := Texts(file.lines);
    rewritten := [];
    assert Written([]) == [];
    file.temp := Some([]);
    for k := 0 to |lines|
      invariant RewriteLog(lines[..k], ks) == Success(rewritten)
      invariant result.auditLinesRotated == CountEncrypted(lines[..k])
      invariant result.auditLinesPassedThru == CountPassedThru(lines[..k])
      invariant file.temp == Some(Written(rewritten))
    {
      var ok := faults.Proceed();
      if !ok {
        return Some(Cancelled), rewritten;
      }
      assert lines[..k+1][..k] == lines[..k];
      var line := RewriteLine(lines[k], ks);
      if line.Failure? {
        FailsAtLine(lines, k, ks);
        return Some(line.error), rewritten;
      }
      assert Written(rewritten + [line.value]) == Written(rewritten) + [FileLine(line.value, false)];
      rewritten := rewritten + [line.value];
      file.temp := Some(file.temp.value + [FileLine(line.value, false)]);
      if IsEncrypted(lines[k]) {
        result.auditLinesRotated := result.auditLinesRotated + 1;
      } else if !IsBlank(lines[k]) {
        result.auditLinesPassedThru := result.auditLinesPassedThru + 1;
      }
    }
    assert lines[..|lines|] == lines;
    failure := None;
  }
}
