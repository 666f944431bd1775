# GoGoClaw: a verified model

GoGoClaw is an agent server written in Go. It keeps conversations in SQLite, encrypts them and its
audit log at rest, runs tools for a language model, and compacts long conversations in the
background. This project models the parts of it where state, failure and concurrency meet, in Dafny
4.11, and proves what they promise. `dafny verify dfyconfig.toml` checks all of it.

## What is modelled

**Key rotation** (`Aead`, `MessageTable`, `Keyset`, `Rotation`, `AuditLog`, `KeyRotation`,
`KeyFiles`, `RotateCommand`). Encryption is ideal: a ciphertext opens for the key and the associated
data it was sealed with and for nothing else. A table is the sequence of its rows in
`(created_at, id)` order, a transaction replaces it in one step, and so does each write, rename or
removal of a file. Every fallible step asks a `FaultPlan` (`Faults`) whether it goes through, fails,
or is the moment the process dies; a plan is arbitrary, so a statement about a method is one about
every failure and every crash.

**The session** (`Messages`, `Session`, `SummaryProtocol`, `Transcript`, `Summarizer`, `Dispatcher`,
`SessionManager`, `Engine`, `Agreement`). `SummaryProtocol` interleaves turns and the background
worker step by step, down to the two sends and the drain of a delivery. `Engine` is the agent loop;
what the provider and the tools answer is arbitrary. `Agreement` puts turns, half-failed writes,
summaries delivered at any moment and restarts together, and relates the history in memory to the
rows of the conversation.

**Self-contained cores**: the token bucket (`RateLimiter`, in integer nanoseconds and units of a
60e9th of a token), JSON-RPC correlation (`JsonRpc`, section 5 of the JSON-RPC 2.0 specification),
the env file (`EnvFile`, `Strings`), the check digit (`Luhn`, Annex B of ISO/IEC 7812-1), tool calls
out of a stream (`Sse`), profile inheritance (`Profile`), the context budget (`ContextAssembler`)
and the message splitter (`SplitMessage`).

Code that works step by step is a class or a method with loops, proved against a function of the old
state; the functions carry the lemmas. Interleavings are a state, its steps, and lemmas over all
runs.

## Where the code and its promises part

Each of these is proved, with the condition under which the promise does hold or a concrete input or
run on which it does not.

- "Re-running with the same encryptors resumes safely" (`internal/storage/rotation.go:38-40`) holds
  for a run that failed. It does not hold for one that succeeded and died before the promotion: the
  audit pass tries the old key only, so with one encrypted line in the log every later run fails
  (`RotateCommand.DieBeforePromotion` and `RotateCommand.StrandedForGood`;
  `KeyRotation.SuccessfulRunStaysWorkableIff` is the exact condition).
- The paging sorts by the text of `created_at` and resumes by `datetime(created_at)`. On sub-second
  stamps, or stamps `datetime()` cannot read, encrypted rows can be passed over while success is
  reported (`Keyset.CoversExactlyOnceIff` is the exact condition for a table,
  `Keyset.NeverPassesOverIff` for its stamps alone). Whether a run that reported success left
  everything readable is decided by the key files before it (`RotateCommand.RunRotateKey`). One such
  run on a table under the current key loses nothing (`RotateCommand.RunsWithOneSuccess`); after
  two, from a table encrypted under one auto-key, all is readable exactly if no row was passed over
  (`RotateCommand.TwoRotationsSafeIff`); where none is, any number of runs is safe
  (`RotateCommand.RunAnyNumberOfTimes`).
- The rewrite of the audit log does not recognise an encrypted line that is indented; the reader
  does (`AuditLog.ReaderAgreesIff`). A `\r` at the end of a line is dropped.
- The compare-and-swap flag does not by itself keep a history append-only between a snapshot and its
  merge (`SummaryProtocol.FlagAloneLosesAMessage`); taking no snapshot while a result waits does.
- A cut without a user message behind it, and the cut of the context budget, can part a tool block
  (`Summarizer.BlockCanBeCut`, `ContextAssembler.BudgetPartsABlock`); exactly when is
  `Summarizer.CompactionKeepsClosedIff` and `ContextAssembler.SentIsClosedIff`.
- A row can be in the store although its write was reported as failed
  (`Agreement.HistoryIsRowsIff`); tool calls whose arguments are not JSON are stored as none, and
  the answers to them are left over when the conversation is loaded again
  (`SessionManager.CallsLostIff`, `SessionManager.StoredClosedIff`).
- A wait below a nanosecond is cut to 0 and admits a request without a token
  (`RateLimiter.AdmittedWithoutTokenIff`).
- A second response under one id can stop the receive loop for good
  (`JsonRpc.DuplicateStopsTheLoop`); a call made after a receive error is never released
  (`JsonRpc.LateCallIsNeverAnswered`).
- "Non-zero fields in child override parent" (`internal/agent/profile.go:46-47`) is not so for the
  shell timeout (`Profile.ShellTimeoutIsTheRoots`).
- The response reserve is given up when it is all that is left
  (`ContextAssembler.ReserveCanBeSpent`).

## Model

| member | source | states |
|---|---|---|
| Aead.MessageAadInjective | internal/storage/encryption.go:193-197 | for message ids and roles without NUL the associated data determines message id, conversation and role, whatever the conversation id holds |
| Aead.MovedCiphertextFails | internal/storage/encryption.go:143-197 | a ciphertext opens in a row exactly when message id, conversation and role are those it was sealed for; again the conversation id is arbitrary |
| Aead.IsBase64Iff | internal/storage/conversations.go:266-267 | a stored text decodes exactly if, line breaks aside, it is groups of four alphabet characters with at most two signs of padding at the end |
| MessageTable.Database.GetMessages | internal/storage/conversations.go:239-296 | returns the messages of that conversation, none behind a later one, or the error of the first row that cannot be read; nothing is dropped or repeated |
| MessageTable.ReadRowIff | internal/storage/conversations.go:263-291 | a row can be read, and as what, exactly if it is plaintext, or the key is the one it was sealed under for this very row, both columns |
| MessageTable.ReadRowFailsIff | internal/storage/conversations.go:259-284 | without an encryptor an encrypted row is an error, never a message; otherwise the error names the row and the column |
| MessageTable.ConversationIsSorted | internal/storage/conversations.go:241-250 | the selected rows are exactly the rows of the conversation, oldest first |
| MessageTable.ChronologicalIff | internal/storage/conversations.go:243-244 | oldest first means: by the bytes of the stamps, and equal stamps in the order of insertion |
| Ordering.LessIff | internal/storage/rotation.go:117-123 | the byte order of two texts: the first difference decides, and a proper beginning comes first |
| MessageTable.WrittenOrderIff | internal/storage/conversations.go:241-244 | a conversation comes back in the order in which it was written, exactly if its stamps never went backwards |
| MessageTable.SameReadingSameConversation | internal/storage/conversations.go:239-296 | two tables that agree row by row for their readers give the same conversation, the same order and the same error |
| MessageTable.NewRowReadsIff | internal/storage/conversations.go:187-235 | an inserted row, encrypted or not, reads back as the message, unless the message carries tool calls of empty text |
| MessageTable.NewRowIsSealed | internal/storage/conversations.go:203-226 | with an encryptor nothing of a new message is stored in the clear: the row is flagged, both columns are sealed under the key for id, conversation and role, and no other key, and no reader without one, reads it |
| MessageTable.NewRowIsPlain | internal/storage/conversations.go:196-226 | without one it is stored as it is and not flagged |
| MessageTable.SealRowReads | internal/storage/conversations.go:453-478 | encrypting a plaintext row is invisible to a reader who holds the key |
| MessageTable.SelectFinds | internal/storage/rotation.go:113-123 | a query returns every matching row once, in table order, and no other |
| MessageTable.SealBatch | internal/storage/conversations.go:447-484 | a page is sealed as a whole or not at all |
| MessageTable.NextPage | internal/storage/conversations.go:417-445 | after n rows the query returns the next plaintext rows: none is skipped although the result shrinks |
| MessageTable.Database.MigrateToEncrypted | internal/storage/conversations.go:393-491 | at any failure a whole number of pages is sealed; success means that no plaintext row is left |
| MessageTable.MigrationIsInvisible | internal/storage/conversations.go:393-491 | however far the migration came, each conversation reads as before |
| Keyset.FewerBeyond | internal/storage/rotation.go:117-123 | the cursor moves on: fewer rows lie beyond it after each page, so the paging ends |
| Keyset.PastIff | internal/storage/rotation.go:113-123 | the resumed query returns rows of a later second than the one scanned, or of the same second with a larger id, and none if either is NULL |
| Keyset.CoversExactlyOnceIff | internal/storage/rotation.go:95-239 | the pages visit every encrypted row exactly once if and only if the cursor agrees with the sort order at every page edge |
| Keyset.NeverPassesOverIff | internal/storage/rotation.go:112-239 | whichever rows of a table are encrypted, the paging passes over none, exactly if no cursor from the hundredth row on hides a later row |
| Keyset.LaterArePastReachesAll | internal/storage/rotation.go:112-239 | on such a table every encrypted row is visited |
| Keyset.WholeSecondsLaterArePast | internal/storage/rotation.go:112-124 | tables with whole-second stamps are such tables |
| Keyset.WholeSecondsAgree | internal/storage/rotation.go:112-124 | with whole-second stamps the cursor agrees with the order everywhere |
| Keyset.SubSecondRowPassedOver | internal/storage/rotation.go:112-124 | a table with sub-second stamps on which the last row is never visited |
| Keyset.UnreadableStampsStopAfterOnePage | internal/storage/rotation.go:117-123 | stamps that datetime() cannot read end the paging after the first page; it then covers the table exactly if there is one page |
| Rotation.SkippedIffNewKeyReads | internal/storage/rotation.go:160-192 | a row is skipped exactly when the new key reads it, re-encrypted exactly when the old key does, and an error otherwise |
| Rotation.RotateRowFailsIff | internal/storage/rotation.go:160-192 | the error names the row, the column that does not decode or that neither key opens, or which column is under which key |
| Rotation.ResealedReads | internal/storage/rotation.go:194-218 | a re-encrypted row reads with the new key as it read with the old one |
| Rotation.ResealedIsDone | internal/storage/rotation.go:160-192 | re-encrypting is done once: the result is skipped by every later run |
| Rotation.RotateBatch | internal/storage/rotation.go:146-224 | a page is re-encrypted as a whole, or nothing changes and the error is that of the first bad row |
| Rotation.RotatePage | internal/storage/rotation.go:105-239 | a committed page advances the pass by exactly its rows and counts them as rotated or skipped; a failed one leaves table, cursor and counts |
| Rotation.RotateEncryptedRows | internal/storage/rotation.go:92-240 | after any number of visits, a failure included, exactly the visited rows are under the new key and the counts add up to them; success means that all visits were made |
| Rotation.EncryptPlaintextRows | internal/storage/rotation.go:265-349 | the first n plaintext rows are sealed under the new key and counted; success means all of them; the only failures are interruptions |
| Rotation.ProgressKeepsMeaning | internal/storage/rotation.go:38-40 | what any run does to a row keeps its message, its place and its id, and never leaves content and tool calls under different keys |
| Rotation.RunsKeepMeaning | internal/storage/rotation.go:38-40 | so does any number of failed or crashed runs |
| Rotation.AllDoneReadsTheSame | internal/storage/rotation.go:38-40 | once every row is under the new key, after any number of partial runs, each conversation reads with it as it read with the old key before |
| Rotation.RanStaysRotatable | internal/storage/rotation.go:242-263 | a partial run never creates a row that stops a later one |
| Rotation.PassesFinish | internal/storage/rotation.go:73-81 | after both passes every visited and every plaintext row is under the new key, and a row the paging passed over is unchanged |
| AuditLog.CountsAddUp | internal/storage/rotation.go:388-431 | rotated, passed-through and blank lines add up to all lines |
| AuditLog.CountsAre | internal/storage/rotation.go:388-431 | the counters count the lines that carry the mark at their start, and those that do not and are not blank |
| AuditLog.LoggedEventReads | internal/audit/logger.go:106-145 | what Log wrote for an event is read back with its key as that event, with another key it is an error, and without encryption the line is the event itself |
| AuditLog.DecryptsIff | internal/audit/logger.go:199-221 | a line reads exactly if it carries the mark, whatever white space surrounds it, and a text sealed under the key; the errors tell the rest apart |
| AuditLog.RewriteLineIff | internal/storage/rotation.go:394-430 | line by line what stays, what is sealed anew, and which of the two errors stops the rewrite |
| AuditLog.RewriteKeepsLines | internal/storage/rotation.go:394-430 | same number and order of lines; lines that are not encrypted unchanged; encrypted ones open under the new key to the same text |
| AuditLog.ReaderAgreesIff | internal/audit/logger.go:199-221 | the reader finds the same event after the rewrite, except on an indented encrypted line, which the rewrite does not recognise |
| AuditLog.LoggedLinesRewrite | internal/audit/logger.go:106-145 | a log written by Log, plaintext or under the old key, can always be rewritten, and gives the lines Log would have written under the new key |
| AuditLog.SecondRewriteSucceedsIff | internal/storage/rotation.go:403-414 | the rewrite can be repeated exactly when the log had no encrypted line |
| AuditLog.RotateAuditLog | internal/storage/rotation.go:355-480 | success: line by line the rewritten log, without carriage returns, and the counters count its lines; any error: the file is unchanged and, unless the process died, counters are zero and the temporary file is gone |
| AuditLog.WriteTemp | internal/storage/rotation.go:388-431 | the temporary file is the rewritten log, or the error is that of the first line that cannot be rewritten |
| KeyRotation.RotateDatabase | internal/storage/rotation.go:66-82 | a run of both passes only makes progress; on success it rotated the visited rows that the old key reads and skipped the other visits; an error is that of a row it visited; without failures a workable table is completed |
| KeyRotation.RotateKeys | internal/storage/rotation.go:41-90 | argument errors touch nothing; every failure leaves the log as it was and the table with progress only; success completes both, and each of the five counters is what it says; without failures it succeeds exactly when every visited row opens under one of the keys and the log can be rewritten, and otherwise reports one of these |
| KeyRotation.CompleteMeansAllDoneIff | internal/storage/rotation.go:35-90 | success means that every row is under the new key, exactly if each row passed over already was |
| KeyRotation.CompleteMeansAllDone | internal/storage/rotation.go:35-90 | which holds where cursor and order agree |
| KeyRotation.RotationIsInvisible | internal/storage/rotation.go:38-90 | after any number of partial runs and one that reported success, every row is under the new key exactly if the last run passed over none that was not, and then each conversation reads with the new key as it read with the old one at the start |
| KeyRotation.RotateUntilSuccess | internal/storage/rotation.go:38-90 | the same of calls that are repeated, failures and crashes included, until one succeeds; until then the log is as it was |
| KeyRotation.PassedOverRowStaysUnderOldKey | internal/storage/rotation.go:112-124 | where they do not, success can leave a row that only the old key reads |
| KeyRotation.FailedRunStaysWorkable | internal/storage/rotation.go:38-40 | a failed run can be repeated with the same keys |
| KeyRotation.SuccessfulRunStaysWorkableIff | internal/storage/rotation.go:38-40 | a run that reported success can be repeated exactly when the log held no encrypted line |
| KeyFiles.SourceBases | cmd/gogoclaw/main.go:274-278 | every source name ResolveNewEncryptor can return is stripped to one that PromoteKeyFiles knows |
| KeyFiles.SourceBaseIff | cmd/gogoclaw/main.go:274-278 | and exactly the base, its staged and its dry-run name are stripped to it |
| KeyFiles.KeyDir.ResolveEncryptor | internal/app/storage.go:23-64 | the current key is made and saved if missing, and an existing file is never changed; without failures it succeeds exactly when the file, if any, is usable, and otherwise says which file is not |
| KeyFiles.KeyDir.ResolveNewEncryptor | internal/app/rotation.go:24-123 | the new key is the staged one if there is one; otherwise it is staged before it is returned, and its source is named accordingly; a dry run and an error change nothing; without failures it is refused exactly when what is staged conflicts or is unusable |
| KeyFiles.KeyDir.PromoteKeyFiles | internal/app/rotation.go:125-184 | what the six files hold afterwards, file by file, for each of the four promotions; after a change of kind the old file is gone; at a crash the directory is at one of the steps; a missing old file stops it before the first |
| KeyFiles.PromotionSteps | internal/app/rotation.go:135-181 | the last steps of the four promotions, file by file: the backup is the old file, the current file is the staged one, and of a change of kind the old file is removed |
| KeyFiles.KeyDir.CleanupStagingFiles | internal/app/rotation.go:186-191 | removes staging files only |
| KeyFiles.PromotionKeepsNewKey | internal/app/rotation.go:135-181 | at every step the new key is on disk, and at the end it is the current key without any staging file |
| KeyFiles.PromotionKeepsOldKey | internal/app/rotation.go:135-181 | at every step the old key is on disk too |
| KeyFiles.SurvivesIff | internal/app/rotation.go:135-181 | which other keys are still on disk after any step, told from the files before: for all four promotions, both directions |
| KeyFiles.SecondPromotionDropsTheFirstKey | internal/app/rotation.go:213-225 | a second promotion of the same kind overwrites the only copy of the first key |
| RotateCommand.RunRotateKey | cmd/gogoclaw/main.go:211-360 | at whatever step a run ends, messages and log say what they said; they stay readable with the keys on disk after every run that did not report success, and after one that did exactly if each row passed over keeps its key, told from the files before the run; a completed run leaves the new key current and, after a change of kind, none of the old; without failures it completes exactly when the data can be rotated; each early exit has its own cause |
| RotateCommand.ResolveKeys | cmd/gogoclaw/main.go:232-278 | what the two keys are is told from the files before; no key material is lost; without failures both are found exactly when the files are usable |
| RotateCommand.KeptBeforeResolving | cmd/gogoclaw/main.go:232-278 | so what a promotion will keep can be told before the run |
| RotateCommand.RotateAndPromote | cmd/gogoclaw/main.go:317-341 | the part that changes data: keys move only after the data did, and then all is readable exactly if the rows passed over keep their keys through the steps of the promotion that took effect |
| RotateCommand.SafeIffPassedOverSurvive | cmd/gogoclaw/main.go:317-341 | at each step of any promotion: messages and log are readable with the files, exactly if every key of a row passed over is among those that survive |
| RotateCommand.RunAnyNumberOfTimes | cmd/gogoclaw/main.go:211-360 | any number of runs with any arguments, failures and crashes: every message and log line stays readable and unchanged, on every wholly encrypted table of which the paging passes over no row, and on every table on which no cursor from the hundredth row on hides a later row |
| RotateCommand.RunsWithOneSuccess | cmd/gogoclaw/main.go:211-360 | the same on every table, with arbitrary stamps, as long as at most one run reports success |
| RotateCommand.CurrentOutlivesOne | internal/app/rotation.go:135-181 | which asks at the start only for keys that can outlive one promotion, as the current key does |
| RotateCommand.RanStaysReadable | cmd/gogoclaw/main.go:325-328 | the message printed after a failure is right: everything is readable while the staged key is kept |
| RotateCommand.DieBeforePromotion | cmd/gogoclaw/main.go:317-341 | the steps of a run up to the success of the rotation, and no further, on any data under the current key with an encrypted log line: the installation is stranded, be the staged file a key or a salt |
| RotateCommand.StrandedForGood | cmd/gogoclaw/main.go:324-333 | from there no number of further runs, with any arguments, ever succeeds, against the advice to re-run |
| RotateCommand.TwoRotationsSafeIff | cmd/gogoclaw/main.go:211-360 | two runs of the command on any table encrypted under one auto-key: both complete, and then every message is readable exactly if the paging passes over no row |
| RotateCommand.TwoRotationsLoseTheRow | cmd/gogoclaw/main.go:211-360 | a table on which a message is lost that way |
| Session.Session.AppendMessage | internal/engine/session.go:70-75 | appends at the end and changes nothing else |
| Session.Session.GetHistory | internal/engine/session.go:77-84 | the copy is the history |
| Session.Session.InitAsync | internal/engine/session.go:52-61 | makes the channel once and loses no waiting result |
| Session.Session.ReconcileHistory | internal/engine/engine.go:425-465 | the history becomes the compacted history and what follows the snapshot, or stays if the result does not fit |
| Session.Session.ApplyPendingSummary | internal/engine/engine.go:405-423 | the slot is empty afterwards and its result merged at most once |
| Session.Session.StartSummarization | internal/engine/engine.go:467-485 | at most one worker, and it gets a copy of the whole history |
| Session.Session.Deliver | internal/engine/engine.go:502-519 | the newest result waits, whatever waited before |
| SummaryProtocol.SpliceDrops | internal/engine/engine.go:428-461 | a merge drops exactly as many appended messages as earlier merges shortened the history since the snapshot |
| SummaryProtocol.MergeExactIff | internal/engine/engine.go:425-465 | a merge is exact if and only if no merge changed the length since its snapshot; a refused result is a stale one |
| SummaryProtocol.RunKeepsInvariant | internal/engine/engine.go:408-523 | every interleaving keeps the flag, the slot and the order of the results |
| SummaryProtocol.SecondSendSucceeds | internal/engine/engine.go:514-518 | the branch that logs a failed delivery is never taken |
| SummaryProtocol.DisciplinedRun | internal/engine/session.go:24-28 | if no snapshot is taken while a result waits, at most one result is under way and nothing was merged since its snapshot |
| SummaryProtocol.NothingLostUnderDiscipline | internal/engine/session.go:24-28 | then in every interleaving each merge gives the compacted history and exactly the messages appended since, none lost, repeated or reordered |
| SummaryProtocol.FlagAloneLosesAMessage | internal/engine/engine.go:467-523 | a run the compare-and-swap flag allows, of whole turns and of results MaybeSummarize gives for their snapshots, in which a question of the user is lost |
| SummaryProtocol.BeginTurn | internal/engine/engine.go:405-423 | the session at the start of a turn takes the receive and merge steps of the protocol |
| SummaryProtocol.EndTurn | internal/engine/engine.go:470-485 | the session at the end of a turn takes the snapshot step |
| SummaryProtocol.UndisturbedTurn | internal/engine/engine.go:194-216 | a turn during which no result arrives keeps the discipline, whatever waited before: no result waits when it takes its snapshot |
| SummaryProtocol.Summarise | internal/memory/summarizer.go:53-143 | the worker on its snapshot produces a result of the summariser, never longer than the snapshot, or fails; with a reply it fails only if there is no such result |
| SummaryProtocol.DeliverUndisturbed | internal/engine/engine.go:502-523 | a delivery takes the send steps and ends with the result in the slot |
| SummaryProtocol.ClearFlag | internal/engine/engine.go:489-489 | the end of the worker clears the flag, and a turn may then start another |
| Transcript.ClosedIff | internal/engine/engine.go:339-402 | reading a transcript block by block is the same as: each call is answered at once and in order, and each tool message is such an answer |
| Transcript.CutClosedIff | internal/memory/summarizer.go:152-159 | a closed transcript can be cut into closed halves exactly where the next message is not a tool message |
| Transcript.JoinClosed | internal/engine/engine.go:455-461 | joining keeps transcripts closed, and open at most at the end |
| Transcript.PrefixOpenOnlyAtEnd | internal/engine/engine.go:355-364 | the beginning of a closed transcript has at most one open block, at its end |
| Summarizer.Summarizer.EstimateHistoryTokens | internal/memory/summarizer.go:165-184 | counts all but tool messages, a quarter of the bytes where the provider cannot count |
| Summarizer.OneMore | internal/memory/summarizer.go:145-184 | what one more message adds: its count or a quarter of its bytes to the estimate unless it is a tool message, a quarter of its bytes to the running total, a turn if it is the user |
| Summarizer.UserTurnsAre | internal/memory/summarizer.go:54-62 | user turns are the messages of the user |
| Summarizer.Summarizer.FindSplitPoint | internal/memory/summarizer.go:145-163 | the cut lies in front of the first user message behind the half point, right behind the half point if there is none, in the middle if there is no half point |
| Summarizer.SplitUnique | internal/memory/summarizer.go:145-163 | this determines the cut |
| Summarizer.Summarizer.MaybeSummarize | internal/memory/summarizer.go:53-143 | nothing is done exactly below six messages of the user or the threshold; otherwise the result is a system message with the mark and the reply, and the history behind the cut |
| Summarizer.EnoughTurnsSplitLate | internal/memory/summarizer.go:72-76 | the early return for a cut at the front is never taken |
| Summarizer.FallbackUnreachable | internal/memory/summarizer.go:145-163 | with any provider that counts a quarter of the bytes, or cannot count, every history that is not empty has a half point: the middle is never used |
| Summarizer.CleanCutIff | internal/memory/summarizer.go:145-163 | the cut is in front of no tool message exactly when, by the history, a user message follows the half point or what follows it is not a tool message |
| Summarizer.SplitPartitions | internal/memory/summarizer.go:78-79 | the two parts are the history, and a closed history falls into two closed parts exactly under that condition |
| Summarizer.UserBehindHalfPoint | internal/memory/summarizer.go:152-158 | if a user message follows the half point, the cut is in front of one and a closed history falls into closed halves |
| Summarizer.CompactionKeepsClosedIff | internal/engine/engine.go:448-461 | merging a summary into a closed history keeps it closed, exactly under that condition on the snapshot |
| Summarizer.BlockCanBeCut | internal/memory/summarizer.go:53-159 | with byte counts, MaybeSummarize cuts this closed history, a long reply with two calls in it, behind the calls; what remains is not closed |
| Dispatcher.Dispatcher.Dispatch | internal/tools/dispatcher.go:108-122 | in whatever order the calls finish, result i is that of call i taken alone |
| Dispatcher.Dispatcher.ExecOne | internal/tools/dispatcher.go:124-161 | whatever happens there is a result under the id of the call; it is an error exactly when the tool is unknown or failed, and says which |
| SessionManager.Store.AddMessage | internal/storage/conversations.go:184-237 | a failed call has written the row or nothing; success means it is written |
| SessionManager.Store.EnsureConversationAndAddMessage | internal/storage/conversations.go:298-379 | a failed call has written neither conversation nor message; success means both |
| SessionManager.SessionManager.GetOrCreate | internal/engine/session_manager.go:39-83 | one session per key; a new one starts with the stored conversation, which is then known to exist |
| SessionManager.SessionManager.PersistMessage | internal/engine/persistence.go:43-97 | a conversation marked known has its row; a failed first message writes nothing, a failed later one at most its own row |
| SessionManager.CallsLostIff | internal/engine/persistence.go:56-60 | the calls of a stored message are lost, all of them, exactly when the arguments of one are not JSON; otherwise ids, names and order stay |
| SessionManager.StoredAsItselfIff | internal/engine/persistence.go:43-60 | role, call id and scrubbed text are stored; a message is stored as itself exactly if the scrubber leaves its text alone and its arguments come back unchanged |
| SessionManager.StoredClosedIff | internal/engine/session_manager.go:110-130 | a closed transcript that is stored and loaded again is closed exactly when no call was lost |
| SessionManager.TableConversation | internal/storage/conversations.go:239-296 | the reading of the encrypted table, decoded, is the conversation, if its stamps never went backwards |
| Engine.Engine.PersistAndAppend | internal/engine/engine.go:158-192 | a message is in the history only after it is in the store |
| Engine.Engine.DispatchToolCalls | internal/engine/engine.go:339-367 | the tool messages appended answer the calls in order, each with the output or the error of its own call, or that there is no such tool: all of them on success, the first ones otherwise |
| Engine.Engine.TakeReply | internal/engine/engine.go:381-400 | a round says the reply and the result of each of its calls, in order, or on an error the beginning of that |
| Engine.Engine.TakeRound | internal/engine/engine.go:373-400 | one round of the loop carries the script one reply further, and on the last one to its end |
| Engine.Engine.RunToolLoop | internal/engine/engine.go:369-403 | at most ten calls of the provider, exactly ten at the round limit; what is said is the script of replies and tool results, whole on success and at the limit, its beginning otherwise |
| Engine.RoundsClosed | internal/engine/engine.go:369-403 | the script of any replies and tool results is a closed transcript |
| Engine.TurnTranscript | internal/engine/engine.go:194-216 | after a closed history, the whole script leaves it closed, and any beginning of it leaves at most one open block, at the end |
| Engine.Engine.Send | internal/engine/engine.go:194-216 | a turn says the user message and the script of the provider and the tools, or the beginning of it; from a closed history, success and the round limit leave it closed and any other error leaves at most one open block, at the end; the store has a row for each appended message and at most the next one; a snapshot is taken on success only |
| Engine.Engine.SendStream | internal/engine/engine.go:218-290 | the same for a streamed turn; its assistant message has all the text and all the calls of the stream |
| Engine.ReadStream | internal/engine/engine.go:239-250 | the chunks are put together in order |
| Engine.StreamsJoin | internal/engine/engine.go:239-250 | the text of two stretches of a stream is the text of one and then of the other, and so are the calls |
| Engine.StreamOfOne | internal/engine/engine.go:239-250 | of one chunk it is its own, of none it is empty |
| Engine.WroteConversation | internal/engine/engine.go:158-192 | a turn adds its messages to its own conversation and to no other |
| Agreement.MergeStaysWithin | internal/engine/engine.go:428-461 | a merged history, summaries aside, is still a subsequence of the rows, and no longer than before |
| Agreement.StepKeepsInvariant | internal/engine/engine.go:158-523 | so is it after every step: messages written, half written or lost, summaries delivered at any moment, restarts |
| Agreement.HistoryStaysWithinRows | internal/engine/engine.go:158-192 | in every run the history, summaries aside, is a subsequence of the rows, in order |
| Agreement.HistoryIsRowsIff | internal/engine/persistence.go:43-97 | at every moment of every run in which no summary is merged, the history is the rows exactly if no failed call has left a row since the session was last loaded; otherwise the store is ahead |
| Agreement.SendIsATurn | internal/engine/engine.go:194-216 | Send is a turn of this protocol, whatever provider, tools and store do |
| Agreement.ReopenIsARestart | internal/engine/session_manager.go:39-98 | removing a session and opening its conversation again is the restart of this protocol: the new session starts with exactly the rows, whatever the old one had lost; other sessions stay |
| RateLimiter.RateLimiter.Allow | internal/channel/rest.go:508-541 | the result and the new bucket depend on that key only; other buckets are unchanged |
| RateLimiter.RateLimiter.Check | internal/channel/rest.go:201-218 | a request is refused exactly for a positive wait, with the next full second after it |
| RateLimiter.RetryAdmittedIff | internal/channel/rest.go:537-540 | a refused client with no other call on its key is let in exactly from the returned duration on |
| RateLimiter.RetryAfterIsNextSecond | internal/channel/rest.go:209-212 | the client is told the next full second after the wait, no earlier and no later |
| RateLimiter.RetryAfterTakesToken | internal/channel/rest.go:209-212 | a client that waits RetryAfter seconds gets a token |
| RateLimiter.AdmittedWithoutTokenIff | internal/channel/rest.go:532-540 | a request gets in without a token exactly when less than a nanosecond of refill is missing |
| RateLimiter.NextCallTakesToken | internal/channel/rest.go:524-535 | any call at a later nanosecond takes a token |
| RateLimiter.TokenlessAdmission | internal/channel/rest.go:532-540 | such an admission is reachable |
| RateLimiter.Conservation | internal/channel/rest.go:524-535 | tokens left plus tokens taken never exceed a full bucket plus the refill since the first call |
| RateLimiter.WindowBound | internal/channel/rest.go:508-541 | in any window of any run the calls that take a token number at most the bucket plus rate times the length of the window |
| RateLimiter.Burst | internal/channel/rest.go:515-522 | a new key can spend a minute of requests at one instant, one token each |
| RateLimiter.RunCalls | internal/channel/rest.go:508-541 | over any calls on any keys, the bucket of a key, known at the start or new, is what its own calls make of it |
| JsonRpc.RunKeepsInvariant | internal/mcp/client.go:182-289 | every interleaving keeps each channel, call and table entry tied to its id |
| JsonRpc.AnswersAreOwn | internal/mcp/client.go:212-220 | a call that returns an answer returns a payload received under its own id |
| JsonRpc.NoSendAfterClose | internal/mcp/client.go:245-252 | no channel is sent on after it was closed, and none is closed twice |
| JsonRpc.UnknownIdChangesNothing | internal/mcp/client.go:273-280 | a response under an unknown id changes no call and no channel |
| JsonRpc.ReceiveErrorReleases | internal/mcp/client.go:243-257 | a receive error releases every call then pending, whatever happens afterwards |
| JsonRpc.LateCallIsNeverAnswered | internal/mcp/client.go:197-221 | a call registered after that is never answered nor told of the closing |
| JsonRpc.LoopNeverBlocks | internal/mcp/client.go:282-287 | while no id is answered twice the loop never waits at a full channel |
| JsonRpc.StuckStays | internal/mcp/client.go:282-287 | a second response for a call that no longer listens stops the loop for good |
| JsonRpc.StuckIff | internal/mcp/client.go:259-287 | these are exactly the states from which no run gets the loop to send what it holds |
| JsonRpc.DuplicateStopsTheLoop | internal/mcp/client.go:182-289 | a run that gets there |
| JsonRpc.TakeStep | internal/mcp/client.go:182-289 | each step of the protocol is what the client object does in place, under its lock or at a channel |
| JsonRpc.Interleave | internal/mcp/client.go:182-289 | so any interleaving of callers and receive loop on one client is a run of the protocol |
| JsonRpc.CallAnswered | internal/mcp/client.go:182-221 | a call beside any others, when answered, returns the result that came under its id, or the error as a JSON object; the pending calls are as before and no other call or channel is disturbed |
| JsonRpc.Client.DrainPending | internal/mcp/client.go:247-251 | in whatever order, every pending channel is closed, no other, and the table is empty |
| JsonRpc.Client.Fail | internal/mcp/client.go:242-257 | a receive error is the step of the protocol that releases every pending call; no channel is closed twice |
| JsonRpc.Client.Handle | internal/mcp/client.go:259-287 | a message is the receive step: the loop then holds a payload exactly if the id is that of a pending call |
| JsonRpc.Client.Take | internal/mcp/client.go:212-220 | the receive of a caller is the step that ends its wait; an answer is a payload received under its own id |
| JsonRpc.Client.NextId | internal/mcp/client.go:183-183 | the id of a new call is one that no call, pending entry or channel has |
| EnvFile.EnvFile.PersistEnvVar | internal/agent/bootstrap.go:651-689 | rewrites the file to the other lines, trimmed and without blanks, and the new one last |
| EnvFile.Environment.LoadEnvFile | internal/agent/bootstrap.go:691-717 | sets what the lines say, first come first served |
| EnvFile.OtherLinesAre | internal/agent/bootstrap.go:660-675 | line by line what stays in the file, trimmed: all but blank lines and assignments to the name; comments stay |
| EnvFile.LoadLineSets | internal/agent/bootstrap.go:700-716 | an assignment sets its variable unless that is set to something already; one set to nothing is not; comments and what os.Setenv refuses do nothing |
| EnvFile.LoadLineElse | internal/agent/bootstrap.go:700-708 | no other line does anything |
| Strings.TrimSpaceLosesSpaces | internal/agent/bootstrap.go:701-701 | trimming loses white space at both ends and nothing else |
| Strings.JoinSplit | internal/agent/bootstrap.go:700-700 | the pieces of a text make it up again |
| EnvFile.RoundTripIff | internal/agent/bootstrap.go:651-717 | for every previous file, loading what was written gives the old mapping updated at the name, if and only if name and value are ones a line can hold and the environment accepts |
| EnvFile.OtherLinesLoad | internal/agent/bootstrap.go:664-675 | dropping the lines of a name drops that name from the mapping and nothing else |
| EnvFile.EnvironmentWins | internal/agent/bootstrap.go:711-714 | a variable already set is never changed by the file |
| Luhn.LuhnValid | internal/pii/classifier.go:152-167 | the alternating loop computes the sum by place |
| Luhn.CountsIsDigitSum | internal/pii/classifier.go:159-163 | a doubled digit counts as the sum of the digits of its double |
| Luhn.SumOfPairs | internal/pii/classifier.go:154-165 | from the right, every second digit is doubled, beginning with the second |
| Luhn.VerifyCreditCard | internal/pii/classifier.go:135-150 | true exactly for 13 to 19 digits, separators aside, that pass the check |
| Luhn.OnlyDigitsJoins | internal/pii/classifier.go:136-143 | the digits of two stretches of text are those of one and then of the other |
| Luhn.SingleChangeCaught | internal/pii/classifier.go:152-167 | changing one digit of a valid number makes it invalid |
| Luhn.SwapCaughtIff | internal/pii/classifier.go:152-167 | exchanging two neighbours keeps it valid exactly if they are equal or a 0 and a 9 |
| Luhn.OneCheckDigit | internal/pii/classifier.go:152-167 | every number has exactly one check digit |
| Sse.ParseSse | internal/provider/openai_compat.go:252-315 | text is passed on as it comes, one call per index follows at the end mark, and a stream that ends without the mark, is cancelled or fails yields no calls |
| Sse.AssembledAt | internal/provider/openai_compat.go:297-310 | the call of an index has the id and name of its first fragment and all arguments in order of arrival |
| Sse.InterleavingDoesNotMatter | internal/provider/openai_compat.go:297-310 | streams with the same fragments per index give the same calls |
| Sse.SwapNeighbours | internal/provider/openai_compat.go:297-310 | neighbouring fragments of different indexes can change places |
| Sse.Flush | internal/provider/openai_compat.go:273-279 | in whatever order the map is read, each call is emitted once |
| Profile.LoadDecided | internal/agent/profile.go:13-44 | loading succeeds exactly when the inherits walk reaches a root, with the profiles merged from the root down; it fails exactly when the walk repeats a name or leaves the map, and names it |
| Profile.WalkExists | internal/agent/profile.go:20-44 | from every name in the map the walk comes to an end |
| Profile.ChildOverrides | internal/agent/profile.go:46-124 | field by field: what is set in the child overrides the parent, anything else is the parent; the result inherits nothing |
| Profile.MergeAssociative | internal/agent/profile.go:46-124 | merging is associative |
| Profile.FoldGroups | internal/agent/profile.go:37-43 | so the result does not depend on how the walk is grouped |
| Profile.ShellTimeoutIsTheRoots | internal/agent/profile.go:113-116 | the shell timeout is never merged: it is the root's, whatever the profile says |
| ContextAssembler.ContextAssembler.Assemble | internal/engine/context.go:44-89 | the prompt as a system message, if there is one, and a suffix of the history that fits what prompt, tools and, above 1024, the reserve leave of the limit, and cannot be extended |
| ContextAssembler.CutUnique | internal/engine/context.go:70-80 | the tokens determine the cut |
| ContextAssembler.CutIsLongest | internal/engine/context.go:70-80 | no longer suffix fits, unless the budget is used up to the last token |
| ContextAssembler.ReserveIsKept | internal/engine/context.go:64-68 | with more than 1024 tokens left, prompt, tools, history and reserve stay within the limit |
| ContextAssembler.ReserveCanBeSpent | internal/engine/context.go:64-68 | with 1024 left, history can take all of it and nothing is kept for the answer |
| ContextAssembler.SentIsClosedIff | internal/engine/context.go:70-88 | what is sent is a closed transcript exactly when, by the tokens of the messages, the budget does not end at a tool message |
| ContextAssembler.BudgetPartsABlock | internal/engine/context.go:44-89 | Assemble on a closed history, tokens counted as a quarter of the bytes, sends a transcript that is not closed |
| SplitMessage.SplitMessage | internal/channel/telegram.go:465-498 | ends for every limit from 1; the chunks are at most that long and come from consecutive pieces that make up the whole text, none of them empty if the text is over-long |
| SplitMessage.WordsStayWholeIff | internal/channel/telegram.go:482-491 | a word is cut only if there is no space or line break in the last three quarters of the window; a line break is preferred to a space |
| SplitMessage.CutPrefers | internal/channel/telegram.go:482-491 | the cut lies behind the last paragraph break of the window past its first quarter, or else line break, or else sentence, or else word, or else at its end |
| SplitMessage.TrimmedIsShorter | internal/channel/telegram.go:493-493 | trimming a chunk loses all the spaces at its end and nothing else |

## Left out

- RotateCommand.RunAnyNumberOfTimes: for a table with plaintext rows it asks that no cursor from the hundredth row on hides a later row, which is exactly that the paging passes over none whichever rows are encrypted (`Keyset.NeverPassesOverIff`); the exact condition for such a table is per run, in RunRotateKey.
- RotateCommand.RunRotateKey: takes the table as kept in `(created_at, id)` order, which is how the model represents ORDER BY; the application does not write during a rotation, as the command itself demands.
- AuditLog.RotateAuditLog: a line longer than the scanner's 1 MB buffer is one of the failures the fault plan can raise, not a property of the line; the JSON inside an event is not decoded.
- KeyFiles.KeyDir.PromoteKeyFiles: a write of a key, salt or backup file is one atomic step; a half-written file is not modelled.
- Rotation.RotateEncryptedRows: SQL text, the driver and WAL are not modelled; what `datetime()` makes of a stamp, and of the text the driver hands back, are values of the row.
- SummaryProtocol.NothingLostUnderDiscipline: the text of a summary is arbitrary; of its result only the structure and the length matter.
- Agreement.SendIsATurn: concerns a turn during which the worker takes no step; the steps themselves interleave in `Agreement.HistoryStaysWithinRows`. SendStream has the same contract as Send and is not repeated there.
- SessionManager.Store.AddMessage: rows come back in the order they were written, ids and time stamps are left out here, and encryption is transparent; `SessionManager.TableConversation` says when the table itself gives that. Scrubbing and JSON are arbitrary functions of the text.
- SessionManager.SessionManager.GetOrCreate: the read lock and the second look under the write lock are one step.
- Engine.Engine.Send: which part of the history is sent is `ContextAssembler`'s affair; what the provider is sent does not influence what it can answer. A missing hook is a session manager without a store.
- RateLimiter.RateLimiter.Allow: exact integer arithmetic in place of floating point, a clock that does not go back, and the mutex as one step.
- JsonRpc.AnswersAreOwn: ids do not wrap around at 2^63, and the quoting of an error message is taken as given.
- Sse.ParseSse: lines arrive already classified; the JSON decoding and the 512 KB line limit (a scan error) are foreign code.
- Profile.LoadDecided: the two relevance weights are real numbers in place of floats.
- SplitMessage.SplitMessage: the limit is at least 1, as its only caller passes; with 0 the source would not end. A chunk of nothing but spaces becomes empty, as in the source.
- Luhn.LuhnValid: is given digits only, as its only caller does; SSN checks and the pattern matching around both are left out.
- AES-GCM, Argon2id, base64, nonces and random ids: ideal encryption, injective encodings and fresh values stand for them.
- Secret scrubbing, PII modes and the regular expressions behind them.
- HTTP, Telegram, SSE and stdio transports, WebAssembly skills, the vector store, YAML and file watching: foreign code and I/O.
- The text interface, health dashboard, bootstrap questions, config validation, allow-lists and capability checks: easy members next to the above.
- DeleteConversation, ClearHistory, SetHistory and WaitForSummarization: no code in the repository that runs a turn calls them.
