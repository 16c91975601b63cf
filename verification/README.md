# Fast Spider Node: verified models

A Dafny model of the durable and concurrent parts of Fast Spider Node, and of its text engine,
with proofs of what they promise over whole runs: every interleaving, every crash point, every
division of a file into reads, every list of edits.

Check everything with `dafny verify dfyconfig.toml`.

## How the project is built

A component is built in up to three layers.

1. A specification on values: the state, and a function for each critical section.
2. The program's own form: a class or a method with the source's loops, early exits and roll-backs,
   proved equal to that specification.
3. For what runs concurrently or must survive a crash, a state machine whose steps are those functions,
   taken in any order by any number of threads, with an inductive invariant and theorems about whole runs.
   `SessionLocks` keeps its invariant in the class itself: every method, called by any thread, preserves it.

What the environment decides (a save fails, a process ends, the provider refuses, a crash) is a
parameter of a step, so a theorem over all runs covers every outcome.

- **Text engine.** `Utf8` holds the theory of section 4 of RFC 3629 that every loop rests on: the
  valid prefixes of a text, prefix-freeness, the longest valid prefix within three bytes of any
  point, and matches only on rune boundaries; `Utf8Encoding` that valid text is what scalar values
  encode to. `TextSearch` models byte search and newline normalisation, `FileEdit` the multi-edit
  planner, and `FileEditTheorems`, `FileEditLaws` and `FileNewlines` its laws. `Lines`, `FileScan`,
  `FileTail`, `FileRead` and `FilePaging` model the one-pass scan, its three selections, the tail
  window and a client that pages. `CloudResult` models page splitting.
- **Job manager.** `JobEvents` is the event window of one job. `JobSpec`, `JobManager` and
  `JobLedger` are the manager and its stored ledger. `JobSystem` is the state machine,
  `JobSystemInvariant` its invariant and `JobRuns` its runs; `JobTheorems` says when a launch can be
  repeated, `JobRetention` which jobs a sweep evicts, `JobFinality` when a terminal state is final, and
  `JobAnswers` what StartExecution answers.
- **session.create.** `SessionLedger`, `SessionStore`, `SessionLedgerTheorems` and `SessionLedgerLaws` are the
  idempotency ledger with its three save outcomes (`StateFile`). `SessionProtocol` adds the create
  calls, the deletions, the operator's release and the disk, `SessionRequests` the requests behind
  the calls and their hashes; `SessionTheorems`, `SessionQuiet`,
  `SessionReplay` and `SessionDivergence` prove what its runs keep and where they do not,
  `SessionAnswers` what a repeated request is answered at every stage, and `SessionOutcomes` what each
  of the provider's answers leads to.
- **Codex app-server.** `CodexProcess` and `CodexRuns` model process generations and waiters,
  `CodexDelivery` that responses reach their callers, and `SessionLocks` the reference-counted load
  locks.
- **Two handshakes.** `ClaudeTurn` and `ClaudeRuns` model starting and cancelling a Claude Code turn,
  `ClaudeLabels` what that does to the session's name and archive flag, and `ReleaseDrain` the drain
  against the admission of requests.

## Where a promise does not hold

Some promises are false of the code as it stands. The code is modelled as it is; each has the exact
condition under which the promise holds, proved for all inputs or runs, and a run in which it fails.

- **A launch may be repeated after a failed load.** When the job ledger cannot be read, the manager
  starts empty and refuses starts, but its hourly sweep still writes its empty memory over the
  ledger. A step forgets a key on record without evicting it exactly when it is that sweep
  (`ForgetsExactlyWhenErasing`); afterwards every key can be launched again (`ErasedIsForgotten`,
  `ForgottenIsLaunched`), and `AnAcknowledgedLaunchIsRepeated` is a whole run.
- **A launch may be repeated after a failed commit.** When the commit of a launch cannot be saved, the
  lock is let go of before the process is killed. If the node crashes before that kill and report, the
  launch was only interrupted, and its "starting" record should keep it from being launched again. The
  record is gone exactly when somebody rewrote the ledger since the failed commit
  (`OrphansExactlyWhenRewritten`, `StandingIsKept`); `AnUnkilledLaunchIsRepeated` is a run in which the
  hourly sweep does. With neither exception, no launch is repeated (`LaunchIsNotRepeated`).
- **A terminal job state is final once it is on disk, not once it exists.** In every reachable state the
  terminal state of a job is final, in every way the run may go on, exactly when no record on disk
  carries another state or exit code (`FinalExactlyWhenOnDisk`). That is so once Watch has returned it
  (`ReportedIsOnDisk`, `ReportedStateIsFinal`) and after any save that succeeds (`SavedIsOnDisk`). Between
  the end of a process and the next save it is not (`UnsavedStateChanges`); the snapshot that Cancel
  returns, and the one with which StartExecution answers a replayed key, can show such a state.
- **A session can be created twice for one key.** A save for another key that reaches the file but not
  the disk marks every reservation in doubt, also one whose call is still on its way to the provider.
  If the operator then releases that key, a second call can reserve it, and both calls ask the
  provider. The promise holds in every run that strands no such call (`CreatedAtMostOnce`), every
  step that strands one can be continued into two creations (`StrandingIsRepeated`), and such steps
  are reachable (`StrandingHappens`). Runs that release and delete only keys without a call in
  progress strand nothing (`QuietRuns`).
- **Memory and disk can disagree about a record in doubt.** An update to `in_doubt` that could not be
  written is kept in memory. It disagrees with what a restart would read exactly when the record was
  neither reserved, nor thread_created, nor in doubt already (`AgreementExactly`); in the run
  `DivergenceHappens` a call finds its session already being deleted.
- **A rename or an archive flag can be undone.** Rolling back the start of a Claude Code turn puts the
  whole session record back, be it that the turn was cancelled or that its process did not start. In
  every run, a step by nobody who labels the session changes its labels exactly when it rolls back a
  start recorded over other labels (`LabelsChangeExactly`). At any moment the labels are safe, in every
  way the run may go on, exactly when no turn of the session is starting over other labels
  (`SafeExactlyWhenUnexposed`), so a label given while no turn is starting stays
  (`LabelGivenInPeaceStays`). `RenameIsLostToCancel` and `RenameIsLostToFailedStart` are runs in which
  an acknowledged rename is undone.
- **A tail read can name the wrong line.** The line number of a tail read is that of the line in which
  its content begins, but for a file exactly one byte over the budget that begins with a newline and is
  wanted whole (`TailLineIsRight`, `ATailNamesTheWrongLine`).

Paging a file by bytes completes exactly when no rune is longer than the limit and the limit is not
refused, so a limit of four always suffices and a limit of three does not (`PagingCompletes`,
`ThreeBytesGetStuck`). An old text
that is found exactly once by non-overlapping counting may still match again overlapping its first
match (`OverlappingMatchIsUnique`).

## Assumptions

- One live manager per data directory, and a data directory is given. `internal/node/app.go:413` and
  `internal/node/components.go:227` build further managers over the same directory; they are not part
  of this model.
- Replacing a state file is atomic. The job store does not sync its directory, and no power loss between
  a replacement and its durability is considered for it; for the session.create ledger it is.
- Job, turn and session identifiers are fresh when they are drawn. Digests, JSON and clocks are
  uninterpreted, and a clock never reads as the zero time. Where requests are told apart by their
  hashes, the digest has no collision among the values that the requests of the run hash.
- A kill that was ordered succeeds: a launch reported as failed, after the kill of its process, does not
  count as one that took place.
- A call that holds the manager's lock runs alone, so a critical section is one step. The launch of a
  job, from its "starting" record to its commit, is one such section; a crash inside it is a step of
  its own.

## Model

| member | source | states |
|---|---|---|
| Utf8.Boundary | internal/node/file_read.go:442-456 | In valid text a position lies between runes exactly when its byte is no continuation byte: the text synchronises itself |
| Utf8.FloorIsNear | internal/node/capabilities.go:288-299 | In valid text the longest valid prefix of any cut is at most three bytes shorter than the cut |
| Utf8.FloorOfPrefix | internal/node/file_read.go:506-516 | The longest valid prefix of a cut of a text is that of the text, so cutting first loses nothing |
| Utf8.MatchOnBoundaries | internal/node/file_edit.go:275-280 | A match of valid text in valid text begins and ends on rune boundaries |
| Utf8Encoding.ValidExactlyWhenEncoded | internal/node/file_read.go:442-456 | Valid text is exactly what sequences of scalar values - code points but for the surrogates - encode to |
| TextSearch.MatchesAfter | internal/node/file_edit.go:276-279 | The rest of a text from an offset on has no match exactly when every match of the text begins before that offset |
| TextSearch.CountIsOne | internal/node/file_edit.go:276-279 | The non-overlapping count is one exactly when there is a leftmost match and every match begins before its end: all others overlap it |
| TextSearch.OverlappingMatchIsUnique | internal/node/file_edit.go:276-279 | A text that overlaps itself can match twice and still be counted once |
| TextSearch.ReplaceAllKeepsText | internal/node/file_edit.go:355-362 | Replacing text by text in text leaves text: valid and without NUL |
| TextSearch.NormalizeIsOnePass | internal/node/file_edit.go:355-362 | The three successive replacements equal one left-to-right pass that turns CRLF, CR and LF alike into the chosen newline |
| TextSearch.NormalizeTwiceIsOnce | internal/node/file_edit.go:355-362 | Normalising newlines twice is normalising once |
| TextSearch.NormalizeKeepsText | internal/node/file_edit.go:342-362 | Normalised text is still valid and free of NUL |
| FileNewlines.DominantByPosition | internal/node/file_edit.go:346-353 | The dominant newline is CRLF exactly when more line feeds follow a carriage return than do not, counted by their positions |
| FileNewlines.EditsKeepLf | internal/node/file_edit.go:254-301 | An accepted list of edits keeps a file without carriage returns free of them |
| FileNewlines.EditsKeepCrlf | internal/node/file_edit.go:254-301 | It keeps a file in which carriage returns and line feeds occur only as pairs, at least one, that way |
| FileEdit.PlanFileEdit | internal/node/file_edit.go:210-301 | A plan is made exactly when revision, limits, shape, uniqueness, non-overlap and result size all hold, and is then the specified file with the changes in order; a refusal names the first of its reasons that holds |
| FileEdit.PlanEdits | internal/node/file_edit.go:254-301 | The same for the part that depends on the file and the edits alone |
| FileEdit.LocateEdits | internal/node/file_edit.go:257-281 | The locating loop succeeds exactly when every edit is text, found once, and the total is within the limit, and its ranges are then theirs in order; otherwise it names what is wrong with the first edit that fails |
| FileEdit.Overlaps | internal/node/file_edit.go:282-287 | The check of each range against its neighbour finds an overlap, among sorted ranges, exactly when some two ranges share a byte |
| FileEdit.NeighboursDecide | internal/node/file_edit.go:282-287 | Sorted ranges that are apart from their neighbours are apart from all others |
| FileEdit.SpliceRanges | internal/node/file_edit.go:288-297 | The cursor loop over sorted ranges builds the specified splice |
| FileEdit.ChosenRanges | internal/node/file_edit.go:257-287 | The ranges of an accepted list are inside the file, sorted, disjoint, and a permutation of the located ones |
| FileEditLaws.AcceptableExactly | internal/node/file_edit.go:254-287 | A list is accepted exactly when it has at most 64 edits whose texts fit, at most 64 KiB each and 512 KiB together, and whose old texts, in the file's newlines, have places, found once, no two of which share a byte |
| FileEditLaws.ReplaceReplaces | internal/node/file_edit.go:231-297 | A replacement puts its new text, in the file's newlines, in the one place of its old text, and leaves the rest |
| FileEditTheorems.EditedIsText | internal/node/file_edit.go:257-301 | Every accepted list of edits turns text into text, because every range lies on rune boundaries |
| FileEditTheorems.LocatedRangeIsOnBoundaries | internal/node/file_edit.go:265-281 | An edit located in text cuts it only between runes, also after its newlines were normalised |
| FileEditTheorems.EditedReplacesLastFirst | internal/node/file_edit.go:282-297 | The single splice equals replacing the chosen ranges one at a time from the last to the first |
| FileEditTheorems.SpliceAccountsForEveryByte | internal/node/file_edit.go:288-297 | The result's length is the old one plus the growth of each range; bytes outside the ranges are kept at their moved places; each range holds its new text |
| FileEditTheorems.EditedAccountsForEveryByte | internal/node/file_edit.go:257-301 | The same for the file an accepted list of edits produces |
| FileEditTheorems.AnySortAgrees | internal/node/file_edit.go:282 | Any two sorted arrangements of the same disjoint ranges are equal, so an unstable sort does not matter |
| FileEditTheorems.OrderDoesNotMatter | internal/node/file_edit.go:257-301 | Every ordering of the edit list is accepted alike and gives the same file |
| FileScan.SplitValidUtf8Chunk | internal/node/file_read.go:442-456 | A chunk is split at its longest valid prefix, and refused exactly when more than three bytes, or at the end any, would stay pending |
| FileScan.PendingExtended | internal/node/file_read.go:158-171 | Validating pending bytes and a chunk together validates the file read so far, with at most three bytes pending |
| FileScan.RejectedChunk | internal/node/file_read.go:442-456 | When a chunk is refused, the whole file is not valid UTF-8, whatever follows |
| FileScan.SelectBytes | internal/node/file_read.go:174-179 | After each chunk exactly the requested bytes read so far are selected |
| FileScan.SelectLines | internal/node/file_read.go:180-201 | After each chunk the selection is the requested lines of the bytes read so far, cut to the budget, and the offsets and line number are theirs |
| FileScan.SelectTail | internal/node/file_read.go:202-210 | The window is always the last bytes read, and the line count that of the bytes read |
| FileScan.CollectStarts | internal/node/file_read.go:257-268 | The starts collected in the window are those a byte-by-byte walk finds |
| FileScan.CollectedStarts | internal/node/file_read.go:257-268 | They are exactly the starts of the file's lines that begin in the window, in order |
| FileScan.SelectedStart | internal/node/file_read.go:273-283 | The start chosen among them is that of the first of the last n lines whenever that line begins in the window |
| FileScan.LinesAreCounted | internal/node/file_read.go:180-201 | The requested lines are as many whole lines as asked for, or as there are, after the ones before them |
| Lines.LastLines | internal/node/file_read.go:273-283 | The last n lines are n lines, or all there are |
| Lines.LineStartFollowsNewline | internal/node/file_read.go:190-200 | A line other than the first begins right after a newline |
| Lines.LineStartOnBoundary | internal/node/file_read.go:190-200 | In valid text every line begins on a rune boundary |
| FileRead.ScanFile | internal/node/file_read.go:117-231 | For every division into reads the file is accepted exactly when it is text, and the scan returns exactly the requested bytes, the requested lines cut to the budget, or the tail |
| FileTail.FinishTailScan | internal/node/file_read.go:234-298 | A tail read returns exactly the last n lines with their line number when they fit the budget; otherwise from the first line on that fits; and if not even the last line does, the end of the file from the first rune boundary within the budget, at most three bytes short of it |
| FileTail.TailIsDetermined | internal/node/file_read.go:234-298 | That leaves only one right answer: content, offsets, line number and the bounded flag |
| FileTail.TailLineIsRight | internal/node/file_read.go:279-296 | The line number is that of the line in which the content begins, exactly unless the file is one byte over the budget, begins with a newline and is wanted whole |
| FileTail.ATailNamesTheWrongLine | internal/node/file_read.go:279-296 | An empty line and a line of exactly the budget: the last two lines are answered with the second, called the first |
| FileTail.TrimWindow | internal/node/file_read.go:242-256 | A window that begins inside a rune loses only that rune's continuation bytes, at most three |
| FileTail.CutTail | internal/node/file_read.go:285-296 | Content over the budget is cut at the front to the first rune boundary within the budget |
| FileRead.ValidateChunk | internal/node/file_read.go:158-171 | One read keeps the validated prefix and its pending bytes, or shows that the file is not text |
| FilePaging.TrimIncompleteUtf8Suffix | internal/node/capabilities.go:288-299 | It gives the longest valid prefix, and succeeds exactly when that drops at most three bytes |
| FilePaging.ValidateReturnedUtf8 | internal/node/file_read.go:506-516 | The returned text is the longest valid prefix, and only a selection that may end inside a rune may lose bytes |
| FilePaging.FileReadV2 | internal/node/file_read.go:41-106 | What file.read returns for each selection, and that an answer is marked truncated exactly when it is not the whole file |
| FilePaging.PageFromBoundary | internal/node/file_read.go:76-88 | A page read at a rune boundary is valid text that ends on one, and is empty exactly when the next rune is longer than the limit |
| FilePaging.PagingCompletes | internal/node/file_read.go:41-134 | A client that reads at offset + bytesRead gets through a text file exactly when its limit is not refused and no rune is longer than a page; the pages are then non-empty text and concatenate to the file |
| FilePaging.PagingWithFourBytes | internal/node/file_read.go:41-134 | Every accepted limit of four bytes or more, and the default, gets through every text file |
| FilePaging.ThreeBytesGetStuck | internal/node/file_read.go:126-134 | With three bytes a single four-byte rune is never delivered |
| CloudResult.CloudResultPages | internal/node/result.go:159-176 | The page loop terminates on any bytes with the specified pages |
| CloudResult.PagesPartition | internal/node/result.go:159-176 | The pages concatenate to the input; each is non-empty, at most 1 MiB, and all but the last within three bytes of it |
| CloudResult.PagesOfTextAreText | internal/node/result.go:159-176 | If the input is valid UTF-8, every page is |
| CloudResult.CloudResultPageCount | internal/node/result.go:178 | The count is the number of those pages |
| JobEvents.EventWindow.AppendEventLocked | internal/node/jobs.go:653-683 | The retained events stay the contiguous end of the job's log, numbered, with their exact text size |
| JobEvents.EventWindow.TrimWindow | internal/node/jobs.go:675-680 | The trimming loop never indexes an empty list, terminates, and gives the specified window |
| JobEvents.EventWindow.SnapshotAfter | internal/node/jobs.go:741-765 | A snapshot holds the retained events after the cursor, and the cursors of the window |
| JobEvents.TrimDropsLeast | internal/node/jobs.go:675-680 | Trimming drops a prefix, and not one event more than the limits require |
| JobEvents.TrimFits | internal/node/jobs.go:675-680 | What trimming leaves is at most 1024 events and 96 KiB of text |
| JobEvents.OversizedEventIsLost | internal/node/jobs.go:675-680 | An event whose text alone exceeds the limit empties the window, itself included |
| JobEvents.EventsAfterIsSuffix | internal/node/jobs.go:759-763 | The events after a cursor are exactly those of higher sequence: a suffix of the window |
| JobEvents.EveryEventOnce | internal/node/jobs.go:741-765 | A client that feeds back NextCursor gets, over any run, every event once and in order, except exactly those already truncated |
| JobSpec.RestoredJob | internal/node/jobs_persistence.go:241-277 | After a restart a job keeps its key; a terminal job is unchanged; any other is terminal or unknown, never running |
| JobAnswers.JobEndsAs | internal/node/jobs.go:701-728 | The end of a process makes its job completed if it exited cleanly; otherwise canceled after a stop by the user, the shutdown or a lost permission, expired after a timeout, failed in all other cases; with its exit code and time, and no other job changes |
| JobAnswers.JobBeginsAs | internal/node/jobs.go:304-341 | A launched job runs, under the key of its start, and has neither an end nor an exit code |
| JobAnswers.JobRecoversAs | internal/node/jobs_persistence.go:204-230 | An unknown job whose process is confirmed stopped is interrupted at that time |
| JobAnswers.JobIsFoundAs | internal/node/jobs_persistence.go:241-277 | A restart finds an unfinished job interrupted or unknown, by whether its process is confirmed stopped, an unrecognised one unknown, and every other as it was written |
| JobAnswers.FoundIsOnDisk | internal/node/jobs_persistence.go:232-282 | After a start that could save, the ledger says of every job what memory says |
| JobManager.JobStore.Replace | internal/node/jobs_persistence.go:94-127 | Either the new records are installed or the old ones stay |
| JobManager.JobStore.Load | internal/node/jobs_persistence.go:72-92 | Loading gives the stored records exactly when they can be read |
| JobManager.Jobs.constructor | internal/node/jobs.go:135-154 | Opening the manager: no store, a failed load, or the recovered ledger |
| JobManager.Jobs.RestorePersistedJobs | internal/node/jobs_persistence.go:232-282 | The restore loop fills the maps as specified and rewrites the ledger only if a record changed |
| JobManager.Jobs.PersistedRecordsLocked | internal/node/jobs_persistence.go:284-298 | The records written are the jobs in order, each with its key's hash, and the extra record last |
| JobManager.Jobs.PersistLocked | internal/node/jobs_persistence.go:300-305 | A save replaces the ledger by those records or leaves it |
| JobManager.Jobs.PersistStartingLocked | internal/node/jobs_persistence.go:307-313 | The write-ahead record is added to the ledger only, not to memory |
| JobManager.Jobs.PersistJob | internal/node/jobs_persistence.go:315-332 | Saving after a change of one job, with the caller's reaction to a failure |
| JobManager.Jobs.CleanupLocked | internal/node/jobs.go:585-613 | The sweep evicts as specified and rewrites the ledger |
| JobManager.Jobs.EvictLoop | internal/node/jobs.go:585-609 | The in-place filter of the order keeps order, jobs and keys as specified |
| JobManager.Jobs.Admit | internal/node/jobs.go:175-234 | The first critical section: every refusal, replay, wait, limit and reservation |
| JobManager.Jobs.Launch | internal/node/jobs.go:295-338 | The launch section runs only while the reservation is held; otherwise nothing changes |
| JobManager.Jobs.LaunchReserved | internal/node/jobs.go:304-338 | Each of its four ends is reached exactly on the system's answers that lead to it, and leaves memory and ledger as specified |
| JobManager.Jobs.RollBack | internal/node/jobs.go:326-334 | A failed commit takes the job, its order entry and its key out again |
| JobManager.Jobs.Abandon | internal/node/jobs.go:239-255 | The deferred clean-up drops only its own reservation |
| JobManager.Jobs.Finish | internal/node/jobs.go:693-739 | The end of a process settles the job's state, exit code and last event |
| JobManager.Jobs.RecoverUnknown | internal/node/jobs_persistence.go:204-230 | An unknown job becomes interrupted only when its process is confirmed stopped |
| JobLedger.WrittenLedger | internal/node/jobs_persistence.go:284-305 | The ledger written from memory lists every job once, under distinct non-empty keys, and has exactly the keys of memory |
| JobLedger.CleanedStructure | internal/node/jobs.go:585-613 | A sweep keeps the manager's structure, evicts only terminal jobs, and a key goes exactly with its job |
| JobRetention.CleanedExactly | internal/node/jobs.go:585-613 | A sweep drops a job exactly when it is terminal and either finished more than a day before or is the first terminal one of a manager that holds 128; its key goes with it, and all else stays |
| JobLedger.RestoredStructure | internal/node/jobs_persistence.go:232-282 | A restart rebuilds a well-formed manager with one job and one key per record |
| JobLedger.RestoredJobs | internal/node/jobs_persistence.go:241-277 | Every job after a restart is the recovery of its own record |
| JobSystemInvariant.HeldKeyIsFree | internal/node/jobs.go:295-338 | When a start holds its reservation, its key has no job, there is room for one, and the ledger has been read |
| JobSystemInvariant.CoreAfterStep | internal/node/jobs.go:160-394 | Every step of every thread, every failed save, crash and restart keeps the invariant; every step but the erasing sweep keeps the promised keys on disk and in memory |
| JobRuns.ReachableShape | internal/node/jobs.go:213-255 | In every reachable state the order lists exactly the jobs once; keys and jobs are in bijection, and so are reservations and the starts that have not dropped theirs; reserved keys have no job; jobs and reservations stay within 128; tokens equal reservations, teardowns and runs, at most 16 |
| JobRuns.OneOwnerPerReservation | internal/node/jobs.go:235-255 | Every start holds its own reservation or is tearing down, so their numbers add up |
| JobTheorems.OnlyDueJobsAreEvicted | internal/node/jobs.go:585-613 | No step evicts a key but with a job that is due in that sense |
| JobTheorems.DueJobsAreSwept | internal/node/jobs.go:531-545 | The hourly sweep evicts exactly the keys whose jobs are due |
| JobTheorems.YoungJobsAreKept | internal/node/jobs.go:585-613 | In every run, a key on record whose job has not ended, or ended within a day, is still on record after any admission or sweep of a manager that held fewer than 128 jobs |
| JobAnswers.RepeatedRequestIsAnswered | internal/node/jobs.go:184-197 | In every run, the request a standing launch was made for is answered with its job, and any other request under the key with a conflict, across all crashes until the job is evicted |
| JobAnswers.StartingKeyIsAnswered | internal/node/jobs.go:198-209 | While a start is under way its own request is told to wait, and any other under the key of a conflict |
| JobAnswers.NewRequestIsAnswered | internal/node/jobs.go:175-234 | In every reachable state, a new key is admitted exactly when the manager is open, its store whole, the clean-up saved, and there is room: fewer than 128 jobs and reservations after it, fewer than 16 starts and runs |
| JobTheorems.StandingIsKept | internal/node/jobs.go:295-343 | A launch that was acknowledged, or that a crash interrupted at any point until its failure was reported, is on record afterwards exactly unless the crash orphans it |
| JobTheorems.LaunchIsNotRepeated | internal/node/jobs.go:175-343 | A launch that was acknowledged or interrupted by a crash, also between a failed commit and the kill, is not repeated for its key until its job was due and evicted in between, but for an orphaning crash and the erasing sweep |
| JobTheorems.OrphansExactlyWhenRewritten | internal/node/jobs.go:326-334 | In every run, a crash after a failed commit and before its report orphans the launch exactly when somebody rewrote the ledger since that commit, or the crash itself does |
| JobTheorems.RewritingDropsRecord | internal/node/jobs_persistence.go:284-332 | Every successful rewriting of the ledger, by any operation, drops the "starting" record of such a launch |
| JobTheorems.BegunSince | internal/node/jobs.go:326-334 | Every launch a crash can orphan has such a failed commit before it |
| JobTheorems.AnUnkilledLaunchIsRepeated | internal/node/jobs.go:326-334 | A run from an unused directory in which the sweep rewrites the ledger after a failed commit, the node crashes, and the key is launched again without an eviction |
| JobTheorems.ForgetsExactlyWhenErasing | internal/node/jobs.go:531-545 | A step forgets a key that is on record, without evicting it, exactly when it is the sweep of a manager that could not read its ledger |
| JobTheorems.ErasedIsForgotten | internal/node/jobs.go:145-149 | From every state of such a manager, its sweep and a crash leave nothing on record, whatever the ledger held |
| JobTheorems.ForgottenIsLaunched | internal/node/jobs.go:175-343 | Whenever the node is down without a record of a key, and has room, the key can be launched without an eviction |
| JobTheorems.AnAcknowledgedLaunchIsRepeated | internal/node/jobs.go:145-149 | A run from an unused directory in which that happens |
| JobFinality.ReportedStateIsFinal | internal/node/jobs.go:396-442 | Once Watch has returned a terminal state, every later state that knows the job, across crashes, has the same state and exit code |
| JobFinality.FinalExactlyWhenOnDisk | internal/node/jobs_persistence.go:232-332 | In every reachable state, a terminal state of a job is final in every continuation exactly when no record on disk carries another state or exit code |
| JobFinality.ReportedIsOnDisk | internal/node/jobs.go:396-442 | What Watch has returned is on disk as it was returned |
| JobFinality.SavedIsOnDisk | internal/node/jobs_persistence.go:315-332 | After a save that succeeds every job is on disk as it is in memory |
| JobFinality.UnsavedStateChanges | internal/node/jobs.go:693-739 | A run in which a job completes, the node crashes before the save, and the job is found in another state |
| SessionStore.Store.constructor | internal/agent/session_create_store.go:55-92 | Loading accepts a file exactly when it is readable, within the limit, valid line by line and free of repeated keys; interrupted creations are then in doubt |
| SessionStore.Store.MarkInterrupted | internal/agent/session_create_store.go:94-102 | Every interrupted creation is put in doubt, nothing else changes |
| SessionStore.Store.Encode | internal/agent/session_create_store.go:409-413 | The file lists every record exactly once, oldest first |
| SessionStore.Store.SaveLocked | internal/agent/session_create_store.go:402-454 | Memory, visible file and restorable versions after each of the three outcomes |
| SessionStore.Store.Begin | internal/agent/session_create_store.go:239-298 | Beginning a creation, with replay, conflict, legacy hash, limit and roll-back |
| SessionStore.Store.SetAttempt | internal/agent/session_create_store.go:148-178 | An attempt is attached once, to an active reservation |
| SessionStore.Store.Update | internal/agent/session_create_store.go:300-325 | A change of state is validated and taken back if it was not written, except for "in_doubt" |
| SessionStore.Store.Abort | internal/agent/session_create_store.go:193-214 | Only an active reservation is dropped |
| SessionStore.Store.ReleaseUnresolved | internal/agent/session_create_store.go:216-237 | Only a record in doubt without a session is released |
| SessionStore.Store.PrepareSessionDelete | internal/agent/session_create_store.go:327-368 | Every record of the session is marked, or all are put back |
| SessionStore.Store.FinalizeSessionDelete | internal/agent/session_create_store.go:370-400 | Every marked record of the session is dropped, or all are put back |
| SessionStore.WrittenIsLoadable | internal/agent/session_create_store.go:67-92 | A written file is loadable exactly when the records are valid and within the limit, and holds exactly them |
| SessionLedgerTheorems.FilesStayLoadable | internal/agent/session_create_store.go:148-454 | After every operation and every save outcome, memory and every version a power loss may restore can be loaded |
| SessionLedgerTheorems.AgreementExactly | internal/agent/session_create_store.go:300-325 | Marking the visible file and marking memory give the same keys, hashes and states, except after exactly one kind of unwritten update |
| SessionLedgerTheorems.RestartSeesMemory | internal/agent/session_create_store.go:67-102 | A restart then finds the keys, hashes and states of memory, with interrupted creations in doubt |
| SessionLedgerLaws.DropsExactly | internal/agent/session_create_store.go:193-400 | A key leaves the ledger exactly by an installed abort of a reservation, release of a doubt without a session, or end of the deletion of its session |
| SessionLedgerLaws.OthersStay | internal/agent/session_create_store.go:148-454 | An operation leaves every record it is not about as it was, but for the doubt a save that is not durable puts creations under way in |
| SessionLedgerLaws.UpdateStores | internal/agent/session_create_store.go:300-325 | When an update is done, refused, or not saved, and what memory and file hold then |
| SessionLedgerLaws.AttemptIsAttachedOnce | internal/agent/session_create_store.go:148-178 | An attached attempt is confirmed when asked for again, and any other meets a conflict |
| SessionLedgerLaws.AttemptNeedsReservation | internal/agent/session_create_store.go:148-178 | An attempt is missing its record exactly when the key is not reserved, and a valid first one is attached |
| SessionLedgerLaws.DeletionGoesOn | internal/agent/session_create_store.go:327-368 | A deletion goes on exactly when its marks are durable or none was needed, and then every record of the session is marked |
| SessionLedgerLaws.NewKeyIsAnswered | internal/agent/session_create_store.go:288-297 | A key that is not on record proceeds once its reservation is durable, unless 4096 are |
| SessionLedgerLaws.TrimIsExact | internal/agent/session_create_store.go:327-335 | Trimming takes the white space off both ends, all of it and nothing else |
| SessionDivergence.DivergenceHappens | internal/agent/session_create_store.go:317-323 | A run from an unused directory in which a session is deleted during its first turn, the turn ends unclearly, and the update that cannot be written leaves memory and file in different states |
| SessionDivergence.DivergenceIsAsked | internal/agent/manager.go:1129-1140 | A request of the program asks for the steps of that run |
| SessionTheorems.HeldStays | internal/agent/manager.go:1098-1303 | Every step that strands no call keeps each issued or reserved key in memory and in every restorable version |
| SessionTheorems.CreatedAtMostOnce | internal/agent/manager.go:1098-1303 | Without a stranded call, the provider is asked at most once per key between an abort after a definitive refusal, a release, or a finished deletion |
| SessionTheorems.StrandedIsRepeated | internal/agent/manager.go:1140-1160 | Two calls ask the provider for one key once a call is stranded |
| SessionTheorems.StrandingIsRepeated | internal/agent/session_create_store.go:216-237 | Every step that strands a call can be continued into two creations with nothing freed in between |
| SessionQuiet.EveryFileLoads | internal/agent/session_create_store.go:67-92 | In every run, every file a crash may leave is accepted; a start fails only on a file it cannot read |
| SessionQuiet.ReplaysOwnSession | internal/agent/session_create_store.go:271-286 | In every run, a replayed result names a session the provider made for that very key |
| SessionAnswers.ResultsAreEarned | internal/agent/session_create_store.go:271-286 | In every run, a request is answered with a result only if an earlier call for its key completed with that result and it was recorded then |
| SessionAnswers.UnrecordedIsInProgress | internal/agent/session_create_store.go:281-283 | While the call has not recorded its session, its request is answered in progress, or in doubt after a save that was not durable; another request meets a conflict |
| SessionAnswers.RecordedIsInDoubt | internal/agent/session_create_store.go:274-280 | Once the call has recorded its session, and while it is under way, its request is answered in doubt |
| SessionAnswers.DoubtIsAnswered | internal/agent/session_create_store.go:274-280 | So it is once the call has put its key in doubt, however the save went, across all crashes, until the key is released or the deletion of its session begins |
| SessionAnswers.DeletionIsAnswered | internal/agent/session_create_store.go:283-286 | So it is once the deletion of an acknowledged session is durably marked, until the key is freed |
| SessionOutcomes.SuccessWasAccepted | internal/agent/manager.go:1194-1270 | A call completes only after Codex accepted its first turn, if it asks for one, or, for Claude Code, its visibility was saved |
| SessionOutcomes.AbortWasRefused | internal/agent/manager.go:1160-1172 | A call gives its key back only after the provider definitely refused |
| SessionOutcomes.CleanUpWasRefused | internal/agent/manager.go:1229-1235 | A call deletes its session only after Codex refused its first turn |
| SessionOutcomes.AnswerLeadsTo | internal/agent/manager.go:1158-1270 | What each answer of the provider leads to, for both providers |
| SessionQuiet.OrderlyStays | internal/agent/manager.go:726-799 | A quiet step keeps one call per key, each call's record fitting its progress, and memory in agreement with the file |
| SessionQuiet.QuietRuns | internal/agent/manager.go:636-708 | In a quiet run a key has at most one call, at most one creation between frees, and a restart at any moment would find what memory holds |
| SessionReplay.AcknowledgedIsReplayed | internal/agent/manager.go:1123-1160 | In a quiet run, from whatever files, once the caller was told of success, every request with that key is answered, across all crashes until the deletion of that session begins: with the same result if it asks for the same, and otherwise with a conflict |
| SessionReplay.OldRecordIsReplayed | internal/agent/session_create_store.go:239-286 | A result an older version recorded, under the digest without visibility, keeps that hash or takes the current hash of the same request, whatever the saves come to; the request is replayed before and after (a migration that is not durable reports the failed save), any other meets a conflict, as does, until the hash is replaced, one that says the default visibility outright |
| SessionReplay.AskingMigrates | internal/agent/session_create_store.go:249-269 | Asking for such a record replaces its hash in memory and in the visible file exactly when the save is installed, and keeps its result |
| SessionReplay.StrandingIsAsked | internal/agent/manager.go:1129-1140 | Requests of the program ask for the steps of the run that strands a call |
| SessionRequests.HashesTellRequestsApart | internal/agent/session_visibility.go:177-192 | A current hash is never offered as a legacy hash; equal current hashes are hashes of the same request, and a legacy hash is offered only by a request for the same that names no visibility |
| SessionRequests.ResolvedIsConsistent | internal/agent/session_visibility.go:64-142 | What a request says of visibility comes to one of four specs, and saying that spec outright comes to it again |
| SessionRequests.ResolvedExactly | internal/agent/session_visibility.go:64-142 | A request is resolved to the one spec its provider offers that fits what it says and the defaults of what it leaves out, and refused exactly when none does |
| SessionRequests.AcceptedKeyIsValid | internal/agent/manager.go:1116-1119 | A key the program accepts is never refused as invalid by the ledger |
| SessionReplay.StrandingHappens | internal/agent/session_create_store.go:446-452 | A run in which an unsynced save for another key and a release strand a call |
| CodexProcess.CodexAdapter.Publish | internal/agent/codex_adapter.go:471-489 | A new process gets the next generation, unless the adapter is closed |
| CodexProcess.CodexAdapter.Register | internal/agent/codex_adapter.go:621-637 | A request is registered under the running generation, or refused without one |
| CodexProcess.CodexAdapter.RegisterOnTarget | internal/agent/codex_adapter.go:680-696 | It is registered on a captured process only while that is current and not quarantined |
| CodexProcess.CodexAdapter.TakeResponse | internal/agent/codex_adapter.go:842-855 | A response takes a waiter out only if the waiter's generation is the reader's |
| CodexProcess.CodexAdapter.Quarantine | internal/agent/codex_adapter.go:728-743 | Only the current, running, open generation is quarantined |
| CodexProcess.CodexAdapter.Finish | internal/agent/codex_adapter.go:1150-1172 | The exit of a generation takes exactly its waiters out, once each |
| CodexRuns.OneMessageFromItsGeneration | internal/agent/codex_adapter.go:833-858 | In every run a waiter's one-slot channel is empty when it is sent to and gets at most one message, from the generation its request was written to |
| CodexRuns.NobodyWaitsForAnExitedProcess | internal/agent/codex_adapter.go:1150-1232 | Once a generation has exited, each of its requests that still waits has a message in its channel or on the way |
| CodexDelivery.ResponseIsTaken | internal/agent/codex_adapter.go:842-858 | A response read from the process its request was written to, while the caller waits and nothing else is there for it, is on its way to the caller, who is no longer pending |
| CodexDelivery.ResponseReachesItsCaller | internal/agent/codex_adapter.go:842-858 | From then on, in every run, the caller finds that very message on the way or in its channel, and receives it |
| CodexDelivery.ForeignLineChangesNothing | internal/agent/codex_adapter.go:842-855 | A line with the number of a request of another process, or of none, changes nothing |
| CodexDelivery.ExitIsTold | internal/agent/codex_adapter.go:1150-1232 | The exit of a process is told to each of its waiting requests, and to no other |
| CodexDelivery.QuarantineFences | internal/agent/codex_adapter.go:728-743 | Quarantining the running process of an open adapter fences it; of any other generation it changes nothing |
| CodexDelivery.FencedInRun | internal/agent/codex_adapter.go:333-357 | A fenced process stays fenced: it takes no request that names it, and whoever looks at it waits for its exit |
| CodexDelivery.FitProcessServes | internal/agent/codex_adapter.go:333-357 | A running process that is not fenced is found fit, takes requests, and is read |
| CodexDelivery.ProcessComesAndGoes | internal/agent/codex_adapter.go:471-489 | A process is published fit as the next generation, and leaves nothing behind when it exits |
| CodexRuns.PublishedAfterEveryExit | internal/agent/codex_adapter.go:333-414 | A process is published only after every earlier one has exited |
| CodexRuns.NothingPublishedAfterClose | internal/agent/codex_adapter.go:455-489 | After Close no generation is published |
| SessionLocks.LoadLocks.Enter | internal/agent/codex_adapter.go:2254-2265 | A thread gets the session's current lock, or makes one, and is counted |
| SessionLocks.LoadLocks.Acquire | internal/agent/codex_adapter.go:2267 | Taking a free lock keeps every lock's count and holder right |
| SessionLocks.LoadLocks.Unlock | internal/agent/codex_adapter.go:2269 | So does letting go of it |
| SessionLocks.LoadLocks.Leave | internal/agent/codex_adapter.go:2270-2275 | The lock goes with the last thread inside, and only then |
| SessionLocks.MutualExclusion | internal/agent/codex_adapter.go:2254-2277 | Two threads never hold the lock of one session |
| SessionLocks.OneLockPerSession | internal/agent/codex_adapter.go:2254-2277 | Threads share a lock object exactly when they are inside for the same session |
| SessionLocks.LocksAreInUse | internal/agent/codex_adapter.go:2270-2275 | The map holds exactly the sessions with a thread inside, and is empty when there is none |
| SessionLocks.WaiterCanAcquire | internal/agent/codex_adapter.go:2267 | A thread that waits while nobody holds the session's lock finds it free |
| ClaudeTurn.ClaudeCodeAdapter.Reserve | internal/agent/claude_adapter.go:361-383 | A turn is reserved only on a known session without an active one |
| ClaudeTurn.ClaudeCodeAdapter.PersistStart | internal/agent/claude_adapter.go:450-482 | The start is recorded, taken back, or left interrupted, by the outcome of the save |
| ClaudeTurn.ClaudeCodeAdapter.Recheck | internal/agent/claude_adapter.go:483-499 | A turn cancelled meanwhile is rolled back instead of started |
| ClaudeTurn.ClaudeCodeAdapter.PublishCommand | internal/agent/claude_adapter.go:515-527 | A turn cancelled while it started is killed by the starting thread |
| ClaudeTurn.ClaudeCodeAdapter.CleanUp | internal/agent/claude_adapter.go:387-393 | A failed start frees the session only of its own reservation |
| ClaudeTurn.ClaudeCodeAdapter.Cancel | internal/agent/claude_adapter.go:691-709 | An accepted cancellation is recorded and kills a known command |
| ClaudeTurn.ClaudeCodeAdapter.Close | internal/agent/claude_adapter.go:711-727 | Closing cancels every active turn |
| ClaudeTurn.ClaudeCodeAdapter.WaitRun | internal/agent/claude_adapter.go:645-689 | The exit of a process frees its session and settles a running status |
| ClaudeRuns.OneRunPerSession | internal/agent/claude_adapter.go:361-393 | In every run a session has at most one turn that is not over |
| ClaudeRuns.AcceptedCancelStopsTheTurn | internal/agent/claude_adapter.go:691-727 | An accepted cancellation prevents the start of a turn not yet cleared for it, and otherwise a kill has been ordered by the time its command is known |
| ClaudeRuns.EarlierTurnsAreSilent | internal/agent/claude_adapter.go:541-552 | Once a later turn is reserved, no earlier turn of the session writes its record again, by output, exit or roll-back |
| ClaudeRuns.CanceledExactly | internal/agent/claude_adapter.go:691-727 | A turn counts as cancelled exactly when it was cancelled, or the adapter closed, while it was active |
| ClaudeRuns.TurnBeginsAs | internal/agent/claude_adapter.go:450-482 | What recording the start of a turn makes of its session, by the outcome of the save |
| ClaudeRuns.TurnEndsAs | internal/agent/claude_adapter.go:645-689 | The exit of a process frees its session, and makes a running one canceled, failed or completed by whether the turn was cancelled and the process failed |
| ClaudeRuns.ResultLineSettles | internal/agent/claude_adapter.go:603-630 | A result line sets status and result of the session |
| ClaudeRuns.DeletionSparesActive | internal/agent/claude_adapter.go:843-862 | A session with a turn that is not over is never deleted; any other goes with the save |
| ClaudeTurn.ClaudeCodeAdapter.Rename | internal/agent/claude_adapter.go:797-820 | The name changes, and nothing else, unless the change was not written |
| ClaudeTurn.ClaudeCodeAdapter.SetArchived | internal/agent/claude_adapter.go:822-841 | So does the archive flag |
| ClaudeLabels.LabelsChangeExactly | internal/agent/claude_adapter.go:483-513 | In every run, a step that neither labels, creates nor removes the session changes its labels exactly when it rolls back, and writes, a start of the session recorded over other labels |
| ClaudeLabels.SafeExactlyWhenUnexposed | internal/agent/claude_adapter.go:451-513 | The labels of a session are kept in every continuation in which nobody labels it exactly when no turn of it is starting over other labels |
| ClaudeLabels.StartTakesBack | internal/agent/claude_adapter.go:483-513 | From every such moment, a cancellation before the start is cleared, or a failed start after, puts the old record back |
| ClaudeLabels.LabelGivenInPeaceStays | internal/agent/claude_adapter.go:797-841 | In every run, a name or archive flag acknowledged while no turn of the session is starting stays until somebody labels the session again |
| ClaudeLabels.RenameIsLostToCancel | internal/agent/claude_adapter.go:483-498 | A run in which an acknowledged rename is undone by a cancellation |
| ClaudeLabels.RenameIsLostToFailedStart | internal/agent/claude_adapter.go:500-513 | A run in which it is undone by a process that does not start |
| ReleaseDrain.Client.Admit | internal/node/run.go:211-247 | A request is admitted exactly while fewer than eight hold a token |
| ReleaseDrain.Client.Check | internal/node/capabilities.go:117-120 | A request passes exactly when no drain is set |
| ReleaseDrain.Client.BeginDrain | internal/node/activity.go:64-72 | A second drain is refused at once |
| ReleaseDrain.Client.ReadRequests | internal/node/activity.go:37-44 | The drain sees the tokens in use, under the activity lock |
| ReleaseDrain.Client.DecideDrain | internal/node/activity.go:70-75 | The drain begins exactly when nothing it read was busy |
| ReleaseDrain.DrainExcludesRequests | internal/node/activity.go:64-94 | In every run, from the begin of a drain to its end, no request past the check is executing and none passes it |
| ReleaseDrain.DrainBeginsExactly | internal/node/activity.go:37-75 | A drain begins exactly when no request held a token when they were counted and none of the others was busy when asked after that |
| ReleaseDrain.RequestsAreServed | internal/node/run.go:211-247 | In every run a request is admitted exactly while fewer than eight are, and passes its check exactly when no drain is on |

## Left out

- Reading and decoding of parameters, digests, JSON, log files, timers and error texts: plumbing whose outcomes are choices of the environment here.
- Job objects are values in the manager's map, so the sharing of one `*Job` by several goroutines is one step at a time; the channels that wake watchers and waiting starts are not modelled, only what they do next.
- CancelAll beyond closing the manager: its cancellations and reports are the same steps as Finish, GiveUp and Report.
- Events of a job across a crash: they are not saved on each append, so cursors are followed within one process only.
- Line numbering of file.read, its line end, planFileCreate and the bounded diff of an edit: easy members with no effect on the content.
- SessionAnswers.DoubtIsAnswered: assumes a session identifier that can be recorded; the ledger refuses a doubt about any other, and its key stays in progress until the next start.
- SessionStore.Store.Encode: the order of records with equal times is left open, as the program's sort leaves it.
- setAttempt has no caller in the create protocol and takes part in the ledger's theorems only.
- SessionRequests: trimming and lower-casing of the visibility fields; the fields of a request other than those are one text as they are hashed, so a model that is resolved differently later makes a different request.
- Creations without an idempotency key, session visibility files and the archiving of a thread after a failure: they do not touch the ledger.
- SessionLocks.LoadLocks.Enter: lock objects are entries of a table under their identity, so a lock that left the map is not collected.
- CodexProcess: configuration errors of the app-server, notifications, active turns and the wait of Close for a publication in progress.
- ClaudeTurn: usage, routes and events of a turn; a process tree that survives a kill; the time a record was last changed.
- ReleaseDrain: requests of the local bridge, which take no token and are not excluded by a drain.
- Processes, pipes, sockets, the Hub, Git, search engines, the browser, the local UI and the MCP server.
