# changeflow, verified

changeflow copies a MySQL table into a destination that keeps one document per key and accepts a
write only if its version is higher than the one it holds. It scans the table, then follows the
binlog from where the scan began; it transforms, batches and writes, and only then saves a
position. This project models that pipeline in Dafny and proves what it promises.

`dafny verify dfyconfig.toml` checks everything.

## How it is laid out

- **The protocol.** `Documents`, `Source`, `Checkpoints` and `Batching` are its parts. `Protocol` is a
  step machine: the source commits, a scan reads chunks, the reader reads changes, the pipeline takes
  events, batches, sends and acknowledges; requests arrive late or twice; documents are refused; the
  process dies at any moment and starts again; versions are reserved by loading and saving the very row
  that records the position. `Invariant` states what every state satisfies,
  `Preservation`, `TakeSteps`, `BatchSteps`, `AckSteps`, `SystemSteps` and `Steps` prove it step by step,
  and `Convergence` draws the conclusions. `LostRow` is about the runs in which the code does lose a row,
  `TwoEndings` about those in which a change that cannot be encoded makes the destination differ.
- **The code that takes those steps.** `Runners` (the write-then-record loop), `Handoff` (how a stream
  begins and how a scan ends), `Binlog` and `Replay` (the reader), `Keyset` and `Chunks` (the scan) and
  `Sequence` (version numbers), each tied to the steps of the protocol.
- **The sinks.** `Clusters`, `Sinks` and `BulkSink` for Elasticsearch, `InsertSink` and `InsertTokens` for
  ClickHouse. The servers are nondeterministic: they may answer anything, only good news is reliable.
  Whatever may fail counts its failures, and `Contexts` is the caller's leave to go on, so that a method
  can say on which grounds it may give up.
- **The text.** `Text`, `KeyText`, `JsonText`, `BulkText`, `RowText`, `Members`, `MemberNumbers`, `Bodies`
  and `Transform`; `Examples` has the texts themselves on small inputs, byte for byte.
- **Many streams.** `Routing`, and `Fanout`, which ties its queues to the log and its reader.

The main results:

1. At every moment of every run whose scan is done, each key holds the value the source had at some
   prefix of the log no shorter than the saved position; a drained run equals the source
   (`EveryKeyIsAtSomePrefix`, `DrainedEqualsSource`, `DrainedWithoutDeadLetters`). There are three
   exceptions, key by key: a document newer than what the destination holds was refused (`Unresolved`),
   a crash skipped the key's row and nothing was written for it since (`Missed`), or no document tells how
   the key stands: its row cannot be encoded, or its last change since the scan began could not be
   (`Untold`). The third is characterised: a drained run equals the source at a key exactly when the value
   was conveyed (`DrainedExactlyWhen`), otherwise the key shows what its last encodable change put
   (`DrainedHoldsTheLastEncoded`), and without one it is left to the moment its page was read
   (`MoveHasTwoEndings`, `UpdateHasTwoEndings`). Before it has drained a key shows what an encodable change
   put at some such prefix (`EveryKeyShowsAnEncodedChange`). Whatever happens, nothing is shown that the
   source never held (`NothingIsInvented`).
2. The code moves only by steps of that protocol, and gives up only on grounds outside it: the loop
   (`Runners.Runner.Run`, `PathExtendsRun`), the
   reader's emissions (`ReadingIsAStep`, `NextEmissionIsAStep`), the scanner's pages (`SentPageIsAStep`)
   and the hand-over between them (`BeginningIsAStep`, `FinishingIsAStep`).
3. Two more promises fail, each exactly characterised. A crash right after a batch overflow can lose the
   row the saved cursor names: in any run in which a never-sent document overtakes its cursor, four steps
   lose it (`OvertakingCanLoseTheRow`) and no continuation brings it back unless the source changes it
   (`GoneForGood`). One crash skips at most one row (`ACrashSkipsAtMostOne`); the cursor runs ahead if and
   only if a document overflows a batch without filling one alone (`CursorRunsAheadExactlyOnOverflow`),
   and without that no crash skips anything (`WithoutOvertakingNothingIsSkipped`). A version drawn after a
   restart rises if and only if the stored watermark or the clock is past the earlier ones
   (`VersionsRiseExactlyWhenPast`), which the stale copy saved when a scan starts leaves to the clock
   (`StaleScanStart`).
4. Smaller exact conditions: one-column keys can clash with a digest (`KeysAgreeExactlyWhen`), ClickHouse
   cannot be sent a row that moved to another key (`ClickHouseTakesExactly`), insert tokens do not
   identify batches across a resumed scan (`TokensAgreeExactlyWhen`), where a server that drops repeated
   tokens loses rows for good (`ResumedBatchIsDropped`, `LostRowIsNotSentAgain`), a bulk body keeps its
   framing unless a raw column holds a line feed (`LinesExactlyWhen`, `BodyIsOneLineExactlyWhen`), and
   isolation gives up on a batch only above 2048 rows (`AtMost2048RowsAlwaysNarrow`).

The convergence results are about one stream that uses one allocator, starts from its own recorded
position, and scans the source itself. Crashes fall anywhere. In the protocol a failed write or a failed
drain is a crash as well: what was on its way is forgotten and the stream starts again, so one that
fails between saving a cursor and writing the one row it overtook skips that row. A version drawn for
streaming is above the scan's and above all earlier ones, which `Sequence` shows when to expect. Reserving
versions may put the saved position back to an earlier one of the same run; the results hold all the same.
A transaction that changes rows ends in a commit event; `UncommittedRowsLeaveAHole` shows why that matters.

## Model

| member | source | states |
|---|---|---|
| `Documents.HighestVersionWins` | internal/sink/elasticsearch/bulk.go:246-248 | whatever arrives in whatever order, a key ends at the highest-version document that was there or arrived, and no key appears or disappears otherwise |
| `Documents.DeliveryOrderIsIrrelevant` | internal/sink/elasticsearch/bulk.go:94-125 | two deliveries of the same documents, reordered and repeated at will, leave the same destination |
| `Documents.LateArrivalIsHarmless` | internal/sink/elasticsearch/bulk.go:94-125 | a request of a dead run that arrives after a newer document changes nothing |
| `Checkpoints.MemoryStore.Load` | internal/checkpoint/memory.go:28-37 | the stored row, or none, or a failure that is counted |
| `Checkpoints.MemoryStore.Save` | internal/checkpoint/memory.go:40-52 | one row replaced whole, the others kept; a failure is counted, and may have gone through |
| `Checkpoints.MemoryStore.OthersReserve` | internal/checkpoint/seq.go:68-97 | another writer reserves versions any number of times, each time loading the row and later saving what it loaded: the row ends as it was or as it was when some reservation loaded it, but for watermark and schema version |
| `Batching.Batcher.Add` | internal/pipeline/batcher.go:51-68 | batch and remainder are those of the specification `Added`; the flush clock starts with the oldest pending document |
| `Batching.Batcher.Append` | internal/pipeline/batcher.go:70-76 | the document and its size are added; the clock starts only on an empty batch |
| `Batching.Batcher.FlushPending` | internal/pipeline/batcher.go:97-106 | everything pending is handed over in order and nothing stays |
| `Batching.Batcher.NextDeadline` | internal/pipeline/batcher.go:88-93 | a deadline exactly when something is pending, one interval after the oldest document came |
| `Batching.HistoryKeepsOrderAndLimits` | internal/pipeline/batcher.go:51-106 | over every history of Add and Flush: batches followed by pending are the inputs in order, pending is strictly below both limits, every batch keeps to MaxRows and, unless its last document alone reaches it, to MaxBytes |
| `Batching.HeldBackExactlyOnOverflow` | internal/pipeline/batcher.go:58-62 | a batch leaves the document that completed it behind exactly when that document overflows a non-empty batch and does not fill one alone |
| `Batching.AddedIsForced` | internal/pipeline/batcher.go:51-68 | what adding a document does is the only way to lose and move none, keep to the limits, and hand no batch over before it is full or the next document would overflow it |
| `Protocol.RecordedExactly` | internal/pipeline/runner.go:259-285 | a save changes the position, the cursor with its row count, the time and a missing schema version, each only if the mark has one, and nothing else |
| `Protocol.MarkIsLatest` | internal/pipeline/runner.go:176-189 | over any events, the mark has the last position, the last cursor with its own row count, and the latest time |
| `Source.LatestIsTrue` | internal/pipeline/runner.go:168-175 | what the documents made since the scan began tell of a key is what the source holds, and they never tell of a row that cannot be encoded |
| `Source.LatestExactlyWhen` | internal/pipeline/runner.go:168-175 | they tell nothing exactly when the row cannot be encoded or its last change since the scan began could not be |
| `Convergence.RunKeeps` | internal/pipeline/runner.go:128-285 | the inductive invariant holds in every state of every run, through failures, partial writes, late arrivals, rows and changes that cannot be encoded, reservations around a save, and crashes at any moment; and it holds of the row a reservation may yet put back |
| `Convergence.EveryKeyIsAtSomePrefix` | internal/pipeline/runner.go:128-285 | in every state of every run after the scan, each key has its source value at a log prefix no shorter than the saved position, unless a document newer than what is held was refused, a crash skipped the key's row and nothing was written for it since, or at some moment since that position no document told how the key stands |
| `Convergence.EveryKeyShowsAnEncodedChange` | internal/pipeline/runner.go:168-198 | in the same states, and also where documents did not tell everything, a key shows what its last encodable change since the scan began put at a log prefix no shorter than the saved position, or had none up to there |
| `Convergence.NothingIsInvented` | internal/pipeline/runner.go:128-285 | in every state of every run, without exception, a key shows nothing or a value the source held at some moment since the scan began |
| `Convergence.DrainedEqualsSource` | internal/supervisor/snapshot.go:27-167 | a drained run equals the source at every key whose row can be encoded and whose last change since the scan began could be, with the two exceptions for refusals and skips, whatever changed during the scan and however often it was resumed |
| `Convergence.DrainedHoldsTheLastEncoded` | internal/pipeline/runner.go:168-198 | a key with an encodable change since the scan began ends with what the last such change put, whatever came after it |
| `Convergence.DrainedExactlyWhen` | internal/pipeline/runner.go:168-198 | a drained run equals the source at a key if and only if the value can be encoded and no later unencodable change hides it, for every key the log decides and every row that cannot be encoded |
| `TwoEndings.EarlyPageKeepsTheOldRow` | internal/pipeline/runner.go:168-175 | any unencodable update of a row after its page was read, in place or to another key: the run drains without refusal or skip and the old body stays |
| `TwoEndings.LatePageLosesTheRow` | internal/pipeline/runner.go:168-175 | the same update before the page is read, when it leaves one row that cannot be encoded: the drained destination has nothing |
| `TwoEndings.MoveHasTwoEndings` | internal/pipeline/runner.go:168-175 | an unencodable move to another key: of two drained runs over one table and log, one keeps the old key's body for good and one equals the source there |
| `TwoEndings.UpdateHasTwoEndings` | internal/pipeline/runner.go:168-175 | an unencodable update in place: one drained run ends with the old body, one with nothing |
| `Convergence.DrainedWithoutDeadLetters` | internal/pipeline/runner.go:128-285 | with no dead letters and nothing skipped the whole destination is the source, every row of which can be encoded, and every change since the scan began could be |
| `Convergence.SavedMeansAccounted` | internal/pipeline/runner.go:168-285 | a saved position holds a transaction only if each of its changes since the scan began was applied, stale or dead-lettered; one that could not be encoded has a letter of its own, with its version and a position that ends at or before it |
| `Convergence.CursorCoversAllButOne` | internal/pipeline/runner.go:186-196 | in every scanning state of every run, every key at or below the saved cursor is written, refused, skipped by an earlier crash, was absent at some moment since the scan began or untold at one, except at most one document still on its way; with no letter of an unencodable event, each could be encoded at some moment |
| `Convergence.ACrashSkipsAtMostOne` | internal/pipeline/runner.go:186-196 | in every state of every run a crash would skip at most one row |
| `Convergence.CursorRunsAheadExactlyOnOverflow` | internal/pipeline/runner.go:186-196 | whatever is delivered and refused in between, the save after a batch covers a row still on its way if and only if the document that completed the batch lies at or before the cursor and overflows the batch |
| `Convergence.WithoutOvertakingNothingIsSkipped` | internal/pipeline/batcher.go:58-62 | in a run in which no document overtakes its cursor, crashes at any moment skip nothing |
| `LostRow.CrashAfterOvertakingLosesARow` | internal/pipeline/runner.go:186-196 | for any idle table of two rows that overflow together, and any position to start from, a whole run that crashes in between drains with no dead letter and lacks the second row |
| `LostRow.TwoSmallRowsSuffice` | internal/pipeline/batcher.go:58-62 | such rows and limits exist |
| `LostRow.OvertakingCanLoseTheRow` | internal/pipeline/runner.go:186-241 | every run that has come to a document that overtakes its cursor, its key never sent, goes on in four steps to a stopped stream whose cursor is past the key, with nothing of it written, refused or on its way |
| `LostRow.GoneForGood` | internal/source/snapshot/scanner.go:125-161 | in every continuation the destination lacks such a row, unless the source changes it |
| `Runners.Runner.Handle` | internal/pipeline/runner.go:168-198 | moves by protocol steps only; the mark moves before the documents are added; on success exactly this event has gone through and pending is what adding its documents leaves; it fails only on the grounds of `Write`, or because an event without documents could not be dead-lettered |
| `Runners.Runner.Bury` | internal/pipeline/runner.go:169-175 | an event that cannot be encoded is dead-lettered and moves neither mark nor position |
| `Runners.Runner.AddEach` | internal/pipeline/runner.go:190-196 | adds the documents in order, writing each batch they complete, and stops at the first failed write, on its grounds only |
| `Runners.Runner.Write` | internal/pipeline/runner.go:223-241 | the position is recorded only once every document of the batch is settled, and on success it is, in the row as others left it; it fails only if a document cannot be put on the wire, the sink had a final answer, too many asking for a retry or a caller who gave up, a refusal could not be dead-lettered, or the store failed |
| `Runners.Runner.DeadLetter` | internal/pipeline/runner.go:243-257 | records the refusals in order; succeeds exactly if there is a queue and it recorded them all |
| `Runners.Runner.DeadLetterRefusals` | internal/pipeline/runner.go:235-239 | moves by refusal steps only; on success every refused document of the batch has its letter |
| `Runners.Runner.Acknowledge` | internal/pipeline/runner.go:240-240 | moves by steps only, other writers' reservations and the acknowledging step, which is taken exactly if the row was saved; fails exactly if the store did |
| `Runners.Runner.AdvancePosition` | internal/pipeline/runner.go:259-285 | saves what the mark names into the row as it was loaded, and no other field or row, or leaves the row to its other writers; others reserve before the load and between load and save; fails exactly if the store did, which may be a save that went through |
| `Runners.Runner.Flush` | internal/pipeline/runner.go:215-221 | writes whatever is pending and then records; nothing happens when nothing is pending; fails on the grounds of `Write` only |
| `Runners.Runner.Drain` | internal/pipeline/runner.go:200-213 | one more try at what is pending; something is left for the next start only on the grounds of `Write` |
| `Runners.Runner.Run` | internal/pipeline/runner.go:128-160 | terminates on every channel that closes; every state it passes is reached by protocol steps, with versions reserved by others in between; a clean end leaves nothing queued, pending or in flight, and it ends otherwise only if the caller cancels or on the grounds of `Handle` and `Flush` |
| `Runners.LateEventsChangeNothing` | internal/pipeline/runner.go:128-160 | events that reach the channel later change nothing about the steps taken before |
| `Runners.PathExtendsRun` | internal/pipeline/runner.go:128-285 | whatever the pipeline does from a state of a run is the rest of a run |
| `Runners.ReachedKeepsTheInvariant` | internal/pipeline/runner.go:128-285 | so the invariant, and everything that holds over runs, holds of the code |
| `Handoff.Supervisor.SnapshotIfNeeded` | internal/supervisor/snapshot.go:27-97 | a done row with a position begins there, and so does any recorded position without snapshots; a recorded scan is resumed; else it streams without a scan from a position it records, or records a new scan, whose row keeps the watermark loaded before the base version was drawn; it fails only without a position to start from or a version, or when the store does |
| `Handoff.Supervisor.StartWithoutSnapshot` | internal/supervisor/snapshot.go:46-66 | streams from the recorded position, else records where the source stands and streams from there; fails without one or when the save does, even one that went through |
| `Handoff.Supervisor.FinishScan` | internal/supervisor/snapshot.go:151-167 | records completion and returns the position the scan began at; fails exactly without a row, when the store fails, or, with completion recorded, when the alias cannot be promoted |
| `Handoff.BeginningIsAStep` | internal/supervisor/snapshot.go:27-97 | each of the three ways to begin with snapshots is a step of the protocol: streaming starts at exactly the position returned, scanning at the row returned |
| `Handoff.FinishingIsAStep` | internal/supervisor/snapshot.go:151-167 | so is finishing a scan, while the reader that reserves versions has not started |
| `Handoff.ScansStreamFromTheirStart` | internal/supervisor/snapshot.go:151-167 | in every run a scan under way has a start position and no later one, so streaming goes back to the start |
| `Sequence.Allocator.Next` | internal/checkpoint/seq.go:55-66 | whatever history led to the block in memory and the stored watermark, the version, the block, the watermark then stored and the saves are those of the history's next draw; it fails only if the store does or the sequence space is exhausted, and leaves its memory alone |
| `Sequence.Allocator.Reserve` | internal/checkpoint/seq.go:68-97 | a block of the right length, its last version stored as the row's watermark, every other field as loaded whatever others recorded in between; it fails only if the store does or the block does not fit the 64-bit word |
| `Sequence.BlockStartIsLeast` | internal/checkpoint/seq.go:76-82 | a block begins at the least version above the stored watermark and the block in memory and not below the clock's floor |
| `Sequence.FloorIsSpaced` | internal/checkpoint/seq.go:13-19 | the floor leaves 1024 versions to every millisecond |
| `Sequence.BlockIsFull` | internal/checkpoint/seq.go:83-86 | a block has the block size's length, and there is none exactly when it would not fit the word |
| `Sequence.ReservingIsTwoSteps` | internal/checkpoint/seq.go:68-97 | its load and its save are steps of the protocol, with any others between them, and the second may put the position back |
| `Sequence.VersionsRiseExactlyWhenPast` | internal/checkpoint/seq.go:55-97 | over any number of restarts and any other writers, versions strictly rise if and only if every first draw after a restart found the watermark or the clock past all earlier versions |
| `Sequence.VersionsRiseWithinAProcess` | internal/checkpoint/seq.go:80-82 | without restarts they rise even if another writer rolls the watermark back |
| `Sequence.VersionsRiseWhenWatermarkIsPreserved` | internal/checkpoint/seq.go:68-97 | across restarts they rise when no writer lowers the watermark |
| `Sequence.OneSavePerBlock` | internal/checkpoint/seq.go:21-25 | n draws in one process cost n divided by the block size, rounded up, saves |
| `Sequence.StaleScanStart` | internal/supervisor/snapshot.go:82-90 | after the stale save of a scan's start and a restart, the next version is above the scan's base if and only if the clock floor is |
| `Sequence.StaleScanStartWithoutRestart` | internal/supervisor/snapshot.go:82-90 | in the same process the next version follows the base whatever was saved |
| `Binlog.Streamer.Handle` | internal/source/binlog/streamer.go:191-220 | the reader's state advances as specified; the images of a row event are sent in order, each with the position before its transaction, until versions run out |
| `Binlog.Streamer.EmitUpdates` | internal/source/binlog/streamer.go:285-297 | rows are taken as before/after pairs and an odd last row is ignored |
| `Binlog.Streamer.EmitEach` | internal/source/binlog/streamer.go:299-316 | one image per row, on the side its operation asks for |
| `Binlog.ImagesAreTheRows` | internal/source/binlog/streamer.go:285-316 | update i is of rows 2i before and 2i+1 after; a deletion carries only its row before, an insertion only its row after |
| `Binlog.ImagesDoWhatTheServerDid` | internal/source/binlog/streamer.go:285-316 | replaying an event's images, each replacing its row before by its row after, takes the table before the event to the table after it |
| `Binlog.PositionIsStartPlusCommitted` | internal/source/binlog/streamer.go:191-220 | for every event sequence the position is the start plus exactly the transactions whose commit was seen |
| `Binlog.OwnTransactionIsExcluded` | internal/source/binlog/streamer.go:276-283 | a row event never carries its own transaction |
| `Binlog.OnlyFinishedTransactions` | internal/source/binlog/streamer.go:202-212 | a position holds only transactions all of whose row events came before |
| `Binlog.PositionsGrow` | internal/source/binlog/streamer.go:191-220 | positions only grow along the stream |
| `Replay.EventsSendTheTransaction` | internal/source/binlog/streamer.go:191-316 | reading a transaction event by event emits all its images under the position before it and then adds it if it commits |
| `Replay.PositionCoversEarlier` | internal/source/binlog/streamer.go:276-283 | the position a transaction's rows carry covers exactly the changes before it, rowless transactions notwithstanding |
| `Replay.ReplayIsFaithful` | internal/source/binlog/streamer.go:191-316 | restarting from any prefix position replays exactly the changes it lacks, in order, each under a position that ends at or before it |
| `Replay.ReadingIsAStep` | internal/source/binlog/streamer.go:285-316 | each emission, under a version above the scan's and all earlier ones, is the protocol's reading step |
| `Replay.NextEmissionIsAStep` | internal/source/binlog/streamer.go:191-316 | so is the next emission of a reader that started from any prefix position and is anywhere in the log |
| `Replay.UncommittedRowsLeaveAHole` | internal/source/binlog/streamer.go:202-212 | rows in a transaction without a commit event are skipped by the position saved after a later one |
| `Keyset.Table.Query` | internal/source/snapshot/scanner.go:223-265 | the rows with the least keys past the cursor, in order, none skipped |
| `Keyset.Table.ReadChunk` | internal/source/snapshot/scanner.go:202-221 | a page covers every key that was there throughout, whatever others commit around it |
| `Keyset.Snapshotter.EmitChunk` | internal/source/snapshot/scanner.go:175-200 | a page is sent in order; its last row carries its own key as cursor and the exact row count; only a cancelled send stops part of the way |
| `Keyset.Snapshotter.SendChunk` | internal/source/snapshot/scanner.go:175-200 | sends a page or a part of it and keeps the sweep of the keys sent so far |
| `Keyset.Snapshotter.Run` | internal/source/snapshot/scanner.go:125-161 | ends if others stop changing the table; keys go out strictly ascending past the start cursor, each with a row the table held; no key that never left is missed up to the last one sent, or at all when it finishes; it fails only if the caller cancels or a reading fails |
| `Keyset.SweptExactlyOnce` | internal/source/snapshot/scanner.go:125-161 | each key present throughout is sent exactly once |
| `Keyset.StaticScansAgree` | internal/source/snapshot/scanner.go:125-161 | of a static table every finished scan sends the whole table in key order, whatever the chunk size |
| `Keyset.ResumedScanSendsTheRest` | internal/source/snapshot/scanner.go:131-137 | resumed from any row's cursor it sends exactly the remaining rows |
| `Keyset.ResumedScanCompletes` | internal/source/snapshot/scanner.go:125-161 | an interrupted scan and its resumption together miss and repeat no key present throughout |
| `Chunks.PageIsChunk` | internal/source/snapshot/scanner.go:175-265 | a page of the table at any moment, sent as events, is a chunk of the protocol at that moment, whichever of its rows can be encoded then |
| `Chunks.SentPageIsAStep` | internal/source/snapshot/scanner.go:175-265 | the page read next from where a scan stands, sent as `EmitChunk` sends it, is the protocol's step that reads a chunk |
| `BulkSink.Sink.Write` | internal/sink/elasticsearch/bulk.go:94-125 | on success every document is counted once, as applied, stale or refused, by the code some answer gave it, and all but the refused reached the destination; every request is an order-preserving part of the batch; at most MaxAttempts*(2n-1) requests; it fails only if it cannot encode, is cancelled, gets a final refusal or MaxAttempts answers asking for a retry |
| `BulkSink.Sink.Attempt` | internal/sink/elasticsearch/bulk.go:135-158 | one request, or two halves when it was too large, with the same accounting |
| `BulkSink.Sink.WriteHalves` | internal/sink/elasticsearch/bulk.go:160-173 | both halves written, their results added; the second only after the first succeeded |
| `BulkSink.Sink.Classify` | internal/sink/elasticsearch/bulk.go:188-220 | succeeds exactly when the answer describes every document; then each is applied, stale, refused or to be retried |
| `BulkSink.Sink.CountItems` | internal/sink/elasticsearch/bulk.go:196-219 | the loop over the items counts as the specification does, and stops at the first it cannot read |
| `BulkSink.AnswerIsCounted` | internal/sink/elasticsearch/bulk.go:188-220 | a readable answer counts every document once, as it said, leaves the busy ones in order and something to retry exactly when one is busy |
| `BulkSink.BusyAreRetried` | internal/sink/elasticsearch/bulk.go:196-219 | the documents sent again are those whose code is 429 or from 500 up |
| `Clusters.CodesMean` | internal/sink/elasticsearch/bulk.go:196-219 | which codes of a document mean success, staleness, another try and refusal, in numbers |
| `Clusters.AnswersMean` | internal/sink/elasticsearch/bulk.go:135-158 | which statuses of a request are final and which ask for another try, in numbers |
| `BulkSink.ClassifiedConserves` | internal/sink/elasticsearch/bulk.go:196-219 | reading an answer counts every document exactly once |
| `BulkSink.ClassifiedKeepsOrder` | internal/sink/elasticsearch/bulk.go:196-219 | documents to retry keep their order |
| `BulkSink.ClassifiedIsBacked` | internal/sink/elasticsearch/bulk.go:196-219 | each document is counted as the answer said of it: applied, stale, or refused with its status |
| `BulkSink.BackedHolds` | internal/sink/elasticsearch/bulk.go:196-219 | what is counted as applied or stale is in the destination, or something newer is |
| `Sinks.MostRequestsClosedForm` | internal/sink/elasticsearch/bulk.go:94-173 | the request bound is MaxAttempts*(2n-1) |
| `Sinks.HalvesBound` | internal/sink/elasticsearch/bulk.go:160-173 | the bounds of two halves and one more round of attempts make the bound of the whole |
| `InsertSink.Sink.Write` | internal/sink/clickhouse/insert.go:95-101 | on success the batch is partitioned exactly into held rows and refused ones; at most 2048 rows never stop narrowing |
| `InsertSink.Sink.WriteAt` | internal/sink/clickhouse/insert.go:103-131 | accepts, retries or isolates; every failure has its one possible reason; a fair server's refusals are exactly the faulty rows; at most MaxAttempts*(2n-1) inserts |
| `InsertSink.Sink.Isolate` | internal/sink/clickhouse/insert.go:135-158 | a refused row stands alone, any other batch is halved, and the halves' partitions make the batch's |
| `InsertSink.Sink.IsolateHalves` | internal/sink/clickhouse/insert.go:145-157 | both halves written, the second only after the first succeeded, and their partitions joined |
| `InsertSink.DeepExactlyAbove` | internal/sink/clickhouse/insert.go:133-144 | refused every time, a batch runs out of depth exactly above two to the number of splits left |
| `InsertSink.StatusesMean` | internal/sink/clickhouse/insert.go:103-131 | which statuses accept, refuse and ask for another try, in numbers |
| `InsertSink.AtMost2048RowsAlwaysNarrow` | internal/sink/clickhouse/insert.go:133-144 | which is 2048 rows |
| `InsertTokens.TokensAgreeExactlyWhen` | internal/sink/clickhouse/insert.go:192-198 | two inserts share a token exactly when first key, first version, last version and row count agree |
| `InsertTokens.TokenIdentifiesWithinARun` | internal/sink/clickhouse/insert.go:192-198 | among consecutive pieces of one run's documents a token stands for one batch |
| `InsertTokens.ResumedScanLooksAlike` | internal/sink/clickhouse/insert.go:192-198 | any two batches of one scan version that begin at one row and have one length share a token |
| `InsertTokens.RetryIsHarmless` | internal/sink/clickhouse/insert.go:192-198 | to a server that drops repeated tokens a repeated insert changes nothing |
| `InsertTokens.LookAlikeIsDropped` | internal/sink/clickhouse/insert.go:192-198 | of two runs of inserts, a batch of the second that looks like one of the first is dropped whole: a document of it is held exactly if the first run carried it or it was held before |
| `InsertTokens.ResumedBatchIsDropped` | internal/pipeline/batcher.go:51-106 | that is so of the batches the batcher makes of a scan's page and of the page its resumption reads from the same cursor, wherever rows, bytes and deadlines cut them, whenever two begin at one row and have one length |
| `InsertTokens.LostRowIsNotSentAgain` | internal/source/snapshot/scanner.go:131-137 | the scan goes on behind the page and never sends such a row again |
| `InsertTokens.ThreeRowsSuffice` | internal/pipeline/batcher.go:51-106 | an instance: a table of three rows read and batched two at a time, one deleted between the two reads, loses another |
| `RowText.EncodeRows` | internal/sink/clickhouse/insert.go:160-190 | encodes exactly the batches whose bodies are all JSON objects; the result reads back as those rows if no body holds a line feed |
| `RowText.RowRoundTrip` | internal/sink/clickhouse/insert.go:164-187 | a row gives back the trimmed body, the version and the deletion flag |
| `RowText.RowsRoundTrip` | internal/sink/clickhouse/insert.go:160-190 | an insert splits by line into the same rows in order |
| `BulkText.EncodeBulk` | internal/sink/elasticsearch/bulk.go:233-259 | encodes exactly the batches whose documents all have a key and, unless deleted, a body; the result reads back as those documents if no body holds a line feed |
| `BulkText.BulkRoundTrip` | internal/sink/elasticsearch/bulk.go:233-259 | a bulk body is read back as the same documents in order when no body holds a line feed |
| `BulkText.LinesExactlyWhen` | internal/sink/elasticsearch/bulk.go:233-259 | it has the right number of lines if and only if no body holds a line feed |
| `JsonText.AppendJsonString` | internal/pipeline/transform.go:589-612 | appends the short-escape encoding, which reads back as the original bytes |
| `JsonText.AppendKeyString` | internal/sink/elasticsearch/bulk.go:261-280 | appends the encoding without short escapes, which reads back as the original bytes |
| `JsonText.StringRoundTrip` | internal/pipeline/transform.go:589-612 | either encoding, wherever it stands, decodes to the original bytes (section 7 of RFC 8259) |
| `JsonText.EncodersAgree` | internal/sink/elasticsearch/bulk.go:261-280 | the two encoders mean the same always and are byte-identical exactly without tab, line feed and carriage return |
| `JsonText.QuotedHasNoControls` | internal/pipeline/transform.go:589-612 | neither emits a control byte |
| `KeyText.EscapeKeyPart` | internal/pipeline/transform.go:268-284 | the percent escape, which unescapes to the original (sections 2.1 and 2.3 of RFC 3986) |
| `KeyText.Key` | internal/pipeline/transform.go:228-249 | a key exactly when no key column is null; within 512 bytes it is read back as the columns |
| `KeyText.UnreservedAreListed` | internal/pipeline/transform.go:268-284 | the bytes left unescaped are the unreserved characters of section 2.3 of RFC 3986 |
| `KeyText.LongKeysAreDigests` | internal/pipeline/transform.go:244-248 | up to 512 bytes a key is the columns themselves, beyond it an h and the digest |
| `KeyText.JoinedKey` | internal/pipeline/transform.go:228-243 | the loop over the key columns gives the escaped columns joined by colons, or nothing at the first null |
| `KeyText.KeyRoundTrip` | internal/pipeline/transform.go:228-284 | a plain key stands for exactly one tuple |
| `KeyText.KeysAgreeExactlyWhen` | internal/pipeline/transform.go:244-248 | two tuples the digest tells apart share a key only if one is a single text that spells out the other's digest |
| `KeyText.CompoundKeysIdentify` | internal/pipeline/transform.go:228-249 | keys of two or more columns identify a row at any length |
| `KeyText.ShortKeysIdentify` | internal/pipeline/transform.go:228-249 | keys within 512 bytes always do |
| `KeyText.OneColumnKeysCanClash` | internal/pipeline/transform.go:244-248 | for any digest two one-column rows share a key |
| `KeyText.OnlyOneEmptyText` | internal/sink/elasticsearch/bulk.go:237-239 | the empty key, which the sink refuses, is that of a single empty text only |
| `Members.ParseMemberList` | internal/schema/store.go:98-130 | returns the labels the specification reads off the list, and the declared labels for every printed one |
| `Members.FirstIndexIsFirst` | internal/schema/store.go:100 | the list is looked for at the first place its keyword stands, and nowhere else when it stands at none |
| `Members.MemberListRoundTrip` | internal/schema/store.go:98-130 | parsing inverts quote-doubling printing for every list of labels, whatever they contain |
| `MemberNumbers.IndexOfString` | internal/source/snapshot/scanner.go:380-387 | the first place of a label, or none |
| `MemberNumbers.SetBitmask` | internal/source/snapshot/scanner.go:361-378 | the bits of the listed members, or an error at an undeclared one; for every value of a declarable SET, bits that the pipeline turns back into its members |
| `MemberNumbers.AppendSet` | internal/pipeline/transform.go:416-434 | a JSON array that reads back as the labels whose bits are set |
| `MemberNumbers.PlacesWithBit` | internal/source/snapshot/scanner.go:375-375 | setting a bit of the 64 sets that bit and no other, the sign bit included |
| `MemberNumbers.SetRoundTrip` | internal/source/snapshot/scanner.go:361-378 | for up to 64 distinct, non-empty, comma-free labels and any choice of them, scanner and pipeline together return the chosen labels in declaration order |
| `MemberNumbers.ArrayRoundTrip` | internal/pipeline/transform.go:416-434 | the array's text is read back as its labels |
| `MemberNumbers.EnumMember` | internal/source/snapshot/scanner.go:345-359 | 0 for the empty text, else the label's place, or an error |
| `MemberNumbers.MembersCountFromOne` | internal/pipeline/transform.go:401-414 | members are counted from 1, 0 is the empty value, any other number is an error |
| `MemberNumbers.EnumRoundTrip` | internal/pipeline/transform.go:401-414 | a value goes through unchanged exactly when it is empty or declared |
| `Bodies.EncodeFields` | internal/pipeline/transform.go:290-305 | the object of the fields in order, or an error if and only if some column cannot be encoded |
| `Bodies.EncodedExactlyWhen` | internal/pipeline/transform.go:307-450 | which values each kind of column can hold |
| `Bodies.IntegerReadsBack` | internal/pipeline/transform.go:307-330 | every integer's text is read back, so different integers have different texts |
| `Bodies.ValueReadsBack` | internal/pipeline/transform.go:307-450 | a value's text, wherever it stands in an object, is read back as what the value means: true for any number but 0, an ENUM's label, a SET's labels |
| `Bodies.BodyReadsBack` | internal/pipeline/transform.go:290-305 | a row's body is read back as the meanings of its selected columns, in order and nothing else |
| `Bodies.BodyIsObject` | internal/pipeline/transform.go:290-305 | every body is an object the ClickHouse sink accepts |
| `Bodies.BodyIsOneLineExactlyWhen` | internal/pipeline/transform.go:307-450 | a body breaks the line exactly when a column written unquoted, raw JSON or a library's text, holds a line feed |
| `Transform.Apply` | internal/pipeline/transform.go:168-215 | the documents of the specification, with its errors for missing, short, unkeyed and unencodable rows |
| `Transform.DocumentsAreMadeExactly` | internal/pipeline/transform.go:168-215 | an event makes documents if and only if the row it needs is wide enough, has no null key column and its fields have texts, a moved or updated row's old image has its key, and a ClickHouse deletion's key fields have texts |
| `Transform.DocumentsAre` | internal/pipeline/transform.go:168-215 | they are a tombstone for a deletion, the row after under its key, and first a tombstone under the old key if the key moved, all with the event's version |
| `Transform.KeyStringsReadBack` | internal/pipeline/transform.go:251-266 | a key column's text tells its value: a text is itself, a number is read back |
| `Transform.IdentityTellsValues` | internal/pipeline/transform.go:228-249 | rows of one identity have the same values in their key columns |
| `Transform.ApplyRefinesTheChange` | internal/pipeline/transform.go:168-215 | every change to a table whose rows can be encoded makes documents, and applying them to what the destination shows of the table shows exactly the changed table, key-changing updates included |
| `Transform.FittingKeysTellApart` | internal/pipeline/transform.go:228-249 | its hypothesis on keys holds for all tuples within 512 bytes |
| `Transform.ApplyMakesAChange` | internal/pipeline/transform.go:168-215 | for Elasticsearch an event is one change of the protocol, never with two writes to one key; it is encodable exactly if documents are made, and then they are those of its one or two writes |
| `Transform.EffectIsTheChange` | internal/pipeline/transform.go:168-215 | encodable or not, an event changes what the table holds under each key, no row, a body or a row that cannot be encoded, exactly as its change says |
| `Transform.ClickHouseTakesExactly` | internal/pipeline/transform.go:207-212 | ClickHouse can be sent an event's documents exactly when the event does not move a row to another key |
| `Transform.ElasticsearchTakesExactly` | internal/sink/elasticsearch/bulk.go:236-255 | Elasticsearch can be sent any of them exactly when its key is not empty |
| `Routing.SharedStartPosition` | internal/supervisor/router.go:75-109 | succeeds exactly when some stream's set is contained in all others, and returns such a set |
| `Routing.SharedStartIsUnique` | internal/supervisor/router.go:87-101 | whichever order it tries them in, the answer is the same |
| `Routing.ChainsShareAStart` | internal/supervisor/router.go:87-101 | streams whose positions form a chain always have one |
| `Routing.Router.Add` | internal/supervisor/router.go:31-35 | one more empty queue for the lower-cased table |
| `Routing.Router.Route` | internal/supervisor/router.go:51-64 | a finished send gives the event to exactly the queues of its table; each queue then holds exactly its table's events in order; only a cancelled send does not finish |
| `Routing.NamesAgreeExactlyWhen` | internal/supervisor/router.go:31-64 | two names are one table exactly when they differ in nothing but the case of ASCII letters |
| `Routing.OnlyItsOwnEvents` | internal/supervisor/router.go:51-64 | an event stands in a queue if and only if its table has the queue's name but for case |
| `Routing.Router.Close` | internal/supervisor/router.go:67-73 | every queue is closed once, however often it is called |
| `Routing.NoStreamMissesAnEvent` | internal/supervisor/router.go:51-109 | dropping what lies behind its own position, a stream keeps of the events beyond the shared start exactly its own table's beyond its own position |
| `Fanout.ReaderSendsWhatIsBeyond` | internal/source/binlog/streamer.go:191-316 | a reader started at any position sends exactly the row changes of the log beyond it, in order |
| `Fanout.QueueMissesNothing` | internal/supervisor/router.go:51-109 | once the router has passed on what the reader sent from the shared start, each queue holds, after what its stream has seen, exactly its own table's row changes beyond the stream's own position |
| `Examples.RowLine` | internal/sink/clickhouse/insert.go:160-190 | a ClickHouse row, alive and deleted, byte for byte |
| `Examples.BulkItem` | internal/sink/elasticsearch/bulk.go:233-259 | an Elasticsearch bulk item, indexing and deleting, byte for byte |
| `Examples.ShortEscapes` | internal/pipeline/transform.go:589-612 | the pipeline's escapes of control bytes, quote and backslash |
| `Examples.LongEscapes` | internal/sink/elasticsearch/bulk.go:261-280 | the sink's escapes of the same bytes |
| `Examples.CompoundKey` | internal/pipeline/transform.go:228-284 | a key of two columns, one with the separator in it |
| `Examples.TokenText` | internal/sink/clickhouse/insert.go:192-198 | an insert's token |
| `Examples.RowBody` | internal/pipeline/transform.go:290-305 | a row's body, its columns in the order of the fields |

## Left out

- The saved position of a stream served from a shared start behind its own: convergence is stated for a stream that starts at its own position.
- Several allocators for one table: streamed versions come from the first stream's allocator, scan bases from each stream's own.
- A scan on a lagging replica: the scan is modelled as reading the source at or after the recorded position.
- Streams without a snapshot, beyond the row they record: convergence is about streams that scanned. Snapshots asked for again only set fields of the row.
- Elasticsearch forgetting tombstones after its garbage-collection interval: the destination remembers deletions for good.
- ClickHouse's merging of versions, and how long it remembers tokens: `InsertTokens` takes it to remember them all.
- Wrap-around of the batch's byte count at 64 bits: sizes are unbounded.
- SHA-256: an arbitrary function to 64 digits that tells the two tuples at hand apart.
- Cursor JSON and MySQL collation: a cursor is a place in an abstract order in which different keys have different places.
- Case mapping beyond ASCII in column types and table names.
- The texts of floats, decimals, dates, base64 and other character sets, and UTF-8 validity: parameters, because libraries make them.
- Column alignment of binlog rows and schema reload: the table definition is fixed.
- The dead-letter file's rotation: a durable set of letters.
- Bulk-load settings, gzip, addresses, back-off times, the rate limiter, metrics, configuration, the command line and the PHP SDK.
- Runners.Runner.Run: its channel's events are given at the start, which `LateEventsChangeNothing` shows to be harmless; other writers of the row act between events and while a position is being recorded, which is when the loop looks at the row. Which of a due deadline, an event and the closed channel it takes first is any choice, so how long a batch may wait is not stated.
- A save of the row that a dead process left on its way and that lands in the next one.
- Rows that leave without row events: TRUNCATE, like any other statement that arrives as a query event only, is taken not to happen (`Replay.Describes`).
- Runners.Runner.Write: a failure in the window of `OvertakingCanLoseTheRow` counts as a crash there, because the stream starts again from the saved cursor.
- Bodies.EncodeFields: the library kinds' texts are parameters, as above.
- Transform.ApplyMakesAChange: Elasticsearch only, because a ClickHouse deletion carries a body.
- InsertSink.Sink.Write: says nothing about the partial counts returned with a failure, which the caller ignores.
- BulkSink.Sink.Write: says nothing about the partial counts returned with a failure, which the caller ignores.
