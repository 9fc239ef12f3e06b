# Order-book capture and replay, verified

The program rebuilds exchange order books from two feeds, records every raw message, and replays recordings to the
same result. This project models its core in Dafny and proves what the parts promise each other. It stands alone:
`dafny verify dfyconfig.toml` checks all of it.

How the pieces fit:

- **Numbers and text** (`Decimal`, `FixedPoint`, `KrakenNumber`, `Timestamp`, `ExactJson`). Decimal text to int64 ticks,
  exponent expansion, checksum digits, UTC timestamps, and the rewrite that protects number tokens before JSON decoding.
- **Books** (`Market`, `OrderBook`, `PriceOrder`, `Crc32`, `KrakenBook`, `KrakenChecksum`, `KrakenDepth`). `Market` gives the
  meaning of events one at a time; `OrderBook` is the class with tombstone staging; the Kraken checksum book keeps the
  lexemes of every level and is truncated to a depth. `KrakenDeletion` writes out a feed in which truncation costs a level.
- **Processors** (`CoinbaseFeed`, `CoinbaseHistory`, `KrakenProcessor`, `KrakenBookProcessor`, `KrakenRuns`).
- **Live state machines** (`CoinbaseManager` with `CoinbaseLink`, `CoinbaseJournal`, `CoinbaseRuns`; `KrakenLive`, `KrakenMarket`,
  `KrakenLiveBooks`). A run is a sequence of events with their clock readings.
- **Replay** (`Tape`, `CoinbaseReplay`, `CoinbaseReplayBooks`, `CoinbaseAgreement`, `KrakenReplay`, `KrakenAgreement`). A tape is the
  one order in which records and lifecycle events happened; a session stores it as two lists.
- **Threads** (`Envelope`, `Recording`, `RuntimeStatus`, `WriterThread`, `CoinbaseLedger`, `CoinbaseRuntime`, `CoinbaseCapture`,
  `KrakenRuntime`, `KrakenCapture`, `KrakenCause`). Market thread, writer thread and main thread as interleaved actions, one per critical section; an
  action that is not enabled changes nothing, so any list of actions is an interleaving.
- **Sessions** (`Session`, `CoinbaseSession`). What is published and what replay accepts. `CoinbaseSchedules` writes
  interleavings out action by action, for the two witnesses `CoinbaseEarlyStop` and `CoinbaseBadHeartbeat`.

State that the program updates in place is a class. Each of its methods is proved equal to a function on values
(`Value() == Spec(old(Value()), ...)`), and the theorems about runs and interleavings are lemmas about those functions.

Three promises turned out not to hold in every case; each has the exact condition and a reachable case:

- *A Coinbase session replays to the live result.* It does exactly when something was logged and no accepted message made
  the heartbeat parser throw (`CoinbaseAgreement.ReplayReproducesRun`, and for published sessions
  `CoinbaseSession.PublishedSessionReplays`). A malformed heartbeat is absorbed live and leaves replay as an exception:
  there is an interleaving that publishes a complete session whose replay throws
  (`CoinbaseBadHeartbeat.CompleteSessionCanThrow`). A stop requested before the manager starts publishes a complete
  session whose replay ends INITIALIZING instead of DISCONNECTED (`CoinbaseEarlyStop.CompleteSessionCanDiffer`). Empty
  transport error reasons, which are not logged, do no harm.
- *The first fatal cause is never overwritten.* True of the Coinbase runtime (`CoinbaseCapture.FirstCauseKept`). In the Kraken
  runtime, over every interleaving, a recorded cause is the cause at the end if and only if every exception that is
  reported after it carries the same text (`KrakenCause.CauseKeptExactly`); there is an interleaving that records one
  cause and is joined with another (`KrakenCause.CauseCanBeReplaced`).
- *The truncated Kraken book is the best-depth prefix of the full one.* Over every run it is, after each message, if and
  only if no message lets a level resurface that truncation had cut off (`KrakenDepth.PrefixExactly`); for one change this
  means that it does not delete a kept level from a side that was cut (`KrakenDepth.TruncatingEarlyIsHarmless`). At every
  allowed depth there is a feed of two accepted messages after which the Valid book lacks a level of the prefix
  (`KrakenDeletion.DeletionLosesDepth`).

The Coinbase market thread writes RUNNING without checking for a failure again after it copied the status
(src/pipeline/live_runtime.cpp:196-206). This is harmless because until the first message is queued a ready writer waits
on an empty, open queue and cannot fail; that is the invariant `CoinbaseCapture.Quiet`.

## Model

| member | source | states |
|---|---|---|
| FixedPoint.ParseDecimal | src/core/fixed_point.cpp:8-54 | accepts exactly the documented grammar and precision, returns value * 10^scale, reports overflow exactly when that exceeds INT64_MAX, malformed input first; int64 arithmetic never leaves its range |
| FixedPoint.Validate | src/core/fixed_point.cpp:16-35 | recognises the plain decimal grammar and counts the fractional digits |
| FixedPoint.Append | src/core/fixed_point.cpp:38-44 | appending a digit succeeds exactly when the result fits int64 |
| FixedPoint.Accumulate | src/core/fixed_point.cpp:45-49 | the digits accumulate to their value, failing exactly when the whole value does not fit |
| FixedPoint.TickOrderIsDecimalOrder | src/core/fixed_point.cpp:8-54 | for all accepted texts, tick order is decimal order |
| FixedPoint.ParseInvertsDisplay | src/main.cpp:16-23 | parsing inverts the two-decimal price display for every nonnegative int64 |
| KrakenNumber.DecimalToken | src/adapters/kraken/kraken_l2_parser.cpp:115-137 | the string edits give the exponent-free text, or refuse the token |
| KrakenNumber.ExpansionPreservesDecimal | src/adapters/kraken/kraken_l2_parser.cpp:115-137 | every accepted token keeps its exact decimal value and becomes text in the decimal parser's grammar |
| KrakenNumber.ComputeChecksumDigits | src/adapters/kraken/kraken_checksum.cpp:7-12 | the digits without point and without leading zeros |
| KrakenNumber.ChecksumDigitsDenoteRaw | src/adapters/kraken/kraken_checksum.cpp:7-12 | no leading zero, and the denoted number times 10^(scale - fractional digits) is the parsed raw value whenever parsing succeeds |
| Timestamp.ParseTimestamp | src/adapters/coinbase/coinbase_l2_parser.cpp:19-72 | a well-formed calendar instant is accepted exactly when its nanosecond count fits int64, and that count is returned without intermediate overflow on either side of the epoch |
| Timestamp.Combine | src/adapters/kraken/kraken_l2_parser.cpp:45-62 | seconds and fraction combine exactly when the nanoseconds fit |
| Timestamp.Fraction | src/adapters/kraken/kraken_l2_parser.cpp:34-44 | fractional digits scaled to nanoseconds |
| Timestamp.Number | src/adapters/kraken/kraken_l2_parser.cpp:16-25 | a digit run's value, or refusal |
| Timestamp.NanosecondsOrderInstants | src/adapters/coinbase/coinbase_l2_parser.cpp:19-72 | for all valid instants, earlier means fewer nanoseconds |
| Timestamp.EpochDayCounts | src/adapters/coinbase/coinbase_l2_parser.cpp:54-56 | the day number grows by one from each calendar day to the next |
| ExactJson.Rewrite | src/adapters/kraken/kraken_l2_parser.cpp:67-108 | the scanning loop produces the tagged text of the token segments, or refuses |
| ExactJson.ScanString | src/adapters/kraken/kraken_l2_parser.cpp:72-86 | the string loop finds the first unescaped quote, or that there is none |
| ExactJson.EraseInvertsRewrite | src/adapters/kraken/kraken_l2_parser.cpp:67-113 | erasing the tags restores the original text exactly, for every accepted text |
| ExactJson.TagsComeFromNumbers | src/adapters/kraken/kraken_l2_parser.cpp:67-113 | the output holds exactly as many tag strings as the input had numbers: none is forged |
| Market.BooksStayPositive | src/core/order_book.cpp:6-10 | every stored price and quantity stays positive, whatever events are accepted |
| Market.ChangesAreLastWrites | src/core/order_book.cpp:14-42 | a book holds exactly the prices whose last change is positive, at that quantity |
| Market.PrefixAccepted | src/core/order_book.cpp:87-112 | every prefix of an accepted event list is accepted |
| Market.BestLevelIsBest | src/core/order_book.cpp:120-138 | the exposed level is stored and unbeaten on its side; a book that is not Valid exposes none |
| OrderBooks.StageUpdate | src/core/order_book.cpp:14-27 | staging succeeds exactly on valid updates and keeps the last change per price, zero included |
| OrderBooks.CommitChanges | src/core/order_book.cpp:28-42 | moving the staged nodes in any order applies every tombstone and every level |
| OrderBooks.CommitIsSequential | src/core/order_book.cpp:14-42 | staging any change list and committing it equals applying the changes one by one |
| OrderBooks.OrderBook.constructor | src/core/order_book.cpp:46-47 | a new book is Initializing and empty |
| OrderBooks.OrderBook.Mark | include/core/order_book.hpp:24-28 | only the state changes |
| OrderBooks.OrderBook.ApplySnapshot | src/core/order_book.cpp:49-73 | accepted exactly when venue, levels and keys are valid; otherwise nothing changes |
| OrderBooks.OrderBook.ApplyUpdate | src/core/order_book.cpp:75-85 | the staged update equals the sequential one; rejection leaves everything |
| OrderBooks.OrderBook.Apply | src/core/order_book.cpp:49-85 | one event, with full rollback on rejection |
| OrderBooks.OrderBook.ApplyEvents | src/core/order_book.cpp:87-112 | the batch equals applying the events one by one with rollback of all on any rejection, sequence included |
| OrderBooks.OrderBook.ApplyTransaction | src/core/order_book.cpp:90-100 | the staged copy used when a snapshot is present |
| OrderBooks.OrderBook.ApplyUpdates | src/core/order_book.cpp:101-111 | the touched-price fast path over several updates |
| CoinbaseFeed.SequenceTracker.Observe | src/core/sequence_tracker.cpp:3-16 | classification of an envelope sequence, and the tracker follows exactly those that continue it |
| CoinbaseFeed.MessageProcessor.Process | src/adapters/coinbase/coinbase_message_handler.cpp:65-148 | one message: outcome, counts, book, tracker and health, or the exception of the heartbeat parser |
| CoinbaseFeed.MessageProcessor.ApplyL2 | src/adapters/coinbase/coinbase_message_handler.cpp:124-147 | the snapshot gate and the transactional application of an L2 envelope |
| CoinbaseFeed.MessageProcessor.Fail | src/adapters/coinbase/coinbase_message_handler.cpp:67-72 | a failure invalidates the book and reports the outcome |
| CoinbaseFeed.MessageHandler.Handle | src/adapters/coinbase/coinbase_message_handler.cpp:25-64 | index, progress, enqueue before processing, and the absorbed exception |
| CoinbaseHistory.EnvelopeApplied | src/adapters/coinbase/coinbase_message_handler.cpp:132-141 | an applied envelope leaves the book Valid with its number and the changes since its last snapshot |
| CoinbaseHistory.ProcessingDescends | src/adapters/coinbase/coinbase_message_handler.cpp:65-148 | every message keeps: a Valid book is the fold of the changes since the latest snapshot of the current connection, with unbroken sequences up to the tracker |
| CoinbaseManager.ReconnectPolicy.Next | src/adapters/coinbase/reconnect_policy.cpp:4-8 | returns the delay and doubles it up to ten seconds |
| CoinbaseManager.CreateManager | src/adapters/coinbase/coinbase_connection_manager.cpp:5-29 | construction succeeds exactly when every health interval is positive, and gives a manager that is stopped and Disconnected |
| CoinbaseManager.ConnectionManager.Dispatch | src/adapters/coinbase/coinbase_connection_manager.cpp:71-234 | the object driven by any event steps exactly as the state machine the run theorems are about |
| CoinbaseManager.ConnectionManager.Observe | src/adapters/coinbase/coinbase_connection_manager.cpp:45-49 | the observer gets the next record's index, the state and the reason, unless the reason is empty |
| CoinbaseManager.ConnectionManager.AccountTime | src/adapters/coinbase/coinbase_connection_manager.cpp:34-44 | the time since the last accounting goes to the given state |
| CoinbaseManager.ConnectionManager.Transition | src/adapters/coinbase/coinbase_connection_manager.cpp:45-70 | logs unless the reason is empty, accounts, then changes the state unless it is Valid |
| CoinbaseManager.ConnectionManager.Start | src/adapters/coinbase/coinbase_connection_manager.cpp:71-77 | starts only a stopped manager that has not failed terminally |
| CoinbaseManager.ConnectionManager.Stop | src/adapters/coinbase/coinbase_connection_manager.cpp:78-90 | a new generation, no recovery, no connection, book Disconnected |
| CoinbaseManager.ConnectionManager.Begin | src/adapters/coinbase/coinbase_connection_manager.cpp:91-118 | a new generation is connected and the book is Resyncing |
| CoinbaseManager.ConnectionManager.HandleConnected | src/adapters/coinbase/coinbase_connection_manager.cpp:113-129 | a live success opens a new connection id; a dead or repeated one does nothing |
| CoinbaseManager.ConnectionManager.Recover | src/adapters/coinbase/coinbase_connection_manager.cpp:130-163 | one recovery at a time: state, counters and one scheduled retry |
| CoinbaseManager.ConnectionManager.GiveUp | src/adapters/coinbase/coinbase_connection_manager.cpp:133-136 | the generation is left and the sequence forgotten |
| CoinbaseManager.ConnectionManager.Reschedule | src/adapters/coinbase/coinbase_connection_manager.cpp:137-163 | counters, the start of the recovery and the retry with its delay |
| CoinbaseManager.ConnectionManager.Resume | src/adapters/coinbase/coinbase_connection_manager.cpp:149-153 | a retry acts only if its generation is current and the manager runs |
| CoinbaseManager.ConnectionManager.FailTerminal | src/adapters/coinbase/coinbase_connection_manager.cpp:164-169 | terminal, stopped, Invalid |
| CoinbaseManager.ConnectionManager.HandleMessage | src/adapters/coinbase/coinbase_connection_manager.cpp:103-107 | a message of a dead generation or of no connection is ignored; any other is handled |
| CoinbaseManager.ConnectionManager.Deliver | src/adapters/coinbase/coinbase_connection_manager.cpp:174-179 | the handler's work and the accounting of a changed state |
| CoinbaseManager.ConnectionManager.Conclude | src/adapters/coinbase/coinbase_connection_manager.cpp:180-203 | rejection is terminal, an error recovers, anything else is counted |
| CoinbaseManager.ConnectionManager.Fault | src/adapters/coinbase/coinbase_connection_manager.cpp:184-189 | an early update is counted, then the connection is given up as Invalid |
| CoinbaseManager.ConnectionManager.Count | src/adapters/coinbase/coinbase_connection_manager.cpp:190-202 | event counts, and restoration on a snapshot that made the book Valid |
| CoinbaseManager.ConnectionManager.Restore | src/adapters/coinbase/coinbase_connection_manager.cpp:192-202 | the backoff starts over and an open recovery is closed |
| CoinbaseManager.ConnectionManager.HandleError | src/adapters/coinbase/coinbase_connection_manager.cpp:108-112 | a live transport error recovers as Disconnected |
| CoinbaseManager.ConnectionManager.CheckHealth | src/adapters/coinbase/coinbase_connection_manager.cpp:205-221 | connect timeout, staleness and heartbeat timeouts recover; a healthy check only accounts time |
| CoinbaseLink.MoveKeepsLinked | src/adapters/coinbase/coinbase_connection_manager.cpp:71-169 | every step keeps: generations of connects and retries, pending recovery, connection, Valid and terminal fit together |
| CoinbaseLink.StepMoves | src/adapters/coinbase/coinbase_connection_manager.cpp:71-234 | every step of the manager is one move of the small generation machine |
| CoinbaseJournal.MoveKeepsJournal | src/adapters/coinbase/coinbase_message_handler.cpp:25-64 | every step keeps: accepted indexes are 0, 1, 2, ..., progress counters match, lifecycle positions count the records before them, and the book's provenance |
| CoinbaseJournal.StepMoves | src/adapters/coinbase/coinbase_connection_manager.cpp:71-234 | every step of the manager is one move of its journal |
| CoinbaseRuns.ValidBookIsCurrent | src/adapters/coinbase/coinbase_connection_manager.cpp:71-221 | in every run a Valid book means connected, not stopping, nothing pending, levels that are exactly the last writes since a snapshot of this connection id, and unbroken sequences up to a tracker not behind the book |
| CoinbaseRuns.OneLiveRetry | src/adapters/coinbase/coinbase_connection_manager.cpp:130-163 | over every run at most one scheduled retry can act, and one exists exactly while a recovery is pending |
| CoinbaseRuns.OldGenerationsStayDead | src/adapters/coinbase/coinbase_connection_manager.cpp:100-117 | callbacks and retries of a passed generation change nothing, however the run goes on |
| CoinbaseRuns.TerminalIsAbsorbing | src/adapters/coinbase/coinbase_connection_manager.cpp:164-169 | after a terminal failure the book stays Invalid and nothing is connected or scheduled again |
| CoinbaseRuns.CountersAgree | src/adapters/coinbase/coinbase_connection_manager.cpp:91-204 | connection id = successes <= starts; attempts = recoveries >= recovery successes |
| CoinbaseRuns.RetriesBackOff | src/adapters/coinbase/reconnect_policy.cpp:4-8 | the k-th retry since the last restoring snapshot waits min(250 * 2^k, 10000) ms |
| CoinbaseRuns.TimesAreTimeSpent | src/adapters/coinbase/coinbase_connection_manager.cpp:34-44 | over every run, each accumulated time plus its open interval is the time the book spent in that state |
| Tape.PositionedIsOrdered | src/session/session.cpp:340-352 | positions taken from a run never go back and never pass the record count |
| Tape.MergeRestoresTape | src/session/session.cpp:474-505 | storing a run as a record list and a positioned event list loses nothing: merging restores the order |
| CoinbaseReplay.Session.constructor | src/session/session.cpp:449-478 | replay starts Disconnected if there are lifecycle events and Initializing otherwise |
| CoinbaseReplay.Session.ApplyEvent | src/session/session.cpp:483-500 | one lifecycle event |
| CoinbaseReplay.Session.ApplyLifecycle | src/session/session.cpp:479-502 | consumes exactly the events positioned at this record |
| CoinbaseReplay.Session.CrossBoundary | src/session/session.cpp:507-526 | a boundary without an INITIALIZING event is inferred from the connection id |
| CoinbaseReplay.Session.ProcessRecord | src/session/session.cpp:504-538 | boundary and processing of one record, or the exception |
| CoinbaseReplay.Session.Advance | src/session/session.cpp:474-538 | one turn of the loop leaves what replay will end with, and what it will consume, as it was |
| CoinbaseReplay.Session.Play | src/session/session.cpp:474-541 | the loop equals folding the merged tape and demanding that every event was consumed |
| CoinbaseReplay.Replay | src/session/session.cpp:449-541 | the replay loop equals running the merged tape; it fails exactly when a record throws or an event is left over |
| CoinbaseReplayBooks.ReplayedBookIsSourced | src/session/session.cpp:449-547 | for every recording, while the replayed book is Valid its levels are the last writes since the latest accepted snapshot and the sequences run unbroken up to the tracker |
| CoinbaseAgreement.ThrowsExactly | src/adapters/coinbase/coinbase_message_handler.cpp:111-121 | processing throws on exactly the malformed heartbeats that pass the sequence gate |
| CoinbaseAgreement.ProcessedAlike | src/adapters/coinbase/coinbase_message_handler.cpp:65-148 | results do not depend on the freshness times in which live and replay differ |
| CoinbaseAgreement.RunSimulates | src/session/session.cpp:449-547 | after every event, replaying what was logged so far stands where the manager stands |
| CoinbaseAgreement.ReplayReproducesRun | src/session/session.cpp:449-547 | for every run that lost no message and ends with no recovery pending: replay gives the same results, book, sequence, tracker and tallies if and only if something was logged and nothing threw; and it fails if and only if something threw |
| CoinbaseAgreement.NeverStartedDiffers | src/session/session.cpp:477-478 | without any logged event live is Disconnected and replay Initializing |
| CoinbaseAgreement.MalformedHeartbeatDiffers | src/adapters/coinbase/coinbase_message_handler.cpp:50-57 | one malformed heartbeat is absorbed live and makes replay throw |
| Recording.RawRecordingQueue.constructor | include/recording/raw_recording_queue.hpp:19 | a new queue is empty and open |
| Recording.RawRecordingQueue.TryPush | include/recording/raw_recording_queue.hpp:20-31 | accepted exactly when open and within both limits; the 64-bit subtraction cannot underflow |
| Recording.RawRecordingQueue.WaitPop | include/recording/raw_recording_queue.hpp:32-41 | first in, first out; nothing once the queue is closed and empty |
| Recording.RawRecordingQueue.Close | include/recording/raw_recording_queue.hpp:42-46 | only the flag changes |
| Recording.RecordingIsFaithful | src/pipeline/runtime_status.cpp:38-46 | in every interleaving accepted indexes are 0..k-1, the file is a prefix of what was accepted, the record in the writer's hand has the file's next index, and the byte counter is the sum of the queued sizes within its limit |
| Recording.NextIndexMatches | src/pipeline/runtime_status.cpp:40 | the writer's index check never fails |
| Recording.RangeIsExact | src/pipeline/runtime_status.cpp:57-65 | the reported range is exactly the processed indexes missing from the file, and empty once a writer that did not fail has finished |
| RuntimeStatus.SharedRuntime.RecordingFailed | src/pipeline/runtime_status.cpp:4-13 | records the failure if it is the first, and posts it |
| RuntimeStatus.SharedRuntime.RecordWritten | src/pipeline/runtime_status.cpp:44-46 | the written count and index |
| RuntimeStatus.SharedRuntime.Publish | src/pipeline/live_runtime.cpp:120-143 | counters and progress, and the failure of a rejected push if it is the first |
| RuntimeStatus.SharedRuntime.ProcessingFailed | src/pipeline/live_runtime.cpp:241-246 | records the exception if it is the first failure |
| RuntimeStatus.SharedRuntime.DrainTick | src/pipeline/live_runtime.cpp:221-228 | done with the writer, otherwise Stopping unless a failure was recorded |
| RuntimeStatus.SharedRuntime.EndStatus | src/pipeline/live_runtime.cpp:280-284 | Stopped unless a failure was recorded |
| CoinbaseLedger.StepLedger | src/adapters/coinbase/coinbase_connection_manager.cpp:170-189 | a step enters exactly the message it takes; only a rejected push and an explicit failure are terminal |
| WriterThread.WorkKeeps | src/pipeline/runtime_status.cpp:14-56 | every writer action keeps counters, failures and flags in step with the writer, leaves the market thread's side alone, and during startup cannot fail unnoticed |
| CoinbaseCapture.FirstCauseKept | src/pipeline/live_runtime.cpp:135-140 | once a fatal error is recorded no later action of any thread replaces it |
| CoinbaseCapture.RegisterKeeps | src/pipeline/live_runtime.cpp:179-186 | the startup handshake: a writer that is ready with an empty queue cannot fail before the first message |
| CoinbaseCapture.BeginKeeps | src/pipeline/live_runtime.cpp:196-207 | writing RUNNING cannot hide a failure |
| CoinbaseCapture.HaltedKeeps | src/pipeline/live_runtime.cpp:167-178 | the stop function keeps manager, queue and status consistent, also when it is called twice |
| CoinbaseCapture.SettleKeeps | src/pipeline/live_runtime.cpp:116-144 | a published result keeps the counters those of manager, pipeline and writer |
| CoinbaseCapture.WriteKeeps | src/pipeline/runtime_status.cpp:14-56 | every writer action keeps them too |
| CoinbaseCapture.ReachedIsWhole | src/pipeline/live_runtime.cpp:88-286 | in every interleaving, exceptions that destroy the manager included, the manager is a run of its own event history and the invariant of the threads holds |
| CoinbaseCapture.JoinedState | src/pipeline/live_runtime.cpp:280-286 | in every interleaving a failure state means a recorded cause; joined means Stopped exactly when there is none, and never Starting, Running or Stopping |
| CoinbaseCapture.JoinedCounts | src/pipeline/runtime_status.cpp:57-65 | at join, whatever happened: the file is a prefix of the accepted records, counters match, the reported range is exactly what was processed and not written, and it is empty unless the writer failed |
| CoinbaseCapture.CleanCaptureReplays | src/pipeline/live_runtime.cpp:277-289 | a capture joined without a fatal error replays to its manager, from the file that was written, under the exact condition above |
| Sessions.Capture.Finalize | src/session/session.cpp:180-245 | refuses a running recorder; otherwise the manifest's status, indexes, counts and lifecycle follow from runtime status and scan |
| Sessions.CheckLifecycle | src/session/session.cpp:340-352 | comparing neighbours accepts exactly the logs with allowed states whose positions never go back nor, if complete, pass the records |
| Sessions.CheckComplete | src/session/session.cpp:323-352 | the checks accept exactly the manifests in which four indexes, counts, state and lifecycle fit the file |
| Sessions.AgreeingStatusPasses | src/session/session.cpp:240-242 | a status whose stages agree is published complete and passes |
| CoinbaseSession.PublishedSessionReplays | src/session/session.cpp:180-245 | for every interleaving that is joined: the session is publishable, it is complete exactly without a fatal error, a complete one passes every check, and its replay reproduces the live run exactly when started and nothing threw |
| CoinbaseEarlyStop.CompleteSessionCanDiffer | src/pipeline/live_runtime.cpp:199-200 | an interleaving whose complete session replays to another state |
| CoinbaseBadHeartbeat.CompleteSessionCanThrow | src/adapters/coinbase/coinbase_message_handler.cpp:50-57 | with room for one message in the queue, an interleaving whose complete session passes every check and makes replay throw |
| Crc32.Feed | src/adapters/kraken/kraken_checksum.cpp:48-57 | feeding bytes one by one |
| Crc32.FeedConcat | src/adapters/kraken/kraken_checksum.cpp:47-61 | feeding in pieces is feeding the concatenation |
| PriceOrder.KeptInsert | src/adapters/kraken/kraken_checksum.cpp:39-46 | inserting into the best n and trimming again keeps what trimming after the insertion would |
| PriceOrder.KeptIsTop | src/adapters/kraken/kraken_checksum.cpp:39-46 | the kept prices are n, or all, and each beats every price left out |
| KrakenBook.TrimKeepsChecksum | src/adapters/kraken/kraken_checksum.cpp:39-61 | truncation to ten or more levels never changes the checksum |
| KrakenBook.LevelsAreSnapshot | src/adapters/kraken/kraken_book_processor.cpp:94-102 | the level list of a proper book is never refused as a snapshot, and gives the same levels |
| KrakenChecksum.Lex | src/adapters/kraken/kraken_checksum.cpp:15-16 | the number a lexeme denotes at a scale |
| KrakenChecksum.KrakenChecksumBook.Apply | src/adapters/kraken/kraken_checksum.cpp:13-28 | refuses exactly the changes whose lexemes do not denote their numbers; zero deletes |
| KrakenChecksum.KrakenChecksumBook.ReplaceSnapshot | src/adapters/kraken/kraken_checksum.cpp:29-38 | accepted exactly when all levels are consistent, positive and at distinct prices; otherwise nothing changes |
| KrakenChecksum.KrakenChecksumBook.Truncate | src/adapters/kraken/kraken_checksum.cpp:39-46 | keeps the best levels of each side |
| KrakenChecksum.Trim | src/adapters/kraken/kraken_checksum.cpp:40-43 | erasing the last entry until n are left keeps the best n |
| KrakenChecksum.KrakenChecksumBook.Checksum | src/adapters/kraken/kraken_checksum.cpp:47-61 | CRC-32 over the digits of the ten best asks, then bids |
| KrakenChecksum.KrakenChecksumBook.Levels | src/adapters/kraken/kraken_checksum.cpp:62-71 | bids then asks, best first |
| KrakenDepth.TruncatedIsSubmap | src/adapters/kraken/kraken_book_processor.cpp:78-85 | for all message sequences the truncated book is a submap of the untruncated one |
| KrakenDepth.TruncatedIsPrefix | src/adapters/kraken/kraken_book_processor.cpp:78-85 | without deletions it is exactly the best-n prefix |
| KrakenDepth.TruncatingEarlyIsHarmless | src/adapters/kraken/kraken_checksum.cpp:39-46 | for every book and change: truncating before it as well as after it gives the same book if and only if it does not delete a kept level from a side that truncation shortened |
| KrakenDepth.NothingResurfaces | src/adapters/kraken/kraken_book_processor.cpp:78-85 | the same for every message: if and only if no cut level that it does not mention is among the best n after it |
| KrakenDepth.PrefixExactly | src/adapters/kraken/kraken_book_processor.cpp:78-85 | over every message sequence the truncated book is the best-n prefix after each message if and only if no message lets a cut level resurface |
| KrakenDeletion.DeletionLosesDepth | src/adapters/kraken/kraken_book_processor.cpp:65-120 | at every allowed depth a snapshot and a deletion, both accepted by the processor with their checksums, leave a Valid book without a level that the best-depth prefix has |
| KrakenDepth.ReplaceIgnoresOrder | src/adapters/kraken/kraken_checksum.cpp:29-38 | permuting a snapshot changes neither its acceptance nor the book |
| KrakenBookProcessors.CreateProcessor | src/adapters/kraken/kraken_book_processor.cpp:4-10 | construction succeeds exactly on the five allowed depths, and gives an empty processor whose books are in sync |
| KrakenBookProcessors.KrakenBookProcessor.Advance | src/adapters/kraken/kraken_book_processor.cpp:11-20 | a forward step of the clock counts for the state the book had |
| KrakenBookProcessors.KrakenBookProcessor.ResetConnection | src/adapters/kraken/kraken_book_processor.cpp:21-26 | counts the reconnect and starts Initializing |
| KrakenBookProcessors.KrakenBookProcessor.Mark | src/adapters/kraken/kraken_book_processor.cpp:27 | only the book's state changes |
| KrakenBookProcessors.KrakenBookProcessor.Process | src/adapters/kraken/kraken_book_processor.cpp:28-64 | one parsed message: outcome, metrics, times and books |
| KrakenBookProcessors.KrakenBookProcessor.Apply | src/adapters/kraken/kraken_book_processor.cpp:65-120 | one book message: both books change together or not at all |
| KrakenBookProcessors.KrakenBookProcessor.Examine | src/adapters/kraken/kraken_book_processor.cpp:71-105 | the ruling on a book message, without touching the processor |
| KrakenBookProcessors.KrakenBookProcessor.Tally | src/adapters/kraken/kraken_book_processor.cpp:69-112 | which counters a ruling moves, and the outcome's name |
| KrakenBookProcessors.BuildCandidate | src/adapters/kraken/kraken_book_processor.cpp:78-84 | snapshot or changes on a copy, then truncation |
| KrakenBookProcessors.Judge | src/adapters/kraken/kraken_book_processor.cpp:85-105 | checksum first, then best bid against best ask |
| KrakenBookProcessors.MeetsOrCrosses | src/adapters/kraken/kraken_book_processor.cpp:103-105 | comparing the best prices decides whether any bid reaches any ask |
| KrakenBookProcessors.Canonical | src/adapters/kraken/kraken_book_processor.cpp:94-102 | the canonical book of the candidate; the refusal branch cannot be taken |
| KrakenRuns.BooksStayInSync | src/adapters/kraken/kraken_book_processor.cpp:65-120 | in every reachable state, Valid or not: canonical levels equal the checksum book's, both sides are within depth, the book is uncrossed, the stored checksum is that of the stored levels, and every lexeme denotes its level |
| KrakenRuns.OnlySnapshotsRestore | src/adapters/kraken/kraken_book_processor.cpp:65-120 | a book that is not Valid becomes Valid on exactly the acceptable, checksum-matching, uncrossed snapshots |
| KrakenRuns.TruncationIsFaithful | src/adapters/kraken/kraken_book_processor.cpp:78-85 | over every sequence of operations the stored book is a submap of the untruncated book of the same messages; it is the best-depth prefix after each of them if and only if no cut level resurfaces, so in particular without deletions, and then has the same checksum |
| KrakenRuns.StateTimesAddUp | src/adapters/kraken/kraken_book_processor.cpp:11-20 | for every clock the three state times add up to the forward steps between messages |
| KrakenRuns.ClocksAreTimeSpent | src/adapters/kraken/kraken_book_processor.cpp:11-20 | each of the three times is exactly the time between messages that the book spent in its states |
| KrakenRuns.StateTimesSpanTheRun | src/adapters/kraken/kraken_book_processor.cpp:11-20 | with nondecreasing times they sum to the last minus the first |
| KrakenMarkets.KrakenMarket.constructor | src/pipeline/kraken_runtime.cpp:39-46 | the market thread's variables at startup |
| KrakenMarkets.KrakenMarket.Stop | src/pipeline/kraken_runtime.cpp:60-67 | stopping keeps the book |
| KrakenMarkets.KrakenMarket.Recover | src/pipeline/kraken_runtime.cpp:69-92 | one recovery at a time: Stale or Disconnected, logged at the next index |
| KrakenMarkets.KrakenMarket.Connect | src/pipeline/kraken_runtime.cpp:93-97 | a new connection id whose first record is still to come |
| KrakenMarkets.KrakenMarket.EnterConnection | src/pipeline/kraken_runtime.cpp:129-134 | the first record of a later connection resets the processor |
| KrakenMarkets.KrakenMarket.HandleMessage | src/pipeline/kraken_runtime.cpp:100-148 | ignored while stopping, terminal when rejected, otherwise taken |
| KrakenMarkets.KrakenMarket.Take | src/pipeline/kraken_runtime.cpp:129-147 | an accepted message is entered, processed, counted and perhaps recovered from |
| KrakenMarkets.KrakenMarket.Conclude | src/pipeline/kraken_runtime.cpp:136-147 | index, recovery or backoff reset |
| KrakenMarkets.KrakenMarket.Watch | src/pipeline/kraken_runtime.cpp:190-200 | message timeout is Stale, snapshot timeout Disconnected |
| KrakenMarkets.KrakenMarket.Force | src/pipeline/kraken_runtime.cpp:184-189 | one forced disconnect |
| KrakenMarkets.KrakenMarket.Tick | src/pipeline/kraken_runtime.cpp:172-200 | the tick, with its two reads of the shared status |
| KrakenMarkets.KrakenMarket.Dispatch | src/pipeline/kraken_runtime.cpp:60-200 | the object driven by any event steps exactly as the state machine the run theorems are about |
| KrakenLiveBooks.LiveBooksStayInSync | src/pipeline/kraken_runtime.cpp:60-156 | in every live run the two books, the checksum and the lexemes agree, and the state times add up to the recorded clock's forward steps |
| KrakenMarkets.Replay | src/session/session.cpp:353-403 | the Kraken replay loop equals running the merged tape |
| KrakenMarkets.ReplayRecord | src/session/session.cpp:384-394 | order of connection ids, boundary reset and processing |
| KrakenMarkets.ApplyLifecycle | src/session/session.cpp:367-380 | consumes exactly the events positioned at this record |
| KrakenAgreement.ReplayReproducesRun | src/session/session.cpp:353-405 | every run without a fatal error replays to the very same processor: book, checksum, outcome, all metrics, state times |
| KrakenCause.CauseKeptExactly | src/pipeline/kraken_runtime.cpp:226-231 | over every interleaving a cause recorded at some point is the cause at the end if and only if every exception reported after that point carries its text |
| KrakenCause.CauseCanBeReplaced | src/pipeline/kraken_runtime.cpp:226-231 | an interleaving from launch to join that records the writer's failure and ends with the text of an exception |
| KrakenCapture.JoinedCounts | src/pipeline/runtime_status.cpp:57-65 | at join, whatever happened: the file is a prefix of the accepted records, counters match, the reported range is exactly what was processed and not written, and it is empty unless the writer failed |
| KrakenCapture.ReachedIsWhole | src/pipeline/kraken_runtime.cpp:31-270 | in every interleaving the market thread's variables are a run of their event history and the invariant of the threads holds |
| KrakenCapture.PublishedSessionReplays | src/pipeline/kraken_runtime.cpp:265-274 | for every interleaving that is joined: publishable, complete exactly without a fatal error, passing every check when complete, and replaying to the live processor |

## Left out

- WebSocket and TLS transport, timers, signals, condition-variable wakeups and memory ordering: they appear as actions and events that may happen at any time they are allowed to.
- JSON decoding and schema extraction: messages enter the processors parsed; a malformed message, a malformed heartbeat and a failed subscription are cases of the parsed message. Inside JSON strings, escapes are decoded but UTF-8 byte sequences are not.
- write_raw as one loop: its body is modelled as the writer's actions, so that it can be interleaved with the market thread.
- SHA-256, manifest files, paths, disk space and file streams: only counts, indexes and the outcome of a scan are kept. A raw file that changes after it was closed is not modelled.
- Manifest configuration and precision checks of replay (src/session/session.cpp:248-322), and replay of incomplete sessions.
- Replay's list of transitions, outcome histogram and hashes: they are functions of the states and results that are modelled.
- Wall-clock and exchange timestamps, stage timers and latency: the processors store them without branching on them.
- Instrument: the enumeration has one value, so the wrong-instrument branches cannot be taken.
- Error texts of the Kraken processor: the recovery reason is given with the event; outcomes are modelled.
- Exceptions thrown by publish and observer callbacks, and allocation failure; an exception may leave the market thread between two handlers.
- ExactJson.Rewrite: accepts strings whose bytes are not UTF-8, on which the JSON decoder called for each string would throw.
- CoinbaseManager.ConnectionManager.Deliver: the class holds book, tracker, health, handler and backoff as values and calls the handler's function; the handler's own in-place form is CoinbaseFeed.MessageHandler.
- CoinbaseRuns.TimesAreTimeSpent: one clock reading serves all of one event, so a clock that moves within a handler is not captured.
- KrakenMarkets.KrakenMarket.Stop: changes the market thread's variables only; closing the queue is part of the thread model (KrakenRuntime).
- KrakenMarkets.KrakenMarket.Take: the class holds the processor as a value; the processor's own in-place form is KrakenBookProcessors.KrakenBookProcessor.
- Status display, command line, benchmarks, symbol mappers and name tables: they would only add easy members.
