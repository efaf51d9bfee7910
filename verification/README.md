# Verification of the zeroxyz bridge protocols

zeroxyz takes transactions from Kafka or HTTP clients, submits them to an Ethereum node and answers
each request once; it also turns the logs of smart contracts into batches of events for webhooks.
This project models the stateful protocols behind that and proves their properties for every input and
every run. The atomic steps are the sections of the Go code that hold a lock, and single reads of shared
flags, so the proofs cover every interleaving of the goroutines.

| file | what it models |
|---|---|
| `KafkaBridge.dfy` | in-flight messages and offset commits: the bridge refines "the longest confirmed prefix" |
| `TxnProcessor.dfy` | nonces, the transactions in flight for each address, gap filling |
| `TxnReplies.dfy` | the goroutines of all messages, the shared lock and sending slots: one reply each |
| `Pipeline.dfy` | the Kafka bridge and the processor together: everything delivered ends up marked |
| `TxnDelayTracker.dfy` | the moving average and the retry delays |
| `EventStream.dfy` | dispatcher, processor, suspend, resume and stop of one event stream |
| `Subscription.dfy` | filters, high-water marks, checkpoints and crashes: at-least-once delivery |
| `SubscriptionManager.dfy` | streams and subscriptions in memory and in the store, and recovery |
| `Text.dfy`, `AbiTyping.dfy` | JSON to typed ABI values and back: both round trips, exactly when they succeed |
| `AbiInputs.dfy` | what every other JSON input becomes, and which is refused |
| `InlineParams.dfy` | parameters that carry their own types |
| `LogDecoding.dfy` | topics, indexed inputs, 256-bit two's complement and the outputs in the data |
| `WebhooksKafka.dfy` | sends that wait for the producer's acknowledgement |
| `Wrappers.dfy` | Option and Result |

Objects that the source updates in place are classes; their methods are proved equal to functions on
values, and the lemmas are about those functions and about runs made of them.

## What turned out not to hold

Some of what one would expect of the code is false. Lemmas show it and, where the name ends in Iff or Whole, say
exactly when the expectation is met.

- A nonce read from the node is not stored, so the next managed transaction of the address gets nonce 1,
  whatever was read (`NonceAfterNodeReadFollowsIffZero`). So does every other first request for an address; one
  that fails leaves an empty entry that counts as known (`EmptyEntryIffFailed`, `FirstMemoryNonceIsOne`).
- A supplied nonce that does not parse returns with the lock held, and no transaction in flight is ever
  finished after that (`LockIsKeptIffNonceBad`, `KeptLockStopsEveryTransaction`).
- A batch that is dropped by a suspension is never subtracted from the in-flight count. Once a batch size of
  such events has been dropped, the stream is blocked for good (`OnlyStalledStreamsDrop`,
  `IdleStreamIsBlockedIff`, `SuspendAndResumeCanWedge`, `AbandonedBatchesBlockForever`).
- A batch that ends inside a block moves the checkpoint past that block: after a crash the rest is lost
  (`SplitBlockIsLost`), and the next block takes the checkpoint further away (`HandedLogFallsBehind`);
  acknowledging is safe exactly if batches end on whole blocks (`AckIsSafeIffBlocksAreWhole`).
- A subscription from "latest" that crashes before it has a positive checkpoint starts again at the new head
  (`LatestWithoutCheckpointStartsAtHead`, `LatestMissesLog`), and a crash undoes a reset to an explicit block
  (`ResetToBlockSurvivesCrashIff`).
- A subscription that is recovered while its stream is blocked has its checkpoint overwritten by zero before it is
  used. From "latest" it then misses what was handed over before (`OverwrittenCheckpointLosesLog`,
  `OverwritingLosesIff`, `OverwrittenCheckpointReadsAgainIff`).
- Fixed arrays, empty bytes and numbers out of range do not survive the round trip through JSON
  (`RoundTripIffCanonical`, `ComesBackIffSurvives`).
- A JSON number is typed like its decimal text only within 64 bits; beyond that the text is refused or kept as it is,
  and the number becomes another (`NumberIsItsTextIff`).
- The error for too many parameters is forgotten as soon as one parameter has a type of its own; the surplus is
  dropped (`SurplusIsDroppedIffInline`).
- An update of a stream that is refused for its webhook has already changed other fields in memory
  (`RefusedUpdateIsKeptIff`).
- The deletion of a stream is several deletes in the store. If only those of subscriptions take effect, a restart
  brings the stream back without them (`DeletedStreamIsForgottenIff`).
- A message that Kafka delivers again after its offset was marked moves the mark backwards
  (`RedeliveryOfMarkedMovesMarkBack`); marks increase exactly as long as new messages lie above them
  (`AdvancingRunsIncreaseMarks`, `MarksIncreaseIffAdvancing`).

## Model

| member | source | states |
|---|---|---|
| `KafkaBridge.CommitRefinesLongestConfirmedPrefix` | internal/maidenlanekafka/kafkabridge.go:200-238 | After any run with in-order delivery, each partition's last mark is the last message of the longest confirmed prefix of its deliveries, the in-flight map is exactly the deliveries after it, complete where confirmed, and marks only increase. |
| `KafkaBridge.RunsAreConfluent` | internal/maidenlanekafka/kafkabridge.go:200-238 | Two runs with the same deliveries per partition and the same confirmed messages end with the same in-flight map and the same last marks, whatever the interleavings and limits. |
| `KafkaBridge.EveryRunIsSafe` | internal/maidenlanekafka/kafkabridge.go:333-403 | In every run, in any delivery order and with redeliveries: no confirmation of an unknown message, the map stays within MaxInFlight, the owed and unconfirmed replies are exactly the incomplete in-flight messages, and a complete one is held back by an incomplete one below it. |
| `KafkaBridge.CanAlwaysDrain` | internal/maidenlanekafka/kafkabridge.go:384-403 | From every reachable state, replies and confirmations alone lead to an empty in-flight map: a full bridge is never stuck. |
| `KafkaBridge.AllConfirmedMeansAllMarked` | internal/maidenlanekafka/kafkabridge.go:223-235 | Once every delivered message is confirmed, nothing is in flight and each partition is marked at its last delivery. |
| `KafkaBridge.RedeliveryOfMarkedMovesMarkBack` | internal/maidenlanekafka/kafkabridge.go:136-148 | A concrete run in which a redelivery of an already marked message makes the marks decrease. |
| `KafkaBridge.AdvancingRunsIncreaseMarks` | internal/maidenlanekafka/kafkabridge.go:200-238 | In every run in which each newly consumed message lies above the marks of its partition, whatever the order otherwise, marks only increase and everything in flight lies above them. |
| `KafkaBridge.MarksIncreaseIffAdvancing` | internal/maidenlanekafka/kafkabridge.go:136-148 | After any such run, with anything in flight, a new message that is confirmed first keeps the marks increasing if and only if it lies above the marks of its partition. |
| `KafkaBridge.InOrderAdvances` | internal/maidenlanekafka/kafkabridge.go:338-361 | Delivery in order is one way to consume above the marks only. |
| `KafkaBridge.ConfirmationCloses` | internal/maidenlanekafka/kafkabridge.go:209-221 | A confirmation makes ready exactly the messages of its partition that no unconfirmed message at or below them holds open any more; other partitions are unaffected. |
| `KafkaBridge.SortedPrefixIsReady` | internal/maidenlanekafka/kafkabridge.go:209-221 | The leading complete messages of the sorted in-flight list of a partition are exactly those with nothing incomplete at or below them. |
| `KafkaBridge.SortByOffset` | internal/maidenlanekafka/kafkabridge.go:186-194 | Sorts by offset: a sorted list with exactly the given messages. |
| `KafkaBridge.KafkaBridge.InPartition` | internal/maidenlanekafka/kafkabridge.go:203-210 | The in-flight messages of one partition, all of them, in offset order. |
| `KafkaBridge.KafkaBridge.AddInflightMsg` | internal/maidenlanekafka/kafkabridge.go:127-148 | A message already in flight is ignored; otherwise it is added as incomplete and nothing else changes. |
| `KafkaBridge.KafkaBridge.SetInFlightComplete` | internal/maidenlanekafka/kafkabridge.go:200-238 | Collecting, sorting, deleting and marking computes exactly the atomic step: the ready messages leave the map and the highest of them is marked. |
| `KafkaBridge.KafkaBridge.ProducerSuccess` | internal/maidenlanekafka/kafkabridge.go:384-403 | A confirmed reply completes its message; the panic happens exactly for a message that is not in flight. |
| `TxnProcessor.MemoryNoncesAreConsecutive` | internal/maidenlanetx/txnprocessor.go:247-325 | For as long as an address keeps its entry, the nonces from memory are consecutive from the stored one, the stored one ends as the last of them, and the node's public count is not read, whatever other transactions are interleaved. |
| `TxnProcessor.NonceAfterNodeReadFollowsIffZero` | internal/maidenlanetx/txnprocessor.go:298-313 | After one read of nonce n from the node, the next nonce from memory is 1: it follows n exactly if n is 0. |
| `TxnProcessor.EmptyEntryIffFailed` | internal/maidenlanetx/txnprocessor.go:279-313 | A request for a new address leaves an empty entry exactly if it fails: for a nonce that does not parse, a private count or a public count that cannot be read. |
| `TxnProcessor.FirstMemoryNonceIsOne` | internal/maidenlanetx/txnprocessor.go:247-325 | After any request for a new address, failed or not and whatever its nonce, the node's public count is not read while the entry stays, and the first nonce from memory is 1. |
| `TxnProcessor.NextManagedNonceIsOne` | internal/maidenlanetx/txnprocessor.go:263-297 | So the very next managed request takes nonce 1 without asking the node. |
| `TxnProcessor.ListedCarriesItsRequest` | internal/maidenlanetx/txnprocessor.go:247-325 | Over every run of requests and cancellations, each listed transaction carries what a request of the run asked for in the state it met: exactly the supplied nonce, the private count, the highest nonce of the address plus one, or the public count; it is left to the node exactly for an unmanaged public request without a nonce. |
| `TxnProcessor.ListedUntilCancelled` | internal/maidenlanetx/txnprocessor.go:318-337 | And such a transaction stays listed until it is itself cancelled. |
| `TxnProcessor.AddMeaning` | internal/maidenlanetx/txnprocessor.go:247-325 | One request adds exactly such a transaction at the end of its address's list, or none if its lookup fails, leaves the other addresses, and raises the highest nonce only for a nonce from memory. |
| `TxnProcessor.AddKeepsValid` | internal/maidenlanetx/txnprocessor.go:247-325 | Adding keeps ids distinct and lists sorted to their address, never removes an address, and never lowers its highest nonce. |
| `TxnProcessor.CancelRemovesExactly` | internal/maidenlanetx/txnprocessor.go:327-345 | Cancelling removes exactly the given transaction, keeps the order of the rest and everything else, and drops the address exactly when it was the last one. |
| `TxnProcessor.GapIffHigherNonceRemains` | internal/maidenlanetx/txnprocessor.go:346-364 | A gap is found exactly if gaps are possible, the nonce was not left to the node, and another transaction of the address has a higher nonce that is positive. |
| `TxnProcessor.Without` | internal/maidenlanetx/txnprocessor.go:331-337 | The loop removes the first transaction with the id, or nothing if there is none. |
| `TxnProcessor.HighestAbove` | internal/maidenlanetx/txnprocessor.go:346-352 | The loop finds the highest nonce above the given one, or -1; HigherNonceIsMaximum says what that is. |
| `TxnProcessor.HigherNonceIsMaximum` | internal/maidenlanetx/txnprocessor.go:346-352 | It is the nonce of a transaction above the given nonce and no such nonce is higher; -1 if there is none. |
| `TxnProcessor.Processor.AddInflightWrapper` | internal/maidenlanetx/txnprocessor.go:247-325 | The branches compute the step, and the result in terms of the request and the counts: it fails exactly if the nonce does not parse or a count that is needed cannot be read; otherwise the transaction has the supplied nonce, else the private count, else is left to the node, else follows the highest nonce of its address, else has the public count. The lock stays held exactly for a nonce that does not parse. |
| `TxnProcessor.Processor.CancelInFlight` | internal/maidenlanetx/txnprocessor.go:327-383 | Removes the transaction and attempts a gap fill exactly if that is enabled and a gap was found. |
| `TxnReplies.EveryRunRepliesOnce` | internal/maidenlanetx/txnprocessor.go:148-176 | In every run over all paths: no message is answered twice, a finished one was answered exactly once, exactly the transactions of unfinished messages are listed, each by one message, and the taken slots are the sends under way. |
| `TxnReplies.EachStepFollows` | internal/maidenlanetx/txnprocessor.go:508-576 | Over every run, each step follows what has happened to its message: a build follows a lookup that found a nonce, a send a build that succeeded; polls, timeout, report and the final removal follow a send that succeeded and none that failed; a transaction is cancelled as unbuilt or unsent only after a failed build or send; a report follows a receipt; and no build, send, error reply or removal happens twice. |
| `TxnReplies.FinishedMessageWasAnswered` | internal/maidenlanetx/txnprocessor.go:387-576 | A finished message was rejected exactly if it was never entered, got an error exactly if its lookup, build or send failed, and its receipt or a timeout exactly if its send succeeded; the receipt exactly if one was polled. |
| `TxnReplies.RunFlows` | internal/maidenlanetx/txnprocessor.go:508-576 | Conservation over every run: each place of a goroutine has been left as often as it was reached, but for where the goroutine is now. |
| `TxnReplies.GoroutinesEndWithOneReplyEach` | internal/maidenlanetx/txnprocessor.go:508-576 | Where supplied nonces parse, a run that cannot go on has answered every message exactly once, has an empty list of transactions and no slot taken, with either setting of the send concurrency. |
| `TxnReplies.NeverStuck` | internal/maidenlanetx/txnprocessor.go:547-576 | While the lock is free, every unfinished message can go on, or waits for a slot that a send under way will return. |
| `TxnReplies.StepLowersRank` | internal/maidenlanetx/txnprocessor.go:387-495 | Every step of a goroutine lowers a natural number, so no goroutine runs forever. |
| `TxnReplies.LockIsKeptIffNonceBad` | internal/maidenlanetx/txnprocessor.go:279-282 | The lock is held at the end of a run exactly if it was at the start or some request had a nonce that does not parse. |
| `TxnReplies.KeptLockStopsEveryTransaction` | internal/maidenlanetx/txnprocessor.go:279-282 | With the lock kept, no message with a listed transaction ever finishes or leaves the list; at most it is answered by a timeout. |
| `TxnReplies.StepLists` | internal/maidenlanetx/txnprocessor.go:327-345 | Messages with a transaction and the listed transactions stay in one-to-one correspondence over every step. |
| `Pipeline.BridgeAndProcessorAreSafe` | internal/maidenlanekafka/kafkabridge.go:333-361 | In every run of bridge and processor together no message is answered twice and no reply is confirmed that the bridge does not know; the replies the bridge waits for are those of the messages the processor has not answered. |
| `Pipeline.EverythingDeliveredIsMarked` | internal/maidenlanekafka/kafkabridge.go:333-403 | With in-order delivery and nonces that parse: once the goroutines have ended and their replies are confirmed, nothing is in flight and each partition is marked at its last delivery. |
| `TxnDelayTracker.Tracker.Avg` | internal/maidenlanetx/txndelaytracker.go:121-144 | The average is the mean of exactly the last min(n, 100) values since the last reset, through any number of wrap-arounds. |
| `TxnDelayTracker.RingStep` | internal/maidenlanetx/txndelaytracker.go:146-157 | Overwriting the oldest slot keeps the ring equal to the last hundred values of the history, oldest first. |
| `TxnDelayTracker.RecentIsNewest` | internal/maidenlanetx/txndelaytracker.go:121-157 | What is remembered are the newest values, a hundred at most. |
| `TxnDelayTracker.MeanBounds` | internal/maidenlanetx/txndelaytracker.go:121-144 | The average lies between any bounds on the values it is taken of. |
| `TxnDelayTracker.Tracker.ReportSuccess` | internal/maidenlanetx/txndelaytracker.go:103-119 | A value is added to the history, which starts anew exactly at a drop. |
| `TxnDelayTracker.ResetRule` | internal/maidenlanetx/txndelaytracker.go:109-114 | For times that are not negative a reset happens exactly if the average is positive and the new value is at most 0.3 of it. |
| `TxnDelayTracker.Tracker.GetInitialDelay` | internal/maidenlanetx/txndelaytracker.go:71-86 | Four fifths of the average, a fifth of that for each twenty-fifth transaction, always within the limits. |
| `TxnDelayTracker.InitialDelayMeaning` | internal/maidenlanetx/txndelaytracker.go:71-87 | In whole milliseconds m of 0.8 of the average: m within 100 ms and 10 s, or for every twenty-fifth transaction a fifth of m, within the same limits. |
| `TxnDelayTracker.GetRetryDelay` | internal/maidenlanetx/txndelaytracker.go:89-100 | The loop with its early exit computes min(MaxDelay, floor(0.15 * initial * 1.3^retry) ms) for retry >= 1, and 0 otherwise. |
| `TxnDelayTracker.RetryDelayMeaning` | internal/maidenlanetx/txndelaytracker.go:89-100 | Before retry n >= 1 the delay is the whole milliseconds of 0.15 * initial * 1.3^n, at most ten seconds. |
| `TxnDelayTracker.RetryDelayIsMonotone` | internal/maidenlanetx/txndelaytracker.go:89-100 | Later retries never wait less, and never more than the maximum. |
| `TxnDelayTracker.RetryDelayAtLeast19ms` | internal/maidenlanetx/txndelaytracker.go:89-100 | After any first delay of at least the minimum every retry waits at least 19 ms. |
| `TxnDelayTracker.WaitForCompletion` | internal/maidenlanetx/txnprocessor.go:387-430 | The polling loop ends with a receipt or a timeout and makes at most maxWait / 19 ms + 2 polls, whatever the node answers. |
| `EventStream.EventsAreConserved` | internal/maidenlaneevents/eventstream.go:393-544 | In every run: accepted events are all dequeued batches, queued batches and the partial batch in order; batches have 1 to batchSize events; the in-flight count is what was counted less what was processed, and never negative. |
| `EventStream.AckedBatchesWereSent` | internal/maidenlaneevents/eventstream.go:508-593 | With suspend, resume and stop at any moment: in block mode a batch is acknowledged only after a webhook attempt for it succeeded, in skip mode only after one succeeded or one failed with no time left to retry. |
| `EventStream.FailedAttemptIsRetried` | internal/maidenlaneevents/eventstream.go:565-593 | While the stream is not suspended or stopped, an attempt that fails with time left, or at any time in block mode, is followed by another for the same batch before the batch is subtracted or acknowledged, whatever else happens. |
| `EventStream.RetryComes` | internal/maidenlaneevents/eventstream.go:508-593 | And at most three steps of the processor lead to that attempt. |
| `EventStream.LastAttemptIsFinal` | internal/maidenlaneevents/eventstream.go:520-593 | A successful attempt, and in skip mode a failed one with no time left, is the last for its batch: the batch is subtracted before the next is taken, and not attempted again. |
| `EventStream.NextBatchIsDelivered` | internal/maidenlaneevents/eventstream.go:475-560 | From any state of an idle, running stream with a batch waiting, a successful attempt lets the processor take the oldest batch, subtract exactly its events and acknowledge it under its number. |
| `EventStream.OnePollerOneProcessor` | internal/maidenlaneevents/eventstream.go:281-293 | In every run the poller and the processor go only from a suspended or stopped stream, and a resumption takes effect exactly if both have gone; otherwise it changes nothing. |
| `EventStream.PendingIsAQueue` | internal/maidenlaneevents/eventstream.go:393-560 | The events not yet acknowledged or dropped form one first-in first-out queue over every step. |
| `EventStream.StepKeepsAcksSafe` | internal/maidenlaneevents/eventstream.go:460-560 | Every step keeps the reason why a retry without attempts does no harm: its flag stays set while the processor lives. |
| `EventStream.IdleStreamIsBlockedIff` | internal/maidenlaneevents/eventstream.go:300-309 | The in-flight count of a stream with nothing in it is the number of events dropped in its run, so it is blocked exactly if a batch size of them were. |
| `EventStream.OnlyStalledStreamsDrop` | internal/maidenlaneevents/eventstream.go:513-549 | A step drops a batch only while the stream is suspended or stopped. |
| `EventStream.AbandonedIsDropped` | internal/maidenlaneevents/eventstream.go:539-544 | What is never subtracted from the in-flight count is exactly what the steps of the run dropped. |
| `EventStream.AbandonedBatchesBlockForever` | internal/maidenlaneevents/eventstream.go:539-549 | Once that many events were dropped, the stream is blocked in every continuation. |
| `EventStream.SuspendAndResumeCanWedge` | internal/maidenlaneevents/eventstream.go:281-293 | A concrete run of one event, one failed attempt, suspend and resume ends idle, running and blocked. |
| `EventStream.EventStream.Dispatch` | internal/maidenlaneevents/eventstream.go:441-456 | The dispatcher's section counts the event, and queues the batch if it is full or timed out. |
| `EventStream.EventStream.TakeNext` | internal/maidenlaneevents/eventstream.go:492-496 | The processor's section takes the oldest batch and numbers it. |
| `EventStream.EventStream.AdjustInFlight` | internal/maidenlaneevents/eventstream.go:540-544 | A processed batch is subtracted; the unsigned count would wrap if it were too small. |
| `EventStream.EventStream.Resume` | internal/maidenlaneevents/eventstream.go:281-293 | Refused unless poller and processor are both done; otherwise clears the three flags. |
| `Subscription.HandedLogsAreCompletedOrRecoverable` | internal/maidenlaneevents/eventstream.go:319-376 | Over any number of crashes, in runs that are steady for its subscription and whose batches end on whole blocks of it, whatever the other subscriptions do: a log handed to the stream is in an acknowledged batch or at or above the stored checkpoint. |
| `Subscription.RestartReadsAgain` | internal/maidenlaneevents/subscription.go:133-178 | Such a log that is not acknowledged is read again: after a crash the filter starts at or below its block and has not passed it. |
| `Subscription.PassedLogIsHandedAgain` | internal/maidenlaneevents/subscription.go:204-232 | A crash leaves nothing pending; whatever follows short of a stop, with further crashes or not, a log that was handed over before, is not acknowledged and has been passed by its filter is pending again. |
| `Subscription.HandedLogsAreNearOrLost` | internal/maidenlaneevents/logprocessor.go:71-81 | Even if batches split blocks, in steady runs: every log that was handed over is acknowledged, or at most one block below the poller's checkpoint, or passed by it and its filter. If no positive checkpoint of its subscription was overwritten, the same holds for the stored checkpoint, and what is passed is lost for good. |
| `Subscription.HandedLogFallsBehind` | internal/maidenlaneevents/logprocessor.go:71-81 | A concrete run in which such a lost log ends two blocks below the stored checkpoint. |
| `Subscription.PendingLogsAreNearCheckpoint` | internal/maidenlaneevents/logprocessor.go:71-81 | A pending log lies at most one block below the poller's checkpoint, and below the stored one if no positive checkpoint of its subscription was overwritten. |
| `Subscription.AckIsSafeIffBlocksAreWhole` | internal/maidenlaneevents/logprocessor.go:71-81 | Acknowledging a batch keeps everything wanted of a subscription recoverable exactly if the last block of that subscription in it is wholly acknowledged with it. |
| `Subscription.SplitBlockLosesRest` | internal/maidenlaneevents/logprocessor.go:71-81 | If it is not, then recording the checkpoint and a crash lose the rest of the block. |
| `Subscription.SplitBlockIsLost` | internal/maidenlaneevents/logprocessor.go:71-81 | A concrete run from the start, with batch size one and two logs in a block, in which the second log is lost. |
| `Subscription.LostForever` | internal/maidenlaneevents/eventstream.go:328-357 | A log that is not pending and below every height from which filters start is not recovered by any steady run in which no positive checkpoint of its subscription is overwritten. |
| `Subscription.CrashLosesWhatIsBelowCheckpoint` | internal/maidenlaneevents/eventstream.go:328-341 | A crash loses an uncompleted log exactly if it is below the stored checkpoint. |
| `Subscription.LatestWithoutCheckpointStartsAtHead` | internal/maidenlaneevents/subscription.go:141-151 | Without a positive checkpoint a subscription from latest reads again, of what it was handed, only the logs of the newest block. |
| `Subscription.LatestMissesLog` | internal/maidenlaneevents/subscription.go:141-151 | A concrete run, with a crash before any checkpoint is stored, after which the new filter starts above a log that was handed over. |
| `Subscription.OverwrittenCheckpointReadsAgainIff` | internal/maidenlaneevents/eventstream.go:328-375 | If a recovered subscription is recorded before its filter is set up, the filter starts at or below a log handed over before exactly if the first block is explicit or the log is in the newest block. |
| `Subscription.OverwritingLosesIff` | internal/maidenlaneevents/eventstream.go:328-375 | After a crash followed by such a recording, an unacknowledged log is lost for good exactly if the subscription is from latest and the log is not in the newest block, whatever the checkpoint was. |
| `Subscription.OverwrittenCheckpointLosesLog` | internal/maidenlaneevents/eventstream.go:361-375 | A concrete run in which a log above a positive stored checkpoint is lost that way. |
| `Subscription.ResetToBlockSurvivesCrashIff` | internal/maidenlaneevents/subscription.go:133-140 | After a reset to an explicit block, recording the checkpoint and a crash, the filter starts at that block exactly if there was no high-water mark or it was that block; else at the old mark. |
| `Subscription.StepKeepsInv` | internal/maidenlaneevents/eventstream.go:319-376 | Every step of chain, poller, stream and crash keeps the order of heights, checkpoints and pending logs, and the nearness of one subscription's logs if it is steady for that one. |
| `Subscription.LogProcessor.BatchComplete` | internal/maidenlaneevents/logprocessor.go:71-81 | Raises the high-water mark to the block after the last acknowledged one, never lowers it. |
| `Subscription.Runtime.Refresh` | internal/maidenlaneevents/eventstream.go:342-352 | A stale filter is set up from the checkpoint if it is positive, else from the first block; an explicit first block leaves the high-water mark alone. |
| `Subscription.Runtime.Unsubscribe` | internal/maidenlaneevents/subscription.go:234-248 | Leaves the filter stale and clears the request for a reset. |
| `Subscription.RecordCheckpoint` | internal/maidenlaneevents/eventstream.go:361-375 | Puts every high-water mark into the checkpoint, leaves other entries, and reports a change exactly if there was one. |
| `SubscriptionManager.RecoveryEqualsMemory` | internal/maidenlaneevents/submanager.go:379-432 | After any operations whose writes succeed, a new manager on the same store holds the same streams and subscriptions apart from summaries, and every subscription names a live stream. |
| `SubscriptionManager.RestartRecoversLastWritten` | internal/maidenlaneevents/submanager.go:144-432 | After any operations, refused or not, with any failures of the store, a restart recovers under each key what was last written and not deleted since: every stream, and every subscription whose stream is recovered. |
| `SubscriptionManager.ApplyHasEffect` | internal/maidenlaneevents/submanager.go:144-377 | Under each key an operation leaves, writes or deletes exactly what its own definition of effects says. |
| `SubscriptionManager.SingleWriteIsAllOrNothing` | internal/maidenlaneevents/submanager.go:215-221 | For every operation but the deletion of a stream, after operations that succeeded, a restart recovers the memory before it if its write failed, and the memory after it otherwise. |
| `SubscriptionManager.DeletedStreamRecovers` | internal/maidenlaneevents/submanager.go:276-294 | For every combination of failing deletes, a restart after the deletion of a stream recovers the stream if its own delete failed, with those of its subscriptions whose deletes failed, and all others. |
| `SubscriptionManager.DeletedStreamIsForgottenIff` | internal/maidenlaneevents/submanager.go:276-294 | So the memory before is recovered exactly if no delete of the stream or its subscriptions took effect, and the memory after exactly if the stream's own delete did. |
| `SubscriptionManager.RefusedUpdateIsKeptIff` | internal/maidenlaneevents/eventstream.go:217-253 | After an update refused for its webhook, memory and store agree exactly if the other fields were the same before. |
| `SubscriptionManager.NormalizeIsIdempotent` | internal/maidenlaneevents/eventstream.go:111-143 | Normalising a specification again changes nothing, so a restart does not change a stream. |
| `SubscriptionManager.NormalIff` | internal/maidenlaneevents/eventstream.go:111-143 | A specification is normal exactly if all its fields are in range. |
| `SubscriptionManager.NormalizeMeaning` | internal/maidenlaneevents/eventstream.go:106-143 | A specification is accepted exactly with an id, the type webhook and a URL that parses; the batch size becomes the nearest from 1 to 1000, missing times become 5000 ms, 30 s and 30000 s, errors block only if it says so, and all else stays. |
| `SubscriptionManager.UpdateKeepsNormal` | internal/maidenlaneevents/eventstream.go:217-251 | An update leaves a normal specification normal and keeps its id. |
| `SubscriptionManager.UpdateMeaning` | internal/maidenlaneevents/eventstream.go:217-251 | Field by field: numbers change only if wanted and a batch size only from 1 to 999; error handling, name and timestamps always; the webhook only if its URL parses; nothing else. |
| `SubscriptionManager.StoredBlockIsReadBack` | internal/maidenlaneevents/submanager.go:129-141 | The first block that is stored is read back in base 10 as the number that was given, or stays latest. |
| `SubscriptionManager.AddedSubscription` | internal/maidenlaneevents/submanager.go:144-169 | A subscription is added exactly if its first block, stream and event are good; it then has the given address or none, the event's topic, the given name or the summary, and a first block that reads back, and is stored without its summary; otherwise nothing changes. |
| `SubscriptionManager.OpAgrees` | internal/maidenlaneevents/submanager.go:144-330 | Every operation keeps memory and store in agreement under every key of the store. |
| `SubscriptionManager.CheckpointStays` | internal/maidenlaneevents/submanager.go:350-377 | A checkpoint stays in the store until it is stored again or its stream is deleted. |
| `SubscriptionManager.SubscriptionManager.DeleteStream` | internal/maidenlaneevents/submanager.go:276-294 | Removes the stream and its subscriptions from memory; in the store, each record on its own, failures for subscriptions ignored, the checkpoint only after the stream's record. |
| `SubscriptionManager.SubscriptionManager.UpdateStream` | internal/maidenlaneevents/submanager.go:255-265 | Changes the fields in memory, is refused exactly for an unknown stream or a bad webhook, and stores only if not refused. |
| `SubscriptionManager.SubscriptionManager.ResetSubscription` | internal/maidenlaneevents/submanager.go:176-196 | Changes and stores the first block, exactly if the subscription exists and the block parses. |
| `SubscriptionManager.SubscriptionManager.Init` | internal/maidenlaneevents/submanager.go:379-432 | The two loops over all keys compute the recovered streams and subscriptions. |
| `SubscriptionManager.StoredKeysAreIds` | internal/maidenlaneevents/submanager.go:388-432 | The operations store every record under its own identifier, which recovery relies on. |
| `SubscriptionManager.SubscriptionManager.LoadCheckpoint` | internal/maidenlaneevents/submanager.go:350-365 | Empty if never stored, the stored one if readable, an error otherwise. |
| `AbiTyping.RoundTripIffCanonical` | internal/maidenlaneeth/txn.go:539-646 | For every type and every JSON value: it becomes a Go value of exactly that type and maps back to itself if and only if it is canonical and in range and its type has no fixed array in use. |
| `AbiTyping.ComesBackIffSurvives` | internal/maidenlaneeth/txn.go:216-303 | For every type and every Go value of it: it maps to JSON that becomes the same value if and only if it holds no fixed array, empty bytes, missing number, or number beyond 64 bits for a smaller odd size. |
| `AbiTyping.GeneratedHasType` | internal/maidenlaneeth/txn.go:488-537 | Whatever is generated is of the wanted type all the way down, except for bytes of another length at the top. |
| `AbiTyping.ArraysNeverMap` | internal/maidenlaneeth/txn.go:262-266 | A generated fixed array is always refused on the way back. |
| `AbiTyping.NumbersRoundTripIff` | internal/maidenlaneeth/txn.go:545-583 | A number comes back exactly if it is written in canonical decimal and fits its machine size, or 64 bits for smaller odd sizes. |
| `AbiTyping.WrapKeepsIffFits` | internal/maidenlaneeth/txn.go:552-576 | The narrowing conversions keep a number exactly if it fits. |
| `AbiTyping.FieldsRoundTripIff` | internal/maidenlaneeth/txn.go:513-537 | The fields of a tuple come back exactly if each is there and canonical. |
| `AbiTyping.LargeNumberIsSentAsAnother` | internal/maidenlaneeth/txn.go:567-570 | A concrete number that does not fit eight bits becomes zero. |
| `AbiInputs.NumberIsItsTextIff` | internal/maidenlaneeth/txn.go:446-486 | A JSON number is typed like the decimal text of its integer part if and only if that is in range: 64 bits of the sign of the type, or of a signed number where the value becomes a big number. |
| `AbiInputs.TruncatesTowardsZero` | internal/maidenlaneeth/txn.go:454-481 | The integer part is the number cut off towards zero. |
| `AbiInputs.NumberFromText` | internal/maidenlaneeth/txn.go:446-576 | Text for a machine size becomes the number that is congruent to it and fits, if it fits 64 bits, and is refused otherwise. |
| `AbiInputs.BoolFromText` | internal/maidenlaneeth/txn.go:581-587 | Text for a truth value is typed like the truth value that says whether it is "true" in any case. |
| `AbiInputs.AddressFromText` | internal/maidenlaneeth/txn.go:593-600 | An address is accepted exactly with 40 hexadecimal digits, and typed like their lower-case form with prefix. |
| `AbiInputs.BytesFromNumbers` | internal/maidenlaneeth/txn.go:601-635 | A list for bytes is typed like the hexadecimal text of its numbers cut off, in order, and refused exactly if some item is no number from 0 to 255. |
| `AbiInputs.BytesFromText` | internal/maidenlaneeth/txn.go:621-635 | Text for bytes gives the bytes it decodes to, in order; none give an empty array also where a slice was wanted. |
| `AbiInputs.OtherKindIsRefused` | internal/maidenlaneeth/txn.go:539-646 | A JSON kind that a type does not take is refused with the reason of that type. |
| `AbiInputs.SliceFromItems` | internal/maidenlaneeth/txn.go:488-511 | Element i of a slice is what item i generates; the first item without a value of the element type decides the failure. |
| `AbiInputs.ArrayFromItems` | internal/maidenlaneeth/txn.go:488-511 | A fixed array has its length, element i is what item i generates, and the places after the items are zero; the first item that has no value, another type or no place decides the failure. |
| `AbiInputs.StructFromObject` | internal/maidenlaneeth/txn.go:513-537 | Each field of a struct, in order, is what the member of its name generates, other members do not matter; the first field that is missing or cannot be assigned decides the failure. |
| `AbiInputs.SliceIsWrittenItemwise` | internal/maidenlaneeth/txn.go:263-277 | A slice is written item by item, or refused for its first item that cannot be written. |
| `AbiInputs.StructIsWrittenFieldwise` | internal/maidenlaneeth/txn.go:285-303 | A struct of exactly the tuple's type is written with one member for each field, another is refused. |
| `Text.ParsedIsDecIff` | internal/maidenlaneeth/txn.go:216-238 | Reading a number and writing it gives the same text exactly for canonical decimals. |
| `Text.DecParses` | internal/maidenlaneeth/txn.go:446-486 | Every number that is written is read back, without sign exactly if it is not negative. |
| `Text.SignsAndZeros` | internal/maidenlaneeth/txn.go:446-486 | A zero in front or a plus sign changes nothing, a minus sign negates, and unsigned numbers have no sign. |
| `Text.HexIsWrittenBackIff` | internal/maidenlaneeth/txn.go:618-641 | Reading bytes and writing them gives the same text exactly for non-empty lower-case hexadecimal with prefix. |
| `Text.HexParses` | internal/maidenlaneeth/txn.go:251-261 | Bytes that are written are read back, except that no bytes come back as one zero byte. |
| `Text.DecodedIsLongestFront` | internal/maidenlaneeth/txn.go:621-622 | Decoding gives the bytes of the longest front of hexadecimal pairs, upper or lower case. |
| `Text.PrefixAndPadding` | internal/maidenlaneeth/txn.go:593-622 | A prefix is optional and may be in either case; a zero is put in front of an odd number of digits. |
| `Text.HexIgnoresCase` | internal/maidenlaneeth/txn.go:593-622 | The case of hexadecimal text does not matter. |
| `InlineParams.FlattenMeaning` | internal/maidenlaneeth/txn.go:687-732 | Every parameter is read against the declared inputs alone and keeps its value or gives up the one inside; inputs take the inline types and grow to the last of them. |
| `InlineParams.FlattenStatus` | internal/maidenlaneeth/txn.go:687-732 | Flattening stops exactly at a parameter that cannot be read; too many parameters are an error exactly if none has a type of its own. |
| `InlineParams.StopsAtFirstRefused` | internal/maidenlaneeth/txn.go:703-726 | Flattening stops at the first object outside a declared tuple that lacks a value or a type, has a type that is no text, or an unknown one, and says which of these it is. |
| `InlineParams.FlatteningAgainIsIdleIff` | internal/maidenlaneeth/txn.go:314-317 | Flattening changes nothing exactly if no value is an object outside a declared tuple and there are no more values than inputs. |
| `InlineParams.TypedMeaning` | internal/maidenlaneeth/txn.go:662-679 | Typing gives, for each argument in turn, the value generated from its own parameter. |
| `InlineParams.TypingFailsAtFirst` | internal/maidenlaneeth/txn.go:662-679 | If typing fails, the first argument without a parameter or with one that cannot be typed decides how. |
| `InlineParams.InlineByNameIsBare` | internal/maidenlaneeth/txn.go:307-333 | Typing an inline list by method name gives the same arguments or failure as typing the bare values against those types. |
| `InlineParams.InlineOverridesDeclaration` | internal/maidenlaneeth/txn.go:649-679 | So does typing it against any declaration without tuples that is no longer, unless a value for another type than a tuple is an object, in which case it fails. |
| `InlineParams.InlineRoundTrip` | internal/maidenlaneeth/txn.go:307-333 | Inline lists of canonical values become Go values that map back to them. |
| `InlineParams.SurplusIsDroppedIffInline` | internal/maidenlaneeth/txn.go:687-691 | Surplus parameters are refused exactly if none has a type of its own; otherwise only as many are typed as there are inputs. |
| `InlineParams.Method.FlattenParams` | internal/maidenlaneeth/txn.go:687-732 | The loop that rewrites the inputs in place computes the flattening, with the note of too many parameters overwritten as in the source. |
| `InlineParams.Method.GenerateTypedArgs` | internal/maidenlaneeth/txn.go:649-679 | Flattens and types argument by argument, stopping at the first failure. |
| `LogDecoding.ProcessLogEntry` | internal/maidenlaneevents/logprocessor.go:96-159 | Fails for bad data first, then exactly at the first indexed input without a topic; otherwise every indexed input has the value of its own topic, the others are outputs with their own values from the data, and these prevail. |
| `LogDecoding.DecodingIsDetermined` | internal/maidenlaneevents/logprocessor.go:96-159 | The contract of ProcessLogEntry leaves exactly one result. |
| `LogDecoding.EmittedLogDecodes` | internal/maidenlaneevents/logprocessor.go:120-153 | A log emitted for an event, whose data field decodes, is decoded without error: data outputs prevail, and every indexed input whose name nothing else takes has the value that was emitted for it. |
| `LogDecoding.ProcessRLPBytes` | internal/maidenlaneeth/txn.go:162-214 | The loop gives exactly one output for each unpacked value, under its name or, without one, "output" and its place; if unpacking fails, the count differs or a value cannot be mapped, the error keys are added, to the outputs before that value and its null. |
| `LogDecoding.DataDecodes` | internal/maidenlaneevents/logprocessor.go:147-153 | If the data unpacks to one value for each input that is not indexed and each maps, every such input has its own mapped value under its name unless a later one has that name, and no other key is there. |
| `LogDecoding.CanonicalDataIsShown` | internal/maidenlaneevents/logprocessor.go:147-153 | Canonical JSON that was typed and put into the data is what the decoded log shows. |
| `LogDecoding.DataErrorIsShown` | internal/maidenlaneeth/txn.go:162-183 | If unpacking fails, the count differs or a value cannot be mapped, the log has the bytes, the raw values and the error. |
| `LogDecoding.ValuesBeforeErrorStay` | internal/maidenlaneeth/txn.go:192-213 | The outputs before the first value that cannot be mapped keep their entries, and it has a null. |
| `LogDecoding.UnnamedOutputsDiffer` | internal/maidenlaneeth/txn.go:203-212 | Two outputs without a name have different keys. |
| `LogDecoding.DataNeedsPrefix` | internal/maidenlaneevents/logprocessor.go:98-104 | Data without the prefix 0x counts as no bytes. |
| `LogDecoding.TopicsSufficeIff` | internal/maidenlaneevents/logprocessor.go:130-133 | Topics run out exactly if there are fewer than the indexed inputs and the signature need. |
| `LogDecoding.TopicsInOrder` | internal/maidenlaneevents/logprocessor.go:120-136 | Different indexed inputs get different topics, in order. |
| `LogDecoding.DataInputsInOrder` | internal/maidenlaneevents/logprocessor.go:140-146 | An input that is not indexed is at its place, in original order, among the inputs for the data decoder. |
| `LogDecoding.SignedIsUnique` | internal/maidenlaneevents/logprocessor.go:166-170 | The decoded integer is the unique one in [-2^255, 2^255) congruent to the topic modulo 2^256. |
| `LogDecoding.TopicDecodes` | internal/maidenlaneevents/logprocessor.go:161-185 | Every value a contract can emit in a topic is decoded to itself. |
| `LogDecoding.TopicMeaning` | internal/maidenlaneevents/logprocessor.go:134-185 | For any topic: a truth value is whether one of the last eight bytes is not zero, an address is the last twenty bytes, other types show the topic itself in hexadecimal, and a missing topic is null. |
| `LogDecoding.NumberTopicsAreDistinguished` | internal/maidenlaneevents/logprocessor.go:163-174 | The text of a decoded number determines its topic. |
| `WebhooksKafka.EachSendGetsItsOwnOutcome` | internal/maidenlanerest/webhookskafka.go:60-133 | In every interleaving the three maps are disjoint, hold exactly the ids of acknowledged sends that have not returned, and a send that returned got its own outcome. |
| `WebhooksKafka.MapsEmptyIffAllReturned` | internal/maidenlanerest/webhookskafka.go:66-80 | The maps are empty exactly if every acknowledged send has returned. |
| `WebhooksKafka.ConfirmedSendReturns` | internal/maidenlanerest/webhookskafka.go:66-80 | No wake-up is lost: a confirmed send that still waits is awake and its next turn returns its outcome. |
| `WebhooksKafka.UnackedConfirmationChangesNothing` | internal/maidenlanerest/webhookskafka.go:104-108 | A confirmation of a send that asked for no acknowledgement changes no map and wakes nobody. |
| `WebhooksKafka.WebhooksKafka.CheckForSend` | internal/maidenlanerest/webhookskafka.go:66-80 | One turn of the waiter takes a failure first, then a success, and removes it. |
| `WebhooksKafka.WebhooksKafka.ProducerError` | internal/maidenlanerest/webhookskafka.go:94-113 | A failure is recorded and wakes the waiters exactly if the message is pending. |
| `WebhooksKafka.WebhooksKafka.ProducerSuccess` | internal/maidenlanerest/webhookskafka.go:115-133 | A success is recorded and wakes the waiters exactly if the message is pending. |

## Left out

- ProcessRLPBytes: with no outputs at all, the difference between no values and an empty list of them is not modelled; a
  log is only decoded with at least one.
- BoolFromText: lower case is that of ASCII; no other character has one of the letters of "true" as its lower case.
- One input topic is modelled: the configuration names a single one, and the partition comparison ignores it.
- Order of delivery: `CommitRefinesLongestConfirmedPrefix` and what rests on it assume that a message that is not in
  flight is higher than all delivered before it in its partition; `EveryRunIsSafe` does not.
- A failed send of a reply makes the bridge panic by design; that end of a run is not a step of the model.
- The stream's processor and its retry loop are steps of `EventStream.Step` instead of methods with loops, because
  suspend, resume and stop may fall between any two reads of their flags; the lock-protected sections are methods.
- Resolving a signer, an address book entry, a privacy group and an address happens before the lock and is one step,
  `Reject`, if it fails; Ethereum calls return whatever the node answers.
- `KeptLockStopsEveryTransaction` speaks of one processor; a restart of the process is not modelled there.
- Stream updates (the wait groups, and the partial batch that an update discards) are in `SubscriptionManager` only,
  as a change of the specification.
- Steady runs: the at-least-once results exclude suspension and reset; and, for a subscription from latest only, setting
  up its filter without a positive checkpoint while a log that it was handed is neither acknowledged nor in the newest
  block, which is exactly when that log is missed (LatestWithoutCheckpointStartsAtHead, OverwritingLosesIff).
- HandedLogsAreCompletedOrRecoverable: holds for batches that end on whole blocks. Without that condition it is false of
  the code, as SplitBlockIsLost shows for the checkpoint and HandedLogFallsBehind for one block below it;
  HandedLogsAreNearOrLost says what remains.
- LostForever: supposes that no positive checkpoint is overwritten; with an explicit first block that would read the log
  again, as OverwrittenCheckpointReadsAgainIff says.
- Logs that cannot be decoded are skipped by the source; the logs of the model's chain are those that can.
- Sends on the closed channel after a stop, counters at 2^64 other than the tracer count and the in-flight count, and
  negative block heights.
- Rounding: averages and delays are reals, and the quotient by a zero average counts as no reset.
- Machine: the conversion of a floating-point number beyond 64 bits is left open, as the language leaves it.
- WellFormed: tuples with two members of the same name are excluded from the round trips, as Solidity excludes them.
- The ABI library's packing and type names, hexadecimal decoding of log data, RLP, signing, JSON text, URLs and lower
  case are parameters or identities; function types stand for all types that the code does not support.
- ArgsByName: a name, `tuple`, read as an inline type has no members, as in the library.
- Message identifiers and stream and subscription identifiers are fresh; clocks and timestamps are values.
- The poller's choice of subscriptions, filters on addresses and event timestamps.
- HTTP, TLS, wallets, registries, receipts stores and configuration: they would add easy members only.
