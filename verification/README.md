# natsmqtt5: a verified model of the hard parts

natsmqtt5 is an MQTT 5.0 broker on NATS JetStream. This project models its hardest machinery in Dafny and proves
what its design comments promise. Where a promise does not hold of the code as it stands, the model keeps the code
as it is, a lemma gives the input or the state in which the promise fails, and another gives the exact condition
under which it holds.

The parts, and the files that hold them:

- **The replay cursor** (`Cursors`, `CursorRuns`, `CursorSafety`, `CursorAccounts`, `CursorTheorems`, `CursorLimits`,
  `CursorFailures`, `CursorRestore`, `CursorHandover`, `CursorAnswers`, `ReplaySession`, `Replay`). A session's cursor
  is a sequence `next`, the holes below it and the ids delivered at or above it. `Cursors` says what each operation
  does to these values, `ReplaySession` is the object whose methods change the fields in place and do exactly that,
  and `CursorRuns` is a state machine over an append-only stream in which messages are stored and age out, live copies
  arrive, deliveries are noted and forgotten, subscriptions come and go, connections end and resume, and scans,
  restarts and replays race all of it. A replay starts at the cursor, at a time or at a sequence, as the code chooses.
  In every state of every run nothing owed is skipped and nothing delivered is repeated. The first of these needs only
  four of the things the second relies on, and is proved over the runs that keep to those. `CursorHandover` hands a
  session on through a record. `CursorAnswers` says exactly when a cursor is kept, moved, started or given up, and to
  where. `Replay` is the replay itself, with reads that fail and are repeated.
- **What a connection holds** (`Floor`, `FloorProgress`). The dispatcher, the delivery goroutine and a scan interleave
  action by action; the floor the scan reads is never above a message the connection still holds.
- **QoS 2 across connections, takeovers and killed brokers** (`Qos2`, `Qos2Safety`, `Qos2Receipts`, `Qos2Limits`,
  `Qos2Progress`).
  Volatile memory, a durable record written before each packet that advances an exchange, a client that follows
  section 4.3.3 of MQTT 5.0, claims by another broker while the owner is alive, and a kill that may come at any step.
- **Packet Identifiers and the send quota** (`Exchanges`, `PacketSession`), section 4.9 of MQTT 5.0.
- **Ownership of the session record** (`Ownership`): brokers race by compare-and-swap, replies are lost, the watcher
  is late.
- **What a record carries** (`Records`): ids, chunks, failed writes, trims and unreadable chunks.
- **Wills** (`Wills`, `Fencing`): a stored Will is published at most once, and an owner that is cut off has closed its
  clients before a survivor adopts its Wills.
- **Topics and subjects** (`Topics`, `Subjects`, `Filters`): the one-pass mapping, MQTT matching against NATS
  matching, and the fold of overlapping filters.
- **Aliases and the codec** (`Codec`, `Publishes`, `PublishCodec`, `Accepted`, `PublishSizes`, `Aliases`): the PUBLISH
  packet, exactly what is accepted and what can be written, and the table of outbound Topic Aliases.

A state machine here is a datatype for the state, a predicate for when a step can happen, `Do` for what it does, an
invariant, one lemma for each step that keeps it, and a lemma over every run. Where the invariant relies on something
the code does not check, `Relied` says so apart from `Enabled`, and the list below names the lemmas that show what
happens without it: a run from a new session in which only that fails, and the exact condition, which can be looked at
before the step.

An invariant alone would hold of code that refuses everything. So beside each there are lemmas that say what an
operation answers, in terms of its inputs, and that what is left alone gets done: a message is delivered and its
exchange completed, a copy is sent, a save goes through, a Will is published.

### What the code does not ensure

- A replay's filters are chosen before the stream's end is read, and `replayedTo` does not compare the subscriptions
  again. `CursorFailures.UncheckedReplaySkips`; exact condition `CursorLimits.ReplayEndExact`.
- `scanOnce` looks at the sinces before it copies the subscriptions, for a scan and for a restart.
  `CursorFailures.EarlyScanSkips` and `CursorFailures.EarlyRestartSkips`; exact conditions `CursorLimits.ScanExact`
  and `CursorLimits.RestartReadExact`.
- A SUBSCRIBE can start the cursor above something a since set meanwhile makes it owe, or long after it read the
  stream's end. `CursorFailures.LowSinceStartSkips`; exact conditions `CursorLimits.StartExact` and
  `CursorFailures.StaleStartExact`.
- `awayFloor` hands a replay the lowest sequence it owes without testing it against the sequence window, as `lateCopy`
  does. `CursorFailures.UnsentStartRepeats`; exact condition `CursorFailures.SequenceStartExact`.
- `awayFloor` takes the time before it waits for the delivery goroutine. Exact condition:
  `CursorFailures.LateEndExact`.
- A live copy of a message whose id has been forgotten becomes a hole. Exact condition:
  `CursorFailures.LiveCopyExact`.
- A copy that carries no sequence overwrites the mark its queued copy left, and a later pruning pass forgets it.
  `CursorFailures.UnsequencedCopyRepeats`; exact condition `CursorFailures.UnsequencedExact`.
- A record names what was delivered within the rewind and `checkpointSkew` before it was made, and what is at or above
  the cursor by its sequence. A restored cursor repeats an older message noted without one, and a restored session
  takes its sequence window for known. `CursorHandover.UnsequencedHandover` and `CursorHandover.SequencedHandover`;
  exact conditions `CursorHandover.CursorReplayExact`, `CursorHandover.CursorHandoverExact` and
  `CursorHandover.HandoverExact`.
- A claim from a live owner clears the delivered ids, and the next record goes back by the rewind all the same. Exact
  condition, with the failing runs: `Qos2Limits.TakeoverExact`.
- `retransmit` sends what memory holds without writing a record first. `Qos2Limits.UnrecordedResendRepeats`; exact
  condition `Qos2Limits.ResendExact`.
- An acknowledgement a displaced connection reads late can complete a reused identifier, and an identifier can be
  reused that the client still holds, which repeats nothing and can lose a message.
  `Qos2Limits.LateCompletionRepeats`, `Qos2Limits.ClearedEntryLoses` and `Exchanges.LateAckStrandsSlot`; exact
  conditions `Qos2Limits.TrackExact` and `Exchanges.AcknowledgeExact`.
- A record can list an identifier as withdrawn and in flight. `Exchanges.RecordNamesTwice`; exact condition
  `Exchanges.RestoreExact`.
- A Will whose registration succeeded but whose reply was lost is published from memory and, later, by an adopter.
  Exact condition: `Wills.RegisterExact`. So is one whose holder gives up on the store: `Wills.AdoptedThenGivenUp`,
  exact condition `Wills.GiveUpExact`. One whose removal lost its reply is never published: `Wills.LostRemovalLoses`.
- The comment that a full alias table costs at most 3 bytes per alias leaves out the two length fields: the exact cost
  is `Aliases.SettingCosts`, and `Aliases.SettingCostsFive` is a PUBLISH that costs 5.

## Model

| member | source | states |
|---|---|---|
| `Cursors.LowestSeq` | session.go:1222-1230 | the lowest of the sequences that are set, and 0 exactly when none is |
| `Cursors.PutKeepsInverted` | cursor.go:125-132 | adding a hole keeps the holes and their reverse index inverse maps |
| `Cursors.RemoveKeepsInverted` | cursor.go:134-139 | removing a hole by id removes exactly the hole with that id and keeps the two maps inverse |
| `Cursors.SettleKeepsInverted` | cursor.go:713-717 | settling the holes a replay passed keeps the two maps inverse |
| `ReplaySession.Session.RemoveHole` | cursor.go:134-139 | in place, exactly `Cursors.RemoveHole` |
| `ReplaySession.Session.SetCursorLocked` | cursor.go:181-188 | replaces the cursor: no holes, a new generation, no pin, no base |
| `ReplaySession.Session.AddHoleLocked` | cursor.go:215-239 | in place, exactly `Cursors.AddHole`: drops below the base, without an id or past the bound, ignores a delivered id or a known hole, otherwise a new hole; the two indexes stay inverse |
| `ReplaySession.Session.NoteLiveCopy` | cursor.go:245-262 | a copy below next becomes a hole; any other changes nothing; the two indexes stay inverse |
| `ReplaySession.Session.SinceKnownLocked` | cursor.go:277-284 | true exactly when every non-shared subscription has its since |
| `ReplaySession.Session.CountAboveLocked` | cursor.go:635-643 | the number of delivered ids at or above a sequence |
| `ReplaySession.Session.NoteDelivered` | session.go:1526-1562 | in place, exactly `Cursors.NoteDelivered`: mark, hole removed, count, and the pruning pass when it is due |
| `ReplaySession.Session.PruneLocked` | session.go:1545-1562 | forgets exactly the prunable ids and drops the cursor when those it keeps outgrow their bound |
| `ReplaySession.Session.SweepLocked` | session.go:1545-1559 | the loop over the ids: counts those the cursor or a pin keeps and deletes exactly the prunable ones |
| `ReplaySession.Session.ApplyScanLocked` | cursor.go:452-494 | in place, exactly `Cursors.ApplyScan`, with what it reports |
| `ReplaySession.Session.RestartCursorLocked` | cursor.go:586-632 | in place, exactly `Cursors.RestartCursor`, refusing in the same cases |
| `ReplaySession.Session.RestartFound` | cursor.go:605-617 | the holes a restart finds, or a refusal when one has no id |
| `ReplaySession.Session.PinForReplay` | cursor.go:665-671 | pins at the sequence, or at 1, only without a cursor |
| `ReplaySession.Session.FillSinces` | cursor.go:690-694 | sets exactly the sinces that are unknown among the named subscriptions |
| `ReplaySession.Session.ReplayedTo` | cursor.go:678-723 | in place, exactly `Cursors.ReplayedTo`: starts a cursor only under the pin, settles the holes passed and moves next forward |
| `ReplaySession.Session.SettleLocked` | cursor.go:713-717 | removes by id exactly the holes the replay had and passed that are still there |
| `ReplaySession.Session.SetSince` | cursor.go:730-744 | in place, exactly `Cursors.SetSince`: starts the cursor only when exact, alone, with nothing held and every since known |
| `ReplaySession.Session.RestoreCursorLocked` | cursor.go:747-763 | in place, exactly `Cursors.RestoreCursor`: a stored hole whose message is in flight is left out |
| `ReplaySession.StartOf` | cursor.go:147-155 | the lowest of next and the holes |
| `CursorAnswers.AddHoleAnswers` | cursor.go:215-239 | a message offered as a hole drops the cursor exactly when it lies below the base, has no id, or is new with the holes at their bound; otherwise the cursor stays and gains the hole exactly when it is new |
| `CursorAnswers.LiveCopyAnswers` | cursor.go:245-262 | the same for a live copy below next; any other changes nothing |
| `CursorAnswers.AddHolesAnswers` | cursor.go:476-489 | the loop over what a scan found gives the cursor up exactly for one it cannot hold or for want of room, and otherwise adds exactly the new ones with their ids |
| `CursorAnswers.ScanAnswers` | cursor.go:452-494 | when a scan is applied, stale, thrown away or drops the cursor; where next stands then, floor included, and the exact holes |
| `CursorAnswers.ScanReadAnswers` | cursor.go:386-414 | a scan reads exactly what is stored, still there and served, and flags exactly what is owed |
| `CursorAnswers.RestartAnswers` | cursor.go:586-632 | a restart sets a cursor exactly under its nine conditions, at the end it read or the floor |
| `CursorAnswers.ReplayMoves` | cursor.go:696-721 | after a replay from a cursor still set, next is the higher of what it was and of the end or the floor below it, and the holes left are those it did not have under the same id or did not reach |
| `CursorAnswers.ReplayAfterDrop` | cursor.go:690-712 | when the cursor was dropped meanwhile, only the sinces are set |
| `CursorAnswers.ReplayStarts` | cursor.go:700-709 | a replay without a cursor starts one exactly when the ids from its start on were kept, there is none, and nothing is held below the start |
| `CursorAnswers.SetSinceAnswers` | cursor.go:730-744 | exactly which sinces are set, and when and where the cursor starts |
| `CursorAnswers.InstallAnswers` | session.go:1076-1103 | when a replacement keeps its since, and that it is then owed all it would deliver of what its predecessor was |
| `CursorAnswers.RemoveAnswers` | session.go:1132-1141 | a removed subscription takes what only it was owed |
| `CursorAnswers.PinAnswers` | cursor.go:665-671 | a session without a cursor is pinned at the sequence, or at 1 |
| `CursorAnswers.NoteAnswers` | session.go:1526-1542 | the mark, the highest sequence, the hole removed and the count after a delivery |
| `CursorAnswers.PruneAnswers` | session.go:1543-1560 | exactly which ids a pass forgets, and when it drops the cursor |
| `CursorAnswers.PassDue` | session.go:1546-1546 | when a pass runs |
| `CursorAnswers.DropAnswers` | cursor.go:196-209 | a dropped cursor takes with it exactly the late sequences outside the window |
| `CursorAnswers.LateCopyAnswers` | session.go:1439-1494 | a late copy is noted exactly when a replay may start at it and none lower is |
| `CursorAnswers.DetachAnswers` | catchup.go:272-305 | the absence a connection leaves, with the lowest late sequence known |
| `CursorAnswers.BeginAnswers` | offline.go:690-746 | what a replay begins with, from a cursor, a time or a sequence |
| `CursorAnswers.HandleAnswers` | offline.go:808-822 | a message is sent exactly when its id is known to neither the session at the start nor the replay and a subscription takes it |
| `CursorSafety.KeepAppend` | cursor.go:26-38 | a stored message keeps every invariant |
| `CursorSafety.KeepExpire` | offline.go:302-316 | a message that ages out keeps every invariant |
| `CursorSafety.KeepTick` | session.go:1556-1558 | the passing of time keeps every invariant |
| `CursorSafety.KeepDeliver` | session.go:1526-1571 | noting a delivered queued message, pruning included, keeps every invariant |
| `CursorSafety.KeepDeliverOther` | session.go:1526-1571 | noting a message without a sequence, whether it has a copy in the queue or not, keeps every invariant |
| `CursorSafety.PruneKnown` | session.go:1546-1559 | a pruning pass that finds no old mark without a sequence removes no id at or above the cursor or the pin |
| `CursorSafety.KeepLiveCopy` | cursor.go:241-262 | a live copy that reaches the connection keeps every invariant |
| `CursorSafety.KeepLateCopy` | session.go:1439-1494 | a copy that reaches an ended connection, or none, keeps every invariant; it is noted under the cursor's rule or the window's |
| `CursorSafety.KeepDetach` | catchup.go:272-305 | the end of a connection keeps every invariant, whether it leaves a new absence or hands on the one its replay had not begun |
| `CursorSafety.KeptServes` | cursor.go:849-856 | a replacement that keeps its predecessor's since serves nothing the predecessor did not |
| `CursorSafety.KeepSubscribe` | session.go:1076-1103 | installing a subscription, new or replacing one, keeps every invariant |
| `CursorSafety.KeepUnsubscribe` | cursor.go:26-38 | removing a subscription keeps every invariant |
| `CursorSafety.KeepFillSinceStep` | cursor.go:725-744 | setting sinces, and starting the cursor, keeps every invariant |
| `CursorSafety.KeepReadScan` | cursor.go:363-414 | beginning, reading and abandoning a scan, and reading the stream's end, keep every invariant |
| `CursorSafety.ScanSkipsNothing` | cursor.go:473-493 | everything a scan passes was sent, is known by its id, or is a hole |
| `CursorSafety.KeepEndScan` | cursor.go:425-494 | applying a scan that raced deliveries, copies and subscriptions keeps every invariant |
| `CursorSafety.KeepReadRestart` | cursor.go:532-560 | a restart's read keeps every invariant |
| `CursorSafety.RestartKnows` | cursor.go:591-595 | when no pruning pass came later than the rewind after a time, no id delivered within the rewind before that time is forgotten |
| `CursorSafety.WindowKnows` | session.go:1476-1494 | no id delivered within the sequence window is forgotten |
| `CursorSafety.RestartExact` | cursor.go:586-632 | the holes a restart sets are exactly the unsent messages in [base, next) its scan flagged as owed, and every id delivered from the base on is known |
| `CursorSafety.KeepEndRestart` | cursor.go:569-632 | applying a restart keeps every invariant |
| `CursorSafety.KeepBeginReplay` | cursor.go:647-654 | starting a replay from the cursor keeps every invariant |
| `CursorSafety.StartKnows` | offline.go:690-746 | a replay without a cursor knows every id delivered from its start on: from a time by the pruning rule, from a sequence by the sequence window |
| `CursorSafety.KeepBeginReplayFrom` | offline.go:690-746 | starting a pinned replay at a time or at a sequence keeps every invariant |
| `CursorSafety.KeepChooseCover` | cursor.go:190-209 | choosing the read's filters, giving up a replay, and dropping the cursor with the late sequences that need it keep every invariant |
| `CursorSafety.KeepReadLast` | offline.go:328-334 | reading the stream's end for a replay keeps every invariant |
| `CursorSafety.ReplayNeverRepeats` | offline.go:808-822 | a message a replay sends was never sent before |
| `CursorSafety.KeepHandle` | offline.go:808-822 | handling one message of a replay, sent or passed over, keeps every invariant |
| `CursorSafety.ReplaySentOwed` | cursor.go:673-677 | what the session is owed in the span of a finished replay was sent |
| `CursorSafety.KeepEndReplay` | cursor.go:678-723 | the end of a replay, with or without a cursor, re-establishes every invariant |
| `CursorTheorems.StepKeeps` | cursor.go:26-62 | every step keeps the invariants |
| `CursorTheorems.EverAfter` | cursor.go:26-62 | from any state they hold of, the invariants hold ever after |
| `CursorTheorems.EveryRunIsSafe` | cursor.go:26-62 | the invariants hold in every state of every run |
| `CursorAccounts.StepAccounts` | cursor.go:26-38 | every step that keeps to the four things the first rule relies on keeps it, whatever has been forgotten |
| `CursorTheorems.EveryRunAccounts` | cursor.go:26-38 | so it holds in every state of every run that keeps to those |
| `CursorTheorems.RunIsOwed` | cursor.go:26-62 | every run that keeps to all the invariants rely on is one of these |
| `CursorTheorems.NothingOwedIsSkipped` | cursor.go:29-31 | in every such run, each owed message between the origin and next was sent or is a hole under its own id |
| `CursorTheorems.NothingDeliveredIsForgotten` | cursor.go:32-38 | in every run, what was sent at or above next is known by its id, a hole was never sent and lies below next, and the two indexes are inverse |
| `CursorTheorems.NextOnlyGrows` | cursor.go:40-51 | no step moves a set cursor back: it stays, moves forward or is dropped |
| `CursorTheorems.ReplaySendsWhatIsOwed` | cursor.go:673-677 | in every such run, a replay that ends has sent everything owed in its span |
| `CursorTheorems.ReplaySendsNothingTwice` | offline.go:797-802 | in every run, what a replay sends was not sent before |
| `CursorLimits.ReplayEndExact` | cursor.go:678-723 | for given subscriptions and filters, no replay's end skips anything on any stream exactly when the filters cover what the subscriptions are owed up to its end |
| `CursorLimits.ScanExact` | cursor.go:473-493 | for the subscriptions a scan copied, applying it skips nothing on any stream exactly when what the unknown sinces will make owed was flagged for a known one |
| `CursorLimits.RestartReadExact` | cursor.go:586-632 | the same for the cursor a restart sets |
| `CursorLimits.KnownFlags` | cursor.go:369-373 | when every since is known the condition holds, so the look scanOnce makes would be enough if nothing came between |
| `CursorLimits.StartExact` | cursor.go:740-743 | for given subscriptions, a cursor started at the stream's end skips nothing on any stream exactly when none of them is owed anything up to it |
| `CursorLimits.SincesOweNothing` | cursor.go:740-743 | sinces at or above the end are enough for it |
| `CursorFailures.UncheckedReplaySkips` | offline.go:825-829 | a run in which a subscription is made after the filters were chosen: the cursor passes a message it is owed |
| `CursorFailures.EarlyScanSkips` | cursor.go:369-383 | a run in which a subscription is made between the look at the sinces and the copy: the cursor passes a message it is owed |
| `CursorFailures.EarlyRestartSkips` | cursor.go:536-538 | the same for a restart: the cursor it sets starts above a message owed |
| `CursorFailures.LowSinceStartSkips` | cursor.go:737-743 | a run in which a since is set below the end meanwhile: the cursor starts above a message owed |
| `CursorFailures.UnsequencedCopyRepeats` | session.go:1533-1559 | a run in which a copy is noted with sequence 0 and, past twice the rewind, a due pruning pass forgets it: the replay sends the message again |
| `CursorFailures.UnsequencedExact` | session.go:1533-1559 | some run that notes a queued message without its sequence sends a message again within a delay exactly when the delay is longer than twice the rewind |
| `CursorFailures.SequenceStartExact` | catchup.go:285-304 | some run that starts a replay at a sequence sends a message again exactly when the start lies below the sequence window |
| `CursorFailures.UnsentStartRepeats` | catchup.go:285-304 | a run that starts a replay at a message that was not sent, below the sequence window, and sends the one after it again |
| `CursorFailures.LateEndExact` | catchup.go:273-278 | some run whose delivery goroutine outlives its connection by a delay sends a message again, from a time, exactly when the delay is longer than the rewind |
| `CursorFailures.StaleStartExact` | cursor.go:730-744 | some run in which a SUBSCRIBE goes on after a delay starts a cursor that has forgotten a message above it exactly when the delay is longer than twice the rewind and the start below the sequence window |
| `CursorFailures.LiveCopyExact` | cursor.go:215-239 | some run in which a live copy arrives at a sequence sends a message again exactly when it lies below the sequence window |
| `CursorRestore.RestoreKeepsRules` | session.go:1235-1257 | a cursor restored from a record with its ids keeps both rules, counting what the record lists in flight as sent |
| `CursorRestore.RestoredHoles` | cursor.go:754-762 | the restored holes are the stored ones whose message is not in flight, unsent and below the cursor |
| `CursorRestore.RestoredHolds` | session.go:1235-1257 | a session restored from a record that left out only what a pruning pass could have forgotten satisfies every invariant of one that never left memory |
| `CursorRestore.RestoredRunIsSafe` | session.go:1235-1257 | so every run that goes on from it is safe |
| `CursorHandover.LatelyRun` | session.go:1526-1562 | in every run whose deliveries are at most twice the rewind old, every message sent is known, by a mark no older than they are |
| `CursorHandover.CursorReplayExact` | session.go:1395-1409 | from every state the invariants hold of, the replay a restored cursor begins would send a message again exactly when it lies at or above the cursor, was noted without its sequence before the time the record reaches back to, is still served and stored, and is not in flight |
| `CursorHandover.UnsequencedHandover` | session.go:1395-1409 | a run from a new session through a record: a message noted without its sequence, before the time the record reaches back to, is sent again from the restored cursor |
| `CursorHandover.SequencedHandover` | session.go:1476-1494 | the same for a message noted with its sequence and passed by the cursor, once the restored cursor is dropped and a late copy starts a replay within the sequence window |
| `CursorHandover.HandoverExact` | checkpoint.go:236-246 | for deliveries at most a delay old when the record is made, some run through a record sends a message again exactly when the delay is longer than the rewind and the skew; past it one does even when every message is noted with its sequence |
| `CursorHandover.CursorHandoverExact` | checkpoint.go:236-246 | the same for the replay the restored cursor begins |
| `Replay.ReplayFromCursor` | offline.go:803-855 | sends in ascending order, each once, only what is wanted; when a read gets through, everything wanted up to its end, and otherwise without a gap below what was sent last |
| `Replay.ReadOnce` | offline.go:825-833 | one read sends exactly what is wanted of the messages it hands on before it fails, and leaves no gap below what was sent last |
| `Replay.ReadList` | offline.go:302-324 | a read hands on exactly the holes that are left and what the filters take from next to the end, ascending |
| `Replay.Handle` | offline.go:808-822 | a message in scope, unknown and served is sent unless its id was |
| `Replay.ServedBy` | offline.go:584-617 | true exactly when a subscription takes the message |
| `Floor.SeqSet.Add` | checkpoint.go:58-68 | adds one occurrence; 0 is not counted |
| `Floor.SeqSet.Remove` | checkpoint.go:70-81 | removes one occurrence, so a message matching two subscriptions stays until both are gone |
| `Floor.SeqSet.Min` | checkpoint.go:84-94 | the lowest sequence held, 0 exactly when none is |
| `Floor.KeepPlacing` | catchup.go:49-86 | counting a live copy, and finding the queue full, keep the invariants |
| `Floor.KeepEnqueue` | catchup.go:65-71 | queueing a live copy keeps the invariants |
| `Floor.KeepOwe` | catchup.go:85-113 | turning a live copy away keeps the invariants |
| `Floor.KeepNote` | cursor.go:245-262 | handing a placed copy to the cursor keeps the invariants |
| `Floor.KeepTake` | subscribe.go:619-632 | taking a copy off the queue for a burst keeps the invariants |
| `Floor.KeepSkip` | subscribe.go:688-704 | skipping a copy keeps the invariants |
| `Floor.KeepHand` | subscribe.go:657-657 | naming the copy in hand, before it stops waiting, keeps the invariants |
| `Floor.KeepUnwait` | subscribe.go:658-658 | taking the copy in hand out of those waiting keeps the invariants |
| `Floor.KeepPrepare` | subscribe.go:659-684 | preparing the copy in hand, and ending the burst, keep the invariants |
| `Floor.KeepRounds` | catchup.go:119-214 | taking a catch-up round, reading it, ending it and retrying it, and a message turned away ageing out of the stream, keep the invariants |
| `Floor.KeepReading` | cursor.go:267-273 | reading pending, then in hand, then fromSeq, then streamNext keeps the invariants |
| `Floor.KeepApplying` | cursor.go:473-493 | moving the cursor to the floor keeps the invariants |
| `Floor.EveryRunHolds` | catchup.go:5-38 | the invariants hold in every state of every interleaving |
| `Floor.FloorIsLow` | cursor.go:264-273 | in every interleaving, the floor a scan has read is at or below everything the connection holds and has handed on |
| `Floor.NothingHeldIsPassed` | cursor.go:46-56 | in every interleaving, no copy still held lies below next unless it is a hole or its message was delivered |
| `FloorProgress.CopyGetsSent` | subscribe.go:619-684 | left alone, a live copy that finds room in the queue is delivered and leaves the connection as it was |
| `FloorProgress.TurnedGetsSent` | catchup.go:119-214 | one that is turned away is delivered by the round that follows, and the connection has caught up |
| `FloorProgress.FloorExact` | cursor.go:267-273 | left alone, a scan reads as its floor the lowest of the four sequences that are set, and none when none is |
| `FloorProgress.ApplyAnswers` | cursor.go:473-493 | where the scan moves the cursor |
| `FloorProgress.RetryAnswers` | catchup.go:190-214 | a round that is dropped is turned away again, from where it stood |
| `FloorProgress.AgeAnswers` | catchup.go:119-214 | a message that has aged out no longer keeps a round from ending |
| `FloorProgress.SkipAnswers` | subscribe.go:688-704 | a skipped copy stops waiting, and the others wait in order |
| `Qos2Safety.KeepTrack` | session.go:730-736 | tracking a new message keeps the invariants |
| `Qos2Safety.KeepNote` | subscribe.go:830-836 | noting it delivered keeps the invariants |
| `Qos2Safety.KeepAsk` | checkpoint.go:189-205 | asking for a record, for PUBLISHes or PUBRELs, keeps the invariants |
| `Qos2Safety.KeepSnapshot` | checkpoint.go:224-256 | a checkpoint's skip, and its snapshots of the position with the ids and of the exchanges, keep the invariants |
| `Qos2Safety.KeepWrite` | checkpoint.go:264-284 | a written checkpoint keeps the invariants |
| `Qos2Safety.KeepSendPub` | subscribe.go:732-745 | a PUBLISH sent once its record is written keeps the invariants |
| `Qos2Safety.KeepHandleRec` | publish.go:301-340 | a PUBREC keeps the invariants |
| `Qos2Safety.KeepSendRel` | publish.go:362-393 | a PUBREL sent once its record is written keeps the invariants |
| `Qos2Safety.KeepRelTimeout` | checkpoint.go:196-204 | giving up waiting for the resumed position keeps the invariants |
| `Qos2Safety.KeepHandleComp` | publish.go:413-429 | a PUBCOMP keeps the invariants |
| `Qos2Safety.KeepClientPub` | subscribe.go:720-731 | a PUBLISH that reaches the client keeps the invariants, and an accepted message only meets an identifier the client holds |
| `Qos2Safety.KeepClientRel` | publish.go:330-334 | a PUBREL that reaches the client keeps the invariants |
| `Qos2Safety.KeepReconnect` | sessionstore.go:550-554 | a new connection on the same broker, whose claim clears the stored exchanges, keeps the invariants |
| `Qos2Safety.KeepResend` | retransmit.go:85-164 | a resend, of a PUBLISH the record knows or starts above, or of a PUBREL, keeps the invariants |
| `Qos2Safety.KeepPosition` | offline.go:657-670 | taking the replay position keeps the invariants |
| `Qos2Safety.KeepLateRec` | session.go:820-832 | a PUBREC a displaced connection reads late keeps the invariants |
| `Qos2Safety.KeepLateComp` | session.go:875-913 | a PUBCOMP a displaced connection reads late keeps the invariants; the identifier stays owed when a later connection resent the exchange |
| `Qos2Safety.KeepRelease` | broker.go:582-663 | releasing the record when the connection ends keeps the invariants |
| `Qos2Safety.KeepKill` | checkpoint.go:212-216 | a kill at any step keeps the invariants |
| `Qos2Safety.KeepRestore` | restore.go:50-95 | a successor of a broker that is gone claims and restores, losing any of the entries, and keeps the invariants |
| `Qos2Safety.KeepTakeover` | sessionstore.go:504-552 | a claim while the owner is alive, which clears the ids and the stored exchanges, keeps the invariants |
| `Qos2Safety.EveryRunHolds` | checkpoint.go:30-40 | the invariants hold in every state of every run, with kills and takeovers anywhere |
| `Qos2Safety.AcceptedAtMostOnce` | subscribe.go:720-731 | in every run, with kills and takeovers anywhere, the client accepts each message at most once |
| `Qos2Safety.NoPublishAfterPubrel` | publish.go:330-334 | in every run no PUBLISH is under way for an exchange whose PUBREL went out, on this broker or an earlier one |
| `Qos2Safety.SentIsRecorded` | subscribe.go:720-726 | in every run every message sent is named in the record or was stored before the first message a replay from it reads |
| `Qos2Receipts.StepKeepsReceipts` | publish.go:301-340 | a step that reuses no identifier the client holds keeps what the client took apart from what it did not |
| `Qos2Receipts.CompletedWasTaken` | publish.go:301-340 | in every run that reuses no identifier the client holds, an exchange past its PUBREC, in memory or in the record, is one whose message the client has taken |
| `Qos2Limits.ResendExact` | retransmit.go:114-146 | from every state the invariants and `Receipts` hold of, resending a PUBLISH has a continuation in which its message is accepted twice exactly when the record neither names it nor starts above it |
| `Qos2Limits.UnrecordedIsReached` | subscribe.go:766-838 | a run: prepared, noted and taken over before its record was written |
| `Qos2Limits.UnrecordedResendRepeats` | retransmit.go:34-41 | a run from a new session in which such a message is resent and, after a kill, accepted twice |
| `Qos2Limits.TrackExact` | session.go:713-736 | from every state the invariants and `Receipts` hold of, reusing an identifier has a continuation, with no other reuse of one the client holds, in which the message is accepted twice, or one the client never took is taken for received, exactly when an unread acknowledgement names it or the client still holds it |
| `Qos2Limits.LateCompletionRepeats` | session.go:875-913 | a run from a new session in which a late PUBCOMP completes a reused identifier: after a kill the message is accepted twice |
| `Qos2Limits.ClearedEntryLoses` | sessionstore.go:550-554 | a run from a new session in which a claim clears the stored exchanges, a kill comes before the next record, and the successor reuses an identifier the client holds: the message given it is dropped as a repeat and completed |
| `Qos2Limits.TakeoverExact` | sessionstore.go:512-518 | some run writes a record that starts at one message under a claim made at another and accepts a message twice exactly when the first lies below the second |
| `Qos2Progress.NewGetsDone` | subscribe.go:720-745 | from every state the invariants hold of, a message not yet sent, on a free identifier the client does not hold, can be delivered: it is accepted exactly once, its exchange completes, and every other exchange stays where it was |
| `Qos2Progress.ResentGetsDone` | retransmit.go:85-164 | so can an exchange that is to be resent and whose message the record knows |
| `Qos2Progress.RecoveredGetsDone` | restore.go:50-95 | so can one that a killed broker's record lists, by its successor |
| `Qos2Progress.ReconnectedGetsDone` | sessionstore.go:550-554 | so can one in memory when the client connects again |
| `Qos2Progress.ReleaseAnswers` | broker.go:582-663 | what a release writes, and what is left unread |
| `Qos2Progress.ReconnectAnswers` | retransmit.go:34-84 | a new connection has exactly the exchanges in flight to resend |
| `Qos2Progress.TakeoverAnswers` | sessionstore.go:504-552 | a broker that takes over has exactly those the record lists and it can restore |
| `Qos2Progress.LateAnswers` | session.go:820-913 | what a late PUBREC and a late PUBCOMP do, and to nothing else |
| `Qos2Progress.LateDropAnswers` | publish.go:301-340 | an acknowledgement that has been read is no longer unread |
| `Qos2Progress.EndedIsNotResent` | retransmit.go:85-113 | an exchange that ended meanwhile is not resent, and no longer keeps the position from being taken |
| `Exchanges.TrackKeeps` | session.go:730-736 | tracking a message on a free identifier keeps the books |
| `Exchanges.TakeSlotKeeps` | session.go:762-772 | a resend claiming its slot keeps the books |
| `Exchanges.MarkResentKeeps` | session.go:776-785 | resending a PUBREL, which costs no slot, keeps the books |
| `Exchanges.MarkWrittenKeeps` | session.go:803-810 | marking a resend written keeps the books |
| `Exchanges.AwaitKeeps` | session.go:826-832 | moving an exchange past its PUBREC keeps the books |
| `Exchanges.CompleteBalances` | session.go:875-913 | a completed exchange leaves the ledger short of exactly the slot it says is to go back |
| `Exchanges.AcknowledgeExact` | publish.go:279-469 | an acknowledgement, an error on a displaced connection included, keeps the books exactly when it does not come on a displaced connection for a slot of this one that no resend claimed |
| `Exchanges.AcknowledgeAnswers` | publish.go:279-451 | an acknowledgement is an error exactly when the session does not expect it, on any connection; it settles the one thing it names and leaves every other identifier as it was |
| `Exchanges.AcknowledgeFrees` | publish.go:431-469 | the slot goes back exactly when what was settled held one of this connection's that nothing keeps |
| `Exchanges.CompletedLeaves` | session.go:875-913 | what stays of a completed identifier: owed when another connection resent it, and the slot with a copy that was overtaken |
| `Exchanges.SettledLeaves` | publish.go:431-451 | a settled withdrawal or copy is forgotten, and the other of the two is not |
| `Exchanges.SendAndAck` | publish.go:279-297 | a message sent and acknowledged leaves the books as they were |
| `Exchanges.SendAndDiscard` | subscribe.go:841-860 | so does one too large to send |
| `Exchanges.ResendAndAcks` | session.go:762-810 | a resent message may be acknowledged for the original and for the copy; both are expected, and the slot goes back once, with the second when the first overtook the copy |
| `Exchanges.RepeatAndAcks` | session.go:776-785 | so may a repeated PUBREL, which costs no slot |
| `Exchanges.WithdrawAndAck` | session.go:960-988 | a withdrawn message is still to be acknowledged, and the acknowledgement returns its slot |
| `Exchanges.PubrecOwns` | session.go:826-832 | past its PUBREC nothing takes a message back |
| `Exchanges.TakenBackAnswers` | session.go:960-988 | what is taken back: what a denied filter matches, no surviving one does, and the client does not own |
| `Exchanges.AttachAnswers` | session.go:421-454 | over a new connection every exchange stays, and a withdrawal for one connection more |
| `Exchanges.RestoredOwes` | session.go:1853-1869 | a restored withdrawal owes what it did, for as many connections as it had left |
| `Exchanges.DiscardSendKeeps` | subscribe.go:841-860 | a PUBLISH too large to send gives its slot back |
| `Exchanges.DiscardResendKeeps` | retransmit.go:114-163 | a discarded resend, as one step, ends the exchange and takes no slot |
| `Exchanges.WithdrawKeeps` | session.go:960-988 | a withdrawn entry's slot is the withdrawal's |
| `Exchanges.AttachKeeps` | session.go:421-454 | a new connection starts with an empty quota that nothing holds a slot in |
| `Exchanges.EveryRunBalances` | session.go:447-450 | in every run the slots taken are those of in-flight entries, withdrawals naming this connection, overtaken resends and slots not yet tracked, and in flight and withdrawn are disjoint |
| `Exchanges.LateAckStrandsSlot` | publish.go:279-294 | a late PUBACK on a displaced connection for a reused identifier, of a QoS 1 or a QoS 2 message: a slot is never returned |
| `Exchanges.ReusedIsReached` | session.go:713-736 | the books in which that happens are those of a session whose second connection tracks its first message |
| `Exchanges.RestoreExact` | session.go:1853-1869 | a restored session keeps in flight and withdrawn apart exactly when its record does |
| `Exchanges.RecordNamesTwice` | session.go:1706-1773 | an identifier settled and reused between the two snapshots of a write is in the record, and in the session restored from it, both as withdrawn and in flight |
| `PacketSession.Session.NextID` | session.go:713-728 | the first identifier after the last, wrapping at 65535, that is neither in flight nor withdrawn; fails exactly when all 65535 are one or the other |
| `PacketSession.Session.CompleteInflight` | session.go:875-913 | in place, exactly `Exchanges.Complete` |
| `PacketSession.Session.ReleaseQuota` | publish.go:464-469 | returns a slot unless the quota is empty |
| `PacketSession.Session.HandleAck` | publish.go:279-451 | in place, exactly `Exchanges.Acknowledge`, errors included |
| `PacketSession.Session.WithdrawInflight` | session.go:960-988 | takes back exactly the entries a denied filter earned, no surviving one matches and the client does not own; each stays owed and the books hold |
| `PacketSession.Session.HeldSubjects` | session.go:656-680 | hands back exactly the entries held past the limit; each stays owed and the books hold |
| `PacketSession.HeldAnswers` | session.go:656-680 | a backlog message goes back once it has been held for the limit and not before, never without a limit or once the client owns it |
| `PacketSession.Session.AttachConn` | session.go:421-454 | in place, exactly `Exchanges.Attach` |
| `PacketSession.Session.ClearSlots` | session.go:447-449 | clears every entry's claim on the quota and changes nothing else |
| `PacketSession.Session.ForgetStale` | session.go:160-166 | forgets exactly the withdrawals two connections old |
| `Ownership.ClaimStepKeeps` | sessionstore.go:453-566 | every arm of a claim, won or lost, keeps the invariants |
| `Ownership.BindKeeps` | session.go:1692-1698 | binding a claimed record, in any order, keeps the invariants |
| `Ownership.WritersAreNewest` | sessionstore.go:614-649 | a compare-and-swap that succeeds was made under the newest claim |
| `Ownership.AttemptKeeps` | broker.go:551-693 | a save, checkpoint, late copy or release, with its reply or without, keeps the invariants |
| `Ownership.CommitKeeps` | session.go:1754-1761 | committing a write keeps the invariants |
| `Ownership.EveryRunHolds` | sessionstore.go:463-467 | the invariants hold in every run of any number of brokers and connections |
| `Ownership.OnlyTheNewestWrites` | sessionstore.go:614-649 | in every run every successful write is under the newest claim and by the broker that made it |
| `Ownership.DisplacedNeverWrites` | broker.go:575-591 | in every run, once a later claim succeeded no write of an earlier connection does |
| `Ownership.TornDownByNewerClaimOnly` | broker.go:695-724 | in every run a foreign write tears a registered session down exactly when its revision is above the one held, which is exactly when it is of a newer claim |
| `Ownership.CommitAnswers` | session.go:1754-1761 | a commit under the current generation leaves the session with the revision of its write, and changes nothing else |
| `Ownership.CommittedHolds` | session.go:1754-1761 | in every run, a session that commits holds the record as it stands when nothing was written after its write |
| `Ownership.NextSaveSucceeds` | sessionstore.go:614-649 | in every run, the next save of a session that holds the record succeeds, when nothing is written and the session not bound again in between |
| `Ownership.SaveGoesThrough` | sessionstore.go:614-649 | left alone, a save goes through and the connection can save again |
| `Ownership.LateSaveGoesThrough` | broker.go:665-693 | so does the write of a late copy |
| `Ownership.ReleaseGoesThrough` | broker.go:582-663 | so does a release, the record kept or deleted |
| `Ownership.ClaimGoesThrough` | sessionstore.go:453-566 | left alone, a connection claims the record as its newest owner, whether there was one or not, and no earlier connection can save |
| `Ownership.CleanStartGoesThrough` | sessionstore.go:453-503 | a clean start deletes the record and makes a new one |
| `Ownership.LostClaimIsMade` | sessionstore.go:553-566 | a claim whose reply is lost was made all the same |
| `Ownership.LostRaceReads` | sessionstore.go:553-566 | a claim that lost the race writes nothing and reads again |
| `Ownership.LostWrite` | sessionstore.go:614-649 | a write that lost it changes nothing |
| `Records.DeliveredSince` | session.go:1395-1409 | exactly the ids at or above the replay's start or delivered since its time, lowest sequence first |
| `Records.SplitDelivered` | session.go:1293-1304 | as many of the lowest ids as fit the value, as many more as fit chunks, and how many are left out |
| `Records.SessionRecord.constructor` | session.go:1329-1393 | a record names the cursor exactly when it was not restarted, every since is known and the ids fit, and then with every id delivered at or above it; it carries as many of the listed ids, lowest first, as its bounds allow |
| `Records.Cut` | sessionstore.go:1028-1042 | the chunks together are the ids, in order; each fits its limit or holds a single id, and ends exactly where an id says so or the next would not fit |
| `Records.SessionRecord.WriteChunks` | sessionstore.go:1044-1062 | the chunks before the first failed write or the bound are named and stored, and no others; none is lost exactly when all are |
| `Records.SessionRecord.SpillDelivered` | sessionstore.go:1008-1070 | the value keeps as many ids as fit half of it; either it and its chunks hold every id, or the record carries no cursor |
| `Records.SessionRecord.TrimDelivered` | sessionstore.go:827-849 | drops the oldest ids, an eighth at a time, until the first cut after which the rest fit, and none when all do |
| `Records.SessionRecord.TrimForValue` | sessionstore.go:873-880 | a record that drops an id carries no cursor, and one that drops none keeps it |
| `Records.SessionRecord.Restore` | restore.go:102-115 | the ids of the value and of every readable chunk are restored; the cursor comes with them exactly when every chunk is |
| `Records.SaveAndRestore` | session.go:1386-1393 | from session to record and back, a cursor that survives has every id delivered at or above it, and only delivered ones; none survives that the record cannot carry, and one does when every write and read succeeds and there is room |
| `Records.RestoredKnows` | session.go:1235-1257 | a restored session knows each such message with its own sequence |
| `Fencing.SelfLoop` | willstore.go:582-605 | fences at the first failed check that ends fenceAfter past the start of the last good one, and otherwise never |
| `Fencing.AdoptOrphans` | willstore.go:638-682 | adopts in the first round that follows an unbroken silence of waitOut, and otherwise never |
| `Fencing.AdoptsIff` | willstore.go:638-682 | a survivor adopts in a round exactly when the owner answered in none for waitOut up to it |
| `Fencing.IntervalsAnswer` | willstore.go:228-241 | the intervals derived from the check interval |
| `Fencing.FencedBeforeAdoption` | willstore.go:228-241 | for every interval and schedule the owner has fenced itself by waitOut after it was first seen silent |
| `Fencing.FencedByAdoptingRound` | willstore.go:638-682 | the owner has fenced itself no later than the round in which the survivor adopts |
| `Fencing.OneTimeoutLessIsEarly` | willstore.go:236-240 | with one timeout less there is a schedule in which it has not |
| `Wills.PublishedAtMostOnce` | willstore.go:317-345 | in every run the Will is published at most once, and then neither the record nor anyone who would publish it is left |
| `Wills.CancelledIsNotPublished` | willstore.go:376-445 | in every run a Will nobody can publish any more, because its record was removed to cancel it, is not published unless a holder gives up on the store after that |
| `Wills.GiveUpExact` | willstore.go:367-372 | from every state the invariant holds of, giving up on the store has a continuation that publishes twice exactly when someone else has published or still can |
| `Wills.AdoptedThenGivenUp` | willstore.go:348-374 | a run from a new connection: a survivor adopts the record, its holder gives up, and both publish |
| `Wills.RegisterExact` | willstore.go:270-291 | a registration has a continuation that publishes twice exactly when the record was created and the reply was lost |
| `Wills.LostRemovalLoses` | willstore.go:325-366 | a removal whose reply was lost leaves nobody who can publish |
| `Wills.OwedIsPublished` | willstore.go:317-345 | as long as a publication is still to come, a run makes it |
| `Wills.UpdateTakesLease` | willstore.go:376-445 | in every run an answered update leaves its holder, and no other, able to remove the record |
| `Wills.OvertakenWritesNothing` | willstore.go:348-374 | an overtaken lease writes nothing |
| `Wills.FireWins` | willstore.go:317-345 | an answered removal publishes the Will once |
| `Wills.DropCancels` | willstore.go:376-445 | a dropped Will can no longer be published |
| `Wills.RegisterAnswers` | willstore.go:270-291 | an answered registration holds the record, any other can be published from memory |
| `Wills.ReadAnswers` | willstore.go:638-682 | a read holds the record at its revision, or finds it gone |
| `Wills.LostReplyAnswers` | willstore.go:325-366 | a write whose reply is lost was made all the same |
| `Topics.SplitShared` | topic/topic.go:176-198 | a filter without the prefix is itself; an accepted shared one is the prefix, a share name without wildcards or slash, and the non-empty filter after it |
| `Topics.SharedAccepted` | topic/topic.go:176-198 | the prefix, a share name without separator or wildcard, a slash and a non-empty filter are accepted as the name and the filter |
| `Topics.SharedAcceptedIff` | topic/topic.go:176-198 | no other shared filter is |
| `Topics.NameAcceptedIff` | topic/topic.go:62-74 | a name is accepted exactly by its length, its bytes and its first level |
| `Topics.FilterAcceptedIff` | topic/topic.go:85-104 | so is a filter, by what it matches and where its wildcards stand |
| `Topics.ValidateFilterLevels` | topic/topic.go:144-167 | accepts exactly the filters whose wildcards stand alone and whose `#` is last |
| `Topics.Match` | topic/topic.go:210-245 | the loop decides `Topics.Matches` |
| `Topics.LevelsMatchMeaning` | topic/topic.go:200-245 | what the loop decides, said of positions: a filter ending in `#` covers its parent and every level below, any other needs the same number of levels |
| `Subjects.Convert` | topic/subject.go:152-197 | one pass over the bytes equals the level-by-level encoding joined with dots |
| `Subjects.SubjectToName` | topic/subject.go:119-150 | the loop decodes as `Subjects.Decode` does, escapes and empty levels included |
| `Subjects.EncodingTable` | topic/subject.go:25-45 | what each byte a subject cannot carry, a dot, an empty level and a wildcard become |
| `Subjects.NameRoundTrip` | topic/subject.go:119-150 | decoding the subject of an accepted name gives the name, plain and escaped |
| `Subjects.NamesDoNotCollide` | topic/subject.go:25-45 | distinct accepted names never share a subject |
| `Subjects.TrimPrefixUndoesPrefix` | topic/subject.go:227-245 | trimming the prefix undoes adding it |
| `Subjects.ParentTokens` | topic/subject.go:207-222 | the parent of a subject ending in `>` is it without its last token |
| `Subjects.NatsDeliversWhatMatches` | subscribe.go:352-378 | for every valid filter and name, MQTT matching is NATS matching of the filter's subject or its parent, apart from the `$` rule |
| `Filters.OverlapExact` | offline.go:204-216 | two filters overlap exactly when some subject matches both |
| `Filters.CoversExact` | offline.go:218-233 | one covers the other exactly when every subject of the other matches it |
| `Filters.JoinCoversBoth` | offline.go:185-202 | the join of two filters that overlap matches all that either does |
| `Filters.JoinIsLeast` | offline.go:185-202 | whatever covers both covers it |
| `Filters.SubjectsOverlap` | offline.go:205-216 | the loop over tokens decides `Filters.Overlap` |
| `Filters.SubjectCovers` | offline.go:219-233 | the loop over tokens decides `Filters.Covers` |
| `Filters.JoinSubjects` | offline.go:188-202 | the loop builds `Filters.JoinTokens` |
| `Filters.Add` | offline.go:141-168 | ends, leaves the filters pairwise non-overlapping, and they match all that the old ones and the new one did; one that overlaps none is added as it is, one that is covered changes nothing, and whatever filters that do not overlap cover the old ones and the new one cover the result |
| `Filters.ReplayFilters` | offline.go:139-183 | non-overlapping filters that match every subject the subscriptions need and are no wider than that takes; None exactly when a filter has no subject |
| `Codec.VarAcceptedIff` | packet/codec.go:78-95 | a Variable Byte Integer is accepted exactly in the form the encoder writes |
| `Codec.VarLenExact` | packet/codec.go:209-220 | the length the encoder emits |
| `Codec.AppendVar` | packet/codec.go:191-206 | appends exactly the encoding |
| `Codec.Reader.Byte` | packet/codec.go:47-54 | reads a byte or fails at the end |
| `Codec.Reader.Uint16` | packet/codec.go:56-63 | reads a Two Byte Integer or fails |
| `Codec.Reader.Uint32` | packet/codec.go:65-73 | reads a Four Byte Integer or fails |
| `Codec.Reader.VarByteInt` | packet/codec.go:78-95 | the loop reads exactly `Codec.GetVar`: at most four bytes, minimal, not truncated |
| `Codec.Reader.Binary` | packet/codec.go:99-110 | reads a length and that many bytes, or fails |
| `Codec.Reader.String` | packet/codec.go:115-153 | as binary, and the bytes are well-formed UTF-8 without U+0000 |
| `Codec.Get16Put` | packet/codec.go:164-164 | a Two Byte Integer reads back |
| `Codec.Get32Put` | packet/codec.go:166-168 | a Four Byte Integer reads back |
| `Codec.GetBinaryPut` | packet/codec.go:174-177 | binary data reads back |
| `Publishes.GetValuePut` | packet/properties.go:192-398 | every property value the encoder writes reads back |
| `Publishes.GetPropsPut` | packet/properties.go:144-183 | properties in any order, none repeated that may not be, read back one by one |
| `Publishes.RepeatRefused` | packet/properties.go:170-175 | with one repeated they are refused with a Protocol Error |
| `Publishes.ItemsGather` | packet/properties.go:403-537 | gathering what the encoder writes gives the properties, in order |
| `Publishes.DecodeUndoesEncode` | packet/publish.go:24-87 | a well-formed PUBLISH decodes back to itself |
| `Publishes.ReadUndoesEncode` | packet/packet.go:40-150 | so does its whole packet, whatever follows it, within the receiver's limit |
| `Accepted.TextExact` | packet/codec.go:139-153 | a string is accepted exactly when it spells out Unicode scalar values other than U+0000 |
| `Accepted.BinaryAcceptedIff` | packet/codec.go:99-110 | binary data is accepted exactly with its length before it |
| `Accepted.ValueAcceptedIff` | packet/properties.go:192-398 | a property's value is accepted exactly in the form its encoder writes |
| `Accepted.ValueErrors` | packet/properties.go:192-398 | a value out of its range is a Protocol Error, any other refused is malformed |
| `Accepted.PropsAcceptedIff` | packet/properties.go:144-183 | properties are accepted exactly when they spell out a list of sound ones, none repeated that may not be, in any order |
| `Accepted.ReadOn` | packet/properties.go:160-182 | what follows accepted properties is read as if they stood alone, but for what was seen |
| `Accepted.FirstRefused` | packet/properties.go:160-182 | which error the first property refused gives |
| `Accepted.PropsRefused` | packet/properties.go:144-155 | which error a Property Length gives |
| `Accepted.DecodeAcceptedIff` | packet/publish.go:24-58 | a body is accepted exactly when it spells out a PUBLISH that section 3.3 of MQTT 5.0 allows, under its flags |
| `Accepted.FlagsRefused` | packet/publish.go:24-40 | which error flags and a topic give |
| `Accepted.RestRefused` | packet/publish.go:40-58 | which error a Packet Identifier, the properties and an empty topic give |
| `Accepted.PacketAcceptedIff` | packet/packet.go:40-150 | a whole packet is accepted exactly when it is such a body after its header, within the limit |
| `Accepted.PacketRefused` | packet/packet.go:40-150 | which error a header or a length gives |
| `PublishCodec.ReadProperty` | packet/properties.go:192-398 | reads one value as `Publishes.GetValue` does, errors included |
| `PublishCodec.ReadAll` | packet/properties.go:160-182 | the loop with its seen set is `Publishes.GetProps` |
| `PublishCodec.ReadProperties` | packet/properties.go:144-183 | the Property Length and the properties, errors included |
| `PublishCodec.DecodePublish` | packet/publish.go:24-58 | decodes as `Publishes.Decode` does, errors included |
| `PublishCodec.EncodeProperties` | packet/properties.go:403-537 | writes exactly `Publishes.PutProps`, or fails when a field cannot be written |
| `PublishCodec.EncodePublish` | packet/publish.go:60-87 | writes exactly `Publishes.Encode` |
| `PublishSizes.PropsBytes` | packet/properties.go:403-537 | the bytes the properties take, field by field |
| `PublishSizes.EncodeIff` | packet/publish.go:60-87 | a PUBLISH can be written exactly when every field fits and the whole does, and its length then |
| `Aliases.SettingCosts` | outalias.go:140-145 | the PUBLISH that sets an alias is longer by exactly three bytes and what it adds to the two length fields, at most one each |
| `Aliases.SettingCostsFive` | outalias.go:140-145 | a PUBLISH for which that is five bytes |
| `Aliases.UsingSaves` | outalias.go:117-121 | the PUBLISH that uses one is shorter by at least the name less four bytes |
| `Aliases.OutAliases.Hit` | outalias.go:53-60 | the alias set for a topic, which the receiver has; its entry moves to the front and nothing else changes |
| `Aliases.OutAliases.Assign` | outalias.go:72-80 | the next free alias, or that of the topic used longest ago, which goes; aliases stay distinct in 1..max and the receiver in step |
| `Aliases.OutAliases.EncodeAliased` | outalias.go:116-147 | when an alias is used, set, taken over or declined, and which topics count as seen; the receiver recovers the topic, the limit is kept, and the ledger records exactly what the packet gained or lost |
| `Aliases.OutAliases.AliasPublish` | outalias.go:102-107 | the same, with exactly the short topics left plain |
| `Aliases.SendAll` | outalias.go:26-41 | over any sequence of sends the receiver recovers every topic and the total is at most five bytes per alias above the plain one |

## Left out

- The stream, the key-value buckets and the clock are values: an append-only sequence whose messages may age out, revisions with compare-and-swap, and parameters. Consumers, fetch retries, leader waits and timeouts beyond the two timing bounds are not modelled.
- Message ids are unique in the stream. A publisher that stores one id twice would break the reverse index of the holes.
- CursorSafety.KeepLiveCopy: relies on the id of a delivered message not having been forgotten when its live copy arrives, because the code has no other trace of it; see CursorFailures.LiveCopyExact. CursorSafety.KeepLateCopy relies on the same.
- The flags that schedule scans, and a stream reset under a cursor beyond the drop it causes.
- CursorRuns is about a session that stays in memory; CursorRestore and CursorHandover are about the cursor a record carries, and Qos2 about the position and the ids a replay from a record starts with.
- Subscriptions are values with a number for their identity; `made`, the stream's length when one was made, is kept for the statement only.
- A message counts as sent when its first copy is; a message that matches two subscriptions is sent once for each, and only `Floor` tells the copies apart.
- CursorSafety.KeepReadLast: relies on the filters covering what the subscriptions serve when the end is read, because the code does not compare them again; see CursorLimits.ReplayEndExact.
- CursorSafety.KeepReadScan: relies on every since being known when the subscriptions are copied, because the code looks earlier; see CursorLimits.ScanExact.
- CursorSafety.KeepReadRestart: relies on the same for a restart; see CursorLimits.RestartReadExact.
- CursorSafety.KeepDetach: relies on the delivery goroutine stopping within the rewind of the connection's end, because the code takes the time first; see CursorFailures.LateEndExact. A replay's message whose delivery fails counts as handled.
- CursorSafety.KeepBeginReplayFrom: relies on a start at a sequence lying within the sequence window or at or above the cursor, unless it is that of a copy tested after the connection ended, because awayFloor does not test it; see CursorFailures.SequenceStartExact.
- CursorSafety.KeepFillSinceStep: relies on nothing being owed below the cursor it starts and on its read being recent or its start within the sequence window, because the code does not check these; see CursorLimits.StartExact and CursorFailures.StaleStartExact.
- CursorSafety.KeepDeliver: relies on a pruning pass that is due finding no queued message known without its sequence for longer than twice the rewind, because the code forgets it whatever its sequence; see CursorFailures.UnsequencedExact. CursorSafety.KeepDeliverOther and CursorSafety.KeepHandle rely on the same.
- Floor.FloorIsLow: is about open connections, because the result of a scan on an ended one is thrown away; what awayFloor reads is any sequence in CursorRuns.
- Qos2Safety.KeepResend: relies on the record naming what is resent, or starting above it, because the code writes no record before a resend; see Qos2Limits.ResendExact.
- Qos2Safety.KeepSnapshot: relies on a record not reaching back beyond the claim it is written under, because the code subtracts the rewind from the time whatever the claim cleared; see Qos2Limits.TakeoverExact. Qos2Safety.KeepRelease relies on the same.
- Qos2Safety.KeepTrack: relies on no late acknowledgement naming the identifier, because the code does not wait for a displaced reader; see Qos2Limits.TrackExact.
- Qos2Receipts.CompletedWasTaken: is about runs that reuse no identifier the client holds, because the code cannot see what it holds; see Qos2Limits.ClearedEntryLoses and Qos2Limits.TrackExact. Qos2Receipts.StepKeepsReceipts is about such steps.
- Qos2Limits.ResendExact: takes `Receipts`, which every such run keeps, because a client that holds the identifier drops the resent message. Qos2Limits.TrackExact takes it because a message may already be lost without it.
- Qos2: a PUBREC that carries an error, withdrawals for authorisation, records that drop entries for size, and messages from a client to the broker are not modelled; packets with different identifiers may arrive in any order, and none sent by a broker reaches the client after another has taken the session over.
- Qos2: delivered ids are not pruned there, in memory or in the record; CursorRuns is where pruning is.
- CursorRestore.RestoredHolds: takes what the record leaves out as old enough and below the sequence window, because a record may leave out ids delivered before its time that are neither; CursorRestore.RestoreKeepsRules, about the cursor's own rules, does not need it. Both take the queued messages known without their sequence at or above the cursor as carried. See CursorHandover.HandoverExact and CursorHandover.CursorReplayExact for when these hold.
- CursorHandover.HandoverExact: says that a shorter delay is safe only for a rewind of at least checkpointSkew, because with a shorter one a pruning pass forgets what the record reaches back to; the default rewind is twenty times that. A checkpoint made before a resume replay has handled a message, which reaches back from that replay's own time, is not modelled.
- Exchanges.EveryRunBalances: takes the predecessor's delivery loop as stopped before a new connection attaches, a discarded resend as one step, and an acknowledgement only for what was written on its connection; see Exchanges.AcknowledgeExact.
- PacketSession.Session.HandleAck: a PUBREC with an error ends an exchange as a PUBCOMP does and has no member of its own; the disconnect after a Protocol Error is only the error it returns.
- Ownership.TornDownByNewerClaimOnly: is about registered sessions, because an event between a claim and the registration finds none.
- Two connections that bind their claims in the opposite order leave a session neither can write; that is safe, and nothing is stated about it.
- Records: sizes, the hash that ends a chunk and JSON are parameters, a chunk's key is its content, and the deletion of chunks no record names is not modelled.
- Fencing: the survivor's requests take no time, and scheduling delays count towards a check's timeout or the tick.
- Wills.PublishedAtMostOnce: relies on the reply to a registration that was made arriving and on nobody giving up while another can publish, because the code does neither; see Wills.RegisterExact and Wills.GiveUpExact.
- Strings are sequences of bytes; case folding and normalisation play no part.
- The codec covers PUBLISH; the other packets and the properties a PUBLISH may not carry would add members of the same kind.
- Authentication, retained messages, shared subscription members, held deliveries, expiry, header mapping and sockets.
