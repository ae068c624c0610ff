# Aether: stream, turn and data-model proofs

A Dafny model of the parts of Aether whose correctness depends on interleavings, on long runs or on
several functions agreeing with one another.

The first half is the **session event stream** (`internal/agent/stream.go`): a shared Redis counter
and bounded replay log changed only by two atomic scripts, one pump per pod mixing catch-up passes
with live delivery, per-subscriber clocks that are re-based when the counter moves backwards, bounded
channels that evict and leave resync markers, local fallbacks whose recovery markers are raced by
publishers and a background retrier, and a stream lifecycle under two locks.

The second half is code with hard loops, rewritings and accounting: repair, compaction and steering of
the chat history (`engine.go`); the edit distance and version merging of cells (`cell_history.go`); the
two-phase position updates under a UNIQUE constraint (`tools_notebook.go`, `cell_handlers.go`);
replacing access-control lists with their audit diff (`acl_handlers.go`); parallel subagents and token
accounting (`subagent.go`, `session.go`); the dashboard access fingerprint (`dashboard_cache.go`);
parameter substitution in map order (`params.go`); and debounced health stamps (`connector_health.go`).

Interleavings are state machines: each step is one critical section, one atomic access or one call to
Redis or Postgres, and theorems speak about every sequence of steps. Code that updates objects in place
is a class whose methods are proved against the functions those theorems are about. Outside calls that
may fail, clocks and map iteration orders are parameters or nondeterministic choices.

Check everything with `dafny verify dfyconfig.toml`.

## Files

| file | content |
|---|---|
| `StreamEvents`, `SharedLog` | events; the Redis counter, the replay log and its two scripts |
| `SubscriberClock`, `SubscriberChannel`, `StreamSubscriber` | one subscriber's delivery clock, its bounded channel, and the object holding both |
| `StreamDelivery`, `StreamReconnect` | log, pump and client together in one counter epoch; what a viewer gets while connected, over a disconnection and after a lost message |
| `FallbackRecovery`, `FallbackRounds`, `FallbackRetrier`, `FallbackTiming`, `FallbackMisses`, `FallbackTable`, `LocalCounter`, `LocalFreshness` | recovery from Redis outages: interleavings, undisturbed rounds, the retrying goroutine, what is announced in time and what is not, the locked map, the local seq counter, whether its seqs are new to a viewer |
| `StreamLifecycle`, `StreamRounds`, `SessionStreams` | creation and retirement of streams: interleavings, undisturbed rounds, the objects |
| `ChatMessages`, `ChatRepair`, `ChatHistory`, `TurnLoop` | tool pairing, repair, compaction and rebuild, the turn loop |
| `EditDistance`, `CellVersions` | the distance table and the version history |
| `CellPositions`, `CellOrder` | position updates row by row, and the list they implement |
| `AclActions`, `AclAudit`, `AclReplace`, `AclPut` | action lists, the audit diff, the merge loop, the whole replacement |
| `SessionUsage`, `SubagentTasks` | token totals and snapshots, parallel tasks |
| `AccessFingerprint`, `ParamResolution`, `ConnectorHealth` | cache key encoding, substitution, health stamps |
| `Options`, `Sequences` | a value that may be absent; insertion into and removal from a sequence |

## Where the code and its documentation differ

- `docs/plans/2026-09-11-agent-session-sharing-design.md` promises that an event is never delivered twice, and the
  comment at `internal/agent/stream.go:789-791` expects queued duplicates of a catch-up to be dropped. Only an event
  exactly at the subscriber's clock is recognised as a duplicate: a queue that begins below it looks like a counter
  reset, and all of it is sent again behind a resync marker. The model follows the code;
  `SubscriberClock.QueuedDuplicatesAreResent` gives the exact result and
  `SubscriberClock.QueueIsDroppedIffOneAtClock` the exact condition.
- The two-phase shift is meant for any stored positions, but it disturbs rows that are already negative and then can
  collide: `CellPositions.TwoPhaseShiftIffShiftable` says exactly when both statements succeed and make room. The HTTP
  handler validates no position and can store a negative one, after which later inserts, moves and swaps may be refused
  or go wrong; `CellPositions.MoveWorksIffMovable` and the contracts of `CellPositions.CellTable` say exactly when.
- The comment at `internal/agent/stream.go:424-426` marks a session even for seq 0, because remote subscribers may have
  missed the event. Such a mark never raises the watermark, so an entry already sent confirms it away
  (`FallbackMisses.ZeroSeqIsMissed`); a watermark from before a retirement does the same to the next stream's seqs
  (`FallbackMisses.RetirementMisses`). `FallbackMisses.LossIsLeftIffLetGo` and
  `FallbackMisses.AlwaysInTimeIffNeverLetGo` are the exact condition, for every step and every run.
- The comment at `internal/agent/stream.go:524-526` wants a seq the client has not seen. That fails for two reasons. Only
  seqs published here while the stream exists are seeded, so a delivered event of another pod or an earlier stream may
  carry a higher one (`LocalFreshness.UnseededSeqHidesFallback`). And a local fan-out ignores the viewer's offset, so a
  re-based viewer is past the next local seq even if everything delivered was seeded
  (`LocalFreshness.RebasingHidesFallback`, with seqs 1 and 2 in `LocalFreshness.SeededEventsHideFallback`).
  `LocalFreshness.LocalSeqIsFreshIff` and `LocalFreshness.FreshOnceTopIsReached` are the exact condition, and
  `LocalFreshness.SeededViewersSeeNewSeqs` shows that it holds in the case the seeding is meant for.
- Parameters are replaced one after another: a value that begins a quoted key makes the result depend on the map's
  order. `ParamResolution.OrderMattersIffHarmful` is the exact condition.
- A channel of capacity 0 loses events silently; `SubscriberChannel.NoSilentDropIffBuffered` is the exact condition.
- Repairing a history is idempotent if and only if no tool call of an assistant has an empty id
  (`ChatRepair.RepairTwice`): the placeholder for an empty id never counts as its answer.

## Model

| member | source | states |
|---|---|---|
| SharedLog.SessionKeys.PublishScript | internal/agent/stream.go:74-82 | takes the next seq and logs exactly one entry with it and the given message; the buffer is the newest 500 of its entries and that one |
| SharedLog.SessionKeys.ResyncScript | internal/agent/stream.go:88-101 | lifts the counter to the floor if it is lower and logs exactly one resync entry at the next seq; the buffer is the newest 500 of its entries and that one |
| SharedLog.LogStaysWellFormed | internal/agent/stream.go:74-101 | over any run of scripts and buffer expiries the buffer is strictly increasing, at most 500 long, a suffix of the log, and its seqs jump only at resync entries |
| SharedLog.BufferKeepsTheLatest | internal/agent/stream.go:74-101 | over every run the log carries exactly the published messages in order, and the buffer holds the newest 500 of those appended since it last expired, or all of them |
| SharedLog.BufferEndsAtCounter | internal/agent/stream.go:74-101 | a non-empty buffer ends exactly at the counter |
| SharedLog.ResyncClearsItsFloor | internal/agent/stream.go:84-101 | a resync entry lies above every seq the fallback delivered and above everything in the log |
| SubscriberClock.ClientClockIsMonotone | internal/agent/stream.go:660-809 | for every mix of live events, catch-ups and failed reads, counter resets included, the pushed seqs strictly increase, the offset never decreases, and every re-base comes behind a marker |
| SubscriberClock.CatchUpReplaysExactlyTheUnseen | internal/agent/stream.go:677-714 | a catch-up over an ordered buffer pushes exactly the entries above the subscriber's clock, in order |
| SubscriberClock.CatchUpIsIdempotent | internal/agent/stream.go:677-714 | a second catch-up over the same buffer changes nothing |
| SubscriberClock.QueuedDuplicatesAreResent | internal/agent/stream.go:788-808 | a queue of already delivered events that begins below the clock is all sent again behind one marker, re-based by exactly the missing distance, with one more marker in place of each entry that jumped the counter |
| SubscriberClock.QueueIsDroppedIffOneAtClock | internal/agent/stream.go:783-809 | a queue of live events in seq order changes nothing, as promised for duplicates, if and only if it is empty or one event exactly at the clock |
| SubscriberClock.StepStaysBehind | internal/agent/stream.go:660-809 | source events up to a seq never take the subscriber past it on the source's clock, re-basing included |
| SubscriberClock.MaxSeq | internal/agent/stream.go:719-741 | the highest seq in a buffer, 0 for an empty one |
| SubscriberChannel.NoSilentDrop | internal/agent/stream.go:811-829 | for every interleaving of receives with the three selects of a push, an event neither received nor queued is covered by a marker of equal or higher seq that is received or queued, even when markers are evicted; without overflow the client gets exactly what was pushed |
| SubscriberChannel.RoomKeepsEvent | internal/agent/stream.go:811-813 | a push into a channel with room queues exactly the event |
| SubscriberChannel.LossesAreBounded | internal/agent/stream.go:811-829 | over every run each overflow makes up at most one marker and costs at most two events, its own and the evicted one; without overflow nothing is changed |
| SubscriberChannel.NoSilentDropIffBuffered | internal/agent/stream.go:811-829 | that holds if and only if the channel has capacity |
| SubscriberChannel.ReceivedOnlyGrows | internal/agent/stream.go:811-829 | what the client received is never taken back |
| StreamSubscriber.Subscriber.Push | internal/agent/stream.go:811-829 | with room, exactly the event is queued; otherwise at most one event not yet received goes and a marker at the seq closes the queue; the losses since the start stay bounded by the overflows counted |
| StreamSubscriber.Subscriber.DeliverLocked | internal/agent/stream.go:783-809 | updates clock and offset to the specified view and sends exactly the pushes that view adds |
| StreamSubscriber.Subscriber.ReplayEntry | internal/agent/stream.go:686-713 | one entry of a replay loop does what the specified replay does |
| StreamSubscriber.Subscriber.CatchUp | internal/agent/stream.go:677-714 | the whole pass for one subscriber gives the specified view |
| StreamSubscriber.Subscriber.FailOpen | internal/agent/stream.go:667-674 | a failed buffer read only makes the subscriber ready |
| StreamSubscriber.ReadMaxSeq | internal/agent/stream.go:725-741 | the scan returns the buffer's highest seq |
| StreamSubscriber.DeliverToAll | internal/agent/stream.go:769-775 | a live event takes every subscriber through its own step and leaves the channels consistent |
| StreamSubscriber.CatchUpAll | internal/agent/stream.go:677-714 | a pass takes every subscriber through its own catch-up |
| StreamDelivery.RunStaysSound | internal/agent/stream.go:576-715 | in one counter epoch, over any run of scripts, trims, expiries, reconnects, catch-ups and live deliveries, everything pushed comes from the log and neighbours in the pushes are neighbours in the log or separated by a marker |
| StreamDelivery.NoSilentGap | internal/agent/stream.go:576-809 | two ordinary events pushed with no marker between them are adjacent in the log |
| StreamDelivery.CatchUpReachesCounter | internal/agent/stream.go:660-715 | after a catch-up over a non-empty buffer the subscriber stands exactly at the counter, on its own re-based clock |
| StreamDelivery.ClientSeesPushesInOrder | internal/agent/stream.go:783-829 | for every sequence of source events, counter resets included, what the client received and has queued is strictly increasing and covers everything pushed |
| StreamDelivery.EpochReachesClient | internal/agent/stream.go:576-829 | the same for everything pushed in one epoch of the shared log |
| StreamDelivery.JoiningViewerGetsLogAsItIs | internal/agent/stream.go:660-829 | a viewer that joins gets the buffer and the live events that follow it event for event, one that skips the buffer only the latter, when nothing overflows |
| StreamDelivery.ConnectedViewerGetsTheLog | internal/agent/stream.go:576-809 | from a viewer at the counter, over every interleaving of the scripts and the pump, what was sent and what still waits is exactly what was logged, event for event |
| StreamDelivery.FailedReadLetsLiveFlow | internal/agent/stream.go:660-674 | after a failed buffer read live events flow; the first is forwarded if it is the first of the session and announced by a marker otherwise |
| StreamDelivery.SourcesReachClient | internal/agent/stream.go:783-829 | for every sequence of source events, without overflow each push reaches the client in its place, a forwarded event with the message of its source |
| StreamReconnect.ViewerGetsWhatIsPublished | internal/agent/stream.go:357-809 | from the start of a session, a viewer is sent exactly the published messages, in order, under the seqs from 1 on |
| StreamReconnect.PublishedReachesViewer | internal/agent/stream.go:576-809 | the same for any viewer at the counter, under the seqs that follow its clock |
| StreamReconnect.ReconnectCatchesUp | internal/agent/stream.go:576-715 | over a disconnection a viewer gets what was published meanwhile, event for event, if it was at most 500; otherwise one marker right above its clock and the newest 500 |
| StreamReconnect.LostMessageIsMarked | internal/agent/stream.go:783-809 | if the connection loses a message, the next one becomes a marker at its own seq |
| FallbackRecovery.FallbacksStayCovered | internal/agent/stream.go:357-522 | in every interleaving each recorded fallback is within the pending marker's watermark, held by a goroutine, below a committed resync entry, or was itself dropped with the marker that stood for it |
| FallbackRecovery.OnlyRemovalDrops | internal/agent/stream.go:463-477 | a recorded fallback is dropped only when giving up, or forgetting after a retirement, removes the marker while the fallback is within its watermark |
| FallbackRecovery.QuietMeansAnnouncedOrDropped | internal/agent/stream.go:357-522 | once no marker is pending and no publisher is busy, every recorded fallback was announced or itself dropped |
| FallbackTiming.FallbacksAreAnnouncedInTime | internal/agent/stream.go:357-540 | while the stream lives, a fallback with a positive seq is announced by an entry committed after its own fan-out, unless still under way or dropped |
| FallbackTiming.QuietMeansAnnouncedInTime | internal/agent/stream.go:357-540 | once everything is quiet, such a fallback was announced by a later entry or itself dropped |
| FallbackMisses.LossIsLeftIffLetGo | internal/agent/stream.go:424-522 | in every state, whatever the other goroutines do, a step leaves a covered fallback neither covered nor dropped if and only if it is the confirmation that removes the pending marker while the fallback is within the watermark sent, in nobody's hands and unannounced since its fan-out |
| FallbackMisses.AlwaysInTimeIffNeverLetGo | internal/agent/stream.go:357-556 | over every run, retirements and seq 0 included, all fallbacks are at all times announced since their fan-out, under way or dropped, if and only if no confirmation lets go of one |
| FallbackMisses.OnlyZeroSeqsAreLetGo | internal/agent/stream.go:424-540 | while the stream lives, the only fallbacks let go are those no local subscriber received |
| FallbackMisses.ZeroSeqIsMissed | internal/agent/stream.go:422-427 | runs in which a fallback of seq 0, which no local subscriber received, is never announced after it was lost |
| FallbackMisses.RetirementMisses | internal/agent/stream.go:527-556 | runs in which a mark from before a retirement hides the first seq, 1, of the next stream |
| FallbackRecovery.StepsOnTheSlot | internal/agent/stream.go:428-522 | each step changes the session's pending watermark as the table's methods do |
| FallbackRounds.OutageIsAnnounced | internal/agent/stream.go:357-522 | on an otherwise idle session a failed publish is fanned out and recorded once, and the first round after Redis is back announces it with one entry above its seq and leaves nothing pending |
| FallbackRounds.PublishRecovers | internal/agent/stream.go:357-393 | a successful publish that finds a marker consumes it and announces its watermark with one entry |
| FallbackRounds.FailedRecoveryMarksAgain | internal/agent/stream.go:357-393 | if announcing fails, a local resync takes the next local seq and a watermark at least as high is marked again |
| FallbackRounds.RoundAnnounces | internal/agent/stream.go:486-519 | an undisturbed round of the retrier commits one entry above the watermark, removes the marker and ends the goroutine |
| FallbackRounds.FailedSendTriesAgain | internal/agent/stream.go:486-522 | a failed send leaves marker, watermark and goroutine as they were for the next round |
| FallbackRounds.ExpiryGivesUp | internal/agent/stream.go:496-501 | after the deadline marker and goroutine go, and exactly the losses within the watermark are dropped |
| FallbackRetrier.PendingMarkerHasItsRetrier | internal/agent/stream.go:428-522 | each marker is retried by at most one goroutine, and a pending marker always has its goroutine running or about to start |
| FallbackRecovery.MarkKeepsCovered | internal/agent/stream.go:428-448 | raising the watermark by maximum keeps the old losses and the new one covered |
| FallbackRecovery.ConfirmKeepsCovered | internal/agent/stream.go:502-518 | deleting a marker after the watermark re-check loses nothing: the entry sent lies above every seq the marker stood for |
| FallbackTable.Table.MarkFellBack | internal/agent/stream.go:428-448 | the session's watermark becomes the maximum, and the caller starts a retrier exactly for a new marker |
| FallbackTable.Table.TakeFellBack | internal/agent/stream.go:450-459 | consumes the session's watermark and leaves the others |
| FallbackTable.Table.ClearFallback | internal/agent/stream.go:463-469 | drops the marker only if it is still the current one |
| FallbackTable.Table.ForgetFallback | internal/agent/stream.go:473-477 | drops the session's marker whatever it is |
| FallbackTable.Table.ConfirmSent | internal/agent/stream.go:503-519 | after a send, removes the marker only when current and unchanged; asks for another round exactly when a newer seq was recorded |
| LocalFreshness.LocalSeqIsFreshIff | internal/agent/stream.go:524-570 | for every interleaving and every viewer, the next fallback's seq is above the viewer's clock and all earlier fallbacks if and only if the viewer's clock is 0 or reached by some seq seeded or handed out |
| LocalFreshness.FreshOnceTopIsReached | internal/agent/stream.go:524-570 | in terms of what was delivered: reaching the highest delivered seq plus the viewer's offset is enough, and necessary for a viewer standing there |
| LocalFreshness.SeededViewersSeeNewSeqs | internal/agent/stream.go:524-540 | a viewer that was never re-based gets an unseen seq once the highest seq delivered to it was seeded |
| LocalFreshness.UnseededSeqHidesFallback | internal/agent/stream.go:524-570 | after delivering an event above everything seeded and handed out here, the next fallback's seq is not new to the viewer |
| LocalFreshness.RebasingHidesFallback | internal/agent/stream.go:545-570 | after queued duplicates re-based a viewer, the next fallback's seq is below its clock even if all delivered events were seeded |
| LocalCounter.LocalSeqIsAboveSeeded | internal/agent/stream.go:534-556 | in every interleaving of the compare-and-swap loops, a local seq is above every shared seq seeded before it and every local seq handed out before it |
| LocalCounter.CounterReachesIff | internal/agent/stream.go:534-556 | over every run the counter has reached a seq exactly if something seeded or handed out has |
| LocalCounter.LostSwapTriesAgain | internal/agent/stream.go:534-540 | a compare-and-swap that lost a race changes nothing, and the next round seeds the seq |
| LocalCounter.RunStaysAhead | internal/agent/stream.go:535-540 | over every run the counter never goes down and stays at or above everything seeded and handed out |
| StreamLifecycle.LifecycleStaysSound | internal/agent/stream.go:219-347 | in every interleaving of the critical sections and late timers: one live stream per session and it is the mapped one, dead streams are empty, at most one pump per stream and always one under subscribers, channels closed at most once and never pushed to after, an empty live stream always has a timer or a thread about to arm one or join |
| StreamLifecycle.NextKeepsPumpsRight | internal/agent/stream.go:262-277 | every step keeps at most one pump per stream and a pump under every subscriber |
| StreamLifecycle.NextKeepsTimersRight | internal/agent/stream.go:289-347 | every step keeps an empty live stream attended to |
| StreamRounds.SubscribeJoins | internal/agent/stream.go:219-271 | undisturbed, a subscriber joins the live stream of the session or a new one, with a pump whenever there is Redis and no timer left, and no other stream changes |
| StreamRounds.LeaveCloses | internal/agent/stream.go:288-300 | leaving removes the subscriber and closes its channel exactly once, however often it is called |
| StreamRounds.LastLeaveRetires | internal/agent/stream.go:288-347 | after the last subscriber left, the grace period ends the stream, frees the session and stops the pump |
| StreamRounds.FirstSubscriberComesAndGoes | internal/agent/stream.go:219-347 | over a whole run the first subscriber gets a stream, and its leaving ends the stream, frees the session and closes exactly its channel |
| SessionStreams.SessionStream.Join | internal/agent/stream.go:242-267 | a dead stream refuses; a live one gains the subscriber and a pump exactly when there is Redis and none yet |
| SessionStreams.SessionStream.Unsubscribe | internal/agent/stream.go:289-300 | the loop removes the subscriber and closes its channel exactly once, and reports an empty live stream |
| SessionStreams.SessionStream.ArmCleanup | internal/agent/stream.go:305-311 | arms the grace timer only if none is recorded |
| SessionStreams.SessionStream.GraceExpired | internal/agent/stream.go:322-336 | a stream with subscribers only loses its timer, an empty one dies and gives up its pump |
| SessionStreams.StreamManager.Lookup | internal/agent/stream.go:226-241 | a missing or dead stream is replaced by a new one, a live one loses its grace timer, no other session is touched |
| SessionStreams.StreamManager.CleanupSessionStream | internal/agent/stream.go:322-347 | a retired stream leaves the map only if it is still the mapped one |
| ChatRepair.SanitizeChatMessages | internal/agent/engine.go:387-446 | every call with an id is answered before the next assistant or user message, every kept tool message follows its issuer with no user between; matched messages keep their order, exactly the missing answers are added, and a paired history is left alone |
| ChatRepair.AnswerAllCalls | internal/agent/engine.go:388-417 | the first loop terminates although it inserts ahead of itself, answers every call, and adds one placeholder per missing answer |
| ChatRepair.AnswerCalls | internal/agent/engine.go:392-416 | answers the calls of one assistant in any iteration order of its ids |
| ChatRepair.DropOrphans | internal/agent/engine.go:418-445 | the backward loop removes exactly the unmatched tool messages with an id |
| ChatRepair.HasMatch | internal/agent/engine.go:424-441 | the backward search finds an issuer with no user in between if and only if there is one |
| ChatRepair.RepairKeepsNonTools | internal/agent/engine.go:387-446 | all messages but tool results survive, in order |
| ChatRepair.RepairKeepsAnswers | internal/agent/engine.go:387-446 | every result that answers a call in time is still there after the repair, and nothing is new but placeholders |
| ChatRepair.RepairTwice | internal/agent/engine.go:387-446 | a second repair changes nothing if and only if no tool call has an empty id |
| ChatHistory.CompactChatHistory | internal/agent/engine.go:316-382 | live compaction yields system prompt, summary and the last 8 messages, always strictly shorter, or leaves the history alone |
| ChatHistory.FindBoundary | internal/agent/engine.go:674-680 | the latest non-empty compaction row |
| ChatHistory.WindowStart | internal/agent/engine.go:681-698 | the start of the last kept non-compaction rows before the boundary; superseded compaction rows displace nothing |
| ChatHistory.RenderRows | internal/agent/engine.go:718-776 | one message for each row from the start on, in order and with its role, text, call id and calls, leaving out dividers and assistant rows with neither text nor calls; and the text of the boundary |
| ChatHistory.RebuildHistory | internal/agent/engine.go:671-786 | the rebuilt history is the prompt, a system message with the text of the boundary right after it if there is one, and one message for each shown row of the retained window, in order and with its content |
| ChatHistory.WindowIsNewest | internal/agent/engine.go:681-698 | the window is the newest part of the rows that are no dividers: all after the boundary and as many before it as it kept |
| ChatHistory.StartingHistory | internal/agent/engine.go:671-787 | the repaired history is paired, still starts with prompt and summary, and shows every non-tool row of the window in order with its content |
| TurnLoop.Session.Steer | internal/api/agent_ws.go:453-465 | a follow-up is accepted into the mailbox if and only if fewer than 16 are queued |
| TurnLoop.Session.DrainSteering | internal/agent/engine.go:205-223 | hands out everything accepted and not yet applied, first in first out, while any number of others keep sending |
| TurnLoop.Session.PrepareCall | internal/agent/engine.go:947-957 | the history passed to the model call is the repaired history followed by one user message with the text of each drained follow-up, and it is paired |
| TurnLoop.Session.ExecuteCalls | internal/agent/engine.go:1148-1402 | the reply with its text and calls, then one tool message with the id of each call, in call order, whatever happened to the call |
| TurnLoop.ResultTellsOutcome | internal/agent/engine.go:1148-1402 | a result holds the JSON of a success, the error of a failure, and the name of a tool that was unavailable, denied or timed out |
| TurnLoop.Session.Turn | internal/agent/engine.go:945-1412 | over any turns, every history sent to the model is paired, accepted messages are the applied ones followed by the mailbox, and the new history is the compacted one plus the batch |
| TurnLoop.CompactedKeepsEnds | internal/agent/engine.go:1054-1090 | compaction leaves the first message, a system message with the summary and the last eight; below the threshold, up to ten messages or without a summary it leaves all |
| TurnLoop.SteeringKeepsPaired | internal/agent/engine.go:238-256 | user messages at a turn boundary never break pairing |
| TurnLoop.BatchKeepsPaired | internal/agent/engine.go:1148-1402 | an assistant message with one result per call keeps a paired history paired |
| EditDistance.LevenshteinDistance | internal/api/cell_history.go:68-102 | the table's corner is the least number of insertions, deletions and substitutions that lead from one text to the other |
| EditDistance.DistIsLeast | internal/api/cell_history.go:68-102 | some script of that length exists and none is shorter |
| EditDistance.GreedyStep | internal/api/cell_history.go:88-90 | with equal last characters the diagonal cell alone is least |
| EditDistance.Neighbours | internal/api/cell_history.go:86-100 | neighbouring cells differ by at most one |
| EditDistance.Symmetric | internal/api/cell_history.go:68-102 | the distance is symmetric |
| EditDistance.ZeroIffEqual | internal/api/cell_history.go:68-102 | the distance is 0 if and only if the texts are equal |
| EditDistance.Triangle | internal/api/cell_history.go:68-102 | the triangle inequality |
| EditDistance.NoShorterScript | internal/api/cell_history.go:68-102 | every script between two texts is at least as long as their distance |
| CellVersions.CellVersionTable.UpsertCellVersion | internal/api/cell_history.go:25-66 | the newest row gets text and author and keeps its date if it is close and recent enough, a new row dated now is added otherwise, no other row changes, and the rows after any sequence of saves are exactly the specified history |
| CellVersions.HistoryIsWellFormed | internal/api/cell_history.go:25-66 | the versions partition the saves in order; neighbours were split for distance or age |
| CellVersions.NewestShowsLastSave | internal/api/cell_history.go:25-66 | the newest row always holds the last saved source |
| CellVersions.DistantSavesNeverShare | internal/api/cell_history.go:17-57 | two saves 60 seconds or more apart never share a row |
| CellVersions.VersionsStayNearTheirFirstContent | internal/api/cell_history.go:17-57 | a row that absorbed k merges is within distance 49k of its first content |
| CellPositions.UniqueInEveryOrderIffSafe | internal/api/cell_handlers.go:104-115 | an UPDATE respects the UNIQUE constraint in every order of its rows if and only if no rewritten row meets another row |
| CellPositions.TwoPhaseShiftIffShiftable | internal/agent/tools_notebook.go:510-515 | both statements succeed in every row order and make room, if and only if no stored position is negative, or only -1 is, none is 0 and the target is negative |
| CellPositions.RoomBehindIffNonNegative | internal/api/cell_handlers.go:505-520 | behind an existing cell that condition is that no stored position is negative |
| CellPositions.MoveWorksIffMovable | internal/agent/tools_notebook.go:1187-1218 | the four statements of a move succeed in every row order and move the cell, if and only if the table is movable: an exact condition on the stored negative positions |
| CellPositions.NonNegativeIsEnough | internal/agent/tools_notebook.go:1163-1218 | without negative positions every shift, move and swap works and keeps them non-negative |
| CellPositions.MovableIsSafeAway | internal/agent/tools_notebook.go:1193-1213 | the first statement on the gap is safe in every row order, the parked cell included |
| CellPositions.MovableIsSafeBack | internal/agent/tools_notebook.go:1193-1213 | the returning statement, downward or upward, is safe in every row order |
| CellPositions.CellTable.Update | internal/agent/tools_notebook.go:510-515 | rows are written one by one in any order, positions staying unique throughout; a refused row undoes the statement, and a safe statement is never refused |
| CellPositions.CellTable.ShiftFrom | internal/api/cell_handlers.go:104-115 | positions stay unique whatever is stored; room is made on every shiftable table; without a transaction a refused second statement leaves the first one standing |
| CellPositions.CellTable.MoveCell | internal/agent/tools_notebook.go:1163-1218 | the checks, and the moved table on every movable one; otherwise the raw result of the four statements or, on a conflict, the old table |
| CellPositions.CellTable.SwapCells | internal/agent/tools_notebook.go:1253-1296 | two existing, different cells exchange positions, if and only if the parking position is free; otherwise nothing changes |
| CellPositions.CellTable.CreateCellAt | internal/api/cell_handlers.go:102-115 | on every shiftable table room is made and the cell put there; positions stay unique on every table, and non-negative if and only if the target is |
| CellPositions.CellTable.AppendCell | internal/api/cell_handlers.go:116-124 | the cell goes right after the last one, whatever is stored |
| CellPositions.CellTable.DuplicateCell | internal/api/cell_handlers.go:505-520 | the copy lands right behind its original on every table without negative positions; positions stay unique on every table |
| CellOrder.CreateRefinesInsert | internal/agent/tools_notebook.go:494-520 | creating at a position inserts the cell before the first cell at or past it, all others keep their order |
| CellOrder.AppendRefinesAppend | internal/agent/tools_notebook.go:496-501 | creating without a position appends |
| CellOrder.DuplicateRefinesInsertAfter | internal/api/cell_handlers.go:505-520 | duplicating inserts right after the original |
| CellOrder.MoveRefinesRemoveInsert | internal/agent/tools_notebook.go:1163-1218 | moving takes the cell out of the list and inserts it where the target lies |
| CellOrder.MoveKeepsContiguousIffInRange | internal/agent/tools_notebook.go:1163-1218 | positions 0..n-1 stay so if and only if the target is one of them |
| CellOrder.MoveToIndex | internal/agent/tools_notebook.go:1163-1218 | with positions 0..n-1 a move is remove and insert at the target index |
| CellOrder.CreateKeepsContiguousIffInRange | internal/agent/tools_notebook.go:494-520 | positions 0..n-1 extend to 0..n if and only if the target is at most n |
| CellOrder.SwapRefinesSwap | internal/agent/tools_notebook.go:1280-1296 | swapping exchanges the two list elements and nothing else |
| CellOrder.ListIsUnique | internal/database/migrations/V001__initial_schema.sql:82 | unique positions determine one list |
| CellOrder.UniqueIsListed | internal/database/migrations/V001__initial_schema.sql:82 | every table with unique positions has a list |
| AclActions.UnionActions | internal/api/acl_handlers.go:35-47 | the merged list holds every action once, where first seen |
| AclActions.SlicesEqual | internal/api/acl_handlers.go:22-32 | equal if and only if the same actions in the same order |
| AclActions.FirstSeenKeepsEachOnce | internal/api/acl_handlers.go:35-47 | merging keeps exactly the actions given, each once |
| AclActions.FirstSeenGrows | internal/api/acl_handlers.go:35-47 | later actions only add to the end |
| AclActions.MergeInSteps | internal/api/acl_handlers.go:35-47 | merging list after list is merging all at once |
| AclAudit.AuditDiff | internal/api/acl_handlers.go:195-253 | the nested loops give the specified diff |
| AclAudit.DiffIsTruthful | internal/api/acl_handlers.go:195-253 | each event states exactly what a subject held before and holds now, and no subject has two events |
| AclAudit.MentionedIffChanged | internal/api/acl_handlers.go:195-253 | a subject has an event if and only if its actions changed |
| AclAudit.ReplayYieldsNewEntries | internal/api/acl_handlers.go:195-253 | replaying the events on the old entries gives the new ones |
| AclReplace.Replacement.InsertUserEntry | internal/api/acl_handlers.go:377-404 | a member's actions merge into an earlier entry for the same member or start one |
| AclReplace.Replacement.AddPending | internal/api/acl_handlers.go:443-449 | the same for a staged address |
| AclReplace.Replacement.InsertRow | internal/api/acl_handlers.go:458-470 | a second row for a group or role is refused |
| AclReplace.Replacement.Accept | internal/api/acl_handlers.go:406-471 | one entry of the request: skipped, merged, inserted or refused, leaving the rows the entries so far ask for |
| AclReplace.WantedHolds | internal/api/acl_handlers.go:377-450 | a subject is to hold an action exactly if an entry with id and actions gives it: to the user, group or role it names, or for a valid pending address to the member it belongs to, or else to the normalised address |
| AclReplace.RowsSubjects | internal/api/acl_handlers.go:374-471 | one row per subject, for exactly the subjects named |
| AclPut.AclStore.Put | internal/api/acl_handlers.go:343-509 | success if and only if no group or role is named twice; then entries and events are the specified ones, otherwise nothing changes |
| AclPut.RefusedIffClash | internal/api/acl_handlers.go:458-470 | a request is refused if and only if two entries with actions name the same group or role |
| AclPut.OutcomeHasOnePerSubject | internal/api/acl_handlers.go:362-490 | each subject named by an accepted entry has one entry, and nobody else has |
| AclPut.OutcomeGrantsTheUnion | internal/api/acl_handlers.go:362-490 | an entry grants the union of what the accepted entries naming its subject grant |
| AclPut.RealEntryGrants | internal/api/acl_handlers.go:451-470 | an entry for a user, group or role grants its actions to that very subject |
| AclPut.MembersEntryGrants | internal/api/acl_handlers.go:418-442 | a pending entry for the address of a member grants its actions to the member, and nothing is staged for the address |
| AclPut.StrangersEntryStages | internal/api/acl_handlers.go:443-449 | a pending entry for an address of no member stages its actions under the normalised address |
| AclPut.EveryGrantIsExplained | internal/api/acl_handlers.go:406-471 | every action held comes from such an entry: entries without id or actions, of unknown kind or with an invalid address grant nothing |
| SessionUsage.UsageRecord.AddUsage | internal/agent/session.go:321-337 | the UPDATE adds the delta; context values above 0 replace |
| SessionUsage.UsageRecord.ApplyUsageDelta | internal/agent/session.go:353-369 | the snapshot changes exactly as the row does |
| SessionUsage.TokenUpdatesShowPersistedTotals | internal/agent/engine.go:1016-1052 | in every run, subagents included, each token update shows the persisted totals, at least those of everything shown before |
| SessionUsage.TraceStaysSynced | internal/agent/engine.go:1404-1412 | the refresh after the tools keeps the snapshot equal to the row outside tool phases |
| SessionUsage.TotalsAreConserved | internal/agent/session.go:321-369 | over every run, subagents included, each persisted total is its start plus the sum of what calls, compactions and subagents added to it, and the context values are the last positive ones reported |
| SessionUsage.StatusesShowEarlierTotals | internal/agent/subagent.go:262-284 | a subagent status shows totals that the row held at some earlier point |
| SessionUsage.FullTurnRuns | internal/agent/engine.go:1016-1412 | a turn with a call, a reporting subagent and a compaction runs to its end from every start and shows the client exactly the totals after the call and after the subagent |
| SessionUsage.TurnUsage.CountCall | internal/agent/engine.go:1016-1052 | a model call moves row, snapshot and client in step |
| SessionUsage.TurnUsage.CountCompaction | internal/agent/engine.go:1061-1073 | a compaction's tokens move row and snapshot in step |
| SessionUsage.TurnUsage.Refresh | internal/agent/engine.go:1404-1412 | the snapshot is read back from the row, which is untouched |
| SubagentTasks.TraceStaysSound | internal/agent/subagent.go:190-307 | every interleaving keeps counters, order, statuses, results and billing right |
| SubagentTasks.AtMostThreeRun | internal/agent/subagent.go:190-217 | in every reachable state at most three tasks are past the semaphore |
| SubagentTasks.ReturnedResultsAreComplete | internal/agent/subagent.go:195-307 | on return there is exactly one result for each task whose fetch succeeded, the one its loop gave, with a final status that is failed if and only if it has an error; tasks whose fetch failed stay queued; the session has grown by exactly the results |
| SubagentTasks.NeverStuck | internal/agent/subagent.go:190-307 | no interleaving deadlocks on the semaphore or the wait group |
| SubagentTasks.EveryRunEnds | internal/agent/subagent.go:190-307 | every interleaving ends after at most nine steps for each task and the return |
| AccessFingerprint.DashboardAccessFingerprint | internal/api/dashboard_cache.go:32-52 | the loop writes the encoding that is hashed; unmanaged is constant, failures are reported |
| AccessFingerprint.DashboardQueryAccessFingerprint | internal/api/dashboard_cache.go:60-79 | public, per-user or shared, in the order of the checks |
| AccessFingerprint.DecodeEncode | internal/api/dashboard_cache.go:45-50 | decoding an encoded grant list gives it back, whatever the names contain |
| AccessFingerprint.EncodeIsInjective | internal/api/dashboard_cache.go:47-49 | distinct grant lists have distinct encodings |
| AccessFingerprint.SameFingerprintIff | internal/api/dashboard_cache.go:32-79 | exactly when two authenticated viewers share a fingerprint |
| AccessFingerprint.SharingIsSafe | internal/api/dashboard_cache.go:54-79 | viewers sharing one are the same user, or both may use the connector and are both unmanaged or hold equal grants |
| AccessFingerprint.PublicStaysApart | internal/api/dashboard_cache.go:61-63 | only public-token runs have the public fingerprint |
| ParamResolution.ResolveParams | internal/executor/params.go:5-10 | the loop replaces key after key in some order of the map; on plain templates and harmless parameters the result is simultaneous substitution |
| ParamResolution.ReplaceFills | internal/executor/params.go:7 | in a partly filled template, replacing one more key fills exactly its placeholders when the values filled in are quiet |
| ParamResolution.AnyOrderSubstitutes | internal/executor/params.go:5-10 | every order of harmless parameters gives simultaneous substitution |
| ParamResolution.OrderMattersIffHarmful | internal/executor/params.go:5-10 | two orders resolve some plain template differently if and only if the parameters are not harmless: a value, or two values side by side, begin the quoted key of a third parameter |
| ParamResolution.SingleBracesAreHarmless | internal/executor/params.go:5-10 | values that never bring two opening braces together, such as JSON objects, are harmless |
| ParamResolution.BracesMakeOrderMatter | internal/executor/params.go:5-10 | an example: a value that is the quoted key of another parameter |
| ConnectorHealth.Connector.RecordConnectorSuccess | internal/api/connector_health.go:24-38 | the conditional UPDATE stamps exactly when the debounce or a newer failure lets it |
| ConnectorHealth.Connector.RecordConnectorFailure | internal/api/connector_health.go:43-56 | a failure is stamped at once, the success stamp stays |
| ConnectorHealth.FailingIffLatestFailed | internal/api/connector_health.go:18-56 | over any run the failure stamp is newer, or there is no success stamp, if and only if the latest event was a failure |
| ConnectorHealth.WritesAreBounded | internal/api/connector_health.go:18-38 | in every ordered run the success stamp changes at most once, plus once for each failure, plus once for each 30 seconds that fit in the run |
| ConnectorHealth.SuccessIsNeverFarBehind | internal/api/connector_health.go:18-38 | after a success the stored stamp is at most 30 seconds behind it |

## Left out

- FallbackRecovery: one session; the retry deadline may expire at any look, and the next stream's local counter starts from 0 at a retirement.
- LocalCounter: one stream object; a stream created after a retirement starts again from 0.
- StreamLifecycle: one session of the manager's map; the in-memory catch-up at Subscribe (no Redis) is not modelled.
- StreamDelivery: one counter epoch, because a catch-up learns of a reset only through a later live event with a lower seq; resets are covered for the clock by SubscriberClock.
- SubscriberChannel: the pump is the only pusher; concurrent local fan-out, which pushes without touching the clock, gives no order.
- ChatHistory: images and multi-part user messages; JSON of tool arguments; token counts that trigger compaction are a parameter.
- TurnLoop: one turn at a time per session; streaming, persistence of messages and cost counters are not part of the histories.
- SessionUsage: one turn per session and no database errors; token counts are natural numbers. The interleaved machine is on values, because subagents run inside a tool phase concurrently.
- SubagentTasks: goroutines, semaphore and wait group are a state machine on values; task ids are distinct, database writes succeed, and the loop of one subagent returns any result.
- CellPositions: other columns; another request between the two statements of an HTTP handler, which have no transaction.
- AclPut: concurrent requests on one resource and materialisation of staged rows; `normalizePendingEmail` and the member lookup are functions that may fail to find, database errors abort.
- AccessFingerprint: SHA-256 is taken as injective and hexadecimal; UUID parsing and loading of grants may fail but are not modelled further.
- ParamResolution: parameter keys that hold a brace.
- ConnectorHealth: the error text and deleted connectors; the clock is strictly increasing.
- Sequence numbers and counters are unbounded; 64-bit wrap-around is not modelled.
- Decoding of stored entries and malformed entries, pump reconnect delays and backoff values.
- The permission resolver, folder inheritance, session sharing, dashboard documents, the difflib diff view and the CRDT relay.
