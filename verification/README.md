# Gotato: the shared-state protocols, modelled and proved

Gotato runs agents over an append-only log of numbered Events. Several goroutines
share one piece of state in most of its hard parts, and this project models those
parts: the stream of Events a subscriber gets, the streams that are cut when a Record
is deleted and created again, the messages a Session is told are queued, the Run with
its Tool batches and its span in the log, the Tools a Session loads, and the lock of a
Session. Some transformations are modelled beside them: function names, the coalescing
of a streamed reply, the restart of a stream, and where a compaction cuts.

An operation that changes state in place is a method of a class, proved equal to a
function of the old state, and its contract, or a lemma about that function, also says
in terms of the state alone what the caller gets. The same functions are the steps of a transition system,
in which every goroutine's locked steps interleave freely; the theorems hold in every
reachable state of it. The modules, by subject:

- `EventStream`, `EventStreamRuns`, `EventStreamDeltas`, `FeedRing`: a subscriber of a
  Feed, its catch-up from the Record, its deltas and Instance Events, and the ring of a
  Feed that has no Record.
- `RecordStore`, `RecordStreams`, `RecordStreamRuns`, `EpochReads`: client streams and
  the epochs of Records.
- `ControlQueue`, `Custody`, `Requeue`, `RequeueRuns`: queued messages, leases, the
  end-of-Run gate and the requeue.
- `Transcript`, `ToolBatch`, `RunLoop`: Tool calls and their results over whole Runs.
- `RunSpan`, `RunSpanRuns`: what of the log lies between run_started and run_ended.
- `ToolIds`, `ToolCatalog`, `DeferredTools`, `ToolRegistry`: loaded Tools, the list a
  request sends, and ToolSets that are unavailable for a while.
- `FunctionNames`, `Coalesce`, `Reply`, `ModelStream`, `Compaction`: the transformations.
- `SessionLocks`: the hand-off lock of a Session.
- `Seqs`: sequence facts the others share.

## Where the code needs a condition

These properties hold under a condition. The condition is stated and proved to be the
exact one, or a case outside it is shown.

- A live subscriber starts at the first stored Event that reaches it, except that one
  whose queue overflows before that, with Events that are no deltas, falls behind with
  resume 0 and reads the Record from its first Event (`EventStream.LiveStart`,
  `EventStream.LiveStartReadsTheRecord`). Delivery is exact from either start
  (`EventStreamRuns.ExactlyOnceInOrder`).
- A Feed without a Record whose first Event is not number 1 and whose ring was never
  trimmed passes over the Events before it without an error
  (`FeedRing.RingSkipsSilently`, an equivalence).
- An open cuts the streams of other Records than the one it opened. What it leaves is of
  the Record there is at its second read exactly when that is still the one it opened, or
  no stream of that one is left by then (`RecordStreamRuns.OpenCutsIff`);
  `RecordStreamRuns.OpenLeavesItsOwn` is a stream it leaves otherwise.
- A delete ends the streams of a Session without comparing epochs. All it ends are of
  Records that are gone for good exactly when none is of the Record there is at that
  moment, and always when there is none (`RecordStreamRuns.DeleteEndsIff`); when another
  Instance has created the Record again since, it can end a stream of the one that lives
  (`RecordStreamRuns.DeleteEndsALiveStream`).
- A requeue puts each message in a step of its own. It accepts a prefix, Steers before
  FollowUps, exactly when no better place comes free between two neighbouring steps
  (`Requeue.AcceptsPrefixIff`), which needs a place released or taken from, or a gate
  opened, in between (`Requeue.LaterIsNoBetter`); otherwise the later of the two overtakes
  (`Requeue.ReopenedOvertakes`, `Requeue.FreedPlaceReorders`). With that condition the
  Runs keep the order, whatever they and others do (`RequeueRuns.RequeueKeepsOrder`).
- No Run begins with an Interrupt in its queue unless a Run left its queue for the host
  and the host has not taken it (`Custody.RunsStartUninterrupted`).
- The span of a Run needs a Journal that refuses everything after its first refusal
  (`RunSpanRuns.NeedsJournalToStop`).
- The Tool list does not move in a load exactly when the history refers to the loaded
  Tool afterwards and to every loaded Tool as before (`DeferredTools.LoadMovesNothing`).
- A compaction in the middle of a Run splits a call from its results exactly when the
  Run has Messages but no reply in the stretch, the first of them is a Tool result, and
  the cut would come after it (`Compaction.CutOfSplitsIff`). It never does when each
  result is of its reply's Run or of none, as all that Runs commit and rebuilds repair
  are (`Compaction.CutOfKeepsPairs`); `Compaction.ForeignResultSplits` is a stretch that
  is not of that kind.
- Function names fail only when a hashed name meets another name
  (`FunctionNames.FailsOnlyOnCollision`, `FunctionNames.CollisionFails`).

The model also rests on what the code asks of its surroundings: stored Events are
published in the order of their numbers by one sender; filters are pure; an epoch never
comes back; a TurnPreparer leaves a well-formed Transcript; an append to the Transcript
that no limit refuses does not fail; a ToolSet's name has no dot.

## Model

| member | source | states |
|---|---|---|
| EventStreamRuns.ExactlyOnceInOrder | gotato/subscription.go:208-538 | In every interleaving of writes, publishes, offers in flight, catch-up reads (stale or empty), tail reads and rejoins, the stored Events delivered are a gap-free prefix of the Record's Events after the start that pass the filter, in strictly increasing order |
| EventStreamRuns.NothingPublishedIsLost | gotato/subscription.go:400-450 | A stream that is not behind, has nothing queued and nothing on its way to it has been delivered every kept Event up to the last published one |
| EventStreamRuns.BehindResumesAtCursor | gotato/subscription.go:244-290 | In every reachable state a subscriber that is behind resumes exactly at its cursor, also one that fell behind before its stream started |
| EventStreamRuns.EmptyReadRejoins | gotato/subscription.go:405-434 | A catch-up read that finds nothing more, once everything published has been read, brings the stream back to the live Events with every kept Event up to the last published one delivered |
| EventStreamDeltas.OthersInOrder | gotato/subscription.go:244-288 | In every run the deltas and Instance Events offered while the stream listened are delivered or wait, in the order they were offered; only deltas are left out, exactly one for each offer that found the queue full |
| EventStreamDeltas.AllOthersWithRoom | gotato/subscription.go:284-288 | With room for every offer none is left out |
| EventStream.Subscription.constructor | gotato/feed.go:125-164 | A new subscriber: behind from the asked number when it catches up, and not started when it is live |
| EventStream.Subscription.Offer | gotato/subscription.go:208-289 | What the stream takes becomes the last of its queue when there is room; a full queue makes room by its oldest delta, drops a delta, or falls behind at the cursor; what it does not take changes nothing, except that a gap sends it behind |
| EventStream.Subscription.PopQueued | gotato/subscription.go:385-399 | The skip notice first, then the queue in order |
| EventStream.Subscription.CatchUp | gotato/subscription.go:405-424 | A batch moves resume to its last number, never moves the cursor back, and touches neither the queue nor whether the stream is behind |
| EventStream.Subscription.Rejoin | gotato/subscription.go:427-434 | An empty read ends the catch-up only when everything published has been read |
| EventStream.Subscription.Look | gotato/subscription.go:481-516 | A tail read that starts no later than the next Event queues exactly what of it is new and passes the filter, in order; one that starts later falls behind at the cursor and queues nothing |
| EventStream.LiveStart | gotato/subscription.go:256-283 | A stream that has not started falls behind exactly when its queue is full without a delta and a kept Event that is no delta arrives, and then resumes at its cursor |
| EventStream.LiveStartReadsTheRecord | gotato/subscription.go:256-283 | The case in which a live subscriber reads the Record from Event 1 |
| EventStream.MixedCountsEverySkip | gotato/subscription.go:256-283 | On an Instance's Feed every kept Event is delivered, queued, or in a reported count of skipped ones, over every run |
| FeedRing.Feed.Publish | gotato/feed.go:182-221 | A publish moves last, retains the Event, and trims the oldest half of a full ring; stored Events published in the order of their numbers keep the ring a window of what was published |
| FeedRing.Feed.EventsAfter | gotato/feed.go:231-258 | A read of the ring fails exactly when what it asks for was trimmed, and otherwise returns retained Events after the number, all of them unless the limit is reached, and never more than the limit |
| FeedRing.RetainHolds | gotato/feed.go:210-221 | Retaining one more Event, with or without a trim, leaves the ring a window of what was published, with nothing missing before the first trim |
| FeedRing.RetainedIs | gotato/feed.go:210-221 | A retained Event comes last, behind all that were there, or behind the newer half of a full ring |
| FeedRing.Feed.ReadsInOrder | gotato/feed.go:231-258 | After any publishes, a read returns published Events without a gap, as many as there are up to the limit, none only when none is newer, and starts right after the number or fails, except a read from before the first publish of a ring that was never trimmed |
| FeedRing.RingReadIsWindow | gotato/feed.go:231-258 | A read returns consecutive published Events with none left out, and returns nothing exactly when there is nothing newer |
| FeedRing.RingSkipsSilently | gotato/feed.go:231-249 | A read that does not fail passes over Events exactly when the ring was never trimmed and begins after the number asked for |
| FeedRing.SkipsSilently | gotato/feed.go:231-249 | A Feed whose first stored Event is number 5, read after number 2, returns that Event and no error |
| RecordStore.ReplacedForGood | host/streams.go:168-180 | An epoch that is no longer a Record's is never its epoch again, whatever is created and deleted |
| RecordStore.NeverComesBack | host/streams.go:168-180 | An epoch that is the Record's before and after some changes was its epoch throughout |
| RecordStreams.StreamSet.StartStream | host/streams.go:251-279 | A stream that was marked with another epoch rechecks; otherwise it takes the next start number, shows its epoch to the opening streams of its Session and to no other, and is handed exactly the started ones of other epochs |
| RecordStreams.StreamSet.MarkStreams | host/streams.go:339-359 | A created or opened Record is shown to every opening stream of the Session, and every started stream of another epoch is returned: as stale when it started before the mark, to be read again when it started after |
| RecordStreamRuns.CutsAreFinal | host/streams.go:192-215 | A stream cut as created again has an epoch that is not the Record's and never will be, in every interleaving of stores, opens, marks and rechecks |
| RecordStreamRuns.StreamsFollowOneRecord | host/streams.go:251-279 | No two started streams of a Session that live are of different Records |
| RecordStreamRuns.OlderIsOlder | host/streams.go:251-279 | What a starting stream hands to be cut is of a Record that has been replaced |
| RecordStreamRuns.StaleIsOlder | host/streams.go:305-325 | A stream that started up to the mark with another epoch is of a Record that has been replaced |
| RecordStreamRuns.UnsureIsOlder | host/streams.go:305-325 | A stream read again after the mark is cut only when its Record has been replaced |
| RecordStreamRuns.OpenCutsTheOthers | host/streams.go:305-325 | In every run, the streams of its Session that were started when an open cut the others and that its second read leaves have the epoch that was opened, or started after the mark and have the epoch the Record has now |
| RecordStreamRuns.OpenCutsIff | host/streams.go:305-325 | They all have the epoch the Record has now exactly when that is the epoch that was opened or no stream of that one is left by then |
| RecordStreamRuns.OpenLeavesItsOwn | host/streams.go:305-325 | A stream of the opened Record, replaced on another Instance before the second read, that the open leaves |
| RecordStreamRuns.MarkedStreamRereads | host/streams.go:226-236 | Because a stream is registered before it reads the Record, an epoch, or a delete, that this Instance shows to opening streams at any moment while it opens keeps it from starting on another epoch until it has read the Record again |
| RecordStreamRuns.MarkDividesStarts | host/streams.go:281-288 | Whatever happens after a mark is taken, the streams numbered up to it are exactly those that had started when it was taken |
| RecordStreamRuns.DeleteEndsIff | host/streams.go:328-334 | In every reachable state the streams a delete ends are all of Records that never come back exactly when none is of the Record there is then, and always when there is none |
| RecordStreamRuns.DeleteEndsAll | host/streams.go:328-334 | A delete ends every started stream of its Session, and no other |
| RecordStreamRuns.DeleteEndsALiveStream | host/streams.go:328-334 | A run in which the end of a deleted Session's streams reaches a stream of the Record created since |
| EpochReads.OpenedStreamsNeverMix | host/streams.go:168-191 | A stream that acquired the Feed of the epoch it read never queues an Event of another Record, from a read of the store or from any publisher on the Instance, over every interleaving of deletes, creates, Writers and users of Feeds |
| EpochReads.NeverAnotherRecord | gotato/subscription.go:523-538 | The same from any state in which a batch was read and not yet checked |
| EpochReads.NothingIsKeptFromIt | gotato/subscription.go:523-538 | In every run, as long as the stream has not ended, every Event a Writer of its Record publishes is queued, a checked read is queued whole, and only a read that finds no Record or a check that finds another ends it |
| EpochReads.FeedSet.AcquireFeed | host/events.go:39-54 | The Record's Feed, made on first use and the same one after that, has one more user; no other Feed changes |
| EpochReads.FeedSet.ReleaseFeed | host/events.go:58-75 | The Feed has one user less, and the last one closes it and takes it out of the set; no other Feed changes |
| ControlQueue.MessageQueue.CountKind | gotato/controlqueue.go:63-71 | The number of places in the queue where a message of the kind waits |
| ControlQueue.MessageQueue.Reserve | gotato/controlqueue.go:76-84 | A place is claimed exactly when waiting and held places are below the limit |
| ControlQueue.MessageQueue.Fill | gotato/controlqueue.go:96-107 | A held place becomes the last message in order, or is given back when the queue is sealed |
| ControlQueue.MessageQueue.Add | gotato/controlqueue.go:112-121 | A message without a place is put in exactly when the queue is open and has room |
| ControlQueue.MessageQueue.Interrupting | gotato/controlqueue.go:126-130 | Whether an Interrupt waits |
| ControlQueue.MessageQueue.Split | gotato/controlqueue.go:219-229 | The picked messages leave in order, and the others stay in order |
| ControlQueue.MessageQueue.Take | gotato/controlqueue.go:137-152 | A lease of exactly what applies at the boundary: Steers and Interrupts, FollowUps when settling, and notices when not settling or with a message that is none; the rest stays |
| ControlQueue.MessageQueue.TakeNotices | gotato/controlqueue.go:154-160 | A lease of the waiting notices |
| ControlQueue.MessageQueue.Drain | gotato/controlqueue.go:202-207 | What waits leaves, notices only when asked |
| ControlQueue.MessageQueue.Seal | gotato/controlqueue.go:210-217 | Everything leaves and nothing enters afterwards |
| ControlQueue.Lease.Return | gotato/controlqueue.go:188-198 | What was not settled goes back in acceptance order |
| ControlQueue.EnqueueOrdered | gotato/controlqueue.go:96-121 | A message that enters keeps the queue strictly in acceptance order |
| ControlQueue.PutBackOrdered | gotato/controlqueue.go:188-198 | A lease put back gives the one ordered arrangement of it and what waits, and loses nothing |
| ControlQueue.LeaseRoundTrip | gotato/controlqueue.go:172-198 | Any take, any number settled, any arrivals, and a put-back leave exactly the old queue without the settled messages and the arrivals after it |
| ControlQueue.NoticesAloneWait | gotato/controlqueue.go:132-152 | Notices alone are never taken at settlement |
| ControlQueue.TakeSplits | gotato/controlqueue.go:137-152 | A take loses nothing, returns acceptance order, shares no place with what it leaves, and leaves nothing that keeps the Run going |
| ControlQueue.TakeIs | gotato/controlqueue.go:132-152 | A Steer or Interrupt is always taken, a FollowUp exactly when settling, and a notice exactly when not settling or when a message that is none waits too |
| Custody.ExactlyOnePlace | gotato/queue.go:63-164 | Each message whose queued Event was written is, in every reachable state, in exactly one place: before its fill, in the queue, unsettled in the lease, committed, dropped, or with the host |
| Custody.EndOfRunGate | gotato/queue.go:119-157 | Once an ending Run without handoff has drained, nothing but notices is in the queue or on a lease until the Run is over, under every race of fill and requeue |
| Custody.RunsStartUninterrupted | gotato/queue.go:132-140 | No Run begins with an Interrupt in its queue, unless a Run left its queue for the host and the host has not taken it |
| Custody.NoInterruptIsLeft | gotato/controlqueue.go:132-152 | In every reachable state a take, settling or not, leaves no Interrupt in the queue |
| Custody.FillReaches | gotato/queue.go:119-157 | A written message enters the queue unless that is closed, an Interrupt finds no Run, or a Run is ending that drops its queue; a notice only needs it open; what does not enter is dropped |
| Custody.TakesAndDrops | gotato/controlqueue.go:132-160 | A take leases exactly what applies at the boundary and leaves the rest, and a Run that ends without handoff drops exactly what is no notice |
| Custody.RequeueReaches | gotato/queue.go:227-250 | A requeued message waits as a Steer while there is room, else as a FollowUp, and stays with the host when there is none, the queue is closed or a Run is ending that drops its queue; an Interrupt comes back as a Steer |
| Custody.ClosedQueueIsEmpty | gotato/controlqueue.go:86-107 | Nothing waits in a closed Session, and the held places are exactly the reservations and the messages not filled yet |
| Requeue.Session.FillControl | gotato/queue.go:146-157 | A message enters its place exactly when the queue is not sealed, an Interrupt finds a Run, and no Run is ending that drops its queue; the place is given back otherwise |
| Requeue.Session.RequeueOne | gotato/queue.go:236-243 | The locked step of one message puts it last among the Steers when there is room, else among the FollowUps, an Interrupt as a Steer, unless the queue is sealed or a Run is ending that drops it; nothing else changes |
| Requeue.Session.Requeue | gotato/queue.go:227-250 | Each message has one locked step of its own, with anything happening in between: it goes to the Steer queue, else the FollowUp queue, else it is returned, in order |
| Requeue.PutByRank | gotato/queue.go:229-246 | A message that is no notice goes to the first of the two queues that has room, and is returned exactly when neither has |
| Requeue.LaterIsNoBetter | gotato/queue.go:227-250 | Whatever other steps come between, as long as no place is freed no message goes to a better queue than one before it |
| Requeue.AcceptsPrefixIff | gotato/queue.go:219-226 | Whatever comes between the steps, a prefix is accepted, Steers first, and the suffix returned exactly when no step finds room in a better queue that was shut to the one before it |
| Requeue.ReopenedOvertakes | gotato/queue.go:219-226 | When one does, it overtakes the one before it: that one is returned and it is not, or the next boundary that does not settle takes it and leaves that one |
| Requeue.FreedPlaceReorders | gotato/queue.go:227-250 | With a place freed in between, a message can be returned and a later one accepted |
| Requeue.RequeueSplits | gotato/queue.go:220-250 | With nothing between its steps the input is split into Steers, FollowUps behind them, and a returned suffix, and the queue ends with exactly those |
| Requeue.UndisturbedSteps | gotato/queue.go:227-250 | Steps with nothing between them return what the uninterrupted requeue returns |
| RequeueRuns.RequeueKeepsOrder | gotato/queue.go:219-250 | In every interleaving of the requeue with reservations, fills, releases, gates, takes, settled and returned leases, drains and seals in which no step finds a better place than one before it, the accepted messages are a prefix and the returned ones the suffix, the Runs settle the accepted ones in the original order, and, unless some are dropped, exactly a prefix of them, all once none waits |
| RequeueRuns.SettledInOrder | gotato/loop.go:320-327 | The order the Runs settle requeued messages in follows from where they wait: settled ones before leased ones before queued ones, Steers before FollowUps |
| Transcript.ClosedIsWellFormed | gotato/toolbatch.go:39-46 | No call is open exactly when each assistant Message with calls is followed at once by one result per call, in order, and no other result stands anywhere |
| Transcript.OpenAppend | gotato/toolbatch.go:27-37 | What follows a complete history is read as if it stood alone |
| Transcript.CutAtTurn | record/compact_cut.go:81-99 | A history cut where no Tool result follows is two well-formed histories |
| ToolBatch.GroupPlans | gotato/toolbatch.go:148-177 | The groups one after the other are the calls that run, in source order; each holds one Sequential Tool or up to the worker bound of others, and none could be joined with the next |
| ToolBatch.GroupOrder | gotato/loop.go:286-303 | When a group has run, every call up to its last that is not blocked has run, and no call of it ran before |
| ToolBatch.GroupRun.CancelRest | gotato/toolbatch.go:238-246 | Exactly the calls without an outcome are settled as canceled, executed when their executors were started |
| ToolBatch.GroupRun.Collect | gotato/toolbatch.go:250-288 | In whatever order the Tools report and whenever the Run is canceled, each call of the group gets its own outcome: what it reported, or canceled and executed |
| RunLoop.Run.ExecuteRun | gotato/loop.go:331-366 | The first thing a Run commits is its prompt, under its own ID; a boundary comes before any Model call or Tool; with the prompt refused nothing at all happens; a Run that does not fail has committed a reply of its Model or was interrupted; and every exit leaves a well-formed Transcript |
| RunLoop.Run.CommitPrompt | gotato/loop.go:404-416 | The prompt becomes the next Message of the Transcript, of this Run, or nothing is added |
| RunLoop.Run.RunTurns | gotato/loop.go:449-501 | Each Turn begins at a boundary, and with no Turn nothing happens |
| RunLoop.Run.RunTurn | gotato/loop.go:449-501 | Each Turn begins at a boundary; the Run goes on, or ends well, only when the Model was called and its reply is committed, or an Interrupt cut the call short; and however a Turn ends it leaves no call open |
| RunLoop.Run.EndToolTurn | gotato/loop.go:573-595 | The reply is followed at once by one result per call, in order, each executed exactly when its Tool was put on record as started since the reply, also when the batch fails at any point |
| RunLoop.Run.RunToolBatch | gotato/loop.go:248-310 | A batch that goes through commits all results in source order, each executed exactly when its Tool was started, and one that does not leaves the batch open for its closing |
| RunLoop.Run.RunGroup | gotato/loop.go:286-303 | A group whose calls ran has its results committed up to its last call |
| RunLoop.Run.ExecuteGroup | gotato/toolbatch.go:183-211 | Every call of the group comes to an outcome that says executed exactly when its Tool was started, and either all its Tools were started or none |
| RunLoop.Run.LaunchGroup | gotato/toolbatch.go:207-209 | Launching a group puts exactly its calls on record as started, and its workers report each its own call |
| RunLoop.Run.CommitUpTo | gotato/loop.go:268-282 | Only calls whose outcome is known are committed, in order, and each once |
| RunLoop.Run.CommitResult | gotato/toolbatch.go:514-532 | Whichever stage of a commit fails, the open calls are exactly those without a committed result |
| RunLoop.Run.CloseOpenCalls | gotato/toolbatch.go:39-74 | Every open call gets its closing result, exempt from the limits, with executed true exactly when its Tool was started |
| RunLoop.Run.Preflight | gotato/toolbatch.go:385-449 | Each call has its own plan, and a blocked one a result that was not executed |
| RunLoop.Run.CallModel | gotato/loop.go:144-242 | A rewrite by a TurnPreparer, a second call after an overflow and the cut-off replies of retries leave no call open, and a failed call asks for no Tool |
| RunLoop.Run.AfterModelError | gotato/loop.go:506-529 | A cut-off reply is only added to the Transcript and leaves no call open, whether the Run goes on or fails |
| RunLoop.Run.EndAnswerTurn | gotato/loop.go:534-569 | After a reply without calls the Transcript only grows, no call is open, and another Turn follows only a boundary |
| RunLoop.Run.ConsumeControl | gotato/loop.go:631-649 | What was taken at a boundary is committed in order, all of it unless a commit or its write fails, and keeps the Run going exactly when it holds a Message that is no notice |
| RunSpan.RunState.StampEvents | gotato/eventwrite.go:139-157 | Events that name no Run get the one whose span is open and the others stay as they are; run_started opens the span and is followed by the Abort that waited for it |
| RunSpan.RunState.CloseAfter | gotato/eventwrite.go:161-170 | The span closes exactly when the batch held run_ended |
| RunSpan.RunState.TryAbort | gotato/sessionlifecycle.go:15-46 | An Abort is refused without a Run or when it is ending, waits for run_started before the span is open, and is counted otherwise |
| RunSpan.RunState.BeginRun | gotato/loop.go:372-381 | A new Run is registered with its flags reset |
| RunSpan.RunState.EndRun | gotato/loop.go:391-401 | A Run that is over leaves no open span and nothing to cancel |
| RunSpan.EventsInsideSpan | gotato/eventwrite.go:112-116 | In a log that reads back, each Event that names a Run stands after its run_started and not after its run_ended, of which there is one each |
| RunSpanRuns.EveryEventInItsSpan | gotato/eventwrite.go:117-136 | In every interleaving of the Session, Aborts and other writers, each logged Event that names a Run lies between that Run's single run_started and single run_ended |
| RunSpanRuns.AbortIsInTheSpan | gotato/sessionlifecycle.go:15-46 | An Abort that returned true for a Run whose run_ended is logged has its abort_requested strictly between run_started and run_ended |
| RunSpanRuns.NeedsJournalToStop | gotato/loop.go:54-57 | With a Journal that accepts after a refusal, an Event names a Run that never began |
| ToolIds.QualifyInjective | gotato/toolregistry.go:508-513 | A qualified ID names one ToolSet and one Tool of it |
| ToolIds.DottedNameCollides | gotato/toolregistry.go:98-101 | Two ToolSets would share an ID if a name could hold a dot |
| ToolCatalog.CatalogMeans | gotato/toolregistry.go:232-254 | The catalog is every Tool of every ToolSet, once each, in strict ID order |
| DeferredTools.RootsApart | gotato/toolregistry.go:485-506 | No root Tool and no search Tool has the ID of a catalog Tool |
| DeferredTools.NewDeferredLayout | model/deferred.go:58-102 | What is visible is sent plain, but deferred when it is loaded and the history refers to it; what is unloaded is sent deferred after it; nothing else is sent; and the search calls are those of the history that name the search Tool, on its own or in a namespace |
| DeferredTools.References | model/deferred.go:104-117 | A Tool Result refers to those of its loads that are sent deferred, in its order |
| DeferredTools.EntryWay | model/deferred.go:76-84 | A catalog Tool is sent plain when it is active, or loaded and not referred to, and deferred when it is not loaded, or loaded and referred to |
| DeferredTools.SameToolsIff | model/deferred.go:58-102 | Two requests send the same list, byte for byte in order, exactly when each Tool is sent the same way |
| DeferredTools.RequestOrder | model/deferred.go:58-102 | A request sends its plain Tools before its deferred ones, each in strict ID order, and each Tool the way it is sent |
| DeferredTools.LoadMovesNothing | model/deferred.go:11-29 | A load leaves the list of Tools as it was, the search Tool's description included, exactly when the history then refers to the Tool and to each loaded one as before |
| ToolRegistry.SessionTools.Install | gotato/toolregistry.go:232-254 | The catalog is exactly the Tools that the ToolSets answered with, under their namespaces, and an unavailable ToolSet has none |
| ToolRegistry.SessionTools.Apply | gotato/toolregistry.go:270-311 | The loops settle the loaded Tools, or the recorded list when there is one, against the answers, and report exactly the unavailable ToolSets and the IDs that are gone |
| ToolRegistry.RecordDecides | gotato/toolregistry.go:270-311 | With a recorded list, an ID is loaded exactly when it is on the list and its ToolSet answered with it, parked exactly when on it and the ToolSet is unavailable, and gone exactly when on it and the ToolSet answered without it |
| ToolRegistry.RecordDecidesForAll | gotato/toolregistry.go:274-280 | Two registries with the same ToolSets end equal on one recorded list, whatever each had loaded |
| ToolRegistry.SessionTools.Rebuild | gotato/toolregistry.go:379-436 | The visible list is what the root, the active ToolSets, the loaded Tools and the search Tool come to, in ID order |
| ToolRegistry.VisibleMeans | gotato/toolregistry.go:379-436 | The Model is shown exactly the root Tools, the Tools of active ToolSets, the loaded ones and, when a ToolSet is not active, the search Tool, less what is above the cap or filtered out, in strict ID order |
| ToolRegistry.ViewsMean | gotato/toolregistry.go:613-646 | The loaded view and the candidates are the loadable Tools of the catalog, by whether they are loaded |
| ToolRegistry.SessionTools.Load | gotato/toolregistry.go:591-609 | A Tool loads exactly when it is a catalog Tool of a ToolSet that is not active, below the cap, kept by the filter and not loaded; nothing else changes |
| ToolRegistry.SessionTools.CatalogView | gotato/toolregistry.go:613-646 | The loadable Tools of the catalog are split into loaded ones and those still to load |
| ToolRegistry.CatalogText | gotato/toolregistry.go:686-724 | The description lists each catalog ToolSet by its mode and whether it is unavailable |
| ToolRegistry.LinesMean | gotato/toolregistry.go:686-724 | There is one line for each ToolSet that is not active and is unavailable or has Tools to choose, in their order: that it is unavailable, how many Tools it has, or their IDs in order, loaded or not |
| ToolRegistry.CallableMeans | gotato/toolregistry.go:422-436 | A catalog Tool answers to its ID exactly when it is shown: no alias takes it |
| ToolRegistry.OneFate | gotato/toolregistry.go:281-300 | An ID of an installed ToolSet that is not active is known, parked or gone, exactly one of them |
| ToolRegistry.ApplyConserves | gotato/toolregistry.go:270-311 | With no recorded list, each loaded or parked ID goes to exactly one of loaded, parked and gone, by its ToolSet's answer, and nothing else does |
| ToolRegistry.OutageRestores | gotato/toolregistry.go:261-311 | After an outage and a recovery an ID is loaded exactly when it was loaded or parked, no answer that came was without it, and the recovery came |
| FunctionNames.NameTable.Assign | model/names.go:110-120 | An ID gets its own name when no other ID has it, else its hashed one when no other has that, and fails otherwise; no name moves |
| FunctionNames.NameTable.NameAll | model/names.go:75-103 | The two loops name all IDs of a request, plain IDs first, and fail as soon as one fails |
| FunctionNames.NamesAllowed | model/names.go:13-45 | Both names of any ID are 1 to 64 characters that providers accept |
| FunctionNames.NamesReadLikeIds | model/names.go:13-68 | A name keeps every character of its ID that providers accept in its place and has an underscore for each other one, up to the part of the hash that ends a long or hashed name |
| FunctionNames.PlainIsAllowed | model/names.go:48-52 | An ID claims itself exactly when providers accept it as it is |
| FunctionNames.AssignSound | model/names.go:110-120 | Naming one more ID takes no name from another |
| FunctionNames.RequestNames | model/names.go:70-120 | When naming succeeds, each ID has exactly one name, an allowed one that decodes to it; a plain ID keeps itself whatever the order; and naming it again gives the same name and changes nothing |
| FunctionNames.NamesDecode | model/chat.go:384-390 | Every name in the decoder's map is of an ID of the request |
| FunctionNames.FailsOnlyOnCollision | model/names.go:110-120 | Naming fails only when the hashed name of one ID is a name of another |
| FunctionNames.CollisionFails | model/names.go:110-120 | Two IDs that share both names, one of which is a plain ID, make it fail |
| Coalesce.CoalesceDeltas | gotato/coalesce.go:13-46 | The loop with its open block computes the recursive merge |
| Coalesce.MergeKeeps | gotato/coalesce.go:7-12 | The merge keeps the text of each kind and the ordered signatures, and leaves no two neighbours that are one block |
| Coalesce.TwoParts | gotato/coalesce.go:7-46 | Two neighbours become one block exactly when both are text or both reasoning, neither carries more than a delta does, and the first is not signed; the block has both texts and the second signature |
| Coalesce.MergeReads | gotato/coalesce.go:7-46 | Merged parts read exactly as the fragments do: the same letters, signatures and other parts in the same order |
| Coalesce.MergedStays | gotato/coalesce.go:13-46 | The merge leaves parts as they are exactly when no two neighbours are one block, so it is idempotent |
| Coalesce.MergeEarly | gotato/coalesce.go:13-46 | Merging a prefix early changes nothing |
| Reply.Reader.Apply | gotato/reply.go:130-190 | An event is added to the reply exactly when the reply stays within the limit with it and, for a call, it has an ID of its own and a Tool; a refused one leaves the reply as it was |
| Reply.TotalIs | gotato/reply.go:130-190 | What the limit bounds is the text, the reasoning, the artifacts and the calls of the reply, all together |
| Reply.Reader.Retried | gotato/reply.go:229-252 | A report that the request is sent again makes the parts and calls received void |
| Reply.Reader.AppendToolCall | gotato/reply.go:276-289 | A call is added exactly when it has an ID, a Tool, and no call before it has its ID |
| Reply.SignReasoning | gotato/reply.go:258-272 | The backward search signs the last reasoning part, or adds a part when that one is signed |
| Reply.SignKeeps | gotato/reply.go:254-272 | Signing loses no signature and no text, and adds its own at the end |
| Reply.SayKeeps | gotato/reply.go:130-188 | Over any stream of events the text, the reasoning, the non-empty artifacts and the calls of the reply are those streamed, in order |
| Reply.StoredReplyKeeps | gotato/reply.go:103-119 | The stored reply, with its fragments merged, keeps all of it |
| ModelStream.Stream.Recv | model/stream.go:49-79 | What was delivered of the response that is read, and what waits, is everything its reads came to, in order; with no Session the caller never receives events of two responses; with one, the reply plus the event is what that response delivered |
| ModelStream.Stream.TakeRead | model/stream.go:49-79 | Every read is decoded whole into the response it was made on, and only a mended cut starts a new one |
| ModelStream.Stream.Recover | model/restart.go:63-87 | A cut is mended exactly when the caller is there, the failure is a retryable interruption, restarts are left, nobody holds delivered output or a Session drops it, and a response opens |
| ModelStream.Stream.Reopen | model/stream.go:104-117 | A new response starts with nothing queued: what was decoded from the interrupted one is never delivered |
| ModelStream.ReadReply | gotato/reply.go:103-128 | However often the stream is cut and restarted, the reply is the merge of what the reads since the last mended cut came to, up to Done, and of nothing else: its text, reasoning, artifacts and calls, in order |
| Compaction.TurnCut | record/compact_cut.go:84-99 | The first index from the wanted one on that is no Tool result, found by the loop |
| Compaction.WithinBudget | record/compact_cut.go:38-52 | The lowest index from the floor on whose tail fits; a tail fits exactly when the budget is not negative |
| Compaction.RunStart | record/compact_cut.go:54-82 | The start of the longest block of the latest Run's Messages that ends at its last one, or else the last user Message |
| Compaction.LastTurnStart | record/compact_cut.go:10-36 | The Run's last reply, or without one its first Message, or without any the last Message that is no Tool result |
| Compaction.TailCut | record/compact_parts.go:43-56 | For every policy value a well-formed stretch is split into two well-formed halves; without KeepMessages the tail is the longest that fits the budget, from the latest Run's block or the last user Message on, and begins no Turn in its middle; with it, the tail is the wanted one less the results it would begin with |
| Compaction.BudgetIs | record/compact_parts.go:43-56 | The budget is what is set, or the default, and at most a quarter of the window, or of the ceiling when no window is known, and no less than that allows |
| Compaction.CutOf | record/compact.go:174-190 | An answer of a Cutter out of range is refused; another is brought to the first Turn boundary from it on, and in the middle of a Run to the latest Turn when that comes before |
| Compaction.CutSplitsIff | record/compact_cut.go:84-99 | A cut inside a well-formed stretch keeps every call with its results exactly when no Tool result follows it |
| Compaction.TurnBeginsAtResultIff | record/compact_cut.go:10-36 | The latest Turn begins at a Tool result exactly when the Run has Messages in the stretch, no reply among them, and the first is a result |
| Compaction.CutOfSplitsIff | record/compact.go:174-190 | Whatever a Cutter answers, the cut keeps every call with its results except exactly when, in the middle of a Run, it would come after a latest Turn that begins at a result |
| Compaction.CutOfKeepsPairs | record/compact.go:174-190 | Whatever a Cutter answers, the cut keeps every call of what Runs commit and rebuilds repair with its results |
| Compaction.TurnStartsClean | record/record_log.go:342-416 | The latest Turn never begins at a Tool result when each result is of its reply's Run or, as a repaired one, of none |
| Compaction.ForeignResultSplits | record/compact_cut.go:15-28 | A stretch whose only Message of the Run answers another Run's reply is split inside a pair |
| Compaction.OldestToHalf | record/compact_parts.go:63-83 | No Segment is merged when all fit; otherwise at least two, and no more than leave at most half the budget |
| SessionLocks.LockTable.TryEnter | host/locks.go:31-52 | A lock nobody holds or waits for is entered; another is refused without waiting, or its line has one more at the end; no other lock changes |
| SessionLocks.LockTable.Release | host/locks.go:81-96 | A held lock passes to the first in line, who leaves it, or leaves the map when nobody waits |
| SessionLocks.LockTable.GiveUp | host/locks.go:63-79 | A canceled waiter leaves the line of the lock it waited on, or hands on the lock it was given |
| SessionLocks.OneOwnerPerEntry | host/locks.go:31-96 | In every interleaving of arrivals, wakes, cancellations that race a hand-off and releases, an entry means exactly one owner, and no entry means no owner and no waiter |
| SessionLocks.ArrivalsAreServed | host/locks.go:31-52 | In every reachable state an arriving caller enters at once exactly when nobody owns the lock, and otherwise waits exactly when it may |
| SessionLocks.GrantsInArrivalOrder | host/locks.go:31-96 | Of two that waited on one Session, when the later has been handed the lock the earlier was handed it before, or has given up |

## Left out

- Label filters of a Feed that mixes Sessions (SubscribeLabelFilter): a Session's subscribers have none, and a catch-up read does not apply them.
- Subscription options that end or check a stream (SubscribeUntil, SubscribeVerify) and the waits between empty reads: they only end a stream early or delay it.
- A bound on a subscriber's queue: a tail read appends without one, so none holds.
- The limit of a control queue as an invariant: a lease that is put back is not checked against it.
- RunLoop.Run.ExecuteRun: takes the number of Turns as a parameter; the property holds after every Turn, so no bound is lost, but the model does not say that a Run ends.
- RunLoop.Run.ConsumeControl: which messages are taken is the subject of ControlQueue and Custody; here any list may have been taken.
- RunLoop.Run.PrepareTurn: a TurnPreparer is any rewrite to a well-formed Transcript; that a compaction is one rests on Compaction.CutOf for its cut, and the Segments it writes are not modelled.
- Appends to the Transcript that fail for other reasons than a limit: closing results would then be missing.
- Messages and results hold only their role, Run, call IDs, outcome and an abstract size; token estimates, JSON encoding and the hash are abstract.
- ToolBatch.GroupRun.Collect: a group whose Tools never report and whose Run is never canceled waits for ever; the model ends it as canceled.
- RunSpanRuns.AbortIsInTheSpan: says nothing of a Run whose run_ended could not be written.
- Usage and the model name across a retry, which a retry partly keeps: only parts and calls are claimed.
- EpochReads.FeedSet.ReleaseFeed: an Event published on a Feed that was closed after a publisher looked it up reaches nobody; the model lets the look-up and the publish be one step.
- RequeueRuns.RequeueKeepsOrder: a drain or a seal may drop requeued messages while others of them are on a lease; the order is claimed of those the Runs settle.
- Requeue.RequeueSplits: notices among the requeued messages go to their own queue; the prefix is claimed for lists without them.
- The names of Tool IDs that providers do not accept depend on the order of the IDs; only that each has one is claimed.
- DeferredTools.NewDeferredLayout: the wire forms of the request are not modelled; specs are an ID, a name and an abstract body.
- The search for Tools, JSON schemas, provider payloads, HTTP and SSE framing, timers: library behaviour, floating point or shallow.
- The store, its writers and its cache: an atomic log per Record with an epoch that never repeats.
- Panics of host callbacks: they are failures like any other.
