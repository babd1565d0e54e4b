# Event delivery: a verified model

The system keeps one bounded ring of events per event type and serves it three ways: clients poll it with a
cursor, stream it over server-sent events, or have it POSTed to a webhook. Its safety rests on arguments about
interleavings: that replay and live tail meet without a hole, that a stored watermark never runs ahead of what
was delivered, that a gap notice covers what was skipped, that a client which persists its cursor late enough
loses nothing. This project models those parts and proves the arguments for every run.

- **The log and the ring** (`Cursors`, `Json`, `Log`, `Buffer`). An event type is an unbounded log; a `Ring` is that
  log and how much of it was evicted. `EventBuffer` is the class with the deque, and each method is tied to the ring.
  What a read may report is the predicate `Reads`, and it determines the reply.
- **Reading** (`Reading`, `Dedup`, `PollClient`). Truncation, pagination and whole polling runs; the LRU set; the
  polling client on top of both.
- **Streaming** (`Stream`, `Agent`). One session as a class whose ghost history says what each frame stands for, with
  a trace of every read it made, so that its losses are those reads' and no others; and the agent that consumes sessions,
  crashes, retries and skips, with a record of its sessions, attempts, saves and crashes.
- **Webhooks** (`Store`, `Pipeline`, `Delivery`, `Worker`). The subscription store and its operation histories; the delivery
  pipeline of one subscription as a state with an invariant and one lemma per step; the worker, whose fan-out and
  delivery task take those steps between arbitrary steps of everybody else.
- **Text** (`Canon`, `JsonReader`, `CanonRead`, `Utf8`, `Sse`, `ClientSse`, `FeedSse`, `SseFrames`). Canonical JSON, with
  a reader of JSON text that knows nothing of the writer; the two incremental event parsers, and what they make of frames.
- **The feed** (`Feed`, `Mapping`). Payload diffs, the mock scenario, and the two ways of modelling changes as events.

Conventions. Every section that holds a lock is one step; between two such sections the methods call `Interfere` or
`Others`, which do anything the rest of the system can do. Choices the environment makes (a POST's outcome, a
handler's outcome, whether a save worked, where a lagging receiver lands, the time) are nondeterministic or, where a
contract counts turns, given as sequences (`arms`, `fates`) about which nothing is assumed. `budget` and `rounds`, like
the lengths of those sequences, only say where the observation ends; they are arbitrary, so every prefix of every run
is covered. A class gathers its fields into a datatype (`State`, `Accounts`), the invariant is a predicate on that
datatype and the ring, and each step is a lemma about it.

Where the code does not do what its comments claim, the model follows the code:

- The replay loop of a stream ignores the `truncated` flag of its reads, so an eviction during replay loses events
  without telling the client (`Stream.ReplayLosesSilently`). `Stream.ReadLosesIff` says exactly which reads do that,
  and the results about streams and about the agent carry these losses, event by event, as what recorded replay reads
  passed over.
- The watermark is not always safe when a record is created anew while the delivery task of an earlier record still
  runs, as after unsubscribing and subscribing again: that task neither backfills again nor gets what the fan-out passed
  by while there was no record. `Pipeline.CreateOverIff` gives, for every state with a running task, the exact condition
  under which the invariant survives; `Pipeline.ReuseIsSafeIff` shows that for a task that has drained its queue this
  condition is also exact for the promise itself. `Pipeline.GoodAfterCreateOver` puts it in terms a caller can check:
  the task has not begun, or the new record starts at the head, or it does not start before the old one and no item was
  passed by while the task drained. `Pipeline.ReuseLosesEarlier` and `Pipeline.ReuseLosesPassedBy` are runs of the two
  kinds that lose an event.
- The quota is not always kept. An upsert reads the clock before it takes the lock, so racing upserts can work with
  readings out of order: `Store.RaceBreaksQuota` is such a run, under a clock that never goes back. `Store.QuotaHoldsIff`
  says exactly when a run keeps the quota, and `Store.QuotaHolds` that it does when the readings come in lock order.
- The two event parsers differ on a CR that no LF follows (`FeedSse.LoneCrDiffers`).

## Model

| member | source | states |
|---|---|---|
| Cursors.CursorRoundTrip | crates/mcp-events-engine/src/buffer.rs:101-104 | A cursor built from an epoch and a position parses back to both, and its position alone parses back too, over the whole 64-bit range. |
| Cursors.RenderedValue | crates/mcp-events-engine/src/buffer.rs:129-131 | A decimal rendering denotes the number it was made from. |
| Cursors.NoLeadingZero | crates/mcp-events-engine/src/buffer.rs:129-131 | A rendering has no leading zero and starts with the most significant digit. |
| Cursors.ParsesIff | crates/mcp-events-engine/src/buffer.rs:101-104 | A string is read as an epoch and a position exactly when these are two 64-bit numbers, each with an optional plus sign, around its first colon. |
| Buffer.FloorKeepsWindow | crates/mcp-events-engine/src/buffer.rs:106-112 | However large the requested age, the floor clamps: it is never after now and never cuts off an event inside the window. |
| Buffer.CutOffIsOlder | crates/mcp-events-engine/src/buffer.rs:106-112 | An event is cut off by the floor exactly when it is older than the requested age. |
| Buffer.RetentionIs | crates/mcp-events-engine/src/buffer.rs:133-145 | After a prune no more than the capacity is held and the oldest event held is within the maximum age. |
| Buffer.EvictedRightly | crates/mcp-events-engine/src/buffer.rs:133-145 | Every event a prune evicts was over the capacity or older than the maximum age. |
| Buffer.PruneTo | crates/mcp-events-engine/src/buffer.rs:133-145 | Eviction removes the least number of events that meets the capacity and leaves a front that is not expired. |
| Buffer.PruneUnique | crates/mcp-events-engine/src/buffer.rs:133-145 | That number is unique: any prefix with these two properties is what pruning removes. |
| Buffer.EventBuffer.Prune | crates/mcp-events-engine/src/buffer.rs:133-145 | The two loops over the deque keep it a contiguous suffix of the log and evict exactly what pruning should. |
| Buffer.EventBuffer.DropExpired | crates/mcp-events-engine/src/buffer.rs:137-144 | Only expired events are popped, from the front, until the front is not expired. |
| Buffer.EventBuffer.Emit | crates/mcp-events-engine/src/buffer.rs:149-175 | The event becomes the next of its type's log, the ring is pruned, and no other type changes. |
| Buffer.EventBuffer.ResolveStart | crates/mcp-events-engine/src/buffer.rs:205-233 | Stale, foreign, future and unparseable cursors resolve to the documented positions with the documented truncation flag. |
| Buffer.EventBuffer.Scan | crates/mcp-events-engine/src/buffer.rs:235-269 | The scan returns the filtered events after the start in order up to the cap; the position, `truncated` and `has_more` say exactly what was skipped and what is next. |
| Buffer.EventBuffer.Read | crates/mcp-events-engine/src/buffer.rs:178-277 | A read prunes, then reports what the cursor lifecycle allows for the pruned ring, rendered without loss. |
| Buffer.EventBuffer.PruneType | crates/mcp-events-engine/src/buffer.rs:188-192 | Reading creates the type if need be and prunes it; other types keep their rings. |
| Buffer.EventBuffer.Live | crates/mcp-events-engine/src/buffer.rs:281-288 | A live receiver starts at the current head and subscribing changes no ring. |
| Buffer.EventBuffer.Recv | crates/mcp-events-engine/src/buffer.rs:163-173 | A receiver yields the next event of the log, carrying its own cursor. |
| Buffer.EventBuffer.CurrentCursor | crates/mcp-events-engine/src/buffer.rs:292-296 | The current cursor is the head's, position 0 for an unknown type. |
| Buffer.EventBuffer.Interfere | crates/mcp-events-engine/src/buffer.rs:149-288 | Any sequence of emits and reads by anyone only appends to logs and evicts from rings. |
| Buffer.EmittedIsRead | crates/mcp-events-engine/src/buffer.rs:149-271 | What is emitted is what the next read and the live channel give, field by field, unless retention evicted it first, and then the read is flagged. |
| Log.SelectMembers | crates/mcp-events-engine/src/buffer.rs:240-269 | The selection of a read is exactly the wanted events of the span, strictly increasing. |
| Log.SelectStable | crates/mcp-events-engine/src/buffer.rs:240-269 | What a span selects does not change when more is emitted or evicted. |
| Reading.OutcomeUnique | crates/mcp-events-engine/src/buffer.rs:178-277 | Ring, request and epoch determine the reply: events, position and both flags. |
| Reading.ForeignCursor | crates/mcp-events-engine/src/buffer.rs:226-231 | A cursor that does not parse, or of another epoch, is answered from the oldest retained event on, flagged, with nothing retained and wanted left out. |
| Reading.FutureCursor | crates/mcp-events-engine/src/buffer.rs:220-225 | An own cursor past the head is flagged, gets nothing and is set back to the head. |
| Reading.OwnCursor | crates/mcp-events-engine/src/buffer.rs:205-219 | An own cursor gets exactly the wanted events after it that are still retained, up to the returned position. |
| Reading.NoCursor | crates/mcp-events-engine/src/buffer.rs:192-201 | Without a cursor nothing is read and the reply is the head. |
| Reading.TruncatedIff | crates/mcp-events-engine/src/buffer.rs:205-258 | For an own-epoch cursor not past the head, `truncated` holds exactly when an event after it was evicted or one up to the returned position was cut off by the age floor. |
| Reading.UntruncatedIsExact | crates/mcp-events-engine/src/buffer.rs:205-277 | A reply that is not flagged is exactly the filtered log from the cursor to the returned position. |
| Reading.RereadIsClean | crates/mcp-events-engine/src/buffer.rs:223-233 | Whatever the original cursor string was, reading again from the returned cursor is not truncated. |
| Reading.PagesSoFar | crates/mcp-events-engine/src/buffer.rs:254-268 | After any number of pages with cap k their concatenation is the filtered log up to the last page's position, and all but the last page are full. |
| Reading.Pagination | crates/mcp-events-engine/src/buffer.rs:205-277 | Draining with cap k stops after max(1, ceil(matches / k)) pages, which concatenate to the uncapped read; a page says there is more exactly when matches remain. |
| Reading.WholeRunPolling | crates/mcp-events-engine/src/buffer.rs:178-277 | A client that feeds back each cursor, with any caps and anything happening in between, receives exactly the filtered log between its first and latest cursor, each event once, while no reply is flagged. |
| Dedup.RecencyMembers | crates/mcp-events-client/src/dedup.rs:24-41 | The recency list of a history holds exactly the keys used, each once. |
| Dedup.RecencyOrder | crates/mcp-events-client/src/dedup.rs:24-41 | The recency list is in order of last use. |
| Dedup.WindowHit | crates/mcp-events-client/src/dedup.rs:25-32 | After a hit the `cap` most recent keys are the old ones with the key moved to the end. |
| Dedup.WindowMiss | crates/mcp-events-client/src/dedup.rs:33-41 | After a miss they are the old ones with the key added, less the oldest when full. |
| Dedup.LruSet.constructor | crates/mcp-events-client/src/dedup.rs:13-19 | An empty set with a capacity of at least one. |
| Dedup.LruSet.CheckAndInsert | crates/mcp-events-client/src/dedup.rs:24-41 | After any access history set and queue hold exactly the `cap` most recently used keys in order; the call returns true exactly when its key was among them. |
| Dedup.LruSet.Len | crates/mcp-events-client/src/dedup.rs:43-45 | The reported size is the number of recent keys, at most the capacity. |
| PollClient.PrintBatch | crates/mcp-events-client/src/bin/events-harness.rs:367-373 | A batch prints, in order, exactly the ids that are not among the most recently seen ones when their turn comes; every id seen was printed. |
| PollClient.UnsuppressedIsFair | crates/mcp-events-client/src/bin/events-harness.rs:367-373 | Suppressing what is among the most recent ids loses no id and suppresses none that is new. |
| PollClient.FollowingAfterPoll | crates/mcp-events-client/src/bin/events-harness.rs:342-375 | One poll keeps the client's promise: while no reply was flagged, what it received is the filtered log from its origin to its cursor, and with distinct ids that is what it printed. |
| PollClient.Poller.PollOnce | crates/mcp-events-client/src/bin/events-harness.rs:341-375 | One poll extends the run of polls by one whose reply is a read of the present ring from the client's cursor with the requested age and cap, prints what is not among the 4096 latest ids, keeps the client's promise under any interference, and is at the head when there is no more. |
| PollClient.Poller.CmdPoll | crates/mcp-events-client/src/bin/events-harness.rs:324-385 | Every run of the loop keeps the promise and only extends the run of polls; without `follow` it ends with the first reply that has no more, at the head, and never before. |
| PollClient.LongerRun | crates/mcp-events-client/src/bin/events-harness.rs:342-374 | Feeding back the returned cursor makes the polls one run in the sense of whole-run polling. |
| PollClient.PrintedExactly | crates/mcp-events-client/src/bin/events-harness.rs:324-385 | With distinct ids and no truncated reply, the client printed exactly the filtered log between its first and its latest cursor. |
| Stream.SendOne | crates/mcp-events-server/src/handlers/stream.rs:117-136 | Sending one event and passing over the rest of a read's span keeps the session invariant. |
| Stream.PassOver | crates/mcp-events-server/src/handlers/stream.rs:128-130 | Moving over a span without a frame keeps it, the passed-over events being accounted for. |
| Stream.SentExactly | crates/mcp-events-server/src/handlers/stream.rs:86-231 | On every session, with no hypothesis, sent positions strictly increase and are exactly the matching events since the start less those passed over. |
| Stream.StitchingExact | crates/mcp-events-server/src/handlers/stream.rs:90-171 | When nothing was passed over, the event frames are exactly the filtered log from the probe position to the cursor, once each and in order. |
| Stream.SingleRead | crates/mcp-events-server/src/handlers/stream.rs:117-130 | A one-event read passes over a matching event only if it was evicted or cut off by the floor, never when it is not truncated, and finds nothing more only at the head. |
| Stream.ReachesIff | crates/mcp-events-engine/src/buffer.rs:235-269 | A one-event read gets past an event below the floor exactly when fewer than two wanted events come before it. |
| Stream.ReadLosesIff | crates/mcp-events-server/src/handlers/stream.rs:117-136 | A one-event read passes over a matching event exactly when one after the cursor was already evicted, or one lies below the floor before two wanted events; the condition is about ring and request alone. |
| Stream.ReplayLosesSilently | crates/mcp-events-server/src/handlers/stream.rs:117-136 | A run in which an event evicted during replay is lost without any frame announcing it. |
| Stream.ProbeSkipsNothing | crates/mcp-events-server/src/handlers/stream.rs:94-109 | The opening probe moves over non-matching events only, unless it is flagged. |
| Stream.EventStream.constructor | crates/mcp-events-server/src/handlers/stream.rs:86-116 | Subscribed before the probe, with others running in between, a session opens with one `active` frame where the recorded probe ended. |
| Stream.EventStream.Probe | crates/mcp-events-server/src/handlers/stream.rs:90-103 | The receiver starts at the head from before the probe, and the probe is a read of the present ring with the requested cursor and age that counts no event. |
| Stream.EventStream.ReadOne | crates/mcp-events-server/src/handlers/stream.rs:184-202 | One turn of the replay or re-sync loop is one read of the present ring from the session's position; it sends what was picked, books exactly what the read passed over, and records the read under the frame that opened the loop. |
| Stream.EventStream.Replay | crates/mcp-events-server/src/handlers/stream.rs:114-137 | The replay loop ends only at the head, where the tail's position and the cursor agree, and until then makes one read a turn; it announces no loss, and with nothing pending it reads and sends nothing. |
| Stream.EventStream.Resync | crates/mcp-events-server/src/handlers/stream.rs:182-202 | The re-sync loop ends only at the head; all its reads are recorded under the frame that announced the truncation, and nothing is lost silently. |
| Stream.EventStream.OnLive | crates/mcp-events-server/src/handlers/stream.rs:151-171 | Overlap is dropped by position, anything newer is sent exactly when it matches, nothing is passed over, and `last_seq` stays the cursor's position. |
| Stream.EventStream.OnLag | crates/mcp-events-server/src/handlers/stream.rs:172-204 | A lag is announced at the current cursor before anything is read or skipped, what is lost belongs to that announcement, and the tail resumes consistent. |
| Stream.EventStream.OnHeartbeat | crates/mcp-events-server/src/handlers/stream.rs:209-217 | A heartbeat carries the current position, which never runs ahead of what was sent. |
| Stream.EventStream.OnClosed | crates/mcp-events-server/src/handlers/stream.rs:222-229 | The closing frame ends a session that is still consistent. |
| Stream.EventStream.Turn | crates/mcp-events-server/src/handlers/stream.rs:148-218 | One turn of the tail: an event that is there is received, a heartbeat is sent, a closed channel ends the session, a lag is announced and re-synced. |
| Stream.EventStream.Tail | crates/mcp-events-server/src/handlers/stream.rs:144-230 | Every tail iteration starts with `last_seq` equal to the cursor's position, whatever interleaves; without a lag everything that arrived is received; the only reads are those of re-syncs announced in the tail, and nothing is lost silently. |
| Stream.LossesAre | crates/mcp-events-server/src/handlers/stream.rs:114-204 | What a session lost, exactly: silently, what its recorded replay reads passed over, evicted or below the age floor at the read; with an announcement, what its recorded re-sync reads passed over, above the position of the truncation frame that opened the re-sync and evicted by the time of the read. |
| Stream.TracedReads | crates/mcp-events-server/src/handlers/stream.rs:114-136 | One more read, made where its loop had to go on, keeps this account: a loop starts at the position its opening frame announced and goes on only while the last read said there is more. |
| Stream.NothingLost | crates/mcp-events-server/src/handlers/stream.rs:114-204 | Where no replay read was truncated nothing was lost silently, and without a truncation announced after the opening no re-sync lost anything. |
| Stream.OpeningResumes | crates/mcp-events-server/src/handlers/stream.rs:94-109 | The opening probe ends at the head when no cursor was given, never past it, and resumes from an own cursor without passing a matching event, unless flagged. |
| Stream.OpeningFlaggedIff | crates/mcp-events-server/src/handlers/stream.rs:94-109 | From an own cursor the opening is flagged exactly when an event after it was evicted, or one older than the requested age comes before everything the session is after. |
| Stream.ReplayedInWindow | crates/mcp-events-server/src/handlers/stream.rs:114-136 | Every event that a replay read picked matched and lay within the requested age at that read. |
| Stream.SentBetweenLosses | crates/mcp-events-server/src/handlers/stream.rs:86-231 | The sent positions are the matching events since the start, in order, less those the recorded reads lost. |
| Stream.EventStream.Run | crates/mcp-events-server/src/handlers/stream.rs:86-231 | Over whole sessions sent positions strictly increase and are exactly the matching events since the start less what the recorded replay and re-sync reads passed over; with no truncated replay read and no later announcement they are the filtered log. |
| Agent.ConsumeKeeps | crates/mcp-events-agent/src/main.rs:404-480 | Moving past a frame settles every matching event up to it: the event it carries, or losses of the session's. |
| Agent.LossWasTold | crates/mcp-events-agent/src/main.rs:404-414 | A loss that a re-sync announced, at or before a consumed frame's position, was announced by a truncation frame consumed by then. |
| Agent.LossesWereEvicted | crates/mcp-events-agent/src/main.rs:366-373 | Whatever the agent was told to be lost, and whatever it lost in a replay loop, had been evicted: its requests set no age limit. |
| Agent.OpeningKeeps | crates/mcp-events-agent/src/main.rs:405-414 | A reconnect from an own cursor leaves no event between it and the session's start unsettled; a flagged start counts as announced. |
| Agent.FailuresAreOfEvent | crates/mcp-events-agent/src/main.rs:429-441 | With distinct ids, failures counted by event id are failures of that one event. |
| Agent.SoundAfterCrash | crates/mcp-events-agent/src/main.rs:352-357 | Losing everything but the state file keeps the books sound. |
| Agent.SoundAfterHandling | crates/mcp-events-agent/src/main.rs:415-463 | A success, a counted failure or a final skip keeps the books sound, and the cursor may move on exactly when the event is settled. |
| Agent.Agent.Persist | crates/mcp-events-agent/src/main.rs:487-494 | The cursor is taken over whether or not it could be saved; the file changes only if it was. |
| Agent.CountIsTrailing | crates/mcp-events-agent/src/main.rs:424-463 | Over any run of successes, failures and crashes the failure count is the number of failures at one id at its end, every third of which starts afresh. |
| Agent.ThirdFailureSkips | crates/mcp-events-agent/src/main.rs:424-463 | So the cursor moves past an event exactly on success or at the third failure in a row, and then the event counts as skipped. |
| Agent.Agent.HandleEvent | crates/mcp-events-agent/src/main.rs:417-463 | Success clears the failure count; the same event failing three times is skipped, an earlier failure is retried without moving the cursor. |
| Agent.Agent.MovePast | crates/mcp-events-agent/src/main.rs:404-480 | Taking over the cursor of a frame whose event is settled keeps the books sound, whether or not it could be saved. |
| Agent.Agent.ConsumeFrames | crates/mcp-events-agent/src/main.rs:389-480 | Consuming a session's frames keeps the agent's promise and where it starts; it stops only where the frames end, at the closing frame, or at an event whose handler has just failed and is to be retried. |
| Agent.StartIsPlaced | crates/mcp-events-agent/src/main.rs:366-373 | A session opened at the head if it was asked for without a cursor, never past it, and from an own position without skipping a matching event, unless flagged. |
| Agent.Agent.Connect | crates/mcp-events-agent/src/main.rs:363-481 | One connection, cut anywhere, asks from the agent's cursor, adds one session to the record and is progress: a saved position stays one, and the promise goes on from its start or, if the agent held no position, starts where this session opened. |
| Agent.Agent.Turn | crates/mcp-events-agent/src/main.rs:363-484 | One turn of the loop, or a crash and a restart, is progress, and adds exactly the session it opened. |
| Agent.ProgressTransitive | crates/mcp-events-agent/src/main.rs:358-485 | Progress composes over any number of turns: the promise starts anew only in a session that opened from the first state file, when every position held before was lost in a crash and none had been saved. |
| Agent.Agent.RunAgent | crates/mcp-events-agent/src/main.rs:358-485 | End to end, across crashes, reconnects, lag and failures: every matching event past the start and up to the persisted cursor was handled with success, failed at least three times, or had been evicted, and was then announced by a truncation frame the agent consumed or fell to a recorded replay read. The start is the position the agent began with or, without one, the opening of a recorded session, one for each stream that opened. |
| Agent.PromiseMeans | crates/mcp-events-agent/src/main.rs:358-494 | What that promise says event by event, failures being those of the event itself when ids are distinct. |
| Pipeline.PacedMore | crates/mcp-events-server/src/webhook/worker.rs:430-441 | A POST started while active and below the threshold keeps every streak of failures within the threshold. |
| Pipeline.GoodStable | crates/mcp-events-server/src/webhook/worker.rs:219-355 | The pipeline invariant survives any emits, evictions and reads. |
| Pipeline.GoodAfterRefresh | crates/mcp-events-engine/src/store.rs:178-195 | A live refresh keeps the invariant; it resets the streak and not the watermark. |
| Pipeline.GoodAfterCreate | crates/mcp-events-engine/src/store.rs:197-222 | A fresh record keeps it when no delivery task is left from an earlier one, and closes the books of earlier records. |
| Pipeline.CreateOverIff | crates/mcp-events-engine/src/store.rs:197-222 | Created over any running task, a record keeps the invariant exactly when what the task is past, from the new start on, was settled, and what it will still be given leaves no matching event after the new start out. |
| Pipeline.GoodAfterCreateOver | crates/mcp-events-engine/src/store.rs:197-222 | So it does if the task has not begun, or the record starts at the head, or not before the old one with nothing passed by while the task drained. |
| Pipeline.GoodAfterReplace | crates/mcp-events-engine/src/store.rs:197-222 | In particular when a lapsed record is replaced in place and does not start before the old one. |
| Pipeline.GoodAfterSpawn | crates/mcp-events-server/src/webhook/worker.rs:114-130 | A new task keeps it, whatever the fan-out already passed by. |
| Pipeline.GoodAfterReceive | crates/mcp-events-server/src/webhook/worker.rs:149-153 | Receiving the next live event keeps it. |
| Pipeline.GoodAfterLagCursor | crates/mcp-events-server/src/webhook/worker.rs:154-159 | A lag becomes a gap that covers everything up to the head. |
| Pipeline.GoodAfterList | crates/mcp-events-server/src/webhook/worker.rs:162-172 | Passing by an unverified subscription, or owing a suspended one a gap, loses nothing; passing by for want of a record is remembered. |
| Pipeline.GoodAfterOwedCursor | crates/mcp-events-server/src/webhook/worker.rs:174-179 | The owed gap, taken at the current head, covers the skipped span and the item it replaces. |
| Pipeline.GoodAfterSend | crates/mcp-events-server/src/webhook/worker.rs:194-202 | An accepted item continues the queue without a hole. |
| Pipeline.GoodAfterFail | crates/mcp-events-server/src/webhook/worker.rs:203-206 | A full queue leaves a gap owed, and nothing unaccounted for. |
| Pipeline.NextEventQueued | crates/mcp-events-server/src/webhook/worker.rs:155-201 | An idle fan-out that owes nothing queues exactly the next event for a verified, active subscription, after it received the event, listed the subscription, made sure of the task and sent; a missing task is started for it. |
| Pipeline.OwedGapQueued | crates/mcp-events-server/src/webhook/worker.rs:178-191 | An owed gap is queued in place of the event, with the head it found, and the debt is paid. |
| Pipeline.LagQueuesGap | crates/mcp-events-server/src/webhook/worker.rs:161-166 | A lag queues a gap with the head in place of all that was missed. |
| Pipeline.NotQueued | crates/mcp-events-server/src/webhook/worker.rs:167-196 | An unverified or absent subscription is passed by, a suspended one and one whose queue holds 1024 items are owed a gap. |
| Pipeline.ReopenedQueued | crates/mcp-events-server/src/webhook/worker.rs:200-217 | A send that finds the task gone starts a new one whose queue gets the item. |
| Pipeline.GoodAfterEvent | crates/mcp-events-server/src/webhook/worker.rs:276-287 | Settling the one matching event of a span lets the task's position move over it. |
| Pipeline.GoodAfterGap | crates/mcp-events-server/src/webhook/worker.rs:251-275 | A delivered gap envelope settles everything between the old position and its cursor. |
| Pipeline.GoodAfterMark | crates/mcp-events-engine/src/store.rs:340-344 | Storing the task's position as the watermark is safe. |
| Pipeline.GoodAfterItem | crates/mcp-events-server/src/webhook/worker.rs:306-309 | An item already covered can be dropped. |
| Pipeline.GoodAfterPost | crates/mcp-events-engine/src/store.rs:270-309 | Recording a POST's outcome keeps the invariant and suspends exactly at the threshold. |
| Pipeline.GoodAfterBackfill | crates/mcp-events-server/src/webhook/worker.rs:288-300 | A backfill that ends at the head is past everything the fan-out can have queued, dropped or passed by. |
| Pipeline.GoodAfterTaking | crates/mcp-events-server/src/webhook/worker.rs:300-309 | While there is a record, the next item off the queue leaves no matching event out that the promise is about. |
| Pipeline.ItemFollows | crates/mcp-events-server/src/webhook/worker.rs:305-353 | That stays so while the item is delivered, whatever record replaces the present one. |
| Pipeline.WatermarkIsSafe | crates/mcp-events-server/src/webhook/worker.rs:219-355 | In every state with the invariant, every matching event above the seed and at or below the stored cursor is settled or lies under a settled gap; no POST started while suspended. |
| Pipeline.BackedGrows | crates/mcp-events-server/src/webhook/worker.rs:430-447 | What earlier POSTs of the same era amount to is never undone by later ones, emits or evictions. |
| Pipeline.WatermarkIsDelivered | crates/mcp-events-server/src/webhook/worker.rs:219-451 | In terms of the history alone, from where the latest record's promise starts: since the books were opened, every matching event up to the stored cursor, or a gap envelope over a span around it, got a success, a failure that is not to be retried, or a failure of the first attempt and all three retries. |
| Pipeline.ReuseIsSafeIff | crates/mcp-events-server/src/webhook/worker.rs:103-112 | For a task that has drained its queue, wherever the fan-out and the head are: once the next event was delivered, the watermark is safe exactly when re-creating the record kept the invariant. |
| Pipeline.ReuseLosesEarlier | crates/mcp-events-server/src/webhook/worker.rs:103-112 | A run in which the new record starts before the old one and the watermark passes an event that was never delivered. |
| Pipeline.ReuseLosesPassedBy | crates/mcp-events-server/src/webhook/worker.rs:103-112 | A run in which an event comes while there is no record, and the watermark of the next record, which starts where the old one stood, passes it. |
| Worker.Worker.constructor | crates/mcp-events-server/src/webhook/worker.rs:143-148 | Without a subscription and with the receiver at the head, the invariant holds. |
| Worker.Worker.ProbeStart | crates/mcp-events-server/src/webhook/handlers.rs:71-83 | The first half of the handler: the probe that fixes the start is a read of the present ring, kept until the record is created, and changes nothing else. |
| Worker.Worker.Subscribe | crates/mcp-events-server/src/webhook/handlers.rs:92-101 | The second half, after anything else has run: the record is created and the invariant kept; the stored cursor is the probed start, and the promise starts there. |
| Worker.Worker.Create | crates/mcp-events-engine/src/store.rs:197-222 | The record is created fresh or over a running task, and the history says where its promise starts. |
| Worker.Worker.TrySend | crates/mcp-events-server/src/webhook/worker.rs:200-217 | A send appends the item to a queue with room and pays the debt; a full queue is left alone and a gap is owed. |
| Worker.Worker.FanStep | crates/mcp-events-server/src/webhook/worker.rs:144-217 | Every locked section of the fan-out is the step that the laws about queueing are stated of, and keeps the invariant and the task's reliance. |
| Worker.Worker.Others | crates/mcp-events-server/src/webhook/worker.rs:68-216 | Any number of steps of all the others does. |
| Worker.Worker.AwaitActive | crates/mcp-events-server/src/webhook/worker.rs:423-429 | A POST may start on an active record; the answer that there is none means that the record is gone, and waiting goes on only while it is suspended. |
| Worker.Worker.Attempt | crates/mcp-events-server/src/webhook/worker.rs:420-449 | One attempt makes exactly one POST of this message, or none when it stops before, records its outcome, and leaves the task's progress alone. |
| Worker.Worker.MarkPost | crates/mcp-events-server/src/webhook/worker.rs:431-441 | The outcome enters the history with the message it was for, and the record is updated by it. |
| Worker.Worker.PostUnderWay | crates/mcp-events-server/src/webhook/worker.rs:423-430 | While a POST of an active record is under way, nobody else suspends the record. |
| Worker.LastAttempt | crates/mcp-events-server/src/webhook/worker.rs:430-449 | The attempt after which a message is given up is one that settles it. |
| Delivery.DeliveredInOrder | crates/mcp-events-server/src/webhook/worker.rs:410-451 | The POSTs of one delivery are in order. |
| Delivery.OrderlyThen | crates/mcp-events-server/src/webhook/worker.rs:219-355 | What is in order up to a position, followed by what is in order beyond it, is in order. |
| Delivery.RepeatsAreRetries | crates/mcp-events-server/src/webhook/worker.rs:420-449 | In a task's POSTs a position comes twice only in the retries of one message, fewer than four apart, after failures that were to be retried; so nothing is sent again after it was acked or given up, backfill and queue together. |
| Worker.Worker.Deliver | crates/mcp-events-server/src/webhook/worker.rs:410-451 | The POSTs made are of this message, at most four, none while suspended, each but the last a failure that is to be retried; done means acked or abandoned, and stopping early means that the record is gone. |
| Worker.Worker.BackfillGap | crates/mcp-events-server/src/webhook/worker.rs:251-275 | A truncated backfill read is turned into a delivered gap envelope over the span, and position and stored watermark move to its cursor. |
| Worker.Worker.Backfill | crates/mcp-events-server/src/webhook/worker.rs:240-298 | Backfill ends at the head, where the queue takes over, or when the record is gone; until then each turn moves the task's position on. |
| Worker.Worker.HandleItem | crates/mcp-events-server/src/webhook/worker.rs:305-353 | A queued event or gap beyond the settled position is delivered; then the position is its own, and so is the stored watermark if there is a record. |
| Worker.Worker.HandleEvent | crates/mcp-events-server/src/webhook/worker.rs:306-331 | The next queued event is delivered, or filtered out without a POST, before position and stored watermark move to it; what is POSTed is in order and beyond the position. |
| Worker.Worker.PassEvent | crates/mcp-events-server/src/webhook/worker.rs:329-330 | An event that was delivered or filtered out is settled, and position and stored watermark move to it. |
| Worker.Worker.HandleGap | crates/mcp-events-server/src/webhook/worker.rs:332-352 | A queued gap is delivered before position and stored watermark move over what it covers. |
| Worker.Worker.DrainOne | crates/mcp-events-server/src/webhook/worker.rs:301-353 | One turn takes the first item off the queue and gets past it, or ends because the record is gone or the sender was dropped with the queue empty. |
| Worker.Worker.Drain | crates/mcp-events-server/src/webhook/worker.rs:300-354 | The queue loop gets past the items in order, one a turn, and ends only for those reasons. |
| Worker.Worker.Start | crates/mcp-events-server/src/webhook/worker.rs:233-238 | The task starts from the stored cursor, or from the head without one, and then that is where the promise starts. |
| Worker.Worker.RunDelivery | crates/mcp-events-server/src/webhook/worker.rs:219-355 | A whole task, cut anywhere, keeps the invariant, and its POSTs are in order: of matching events and gaps, by position, none repeated once it was acked or given up. It ends only when the record is gone or its sender was dropped, and until then gets through its backlog, first in the buffer and then in the queue. |
| Worker.Worker.RunWorker | crates/mcp-events-server/src/webhook/worker.rs:68-355 | Over every run in which a record is created over a running task only where that is harmless: every matching event from where the latest record's promise starts up to the stored watermark was acked, abandoned, or lies under a gap envelope that was, judged by the POSTs since the books were opened; no POST starts while suspended, and no streak of failures since a success or reset exceeds a positive threshold. |
| Store.SubscriptionStore.Upsert | crates/mcp-events-engine/src/store.rs:158-222 | A live key is refreshed without moving its cursor and reports its earlier `active`; any other is created with the supplied cursor if the quota has room, and refused without a change otherwise. |
| Store.RefusedIff | crates/mcp-events-engine/src/store.rs:197-206 | An upsert is refused exactly when its key has no live record and the principal has its maximum of other live ones. |
| Store.UpsertFields | crates/mcp-events-engine/src/store.rs:177-222 | Field by field: a refresh adopts params, secret and lifetime, wakes the record and keeps the rest; a fresh record has only what it was created with; other keys keep theirs. |
| Store.SubscriptionStore.InUse | crates/mcp-events-engine/src/store.rs:197-202 | The count is the number of the principal's other live subscriptions. |
| Store.SubscriptionStore.Remove | crates/mcp-events-engine/src/store.rs:224-229 | The record and its streak go, and the record is returned. |
| Store.SubscriptionStore.ListForEvent | crates/mcp-events-engine/src/store.rs:238-245 | Exactly the records of that event name are listed, each once, suspended ones included. |
| Store.SubscriptionStore.ExpireLapsed | crates/mcp-events-engine/src/store.rs:249-266 | Exactly the lapsed records are removed and returned, each once. |
| Store.SubscriptionStore.MarkDeliveryOk | crates/mcp-events-engine/src/store.rs:270-277 | A success clears the streak, the last error and the start of failing. |
| Store.SubscriptionStore.MarkDeliveryFailed | crates/mcp-events-engine/src/store.rs:283-309 | A failure counts, keeps the first failure's time, and suspends at a positive threshold. |
| Store.SubscriptionStore.SetVerified | crates/mcp-events-engine/src/store.rs:313-321 | The endpoint is cached and exactly its records are flagged. |
| Store.SubscriptionStore.Reactivate | crates/mcp-events-engine/src/store.rs:331-337 | Delivery resumes and the streak is reset. |
| Store.SubscriptionStore.UpdateCursor | crates/mcp-events-engine/src/store.rs:340-344 | Only the watermark of an existing record changes. |
| Store.RunContinues | crates/mcp-events-engine/src/store.rs:137-345 | Any further calls continue a run, so what holds of runs holds after them. |
| Store.SubscriptionStore.HandleSubscribe | crates/mcp-events-server/src/webhook/handlers.rs:90-115 | The handler is the upsert and, for an endpoint not yet verified, the challenge's outcome, with any calls of others in between; it succeeds only with the endpoint in the cache, and a failed challenge leaves no record, not even one it had only refreshed. |
| Store.QuotaBrokenIff | crates/mcp-events-engine/src/store.rs:158-222 | With the quota kept before, as of any time, one operation breaks it exactly when it is an accepted upsert whose record is live then, whose key held no place, and `max` others did. |
| Store.UpToDateKeeps | crates/mcp-events-engine/src/store.rs:166-206 | As of its own reading no operation does that, so only an upsert with an older reading can. |
| Store.QuotaHoldsIff | crates/mcp-events-engine/src/store.rs:158-266 | Over whole runs with readings in any order, the quota is kept throughout, as of the latest reading, exactly when no operation breaks it in that way. |
| Store.QuotaHolds | crates/mcp-events-engine/src/store.rs:158-266 | After any calls whose readings come in the order of the lock, as of any later time, a principal has at most the allowed number of live subscriptions. |
| Store.RaceBreaksQuota | crates/mcp-events-engine/src/store.rs:166-206 | Under a steady clock, a refresh that reads it and then waits for the lock while its record lapses and gives up its place leaves two live subscriptions where one is allowed. |
| Store.BookkeepingFaithful | crates/mcp-events-engine/src/store.rs:158-337 | In every reachable state a record's streak is the number of failures since its last create, refresh, success or reactivation; `failed_since` is the first failure since the last create or success, set exactly when `last_error` is; `verified` agrees with the cache. |
| Store.CacheIsHistory | crates/mcp-events-engine/src/store.rs:313-327 | The cache holds exactly the endpoints that were verified. |
| Store.CursorMovesOnlyBy | crates/mcp-events-engine/src/store.rs:178-195 | A record's cursor moves only by a watermark update or by creation over a lapsed record, never by a refresh. |
| Store.ActiveMeansBelow | crates/mcp-events-engine/src/store.rs:283-309 | Under one positive threshold, an active record's streak is below it in every reachable state. |
| Store.RecordIsHistory | crates/mcp-events-engine/src/store.rs:158-344 | In every reachable state a record holds what the last accepted upsert of its key said, the time of its last success and the category of its last failure, and is suspended exactly when a failure brought its streak to the threshold since it was last created, refreshed or reactivated. |
| Store.OthersUntouched | crates/mcp-events-engine/src/store.rs:158-344 | An operation on one key, or a sweep that does not lapse it, leaves every other key's record as it was. |
| Store.UpsertIsSlotStep | crates/mcp-events-engine/src/store.rs:158-222 | For its own key an upsert is the pipeline's refresh, its create, fresh or over a running task, or nothing when refused. |
| Store.OutcomeIsSlotStep | crates/mcp-events-engine/src/store.rs:270-309 | Recording an outcome is the pipeline's step after a POST. |
| Store.RemoveIsSlotStep | crates/mcp-events-engine/src/store.rs:224-229 | Removal is the pipeline's removal. |
| Store.ReactivateIsSlotStep | crates/mcp-events-engine/src/store.rs:331-337 | Reactivation is the pipeline's refresh, or nothing without a record. |
| Store.CursorIsSlotStep | crates/mcp-events-engine/src/store.rs:340-344 | A watermark update is the pipeline's. |
| Store.VerifyIsSlotStep | crates/mcp-events-engine/src/store.rs:313-321 | Verifying an endpoint is the pipeline's verification step for its keys and no step for others. |
| Canon.CanonicalJson | crates/mcp-events-engine/src/canon.rs:11-15 | The text is the one the results below are about. |
| Canon.WriteCanonical | crates/mcp-events-engine/src/canon.rs:17-46 | Writing appends a value's canonical text to what was written, the loops putting commas exactly between pairs and items. |
| Canon.SortedSorts | crates/mcp-events-engine/src/canon.rs:20-21 | Sorting puts distinct keys in strict lexicographic order. |
| Canon.SortedMeaning | crates/mcp-events-engine/src/canon.rs:20-21 | Sorting changes no field. |
| Canon.QuotedUnambiguous | crates/mcp-events-engine/src/canon.rs:26-27 | An escaped string can be read back in only one way, whatever follows its closing quotation mark. |
| Canon.TextUnambiguous | crates/mcp-events-engine/src/canon.rs:17-46 | A canonical text followed by anything is read in only one way, up to key order. |
| Canon.SameText | crates/mcp-events-engine/src/canon.rs:17-46 | Values equal up to key order at every depth have the same text. |
| Canon.CanonicalIdentifies | crates/mcp-events-engine/src/canon.rs:11-46 | Two values have the same canonical text exactly when they are equal up to object key order at every depth. |
| Canon.PermutedFieldsSameText | crates/mcp-events-engine/src/canon.rs:19-34 | Reordering an object's fields in any way leaves the text alone. |
| CanonRead.CanonicalIsJson | crates/mcp-events-engine/src/canon.rs:11-46 | The canonical text is JSON text: a reader written from RFC 8259 reads it in full, as a value of the same meaning with its keys in order at every depth. |
| CanonRead.TextRead | crates/mcp-events-engine/src/canon.rs:17-46 | The same inside a longer text: a value's text is read up to its end, whatever follows. |
| CanonRead.CharsRead | crates/mcp-events-engine/src/canon.rs:26-27 | An escaped string is read as the string, up to its closing quotation mark. |
| CanonRead.ShortestEscape | crates/mcp-events-engine/src/canon.rs:26-27 | No other way of writing a character inside a string is shorter. |
| CanonRead.LowerCaseDigits | crates/mcp-events-engine/src/canon.rs:26-27 | Hexadecimal escapes use lower-case digits. |
| CanonRead.KeyOrder | crates/mcp-events-engine/src/canon.rs:20-21 | The order of keys is lexicographic: the first difference decides, and a proper prefix comes first. |
| Utf8.DecodeEncoded | crates/mcp-events-client/src/sse.rs:83-83 | Lossy decoding gives back every string that was encoded. |
| Sse.DataLineAbsorbed | crates/mcp-events-client/src/sse.rs:79-101 | A printed data line is read as its payload, leading spaces included. |
| Sse.EncodedSingleLine | crates/mcp-events-server/src/handlers/stream.rs:49-52 | Encoding a single-line payload yields no line ending. |
| ClientSse.SseParser.FindLine | crates/mcp-events-client/src/sse.rs:27-42 | The scan finds the first line ending, LF, CRLF or a CR alone, and defers a CR at the very end. |
| ClientSse.SseParser.Push | crates/mcp-events-client/src/sse.rs:50-61 | A push processes exactly the complete lines of the buffer and keeps the rest. |
| ClientSse.SseParser.Finish | crates/mcp-events-client/src/sse.rs:66-77 | The end of the stream processes an unterminated line and dispatches a pending event. |
| ClientSse.SseParser.ProcessLine | crates/mcp-events-client/src/sse.rs:79-101 | A line changes the pending fields, or dispatches, as the line model says; an id with NUL is ignored. |
| ClientSse.SseParser.Dispatch | crates/mcp-events-client/src/sse.rs:103-114 | A pending event is delivered only with data, and the last id persists. |
| ClientSse.DrainedInTwo | crates/mcp-events-client/src/sse.rs:50-61 | Two pushes in a row are one push of the joined chunks. |
| ClientSse.DrainedIsFold | crates/mcp-events-client/src/sse.rs:50-77 | Draining a stream and finishing is the left fold over its lines, every kind of line ending counting as one. |
| ClientSse.ParseChunks | crates/mcp-events-client/src/sse.rs:44-114 | However the bytes are cut into chunks, even inside CRLF or a character, the events are those of the whole stream's lines. |
| ClientSse.PrintedMeans | crates/mcp-events-client/src/sse.rs:50-114 | The client reads back exactly the payloads the server printed. |
| SseFrames.FieldDoes | crates/mcp-events-client/src/sse.rs:79-101 | What each field of a line does in both parsers: data adds a line, event and id are taken over (an id with NUL by the feed only), a comment does nothing. |
| SseFrames.OtherFieldsDoNothing | crates/mcp-events-client/src/sse.rs:79-101 | Any other field does nothing in either. |
| SseFrames.JoinedSplit | crates/mcp-events-client/src/sse.rs:103-114 | Joining data lines undoes splitting a text at its line ends. |
| SseFrames.FramesReadBack | crates/mcp-events-client/src/sse.rs:44-114 | Frames with any name, id and data of several lines, printed with any of the three line endings, are read back: each frame's name and data, and the last id given. |
| SseFrames.CutOffStillRead | crates/mcp-events-client/src/sse.rs:66-77 | A frame that the end of the stream cuts off after its data is still read. |
| FeedSse.SseParser.Push | crates/drasi-feed/src/sse.rs:41-69 | A push processes exactly the LF-terminated lines and drops an over-long rest with everything pending but the last id. |
| FeedSse.SseParser.ProcessLine | crates/drasi-feed/src/sse.rs:71-90 | A line changes the pending fields as the feed reads them, keeping every id. |
| FeedSse.SseParser.Dispatch | crates/drasi-feed/src/sse.rs:92-103 | A pending event is delivered only with data, and the last id persists. |
| FeedSse.ParsersAgree | crates/drasi-feed/src/sse.rs:41-103 | The two parsers return the same events push by push on every stream where each CR is followed by LF, no id contains NUL and no line passes the feed's cap. |
| FeedSse.LoneCrDiffers | crates/drasi-feed/src/sse.rs:44-48 | Without the first condition they differ: a CR alone ends a line for one and not for the other. |
| FeedSse.CapDrops | crates/drasi-feed/src/sse.rs:61-68 | Over 4 MiB of unterminated line the line and the pending fields go; the last id and complete events stay. |
| FeedSse.PrintedReadBack | crates/drasi-feed/src/sse.rs:41-103 | Any list of single-line payloads printed as frames is read back as the same list by both parsers, in any chunking, as far as the feed's cap allows. |
| Feed.DiffsWellSided | crates/drasi-feed/src/sse.rs:143-200 | Every change parsed from a diff has the sides its kind needs, none of them null. |
| Feed.PayloadWellSided | crates/drasi-feed/src/sse.rs:108-141 | So has every change of a payload, and it belongs to the payload's query. |
| Feed.DiffYields | crates/drasi-feed/src/sse.rs:143-200 | Which diffs yield a change, of which kind, and from which fields its rows come. |
| Feed.PayloadRead | crates/drasi-feed/src/sse.rs:108-200 | A payload written from a list of changes is read as that list, in order; a heartbeat yields nothing. |
| Feed.RunMockFeed | crates/drasi-feed/src/mock.rs:59-90 | The lane scheduler emits at tick t the order 3*(t/12) + t%3 + 1 in phase (t/3)%4, for every t. |
| Feed.LaneServed | crates/drasi-feed/src/mock.rs:77-85 | Serving a lane moves it to its next phase, or to the order after all those in flight. |
| Feed.EachPhaseOnce | crates/drasi-feed/src/mock.rs:59-90 | Every order goes through every phase at exactly one tick. |
| Feed.OrderLife | crates/drasi-feed/src/mock.rs:30-55 | Its phases come in order, and each row before a change is the row after the previous one. |
| Feed.OrderRows | crates/drasi-feed/src/mock.rs:20-28 | An order keeps its number and customer, its status goes from open to paid to shipped and its total rises by 100 and 150; five customers take turns. |
| Feed.MockIds | crates/drasi-feed/src/mock.rs:46-55 | Every mock change has an id of its own. |
| Mapping.BuildEventModel | crates/mcp-events-server/src/mapping.rs:43-168 | The registered names are those of the mode and then the injected ones; exactly the `changed` types are checked for valid change types and, unless an injected type took the name, have the change filter; each injected type has the equality filter of the keys it declares, the last of a name winning. |
| Mapping.ForwardChanges | crates/mcp-events-server/src/mapping.rs:286-306 | The forwarding loop appends to each type's log exactly the mapped changes of registered types, in order. |
| Mapping.NothingDropped | crates/mcp-events-server/src/mapping.rs:172-228 | In either mode nothing a configured query's feed yields is dropped or unregistered. |
| Mapping.MappedAs | crates/mcp-events-server/src/mapping.rs:172-228 | One change in either mode: id and time are kept, the names are the query's with `.changed`, `.added`, `.updated` or `.deleted`, and the rows are carried. |
| Mapping.DroppedIff | crates/mcp-events-server/src/mapping.rs:195-221 | Only a change without the row its kind needs is dropped, and only by the types of a kind. |
| Mapping.ChangeFilterIs | crates/mcp-events-server/src/mapping.rs:88-96 | Without a `changeType`, or with null, everything passes; a string passes that kind; anything else passes nothing. |
| Mapping.AskedForKind | crates/mcp-events-server/src/mapping.rs:88-96 | Asking for `added`, `updated` or `deleted` gets exactly those changes. |
| Mapping.KnownKeysAre | crates/mcp-events-server/src/mapping.rs:144-150 | The declared params are the names under `properties`. |
| Mapping.EqualityFilterIs | crates/mcp-events-server/src/mapping.rs:151-163 | The filter of an injected type compares every declared param that is given and not null, ignores the others, and passes everything when the params are no object. |
| Mapping.NamesAre | crates/mcp-events-server/src/mapping.rs:61-138 | The names registered for the queries, in order. |
| Mapping.SingleMatches | crates/mcp-events-server/src/mapping.rs:88-96 | The change filter passes an event exactly when it is of the wanted kind. |
| Mapping.LogsParallel | crates/mcp-events-server/src/mapping.rs:172-228 | The filtered `changed` log and the log of a kind's own type hold the same changes in the same order. |
| Mapping.ModesAgree | crates/mcp-events-server/src/mapping.rs:64-228 | With nothing evicted, reading `changed` for one kind and reading that kind's own type give the same ids, times, order and rows. |

## Left out

- Two delivery tasks that overlap for one subscription (`worker.rs` lines 90-130 and 194-216): a task that winds down after its sender was dropped while another is started. The fan-out waits in the model; the promise is per task.
- Worker.Worker.Subscribe: does not create the record over a running task where that is not harmless; the source does, and `Pipeline.CreateOverIff` and `Pipeline.ReuseIsSafeIff` say exactly when the promise is then lost.
- Worker.Worker.FanStep: waits where the source starts a second task beside one that winds down, as said above.
- Worker.Worker.RunWorker: runs with such a creation, or with two tasks of one subscription at a time, are not covered.
- Sse: a leading byte order mark is not stripped, neither by the two parsers nor by the line model they are compared with.
- Worker.Worker.Start: a record without a cursor is read together with the head it starts from, in one step; the subscribe handler always stores a cursor.
- Buffer.EventBuffer.Emit: requires room in the 64-bit sequence number; wrap-around after 2^64 events of a type is not modelled, nor is that of the 32-bit failure count.
- The broadcast channel is abstract: a receiver yields the next event or lags to an arbitrary later one; its capacity is not modelled.
- Stream: a frame or message that cannot be serialized is dropped by the source; serialization always succeeds here.
- Worker: the branch for a stored callback address that does not parse, backoff durations, signing, address checks and the verification challenge; only its outcome is a step.
- Agent: a server restart changes the epoch, and a cursor of another epoch starts a fresh ledger at the session's start; the terminated and transient-error frames, and all of the language-model handling, are an arbitrary success or failure.
- PollClient: transport errors and sleeps, and a state file that cannot be written, which ends the program.
- Store: `derive_sub_id` is a truncated hash of the key; records are kept by key, as if it were injective. Delivery status and identifiers on the wire are not modelled.
- Canon: numbers are their rendered tokens, so equality is that of the tokens.
- Mapping: descriptions and payload schemas of the registered types, delivery modes, and the parameter validation of requests.
- Feed.FeedEventsFromPayload: takes the payload already parsed as JSON and its timestamp already read; an event without an upstream id gets a random one, which is an input here.
- HTTP, routing, configuration files, the tools and the command lines: plumbing without state worth an invariant.
