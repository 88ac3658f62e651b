# Verified model of a voice-call runtime

A Dafny model of the small state machines that several threads, workers and
processes of the runtime step together, with proofs about every run of them.
`dafny verify dfyconfig.toml` checks the whole project.

| module | models |
|---|---|
| AgentTasks, JsonAgentTasks | the agent-task tracker and its saved form |
| AgentTaskRuns, AgentTaskLeases | runs with restarts: answered ids, the floor, exclusive leases |
| AgentTaskApi | poll, claim, release, renew and response submission around the tracker |
| Playback | the playback buffer and its packets |
| ResponseGate, ResponseGateOutcomes, ResponseGateRuns, ResponseGateLimits, CallSession | whether a response may still be spoken: state machine, what each step does in terms of what can be observed, theorems over all interleavings, runs that show their limits, and the session class proved equal to it step by step |
| CallRegistry, CallRegistryRuns | registry of live calls against the call state store, one operation at a time and overlapping |
| Events, EventFeed, EventLog, DurableEvents, LateReads | event window, cursor polling, the shared log file, the durable read, and reads while other threads record |
| StreamText, AudioSocket, BridgeSegmenter, MicSegmenter, Recording | text chunking, framing, segmentation, recording |
| Conversation, ConversationSteps | the conversation flow engine, its session store, and what one event does |
| Common, Strings | sequences, options, Python's `strip` and `rfind` |

The stateful parts are classes whose methods are proved against functions of
the old state; the theorems are then about runs of those functions. Clocks,
socket fragments, synthesised audio, block levels, rendering and resampling are
parameters, so each theorem holds for all of them.

## Where the code falls short of what one would expect

Each of these is proved with the exact condition under which the code does meet
the expectation.

- A stale answer is spoken when the event of the newer caller turn is out of
  reach. With the default bound of 80 events over all calls this happens by
  compaction, before the chunk is judged (ResponseGateLimits.EvictedTurnIsMissed).
  Above a bound of 200, or with a bound of zero, it also happens because the scan
  reads the first 200 retained events of the call, not the latest
  (ResponseGateLimits.CrowdedOutTurnIsMissed). ResponseGateRuns.NewerSeenExactly
  is the exact condition.
- A registry operation takes the registry's lock and then the store's, so a call
  stopped while its snapshot is on the way to the store stays active there
  (CallRegistryRuns.StoppedCallStaysActive). CallRegistryRuns.OverlapAgreesExactly
  is the exact condition.
- Event ids are taken outside the lock, so an append can be overtaken; a poller
  that has seen the later id never gets the earlier one. A poll for fewer events
  than are retained can pass an event as well. EventFeed.DeliveredExactly says
  which ids a reader gets; EventFeed.OvertakenEventIsMissed and
  EventFeed.ShortBatchMissesEvent are runs.
- Logging an event and recording it in memory are two locked sections, so the
  events a process retains can be out of id order (EventLog.MemoryOrderedExactly).
- A log line with a blank call id or type is not read back, so its id is given
  out again (EventLog.IdsDistinctExactly).
- A query that names a future moment frees leases that are still live
  (AgentTaskLeases.QueryFreesLease).
- Finalising a recording again after more speech repeats merged audio
  (Recording.SecondRecordingExactly).
- An event whose fields carry surrounding whitespace reads back changed, or not
  at all, so once it is compacted away a reader sees it change or disappear
  (DurableEvents.CompactionUnseenExactly, DurableEvents.UntrimmedCallIsSeen).
- A read takes the transcript first and memory later, so an event recorded and
  compacted in between is missed, though later ones are returned
  (LateReads.LateReadExactly, LateReads.EventBetweenStepsIsMissed).
- Call ids that differ only in replaced characters share one transcript file
  (DurableEvents.OwnEventsExactly).
- Validation does not look into templates, so a validated flow can fail to start
  or to take a step (Conversation.RunReturnsExactly,
  Conversation.MalformedTemplateFails).
- An id with surrounding whitespace breaks the agreement of registry and state
  store (CallRegistry.AddAgreesExactly, RemoveAgreesExactly and
  ReplaceAgreesExactly).
- With a chunk size of zero or less the loop does not end on a text that has
  something to say after its last boundary, or for a negative size at its end
  (StreamText.LoopEndsExactly). A blank overlong chunk counts as streamed though
  nothing is posted (StreamText.BlankReadyExactly).
- An event bound of zero keeps everything instead of nothing
  (Events.WindowIsSuffix).

## Model

| member | source | states |
|---|---|---|
| AgentTasks.AgentTaskTracker.constructor | voicebot/agent_tasks.py:16-24 | A new tracker has answered nothing, holds no lease and has floor 0. |
| AgentTasks.AgentTaskTracker.Create | voicebot/agent_tasks.py:16-18 | A tracker is made if and only if its bound is at least one. |
| AgentTasks.AgentTaskTracker.MarkResponded | voicebot/agent_tasks.py:26-33 | Records the answer, drops the lease, and keeps set, FIFO and floor consistent within the bound. |
| AgentTasks.RecordShape | voicebot/agent_tasks.py:26-33 | A newly answered id joins the end of the FIFO; at the bound exactly the oldest id leaves, and the floor rises to it if it was lower. |
| AgentTasks.RecordWellFormed | voicebot/agent_tasks.py:26-37 | Recording keeps the set equal to the FIFO without duplicates and within the bound, and unanswers nothing. |
| AgentTasks.PrunedWellFormed | voicebot/agent_tasks.py:133-137 | Pruning brings any duplicate-free FIFO within the bound and keeps every answered id answered. |
| AgentTasks.AgentTaskTracker.IsPendingNow | voicebot/agent_tasks.py:35-42 | Expires leases at the effective time, a given `now` of 0 meaning the clock; pending means neither answered nor leased. |
| AgentTasks.AgentTaskTracker.Claim | voicebot/agent_tasks.py:44-59 | Returns and leases exactly the free ids of the request; ClaimExactly says for how long. |
| AgentTasks.ClaimExactly | voicebot/agent_tasks.py:44-59 | Granted are exactly the ids asked for that lie above the floor, are not answered and not leased. Each is then held by the owner until the lease length after `now`, or 0.1 seconds if that is less, and at no later moment; of the other leases only those that had run out are gone. |
| AgentTasks.GrantedOnce | voicebot/agent_tasks.py:44-59 | A claim grants exactly the requested ids that are pending, each once however often it was asked for. |
| AgentTasks.GrantedInOrder | voicebot/agent_tasks.py:44-59 | Grants come in the order of first request. |
| AgentTasks.AgentTaskTracker.Release | voicebot/agent_tasks.py:61-65 | Drops the lease of that id only. |
| AgentTasks.AgentTaskTracker.ReleaseMany | voicebot/agent_tasks.py:67-75 | Drops exactly the requested leases, or those of them held by the owner named; it does not expire leases. |
| AgentTasks.ReleaseExactly | voicebot/agent_tasks.py:67-75 | A release leaves exactly the leases not asked for or not held by the owner named, as they were, and reports exactly those that are gone. |
| AgentTasks.ReleasedOnce | voicebot/agent_tasks.py:67-75 | Each such id is reported once. |
| AgentTasks.AgentTaskTracker.RenewMany | voicebot/agent_tasks.py:77-88 | Extends exactly the requested leases that are live and held by the caller. |
| AgentTasks.RenewExactly | voicebot/agent_tasks.py:77-88 | The same for renewals, of exactly the owner's own live leases among those asked for. |
| AgentTasks.RenewedByHolder | voicebot/agent_tasks.py:77-88 | An id is renewed if and only if it was asked for and its lease is live and held by the caller: never at or after expiry. |
| AgentTasks.AgentTaskTracker.TaskState | voicebot/agent_tasks.py:110-126 | Reports expired, responded, claimed or pending after expiring leases. |
| AgentTasks.ShownExactly | voicebot/agent_tasks.py:110-126 | Shown as claimed exactly while leased, with the time left; as pending or inactive exactly if it could be claimed, depending on the call; as responded otherwise. |
| JsonAgentTasks.JsonAgentTaskTracker.constructor | voicebot/agent_tasks.py:141-144 | A process starts from the file, pruned to its own bound, with saved leases moved to its own clock. |
| JsonAgentTasks.JsonAgentTaskTracker.SaveFile | voicebot/agent_tasks.py:196-217 | Expires leases and writes order, floor and live leases with wall-clock expiries. |
| JsonAgentTasks.JsonAgentTaskTracker.MarkResponded | voicebot/agent_tasks.py:146-148 | The tracker step followed by a save. |
| JsonAgentTasks.JsonAgentTaskTracker.Claim | voicebot/agent_tasks.py:150-153 | The tracker step followed by a save. |
| JsonAgentTasks.JsonAgentTaskTracker.ReleaseOne | voicebot/agent_tasks.py:155-157 | The tracker step followed by a save. |
| JsonAgentTasks.JsonAgentTaskTracker.ReleaseAll | voicebot/agent_tasks.py:159-162 | The tracker step followed by a save. |
| JsonAgentTasks.JsonAgentTaskTracker.RenewMany | voicebot/agent_tasks.py:164-167 | The tracker step followed by a save. |
| AgentTaskRuns.RunSound | voicebot/agent_tasks.py:26-137 | In every state reachable by any requests, saves and restarts, the set is the FIFO, duplicate-free and within the bound. |
| AgentTaskRuns.AnsweredForever | voicebot/agent_tasks.py:26-217 | Once an id is marked answered, no later reply in any run, across evictions, saves and restarts, treats it as open: not pending, never granted or renewed, state "responded". |
| AgentTaskRuns.RunSummarises | voicebot/agent_tasks.py:26-217 | Memory and file always summarise the ids recorded over the whole run: the FIFO is its tail and the floor is the maximum of the part before. |
| AgentTaskRuns.SwallowedOnlyWhenOvertaken | voicebot/agent_tasks.py:26-42 | A never answered id reads as answered only after a larger id was recorded and then at least as many further ids as the smallest bound in use. |
| AgentTaskRuns.SwallowedExactly | voicebot/agent_tasks.py:26-42 | As long as restarts keep the bound, that condition is exact, with the bound itself. |
| AgentTaskRuns.FifoIsRecent | voicebot/agent_tasks.py:26-33 | As long as restarts keep the bound, the FIFO is the last min(recorded, bound) ids recorded. |
| AgentTaskRuns.ReloadKeepsRecord | voicebot/agent_tasks.py:169-217 | Save and reload with a bound not smaller changes neither order nor floor. |
| AgentTaskRuns.ReloadKeepsLease | voicebot/agent_tasks.py:169-217 | Exactly the leases live at the save and not yet over on the wall clock survive, with owner and remaining time. |
| AgentTaskRuns.ReloadKeepsPending | voicebot/agent_tasks.py:169-217 | is_pending agrees for every id before and after, at every later time. |
| AgentTaskRuns.SmallerReloadKeepsAnswers | voicebot/agent_tasks.py:169-194 | Reloading with any bound, however small, keeps every answered id answered. |
| AgentTaskLeases.LedgerIsFaithful | voicebot/agent_tasks.py:44-88 | Over every run with restarts, the claims in memory and on disk agree with a ledger of who was last granted or renewed each id, up to expired entries. |
| AgentTaskLeases.GrantRespectsLedger | voicebot/agent_tasks.py:44-59 | Whenever an id is granted, any lease still on the ledger had expired by the latest time the tracker was shown. |
| AgentTaskLeases.RegrantNeedsExpiry | voicebot/agent_tasks.py:44-88 | Between two consecutive grants of an id not released in between, at least the lease length, and 0.1 seconds, passed since the first one, or since its own holder last renewed it; restarts may lie in between, queries must not name future moments. |
| AgentTaskLeases.RegrantNeedsExpiryInProcess | voicebot/agent_tasks.py:44-88 | Within one process the same holds of the monotonic clock alone, whatever the wall clock does. |
| AgentTaskLeases.QueryFreesLease | voicebot/agent_tasks.py:35-42 | Why queries are restricted: a live lease is lost to a query if and only if the query names a non-zero moment at or after its expiry. |
| AgentTaskLeases.FutureQueryBreaksLease | voicebot/agent_tasks.py:110-131 | Such a query does let a second worker claim a leased id. |
| AgentTaskApi.AgentTasksApi.Poll | voicebot/api_agent_tasks.py:80-108 | Offers the first `limit` open tasks of active calls among the first 1000 events, each judged by its own clock reading, and never one whose completing response was submitted. |
| AgentTaskApi.AgentTasksApi.Claim | voicebot/api_agent_tasks.py:111-152 | Grants only retained requests of active calls, never a completed one, and logs each grant with its owner and lease length and, where the request's age can be told, its pickup latency, never negative. |
| AgentTaskApi.AgentTasksApi.Release | voicebot/api_agent_tasks.py:164-175 | Releases and notes exactly the ids the tracker released. |
| AgentTaskApi.AgentTasksApi.Renew | voicebot/api_agent_tasks.py:178-193 | Renews exactly the ids the tracker renewed, none of them completed, and notes each with the lease length. |
| AgentTaskApi.OffersAreOpen | voicebot/api_agent_tasks.py:80-108 | An event is offered if and only if it is in the scan and is an open request of a wanted, active call. |
| AgentTaskApi.EligibleIsSelection | voicebot/api_agent_tasks.py:111-152 | An id is passed on to the tracker if and only if it was asked for and names a retained request of an active call. |
| AgentTaskApi.NotedExactly | voicebot/api_agent_tasks.py:121-193 | A task is noted exactly if its request is still retained, under its call, with the worker, for claims and renewals the lease length, and for claims of known age the time it waited. |
| AgentTaskApi.ChunkCountExactly | voicebot/api_calls.py:246-257 | The chunks counted are the answer's stream chunks among the first 1000 retained events of the call. |
| AgentTaskApi.LoggedExactly | voicebot/api_calls.py:188-239 | A finalisation logs the number of chunks if there were any and then itself; a failed playback its error; anything else nothing. |
| AgentTaskApi.AgentTasksApi.SubmitResponse | voicebot/api_calls.py:178-257 | An unknown call changes nothing; otherwise the request is marked answered, and closed, by a finalisation or a non-partial answer, whether or not playback failed, and the tracker is left as it was by any other, and what the request itself logs is exactly the chunk count, the finalisation or the failure. |
| AgentTaskApi.ChunksNeverComplete | voicebot/api_calls.py:213-243 | Any sequence of stream chunks alone leaves the tracker as it was. |
| AgentTaskApi.CompletionIsFinal | voicebot/api_calls.py:178-243 | After a completing submission, later submissions of any kind keep that id closed. |
| Playback.PlaybackBuffer.constructor | voicebot/calls.py:117-124 | Nothing pending, nothing offered. |
| Playback.PlaybackBuffer.Interrupt | voicebot/calls.py:126-135 | Discards exactly the undelivered remainder; reports whether there was any. |
| Playback.PlaybackBuffer.Enqueue | voicebot/calls.py:137-141 | Adds one segment behind everything pending. |
| Playback.PlaybackBuffer.IsActive | voicebot/calls.py:143-145 | Active if and only if something is pending. |
| Playback.PlaybackBuffer.ActiveResponseEventIds | voicebot/calls.py:147-155 | Exactly the request ids of the pending pieces. |
| Playback.PlaybackBuffer.ActiveResponseKinds | voicebot/calls.py:157-167 | Exactly the non-blank kinds of the pending pieces. |
| Playback.PlaybackBuffer.NextPacketWithMetadata | voicebot/calls.py:173-202 | Silence when nothing is pending, otherwise the padded head of the first piece with its flags and metadata; audio sent or discarded plus audio pending is always the audio offered. |
| Playback.CutShape | voicebot/calls.py:173-202 | A segment takes exactly max(1, ceil(length / packet)) packets; the k-th carries samples k*n to (k+1)*n, one says started, one says finished, all carry its metadata. |
| Playback.CutKeepsSamples | voicebot/calls.py:173-202 | The unpadded packets of a segment concatenate to the segment. |
| Playback.PacketsRefineQueue | voicebot/calls.py:137-202 | However enqueues and packet requests interleave, packets sent followed by the packets of what is pending are the packets of all segments in order. |
| Playback.DrainedAudio | voicebot/calls.py:137-202 | Once drained, the unpadded packets are the audio offered, in order. |
| ResponseGateRuns.RunStaysSound | voicebot/calls.py:326-526 | An invariant over every interleaving of speech, text, interrupts, submissions, waits, chunks and sender ticks ties request generations, caller turns and submissions in flight to the event history. |
| ResponseGateRuns.OnlyExemptWhileRecording | voicebot/calls.py:371-495 | In every interleaving, a chunk enqueued while the caller is recorded belongs to a call-control acknowledgement or to the response to the opening greeting. |
| ResponseGateRuns.NeverAfterNewerTurn | voicebot/calls.py:435-474 | In every interleaving, no chunk of an answer that is neither startup nor persistent is enqueued while caller activity newer than the request it names is within reach, that is, retained with fewer than 200 retained events of the call before it; whoever made the request, and held chunks included. |
| ResponseGateRuns.RunStaysOverdue | voicebot/calls.py:371-467 | A second invariant over every interleaving: an ordinary answer in synthesis while the caller is recorded, or with a chunk held, began in an earlier interrupt generation. |
| ResponseGateRuns.HeldIsInterrupted | voicebot/calls.py:448-467 | In every interleaving, an interrupt has come since the request of an answer with a chunk held, so the scan always decides about that chunk. |
| ResponseGateRuns.ScannedExactly | voicebot/calls.py:1279-1285 | Among events with different ids, an event is scanned if and only if it is a retained event of the call with fewer than 200 before it. |
| ResponseGateRuns.NewerSeenExactly | voicebot/calls.py:1279-1285 | Newer activity is seen if and only if some newer activity is within that reach. |
| ResponseGateRuns.SmallWindowIsInReach | voicebot/calls.py:1279-1285 | With an event bound of at most 200, an event of the call is out of reach only once it is compacted away. |
| ResponseGateRuns.SpokenExactlyIfUnseen | voicebot/calls.py:435-467 | A chunk of an ordinary answer is spoken if and only if the caller is silent, no newer activity is within reach, and no interrupt has come since the request once a part is queued. |
| ResponseGateRuns.HeldSpokenExactly | voicebot/calls.py:448-467 | A chunk held during the wait is spoken if and only if the caller is silent, it is the first of its answer, and no newer activity is within reach or no interrupt has come, which no run allows. |
| ResponseGateRuns.FreshTurnSeenExactly | voicebot/calls.py:1279-1285 | At the moment it begins, a turn is seen if and only if the call has at most 200 retained events. |
| ResponseGateLimits.EvictedTurnIsMissed | voicebot/calls.py:435-474 | For every event bound of at least one there is a run in which a turn begins after a request, its event is compacted away, and the stale answer is spoken. |
| ResponseGateLimits.CrowdedOutTurnIsMissed | voicebot/calls.py:435-474 | In a call with 200 retained events there is such a run without any eviction. |
| ResponseGateRuns.InterruptEndsAnswer | voicebot/calls.py:445-467 | In every interleaving, once an interrupt or a caller turn has come after an answer was begun and part of it is queued, none of its further chunks is enqueued; acknowledgements and greetings excepted, persistent answers included. |
| ResponseGateRuns.ResumesAreAccounted | voicebot/calls.py:1222-1269 | Over every run, resumed plus not-resumed plus one if a resume is pending never exceed the remembered interruptions, and every resumed answer is one whose audio was enqueued. |
| ResponseGateOutcomes.AdmittedExactly | voicebot/calls.py:326-369 | A submission is admitted if and only if it is no second progress message and, unless it answers the greeting or is persistent, no persistent answer is being played and no newer caller activity is within reach; otherwise it is gone, and the first check that failed is noted. |
| ResponseGateOutcomes.NoneAdmittedOverPersistent | voicebot/calls.py:350-359 | In every interleaving, no ordinary answer is admitted while a persistent one is being played. |
| ResponseGateOutcomes.SynthesisExactly | voicebot/calls.py:371-416 | While the caller speaks a submission waits, unless it may be spoken over the caller; otherwise synthesis begins, unless the answer is ordinary, interrupted since its request and outdated. |
| ResponseGateOutcomes.WokenExactly | voicebot/calls.py:371-385 | After the wait it starts over if and only if the caller is silent and it is persistent or not outdated. |
| ResponseGateOutcomes.ChunkQueuedExactly | voicebot/calls.py:418-495 | Whether a chunk is queued, held, dropped as stale or refused, each with its exact condition, for every submission; and what is remembered of a queued one. |
| ResponseGateOutcomes.HeldQueuedExactly | voicebot/calls.py:448-467 | A held chunk is queued if and only if the caller is silent, it is the first, and the answer is persistent, uninterrupted or not outdated; it is refused otherwise. |
| ResponseGateOutcomes.FinishedExactly | voicebot/calls.py:496-526 | Synthesis failed exactly if it says so or nothing was queued; otherwise exactly the request answered loses its protection. |
| ResponseGateOutcomes.InterruptKeeps | voicebot/calls.py:566-575 | An interrupt empties the queue and begins a generation; a persistent answer being played is the one to resume. |
| ResponseGateOutcomes.SpeechStartShows | voicebot/calls.py:676-699 | A caller turn is recorded and begins a generation; only on barge-in is the queue cut, and a persistent answer that this cuts kept. |
| ResponseGateOutcomes.SpeechEndShows | voicebot/calls.py:701-710 | Only the recording flag is cleared. |
| ResponseGateOutcomes.TextShows | voicebot/calls.py:528-555 | Typed text begins a generation, empties the queue without keeping what it cuts, and asks for an answer. |
| ResponseGateOutcomes.TextIsNoted | voicebot/calls.py:528-555 | Its request is noted after its turn. |
| ResponseGateOutcomes.RequestShows | voicebot/calls.py:639-650 | A request remembers its generation; only that for the greeting is protected. |
| ResponseGateOutcomes.ResumedExactly | voicebot/calls.py:1236-1263 | With a remembered answer, a silent caller and nothing queued, the answer is submitted again with its text, request and a persistent kind if and only if the turn had no text, and is given up otherwise; either way it is no longer remembered. In all other cases nothing happens. |
| ResponseGateOutcomes.CutAnswerComesBack | voicebot/calls.py:1222-1263 | A persistent answer cut short while it plays comes back word for word after a turn without text, and is given up after any other. |
| ResponseGateOutcomes.TickShows | voicebot/calls.py:970-1020 | While the caller is recorded the queue is cut, unless the greeting may go on; otherwise one packet of the first piece goes, and a persistent kind is forgotten with its last packet. |
| ResponseGateOutcomes.OthersShow | voicebot/calls.py:326-335 | Arrivals touch only themselves, and other components' events only the log. |
| CallSession.CallSession.constructor | voicebot/calls.py:206-301 | Starts as the initial state of the state machine over the call's event history. |
| CallSession.CallSession.HasNewerUserActivity | voicebot/calls.py:1279-1285 | State-machine step: some event of the scanned window is caller activity newer than the request. |
| CallSession.CallSession.ShouldDefer | voicebot/calls.py:1189-1193 | State-machine step: the request is retained and was made for a colleague result. |
| CallSession.CallSession.HasActivePersistent | voicebot/calls.py:1217-1220 | State-machine step: a pending piece is of a persistent kind or answers a colleague request. |
| CallSession.CallSession.RememberInterruptedPersistent | voicebot/calls.py:1222-1234 | State-machine step: keeps the last persistent answer if one is playing. |
| CallSession.CallSession.EmitAgentRequest | voicebot/calls.py:1141-1149 | State-machine step: notes a request and the interrupt generation at that moment. |
| CallSession.CallSession.SpeechStarted | voicebot/calls.py:676-699 | State-machine step: flag, turn, event, generation, and on barge-in the interruption, in that order. |
| CallSession.CallSession.SpeechFinished | voicebot/calls.py:701-710 | State-machine step: clears the flag and notes it. |
| CallSession.CallSession.SubmitUserText | voicebot/calls.py:528-555 | State-machine step: blank text is refused with no effect; otherwise playback is cut and a turn and a request are noted. |
| CallSession.CallSession.Greet | voicebot/calls.py:639-650 | State-machine step: the greeting request is remembered and protected. |
| CallSession.CallSession.InterruptPlayback | voicebot/calls.py:566-575 | State-machine step: remembers an interrupted persistent answer, discards the queue, bumps the generation. |
| CallSession.CallSession.Admit | voicebot/calls.py:326-369 | State-machine step: the drop checks, in the source's order. |
| CallSession.CallSession.Proceed | voicebot/calls.py:371-416 | State-machine step: waits for silence, drops a stale response, or reads its generation and begins synthesis. |
| CallSession.CallSession.WakeDeferred | voicebot/calls.py:371-385 | State-machine step: after the wait the response is submitted again or dropped. |
| CallSession.CallSession.OfferChunk | voicebot/calls.py:418-467 | State-machine step: a chunk is dropped as stale, held, refused or spoken. |
| CallSession.CallSession.WakeHeld | voicebot/calls.py:448-467 | State-machine step: the same decision for a chunk held during the wait. |
| CallSession.CallSession.SpeakChunk | voicebot/calls.py:468-495 | State-machine step: the chunk is queued with its metadata and the persistent-answer bookkeeping done. |
| CallSession.CallSession.FinishSynthesis | voicebot/calls.py:496-526 | State-machine step: no audio is a failure; success ends the greeting's protection. |
| CallSession.CallSession.SendTick | voicebot/calls.py:970-1020 | State-machine step: while the caller is recorded only silence is sent; otherwise the next packet. |
| CallSession.CallSession.ForgetFinished | voicebot/calls.py:1265-1269 | State-machine step: a finished persistent answer is neither last nor pending any more. |
| CallSession.CallSession.MaybeResume | voicebot/calls.py:1236-1263 | State-machine step: with the line quiet, a remembered answer is submitted again or dropped. |
| CallSession.CallSession.Step | voicebot/calls.py:205-1300 | Whatever step is possible, taking it on the object is that step, and keeps all three run invariants of the state machine. |
| CallRegistry.CallStateStore.Upsert | voicebot/call_state.py:20-30 | Stores the snapshot under the stripped id as active; blank ids are refused. |
| CallRegistry.CallStateStore.End | voicebot/call_state.py:32-42 | Marks a known call ended and keeps its snapshot; blank ids are refused. |
| CallRegistry.Registry.Add | voicebot/calls.py:1309-1312 | Registry and store after registering any id, blank ones included; agreement is kept if and only if the id is trimmed. |
| CallRegistry.Registry.ReplaceId | voicebot/calls.py:1314-1320 | Registry and store after replacing any id by any other, giving up halfway on a blank old id. |
| CallRegistry.ReplacedExactly | voicebot/calls.py:1314-1320 | After a replacement the new id is active with its snapshot, the old one ended with the snapshot it had, and every other state as it was; nothing happens for a blank old id. |
| CallRegistry.Registry.Rename | voicebot/calls.py:616-629 | A session taking its real id keeps the agreement exactly when the two ids are clean. |
| CallRegistry.Registry.Remove | voicebot/calls.py:1322-1325 | Registry and store after removing any id; agreement is kept unless an untrimmed id ends the live call of the trimmed one. |
| CallRegistry.Registry.Stop | voicebot/calls.py:1327-1338 | Stops that session and no other; agreement is kept, unknown ids included. |
| CallRegistry.Registry.Snapshot | voicebot/calls.py:1348-1355 | With no other operation in between, a snapshot refreshes the store without disturbing agreement. |
| CallRegistry.AddAgreesExactly | voicebot/calls.py:1309-1312 | Registering keeps the active calls equal to the keys if and only if the id is trimmed. |
| CallRegistry.RemoveAgreesExactly | voicebot/calls.py:1322-1325 | Removing keeps them equal if and only if the id is trimmed or no live call bears the trimmed id. |
| CallRegistry.ReplaceAgreesExactly | voicebot/calls.py:1314-1320 | Replacing keeps them equal under an exact condition on the two ids and the keys. |
| CallRegistryRuns.AloneAsInTurn | voicebot/calls.py:1309-1355 | Performed alone, the two locked sections of an operation do to the store what the registry's methods state. |
| CallRegistryRuns.BeginKeepsDueExactly | voicebot/calls.py:1309-1355 | An operation that begins leaves everything still to be done to the store in accord with the registry if and only if no update that is pending for one of its ids is contrary to its own. |
| CallRegistryRuns.UnopposedRunsAgree | voicebot/calls.py:1309-1355 | In every interleaving of operations that met no contrary update, the active calls are the keys whenever nothing is left to do. |
| CallRegistryRuns.FinishAgreesExactly | voicebot/calls.py:1309-1355 | However the threads finish, active calls and keys agree if and only if, for every id, every pending update accords with the registry, or none is pending and the store does. |
| CallRegistryRuns.OverlapAgreesExactly | voicebot/calls.py:1309-1355 | After any such run, one more operation leaves active calls and keys in agreement, in whatever order the threads then finish, if and only if it meets no contrary update either. |
| CallRegistryRuns.StoppedCallStaysActive | voicebot/calls.py:1327-1355 | A run in which a call is stopped between a snapshot's lookup and its update of the store, and stays active for good. |
| Events.EventStore.constructor | voicebot/events.py:113-126 | Ids continue after the largest initial id; the window is the last events. |
| Events.EventStore.Append | voicebot/events.py:128-137 | The event gets the next id, ends the history, and keeps increasing ids increasing. |
| Events.EventStore.RecordEvent | voicebot/events.py:148-153 | The retained events remain the window of the whole history. |
| Events.EventStore.ListEvents | voicebot/events.py:169-186 | The first `limit` wanted events of the window. |
| Events.EventStore.ListScopedEvents | voicebot/events.py:169-186 | The first `limit` wanted events of the window within a workspace, voicebot and session. |
| Events.InScopeIsSelection | voicebot/events.py:388-400 | Exactly the events that match the scope are kept; an event that names no session belongs to that of its call. |
| Events.EventStore.GetEvent | voicebot/events.py:188-193 | The first retained event with that id, or none if none is retained. |
| Events.FoundFirst | voicebot/events.py:188-193 | Of several events with one id the first is found. |
| Events.EventStore.CompactLocked | voicebot/events.py:208-241 | Keeps exactly the last events up to the bound. |
| Events.WindowStep | voicebot/events.py:208-213 | Compacting after every event keeps the same window as cutting the whole history once. |
| Events.WindowIsSuffix | voicebot/events.py:208-213 | The window is the last min(n, bound) events if and only if the bound is at least one or there are none. |
| Events.FilterIsSelection | voicebot/events.py:169-186 | Listing keeps exactly the wanted events and their order. |
| EventFeed.Subscriber.PollOnce | voicebot/api_events.py:63-73 | One round sends the first ids above the cursor and advances it to the largest id seen. |
| EventFeed.NeverTwice | voicebot/events.py:128-153 | However appenders and polls interleave, no id is recorded or delivered twice. |
| EventFeed.OrderedExactlyInTurn | voicebot/events.py:128-153 | Once every append has completed, ids are in increasing order if and only if no append was overtaken between taking its id (outside the lock) and recording it. |
| EventFeed.InTurnDelivery | voicebot/api_events.py:63-73 | With appends in turn a reader gets a strictly increasing sequence. |
| EventFeed.DeliveredExactly | voicebot/api_events.py:63-73 | In every interleaving, an id the cursor has passed was delivered if and only if it was neither compacted before a poll reached it, nor recorded behind the cursor, nor left out of a batch that moved the cursor past it. |
| EventFeed.WholeWindowIsNeverCut | voicebot/api_events.py:63-73 | The last of these cannot happen when a poll asks for at least as many events as the store retains. |
| EventFeed.ShortBatchMissesEvent | voicebot/api_events.py:63-73 | Otherwise it can: a concrete run in which a retained event, recorded before any poll, is never delivered. |
| EventFeed.ReaderMissesOnlyCompacted | voicebot/api_events.py:63-73 | With appends in turn only compacted events are missed. |
| EventFeed.LateIsLost | voicebot/api_events.py:63-73 | In every interleaving, an id recorded at or below the cursor is never delivered, retained or not. |
| EventFeed.OvertakenEventIsMissed | voicebot/api_events.py:63-73 | A concrete overtaking run in which a retained event is never delivered. |
| EventLog.AcceptedExactly | voicebot/events.py:374-385 | A written event is accepted again if and only if its id is positive and no field is blank. |
| EventLog.RoundTrip | voicebot/events.py:244-251 | An event with trimmed fields reads back unchanged. |
| EventLog.ParsedExactly | voicebot/events.py:374-385 | A line yields an event if and only if it is an object with a positive id and no blank field; the event is what it says, without outer whitespace, and without data if it has none. |
| EventLog.MaxEventIdInJsonl | voicebot/events.py:357-371 | The result is zero or a valid id of the file, and no valid id exceeds it. |
| EventLog.LoadEvents | voicebot/events.py:289-317 | Every line is accounted for by exactly one counter, blank, malformed and invalid lines under their own, and the events are the loaded ones. |
| EventLog.LoadedExactly | voicebot/events.py:289-317 | Loaded are, in the order of the file, exactly the events that the first line with their id shows. |
| EventLog.LoadedOnce | voicebot/events.py:289-317 | Loading yields each valid id of the file exactly once. |
| EventLog.JsonEventStore.constructor | voicebot/events.py:255-273 | A process starts with the events of the file. |
| EventLog.JsonEventStore.AppendToLog | voicebot/events.py:319-333 | One line under the file lock, whose id exceeds every valid id in the file. |
| EventLog.JsonEventStore.Append | voicebot/events.py:275-278 | The log first, then the memory. |
| EventLog.WriteAdvances | voicebot/events.py:319-371 | An append is seen by the next scan exactly if its call id and type are not blank. |
| EventLog.ReadableIncrease | voicebot/events.py:319-333 | If every append but the last is readable, ids strictly increase over any interleaving of processes. |
| EventLog.IdsDistinctExactly | voicebot/events.py:319-385 | All ids given out are distinct if and only if every append but the last is readable. |
| EventLog.LogsAreAppends | voicebot/events.py:319-333 | However threads of any number of processes log and record, the file is that of its appends in turn, so the results on ids hold for every interleaving. |
| EventLog.FileStaysInOrder | voicebot/events.py:289-333 | A file in id order stays so, and loads in id order, whoever appends. |
| EventLog.MemoryOrderedExactly | voicebot/events.py:148-153 | Once a process has recorded all it logged, the events it retains are in id order if and only if the loaded ones among them are, and no retained append overtook another of its own between log and memory. |
| EventLog.OvertakenAppendReordersMemory | voicebot/events.py:275-278 | A concrete run of two threads of one process that leaves its memory out of order, unless it retains a single event. |
| DurableEvents.TranscriptStore.Append | voicebot/transcripts.py:14-27 | A line is added to the file of the call's safe name, unless it is a system event. |
| DurableEvents.SharedFileExactly | voicebot/transcripts.py:119-120 | Two call ids share a transcript file if and only if they are of one length and differ only where both have an underscore or a character that is no letter, digit or dash. |
| DurableEvents.PlainIdsAreApart | voicebot/transcripts.py:119-120 | Ids of letters, digits, dashes and underscores share a file only if they are equal. |
| DurableEvents.RecordAndTranscribe | voicebot/events.py:148-153 | Recording an event keeps every transcript file equal to what the whole history leaves in it. |
| DurableEvents.TranscriptStore.Read | voicebot/transcripts.py:29-34 | The file's lines after the cursor, in order. |
| DurableEvents.RawAfterExactly | voicebot/transcripts.py:29-34 | Those are exactly the lines with an id after the cursor, no id counting as zero. |
| DurableEvents.DurableCallEvents | voicebot/api.py:2073-2088 | With nothing recorded between its two steps: the merge of transcript and memory by id, memory winning, sorted and cut to the limit; if compaction is unseen, the first `limit` events of the merged transcript. |
| DurableEvents.FinishRead | voicebot/api.py:2082-2088 | The second step, for lines read from the transcript of any earlier part of the history: the merge of that past with what memory holds now. |
| DurableEvents.UpsertAllInOrder | voicebot/api.py:2073-2088 | The result is strictly increasing by id. |
| DurableEvents.TruncationUnseen | voicebot/api.py:2073-2088 | For a window in id order, cutting it to the limit before merging never shows, whatever the transcript holds; ReadIsMerged has windows in any order. |
| DurableEvents.CompactionUnseenExactly | voicebot/api.py:2073-2088 | Among events with different ids, recorded in whatever order, reads do not depend on how much is retained if and only if every event of the call but the last one recorded reads back as it was recorded, and the last one does too or no event of the call with a larger id came before it. |
| DurableEvents.ReadIsMerged | voicebot/api.py:2073-2088 | Then a read returns the first `limit` events of the whole history's transcript after the cursor, for every window bound. |
| DurableEvents.UntrimmedCallIsSeen | voicebot/events.py:374-385 | A call id with a space in front is a history for which compaction is seen. |
| DurableEvents.SystemReadIsWindow | voicebot/transcripts.py:14-16 | System events have no transcript: a read of them returns only what the window retains. |
| DurableEvents.OwnEventsExactly | voicebot/api.py:2073-2088 | Every read of a call returns exactly its own events if and only if compaction is unseen and nothing another call put into the file reads back. |
| DurableEvents.PlainCallsReadTheirOwn | voicebot/api.py:2073-2088 | If all call ids are of letters, digits, dashes and underscores, every read of a call that compaction may cut unseen returns exactly its own events. |
| DurableEvents.ForeignEventIsRead | voicebot/transcripts.py:119-120 | A concrete history in which a read of one call returns another call's event. |
| LateReads.LateReadExactly | voicebot/api.py:2073-2088 | Whatever was recorded between the two steps of a read, and in whatever order, a read with room for everything returns an event of the call after the cursor if and only if the transcript held it at the first step and it reads back, or memory holds it at the second. |
| LateReads.LateReadsOwnExactly | voicebot/api.py:2073-2088 | With ids in order, every such read, at every cursor and limit, returns exactly the first of the call's own events if and only if none was recorded and compacted between the steps, those in the transcript read back or are retained, and nothing another call put into the file reads back. |
| LateReads.EventBetweenStepsIsMissed | voicebot/api.py:2073-2088 | A concrete read that returns a later event and not an earlier one. |
| StreamText.SplitStableStreamText | agents/communication_agent.py:369-388 | The loop computes the recursive split, and ends. |
| StreamText.SplitExactly | agents/communication_agent.py:369-388 | A text is left alone exactly if it is shorter than a chunk and has no sentence end. Otherwise it is cut behind its last sentence end, or without one at the last space within a chunk, or at the chunk's end; what is before the cut is a chunk, unless blank up to a sentence end, and what is after it is split in turn. |
| StreamText.SplitKeepsText | agents/communication_agent.py:369-388 | Chunks followed by the leftover are the text once whitespace is erased. |
| StreamText.LeftoverIsShort | agents/communication_agent.py:369-388 | The leftover is shorter than a chunk and holds no sentence boundary. |
| StreamText.LoopEndsExactly | agents/communication_agent.py:369-388 | For any integer chunk size, the loop ends on a text if and only if the size is positive or what the size keeps of the text after its last boundary is blank: all of it for zero, its last so many characters for a negative size. |
| StreamText.SubmitStreamChunk | agents/communication_agent.py:391-403 | Blank chunks are skipped, others are posted stripped. |
| StreamText.StreamTurn | agents/communication_agent.py:300-331 | Over any stream of deltas what is submitted are the chunks made ready, each stripped and by itself, and at the end what is pending, blank ones left out: the deltas, once whitespace is erased. Any chunk made ready counts as streamed. A provider failure drops only what was pending, and is raised exactly if nothing counts as streamed. |
| StreamText.BlankReadyExactly | agents/communication_agent.py:369-388 | A blank text still counts as a streamed chunk if and only if it has no line break and is a chunk long. |
| AudioSocket.RecvExact | voicebot/audio.py:25-34 | Exactly `size` bytes however they are fragmented, or an error if and only if fewer are left. |
| AudioSocket.EncodedExactly | voicebot/audio.py:37-46 | A message is on the wire as its kind, the high and the low byte of its length, and its payload, and in no other way. |
| AudioSocket.ReadMessage | voicebot/audio.py:37-42 | One whole message, or an error if and only if the stream holds none. |
| AudioSocket.WriteMessage | voicebot/audio.py:45-46 | Type and length must fit their fields; the encoding is appended, so a stream carrying some messages then carries one more. |
| AudioSocket.ReadAll | voicebot/audio.py:25-42 | Reading to the end decodes the whole stream, for every fragmentation: a stream carrying some messages yields exactly those. |
| AudioSocket.RoundTrip | voicebot/audio.py:25-46 | Decoding any list of written messages yields exactly that list. |
| AudioSocket.CutStreamYieldsWholeMessages | voicebot/audio.py:25-46 | A stream cut anywhere yields exactly the messages that arrived whole. |
| BridgeSegmenter.Handle | sip_audiosocket_bridge.py:146-233 | The loop computes the greedy segmentation of all audio blocks before the end of the call, and the audio of its long enough utterances. |
| BridgeSegmenter.EndsExactly | sip_audiosocket_bridge.py:189-215 | An utterance of two blocks or more may end exactly if the quiet blocks at its end, the first block not counted, add up to the silence asked for, or all of them to the longest length. |
| BridgeSegmenter.AudibleExactly | sip_audiosocket_bridge.py:216-220 | Exactly the utterances of at least so many seconds, at 8000 samples each, are transcribed, in their order. |
| BridgeSegmenter.GreedyUnique | sip_audiosocket_bridge.py:146-233 | A block list has only one greedy segmentation. |
| BridgeSegmenter.SpansInOrder | sip_audiosocket_bridge.py:146-233 | Utterances are disjoint and in order. |
| MicSegmenter.TokenState.Bump | listen_transcribe_repeat.py:59-62 | The next token. |
| MicSegmenter.Wait | listen_transcribe_repeat.py:185-228 | Outside a recording: echo measured, tail skipped, recording started, or pre-roll kept. |
| MicSegmenter.Record | listen_transcribe_repeat.py:230-250 | Inside a recording: it ends at the first block it can. |
| MicSegmenter.ListenForever | listen_transcribe_repeat.py:143-253 | What is queued is exactly the long enough utterances of the greedy segmentation, with token, pre-roll and blocks; the pre-roll is the last blocks heard that were neither echo nor tail. |
| MicSegmenter.InterruptsExactly | listen_transcribe_repeat.py:186-192 | A level interrupts speech being played if and only if it reaches the start level and either the barge-in level or the measured echo by ratio and by margin. |
| MicSegmenter.StartsExactly | listen_transcribe_repeat.py:203-221 | A recording starts with a block if and only if it reaches the start level, interrupts if speech is being played, and reaches the barge-in level if an echo may linger. |
| MicSegmenter.EchoMovesExactly | listen_transcribe_repeat.py:203-205 | Only played speech that does not interrupt moves the measured echo, by a tenth of the way to its level. |
| MicSegmenter.HeardExactly | listen_transcribe_repeat.py:203-228 | Blocks heard while waiting are exactly those that are neither such an echo nor below the barge-in level in its tail. |
| MicSegmenter.PreRollExactly | listen_transcribe_repeat.py:223-227 | The pre-roll is the last so many of them, or all if there are fewer. |
| MicSegmenter.EndsExactly | listen_transcribe_repeat.py:229-239 | A recording of two blocks or more may end exactly if enough blocks at its end are quiet, the first one not counted, or it has the most allowed. |
| MicSegmenter.QueuedExactly | listen_transcribe_repeat.py:242-253 | Exactly the recordings that last long enough, pre-roll included, are queued, in order and each with its token. |
| MicSegmenter.GreedyUnique | listen_transcribe_repeat.py:143-253 | The blocks heard have only one greedy segmentation, pre-roll, echo level and tokens included. |
| MicSegmenter.UtteranceIsBounded | listen_transcribe_repeat.py:151-153 | No utterance exceeds pre-roll plus max(2, max_blocks) blocks, and it starts at the start level or above. |
| MicSegmenter.BlocksUsedOnce | listen_transcribe_repeat.py:179-253 | Over all utterances the blocks strictly increase: none is used twice. |
| MicSegmenter.TokensIncrease | listen_transcribe_repeat.py:54-66 | Tokens strictly increase. |
| Recording.TrimmingIsExact | voicebot/call_recording.py:126-133 | Trimming removes only sub-threshold samples at the two ends, and all of them. |
| Recording.QuietExactly | voicebot/call_recording.py:68-71 | Audio that is below the threshold throughout is quiet, and audio that reaches it throughout is not. |
| Recording.SpeechOnlyCallRecorder.AppendSpeech | voicebot/call_recording.py:59-85 | Speech is kept trimmed with its times; quiet audio changes nothing. |
| Recording.SpeechOnlyCallRecorder.Finalize | voicebot/call_recording.py:87-123 | The recording and its description are those of the coalesced segments sorted by start, with one rate exactly the audio of the sorted segments; a second call repeats the first result, and the segments are left holding what coalescing leaves in them. |
| Recording.CoalesceSegments | voicebot/call_recording.py:136-147 | The in-place loop returns the coalesced list, and what it leaves in the segment objects. |
| Recording.CoalescingKeepsAudio | voicebot/call_recording.py:136-147 | Coalescing neither loses nor moves a sample. |
| Recording.CoalescedExactly | voicebot/call_recording.py:136-156 | Coalescing cuts the segments into runs and joins each: a run goes on as long as the next segment has the same source, rate and metadata and begins at most 0.12 seconds after the end of what is joined, and not before it. |
| Recording.NothingLeftToMerge | voicebot/call_recording.py:136-156 | No two neighbours of the result can still merge. |
| Recording.CoalescingKeepsOrder | voicebot/call_recording.py:136-147 | Results stay sorted by start. |
| Recording.NothingRepeatedExactly | voicebot/call_recording.py:136-156 | The segment objects still hold exactly the segments appended if and only if no segment can be merged into the one before it; otherwise they hold more audio. |
| Recording.SecondRecordingExactly | voicebot/call_recording.py:87-147 | A recording of what the first left behind and any further segments, in whatever order, lasts as long as the audio appended if and only if the first merged nothing, and otherwise longer. |
| Recording.ObjectsRecordedAgain | voicebot/call_recording.py:87-147 | The same of the segment objects of a recorder after a first finalisation, sorted again with any segments appended since. |
| Recording.SortingIsStable | voicebot/call_recording.py:93 | Sorting permutes, orders by start and keeps equal starts in order. |
| Recording.TrackPlaysAtItsStart | voicebot/call_recording.py:94-106 | The k-th track is what plays from the sum of the earlier lengths on. |
| Recording.RecordingIsAllSpeech | voicebot/call_recording.py:87-147 | With one sample rate the recording is the in-order concatenation of the kept segments, whatever was merged. |
| Conversation.FirstMatch | voicebot/conversation_flow.py:150-152 | The first transition that matches, in listed order, or none if none does. |
| Conversation.StepAdvances | voicebot/conversation_flow.py:140-203 | A step of a validated flow succeeds if and only if every template it renders does; it then takes the first matching transition or stays, applies its updates and returns the planned actions rendered. |
| ConversationSteps.MatchesExactly | voicebot/conversation_flow.py:41-48 | A transition is hit if and only if it is on the event and, if it names texts, the event's text contains one of them in whatever case. |
| ConversationSteps.TextOfExactly | voicebot/conversation_flow.py:47 | The text of an event is its text as it stands, a number in decimal, a flag by its name, or empty if it has none. |
| ConversationSteps.StructuredStepExactly | voicebot/conversation_flow.py:140-167 | A structured conversation takes the first transition that the event hits: to its target, or nowhere if it names none, with its updates, asking for its action and on entering another state for that state's entry actions. If none is hit it stays and asks for the fallback. History and identity are kept. |
| ConversationSteps.FreeformStepExactly | voicebot/conversation_flow.py:169-182 | A freeform conversation stays where it is and asks the agent about transcripts only. |
| ConversationSteps.StartExactly | voicebot/conversation_flow.py:127-138 | It starts in the initial state, knowing nothing, with that state's entry actions. |
| ConversationSteps.ValidatedExactly | voicebot/conversation_flow.py:76-99 | A flow is accepted if and only if it has a name, one of two modes, a known initial state, states under their own names, and only actions and transitions that can be carried out. |
| ConversationSteps.DoableExactly | voicebot/conversation_flow.py:337-348 | Which actions those are. |
| ConversationSteps.TakeableExactly | voicebot/conversation_flow.py:351-355 | And which transitions. |
| Conversation.StepSupported | voicebot/conversation_flow.py:140-180 | A step that succeeds only asks for supported actions. |
| Conversation.EntryActionsLast | voicebot/conversation_flow.py:153-161 | A step that enters a state ends with its entry actions, rendered against the session after the step. |
| Conversation.RunsStayKnown | voicebot/conversation_flow.py:76-203 | For every validated flow and event sequence, the session the events lead to: no unknown state, one history entry per event, a chain of first matching transitions, data the fold of their updates, identity kept. |
| Conversation.RunReturnsExactly | voicebot/conversation_flow.py:127-203 | A run returns if and only if the initial entry actions and the planned actions of every step render, and then returns that session. |
| Conversation.ReplayReproduces | voicebot/conversation_flow.py:127-203 | Replaying the history of a returned session reproduces it; with another renderer the replay reproduces it or fails to render. |
| Conversation.MalformedTemplateFails | voicebot/conversation_flow.py:321-355 | A flow that validation accepts and that cannot start, because its greeting is a malformed template. |
| Conversation.SessionStateStore.Save | voicebot/conversation_flow.py:274-283 | Refused exactly when the call would move across workspaces, voicebots or flows; a refusal changes nothing. |
| Conversation.SessionStateStore.Delete | voicebot/conversation_flow.py:288-289 | Removes that call's session and says whether there was one. |
| Conversation.SaveHandled | voicebot/conversation_flow.py:274-283 | As long as each call keeps its flow, the store accepts every session the engine produces. |

## Left out

- RegrantNeedsExpiry: a release by anyone ends the hold, because the code does not check who releases a single id.
- ReloadKeepsRecord: for a bound not smaller than before; with a smaller one the floor rises, and SmallerReloadKeepsAnswers states what is kept.
- MemoryOrderedExactly: for appends that read back; IdsDistinctExactly says what happens to ids otherwise.
- CompactionUnseenExactly: for events with different ids; EventLog.IdsDistinctExactly says when the log gives an id out twice.
- SubmitResponse: the events the session logs during playback, which the response gate has.
- StepAdvances: what a template renders to, and which templates render, is a parameter; a step that fails leaves the caller with the session it had.
- SplitStableStreamText: for positive sizes; for others only whether the loop ends is modelled, not the chunks.
- StreamTurn: an error while a chunk is being submitted is not modelled, nor is the answer parsing after the loop.
- CompactLocked: the summary text that compaction accumulates; only which events remain is modelled.
- CallStateStore.Upsert: the timestamps of a stored call state.
- CallRegistryRuns: a snapshot carries the id its session was looked up under, so a session that takes its real id between lookup and snapshot is not modelled; ids are trimmed there, and CallRegistry has the others.
- LateReads.LateReadsOwnExactly: for ids in order; LateReadExactly has any order, with room for everything.
- Threads within one locked section, torn log lines, and two saves of one tracker that overlap: each locked section and each save with its operation is one step.
- In the response gate, taking an event's id and recording the event are one step, although EventFeed shows they are two; admission, the look at the recording flag, and the check-and-enqueue of a chunk are one step each; only the deferral waits are interleaved.
- Metrics and other instrumentation events of the gate appear as arbitrary other events; event payloads are reduced to the fields some step reads.
- `limit_spoken_response_text`, sentence-wise synthesis, echo tail, turn detection, turn coalescing, speculative turns and actors: their results are inputs.
- The tracker's `snapshot` view, and the waiting of a long poll.
- `replace_summary`, `context` and scoped appends of the event store.
- The bridge's packet sender cuts its queue as the playback buffer does; the barge-in player of the microphone loop is a pair of observed flags.
- `JsonCallStateStore` and call states left by earlier processes.
- Real-number levels and sample values instead of floating point; rounding of metadata; WAV encoding.
- `lower()` is ASCII only; which characters are letters or digits for `safe_name` is a parameter.
- Listing functions that only filter and sort (`snapshots`, `stored_snapshots`, flow and session lists): easy members.
- HTTP routing, dashboards, settings, and the calls to speech, language and telephony services.
