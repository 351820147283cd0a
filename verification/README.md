# Paddler: verified models of dispatch, streaming, planning and download

Paddler balances inference requests over agents that run llama.cpp. This project
models the parts of it that carry a protocol or an algorithm, and proves what
those parts are for.

**Slot dispatch** (`Dispatch` and the `Dispatch*` modules). The balancer's pool,
its waiting requests and its buffer counter are one system of atomic steps: a
step is one atomic read, compare-and-swap, decrement, watch send or watch check.
Any number of requests and agents interleave, an agent scan reads one counter at
a time, and snapshots may be stale. A theorem about `Run(cfg, Initial, steps)`
is about every interleaving. The watch channel is a version counter, and every
receiver remembers the version it has seen. `AgentControllerPool` is the same
pool as the objects it is made of (`AgentControllers`), one call at a time, and
`LeastBusy` is the policy as plain numbers.

**One request** (`RequestLifecycle`). Waiting for an agent, handing over,
forwarding and draining the agent's stream, as a loop over polls of its event
sources. Sends and stops are logged in order, with whether they arrived.

**Embeddings** (`EmbeddingBatches`, `EmbeddingProcessor`). The greedy planner,
and the request processor that consumes its plan with decoding, sending and
stopping left to an environment.

**Download** (`Download`). A partial file over many attempts; every local
operation, the server's answer and each chunk may fail. Range requests follow
RFC 9110 (sections 14.2, 14.4, 15.3.7 and 15.5.17).

**Streams and mirrors** (`StatusMirror`, `SnapshotsStream`, `StatusSync`,
`InferenceSocket`, `Ndjson`). The agent's versioned status and the balancer's
copy of it, the watch-driven snapshot stream with torn reads, the composition of
the two, the Python client's websocket demultiplexer and the browser client's
line splitter.

## Where the code does less than one might expect

- Registering an agent id that is already present replaces the controller,
  returns an error and sends nothing. If the new controller has a free slot, a
  request that has already scanned past that id can fall asleep beside it, or
  sleep on. `DispatchStranding` proves exactly which registrations can lose a
  wakeup, now or later in the run: those with a free slot, made while no send is
  owed and some request that has read every send has passed the id empty-handed.
  The theorems hold for both readings of an owed send: `claims` says whether the
  send that a fresh claim has yet to make counts as one.
  `DispatchWakeup` shows that this is reachable and that the next write or send
  repairs it.
- A connection that closes removes whatever controller is registered under its
  id, even one that belongs to another connection with the same id.
- A controller is built with the `slots_processing` its agent reports
  (`ws_agent_socket/mod.rs:158`), and its guards move the counter from there.
  The counter equals the live guards exactly when the controller was built idle.
- The buffer's cap is checked before the counter is incremented. With W worker
  threads the counter can exceed the cap by W - 1, and for every cap and every W
  an interleaving reaches that.
- The agent's `version` wraps at the end of its 32-bit range. A snapshot that is
  b bumps ahead of the newest accepted one (0 < b < 2^32) is discarded exactly if
  the version has wrapped within those b bumps, and so is every later one until
  the version has gone all the way round. Issues change without a new version.
- In the Python client, sending a request id that is still in flight orphans the
  older stream: it is never closed, not even when the connection is lost. The
  shipped client draws its ids from `uuid4` (`client_inference.py:126`), so only a
  direct caller of `send` or `send_request` can do this.
- A download that was fetched completely but never renamed costs one failed
  attempt: the server answers 416, the partial file is removed, and the next
  attempt starts afresh.

## Model

| member | source | states |
|---|---|---|
| Dispatch.ApplyKeepsWellFormed | paddler_balancer/src/agent_controller_pool.rs:28-111 | every step of the system keeps tenancies distinct, references live and each request's guards consistent with where it stands |
| DispatchSlots.RunKeepsSlots | paddler_balancer/src/agent_controller_slot_guard.rs:24-29 | claims and drops move a counter exactly with its guards, and no stale or ABA snapshot takes it past a bound its totals respected, from any accounted state |
| DispatchSlots.SlotAccounting | paddler_balancer/src/agent_controller_pool.rs:28-82 | in every interleaving a controller's counter is its built value plus its live guards and stays within every bound its totals respected; it counts guards alone iff it was built idle |
| DispatchWakeup.ApplyKeepsWatching | paddler_balancer/src/buffered_request_manager.rs:60-71 | mid-scan invariant, kept by every step but a stranding registration: what an up-to-date waiter's scan has passed is still full, unless a writer still owes its send |
| DispatchWakeup.WakeupsAreNotLost | paddler_balancer/src/buffered_request_manager.rs:41-78 | no interleaving leaves a request parked up to date while an agent has room and no send is owed (with or without the sends of fresh claims), if every stranding registration in it has been followed by a write or a send; a free worker can then wake it (what it does then: ParkedRequestIsServed) |
| DispatchStranding.DuplicateRegistrationKeepsWakeupIff | paddler_balancer/src/agent_controller_pool.rs:89-101 | a duplicate registration leaves the guarantee in force over every continuation without a further stranding iff it brings no free slot, or a send is owed, or no up-to-date request has passed its place; for owed sends with and without those of fresh claims |
| DispatchStranding.StrandingLosesWakeup | paddler_balancer/src/agent_controller_pool.rs:94-100 | after a stranding registration, wherever the passing request is in its scan, some continuation in which no duplicate brings a free slot parks it beside a free agent; it consists of that request's own steps when the agents it has yet to visit are full |
| DispatchWakeup.WakeupLostByReconnect | paddler_balancer/src/agent_controller_pool.rs:94-100 | a reachable state in which a request is parked beside a free agent with nothing left to wake it |
| DispatchLifecycle.ParkedRequestIsServed | paddler_balancer/src/buffered_request_manager.rs:60-71 | the wakeup guarantee to its end: while an agent has room and no send is owed, a parked request can be woken, scans, takes a slot, leaves the buffer and finishes, and all else is as before |
| DispatchLifecycle.FreshScanClaims | paddler_balancer/src/buffered_request_manager.rs:43-71 | whoever starts a scan, by arriving, subscribing, waking, finding a version unread or losing a race, ends it undisturbed with a claim that succeeds if an agent has room; otherwise a newcomer is refused and a buffered request goes on waiting |
| DispatchLifecycle.ScanStartsAfresh | paddler_balancer/src/buffered_request_manager.rs:61-71 | a woken or re-polled request looks at every agent again, still counted, having read every send |
| DispatchLifecycle.NewcomerIsServed | paddler_balancer/src/buffered_request_manager.rs:41-48 | with room and a free worker a newcomer can be served to the end without entering the buffer |
| DispatchLifecycle.RunKeepsCounted | paddler_balancer/src/buffered_request_manager.rs:56-77 | over any run a buffered request stays counted unless it leaves with a slot or gives up |
| DispatchLifecycle.CountEndsOnly | paddler_balancer/src/buffered_request_count_guard.rs:17-21 | the count guard is dropped only by a request that owns a slot or gives up |
| DispatchLifecycle.RequestEndsIff | paddler_balancer/src/buffered_request_manager.rs:50-77 | a request ends as overflow iff it finds the buffer full, as given up iff it gives up, as finished iff it has announced its release |
| DispatchLifecycle.RunNeverGoesBack | paddler_balancer/src/buffered_request_manager.rs:41-78 | over any run a request never returns to an earlier stage, and once done it stays so |
| DispatchLifecycle.OneSlotPerRequest | paddler_balancer/src/agent_controller_slot_guard.rs:24-29 | in every interleaving a request claims at most one slot, gives back exactly what it claimed, and has finished only after both |
| DispatchLifecycle.RequestCanMove | paddler_balancer/src/buffered_request_manager.rs:41-78 | no request is ever stuck: given a free worker it has a step to take |
| DispatchHistory.RegistryFollowsHistory | paddler_balancer/src/agent_controller_pool.rs:89-111 | in every run an id is listed under the controller its last registration brought unless removed since, and a controller has the slots last reported |
| DispatchHistory.RunSendsAsTold | paddler_balancer/src/agent_controller_pool.rs:94-115 | the channel's version counts the sends, and the sends owed are the owing writes less the updates sent |
| DispatchBuffer.BufferOvershoot | paddler_balancer/src/buffered_request_manager.rs:50-58 | in every interleaving the counter equals the live count guards, is 0 when buffering is disabled and is at most the cap plus workers minus 1 |
| DispatchBuffer.OvershootIsReached | paddler_balancer/src/buffered_request_counter.rs:22-40 | for every cap and worker count that bound is reached, so it is exact |
| DispatchProgress.RetriesAreBounded | paddler_balancer/src/agent_controller_pool.rs:74-82 | each failed compare-and-swap is paid for by a distinct claim or release, by another request, on a controller whose count it had read |
| DispatchProgress.UndisturbedClaimSucceeds | paddler_balancer/src/agent_controller_pool.rs:51-71 | with no claim or release on a controller it has read, a request never fails, and its compare-and-swap takes the slot |
| DispatchProgress.UndisturbedScanSelectsLeastBusy | paddler_balancer/src/agent_controller_pool.rs:28-49 | an undisturbed scan, in any map order, finds a candidate iff some agent has room, and it is a least busy one whose claim succeeds |
| DispatchBurst.BurstIsServed | paddler_tests/tests/agent_controller_pool_distributes_concurrent_dispatch_evenly_across_idle_agents.rs:49-53 | in every interleaving of concurrent callers on an idle pool, none is refused while capacity covers them all |
| DispatchBurst.BurstFillsEveryAgent | paddler_tests/tests/agent_controller_pool_distributes_concurrent_dispatch_evenly_across_idle_agents.rs:55-62 | once as many concurrent callers as there are slots own one, every agent is exactly full |
| DispatchBalance.ClaimIsLeastBusyTake | paddler_balancer/src/agent_controller_pool.rs:28-82 | a compare-and-swap that succeeds in a burst takes a slot of an agent that is least busy with room at that moment, however stale the scan behind it |
| DispatchBalance.BurstIsLeastBusyHistory | paddler_balancer/src/agent_controller_pool.rs:74-82 | in every interleaving of concurrent callers on an idle pool, the slots taken are in order those of a history of least-busy takes, one for each caller served |
| DispatchBalance.BurstStaysBalanced | paddler_tests/tests/agent_controller_pool_distributes_concurrent_dispatch_evenly_across_idle_agents.rs:8-65 | concurrent callers load the agents evenly at every moment: two agents never differ by more than one unless the lighter is full |
| DispatchBalance.BurstMinimizesMaximumLoad | paddler_tests/tests/agent_controller_pool_distributes_concurrent_dispatch_evenly_across_idle_agents.rs:8-65 | no placement of as many requests as have been served, within the capacities, has a smaller maximum load |
| DispatchBalance.BurstRefusesOnlyWhenFull | paddler_balancer/src/agent_controller_pool.rs:74-82 | a concurrent caller is refused only when every agent is full |
| DispatchBalance.RunKeepsOneToOne | paddler_balancer/src/agent_controller_pool.rs:89-101 | in every run from a pool without shared controllers no two ids come to share one |
| LeastBusy.LoadsStayBalanced | paddler_balancer/src/agent_controller_pool.rs:28-49 | after any takes from an idle pool two agents differ by at most 1 unless the lighter is full |
| LeastBusy.TakesMinimizeMaximumLoad | paddler_balancer/src/agent_controller_pool.rs:28-82 | no placement of as many requests within the capacities has a smaller maximum load |
| AgentControllerPool.AgentControllerPool.SelectLeastBusyWithCapacity | paddler_balancer/src/agent_controller_pool.rs:28-49 | finds nothing iff every agent is full; otherwise a registered least busy agent with room and its current count |
| AgentControllerPool.AgentControllerPool.TryClaim | paddler_balancer/src/agent_controller_pool.rs:51-71 | claims iff the snapshot is current; then one slot more on that agent alone, and one send |
| AgentControllerPool.AgentControllerPool.TakeLeastBusyAgentController | paddler_balancer/src/agent_controller_pool.rs:74-82 | fails iff every agent is full, changing nothing; otherwise one slot of a least busy agent is taken, no other load or capacity moves, and one send is made |
| AgentControllerPool.AgentControllerPool.RegisterAgentController | paddler_balancer/src/agent_controller_pool.rs:89-101 | loads and capacities change at the id alone and ids keep distinct controllers; a full pool gains room iff the new controller has some, and only a new id is announced |
| AgentControllerPool.Connection | paddler_balancer/src/management_service/http_route/api/ws_agent_socket/agent_socket_controller_context.rs:23-34 | a connection that registers and closes leaves the pool as it was iff its id was new; otherwise the agent of an earlier connection is gone too |
| AgentControllerPool.DispatchAndRelease | paddler_balancer/src/agent_controller_slot_guard.rs:24-29 | dropping the guard undoes the take: every load and capacity is as before, with one send for the claim and one for the release, iff some agent had room |
| AgentControllerPool.DispatchToIdlePool | paddler_balancer/src/agent_controller_pool.rs:74-82 | takes on an idle pool leave the loads of a history of least-busy choices, to which balance and optimality apply; one is refused only when all agents are full |
| RequestLifecycle.ForwardResponsesStream | paddler_balancer/src/request_from_agent.rs:91-250 | items go to the client in order until the first reason to end, then the farewell of that reason; draining sends nothing, receives every ready item and ends at the first shutdown, closed connection, timeout, closed channel or terminal item, with that exit; at most items received plus 2 iterations |
| RequestLifecycle.EndedIsAnswered | paddler_balancer/src/request_from_agent.rs:109-249 | ended forwarding has delivered a prefix of the stream and at most one closing message, at most one stop, and nothing after the stop |
| RequestLifecycle.WaitForAgentController | paddler_balancer/src/request_from_agent.rs:313-393 | shutdown takes priority, then cancellation; a failed wait sends exactly one error with the code of its cause, a cancelled one sends nothing |
| RequestLifecycle.RequestFromAgent | paddler_balancer/src/request_from_agent.rs:29-89 | the client receives exactly the items ready before the first poll that gives a reason to end, then the closing message of that poll (503, 502, 504, the terminal item or none), with the stop and exit that go with it; an undisturbed stream arrives whole without a stop; a failed wait or setup sends its one error; at most one stop, last. The slot is given back where the guard goes out of scope, at every return and nowhere else; that part is by construction |
| RequestLifecycle.EndedIsReported | paddler_balancer/src/request_from_agent.rs:120-247 | each code, stop and exit of forwarding by the poll that ends it |
| RequestLifecycle.CutIsUnique | paddler_balancer/src/request_from_agent.rs:111-249 | where forwarding ends, and after how many items, is determined by the stream and the polls |
| RequestLifecycle.SmoothIsDelivered | paddler_balancer/src/request_from_agent.rs:196-236 | a stream that nothing disturbs up to its terminal item reaches the client whole, with no stop |
| EmbeddingBatches.PlanEmbeddingBatches | paddler_agent/src/plan_embedding_batches.rs:4-34 | the loop computes the greedy plan: each batch extended as far as both caps allow |
| EmbeddingBatches.PlanIsSaturated | paddler_agent/src/plan_embedding_batches.rs:14-31 | the ranges tile the documents in order, each fits the caps or is one document, and none could have taken one more |
| EmbeddingBatches.PlanIsOptimal | paddler_agent/src/plan_embedding_batches.rs:14-31 | no split into contiguous non-empty batches that fit has fewer batches, for any caps |
| EmbeddingBatches.OneBatchIff | paddler_agent/src/plan_embedding_batches.rs:15-31 | one batch is planned iff there is a single document or all together are within n_batch tokens and the sequence cap |
| EmbeddingBatches.BatchCountBound | paddler_agent/src/plan_embedding_batches.rs:14-31 | N documents and T tokens need at most N/m + 2T/n_batch + 1 batches |
| EmbeddingProcessor.FillBatch | paddler_agent/src/continuous_batch_embedding_processor.rs:125-136 | the llama batch takes the documents, numbered from 0, iff they fit beside what it already holds and no sequence is refused for another reason |
| EmbeddingProcessor.EmbeddingBatchDecode | paddler_agent/src/continuous_batch_embedding_processor.rs:157-193 | each document gets the embedding of its own tokens, in order, and the batch is left empty for the next one; a failure leaves a prefix |
| EmbeddingProcessor.RunBatches | paddler_agent/src/continuous_batch_embedding_processor.rs:118-146 | a stop before batch k leaves exactly the embeddings of the first k batches; the one reused llama batch is never overfilled, and what is decoded is the planned batch, within n_batch tokens, under distinct ids, below the slot count when that is at least 1 |
| EmbeddingProcessor.ProcessEmbeddingBatch | paddler_agent/src/continuous_batch_embedding_processor.rs:39-155 | whatever fails, what was sent is a prefix of the reference stream; on success it is all of it, and nothing failing means success |
| EmbeddingProcessor.EveryDocumentIsAnsweredOnce | paddler_agent/src/continuous_batch_embedding_processor.rs:86-154 | without a stop the messages before the closing one are, as a multiset, one embedding or one oversize report per document |
| EmbeddingOrder.StreamInOrder | paddler_agent/src/continuous_batch_embedding_processor.rs:86-154 | the stream is the oversize reports in input order, then the embeddings of the documents that fit in input order (under a stop, a prefix of them), then one closing message, told by positions in the input |
| EmbeddingOrder.SeparatedInOrder | paddler_agent/src/continuous_batch_embedding_processor.rs:86-108 | the documents kept are exactly those of at most n_batch tokens and the reports exactly those of the others, each in input order |
| EmbeddingProcessor.StreamClosesOnce | paddler_agent/src/continuous_batch_embedding_processor.rs:148-152 | exactly one terminal message, in last place; it is Done iff something was embedded |
| Download.PartialFile.Finalize | paddler_download_manager/src/partial_file.rs:61-63 | the partial file becomes the final one, or nothing changes |
| Download.PartialFile.Remove | paddler_download_manager/src/partial_file.rs:65-71 | a missing file counts as removed |
| Download.StreamToPartialFile | paddler_download_manager/src/stream_to_partial_file.rs:14-50 | appends and reports exactly the chunks before the first failure, cancellation or end; flushes on completion and cancellation only, where a failed flush counts as a failed write and may lose the last bytes |
| Download.AttemptDownload | paddler_download_manager/src/download_manager.rs:127-232 | files, outcome and progress of an attempt, for every answer of server and disk, equal the reference the theorems below are about |
| DownloadOutcomes.UntakenAnswers | paddler_download_manager/src/response_classification.rs:17-46 | every answer whose body is not taken leaves the files alone with the outcome of its class (404, 401 and 403, other 4xx, everything else, no answer, cancelled), except that a 416 or a misplaced 206 discards the partial file |
| DownloadOutcomes.TakenAnswers | paddler_download_manager/src/download_manager.rs:170-231 | an attempt that takes the body announces its start, adds the chunks to the right bytes, reports each, and completes, is cancelled, interrupted or fails as body, flush and disk tell |
| DownloadOutcomes.BodyIsTakenInOrder | paddler_download_manager/src/stream_to_partial_file.rs:24-42 | event by event, chunks are added and reported in order up to the first event that is not one |
| DownloadOutcomes.BytesAreKeptUnless | paddler_download_manager/src/download_manager.rs:160-192 | without completing, an attempt loses the partial file only after a 416 or a misplaced 206, and shortens it only when a range was answered with the whole file |
| Download.AttemptKeepsConsistent | paddler_download_manager/src/download_manager.rs:155-231 | one attempt keeps the partial file a prefix of the remote bytes; the final file changes only on completion and then equals them |
| Download.DownloadsRebuildRemote | paddler_download_manager/src/download_manager.rs:127-232 | over any sequence of attempts the partial file stays a prefix, and the final file appears iff some attempt completes, equal to the remote bytes |
| Download.ProgressMatchesFile | paddler_download_manager/src/download_manager.rs:195-229 | the announced offset plus the reported chunks is the size of the file plus what a failed flush lost, and at most that when a chunk could not be written |
| Download.HonestAttempt | paddler_download_manager/src/response_classification.rs:17-46 | an honest, uninterrupted attempt completes, or meets 416 only on a fully fetched file, which it discards |
| Download.RecoversInTwoAttempts | paddler_download_manager/src/download_manager.rs:134-198 | two honest attempts complete the download from any reachable partial file |
| StatusMirror.SlotAggregatedStatus.RegisterIssue | paddler_agent/src/slot_aggregated_status.rs:97-101 | a new issue is added and announced under the old version |
| StatusMirror.SlotAggregatedStatus.SetDownloadStatus | paddler_agent/src/slot_aggregated_status.rs:131-141 | the four download fields change together with one version bump; an unknown total reads 0 and indeterminate |
| StatusMirror.SlotAggregatedStatus.ResetDownload | paddler_agent/src/slot_aggregated_status.rs:122-129 | the download fields are cleared and the version is bumped twice |
| StatusMirror.SlotAggregatedStatus.Reset | paddler_agent/src/slot_aggregated_status.rs:113-120 | issues, model path and slot counts are cleared and the version is bumped twice |
| AgentControllers.AgentController.UpdateFromSlotAggregatedStatusSnapshot | paddler_balancer/src/agent_controller.rs:136-210 | an older snapshot changes nothing, any other is copied field by field, with a rate that moved by at most 0.01 kept; a change is reported iff a mirrored field changed, and slots_processing is never touched |
| StatusMirror.MirrorIsLatest | paddler_balancer/src/agent_controller.rs:154-179 | in any delivery order the mirror is the last delivered snapshot of the greatest version |
| StatusMirror.LatestIsUnique | paddler_balancer/src/agent_controller.rs:156-160 | that snapshot is determined by the deliveries alone |
| StatusMirror.InOrderDeliveryCatchesUpIff | paddler_agent/src/slot_aggregated_status.rs:62-175 | snapshots sent in order, however many states are skipped between them, always leave the mirror at the last one sent iff no step of the history wraps the version |
| StatusMirror.BumpsAreDiscardedIff | paddler_messaging/src/atomic_value.rs:60-62 | a snapshot b bumps ahead of the newest one (0 < b < 2^32) is discarded iff the version wraps within those b bumps |
| StatusMirror.DiscardedUntilWrappedRound | paddler_balancer/src/agent_controller.rs:154-160 | after a wrap every snapshot is discarded until the version has gone all the way round |
| SnapshotsStream.ParkedStreamIsFresh | paddler_balancer/src/snapshots_stream.rs:20-36 | in every interleaving with writers a parked stream can be woken, awaits a writer's send, failed to make its last snapshot, or has last yielded the current state |
| SnapshotsStream.NoticedChangeYields | paddler_balancer/src/snapshots_stream.rs:22-34 | a change that is noticed leads to a new snapshot before the loop waits again, unless the snapshot fails or the loop is shut down |
| SnapshotsStream.EndsOnlyByShutDown | paddler_balancer/src/snapshots_stream.rs:28-35 | the loop ends only when it is shut down |
| SnapshotsStream.SendsAreAsTold | paddler_balancer/src/snapshots_stream.rs:20-30 | every writer that has entered owes one send and every send is seen |
| SnapshotsStream.CellsAreAsWritten | paddler_balancer/src/snapshots_stream.rs:23-26 | the producer's cells are what the writers last made of them |
| StatusSync.MirrorCatchesUp | paddler_agent/src/management_socket_client_service.rs:388-442 | torn reads, merged updates, a ticker and the version check together: when the sender is parked the mirror is the agent's present status, unless it can be woken, a writer owes its send, or its ticker has a first or failed snapshot to make up for, while no write wraps the version |
| InferenceSocket.InferenceSocketConnection.SendRequest | paddler_client_python/paddler_client/inference_socket_connection.py:68-80 | a connected send lists a fresh queue under the id; a disconnected one is refused and changes nothing |
| InferenceSocket.InferenceSocketConnection.DispatchMessage | paddler_client_python/paddler_client/inference_socket_connection.py:100-123 | a message, or a parse error that names a non-empty id, goes with its own payload to the queue of its id alone, which is unlisted if that closes it; any other frame changes nothing |
| InferenceSocket.InferenceSocketConnection.PushParseErrorToPending | paddler_client_python/paddler_client/inference_socket_connection.py:148-173 | an unparsable frame closes the request it names, if it names one by a non-empty id |
| InferenceSocket.InferenceSocketConnection.DrainPending | paddler_client_python/paddler_client/inference_socket_connection.py:175-181 | every listed queue gets exactly one exception and none stays listed, in any dictionary order |
| InferenceSocket.ResponseStream.GetNext | paddler_client_python/paddler_client/inference_socket_connection.py:32-45 | yields the queue in order, raises its exceptions and stops for good after the closing item |
| InferenceSocket.StreamReceivesItsOwn | paddler_client_python/paddler_client/inference_socket_connection.py:100-181 | for any interleaving of requests, frames and loop ends a queue gains exactly its own frames up to the closing one, or one exception |
| InferenceSocket.ExpectedFrameByFrame | paddler_client_python/paddler_client/inference_socket_connection.py:100-173 | what a stream is expected to receive, told by the frames: the payload of each that names it, in order, up to the first event that ends it |
| InferenceSocket.SentRequestReceivesItsOwn | paddler_client_python/paddler_client/inference_socket_connection.py:68-80 | from its send on, a new stream holds precisely what it is expected to receive |
| InferenceSocket.PendingExactlyWhileOpen | paddler_client_python/paddler_client/inference_socket_connection.py:77-123 | a queue is listed iff it holds no closing item and its id was not sent again meanwhile; in the latter case it is never closed |
| InferenceSocket.ReusedIdOrphansTheFirstStream | paddler_client_python/paddler_client/inference_socket_connection.py:76-80 | sending an id twice in a row leaves the first stream empty and open over every continuation, while the second receives all that is expected |
| InferenceSocket.EndedReaderHasReadAll | paddler_client_python/paddler_client/inference_socket_connection.py:32-45 | a reader that has met a closing item has left nothing unread |
| Ndjson.TakeLines | paddler_client_javascript/src/streamHttpNdjson.ts:50-72 | taking the complete lines out of the buffer leaves the decoding of the whole text unchanged, whatever text follows |
| Ndjson.StreamHttpNdjson | paddler_client_javascript/src/streamHttpNdjson.ts:39-90 | for every cut into chunks, values and first failing line are those of the whole text split at newlines, trimmed and parsed |
| Ndjson.TrimIsSlice | paddler_client_javascript/src/streamHttpNdjson.ts:53 | trimming keeps everything from the first to the last character that is not white space |
| Ndjson.TrimIsTheSlice | paddler_client_javascript/src/streamHttpNdjson.ts:75 | and there is only one such slice |
| Ndjson.LinesMakeText | paddler_client_javascript/src/streamHttpNdjson.ts:50-72 | the lines, with newlines between them, are the text, and none holds a newline |
| Ndjson.DecodedInOrder | paddler_client_javascript/src/streamHttpNdjson.ts:52-69 | lines are decoded one after another until one fails: a blank one gives nothing, any other its value after those before it |

## Left out

- WakeupsAreNotLost: excludes runs that end with a stranding registration no write or send has followed, because the guarantee is false for them; DuplicateRegistrationKeepsWakeupIff gives the exact condition.
- MirrorCatchesUp: excludes a version that wraps, for which BumpsAreDiscardedIff says what is lost, and takes the connection to deliver in order.
- DispatchToIdlePool: covers calls made one after another, on the objects themselves; BurstIsLeastBusyHistory covers concurrent callers in every interleaving.
- StrandingLosesWakeup: a running scan holds the read lock of the map shard it is in, so a registration in that shard waits; the model has no shards, and the registrations in a losing run, or the stranding one at the agent being read, include some that the lock would delay.
- DuplicateRegistrationKeepsWakeupIff: likewise counts registrations that the shard lock would delay until the scan has left the shard; a request that is polling or parked holds no lock.
- Weak memory: all the atomics involved are sequentially consistent, so steps interleave.
- 32-bit overflow of slot and buffer counters, and `usize` overflow of token sums: unbounded integers stand for them.
- The buffered request manager's own update channel, which only feeds monitoring, and the error of a watch receiver whose sender is gone (the pool outlives its waiters).
- Starvation among waiters: a woken request competes with newcomers, and the code promises no order.
- Clocks: the buffer timeout, the item timeout and cancellation are events that may happen at any await point.
- UpdateFromSlotAggregatedStatusSnapshot: one call at a time; two concurrent updates of one controller, whose field writes could mix, are not modelled.
- The agent's slots_processing against its live slot guards: `reset` zeroes it without regard to them.
- The rate meter of the agent and floating-point rounding: rates are reals.
- Tokenizing, decoding, normalising and the llama batch's internals: an environment decides which calls succeed, and an embedding is identified by the tokens it came from.
- StreamToPartialFile: a failed write leaves a prefix of its chunk in the file; buffering inside the asynchronous file and crashes of the machine are not modelled.
- The mapping of attempt errors to download errors, disk-full detection, cache locking and URL parsing: one-branch facts around the attempt.
- A remote file that changes between attempts: the server is taken to hold one byte string, as the code checks only where a 206 body starts.
- StreamHttpNdjson: UTF-8 decoding, JSON parsing with schema validation (both inside the parser parameter) and the path of an aborted signal.
- Reconnecting the Python socket, its write queue, and binary frames, which are ignored.
- One-shot metadata and template requests, HTTP and websocket endpoints, CLI, GUI, metrics, the continuous batch scheduler.
