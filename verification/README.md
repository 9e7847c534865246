# Verified model of the dispatch broker

The dispatcher accepts speech jobs over HTTP, WebSocket and gRPC, routes each to a named pool of
persistent backend sessions, and returns the results on the job's own channel. This project models its
concurrent core in Dafny 4.11 and proves what that core guarantees over every interleaving:

- **The priority queue** (`PriorityQueue.dfy`): the binary heap with its sift loops, refined to a plain list
  kept in stable descending-priority order.
- **One pool** (`Workers.dfy`, `Pool.dfy`, `PoolSafety.dfy`, `PoolDrain.dfy`, `PoolTheorems.dfy`, `PoolRuns.dfy`): N workers, the
  queue's mutex and condition variable, submitters, `Drain` and cancellation, one atomic action of the source per
  step. `Workers.Goto` is the control flow of both worker loops; the rest of a step is read off the program
  counter it leaves. `PoolRuns.dfy` builds the runs, for any number of workers, that show where the drain guarantees
  end. `TtsWorker.dfy` is the TTS loop again as an imperative program over the heap, and shows that
  one turn of it is one trip through `Workers.Goto`.
- **One STT connection** (`SttSession.dfy`, `SttSafety.dfy`, `SttWire.dfy`, `SttTheorems.dfy`, `SttDelivery.dfy`,
  `SttStory.dfy`, `SttRuns.dfy`): the worker, the reader goroutine with its swapped callbacks, the per-job audio
  goroutine and the server. The theorems say what cannot happen, what must happen to every message and every job, and
  that one connection does serve any number of jobs. `SttOutcomes.dfy` says the same of the jobs' endings for a whole
  pool. `SttClient.dfy` is the client's
  `connected`/`listeningCh` life cycle as a class, tied to the steps of the session.
- **Routing** (`Routing.dfy`): `New`, `leastLoaded`, `isCongested`, `resolvePool` and `Submit` as a class over heaps,
  against a contract that fixes the route without saying how it is found.
- **One streaming client connection** (`Connections.dfy`, `ConnectionTheorems.dfy`, `Transports.dfy`, `Affinity.dfy`,
  `Handlers.dfy`): the WebSocket and gRPC handlers with their result goroutines, first as a step function, then as
  a class that keeps one job at a time as its invariant. The two differ in three places, marked by the transport.
- **Uploads** (`AudioPipe.dfy`): the audio feeder, the bounded channel and the broker's audio goroutine, and the
  transcript loop.
- **The two WAV scanners** (`Wav.dfy`): both loops over a moving file position, against specification functions, an
  encoder, and each other. Chunk layout and pad bytes follow chapter 2 (RIFF) of the IBM/Microsoft "Multimedia
  Programming Interface and Data Specifications 1.0".

`dafny verify dfyconfig.toml` checks the whole project.

## Assumptions

- Pool names are distinct and non-empty. `New` overwrites duplicates in `pools` but keeps both in `services`
  (internal/broker/broker.go:189-193).
- Each job has its own `ResultCh` of capacity at least 1, and its own `ReadyCh` or none. Sequences, queues and
  counters are unbounded. Two jobs are different values; for the streaming handlers that is
  `ConnectionTheorems.EachJobIsNew`.
- `container/heap` and `sync.Cond` are Go's standard library. `heap.Push` is append then sift up, `heap.Pop` is swap
  first and last, sift down, drop; `Cond.Wait` joins the waiters and releases the lock in one step; `Signal` wakes
  one waiter if there is one.
- Backend results, write failures, connection errors, timeouts, cancellation and client messages are events that
  may happen at any step.
- `SttTheorems.ResultsReachTheirOwnJob` assumes an honest server: it answers each start it may have seen with that
  session's results and errors and then exactly one listening message. The other STT theorems hold for any server.
- The connection theorems assume that `Submit` refuses every service but "stt" and "tts".
  `Affinity.BrokerRefusesUnknown` and `Affinity.BrokerRunIsRun` derive that for a broker that could start.

## Where the code and its documentation differ

The model follows the code.

- The comment on `ReadyCh` (internal/broker/broker.go:39) and README.md:61 say that it is closed when a session dequeues
  the job. It is closed later, after the wait for the server's listening state (internal/broker/broker.go:475-498).
- `Drain` (internal/broker/broker.go:221-231) is documented to wake all idle workers. Its broadcast does not hold the
  queue lock, so one worker per pool can miss it and sleep on: `PoolDrain.AtMostOneStraggler`,
  `PoolRuns.DrainCanStrandAWorker`, and exactly when in `PoolDrain.DrainOutcome`. A cancelled drain context only ends
  the wait; it does not force workers to exit.
- `dialSTT` (internal/broker/broker.go:340-359) never looks at the draining flag. An STT worker that decided to reconnect
  just before the flag keeps dialing an unreachable endpoint for as long as ctx lasts, so draining an STT pool can take
  for ever: `PoolDrain.DrainEnds` counts every other step, `PoolRuns.SttDrainCanDialForever` is the run.
- `jobActive` can stick at true: a job that finishes before its start reaches `Store(true)` leaves a connection that
  ignores every later start. `ConnectionTheorems.WedgedExactlyWhenOvertaken` says exactly when.
- The two streaming handlers are written as mirrors. They agree except that a WebSocket receives nothing once a job
  submitted without a session is done with: `Transports.TransportsAgree`, `Transports.ShortLivedConnectionsDiffer`.
- The deferred `closeAudio` closes the in-flight job's channel, as its comment says (internal/gateway/gateway.go:412).
  A job that had ended without a stop has lost it to the next start, and its channel stays open for ever:
  `ConnectionTheorems.AudioClosedExactly`, `ConnectionTheorems.OpenForever`.
- `readWAV` skips neither the pad byte of an odd fmt chunk nor less than 16 bytes of a short one, so the two scanners
  agree only for the fmt sizes `Wavs.ExactFmtSizes` names.

## Model

| member | source | states |
|---|---|---|
| PriorityQueues.EnqueueOrdered | internal/broker/broker.go:86-91 | inserting an item with a fresh sequence number keeps the list in strict dispatch order: priority descending, then push order |
| PriorityQueues.StableOrderIsStableSort | internal/broker/broker.go:86-91 | repeated insertion is the stable descending-priority sort |
| PriorityQueues.StableOrderCharacterised | internal/broker/broker.go:86-91 | a list is that order if and only if it is descending by priority and keeps, within each priority, exactly the items pushed, in push order |
| PriorityQueues.RootIsHead | internal/broker/broker.go:86-100 | in any heap-ordered array with the same items as an ordered list, the root is the list's head |
| PriorityQueues.PriorityQueue.constructor | internal/broker/broker.go:109-114 | a new queue is empty and valid |
| PriorityQueues.PriorityQueue.Swap | internal/broker/broker.go:92 | exchanges two items and permutes nothing else |
| PriorityQueues.PriorityQueue.Up | internal/broker/broker.go:93 | from one possibly misplaced appended item, restores heap order and permutes the items |
| PriorityQueues.PriorityQueue.Down | internal/broker/broker.go:94-100 | from one possibly misplaced root, restores heap order within the first n items, leaves the rest alone and permutes the items |
| PriorityQueues.PriorityQueue.Push | internal/broker/broker.go:117-122 | the heap now holds exactly the old items and the job with the next sequence number: the simple queue with the job inserted |
| PriorityQueues.PriorityQueue.RemoveRoot | internal/broker/broker.go:94-100 | removes the old root and nothing else, and keeps heap order |
| PriorityQueues.PriorityQueue.PopHead | internal/broker/broker.go:126-139 | returns the job of the highest-priority, earliest-pushed item and leaves the simple queue's tail |
| PriorityQueues.PriorityQueue.TryPop | internal/broker/broker.go:126-139 | the same in drain mode, with (zero, false) exactly when the queue is empty |
| PriorityQueues.PriorityQueue.Len | internal/broker/broker.go:142-146 | the depth of the simple queue |
| PriorityQueues.RunOps | internal/broker/broker.go:117-139 | over any mix of pushes and pops the heap answers exactly as the simple list does |
| PriorityQueues.EmptyOut | internal/broker/broker.go:126-139 | emptying the heap yields the simple queue front to back |
| PriorityQueues.HeapSort | internal/broker/broker.go:117-139 | pushing jobs and emptying the heap yields the stable descending-priority sort of the push order |
| Workers.GotoKeepsJob | internal/broker/broker.go:281-316 | outside pop a worker of either kind keeps the job in hand until the step that closes its ResultCh, and then holds none |
| PoolSafety.LockingStep | internal/broker/broker.go:126-139 | every step keeps mutual exclusion in pop, and the queue empty while a worker decides to give up or sleep |
| PoolSafety.SlotStep | internal/broker/broker.go:295-305 | every step keeps active and idle equal to the number of workers in the job and waiting phases |
| PoolSafety.OutcomeStep | internal/broker/broker.go:288-314 | every step keeps the outcome books balanced |
| PoolSafety.PlacesStep | internal/broker/broker.go:117-139 | every step keeps each pushed job queued or popped, each popped job held or closed, and none twice |
| PoolSafety.AnnounceStep | internal/broker/broker.go:472-498 | every step keeps ReadyCh closings distinct and behind a successful listening wait |
| PoolSafety.WakeStep | internal/broker/broker.go:117-139 | every step keeps: if a worker sleeps unsignalled, there are at least as many signalled workers as queued jobs |
| PoolTheorems.SlotAccounting | internal/broker/broker.go:433-470 | in every reachable state active and idle count their phases, are non-negative, sum to at most Conns, and are 0 once all workers have exited |
| PoolTheorems.CongestedMeansFull | internal/broker/broker.go:655-657 | in every reachable pool, the congestion test routing applies to its load holds if and only if every configured slot is processing a job and work is queued |
| PoolTheorems.NoLostWakeUp | internal/broker/broker.go:117-139 | if some worker sleeps unsignalled, the queue is no longer than the number of signalled workers that have not reacquired the lock |
| PoolTheorems.JobConservation | internal/broker/broker.go:602-612 | an accepted job is in exactly one place (queued, one worker, closed); it is popped at most once, its ResultCh closed at most once, and no two workers hold it |
| PoolSafety.DispatchStep | internal/broker/broker.go:117-139 | every step keeps the concurrent queue in dispatch order, each item being the push its number names |
| PoolTheorems.PopsInDispatchOrder | internal/broker/broker.go:117-139 | in every reachable state a pop takes the highest-priority queued job, and among those the one pushed first, and leaves the rest |
| PoolTheorems.RejectsExactlyWrongPayloads | internal/broker/broker.go:288-293 | on every run, past the type assertion a worker of either kind rejects its job if and only if the payload is not of its kind |
| PoolTheorems.ReadyOnceAndAfterListening | internal/broker/broker.go:472-498 | ReadyCh is closed at most once, only for a popped job whose listening wait succeeded |
| PoolTheorems.OutcomeAccounting | internal/broker/broker.go:555-593 | pushed = queued + held and undecided + completed + errors + wrong payload + the STT endings the code does not tally |
| PoolTheorems.TtsOutcomeAccounting | internal/broker/broker.go:288-314 | for TTS the last term is zero over every run |
| PoolTheorems.ExitsOnlyWhenEmpty | internal/broker/broker.go:126-139 | the step by which a TTS worker returns happens with its queue empty and the queue lock held, while draining or cancelled |
| PoolTheorems.ExitsOnlyWhenAsked | internal/broker/broker.go:365-371 | a worker of either kind returns only while the pool drains or ctx is cancelled |
| PoolTheorems.StoppedPopNeverWaits | internal/broker/broker.go:126-139 | once ctx is cancelled or the pool drains, a worker that saw the empty queue and has that check still ahead leaves pop with false before it can wait, on every run |
| PoolTheorems.BroadcastsSignalAll | internal/broker/broker.go:212-229 | either broadcast signals every sleeper and moves nobody else |
| PoolDrain.NilDrainLeavesOnlyLatePushes | internal/broker/broker.go:224-243 | once all TTS workers have exited, the closed jobs are exactly those pushed before the last empty check and the queued ones exactly those pushed after it |
| PoolDrain.NilDrainWithoutCancel | internal/broker/broker.go:224-243 | without cancellation, for a TTS pool and for an STT pool in which some pop returned false: each job left behind passed the draining check before the flag was set and was pushed after the last empty check; if no Submit was in between, nothing is left and every accepted job is closed |
| PoolDrain.OtherwiseExitsByDropping | internal/broker/broker.go:365-371 | in an uncancelled STT pool in which no pop has returned false, a worker exits only by quitting at a reconnect decision with the dropped flag set |
| SttOutcomes.RedialsOnlyAfterDrop | internal/broker/broker.go:453-594 | on every run the dropped flag means what it says: a worker on its way to dial again last saw a timeout, a dropped connection or a failed start, never a completed job |
| SttOutcomes.CountersByEnding | internal/broker/broker.go:555-593 | on every run completed counts exactly the jobs whose worker saw jobDone, errors those that saw a timeout or a drop in the select, and every other ending is silent |
| SttOutcomes.ReadyByEnding | internal/broker/broker.go:472-498 | on every run a closed job's ReadyCh was closed if and only if its worker got past the wait for the listening state |
| PoolDrain.RemainingShrinks | internal/broker/broker.go:281-371 | once the flag is set, every step of a worker or submitter decreases a measure, except a failed dial, which changes nothing |
| PoolDrain.DrainEnds | internal/broker/broker.go:281-371 | so the number of such steps, failed dials aside, is bounded in any continuation |
| PoolDrain.TtsNeverDials | internal/broker/broker.go:281-316 | a TTS pool has no failed dials, so there the bound has no exception |
| PoolRuns.SttDrainCanDialForever | internal/broker/broker.go:340-371 | for any n, a run in which an STT worker that reconnects as the flag is set fails n dials while draining and the pool stays as it was |
| PoolDrain.AtMostOneStraggler | internal/broker/broker.go:224-229 | after Drain's broadcast at most one worker of a pool sleeps: the one that had read draining as false and not yet waited |
| PoolDrain.DrainOutcome | internal/broker/broker.go:224-243 | when a drained TTS pool comes to rest no Submit is pending and either all workers have exited or the one sleeper is left with nothing queued; uncancelled and with no Submit in flight at the flag, all have exited if and only if no worker stood between its draining check and its wait at the broadcast |
| PoolRuns.DrainCanStrandAWorker | internal/broker/broker.go:224-229 | for any number of workers, a run in which one misses the broadcast, the others exit and only cancellation remains |
| PoolRuns.SttDrainCanLeaveJobs | internal/broker/broker.go:365-383 | for any number of workers and any jobs beyond one each, a run in which every worker exits after a dropped connection and all the other jobs stay queued, though no Submit was in flight at the flag |
| TtsWorkers.TtsPool.Serve | internal/broker/broker.go:288-314 | one job's effect on the counters and on ResultCh |
| TtsWorkers.TtsPool.RunWorker | internal/broker/broker.go:281-316 | one worker of a draining pool empties the heap and leaves the books of serving the simple queue front to back |
| TtsWorkers.BooksBalance | internal/broker/broker.go:288-314 | serving closes each job once, in order; completed and errors count the TTS jobs the backend answered and refused; active is back where it was |
| TtsWorkers.CountSorted | internal/broker/broker.go:117-139 | dispatch order does not change how many of the pushed jobs satisfy a predicate |
| TtsWorkers.FillAndDrain | internal/broker/broker.go:281-316 | a filled pool drained by one worker closes the jobs in the stable priority sort of their push order, and completed and errors count the pushed TTS jobs the backend answered and refused |
| TtsWorkers.TurnFollowsProgram | internal/broker/broker.go:281-316 | a turn of the imperative loop and a trip of the step-by-step program from a popped job back to pop have the same effect |
| SttSafety.SafeStep | internal/broker/broker.go:396-451 | every step of worker, reader, audio goroutine, submitter and server keeps the callback, channel and completion invariants |
| SttWire.SoundStep | internal/broker/broker.go:476-564 | every step also keeps the wire and handshake invariants |
| SttWire.TrackMeans | internal/stt/client.go:154-188 | what the small wire automaton accepts is exactly a prefix of (start chunk* stop)* with numbered starts, possibly followed by a close |
| SttTheorems.NoSendOnClosedChannel | internal/broker/broker.go:396-451 | in every interleaving nobody sends on or closes a closed ResultCh; an in-flight callback is counted by cbWg and its channel is open and its job still the worker's |
| SttTheorems.CompletedIsSound | internal/broker/broker.go:516-564 | a job counted completed had a final result sent on its ResultCh and its audio goroutine has finished |
| SttTheorems.WireAlternates | internal/broker/broker.go:476-564 | all writes attempted are whole rounds start chunk* stop and part of one more, then possibly a close; each start after the first follows the listening message for the one before |
| SttTheorems.NothingAfterClose | internal/stt/client.go:328-347 | once Close has cleared connected no step writes anything |
| SttTheorems.WorkerNeverBlocksOnItsOwnResult | internal/broker/broker.go:475-509 | the worker's own error result always finds room in ResultCh |
| SttTheorems.ClearCallbacksCannotDeadlock | internal/broker/broker.go:442-451 | while clearCallbacks waits, at most three reader steps, all possible even on a full ResultCh nobody reads, let it return |
| SttTheorems.JoinReaderCannotDeadlock | internal/broker/broker.go:453-484 | after cancelRead the wait for the reader ends within the steps of the message in hand and a failing read |
| SttTheorems.HonestStep | internal/stt/client.go:300-316 | with an honest server every step keeps the link between starts, listening messages, the captured channel and the wired callback |
| SttTheorems.ResultsReachTheirOwnJob | internal/broker/broker.go:511-537 | with an honest server every server result or error on a job's ResultCh answers that job's own start, the only one it has |
| SttDelivery.MessagesAreConserved | internal/stt/client.go:266-321 | for any server, in order: what was sent is what was read and what is unread; of what was read exactly the errors and the results with a text were handed on, each to the wired job's ResultCh, or skipped after its jobDone closed, or to no callback; and nothing else of the server's is on any ResultCh |
| SttDelivery.UnwiredOnlyBetweenJobs | internal/broker/broker.go:518-537 | callbacks are wired exactly from wiring to clearing, and to the job being served |
| SttDelivery.DeliveredInThreeSteps | internal/broker/broker.go:396-419 | while a job is served and its ResultCh has room, an error or a result with a text at the head of the inbox is on its ResultCh three reader steps later; a final one then lets the worker go on |
| SttDelivery.DropIsNoticed | internal/broker/broker.go:426-431 | a failed read reaches the worker's select or listening wait exactly unless the worker had cancelled the read; a normal closure never does |
| SttStory.EachJobsStory | internal/broker/broker.go:453-594 | on every run, of each closed job: the worker's own error result is on its ResultCh if and only if the connection was lost before the start or the start failed; it is completed if and only if its jobDone was seen; and which endings go with a written start |
| SttStory.CompletedJobKeepsConnection | internal/broker/broker.go:556-564 | right after a completed job's close the worker's only way on is to pop again, with nothing of the connection changed |
| SttRuns.OneConnectionServesMany | internal/broker/broker.go:453-564 | for any jobs, audio chunk counts and result texts there is a run on one connection, with an honest server, that completes them all in order, each on its own session, writes exactly one round each and is ready for the next |
| SttRuns.StopsStreaming | internal/broker/broker.go:541-553 | the end of the audio, or a chunk that could not be sent, leads to stop and to nothing else |
| SttTheorems.LateResultIsMisattributed | internal/broker/broker.go:396-419 | without that assumption attribution fails: a result of any other start that arrives while a job is served lands on that job's ResultCh |
| SttClients.Client.constructor | internal/stt/client.go:80-92 | a new client is not connected and has made no channel |
| SttClients.Client.Connect | internal/stt/client.go:105-151 | succeeds exactly when the handshake does and it was not connected; then the current channel is fresh and already closed |
| SttClients.Client.StartRecognition | internal/stt/client.go:154-188 | makes a fresh open channel before the write, on a connected client only; fails exactly when not connected or the write fails |
| SttClients.Client.SendAudioChunk | internal/stt/client.go:216-229 | attempts one write on a connected client and nothing otherwise |
| SttClients.Client.StopRecognition | internal/stt/client.go:232-251 | the same for the stop message |
| SttClients.Client.OnListening | internal/stt/client.go:300-316 | closes the current channel at most once |
| SttClients.Client.Close | internal/stt/client.go:328-347 | clears connected and writes one close frame, once |
| SttClients.SessionStarts | internal/broker/broker.go:500-513 | the session's two start steps are the client's StartRecognition |
| SttClients.SessionWrites | internal/broker/broker.go:541-553 | the audio goroutine's steps are SendAudioChunk and StopRecognition |
| SttClients.SessionHangsUp | internal/broker/broker.go:366-368 | the hang-up step is Close |
| SttClients.SessionHears | internal/stt/client.go:300-316 | the reader's three steps on a listening message are OnListening |
| Routing.FirstLeast | internal/broker/broker.go:659-671 | picks the first pool with the fewest busy sessions |
| Routing.RoutingContract | internal/broker/broker.go:614-652 | on one snapshot an answer meets the routing contract if and only if it is the broker's: warning exactly when a named pool was not used, auto-routes and fallbacks on the first least busy pool of the service, redirects only from a congested or missing pool |
| Routing.ResolveMeetsContract | internal/broker/broker.go:614-652 | the broker's answer meets that contract |
| Routing.ContractUnique | internal/broker/broker.go:614-652 | no two answers meet it |
| Routing.FindMeans | internal/broker/broker.go:625-638 | lookup by name finds a pool exactly when one is configured, and that pool |
| Routing.OfServiceMeans | internal/broker/broker.go:614-618 | a service is refused exactly when no configured pool has it |
| Routing.WireOne | internal/broker/broker.go:189-193 | adding a pool keeps the name and service indexes in agreement with the configured list |
| Routing.Pool.constructor | internal/broker/broker.go:190 | a new pool has an empty queue of its own and no busy session |
| Routing.Broker.constructor | internal/broker/broker.go:183-195 | New: the indexes agree with the configured list, in order, and every pool is idle |
| Routing.LeastActive | internal/broker/broker.go:664-669 | the loop returns the first least busy pool of the list |
| Routing.Broker.LeastLoaded | internal/broker/broker.go:659-671 | the pool it returns is the first least busy of the service, on the snapshot |
| Routing.Broker.CongestionOf | internal/broker/broker.go:655-657 | all sessions busy and work queued |
| Routing.Broker.ResolvePool | internal/broker/broker.go:614-652 | answers as specified on the snapshot and returns the pool it names |
| Routing.Broker.Submit | internal/broker/broker.go:602-612 | refuses while draining; otherwise the job joins exactly the routed pool's queue, at its place, and nothing else changes |
| Routing.BrokerMeetsContract | internal/broker/broker.go:602-652 | a broker's route meets the routing contract on its own snapshot |
| Connections.OneAtATimeStep | internal/gateway/gateway.go:448-560 | every step of either handler and its goroutines keeps: only the newest job is unsettled, and jobActive never understates that |
| Connections.AudioBooksStep | internal/gateway/gateway.go:472-506 | every step keeps curAudioCh and closeAudio tied to the newest job's channel |
| ConnectionTheorems.OneJobInFlight | internal/gateway/gateway.go:448-560 | at most one job is in flight, and a start reaches Submit only when every earlier ResultCh is closed and its Store(false) done |
| ConnectionTheorems.StartIgnored | internal/gateway/gateway.go:449-504 | a start reaches Submit if and only if no job is in flight, the connection is not wedged and it is not a speech request without text; otherwise it changes nothing, but that the last may open the session it asks for |
| ConnectionTheorems.AnswerOutcome | internal/gateway/gateway.go:486-498 | a refused Submit ends a connection without a session and no other; an accepted one records the job asked for with its answer |
| ConnectionTheorems.EachJobIsNew | internal/gateway/gateway.go:465-530 | accepted jobs are pairwise different, each with a ResultCh of its own with room; a known start submits the message's service, priority and payload, to the pool it names or else the sticky one |
| ConnectionTheorems.WedgedExactlyWhenOvertaken | internal/gateway/gateway.go:560-627 | jobActive is stuck at true if and only if some job's Store(false) came before the Store(true) of its own start |
| ConnectionTheorems.WedgedForever | internal/gateway/gateway.go:449-452 | a wedged connection stays wedged and never submits again |
| ConnectionTheorems.ConnectionCanWedge | internal/gateway/gateway.go:613-627 | on either transport any speech job that ends before its start does wedges a fresh connection |
| ConnectionTheorems.AudioGoesToTheJobInFlight | internal/gateway/gateway.go:432-439 | a frame joins the newest job's channel or none; that job is STT and in flight unless the connection is wedged; the send panics exactly when stop had closed that channel |
| ConnectionTheorems.StopClosesTheJobInFlight | internal/gateway/gateway.go:562-565 | stop closes the newest STT job's channel while the flag is set, and does nothing otherwise |
| ConnectionTheorems.ExitClosesAudio | internal/gateway/gateway.go:413-417 | however the handler ends, an STT job left in flight has its audio channel closed |
| ConnectionTheorems.AudioClosedExactly | internal/gateway/gateway.go:413-565 | an audio channel is closed if and only if a stop arrived while closeAudio closed it and the flag was set, or the handler returned with closeAudio still closing it |
| ConnectionTheorems.OpenForever | internal/gateway/gateway.go:474-506 | a channel not closed before a later start replaces closeAudio is never closed |
| Transports.AgreeStep | internal/grpcgateway/grpcgateway.go:239-351 | one step of both handlers keeps their states in agreement, with a session or without |
| Transports.TransportsAgree | internal/grpcgateway/grpcgateway.go:239-338 | a run is one of the WebSocket handler if and only if it is one of the gRPC handler that receives nothing once a job without a session is done with; after any such run both have the same accepted Submits, sticky pool, flag and audio |
| Transports.SessionsAgree | internal/grpcgateway/grpcgateway.go:239-338 | so, session-oriented from the first start, the two handlers have exactly the same runs |
| Transports.ShortLivedConnectionsDiffer | internal/gateway/gateway.go:635-640 | without a session, after any speech job WS is closed and gRPC accepts another start |
| Affinity.BrokerRefusesUnknown | internal/gateway/gateway.go:536-555 | a broker that could start answers every unknown service with an error |
| Affinity.BrokerRunIsRun | internal/gateway/gateway.go:536-555 | so every run against such a broker meets the assumption of the connection theorems |
| Affinity.AnswerIsNamed | internal/broker/broker.go:611 | an accepted Submit names a configured pool |
| Affinity.StickyIsTheFirstPool | internal/gateway/gateway.go:494-496 | the sticky pool is the pool of the session's first accepted Submit |
| Affinity.StickyNeverChanges | internal/gateway/gateway.go:494-496 | once set it never changes |
| Affinity.SoftAffinity | internal/gateway/gateway.go:460-496 | a later start naming no pool goes to the sticky pool with no warning, or that pool was congested and the job went to a different least busy pool of its service; "not found" cannot be answered |
| Affinity.LeavesItsService | internal/broker/broker.go:625-651 | where the service has a pool, a job is answered with a pool of another service if and only if it names such a pool and that pool is not congested |
| Handlers.StreamHandler.constructor | internal/gateway/gateway.go:406-411 | a new handler is idle with no job, session or audio channel |
| Handlers.StreamHandler.Serve | internal/gateway/gateway.go:420-642 | under any schedule of messages, answers and job ends the imperative handler keeps one job at a time and its audio variables on the newest; at the end the flag is stuck if and only if some Store(false) overtook its Store(true), and a channel is closed if and only if a stop or the handler's return closed it |
| AudioPipes.ChunksFlatten | internal/gateway/gateway.go:316-328 | the chunks put back together are the upload |
| AudioPipes.ChunkAt | internal/gateway/gateway.go:316-328 | chunk k is bytes 4096k up to the next multiple or the end |
| AudioPipes.FeedAudio | internal/gateway/gateway.go:309-329 | the feeder sends the upload's chunks in order, all of them unless cancelled first, and exactly the first n if cancelled at the n-th select |
| AudioPipes.Relay | internal/broker/broker.go:541-553 | the audio goroutine sends what it receives, in order, up to the first failed send |
| AudioPipes.Upload | internal/grpcgateway/grpcgateway.go:156-178 | feeder and goroutine in sequence deliver the upload up to the first cancellation or failure |
| AudioPipes.ConservedStep | internal/gateway/gateway.go:309-329 | every step of the two goroutines keeps the conservation invariant |
| AudioPipes.PipeConserves | internal/broker/broker.go:541-553 | wire + failed chunk + chunk in hand + channel + unread rest are the upload at every instant; chunks are 1 to 4096 bytes; the channel holds at most 64 |
| AudioPipes.WireIsAPrefix | internal/broker/broker.go:541-553 | the wire always holds a prefix of the upload, chunk by chunk |
| AudioPipes.WholeUploadAtStop | internal/broker/broker.go:550-552 | at stop the wire holds the whole upload if and only if no send failed and the feeder reached the end; neither cancellation nor failure is enough |
| AudioPipes.RunsAreBounded | internal/grpcgateway/grpcgateway.go:156-178 | no run of the pipeline is longer than a bound fixed by the upload |
| AudioPipes.RestExactly | internal/grpcgateway/grpcgateway.go:156-178 | the pipeline is at rest if and only if stop was sent or the audio goroutine never starts, and the feeder has returned or waits for ReadyCh or for room that will not come; cancelling frees it |
| AudioPipes.FeederReturns | internal/broker/broker.go:496-509 | at rest and uncancelled: after stop the feeder has returned if and only if no send failed or the rest fitted in the channel; when StartRecognition failed after ReadyCh was closed, if and only if the upload is at most 64 chunks |
| AudioPipes.FinalsConcatenate | internal/gateway/gateway.go:346-351 | the transcript of a concatenation is the concatenation of the transcripts |
| AudioPipes.FinalsOfOne | internal/gateway/gateway.go:346-351 | a final result contributes its text and anything else nothing |
| AudioPipes.InterimResultsDoNotCount | internal/gateway/gateway.go:346-351 | deleting every interim result leaves the transcript as it was |
| AudioPipes.Transcribe | internal/gateway/gateway.go:331-357 | the loop ends at the first close, error or deadline; it answers if and only if that is the close, with every final text before it in order and no interim one |
| Wavs.ReadFields | cmd/playground/main.go:575-580 | the six reads of a fmt chunk fill the header, keep a field that cannot be read in full, and move the position by at most 16 |
| Wavs.ReadWav | cmd/playground/main.go:538-604 | the whole function, its errors included, against the specification; the loop terminates |
| Wavs.ReadWavPcm | cmd/sttdebug/main.go:125-163 | the same for readWAVPCM |
| Wavs.ScannersAgree | cmd/playground/main.go:573-601 | on every byte string whose fmt chunks before the data chunk have good sizes, both return the same PCM or both fail |
| Wavs.FmtOkMeans | cmd/playground/main.go:581-583 | the good sizes are 15 and every even size from 16 |
| Wavs.ExactFmtSizes | cmd/playground/main.go:581-583 | for each size: the scanners agree on every file whose fmt chunks before the data chunk declare it if and only if it is good |
| Wavs.BadFmtSize | cmd/playground/main.go:581-583 | for every other size, the file on which readWAVPCM succeeds and readWAV finds no data chunk |
| Wavs.ScannersInvertTheEncoder | cmd/sttdebug/main.go:144-162 | on any odd-padded encoding of a chunk list readWAVPCM returns the first data payload or fails for lack of one; so does readWAV when the fmt sizes before it are good |
| Wavs.WavRoundTrip | cmd/playground/main.go:569-603 | an encoded header, with any even extension, and payload come back as they were written |
| Wavs.OnlyWaveFiles | cmd/sttdebug/main.go:132-143 | either scanner looks for chunks in exactly the files that begin with RIFF, four bytes and WAVE, and there fails only for lack of a data chunk |
| Wavs.TruncatedDataIsZeroFilled | cmd/sttdebug/main.go:152-155 | a data chunk cut short by the end of the file keeps its declared size: what is there, then zeros |

## Left out

- Network I/O, JSON, protobuf and YAML, gorilla and gRPC internals, TLS, metrics, logging and wall-clock time.
- `proto/`, `config/`, `internal/metrics`, `internal/tts` option defaults, error-code mapping and the CLI batch code: generated or single-branch facts.
- Routing.Broker.Submit: runs without interruption and reads one snapshot; the interleaving of its draining check and its push with `Drain` is in `Pools`, one pool at a time, and the reads of several pools' counters are not interleaved.
- PoolDrain.DrainOutcome: does not promise that `Drain` returns, because a sleeper that misses the broadcast can wait for good.
- PoolDrain.NilDrainWithoutCancel: for an STT pool asks that some pop returned false, since otherwise every worker can leave with work queued, as `PoolRuns.SttDrainCanLeaveJobs` shows.
- PoolDrain.DrainEnds: does not bound failed dials, which the code repeats without limit.
- TtsWorkers.TtsPool.RunWorker: is one worker without interference and without cancellation; `Pools` has the interleavings.
- Handlers.StreamHandler.Serve: takes its schedule as an argument, since a Dafny method cannot be interrupted; the actions of the result goroutines are part of the schedule.
- SttTheorems.JoinReaderCannotDeadlock: takes the read to fail once its deadline is set, and does not bound the messages a connection delivers before that.
- Affinity.LeavesItsService: states the code's behaviour; that every job runs in a pool of its own service is not a property of the code, since a named pool's service is not compared with the job's.
- Audio sent after stop on the same job: the documented order rules it out, and the model only says when it panics.
- Frames written to the client (ready, result, warning, done): separate goroutines write them, so their order is not fixed.
- Messages already buffered when a short-lived WebSocket is closed: the model receives none.
- The end of an STT job whose client never closes its audio: the completed path waits for the audio goroutine with no deadline.
- The second of two dials in a reconnecting STT worker: each connection is a session of its own; `Pools` models reconnection as a branch of the worker program.
- Heartbeats and the session registries.
- Chunk sizes of 2^32 bytes and the memory a declared size takes.
