# Verification of the Lenso Bun adapter

A Dafny 4.11 model of the bounded, concurrent protocols between the Rust host and its Bun child processes,
with proofs over every run. Threads and `await` points are steps of a state machine at the granularity of the
source's locks, atomic accesses and suspension points (the last section lists where several of them are one
step); the theorems hold in every state such a machine can reach. Objects that the source updates in place are
classes, and each method's contract ties its new state to the functions the machines are made of.
`dafny verify dfyconfig.toml` checks everything.

| module | models |
|---|---|
| `Common`, `Runs`, `OpenLog` | shared declarations; runs of a step system, invariants, reachability and bounded work; what is open by a history of openings and closings |
| `StreamSend`, `StreamReceive`, `StreamClosing`, `StreamOverlap`, `StreamCredit`, `StreamEnds` | the stream protocol: client session, provider entry and a reordering network between them |
| `ProviderEvents` | the provider's event queue and its worker threads |
| `EventTickets`, `EventBound` | the host's ticket queues, and their composition with the transport's event registry |
| `TerminalArbitration`, `ProcessSession` | the race of cancel, deadline and response, and the session that depends on it |
| `DataSlots` | the Process V1 listener's slot hand-off |
| `RetiredIds` | bounded memory of finished ids, and the provider's cancellation registry |
| `FramedTransport`, `JsonRpcRegistry`, `JsonRpcSteps`, `JsonRpcFates` | the call registries of the two transports; the JSON-RPC one split at its locks, and what becomes of its calls |
| `ServerAdmission` | admission permits of requests and streams |
| `ProcessDeath` | death notification of a child |
| `EmbeddedWorker` | the embedded worker's command queue and shutdown |
| `AuthoringChild` | admission and counters of the Authoring V2 child |
| `StaticEvaluator`, `EvaluatorOverlap` | the static declaration evaluator, alone and with arguments evaluated together |
| `BoundedLine` | the bounded line reader |

Where a property that one might expect does not hold of the code, the model keeps the code, shows a reachable
state in which it fails and proves when it holds:

- A reply that arrives between the two locks of a framed cancellation is taken for a protocol violation
  (`FramedTransport.LateReplyTolerated`, `ReplyDuringCancelViolates`).
- The receive handler clears its guard before it retires the stream, so the event grammar depends on receives
  not overlapping (`StreamReceive.OverlappingReceivesBreakGrammar`, `StreamOverlap.GrammarExactly`,
  `TwoFoundCanBreak`).
- The client's copy of the send credit can exceed the grant when sends overlap
  (`StreamCredit.OverlappingSendsExceedGrant`, `ExcessExactly`, `SerialCreditBounded`).
- An accepted send reports the grant less what other sends hold at that moment, which can be less than the
  grant (`StreamCredit.AcceptanceReportsLess`; `CreditConserved` in `StreamSend.SendSafety`).
- Zeroing the event counter after a failed thread spawn is exact only when no worker is mid-event
  (`ProviderEvents.AbortConservesExactlyWhenIdle`, `FailedSpawnLosesCount`).
- A JSON-RPC call's flag and sender are removed under two locks. A publication future dropped in between leaves
  its registry entry behind, and a later publication can be refused for capacity because of it
  (`EventBound.RefusalReachable`, `LeftBehindExactly`, `OrphanRefusesNext`; it never happens without such a drop,
  `KeptFlagsNeverRefuse`). A reused id can meet its own earlier call (`JsonRpcSteps.DuplicateReachable`,
  `DuplicateExactly`), and a `fail_all` that overlaps an admission leaves a call without a flag or a flag without
  a call (`JsonRpcSteps.BareReachable`, `TornReachable`, `QuiescentAgreement`, `CarefulHostAgrees`).
- Overlapping stream opens can take the open streams of an Authoring V2 child, or those it opens at its host,
  over `max_unfinished_executions` (`AuthoringChild.StreamsCanExceedLimit`, `OutboundStreamsCanExceedLimit`,
  `ExceedsExactly`, `OutboundExceedsExactly`, `ConsiderateStaysWithin`).
- Arguments of one declaration call share the set of active symbols, so two that name one constant can be refused
  as a cycle (`EvaluatorOverlap.SharedConstantRefused`, `RefusedExactly`); what is returned is never wrong
  (`InterferenceOnlyRefuses`).

## Model

| member | source | states |
|---|---|---|
| `StreamSend.SendSafety` | crates/lenso-bun-adapter/src/server.rs:978-1038 | In every reachable state of the composed client, provider and reordering network: outstanding sequence numbers are distinct and were handed out; a rollback never goes below what the provider counted; sequences 0, 1, 2, ... are accepted once each and in order; a send that returned Ok is in the accept log at its own sequence, after every send that had returned Ok when it was issued; provider credit, holds and losses add up to the grant |
| `StreamSend.AcceptedForever` | crates/lenso-bun-adapter/src/server.rs:1020-1028 | In every run the accept log only grows and an Ok result is never taken back |
| `StreamSend.GuardNeverFires` | crates/lenso-bun-adapter/src/server.rs:985-996 | With this client, a send past the provider's checks never finds `send_in_flight` set |
| `StreamClosing.ShutAcceptsNoNew` | crates/lenso-bun-adapter/src/server.rs:981-985 | In every run, as long as the provider's entry stays half-closed, terminal or cancelled, its log grows by nothing but the one send, if any, that was past its checks before |
| `StreamCredit.SerialCreditBounded` | crates/lenso-bun-adapter/src/transport/stream_session.rs:222-233 | With one send at a time, the client's credit never exceeds the grant |
| `StreamCredit.OverlappingSendsExceedGrant` | crates/lenso-bun-adapter/src/transport/stream_session.rs:82-108 | With two overlapping sends the client's credit can exceed the grant: the store of the reported credit and the rollback's increment add up to three of two (a reachable state) |
| `StreamCredit.ExcessExactly` | crates/lenso-bun-adapter/src/transport/stream_session.rs:221-247 | In every reachable state, with any number of sends outstanding: a step takes the client's credit over the grant if and only if it rolls back the outstanding send with the last sequence number while the credit is at the grant; storing a reported credit never does |
| `StreamCredit.AcceptThenRefuseExceeds` | crates/lenso-bun-adapter/src/transport/stream_session.rs:221-247 | From any state where one send's acceptance reports the whole grant while the last other one is still to be submitted, settling the one and refusing the other exceeds the grant |
| `StreamCredit.AcceptanceReportsLess` | crates/lenso-bun-adapter/src/server.rs:1019-1027 | An accepted send can report less than the grant: the next one is charged between its sequence step and the return of its credit (a reachable state) |
| `StreamReceive.ReceiveSafety` | crates/lenso-bun-adapter/src/transport/stream_session.rs:250-347 | For every provider behaviour, emitted and delivered events are Message(0), Message(1), ..., at most one half-close, at most one end and nothing after it; delivered is emitted less at most one event in transit; no violation branch of the client is taken |
| `StreamReceive.EmittedIsTranslated` | crates/lenso-bun-adapter/src/server.rs:1047-1107 | In every interleaving the emitted events are the translation of what the provider's stream returned, defined on the sequence of its returns alone: the n-th message as Message(n), the half-close, the terminal, a fatal event for a failure that may not be retried or a return out of turn, nothing for a failure that may be retried |
| `StreamReceive.RetiredExactlyAtEnd` | crates/lenso-bun-adapter/src/server.rs:1081-1106 | Composed with the client, a reply retires a stream that nobody cancelled if and only if the last return ended it; between receives the entry is retired if and only if it was cancelled or some return ended it |
| `StreamReceive.ProduceSays` | crates/lenso-bun-adapter/src/server.rs:1047-1080 | One return after any others: the handler says what it means there and records it |
| `StreamReceive.ProduceKeepsGrammar` | crates/lenso-bun-adapter/src/server.rs:1039-1107 | Whatever the provider's stream returns, the handler's event continues the grammar, and an event that ends it retires the stream |
| `StreamReceive.ConsumeAccepts` | crates/lenso-bun-adapter/src/transport/stream_session.rs:289-335 | An event that continues the grammar takes no violation branch and leaves the client matching the longer log |
| `StreamReceive.ViolatedExactly` | crates/lenso-bun-adapter/src/transport/stream_session.rs:289-335 | The client takes a violation branch for an event if and only if the event does not continue the grammar |
| `StreamReceive.GuardExactly` | crates/lenso-bun-adapter/src/transport/stream_session.rs:250-347 | In every reachable state the client's `receive_in_flight` is set if and only if a receive is under way, and it has seen a terminal if and only if the last delivered event is one |
| `StreamReceive.OverlappingReceivesBreakGrammar` | crates/lenso-bun-adapter/src/server.rs:1081-1106 | Without the client's one-at-a-time guard the handler can emit after the end: it clears `receive_in_flight` before it retires the stream (a reachable state) |
| `StreamOverlap.GrammarExactly` | crates/lenso-bun-adapter/src/server.rs:1040-1106 | In every interleaving, overlapping receives included: the emitted events follow the grammar if and only if no call whose claim succeeded after the log had ended has emitted an event |
| `StreamOverlap.TwoFoundCanBreak` | crates/lenso-bun-adapter/src/server.rs:1039-1106 | From any reachable state in which the log is open and two receives are past the lookup, some run breaks the grammar |
| `StreamOverlap.EveryRunTraced` | crates/lenso-bun-adapter/src/server.rs:1039-1106 | The history that `GrammarExactly` speaks of adds nothing: every run of the receive machine has it |
| `StreamEnds.ServeAlone` | crates/lenso-bun-adapter/src/server.rs:978-1038 | The provider's six atomic steps without interruption amount to the one-call specification `Serve`: outcome, sequence, credit and cancellation |
| `StreamEnds.ReceiveAlone` | crates/lenso-bun-adapter/src/server.rs:1039-1107 | The receive handler's five atomic steps without interruption amount to the one-call specification `ServeReceive`, refusals included |
| `StreamEnds.FlagsAreFree` | crates/lenso-bun-adapter/src/server.rs:978-1107 | What the other operations do to the flags that sends and receives share is a step of the sending model, at either end: any half-close and terminal, and at the provider a cancellation that stays |
| `StreamEnds.ProviderStreamEntry.HandleSend` | crates/lenso-bun-adapter/src/server.rs:978-1038 | Over the entry's fields: a send is accepted, exhausted or failed exactly as stated, fails without change on a half-closed, terminal or cancelled entry or out of sequence, advances the sequence exactly when accepted, and costs a credit exactly when it cancels; the same as `Serve` |
| `StreamEnds.ProviderStreamEntry.HandleReceive` | crates/lenso-bun-adapter/src/server.rs:1039-1107 | Over the entry's fields: no stream exactly when cancelled, exhausted exactly when guarded or the failure may be retried, fatal exactly on a failure that may not or a return out of turn, cancelled exactly by a terminal or fatal event; the same as `ServeReceive`; of the sending fields only the two shared flags may change |
| `StreamEnds.ProviderStreamEntry.HandleCloseSend` | crates/lenso-bun-adapter/src/server.rs:1108-1131 | Accepted and refused exactly as stated; afterwards the peer is half-closed if it was, or if the entry was open and the outcome is not a refusal that may be retried; cancelled exactly by a fatal answer |
| `StreamEnds.TransportStreamSession.BeginSend` | crates/lenso-bun-adapter/src/transport/stream_session.rs:147-185 | One credit and the next sequence number are taken together, or nothing changes but perhaps one more credit waiter; violation exactly on half-close, terminal or cancellation |
| `StreamEnds.TransportStreamSession.RestoreRejectedSend` | crates/lenso-bun-adapter/src/transport/stream_session.rs:82-108 | The rollback succeeds, restores one credit and wakes every waiter exactly when no later sequence number was taken |
| `StreamEnds.TransportStreamSession.SettleSend` | crates/lenso-bun-adapter/src/transport/stream_session.rs:221-247 | An accepted send stores the reported credit and wakes every waiter, an exhausted one rolls back and wakes them exactly if that succeeds, a failed one changes nothing |
| `StreamEnds.TransportStreamSession.RegisterCreditWaiter` | crates/lenso-bun-adapter/src/transport/stream_session.rs:110-143 | A waiter is registered only without credit on a live stream and below 64 waiters; each refusal has its exact condition |
| `StreamEnds.TransportStreamSession.WakeCreditWaiters` | crates/lenso-bun-adapter/src/transport/stream_session.rs:70-80 | Every registered waiter is woken once, in order, and none is left |
| `StreamEnds.TransportStreamSession.BeginReceive` | crates/lenso-bun-adapter/src/transport/stream_session.rs:250-270 | A receive starts exactly when none is in flight on a live stream |
| `StreamEnds.TransportStreamSession.SettleReceive` | crates/lenso-bun-adapter/src/transport/stream_session.rs:289-346 | The response is consumed as `Consume` says and the guard is cleared; the first terminal wakes every waiting sender, nothing else does, and the sending fields stay |
| `StreamEnds.TransportStreamSession.Cancel` | crates/lenso-bun-adapter/src/transport/stream_session.rs:400-406 | The first cancellation wakes every waiting sender; later ones change nothing |
| `ProviderEvents.QueueSafety` | crates/lenso-bun-adapter/src/server.rs:325-400 | In every interleaving of enqueuers and overlapping workers: admitted is queued plus in processing and within capacity; events are handed out once each in enqueue order; a nonempty queue has a live worker |
| `ProviderEvents.AdmittedExactly` | crates/lenso-bun-adapter/src/server.rs:325-340 | In every reachable state an event is admitted, behind the others, if and only if fewer than the capacity are queued or in processing; a worker is started exactly when none is draining |
| `ProviderEvents.EventsDrain` | crates/lenso-bun-adapter/src/server.rs:372-400 | From any reachable state, however the workers are scheduled, they take a bounded number of steps, and when none is left every enqueued event has been handed out, in order |
| `ProviderEvents.WorkBoundsRun` | crates/lenso-bun-adapter/src/server.rs:372-400 | Every worker step uses up a measure, so a run of worker steps is no longer than it |
| `ProviderEvents.AbortConservesExactlyWhenIdle` | crates/lenso-bun-adapter/src/server.rs:362-369 | After a failed spawn, zeroing the counter keeps admission exact if and only if no worker is mid-event |
| `ProviderEvents.FailedSpawnLosesCount` | crates/lenso-bun-adapter/src/server.rs:362-369 | A worker that cannot be spawned beside one that is mid-event is reachable, and the counter then loses that event |
| `ProviderEvents.ProviderEventQueue.TryEnqueue` | crates/lenso-bun-adapter/src/server.rs:325-340 | Refuses without change when full; otherwise appends, counts, and asks for a worker exactly when none was draining |
| `ProviderEvents.ProviderEventQueue.Pop` | crates/lenso-bun-adapter/src/server.rs:342-349 | Hands out the oldest event, or says there is none |
| `ProviderEvents.ProviderEventQueue.Complete` | crates/lenso-bun-adapter/src/server.rs:351-360 | Returns one admission and clears the draining flag exactly when the queue is empty |
| `ProviderEvents.ProviderEventQueue.Abort` | crates/lenso-bun-adapter/src/server.rs:362-369 | Drops the whole queue and zeroes the counters |
| `EventTickets.TicketSafety` | crates/lenso-bun-adapter/src/adapter.rs:672-740 | Over all runs with permits dropped at any point and at most 2^64 acquisitions: live permits are exactly the serving ticket and the waiters, `active` is their number and within capacity; only the serving permit can be started and its turn has come; permits start in acquisition order; the early return of release is never taken |
| `EventTickets.OneStarted` | crates/lenso-bun-adapter/src/adapter.rs:719-740 | At most one live permit of a queue is started |
| `EventTickets.WaiterUnresolved` | crates/lenso-bun-adapter/src/adapter.rs:672-694 | The turn of a permit that is not being served has not come |
| `EventTickets.StaysStarted` | crates/lenso-bun-adapter/src/adapter.rs:719-740 | A started permit stays live and started until it is dropped itself |
| `EventTickets.BunEventQueue.TryAcquire` | crates/lenso-bun-adapter/src/adapter.rs:672-694 | Refuses without change at capacity; otherwise takes the next ticket, and waits exactly when somebody is being served |
| `EventTickets.BunEventQueue.Release` | crates/lenso-bun-adapter/src/adapter.rs:696-716 | Gives the turn to the longest waiter when the serving ticket leaves, or removes exactly the leaving waiter |
| `EventBound.LeftBehindExactly` | crates/lenso-bun-adapter/src/transport/json_rpc.rs:835-857 | In every reachable state, for reused ids and with `fail_all`: a step leaves an entry behind if and only if it drops a waiting call on the JSON-RPC wire that still has its entry while its flag is gone, which is where `cancel` returns early |
| `EventBound.KeptFlagsNeverRefuse` | crates/lenso-bun-adapter/src/transport/json_rpc.rs:770-793 | If no step is such a drop, nothing is ever left behind and no publication is refused for capacity, on either wire, for reused ids and with `fail_all` |
| `EventBound.PatientHostNeverRefused` | crates/lenso-bun-adapter/src/adapter.rs:831-880 | A host that drops no publication future before its answer never sees the refusal |
| `EventBound.OrphanRefusesNext` | crates/lenso-bun-adapter/src/transport/json_rpc.rs:770-793 | From every reachable state with a full registry, such a drop can have the next publication of its queue refused |
| `EventBound.OrphansExactlyWhileFinishing` | crates/lenso-bun-adapter/src/transport/json_rpc.rs:899-916 | With ids that are not used again and before any `fail_all`, the drop of a call that waits under its entry leaves the entry behind if and only if the worker's `finish` of this call is between its two locks |
| `EventBound.OnlyLeftoverRefuses` | crates/lenso-bun-adapter/src/adapter.rs:369-373 | In every run the live entries leave room for a publication, so only entries left behind can have it refused |
| `EventBound.FramedNeverRefuses` | crates/lenso-bun-adapter/src/transport/framed.rs:283-334 | A framed drop takes its entry with it: nothing is ever left behind, and no run takes the event registry's capacity refusal |
| `EventBound.LeftoverExplained` | crates/lenso-bun-adapter/src/transport/json_rpc.rs:835-916 | With ids that are not used again, an entry outlives its call only on the JSON-RPC wire, while the worker's `finish` is between its two locks or after a `fail_all` has begun |
| `EventBound.RefusalReachable` | crates/lenso-bun-adapter/src/transport/json_rpc.rs:899-916 | The refusal is reachable on the JSON-RPC wire with fresh ids and a living process: the second publication of a queue finds the entry of the first, dropped while its `finish` was between the locks |
| `EventBound.FlagsBelong` | crates/lenso-bun-adapter/src/transport/json_rpc.rs:759-833 | With ids that are not used again and before any `fail_all`, every flag belongs to a publication that holds its call and is on its way to its entry or waiting under it |
| `EventBound.EntriesExactly` | crates/lenso-bun-adapter/src/transport/json_rpc.rs:770-833 | In every run the event registry holds exactly the publications that were entered, with their id new there and room for them, and have not been taken out since |
| `EventBound.FlaggedIsRefused` | crates/lenso-bun-adapter/src/transport/json_rpc.rs:757-769 | A publication whose id has a flag is refused and changes nothing; any other goes on, over JSON-RPC with its flag set |
| `EventBound.OperationsAlone` | crates/lenso-bun-adapter/src/transport/json_rpc.rs:770-962 | Without interruption a `finish` takes the flag and the entry of its id and no other, a `fail_all` takes all, and a publication the channel refuses leaves neither |
| `EventBound.RoomForCaller` | crates/lenso-bun-adapter/src/adapter.rs:855-880 | A publication that has not entered the registry leaves room for itself among the live entries |
| `EventBound.NoLarger` | crates/lenso-bun-adapter/src/adapter.rs:369-373 | The registry sized to the number of queues holds one entry per queue: a set mapped one-to-one into another is no larger |
| `TerminalArbitration.ArbiterSafety` | crates/lenso-bun-adapter/src/process_v1/terminal.rs:62-157 | Over all runs: active and retired are disjoint, together exactly the admitted ids; no id is admitted twice or given two terminals; terminals never exceed the maximum |
| `TerminalArbitration.RetiredForever` | crates/lenso-bun-adapter/src/process_v1/terminal.rs:143-157 | A retired kind never changes and is never evicted |
| `TerminalArbitration.DeadlineDecides` | crates/lenso-bun-adapter/src/process_v1/terminal.rs:98-141 | Over all runs, with the deadline an id was admitted with and the operation that committed it: a response is committed exactly by a response before the deadline, a deadline by a response or an expiry at or after it, a cancellation by a cancellation |
| `TerminalArbitration.AnswerDecided` | crates/lenso-bun-adapter/src/process_v1/terminal.rs:98-141 | With room, the answer for an active id that is not marked is decided by the comparison of instant and deadline, and the id is retired with that kind |
| `TerminalArbitration.RefusedExactly` | crates/lenso-bun-adapter/src/process_v1/terminal.rs:62-157 | Every error and every empty answer has its exact condition: an id used again, unknown or retired, or no room; such an operation retires nothing |
| `TerminalArbitration.NeverLateCancel` | crates/lenso-bun-adapter/src/process_v1/terminal.rs:98-141 | `respond` and `expire` never report a cancellation: a mark survives only when the retired map is full |
| `TerminalArbitration.TerminalArbiter.AdmitId` | crates/lenso-bun-adapter/src/process_v1/terminal.rs:62-81 | The in-place admission is `Admit`: reuse and capacity refusals change nothing |
| `TerminalArbitration.TerminalArbiter.CancelId` | crates/lenso-bun-adapter/src/process_v1/terminal.rs:83-96 | The in-place cancellation is `Cancel`: nothing for an unknown or retired id, else mark and commit |
| `TerminalArbitration.TerminalArbiter.RespondId` | crates/lenso-bun-adapter/src/process_v1/terminal.rs:98-116 | The in-place response is `Respond`, whose answers `AnswerDecided` and `RefusedExactly` fix: a mark, then the deadline, then the response decides |
| `TerminalArbitration.TerminalArbiter.ExpireId` | crates/lenso-bun-adapter/src/process_v1/terminal.rs:118-141 | The in-place expiry is `Expire`: nothing before the deadline |
| `TerminalArbitration.TerminalArbiter.CommitId` | crates/lenso-bun-adapter/src/process_v1/terminal.rs:143-157 | The in-place commit is `Commit`: one active id moves to retired, or an error and no change |
| `ProcessSession.SessionSafety` | crates/lenso-bun-adapter/src/process_v1/client.rs:136-296 | In every interleaving of requests, cancellations, deadlines and failures: a request that returned success or cancellation has its id retired with that kind; an id retired with a response belongs to a request that returned success; the process group is killed at most once |
| `ProcessSession.SettleDecides` | crates/lenso-bun-adapter/src/process_v1/client.rs:263-295 | In every reachable state, with room, a valid response succeeds if and only if the clock is before the request's deadline and times out otherwise; if a cancellation retired the id, the cancellation is reported |
| `ProcessSession.StepDecides` | crates/lenso-bun-adapter/src/process_v1/client.rs:195-262 | In every reachable state: time is up exactly at the deadline; a lost connection is a timeout, a protocol failure or a transport failure under exact conditions; an invalid response is a protocol failure |
| `ProcessSession.StartDecides` | crates/lenso-bun-adapter/src/process_v1/client.rs:136-195 | In every reachable state a request is admitted with its deadline if and only if its id is neither active nor retired and the arbiter has room, and is a protocol failure otherwise; a cancellation retires an active id as cancelled when there is room |
| `ProcessSession.GivenUpExactly` | crates/lenso-bun-adapter/src/process_v1/client.rs:215-296 | A step gives the child up and closes the session if and only if it is one of the five listed failures; the session accepts requests exactly as long as it has its child |
| `ProcessSession.ExpireSays` | crates/lenso-bun-adapter/src/process_v1/client.rs:221-235 | On an id that is active or was cancelled, a deadline that `expire` reports is retired as one, and otherwise nothing changes |
| `ProcessSession.RespondSays` | crates/lenso-bun-adapter/src/process_v1/client.rs:263-295 | A response or deadline that `respond` reports is retired as such, an error changes nothing, and the arm for a late cancellation is dead |
| `DataSlots.SlotSafety` | packages/lenso-bun-plugin/src/process-v1.ts:240-325 | In every interleaving: running is the number of slot holders and within the limit; waiters exist only at the limit; active ids are exactly holders and waiters; waiters get slots in arrival order, one per release; no id reaches a provider twice; no request is denied a slot after its checks; remembered ids stay within max_retired - 1 + max_concurrent + queue capacity |
| `DataSlots.NeverDenied` | packages/lenso-bun-plugin/src/process-v1.ts:612-627 | The `!acquired` branch is not reachable |
| `DataSlots.AdmittedExactly` | packages/lenso-bun-plugin/src/process-v1.ts:234-300 | In every reachable state a request is admitted if and only if the listener accepts, the id was never seen, its provider is known, the retired ids leave room and a slot or a place in the queue is free; it starts at once exactly when a slot is free |
| `DataSlots.AcceptingStep` | packages/lenso-bun-plugin/src/process-v1.ts:234-325 | The listener stops accepting if and only if the step is a shutdown, a request used again, unknown or one too many to remember, an invalid payload or a failed request |
| `DataSlots.ClosedForever` | packages/lenso-bun-plugin/src/process-v1.ts:234-247 | From then on, in every run, no id is admitted, none is queued, and only requests admitted before reach a provider |
| `DataSlots.CancelledNeverInvoked` | packages/lenso-bun-plugin/src/process-v1.ts:301-325 | A request cancelled, or caught by a shutdown, before it resumes never reaches its provider |
| `DataSlots.ProcessV1Server.Arrive` | packages/lenso-bun-plugin/src/process-v1.ts:234-300 | The listener's checks in order, on the closure variables, with the exact verdict and new state |
| `DataSlots.ProcessV1Server.AcquireDataSlot` | packages/lenso-bun-plugin/src/process-v1.ts:612-627 | Takes a free slot, queues, or refuses when the queue is full |
| `DataSlots.ProcessV1Server.Finish` | packages/lenso-bun-plugin/src/process-v1.ts:315-325 | The finished id is retired and its slot goes straight to the longest waiter, or back to the pool |
| `RetiredIds.RegistryIsLargest` | crates/lenso-bun-adapter/src/server.rs:1325-1333 | After remembering distinct ids, the set is exactly the newest and the limit - 1 largest of the others |
| `RetiredIds.IncreasingKeepsLast` | crates/lenso-bun-adapter/src/transport/mod.rs:676-686 | For increasing ids the set is exactly the last `limit` of them |
| `RetiredIds.ReplayRefused` | crates/lenso-bun-adapter/src/server.rs:1220-1259 | A replay of any of the last 1024 finished ids is refused at registration |
| `RetiredIds.Evict` | crates/lenso-bun-adapter/src/transport/mod.rs:676-683 | The eviction loop removes only smallest ids, and only down to one below the limit |
| `RetiredIds.Remember` | crates/lenso-bun-adapter/src/server.rs:1325-1333 | Room is made first, then the id inserted |
| `RetiredIds.RequestRegistry.Register` | crates/lenso-bun-adapter/src/server.rs:1220-1259 | Refuses a live or remembered id without change; otherwise hands out a token that is already cancelled exactly when a cancellation came first |
| `RetiredIds.RequestRegistry.Finish` | crates/lenso-bun-adapter/src/server.rs:1261-1272 | The id leaves the live entries and is remembered |
| `RetiredIds.RequestRegistry.CancelRequest` | crates/lenso-bun-adapter/src/server.rs:1274-1297 | Marks a known id; notes an unknown one after making room |
| `FramedTransport.LateReplyTolerated` | crates/lenso-bun-adapter/src/transport/framed.rs:175-231 | In every reachable state a reply of the child is taken for a protocol violation if and only if its id is between the two locks of a cancellation or was evicted from the cancelled set |
| `FramedTransport.EvictionNeedsFullSet` | crates/lenso-bun-adapter/src/transport/framed.rs:457-489 | An id is evicted exactly when a call is cancelled while the set is full of unanswered ones |
| `FramedTransport.CarefulNeverViolates` | crates/lenso-bun-adapter/src/transport/framed.rs:161-243 | With no reply between those locks and at most 1024 unanswered cancelled calls, every unanswered id is pending or cancelled and no reply is ever a violation |
| `FramedTransport.CapacityExactly` | crates/lenso-bun-adapter/src/transport/framed.rs:283-334 | In every run each registry stays within its capacity, and a call with a fresh id is admitted whenever its registry has fewer entries |
| `FramedTransport.ReplayExactly` | crates/lenso-bun-adapter/src/transport/framed.rs:283-334 | In every run the retired ids are what the bounded memory keeps of those finished with; a call is admitted if and only if the process is alive, its id is not waiting, cancelled or retired, and there is room |
| `FramedTransport.DeathEmpties` | crates/lenso-bun-adapter/src/transport/framed.rs:531-549 | Whichever step gives the process up, the pending, event and cancelled registries are empty after it and the retired ids are kept |
| `FramedTransport.CancelAlone` | crates/lenso-bun-adapter/src/transport/framed.rs:457-480 | The two lock regions of a cancellation without interruption: the id is no longer pending and, in a live process, is cancelled and retired |
| `FramedTransport.ReplyDuringCancelViolates` | crates/lenso-bun-adapter/src/transport/framed.rs:457-489 | The first condition cannot be dropped: one call and one late reply suffice (a reachable state) |
| `FramedTransport.Transport.CallOn` | crates/lenso-bun-adapter/src/transport/framed.rs:283-367 | Accepted exactly when alive, admissible and sent; every refusal leaves the registries as they were; a vanished writer fails everything |
| `FramedTransport.Transport.Cancel` | crates/lenso-bun-adapter/src/transport/framed.rs:457-489 | A pending id moves to the cancelled and retired sets; any other is ignored |
| `FramedTransport.Transport.OnResponse` | crates/lenso-bun-adapter/src/transport/framed.rs:175-231 | Delivers a pending reply, swallows a late one, and gives the process up otherwise |
| `ServerAdmission.PermitsConserved` | crates/lenso-bun-adapter/src/server.rs:261-296 | In every interleaving of requests, opens, stream handlers, retirements, cancellations and handshakes: the counter is running requests plus opens plus filled entry slots, within the limit, and each permit is returned once or still held once |
| `ServerAdmission.QuiescentServerIsFree` | crates/lenso-bun-adapter/src/server.rs:1133-1179 | With nothing running and no stream open, the counter is zero |
| `ServerAdmission.OpenStreamsExactly` | crates/lenso-bun-adapter/src/server.rs:920-935 | In every run the map of open streams is what was opened and has not ended since, each with its own entry |
| `ServerAdmission.OpenAdmittedExactly` | crates/lenso-bun-adapter/src/server.rs:268-289 | A stream open takes a permit if and only if fewer than the limit are held |
| `ServerAdmission.HandlerHoldsEntry` | crates/lenso-bun-adapter/src/server.rs:960-976 | A handler that looks a stream up or cancels it holds the entry the stream was opened with |
| `ServerAdmission.PermitTakenOnce` | crates/lenso-bun-adapter/src/server.rs:1133-1179 | The permit in an entry is returned by the first who takes it and by nobody after |
| `ServerAdmission.Admission.TryAcquire` | crates/lenso-bun-adapter/src/server.rs:268-289 | The counter method is the machine's step: a request is admitted exactly while the permits held by requests, opens and streams are below the limit, and the counter stays their number |
| `ServerAdmission.Admission.Release` | crates/lenso-bun-adapter/src/server.rs:292-296 | The drop of a request's permit is the machine's step: there is always one to return, and the counter remains the number of permits the others hold |
| `JsonRpcRegistry.RefusalChangesNothing` | crates/lenso-bun-adapter/src/transport/json_rpc.rs:759-833 | A refusal for whatever reason leaves every map as it was |
| `JsonRpcRegistry.NeverDuplicate` | crates/lenso-bun-adapter/src/transport/json_rpc.rs:770-785 | While the maps agree, the second membership test of an uninterrupted call never finds the id |
| `JsonRpcSteps.SenderWaitsOrSettled` | crates/lenso-bun-adapter/src/transport/json_rpc.rs:675-962 | In every interleaving at the locks of `call`, `finish`, `cancel` and `fail_all`, for reused ids too: an entered sender is in the one slot it was put into or has met its fate, never both |
| `JsonRpcFates.FateExactly` | crates/lenso-bun-adapter/src/transport/json_rpc.rs:835-962 | In every interleaving, for reused ids too: a sender was answered a reply if and only if a `finish` of its id begun with that reply took it out of its slot, failed with an error if and only if a `fail_all` of that error took it, and dropped if and only if a cancellation of its id or the roll-back of an admission to its slot took it |
| `JsonRpcFates.FinishedIsAnswered` | crates/lenso-bun-adapter/src/transport/json_rpc.rs:899-916 | Under a careful host, a call whose `finish` has ended was answered that reply, unless a cancellation of its id or a `fail_all` took it before |
| `JsonRpcFates.RaisedExactly` | crates/lenso-bun-adapter/src/transport/json_rpc.rs:835-850 | The flag of a call is raised if and only if a cancellation or a `fail_all` removed it |
| `JsonRpcFates.EveryRunTraced` | crates/lenso-bun-adapter/src/transport/json_rpc.rs:675-962 | The history that these speak of adds nothing: every run of the machine has it |
| `JsonRpcSteps.ConsumedOnce` | crates/lenso-bun-adapter/src/transport/json_rpc.rs:835-962 | In every run a sender's slot and its fate are final; which fate, `FateExactly` says |
| `JsonRpcSteps.AgreeUpToProgress` | crates/lenso-bun-adapter/src/transport/json_rpc.rs:675-962 | With one admission of an id at a time: a flag belongs to an admission before its entry, to the call waiting under it or to a torn call; a waiting call has its own flag, or an operation in progress that took the flag will take the call, or it is bare; no id waits in both maps |
| `JsonRpcSteps.QuiescentAgreement` | crates/lenso-bun-adapter/src/transport/json_rpc.rs:675-962 | Between operations the flags are the disjoint union of the pending maps, entry by entry, if and only if no bare call waits and no flag is left of a torn one |
| `JsonRpcSteps.CarefulHostAgrees` | crates/lenso-bun-adapter/src/transport/json_rpc.rs:675-962 | If ids are not used again, calls are cancelled only after they were returned, and `fail_all` and admissions keep apart, nothing is ever bare or torn, no admission is refused as a duplicate, and between operations the maps agree |
| `JsonRpcSteps.DuplicateExactly` | crates/lenso-bun-adapter/src/transport/json_rpc.rs:770-781 | The duplicate-pending refusal is taken if and only if an earlier call with this id still waits, and then a `finish`, `cancel` or `fail_all` is between that call's flag and its sender, or the call is bare |
| `JsonRpcSteps.DuplicateReachable` | crates/lenso-bun-adapter/src/transport/json_rpc.rs:899-916 | The duplicate-pending refusal is reachable: the id is used again while the `finish` of its first call is between its locks |
| `JsonRpcSteps.BareReachable` | crates/lenso-bun-adapter/src/transport/json_rpc.rs:931-948 | A `fail_all` between the flag and the entry of an admission leaves a waiting call that no cancellation can reach |
| `JsonRpcSteps.TornReachable` | crates/lenso-bun-adapter/src/transport/json_rpc.rs:931-948 | A call admitted between the two locks of a `fail_all` is failed and leaves its flag |
| `JsonRpcSteps.KindsMustStay` | crates/lenso-bun-adapter/src/transport/json_rpc.rs:904-913 | An id used as an event and then as a request during the event's `finish` leaves the event waiting with nobody to take it |
| `JsonRpcSteps.FailAllSettles` | crates/lenso-bun-adapter/src/transport/json_rpc.rs:931-962 | A `fail_all` settles every sender that was entered before it took the sender's map |
| `JsonRpcSteps.AdmissionAlone` | crates/lenso-bun-adapter/src/transport/json_rpc.rs:759-833 | The steps of one admission without interruption are the registry object's call, roll-backs included |
| `JsonRpcSteps.FinishAlone` | crates/lenso-bun-adapter/src/transport/json_rpc.rs:899-916 | A `finish` without interruption is the registry object's, and answers the sender it removes with its reply |
| `JsonRpcSteps.CancelAlone` | crates/lenso-bun-adapter/src/transport/json_rpc.rs:835-864 | So is a `cancel`, which drops the sender if the flag is there and does nothing otherwise |
| `JsonRpcSteps.FailAllAlone` | crates/lenso-bun-adapter/src/transport/json_rpc.rs:931-962 | And a `fail_all`: every map is empty, every flag raised and every waiting sender has the error |
| `JsonRpcSteps.CapacityExactly` | crates/lenso-bun-adapter/src/transport/json_rpc.rs:782-793 | In every run the two maps stay within their capacities; an admission with its flag enters its map if and only if its id does not wait there and the map has fewer entries |
| `JsonRpcRegistry.CallRegistry.Admit` | crates/lenso-bun-adapter/src/transport/json_rpc.rs:759-833 | Every result of an admission has its exact condition over the maps; an admitted call has flag and entry, a refusal leaves every map as it was |
| `JsonRpcRegistry.CallRegistry.Cancel` | crates/lenso-bun-adapter/src/transport/json_rpc.rs:835-864 | Raises the flag and drops the sender of the same call, or does nothing |
| `JsonRpcRegistry.CallRegistry.Finish` | crates/lenso-bun-adapter/src/transport/json_rpc.rs:899-916 | Takes the waiting sender, forgets the call and remembers its id |
| `JsonRpcRegistry.CallRegistry.FailAll` | crates/lenso-bun-adapter/src/transport/json_rpc.rs:931-962 | Raises every flag and uses every waiting sender, once per entry; the retired ids stay |
| `ProcessDeath.NoEarlyOrDoubleNotice` | crates/lenso-bun-adapter/src/transport/mod.rs:276-335 | In every interleaving of `mark_dead` callers, registrations and subscribers: no handler or waiter is told before death, every handler call is of the recorded failure, with or without the child's output behind it, no waiter is signalled twice |
| `ProcessDeath.NoLostNotice` | crates/lenso-bun-adapter/src/transport/mod.rs:276-335 | When the winning `mark_dead`, the registrations and the subscriptions have returned, the registered handler has run and exactly the known waiters have been signalled |
| `ProcessDeath.NeverBlocked` | crates/lenso-bun-adapter/src/transport/mod.rs:292-335 | After death the remaining threads always have a step of their own |
| `ProcessDeath.NoticesComplete` | crates/lenso-bun-adapter/src/transport/mod.rs:276-335 | After death, however the threads in progress are scheduled, they take a bounded number of steps, and when none has one left the registered handler has run and exactly the known waiters are signalled |
| `ProcessDeath.FirstFailureForever` | crates/lenso-bun-adapter/src/transport/mod.rs:319-335 | The first failure, and every notice given, is kept for the rest of every run |
| `ProcessDeath.ProcessState.MarkDead` | crates/lenso-bun-adapter/src/transport/mod.rs:319-335 | The whole of `mark_dead` on one thread, with its drain loop, is its four atomic steps; a second caller changes nothing |
| `ProcessDeath.ProcessState.SetFailureHandler` | crates/lenso-bun-adapter/src/transport/mod.rs:276-290 | A registration on one thread is its four steps; on a dead process the handler is called at once |
| `ProcessDeath.ProcessState.SubscribeExit` | crates/lenso-bun-adapter/src/transport/mod.rs:292-303 | A subscription on one thread is its four steps: queued while alive, signalled at once when dead |
| `EmbeddedWorker.ShutdownOnce` | crates/lenso-libbun-adapter/src/lib.rs:698-769 | In every interleaving: at most one engine call starts after the flag is set, the engine is shut down exactly once by an exited worker and never before, and exactly one of the finished callers has the join handle |
| `EmbeddedWorker.WorkerNeverBlocked` | crates/lenso-libbun-adapter/src/lib.rs:721-735 | After the winner's `try_send`, taken or not, the worker does not wait on an empty queue and has a step until it exits |
| `EmbeddedWorker.WorkerCountsDown` | crates/lenso-libbun-adapter/src/lib.rs:721-738 | Each worker step after that brings its exit closer, at most six steps away, and nobody else's step delays it |
| `EmbeddedWorker.WinnerWillSend` | crates/lenso-libbun-adapter/src/lib.rs:764-769 | While the flag is set and nothing was signalled, the winner of the swap can signal |
| `EmbeddedWorker.NeverDisconnected` | crates/lenso-libbun-adapter/src/lib.rs:724-735 | The arm for a disconnected channel is never taken |
| `EmbeddedWorker.EveryCallSettled` | crates/lenso-libbun-adapter/src/lib.rs:516-531 | Every accepted call is in one place, answers come in order of acceptance and only for calls given to the engine, and after the worker's exit each was answered once or had its sender dropped |
| `EmbeddedWorker.AcceptedExactly` | crates/lenso-libbun-adapter/src/lib.rs:516-531 | In every reachable state a call is accepted, behind the others, if and only if the receiver is alive and fewer than the capacity are queued |
| `EmbeddedWorker.RecvDecides` | crates/lenso-libbun-adapter/src/lib.rs:724-735 | A call goes to the engine, and is counted as late when the flag was up; a shutdown command, or a channel that nobody feeds, ends the loop |
| `EmbeddedWorker.WorkerControl.Invoke` | crates/lenso-libbun-adapter/src/lib.rs:516-531 | Accepts exactly when the worker lives and the queue has room; each refusal changes nothing |
| `EmbeddedWorker.WorkerControl.BeginShutdown` | crates/lenso-libbun-adapter/src/lib.rs:764-769 | The whole call on one thread is its three steps; the handle goes to the caller exactly when it was still stored |
| `AuthoringChild.NoIdInvokedTwice` | packages/lenso-bun-plugin/src/v2.ts:397-456 | At every await point an id whose provider was called is active or retired, never both and never neither; none is called twice; active is at most max_active; active plus retired is at most max_retired + max_active - 1 |
| `AuthoringChild.StreamsBounded` | packages/lenso-bun-plugin/src/v2.ts:509-570 | Open streams plus pending opens stay within max_unfinished + max_active - 1, and outbound streams plus pending outbound opens within max_unfinished + max_active_outbound - 1 |
| `AuthoringChild.OutboundCallsCounted` | packages/lenso-bun-plugin/src/v2.ts:630-822 | `#activeOutboundCalls` is the number of waiting callbacks and within its limit; a stop finds it zero exactly when none waits |
| `AuthoringChild.StreamsCanExceedLimit` | packages/lenso-bun-plugin/src/v2.ts:516-520 | Open streams alone can exceed max_unfinished_executions when opens overlap (a reachable state) |
| `AuthoringChild.ExceedsExactly` | packages/lenso-bun-plugin/src/v2.ts:509-570 | In every reachable state, settling promises can take the open streams over max_unfinished_executions if and only if streams and unaborted opens together are over it |
| `AuthoringChild.AdmittedOpenExceedsExactly` | packages/lenso-bun-plugin/src/v2.ts:516-532 | An admitted open makes such an excess possible if and only if streams and unaborted opens had reached the limit before the call |
| `AuthoringChild.ConsiderateStaysWithin` | packages/lenso-bun-plugin/src/v2.ts:516-532 | If every open, inbound or outbound, is begun only while streams and pending opens are below the limit, the open streams of both sides never exceed it |
| `AuthoringChild.OutboundExceedsExactly` | packages/lenso-bun-plugin/src/v2.ts:699-822 | The same if-and-only-if for the streams the plugin opens at its host |
| `AuthoringChild.OutboundStreamsCanExceedLimit` | packages/lenso-bun-plugin/src/v2.ts:709-717 | Outbound streams alone can exceed max_unfinished_executions too (a reachable state) |
| `AuthoringChild.OpenStreamsExactly` | packages/lenso-bun-plugin/src/v2.ts:509-822 | In every run, on both sides, the open streams are exactly those that were opened and have not ended since |
| `AuthoringChild.CancelledOpensNothing` | packages/lenso-bun-plugin/src/v2.ts:530-570 | An open that is cancelled before its promise settles opens no stream, whenever it settles |
| `AuthoringChild.BunAuthoringServer.Invoke` | packages/lenso-bun-plugin/src/v2.ts:397-425 | The checks before the first await, with the exact verdict; only an admitted id changes anything |
| `AuthoringChild.BunAuthoringServer.OpenStream` | packages/lenso-bun-plugin/src/v2.ts:509-532 | The same for a stream open, with its three capacity checks |
| `AuthoringChild.BunAuthoringServer.Settled` | packages/lenso-bun-plugin/src/v2.ts:448-449 | The id moves from active to retired in one step; a stream is registered exactly for an open that produced one and was not aborted |
| `AuthoringChild.BunAuthoringServer.BeginOutbound` | packages/lenso-bun-plugin/src/v2.ts:643-647 | A callback is counted and gets a fresh id exactly when it is not refused |
| `AuthoringChild.BunAuthoringServer.EndOutbound` | packages/lenso-bun-plugin/src/v2.ts:657-663 | Uncounts the callback and records or forgets the stream it reported |
| `AuthoringChild.BunAuthoringServer.Stop` | packages/lenso-bun-plugin/src/v2.ts:838-853 | Refused with work unfinished; otherwise cancels every stream of both sides |
| `StaticEvaluator.EvaluatorIsExact` | packages/lenso-bun-plugin/src/extract.ts:218-335 | For every expression and finite environment, cyclic ones included: the evaluator returns exactly when the expression has a meaning, and the result without spans is that meaning (arrays with spreads flattened, objects joined over disjoint keys) |
| `StaticEvaluator.Sound` | packages/lenso-bun-plugin/src/extract.ts:218-270 | For any set of active symbols, whatever is returned is the meaning |
| `StaticEvaluator.Complete` | packages/lenso-bun-plugin/src/extract.ts:450-478 | Whatever has a meaning is returned as long as no active constant could be needed |
| `StaticEvaluator.More` | packages/lenso-bun-plugin/src/extract.ts:450-478 | A deeper nesting allowance never changes a meaning |
| `StaticEvaluator.SelfDependentNeverReturns` | packages/lenso-bun-plugin/src/extract.ts:450-478 | Anything that needs a constant depending on itself, directly or through others, is an error |
| `StaticEvaluator.ObjectIsExact` | packages/lenso-bun-plugin/src/extract.ts:272-335 | `object` returns exactly what has a meaning as an object, the union of a literal's properties or the fields of the object it resolves to, and that meaning |
| `StaticEvaluator.HandlerExact` | packages/lenso-bun-plugin/src/extract.ts:480-523 | In a handler position an inline function means its own place, a name of a const function the initializer's, a name of a function declaration the declaration's, and nothing else has a meaning |
| `StaticEvaluator.DependencyExact` | packages/lenso-bun-plugin/src/extract.ts:403-430 | A dependency has no id without argument, the text of one string literal with one, and is refused otherwise |
| `StaticEvaluator.SpanIsSource` | packages/lenso-bun-plugin/src/extract.ts:218-270 | Whatever is returned carries the place its value is written at; for a constant, its initializer's |
| `StaticEvaluator.ReasonOfName` | packages/lenso-bun-plugin/src/extract.ts:450-478 | Each refusal of a name has its exact condition |
| `StaticEvaluator.ReasonOfHandler` | packages/lenso-bun-plugin/src/extract.ts:480-515 | Each refusal of a handler has its exact condition |
| `StaticEvaluator.ReasonOfLeaf` | packages/lenso-bun-plugin/src/extract.ts:218-270 | The error of an expression that has no part to blame |
| `StaticEvaluator.ReasonOfElement` | packages/lenso-bun-plugin/src/extract.ts:238-252 | Of the elements of an array the first that fails is reported |
| `EvaluatorOverlap.OverlapExact` | packages/lenso-bun-plugin/src/extract.ts:432-441 | While other arguments add and remove active symbols between any two steps: an expression is returned if and only if it has a meaning and no membership test finds its symbol in the shared set, and what is returned has that meaning |
| `EvaluatorOverlap.InterferenceOnlyRefuses` | packages/lenso-bun-plugin/src/extract.ts:432-441 | Whatever arguments evaluated together return is what the evaluator returns for them alone |
| `EvaluatorOverlap.RefusedExactly` | packages/lenso-bun-plugin/src/extract.ts:457-458 | What the evaluator alone returns is refused under interference if and only if some test finds its symbol in the shared set |
| `EvaluatorOverlap.SharedConstantRefused` | packages/lenso-bun-plugin/src/extract.ts:458-477 | For every constant with a value, a call with two arguments that name it is returned alone and refused when the second tests while the first is inside |
| `StaticEvaluator.EraseSpread` | packages/lenso-bun-plugin/src/extract.ts:240-247 | Spreading succeeds exactly on a static array and contributes its elements unchanged |
| `StaticEvaluator.EraseObject` | packages/lenso-bun-plugin/src/extract.ts:605-643 | `requiredObject` succeeds exactly on a static object and keeps its fields |
| `StaticEvaluator.Initializer` | packages/lenso-bun-plugin/src/extract.ts:450-468 | A name is entered exactly when it names a const with an initializer that is not active, and entering it leaves one symbol fewer |
| `StaticEvaluator.Evaluator.Value` | packages/lenso-bun-plugin/src/extract.ts:218-270 | The recursive method returns what `Eval` says and leaves the active set as it found it, on errors too |
| `StaticEvaluator.Evaluator.Constant` | packages/lenso-bun-plugin/src/extract.ts:450-478 | The symbol is active while its initializer is evaluated and removed on every path |
| `StaticEvaluator.Evaluator.Elements` | packages/lenso-bun-plugin/src/extract.ts:238-252 | The loop over elements, spreads included, collects them in order or stops at the first error |
| `StaticEvaluator.Evaluator.Properties` | packages/lenso-bun-plugin/src/extract.ts:282-335 | The loop over properties builds the map and refuses a second entry for a key |
| `StaticEvaluator.Evaluator.Object` | packages/lenso-bun-plugin/src/extract.ts:272-335 | `object` with its handler positions is `EvalObject` |
| `BoundedLine.ReadBoundedLine` | crates/lenso-bun-adapter/src/transport/mod.rs:799-835 | For every input, limit and split into chunks: none exactly at the end of input; otherwise the first line cut to the limit, without one trailing CR in what was kept, `truncated` exactly when it was longer, and the input consumed through the newline |
| `BoundedLine.KeptOfLine` | crates/lenso-bun-adapter/src/transport/mod.rs:799-835 | A line that fits is kept whole but for one CR at its end; of a longer one the first `limit` bytes, but for one CR at their end |
| `BoundedLine.RecordedOfLine` | crates/lenso-bun-adapter/src/transport/mod.rs:761-791 | The drain records a line that fits without one CR at its end, and nothing of a longer one |
| `BoundedLine.DrainOutput` | crates/lenso-bun-adapter/src/transport/mod.rs:761-791 | The drain loop records every line in order, and nothing of a line that was too long |
| `BoundedLine.UnlinesOfRaw` | crates/lenso-bun-adapter/src/transport/mod.rs:799-835 | Joining the lines gives the input back, up to a missing last newline |
| `BoundedLine.RawOfUnlines` | crates/lenso-bun-adapter/src/transport/mod.rs:799-835 | Splitting joined newline-free lines gives them back |

## Left out

- EventTickets.TicketSafety: for at most 2^64 acquisitions, because the ticket counter wraps there; the wrap is modelled, the promise is made up to it.
- EventBound.LeftBehindExactly: like the other statements of `EventBound`, for runs in which no queue has handed out more than 2^64 tickets, for the same reason; an entry and its `try_send` are one step, as are the two removals of a rolled back entry, and ids are not checked against the retired ones (more runs, not fewer).
- EventBound.LeftoverExplained: for ids that are not used again; with a reused id a stale `finish` can take the flag of a later call.
- JsonRpcSteps.AgreeUpToProgress: for hosts that do not submit one id in two calls at the same moment and do not use it for a request and for an event; `KindsMustStay` shows why the second is needed.
- JsonRpcSteps.SenderWaitsOrSettled: the pending test of an admission and the removal of its flag on refusal, which the source does under the pending lock, are one step; the liveness and frame-size tests before the locks, and the cancellation notice sent to the child, are not modelled.
- StreamSend.GuardNeverFires: the provider's four loads before the guard are one step.
- FramedTransport.LateReplyTolerated: the reader's look-ups in its three registries for one reply are one step, as is an admission.
- ServerAdmission.PermitsConserved: a handler's statement is one step together with the drops at its end.
- ProviderEvents.EventsDrain: worker threads start; the failed spawn is treated by `AbortConservesExactlyWhenIdle` alone.
- ProcessSession.GivenUpExactly: the retirement for a capability or descriptor the child does not provide, before admission, is the step `RetireChild`; `shutdown`, which consumes the session, is not modelled.
- JsonRpcFates.FinishedIsAnswered: for the careful host of `CarefulHostAgrees`; with reused ids a stale `finish` may answer a later call, which `FateExactly` covers.
- StreamClosing.ShutAcceptsNoNew: for an entry that stays shut; a refusal of a half-close that may be retried opens it again.
- StaticEvaluator.EvaluatorIsExact: for an evaluator whose arguments are evaluated one after the other; `EvaluatorOverlap` treats those evaluated together.
- EvaluatorOverlap.OverlapExact: for evaluations that enter at most `fuel` nested constants, any number; that every evaluation ends is not claimed, since another argument may remove a symbol that this one added. Which of several errors is reported is not modelled.
- JsonRpcSteps.CarefulHostAgrees: asks that no `fail_all` overlaps an admission, which a host cannot see to when a process dies by itself.
- StaticEvaluator.Evaluator.Value: does not collect source files, and does not model alias resolution and symbol classification, which are the TypeScript checker's.
- BoundedLine.ReadBoundedLine: bytes stay bytes (the lossy UTF-8 conversion is not modelled) and the underlying reader does not fail.
- StreamSend.SendSafety: sequence numbers do not wrap at 2^64 and the reported credit is not clipped to 32 bits; the compare-exchange of the sequence and the addition to the credit in the client's roll-back (`Restore`) are one step.
- StreamCredit.ExcessExactly: the roll-back is one step here too.
- AuthoringChild.OutboundCallsCounted: the counter of inbound event publications is a second counter of the same shape and is not repeated.
- The framed transport's stream registries repeat the request registries and are not modelled separately.
- A sender that waits for credit after a non-retryable failure may wait until a terminal or a cancellation; no liveness is claimed there.
- Poisoned locks, allocation failure and panics.
- Process spawning, pipes, signals, HTTP, jsonrpsee and tokio plumbing, and the JSON-RPC envelope.
- HMAC proofs, digests, JSON parsing, schema validation, frame encoding and the handshake.
- The response and settlement join of `adapter_v2.rs`, and sends that overlap on one Authoring V2 stream.
- Generated capability bindings, the build step, limit range checks, failure-kind conversions and shutdown phases: each is settled by reading one match.
