# Link protocol models

The `.dfy` files model the stateful cores of the Atlas Meshtastic Link stack, the SDK resource cache and the asset
flight engine, and prove what these cores promise.

- **Transport** (`Link*.dfy`). The sending half, the receiving half and reassembly are state machines over values;
  `LinkRuns` puts every operation, timer and radio outcome into one step relation in which anything may happen while a
  send is under way, and proves the guarantees over all runs. `LinkTransport` is the class with the fields of the
  source; each method is proved to have exactly the effect of its step. `LinkAdmission` and `LinkReception` say
  exactly which messages are sent and which are delivered, in terms of senders, kinds, numbers and room; `LinkEffects`
  and `LinkOutcomes` what each timer, answer and call comes to, and `LinkOnce` that nothing known is delivered again.
  `LinkFindings` and `LinkWaiters` state exactly when the code does less than one might expect, and `LinkExamples`
  runs it there from a fresh transport.
- **Codecs**. `TextEncoding`, `CompactTokens`, `CompactValue`, `CompactRoundTrip`, `CompactEncodes` and `CompactCodec`
  cover the compact value form, its adaptive text table and its byte budget, over the bit patterns of `Doubles`;
  `BinaryHeader`, `MessageFrame`, `Fragmentation`, `FragmentChoice` and `FragmentDelivery` cover frame headers and
  frames, the search for a chunk size, the choice of an encoding and reassembly in any order, and `FrameExample` meets
  what they ask of the codecs that are not modelled.
- **State deltas**. `Json`, `JsonPatch`, `StateDelta`, `StateDeltaRuns` and `StateDeltaCodec`: tree difference and
  patch, both baseline caches, and soundness under loss, repetition and reordering.
- **Shared Picture**. `PictureState`, `PictureRules`, `PictureOutcomes` and `SharedPicture`: version order, which
  publications are taken over, byte accounting, freshness, and the event log from which clients rebuild the store.
- **Companions**. `TaskOrder` and `TaskDispatcher` (ordered delivery with re-entrant failures), `SubscriptionDemand`
  (leases and reported transitions), `CacheState`, `CacheOutcomes` and `CacheStore` (point reads, local deletes,
  lazily rebuilt snapshots), `TaskEngine` (takeover, hold and dispatch rules), `PacketNetwork` (carrier sense and
  flooding), `DeviceFraming` (stream framing) and `ZstandardBoundary` (frame walk).

Files that carry state in the source are classes here; each method states its whole effect through a specification
function, and the properties are lemmas about those functions, their runs or the class invariant.

Where the code falls short of a natural reading, the code is followed: a stale copy of a confirmed Task delivery is
answered with a rejection, or not at all (`LinkFindings.LaterCopyAnswer`, `LinkExamples.ConfirmedThenRejected`,
`LinkExamples.ConfirmedThenSilent`), a payload that begins like a message envelope can be taken for one
(`FragmentDelivery.FragmentsRebuild`, `FrameExample.MarkerLost`), pausing, resuming and pausing again can strand a
caller (`LinkWaiters.OnlyPauseStrands`, `LinkExamples.PauseResumePauseStrands`), a stop can fail an operation already
confirmed (`LinkFindings.StopResults`, `LinkExamples.ConfirmedThenFailed`), and two publications can each be newer
than the other (`PictureState.MutuallyNewer`, `PictureState.TaskContested`).

`dafny verify dfyconfig.toml` checks the whole project.

## Model

| member | source | states |
|---|---|---|
| LinkRuns.NoLostWakeup | packages/meshtastic-link/src/transport.ts:905-1245 | in every reachable state: an eligible queued message of a running transport has a pump running or requested, nothing is queued twice, and the object-transfer lock belongs to a tracked operation |
| LinkRuns.NothingForgotten | packages/meshtastic-link/src/transport.ts:1157-1245 | in every reachable state each tracked operation has its deadline running and, until the radio or the peer has it, its next retry, queue place or send |
| LinkRuns.CapacityBounds | packages/meshtastic-link/src/transport.ts:459-651 | over all runs: occupancy within queueLimit + confirmedLimit, confirmed and pending messages within confirmedLimit, identities and the settlement history within 4096, reassemblies within their limit |
| LinkRuns.AtMostOnce | packages/meshtastic-link/src/transport.ts:1388-1451 | no step of any run raises a settlement-requiring event for an identity that is still pending or remembered; a step raises at most one event, and its identity is pending afterwards |
| LinkRuns.TenMinutesApart | packages/meshtastic-link/src/transport.ts:1388-1451 | two settlement-requiring deliveries of one identity are at least ten minutes apart, and until then the identity is pending or remembered unless the service stopped |
| LinkOnce.DeliverFresh | packages/meshtastic-link/src/transport.ts:1388-1451 | the settlement history, pending deliveries and limits let a settlement-requiring message through only if its identity is unknown |
| LinkRuns.SourceFencing | packages/meshtastic-link/src/transport.ts:1609-1648 | per source, delivered generations never decrease and one generation has one session, over all runs |
| LinkRuns.NoFencedOffRemains | packages/meshtastic-link/src/transport.ts:1623-1648 | no reassembly of a fenced-off generation or session exists in any reachable state |
| LinkRuns.DistinctSequences | packages/meshtastic-link/src/transport.ts:439-457 | no two committed messages of a session share a sequence number or a message identity |
| LinkRuns.NextKeeps | packages/meshtastic-link/src/transport.ts:242-327 | every step, in any order between the beginning and the end of a radio send, keeps the whole invariant, and a delivery leaves pending only into the history or by stopping |
| LinkRuns.RunKeeps | packages/meshtastic-link/src/transport.ts:242-327 | the invariant over about ten interlinked maps holds after any finite run from a new session |
| LinkFindings.LaterCopyAnswer | packages/meshtastic-link/src/transport.ts:1304-1418 | a complete later copy of a settled delivery raises no event and keeps the recorded result; it is answered with that result if and only if it decodes, agrees with its frame, may come from its source, passes the fence, was rejected or is turned away by no earlier check, and an answer can be framed and queued; it is answered with a rejection of a recorded confirmation exactly when such a check turns it away; otherwise nothing is queued |
| LinkFindings.LaterCopyReceived | packages/meshtastic-link/src/transport.ts:1247-1418 | the same for a frame: one that completes no message sends nothing, and one that completes a later copy has it answered under exactly those conditions |
| LinkFindings.AnswerQueued | packages/meshtastic-link/src/transport.ts:1716-1728 | a control message is queued exactly while the service runs, a frame can hold it, occupancy is below both limits together and its identity is free; otherwise no message is |
| LinkExamples.ConfirmedThenSilent | packages/meshtastic-link/src/transport.ts:1328-1329 | a run from a fresh transport after which a copy of a Task delivery on record as confirmed changes nothing at all, because its source has started anew |
| LinkExamples.ConfirmedThenRejected | packages/meshtastic-link/src/transport.ts:1378-1384 | a run from a fresh transport after which a Task delivery on record as confirmed is answered with a queued rejection, because a newer delivery overtook its copy |
| LinkWaiters.PauseServes | packages/meshtastic-link/src/transport.ts:849-859 | a pause leaves an earlier waiter unserved if and only if it cancels the requested pump that would have woken it |
| LinkWaiters.OnlyPauseStrands | packages/meshtastic-link/src/transport.ts:849-1001 | of all steps of the transport, exactly a pause that cancels a requested pump others wait for leaves a waiter unserved |
| LinkWaiters.WaitersServedUntil | packages/meshtastic-link/src/transport.ts:849-1001 | over any run without such a pause, whoever waits for a pause will be woken by a running or requested pump |
| LinkExamples.PauseResumePauseStrands | packages/meshtastic-link/src/transport.ts:849-865 | a run from a fresh transport, pausing, resuming and pausing around the first chunk of a message, after which the first caller waits for a pump that is neither running nor requested |
| LinkFindings.StopResults | packages/meshtastic-link/src/transport.ts:867-897 | a stop turns exactly the results of queued, tracked and active messages into failures, also of an already confirmed message whose last chunk is on the air |
| LinkExamples.ConfirmedThenFailed | packages/meshtastic-link/src/transport.ts:867-897 | a run from a fresh transport after which a stop turns an operation on record as confirmed, its chunk still on the air, into a failure |
| LinkOutboundInvariants.BestIsFirst | packages/meshtastic-link/src/transport.ts:1003-1019 | the message taken by the pump is eligible and nothing eligible in the queue precedes it in priority and age |
| LinkOutboundInvariants.ScanKeeps | packages/meshtastic-link/src/transport.ts:1003-1019 | giving the free object lock to the first queued object keeps every link between queue, lock and maps |
| LinkOutboundInvariants.PumpFiresKeeps | packages/meshtastic-link/src/transport.ts:919-985 | suspending on the radio with a message, and perhaps a report that shares its frame, keeps the invariant |
| LinkOutboundInvariants.FinishKeeps | packages/meshtastic-link/src/transport.ts:986-1001 | the end of a pump leaves a request behind whenever something is still eligible |
| LinkOutboundInvariants.PumpEndsKeeps | packages/meshtastic-link/src/transport.ts:940-995 | a send that succeeds or fails while any other steps happened keeps the invariant |
| LinkOutcomes.PairFailedOutcome | packages/meshtastic-link/src/transport.ts:1127-1140 | after a refused shared frame the receipt is queued again in full, and its report has a resume timer with its only chunk to send unless the report is no longer tracked |
| LinkOutboundInvariants.PairFailedKeeps | packages/meshtastic-link/src/transport.ts:1127-1140 | the end of a pump whose shared frame was refused keeps the invariant, the wakeup included |
| LinkOutboundInvariants.FinishPairKeeps | packages/meshtastic-link/src/transport.ts:1118-1125 | the end of a pump whose shared frame was sent keeps the invariant, the wakeup included |
| LinkOutboundInvariants.AfterAllKeeps | packages/meshtastic-link/src/transport.ts:1157-1176 | what is done once all chunks are sent forgets no operation, keeps all links but the wakeup in order, and adds nothing the limits count |
| LinkOutboundInvariants.DeferKeeps | packages/meshtastic-link/src/transport.ts:1222-1234 | keeping a refused chunk for a later resume forgets no operation and adds nothing the limits count |
| LinkOutboundInvariants.RequestKeeps | packages/meshtastic-link/src/transport.ts:905-917 | after a request no eligible message of a running transport is left without a pump |
| LinkOutboundInvariants.StaleKeeps | packages/meshtastic-link/src/transport.ts:930-939 | a queued reference with nothing left to send drops out and cannot keep the object lock |
| LinkOperations.RetryFiresKeeps | packages/meshtastic-link/src/transport.ts:1236-1245 | a retry timer, whether it repeats everything or resumes, keeps the invariant |
| LinkOperations.CompleteKeeps | packages/meshtastic-link/src/transport.ts:1772-1795 | any terminal outcome of an operation under way keeps the invariant and wakes the pump when the lock falls free |
| LinkOperations.CancelKeeps | packages/meshtastic-link/src/transport.ts:787-797 | cancelling keeps the invariant |
| LinkOutcomes.CancelOutcome | packages/meshtastic-link/src/transport.ts:787-797 | cancelling fails and forgets exactly the tracked operation of that identity; every other operation, queue entry and timer stays as it was |
| LinkOperations.ConfirmKeeps | packages/meshtastic-link/src/transport.ts:1797-1809 | a confirmed request is still awaited for its answer, with everything else in order |
| LinkOperations.DeadlineFiresKeeps | packages/meshtastic-link/src/transport.ts:1157-1176 | a missed deadline fails exactly the operation it was started for |
| LinkOperations.PruneExact | packages/meshtastic-link/src/transport.ts:1991-2008 | pruning forgets exactly the completed identities whose ten minutes have passed |
| LinkOutcomes.WakeOutcome | packages/meshtastic-link/src/transport.ts:2010-2024 | a caller blocked on the identity limit has a wakeup no later than the first expiry, and a wakeup forgets exactly the identities that are due |
| LinkOperations.WakeFiresKeeps | packages/meshtastic-link/src/transport.ts:2010-2024 | the wakeup keeps the invariant |
| LinkOperations.ApplyAnswerKeeps | packages/meshtastic-link/src/transport.ts:1528-1587 | confirmations, rejections and repair requests of the peer keep the invariant |
| LinkOperations.AnswerUnique | packages/meshtastic-link/src/transport.ts:1528-1545 | an answer concerns at most one tracked operation |
| LinkSubmission.PrepareKeeps | packages/meshtastic-link/src/transport.ts:459-608 | preparing refuses or draws identities without changing anything a later commit relies on |
| LinkSubmission.CommitOccupies | packages/meshtastic-link/src/transport.ts:610-651 | a commit adds exactly one message and takes out exactly the replaced publication |
| LinkSubmission.SubmitKeeps | packages/meshtastic-link/src/transport.ts:364-390 | every submission keeps the invariant |
| LinkOutcomes.SubmitOutcome | packages/meshtastic-link/src/transport.ts:364-390 | the caller is told what is on record; the message joins the queue, as the newest and under fresh numbers, exactly when nothing or only a failure was on record and the caller is told so, and otherwise nothing is queued |
| LinkSubmission.ReserveKeeps | packages/meshtastic-link/src/transport.ts:393-437 | a Task reservation keeps the invariant |
| LinkOutcomes.ReserveOutcome | packages/meshtastic-link/src/transport.ts:393-437 | a reservation sets aside the next sequence number and message identity, which no message and no other reservation has |
| LinkSubmission.DispatchKeeps | packages/meshtastic-link/src/transport.ts:393-437 | dispatching a reservation keeps the invariant |
| LinkOutcomes.DispatchOutcome | packages/meshtastic-link/src/transport.ts:393-437 | what is dispatched is the reserved message under the sequence number and identity set aside for it; if it cannot be queued the reservation stays |
| LinkSubmission.SettleTogether | packages/meshtastic-link/src/transport.ts:676-772 | receipt and Task report are both queued or neither is, within limits that already count the settled delivery |
| LinkSubmission.BothCommit | packages/meshtastic-link/src/transport.ts:700-760 | two messages admitted together still fit once both are committed |
| LinkLifecycle.PauseKeeps | packages/meshtastic-link/src/transport.ts:849-859 | pausing keeps the invariant whatever the pump is doing |
| LinkLifecycle.ResumeKeeps | packages/meshtastic-link/src/transport.ts:861-865 | resuming requests a pump whenever something is eligible |
| LinkLifecycle.StopKeeps | packages/meshtastic-link/src/transport.ts:867-897 | stopping fails everything under way, in whatever order, and leaves nothing queued, tracked, locked or timed |
| LinkLifecycle.TickKeeps | packages/meshtastic-link/src/transport.ts:1982-2008 | time may pass as long as a radio send settles within the identity retention |
| LinkAdmission.SubmittedExactly | packages/meshtastic-link/src/transport.ts:459-608 | a message is queued if and only if this node may send it, its identity is free, its operation can be tracked within the limits on identities and confirmed messages, it can be framed, and the queue has room, counting a queued unsent publication it replaces |
| LinkAdmission.ReservedExactly | packages/meshtastic-link/src/transport.ts:393-437 | a reservation succeeds if and only if the running transport is given a Task delivery that can be framed, its identity is free and fewer than 8192 are reserved |
| LinkEffects.CancelledReservation | packages/meshtastic-link/src/transport.ts:436-437 | a cancelled reservation is given up, and only that one |
| LinkAdmission.DispatchedExactly | packages/meshtastic-link/src/transport.ts:393-437 | a reserved delivery is queued if and only if it is still allowed under its own reservation, can be tracked and framed, and has room |
| LinkAdmission.TogetherExactly | packages/meshtastic-link/src/transport.ts:700-772 | receipt and Task report are sent together if and only if each is allowed, the report can be tracked, both can be framed and the queue has room for both in place of the settled delivery |
| LinkAdmission.SettledTogetherExactly | packages/meshtastic-link/src/transport.ts:676-772 | an atomic settlement succeeds if and only if the report is of the delivered Task, from this Asset to the Gateway that delivered it, and both messages can be sent; once settled so, exactly the same report is answered with success |
| LinkEffects.Urgency | packages/meshtastic-link/src/contract.ts:98-118 | the kinds of messages in order: control and cancellations, Tasks, requests and answers, live state, other resources, object contents |
| LinkEffects.PumpEffect | packages/meshtastic-link/src/transport.ts:919-985 | a pump puts the first unsent chunk of the message that is most urgent in kind and then has waited longest on the air, with at most one fitting unsent report beside a confirmation; it does so whenever a queued message may go and all have something to send |
| LinkEffects.SentEffect | packages/meshtastic-link/src/transport.ts:940-995 | a sent chunk queues the message again while chunks remain; a best-effort message then counts as sent, and a tracked operation waits to be sent again in full |
| LinkEffects.RefusedEffect | packages/meshtastic-link/src/transport.ts:940-995 | a refused chunk fails a best-effort message; of a tracked operation it goes back in front of the chunks still to be sent, for a resume |
| LinkEffects.PairSentEffect | packages/meshtastic-link/src/transport.ts:1118-1125 | after a shared frame was sent the receipt counts as sent and the report, if still tracked, waits to be sent again in full |
| LinkEffects.RetryEffect | packages/meshtastic-link/src/transport.ts:1236-1245 | a full retry sends every chunk from 0 to the last again and a resume those still to be sent, behind all other messages; nothing else changes |
| LinkEffects.DeadlineEffect | packages/meshtastic-link/src/transport.ts:1157-1176 | a missed deadline ends the operation as failed: queued, tracked and timed no more, with every other message as it was |
| LinkEffects.RejectionEffect | packages/meshtastic-link/src/transport.ts:1528-1587 | a rejection ends the operation as rejected, with every other message as it was |
| LinkEffects.ConfirmationEffect | packages/meshtastic-link/src/transport.ts:1528-1587 | a confirmation ends the operation as confirmed, except that a request stays awaited for its answer under its deadline and is sent no more |
| LinkEffects.RepairEffect | packages/meshtastic-link/src/transport.ts:1528-1587 | a repair request queues exactly the named chunks that exist, in its order; one that names none leaves the operation to a full retry |
| LinkEffects.ResponseEffect | packages/meshtastic-link/src/transport.ts:1811-1847 | the awaited answer ends its request as responded, with every other message as it was |
| LinkEffects.PauseEffect | packages/meshtastic-link/src/transport.ts:849-859 | a pause withdraws the requested pump, and its caller waits exactly if a chunk is on the air |
| LinkEffects.ResumeEffect | packages/meshtastic-link/src/transport.ts:861-865 | a resume requests a pump if and only if one was requested or the radio is free and a queued message may go |
| LinkEffects.StopEffect | packages/meshtastic-link/src/transport.ts:867-897 | a stopped service has nothing queued, tracked, requested, reserved or locked, and forgets no message |
| LinkReassembly.AcceptKeeps | packages/meshtastic-link/src/transport.ts:1284-1301 | an accepted chunk is filed under its index and the message completes with the last missing one |
| LinkReassembly.CollectKeeps | packages/meshtastic-link/src/transport.ts:1263-1302 | frames never make the table exceed its limit, file a message twice or exceed 128 KiB |
| LinkInboundInvariants.FirstResultStays | packages/meshtastic-link/src/transport.ts:2034-2044 | the first recorded result of an identity stays until it expires |
| LinkReception.DeliveredExactly | packages/meshtastic-link/src/transport.ts:1304-1470 | a complete message raises an event if and only if it is decoded and labelled as what it is, its source is current, Tasks come from Gateways for this Asset and reports from the Asset assigned, in order, an answer was asked for, its identity is neither pending nor settled within ten minutes, and there is room; the one event carries its identity and content, and it awaits its settlement |
| LinkReception.ReportsOfAssets | packages/meshtastic-link/src/transport.ts:1363-1377 | a report of the assigned Asset that is current, new and has room raises exactly one event with its identity and content; a report of a Gateway raises none |
| LinkReception.RefusedExactly | packages/meshtastic-link/src/transport.ts:1338-1441 | a message not on record is answered with a queued and recorded rejection if and only if it is addressed here and of the wrong sender, overtaken, or without room; nothing else has a message queued |
| LinkReception.RequestAnswered | packages/meshtastic-link/src/transport.ts:1413-1469 | delivering the answer to a request ends exactly that request as responded; delivering anything else sends nothing |
| LinkReception.OrderRemembered | packages/meshtastic-link/src/transport.ts:1472-1490 | a delivery neither overtaken nor repeated becomes the newest on record of its Task, and while there is room all others stay on record |
| LinkReception.ReceiptTaken | packages/meshtastic-link/src/transport.ts:1589-1607 | a receipt that rides on an Asset's report to this node is applied to the one operation it names as a confirmation, and no other receipt changes anything |
| LinkReception.ControlExactly | packages/meshtastic-link/src/transport.ts:1528-1587 | a control message to this node is applied to exactly the operation it names; a Gateway announces a source, whose fence then stands at its generation if that may be activated; no event is raised |
| LinkReception.FrameDelivers | packages/meshtastic-link/src/transport.ts:1247-1302 | a frame raises an event if and only if it completes a message that is delivered, and then exactly that one |
| LinkReception.ActivatedExactly | packages/meshtastic-link/src/transport.ts:1609-1648 | a source may be activated if and only if it goes on in its session, starts a later generation or is new with room, and in the latter cases is admitted; its fence then stands there, and exactly what its predecessors left half received is dropped |
| LinkAdmission.OthersStay | packages/meshtastic-link/src/transport.ts:1263-1283 | filing a chunk leaves every other incomplete message, except that a new one in a full table replaces one heard from longest ago |
| LinkAdmission.FiledExactly | packages/meshtastic-link/src/transport.ts:1247-1302 | a frame is filed if and only if it comes from another node, passes the fence and, for object content, is awaited here; any other only lets expired results be forgotten |
| LinkAdmission.ChunkExactly | packages/meshtastic-link/src/transport.ts:1284-1301 | a missing chunk of the same transmission is filed under its index while all fit in 128 KiB, the last one completes the message, a chunk too many drops it, and any other is ignored |
| LinkAdmission.AnnouncedExactly | packages/meshtastic-link/src/transport.ts:799-818 | an announcement is queued if and only if a Gateway announces an Asset of positive generation, its own fence may be activated, and the message can be sent |
| LinkEffects.TimeoutEffect | packages/meshtastic-link/src/transport.ts:1665-1714 | an incomplete message has exactly its missing chunks asked for while it is no state, addressed here and the answer can come before its deadline, waited for a second at most once the last chunk of an urgent one is there; else it is dropped |
| LinkEffects.SettleEffect | packages/meshtastic-link/src/transport.ts:653-674 | a verdict succeeds, for an unused identity, if and only if the answer can be queued; it is then queued for the sender and recorded unless a result is on record |
| LinkEffects.ExpiryEffect | packages/meshtastic-link/src/transport.ts:1752-1770 | a delivery never answered is pending no more, and a rejection is queued for its sender if and only if it fits |
| LinkAdmission.SettledTogetherEffect | packages/meshtastic-link/src/transport.ts:676-772 | a delivery settled together with its report has the receipt and then the report queued for the Gateway, and its confirmation with that report on record for ten minutes |
| LinkInboundInvariants.ActivateAdvances | packages/meshtastic-link/src/transport.ts:1623-1648 | fences only move to newer generations |
| LinkInboundInvariants.ActivateFences | packages/meshtastic-link/src/transport.ts:1609-1648 | a source that passes its fence stands at it afterwards and nothing behind it survives |
| LinkInboundInvariants.RoomGrows | packages/meshtastic-link/src/transport.ts:1420-1451 | pending and remembered identities together stay within 4096 |
| LinkInboundInvariants.PruneSettledExact | packages/meshtastic-link/src/transport.ts:2026-2032 | pruning from the front drops exactly the expired entries |
| LinkMessages.ReceiveKeeps | packages/meshtastic-link/src/transport.ts:1247-1302 | any frame, in any order, keeps the invariant of the whole transport |
| LinkMessages.SettleKeeps | packages/meshtastic-link/src/transport.ts:653-674 | settling a pending delivery leaves it remembered with the verdict; only an answer that cannot be sent leaves it pending |
| LinkMessages.SettleWithReportKeeps | packages/meshtastic-link/src/transport.ts:676-772 | the atomic settlement sends both messages and remembers the delivery, or changes no queue |
| LinkMessages.PendingExpiresKeeps | packages/meshtastic-link/src/transport.ts:1752-1770 | an application that never answers leaves a remembered delivery and the invariant |
| LinkOutcomes.ExpiryOutcome | packages/meshtastic-link/src/transport.ts:1752-1770 | an application that never answers turns into a recorded rejection, unless a result was on record, which stays |
| LinkMessages.AnnounceKeeps | packages/meshtastic-link/src/transport.ts:799-818 | announcing a source activation keeps the invariant |
| LinkOutcomes.AnnounceOutcome | packages/meshtastic-link/src/transport.ts:799-818 | an announcement is queued only once the own fence stands at the generation and session announced |
| LinkMessages.MatchingOwned | packages/meshtastic-link/src/transport.ts:1849-1875 | the operation an answer is matched with is under way, has the identity the answer names, and was addressed to its sender |
| LinkMessages.DeliverKeeps | packages/meshtastic-link/src/transport.ts:1388-1451 | whatever history, awaited answers and limits decide about a message, the invariant holds and no pending delivery is forgotten |
| LinkMessages.StopLinkKeeps | packages/meshtastic-link/src/transport.ts:867-897 | stopping clears both halves of the transport |
| LinkTransport.LinkTransport.constructor | packages/meshtastic-link/src/transport.ts:328-362 | a new session holds nothing and meets the invariant |
| LinkTransport.LinkTransport.TakeNextOutbound | packages/meshtastic-link/src/transport.ts:1003-1019 | one pass over the queue takes exactly the specified best message and gives away a free lock |
| LinkTransport.LinkTransport.CompoundReceiptPair | packages/meshtastic-link/src/transport.ts:1021-1090 | exactly the first queued report that fits beside the receipt leaves the queue with it |
| LinkTransport.LinkTransport.PumpBegin | packages/meshtastic-link/src/transport.ts:919-960 | the pump up to the radio: the whole new state |
| LinkTransport.LinkTransport.PumpEnd | packages/meshtastic-link/src/transport.ts:960-995 | what a sent or refused chunk makes of the state, and the `finally` block |
| LinkTransport.LinkTransport.RetryTimerFires | packages/meshtastic-link/src/transport.ts:1236-1245 | the whole new state after a retry timer |
| LinkTransport.LinkTransport.PruneCommittedOperationIDs | packages/meshtastic-link/src/transport.ts:1991-2008 | a moving head with occasional compaction forgets exactly what the specification forgets |
| LinkTransport.LinkTransport.RetainCompletedOperation | packages/meshtastic-link/src/transport.ts:1982-1989 | a completed identity joins the expiry queue and may schedule the wakeup |
| LinkTransport.LinkTransport.CompleteOutbound | packages/meshtastic-link/src/transport.ts:1772-1795 | the whole new state after a terminal outcome |
| LinkTransport.LinkTransport.CompleteDataRequest | packages/meshtastic-link/src/transport.ts:1811-1847 | the awaited answer completes exactly its request |
| LinkTransport.LinkTransport.DeadlineTimerFires | packages/meshtastic-link/src/transport.ts:2154-2158 | the whole new state after a deadline |
| LinkTransport.LinkTransport.CancelOperation | packages/meshtastic-link/src/transport.ts:787-797 | the whole new state after a cancellation |
| LinkTransport.LinkTransport.ApplyControl | packages/meshtastic-link/src/transport.ts:1528-1587 | the whole new state after a confirmation, rejection or repair request |
| LinkTransport.LinkTransport.PrepareOutbound | packages/meshtastic-link/src/transport.ts:459-608 | the checks in the order of the source and every refusal |
| LinkTransport.LinkTransport.CommitOutbound | packages/meshtastic-link/src/transport.ts:610-651 | the whole new state after a commit |
| LinkTransport.LinkTransport.ReplaceEarlier | packages/meshtastic-link/src/transport.ts:1891-1906 | a queued, unsent publication of the same resource is replaced and its operation failed |
| LinkTransport.LinkTransport.SubmitMessage | packages/meshtastic-link/src/transport.ts:364-366 | the whole new state and status of a submission |
| LinkTransport.LinkTransport.ReserveTaskDelivery | packages/meshtastic-link/src/transport.ts:393-437 | the whole new state of a reservation, refused or not |
| LinkTransport.LinkTransport.DispatchReservedTask | packages/meshtastic-link/src/transport.ts:393-437 | the whole new state of dispatching a reservation |
| LinkTransport.LinkTransport.PauseSending | packages/meshtastic-link/src/transport.ts:849-859 | the whole new state of a pause |
| LinkTransport.LinkTransport.ResumeSending | packages/meshtastic-link/src/transport.ts:861-865 | the whole new state of a resume |
| LinkTransport.LinkTransport.StopTransport | packages/meshtastic-link/src/transport.ts:867-897 | the whole new state of a stop, for some order of the failures |
| LinkTransport.LinkTransport.ActivateSourceFence | packages/meshtastic-link/src/transport.ts:1623-1648 | the fence decision, and the reassemblies it drops |
| LinkTransport.LinkTransport.PruneSettledInbound | packages/meshtastic-link/src/transport.ts:2026-2032 | the loop over the history drops what the specification drops |
| LinkTransport.LinkTransport.RecordSettledInbound | packages/meshtastic-link/src/transport.ts:2034-2044 | first result wins; the oldest entries go beyond 4096 |
| LinkTransport.LinkTransport.AcceptTaskDelivery | packages/meshtastic-link/src/transport.ts:1472-1490 | whether a Task delivery is new, repeated or stale |
| LinkTransport.LinkTransport.HandleCompleteMessage | packages/meshtastic-link/src/transport.ts:1304-1470 | the whole new state after a complete message |
| LinkTransport.LinkTransport.MakeReassemblyRoom | packages/meshtastic-link/src/transport.ts:1908-1917 | the reassembly heard from longest ago gives way |
| LinkTransport.LinkTransport.CollectFrame | packages/meshtastic-link/src/transport.ts:1263-1301 | the table after a frame and the completed bytes, if any |
| LinkTransport.LinkTransport.ExpectsObjectContent | packages/meshtastic-link/src/transport.ts:1650-1663 | object content is admitted only for a known settlement or an awaited request |
| LinkTransport.LinkTransport.ReceiveFrame | packages/meshtastic-link/src/transport.ts:1247-1302 | the whole new state after a frame |
| LinkTransport.LinkTransport.ReassemblyTimerFires | packages/meshtastic-link/src/transport.ts:1682-1714 | an incomplete message is asked for again or dropped |
| LinkTransport.LinkTransport.SettleInbound | packages/meshtastic-link/src/transport.ts:653-674 | the whole new state after the application settles a delivery |
| LinkTransport.LinkTransport.SettleInboundWithTaskReport | packages/meshtastic-link/src/transport.ts:676-772 | the whole new state after an atomic Task settlement |
| LinkTransport.LinkTransport.PendingTimerFires | packages/meshtastic-link/src/transport.ts:1752-1770 | the whole new state after a delivery that was never settled |
| LinkTransport.LinkTransport.AnnounceSourceActivation | packages/meshtastic-link/src/transport.ts:799-818 | the whole new state after an activation is announced |
| LinkTransport.RemoveAll | packages/meshtastic-link/src/transport.ts:2193-2195 | removing from the back in place leaves exactly the other references in order |
| LinkTransport.JoinChunks | packages/meshtastic-link/src/transport.ts:2121-2132 | the loop joins the chunks in index order |
| CompactRoundTrip.CompactRoundTrips | packages/meshtastic-link/src/compact-value.ts:45-81 | every payload the encoder accepts is decoded to a value whose canonical text is exactly that payload, within every limit of the decoder |
| CompactEncodes.EncodesExactly | packages/meshtastic-link/src/compact-value.ts:45-66 | a payload is encoded if and only if it is the canonical text of the value it parses to, at most 128 KiB long, nested at most 64 deep, of at most 65536 values, and the result is at most 512 KiB; no text in it is then too long |
| CompactRoundTrip.DecodeRejectsExactly | packages/meshtastic-link/src/compact-value.ts:68-81 | decoding rejects exactly what cannot be read and what has a canonical text of more than 128 KiB |
| CompactRoundTrip.BudgetExact | packages/meshtastic-link/src/compact-value.ts:178-248 | after any successful read the budget has grown by exactly the length of the canonical text of the value |
| CompactRoundTrip.LimitCuts | packages/meshtastic-link/src/compact-value.ts:332-351 | a limit rejects exactly the values whose canonical text exceeds it, however early the reader notices |
| CompactRoundTrip.ObjectSize | packages/meshtastic-link/src/canonical-json.ts:24-34 | the canonical length of an object does not depend on the order of its fields |
| CompactRoundTrip.ValueReads | packages/meshtastic-link/src/compact-value.ts:83-279 | the reader returns the value written, whatever follows it, at the same node count and with an equal text table |
| CompactRoundTrip.CompactInjective | packages/meshtastic-link/src/compact-value.ts:45-66 | no two payloads share a compact form |
| CompactRoundTrip.FloatReads | packages/meshtastic-link/src/compact-value.ts:125-145 | a number that is no safe integer is read back from its four or eight bytes |
| CompactRoundTrip.NumbersEncode | packages/meshtastic-link/src/compact-value.ts:45-66 | the encoder does accept payloads: an array of any one number within the size limit is one |
| Doubles.NarrowedExactly | packages/meshtastic-link/src/compact-value.ts:138-144 | a double is written as a single exactly when it is a single widened, and then as that single |
| Doubles.WidenedKeepsValue | packages/meshtastic-link/src/compact-value.ts:455-460 | widening a single, subnormal or not, keeps sign and value |
| Doubles.SafeValueMeans | packages/meshtastic-link/src/compact-value.ts:125-136 | a double is taken for an integer exactly when its value is that safe integer |
| Doubles.LittleReads | packages/meshtastic-link/src/compact-value.ts:395-407 | the little-endian bytes of a pattern are read back as that pattern |
| CompactTokens.VarintRoundTrip | packages/meshtastic-link/src/compact-value.ts:387-453 | every safe integer within the bound is read back within eight bytes |
| CompactTokens.VarintCanonical | packages/meshtastic-link/src/compact-value.ts:437-453 | only the canonical bytes of an integer are accepted |
| CompactTokens.UuidRoundTrip | packages/meshtastic-link/src/compact-value.ts:281-298 | a packed identifier is written back as the same text |
| CompactTokens.TextRoundTrip | packages/meshtastic-link/src/compact-value.ts:147-279 | reference, vocabulary, identifier and literal tokens are told apart, and writer and reader tables are equal after each |
| CompactCodec.WriteValue | packages/meshtastic-link/src/compact-value.ts:83-123 | the recursive writer produces the specified bytes exactly when they fit, and fails otherwise |
| CompactCodec.WriteText | packages/meshtastic-link/src/compact-value.ts:147-176 | the token written and the table after it |
| CompactCodec.ReadValue | packages/meshtastic-link/src/compact-value.ts:178-248 | the recursive reader, its position, counters, table and budget agree with the specification, failures included |
| CompactCodec.ReadText | packages/meshtastic-link/src/compact-value.ts:250-279 | the text read and the table after it, failures included |
| CompactCodec.EncodeCompactValue | packages/meshtastic-link/src/compact-value.ts:45-66 | the whole encoder equals its specification |
| CompactCodec.DecodeCompactValue | packages/meshtastic-link/src/compact-value.ts:68-81 | the whole decoder equals its specification |
| CompactCodec.TextTable.Index | packages/meshtastic-link/src/compact-value.ts:353-372 | index and value list of the table agree |
| CompactCodec.TextTable.Add | packages/meshtastic-link/src/compact-value.ts:361-365 | a text is added once and never beyond 32 entries |
| CompactCodec.Writer.PutVarint | packages/meshtastic-link/src/compact-value.ts:387-394 | the loop writes the specified bytes or reports that they do not fit |
| CompactCodec.Reader.TakeVarint | packages/meshtastic-link/src/compact-value.ts:437-453 | the loop reads what the specification reads, failures included |
| CompactCodec.CanonicalBudget.SpendString | packages/meshtastic-link/src/compact-value.ts:344-350 | a string is charged the length of its canonical text |
| TextEncoding.Utf8RoundTrip | packages/meshtastic-link/src/binary-codec.ts:50-118 | every string, unpaired surrogates included, survives encoding and decoding |
| TextEncoding.EncodeBinaryUtf8 | packages/meshtastic-link/src/binary-codec.ts:50-77 | the loop writes the bytes of section 3 of RFC 3629, widened to unpaired surrogates |
| TextEncoding.DecodeBinaryUtf8 | packages/meshtastic-link/src/binary-codec.ts:79-118 | the loop accepts and decodes exactly what the specification does |
| TextEncoding.Utf8Joins | packages/meshtastic-link/src/binary-codec.ts:50-77 | encoding distributes over concatenation unless the seam would pair two surrogates |
| TextEncoding.CanonicalJSONStringBytes | packages/meshtastic-link/src/compact-value.ts:474-506 | the length computed without building the text is the length of the escaped UTF-8 text of section 7 of RFC 8259 |
| TextEncoding.EscapedBytes | packages/meshtastic-link/src/compact-value.ts:474-499 | the escape of each code point costs what the loop adds for it |
| Json.OrderedSorts | packages/meshtastic-link/src/canonical-json.ts:24-34 | listing names by code units or as an object lists them sorts them without repetition |
| JsonPatch.DiffRebuilds | packages/meshtastic-link/src/state-delta.ts:323-422 | applying the difference of two documents to the first gives exactly the second |
| JsonPatch.DiffEmpty | packages/meshtastic-link/src/state-delta.ts:323-339 | the difference is empty exactly for equal documents |
| JsonPatch.BelowEdits | packages/meshtastic-link/src/state-delta.ts:366-422 | a patch moved below a field changes exactly that field, as the patch changes its value |
| JsonPatch.ChangesChange | packages/meshtastic-link/src/state-delta.ts:330-336 | the changes listed for some names bring exactly those fields to their new values |
| JsonPatch.ApplyPatch | packages/meshtastic-link/src/state-delta.ts:366-406 | the loop over the operations computes the patched document or fails with the first operation that does |
| StateDeltaRuns.DecodingIsSound | packages/meshtastic-link/src/state-delta.ts:77-217 | under any loss, repetition and reordering, decoding a sent packet gives exactly the publication of its identity, and nothing exactly for a delta whose baseline is not held |
| StateDeltaRuns.NewestAreKept | packages/meshtastic-link/src/state-delta.ts:197-217 | in every reachable state each remembered scope holds the two newest fulls received since it was admitted |
| StateDeltaRuns.RunKeeps | packages/meshtastic-link/src/state-delta.ts:64-218 | baselines of both sides and packets on the wire always agree with what was published |
| StateDelta.DeltaRestores | packages/meshtastic-link/src/state-delta.ts:167-195 | a delta against a kept baseline is decoded to exactly the publication |
| StateDelta.PreparesExactly | packages/meshtastic-link/src/state-delta.ts:77-108 | a publication is prepared if and only if its identity is valid, it is a state publication and it fits into a message |
| StateDelta.DeltaOfferedExactly | packages/meshtastic-link/src/state-delta.ts:77-108 | a delta is offered if and only if an earlier full publication of the scope was sent within the interval and the change can be encoded within 128 KiB; it names that publication and turns its document into the new one |
| StateDelta.CommitsExactly | packages/meshtastic-link/src/state-delta.ts:110-142 | a committed full publication becomes the baseline of its scope unless a later one is |
| StateDelta.DecodesExactly | packages/meshtastic-link/src/state-delta.ts:153-195 | a payload is decoded if and only if it is a valid full publication that fits, or a delta against an earlier one of the two kept that gives a valid publication of its resource that fits |
| StateDelta.RememberKeepsNewest | packages/meshtastic-link/src/state-delta.ts:197-217 | whatever the order of arrival, the two newest fulls are kept |
| StateDelta.RenewedKeeps | packages/meshtastic-link/src/state-delta.ts:121-138 | renewing keeps the cache within its limit, changes one entry and at most forgets others |
| StateDeltaCodec.StateDeltaEncoder.PrepareState | packages/meshtastic-link/src/state-delta.ts:77-108 | every refusal, the full publication, and a delta exactly when a usable baseline allows one; nothing is remembered yet |
| StateDeltaCodec.StateDeltaEncoder.CommitFull | packages/meshtastic-link/src/state-delta.ts:110-140 | a preparation is committed at most once and never over a newer baseline |
| StateDeltaCodec.StateDeltaDecoder.RememberFull | packages/meshtastic-link/src/state-delta.ts:197-217 | the cache after a full publication |
| StateDeltaCodec.StateDeltaDecoder.Decode | packages/meshtastic-link/src/state-delta.ts:153-195 | the publication and the cache after any payload |
| SharedPictures.SharedPicture.EventsAfter | packages/meshtastic-link/src/picture.ts:285-292 | for every accepted cursor the returned events turn the snapshot of that revision into the current records; otherwise the error says whether the cursor is wrong or expired |
| PictureState.EventsRebuild | packages/meshtastic-link/src/picture.ts:431-449 | the retained events rebuild the records, however the buffer was trimmed |
| SharedPictures.SharedPicture.Emit | packages/meshtastic-link/src/picture.ts:431-449 | the buffer keeps the longest run of last events within both limits; an oversized event empties it |
| PictureState.TrimEvents | packages/meshtastic-link/src/picture.ts:441-446 | the trimming loop drops no more than the limits require |
| SharedPictures.SharedPicture.Apply | packages/meshtastic-link/src/picture.ts:116-229 | outcome and new picture, for every order of the checks; the picture stays accounted, bounded and rebuilt by its log |
| PictureOutcomes.AcceptedExactly | packages/meshtastic-link/src/picture.ts:116-229 | a publication is accepted if and only if its source is admitted, its number is higher than any remembered of its source and resource, it is newer in version, rank, time and sequence than the record and revives a deletion, and there is room; it is refused as stale if and only if nothing but that order stood in its way |
| PictureOutcomes.HigherVersionEnters | packages/meshtastic-link/src/picture.ts:471-519 | a strictly higher version is accepted over the record, unless deleted or without room; any lower version is refused as stale |
| PictureOutcomes.AppliedEffect | packages/meshtastic-link/src/picture.ts:116-229 | an accepted publication is the record or deletion the picture holds, with its content, version and context; all other entries stand but for the freshness of the Tasks of the Asset it shows; a refused one changes no record but the Tasks of a returning Asset |
| PictureOutcomes.NeverAgain | packages/meshtastic-link/src/picture.ts:131-160 | after an accepted publication nothing its source sends of that resource in that session under the same or a lower number is accepted |
| PictureOutcomes.PositionExactly | packages/meshtastic-link/src/picture.ts:122-160 | an admitted publication, stale or not, moves the position of its source on its resource unless that is ahead already or there is no room; one not admitted changes nothing |
| PictureOutcomes.FreshExactly | packages/meshtastic-link/src/picture.ts:186-187 | a resource is taken over as fresh unless it is an unfinished Task in doubt by its last state or its Asset's record, deletion or connection, and not published by or with that Asset |
| PictureOutcomes.RefreshedExactly | packages/meshtastic-link/src/picture.ts:250-275 | a refresh removes ended Tasks after ten minutes and Assets and tracks after two minutes or half a minute, marks them stale after 30 or 5 seconds, and degrades the unfinished Tasks of Assets so lost |
| PictureOutcomes.DisconnectedExactly | packages/meshtastic-link/src/picture.ts:250-275 | as time passes exactly the Assets silent for half a minute and those whose record goes or ages are disconnected |
| PictureOutcomes.SilencedExactly | packages/meshtastic-link/src/picture.ts:250-257 | the unfinished Tasks of exactly the silent Assets are degraded |
| PictureRules.ApplyInOrder | packages/meshtastic-link/src/picture.ts:116-229 | no record gives way to anything but a newer publication, and no deletion to anything but a higher version or the same version at a higher confirmation rank |
| PictureState.NewerNeverOlder | packages/meshtastic-link/src/picture.ts:471-512 | a newer publication never has a lower version, nor a lower rank at one version unless observed later |
| PictureState.MutuallyNewer | packages/meshtastic-link/src/picture.ts:471-512 | two publications of one resource, of any kind, version, source and session, are each newer than the other exactly when the one of higher rank speaks of the earlier moment |
| PictureState.TrackContested | packages/meshtastic-link/src/picture.ts:471-512 | a track confirmed by Core and its later observation by its Asset are each newer than the other |
| PictureState.TaskContested | packages/meshtastic-link/src/picture.ts:471-512 | a Task update rejected by Core and a later one waiting for Core are each newer than the other |
| PictureRules.MarkMeans | packages/meshtastic-link/src/picture.ts:231-248 | marking an Asset changes exactly the freshness of its unfinished Tasks |
| PictureRules.RemovalLast | packages/meshtastic-link/src/picture.ts:185-195 | announcing a removal after the changes it caused leaves what removing first would have left |
| PictureRules.RefreshMeans | packages/meshtastic-link/src/picture.ts:250-275 | refreshing removes exactly the expired records, makes the aged ones stale, and degrades exactly the unfinished Tasks of Assets among those two |
| PictureState.RetainRecordOk | packages/meshtastic-link/src/picture.ts:401-423 | retaining a record keeps bytes equal to the sum of sizes, within 16 MiB and 4096 entries, and keys disjoint from tombstones |
| PictureState.RetainTombstoneOk | packages/meshtastic-link/src/picture.ts:401-423 | retaining a tombstone does the same |
| PictureState.RemoveRecordOk | packages/meshtastic-link/src/picture.ts:425-429 | removing a record does the same |
| SharedPictures.SharedPicture.MarkSourceConnectivity | packages/meshtastic-link/src/picture.ts:231-248 | the loop emits one event for each changed Task, in order, and leaves charges and tombstones alone |
| SharedPictures.SharedPicture.ActivateSource | packages/meshtastic-link/src/picture.ts:299-325 | the decision, and the state after a new, repeated or restarted source |
| SharedPictures.SharedPicture.Refresh | packages/meshtastic-link/src/picture.ts:250-275 | both loops, over silent Assets and over ageing records, have exactly the specified effect |
| SharedPictures.SharedPicture.StoreDeletion | packages/meshtastic-link/src/picture.ts:176-195 | tombstone, Tasks and connectivity after a deletion, with a log that rebuilds the records |
| SharedPictures.SharedPicture.StoreRecord | packages/meshtastic-link/src/picture.ts:219-228 | record, Tasks and connectivity after an upsert, with a log that rebuilds the records |
| SharedPictures.SharedPicture.Unmark | packages/meshtastic-link/src/picture.ts:146-150 | a capacity refusal restores the source position as it was |
| TaskDispatcher.OrderedTaskDispatcher.QueuesOrdered | packages/meshtastic-link/src/gateway.ts:152-290 | after every call no Task is queued twice for an Asset, cancellations come first in a sorted queue, and the total is within the limit |
| TaskDispatcher.OrderedTaskDispatcher.AssignmentsAlone | packages/meshtastic-link/src/gateway.ts:324-355 | an assignment was only ever sent with no cancellation and no other Task of that Asset in flight |
| TaskDispatcher.BatchFits | packages/meshtastic-link/src/gateway.ts:226-264 | a batch never exceeds the slots counted for it, even if sends failed while it was admitted |
| TaskDispatcher.OrderedTaskDispatcher.EnqueueCancellation | packages/meshtastic-link/src/gateway.ts:182-208 | refused, changing nothing, exactly when there is no room; otherwise it stands first in the queue or was sent, nothing else of its Task is queued or assigned, and every other delivery is queued still or was sent |
| TaskDispatcher.OrderedTaskDispatcher.EnqueueAssignment | packages/meshtastic-link/src/gateway.ts:182-224 | ignored changing nothing, sent again if it failed in flight, refused changing nothing exactly when it is new and there is no room, and otherwise queued or sent, with everything queued before still queued or sent |
| TaskDispatcher.OrderedTaskDispatcher.EnqueueAssignments | packages/meshtastic-link/src/gateway.ts:226-264 | a batch is refused, changing nothing, exactly when its new Tasks do not fit; otherwise the last version of each Task that is not in flight or to be cancelled is queued or was sent, cancellations and other Tasks lose nothing, and a failed delivery of the batch is sent again |
| TaskDispatcher.OrderedTaskDispatcher.ObserveTerminalTask | packages/meshtastic-link/src/gateway.ts:277-290 | a Task that ended is neither queued nor in flight for its Asset, and every other delivery is queued still or was sent, and in flight still if it was |
| TaskDispatcher.OrderedTaskDispatcher.Pump | packages/meshtastic-link/src/gateway.ts:324-355 | the head is sent exactly when nothing in flight forbids it; taken it is in flight, refused for good it is dropped, refused for capacity it stays; and whatever fails meanwhile, nothing gets lost or leaves flight |
| TaskDispatcher.OrderedTaskDispatcher.HandleSettled | packages/meshtastic-link/src/gateway.ts:459-493 | exactly the settled delivery leaves its place, which is free or taken by a queued Task; everything queued is queued still or was sent |
| TaskDispatcher.OrderedTaskDispatcher.HandleFailure | packages/meshtastic-link/src/gateway.ts:459-493 | the delivery whose operation failed stays in flight, marked as failed unless it was sent again; nothing gets lost |
| TaskDispatcher.OrderedTaskDispatcher.RetryFailedAssignment | packages/meshtastic-link/src/gateway.ts:414-434 | a failed assignment is sent again unless a cancellation is in flight, and is afterwards under way anew or failed with this version noted for the next try |
| TaskDispatcher.OrderedTaskDispatcher.RetireTask | packages/meshtastic-link/src/gateway.ts:509-527 | exactly what is in flight of the Task is called off; everything else stays in flight, queued or was sent |
| TaskDispatcher.MovesTrans | packages/meshtastic-link/src/gateway.ts:152-493 | what sends in progress may do composes: items are queued, in flight or sent, failures stay marked until sent again, and new flights come from the queue |
| TaskOrder.EarlierIsInstant | packages/meshtastic-link/src/gateway.ts:564-575 | comparing timestamps of section 5.6 of RFC 3339 is comparing instants, whatever their fraction digits |
| TaskOrder.BeforeTotal | packages/meshtastic-link/src/gateway.ts:555-562 | the comparison is consistent: never both ways, and not standing before is transitive |
| TaskOrder.BeforeExactly | packages/meshtastic-link/src/gateway.ts:555-562 | cancellations stand before assignments, and assignments in the order of their instants of creation and then of their identities |
| TaskOrder.SortSorts | packages/meshtastic-link/src/gateway.ts:201-223 | sorting orders the queue and keeps its members |
| SubscriptionDemand.LocalSubscriptionDemand.Subscribe | packages/meshtastic-link/src/subscriptions.ts:15-22 | a change is reported exactly when nobody wanted the selector; replaying the changes gives the wanted selectors |
| SubscriptionDemand.LocalSubscriptionDemand.Unsubscribe | packages/meshtastic-link/src/subscriptions.ts:24-30 | a removal is reported exactly when nobody else wants the selector |
| SubscriptionDemand.LocalSubscriptionDemand.Disconnect | packages/meshtastic-link/src/subscriptions.ts:32-39 | a leaving client reports exactly what nobody else wants |
| SubscriptionDemand.GatewaySubscriptionDemand.Apply | packages/meshtastic-link/src/subscriptions.ts:77-92 | the change reported is exactly the change of demand; replaying all changes gives the active selectors, which cover every unexpired lease |
| SubscriptionDemand.GatewaySubscriptionDemand.Expire | packages/meshtastic-link/src/subscriptions.ts:94-103 | afterwards the active selectors are exactly those with an unexpired lease |
| SubscriptionDemand.GatewaySubscriptionDemand.Aggregate | packages/meshtastic-link/src/subscriptions.ts:105-119 | exactly the selectors with an unexpired lease |
| SubscriptionDemand.AppliedDemand | packages/meshtastic-link/src/subscriptions.ts:77-92 | a message affects only its own selector |
| SubscriptionDemand.GatewayFeedDemand.Apply | packages/meshtastic-link/src/gateway.ts:93-122 | only a newer message of its source changes demand |
| SubscriptionDemand.GatewayFeedDemand.NewestDecides | packages/meshtastic-link/src/gateway.ts:80-126 | at any time the newest accepted message of a source, and nothing older, decides whether it demands the feed |
| CacheRuns.VersionsNeverFall | packages/sdk/src/cache.ts:300-420 | entry versions never decrease between hydrations, over all runs |
| CacheRuns.NoResurrection | packages/sdk/src/cache.ts:175-233 | a point read begun before its identity was deleted, by a feed deletion, a read that found nothing, a local delete or a hydration, or before it disappeared from view, changes nothing visible, whatever happens in between and even if the cache never held the identity |
| CacheRuns.DeletesOutdate | packages/sdk/src/cache.ts:202-271 | every deletion, of an identity held or not, outdates the reads of it begun before |
| CacheRuns.LocalDeleteOutdates | packages/sdk/src/cache.ts:390-403 | a read begun before a local delete starts is refused from then on |
| CacheRuns.StepForward | packages/sdk/src/cache.ts:235-271 | every step but a hydration keeps versions and generations growing and hides nothing without a new generation |
| CacheOutcomes.FeedUpsertExactly | packages/sdk/src/cache.ts:254-271 | a feed upsert is shown, at its version, if and only if it belongs to the identity, is of a higher version than what is held and is no update of something whose deletion is still to be reported; otherwise nothing changes |
| CacheOutcomes.WriteExactly | packages/sdk/src/cache.ts:235-252 | a write is shown if and only if no local delete of the same instance suppresses it and it is of a higher version or adds the content of an object known at that version; otherwise nothing changes |
| CacheOutcomes.PointReadExactly | packages/sdk/src/cache.ts:189-200 | a point read is shown if and only if neither a deletion nor a hydration has happened since it began, no local delete of it is under way, and it is newer or replaces the same version; otherwise nothing visible changes |
| CacheOutcomes.FeedDeleteExactly | packages/sdk/src/cache.ts:254-261 | a feed deletion of a higher version removes the resource and ends local deletes of it; any other changes nothing |
| CacheOutcomes.PointNotFoundExactly | packages/sdk/src/cache.ts:202-233 | a "not found" answer removes the entry its read saw if and only if that is still held and no later read is under way or has succeeded |
| CacheOutcomes.FailedReadExactly | packages/sdk/src/cache.ts:214-233 | when the last read fails, the "not found" answer that waited for it removes the entry if and only if that is still the one seen |
| CacheOutcomes.LocalDeleteExactly | packages/sdk/src/cache.ts:405-445 | a local delete that ends removes the entry if and only if that is what it was about and no feed deletion or creation came in between |
| CacheOutcomes.HydrateExactly | packages/sdk/src/cache.ts:273-298 | after a hydration the cache shows the newest resource listed for each identity and nothing else |
| CacheOutcomes.BeginReadExactly | packages/sdk/src/cache.ts:175-187 | a point read that begins is current, the last of its identity, and has seen what is held |
| CacheOutcomes.BeginDeleteExactly | packages/sdk/src/cache.ts:389-403 | a local delete that begins is about what is held and outdates the reads under way |
| CacheStore.ResourceCache.TakeSnapshot | packages/sdk/src/cache.ts:167-173 | always exactly the entries that are not deleted, rebuilt or not |
| CacheStore.ResourceCache.AcceptResource | packages/sdk/src/cache.ts:300-358 | the whole new state after an offered resource |
| CacheStore.ResourceCache.ApplyRead | packages/sdk/src/cache.ts:189-200 | the whole new state after a point read returns |
| CacheStore.ResourceCache.ReadNotFound | packages/sdk/src/cache.ts:202-233 | the whole new state after a point read finds nothing |
| CacheStore.ResourceCache.WriteApplied | packages/sdk/src/cache.ts:235-252 | the whole new state after a write |
| CacheStore.ResourceCache.FeedUpsertReceived | packages/sdk/src/cache.ts:254-271 | the whole new state after a feed upsert |
| CacheStore.ResourceCache.FeedDeleteReceived | packages/sdk/src/cache.ts:254-271 | the whole new state after a feed deletion |
| CacheStore.ResourceCache.StartLocalDelete | packages/sdk/src/cache.ts:390-403 | the whole new state when a local delete begins |
| CacheStore.ResourceCache.EndLocalDelete | packages/sdk/src/cache.ts:405-431 | the whole new state when a local delete is confirmed |
| CacheStore.ResourceCache.ReplaceHydratedResources | packages/sdk/src/cache.ts:273-298 | the whole new state after a hydration |
| CacheStore.ObjectContentCache.Get | packages/sdk/src/cache.ts:108-116 | a hit becomes the most recently used entry |
| CacheStore.ObjectContentCache.Put | packages/sdk/src/cache.ts:118-128 | the new content is the most recently used and the oldest goes beyond the limit |
| TaskEngine.TaskEngine.AtMostOnce | edge/asset/src/task-engine.ts:257-391 | each Task is dispatched at most once over any sequence of ingest calls |
| TaskEngine.TaskEngine.DispatchIsSafe | edge/asset/src/task-engine.ts:302-391 | a dispatch comes right after its start was granted and a state was read that meets every precondition, and it sends a climb by the height above the launch, a flight to the very target, the return home or the landing, as the Task asks |
| TaskEngine.TaskEngine.HoldComesFirst | edge/asset/src/task-engine.ts:131-172 | between a takeover or a requested go-to cancellation and the next dispatch a hold was sent |
| TaskEngine.OwesExactly | edge/asset/src/task-engine.ts:672-687 | a hold is owed exactly when some interruption has had no hold after it |
| TaskEngine.OrderIsMeant | edge/asset/src/task-engine.ts:442-474 | once the preconditions hold the order to send is the one the Task asks for, for each command |
| TaskEngine.ProgressIsNewBest | edge/asset/src/task-engine.ts:533-558 | hover noise never resets the stall timer: progress means a new best by half a metre or a later mode |
| TaskEngine.PilotTookMeans | edge/asset/src/task-engine.ts:690-696 | RTL and LAND on an order to return and LAND on an order to land interrupt nothing; any other known mode entered from guided flight during a takeoff or go-to does, and so does RTL during a landing |
| TaskEngine.TakenExactly | edge/asset/src/task-engine.ts:196-212 | the expected modes decide a takeover exactly as the command does that the log shows the aircraft was sent |
| TaskEngine.TaskEngine.ExpectedByName | edge/asset/src/task-engine.ts:690-696 | in every reachable state the modes expected of the active Task are those in which the command it was sent flies the aircraft |
| TaskEngine.ReadyExactly | edge/asset/src/task-engine.ts:393-440 | the preconditions hold if and only if the configured aircraft is heard of, in guided mode and in the state the Task starts from |
| TaskEngine.ThereExactly | edge/asset/src/task-engine.ts:576-623 | the goal of a Task is reached if and only if the aircraft hovers at the height, is at the place, or stands on the ground, for a return at the place of launch |
| TaskEngine.CandidateExactly | edge/asset/src/task-engine.ts:307-313 | the Task adopted is the first of the list that waits to be flown and is not finished, and there is none only if none waits |
| TaskEngine.TaskEngine.BeginExactly | edge/asset/src/task-engine.ts:355-375 | an adopted Task begins at the time read, with its distance to the goal as best value and, on the way home or down, its height and mode |
| TaskEngine.TaskEngine.AdvancesExactly | edge/asset/src/task-engine.ts:509-558 | a Task comes forward if and only if it is nearer to its target than ever, or on the way home or down by half a metre or in a later mode |
| TaskEngine.TaskEngine.JudgeExactly | edge/asset/src/task-engine.ts:497-531 | a Task fails if and only if it is out of time, and arrives if and only if it is in time and at its goal, for a takeoff after hovering there long enough |
| TaskEngine.HoldableExactly | edge/asset/src/task-engine.ts:672-687 | a hold goes out, at the place last observed, if and only if the aircraft is in guided mode and heard of |
| TaskEngine.TaskEngine.CorrectionExactly | edge/asset/src/task-engine.ts:625-654 | a failed go-to holds and an airborne failed takeoff lands, if armed in guided mode and heard of; nothing else is sent |
| TaskEngine.CalledOffExactly | edge/asset/src/task-engine.ts:269-291 | a called-off go-to is one under way whose last copy in the list is cancelled on request |
| TaskEngine.TaskEngine.Ingest | edge/asset/src/task-engine.ts:131-156 | one tick, with callbacks and sends failing at any point: terminal Tasks are finished, nothing finished is forgotten, at most one Task, of the list and not finished before, is dispatched, the Task under way is interrupted exactly if the pilot took the aircraft from it in terms of its command and the modes, and outside guided mode after a takeover every actionable Task is refused |
| TaskEngine.TaskEngine.Reconcile | edge/asset/src/task-engine.ts:257-300 | exactly the terminal Tasks of the list are finished, the active one is exchanged for its authoritative version or dropped, a called-off go-to makes a hold owed, and a report of a Task that ended is withdrawn |
| TaskEngine.TaskEngine.AdoptNext | edge/asset/src/task-engine.ts:302-391 | the first actionable unfinished Task is under way exactly when its preconditions held, its start was granted, they held again on the state read then, and the order went out; in every other case it is finished and its failure told or kept |
| TaskEngine.TaskEngine.Advance | edge/asset/src/task-engine.ts:497-531 | the active Task fails, arrives or goes on as judged from its time, progress and goal, with exactly the corresponding correction, report and log |
| TaskEngine.TaskEngine.JudgeMeans | edge/asset/src/task-engine.ts:497-623 | a Task arrives only at its goal, a takeoff only after hovering there, fails only past its time or without progress, and goes on only within both |
| TaskEngine.TaskEngine.FailActive | edge/asset/src/task-engine.ts:625-654 | a failed go-to holds and a failed takeoff lands, exactly while that is safe, then the failure is told; what could not be told is kept, and nothing else happens |
| TaskEngine.TaskEngine.EstablishHold | edge/asset/src/task-engine.ts:672-687 | a hold goes out exactly with authority, fresh telemetry and a send that succeeds |
| TaskEngine.TaskEngine.NoteTakeover | edge/asset/src/task-engine.ts:159-172 | a takeover out of the expected modes ends the active Task, makes a hold owed and tells or keeps the failure; any other changes nothing |
| TaskEngine.TaskEngine.RejectAll | edge/asset/src/task-engine.ts:215-255 | outside guided mode, or of the go-tos during a takeoff, exactly the actionable Tasks are refused and never run later |
| PacketNetwork.NextCarrierFreeStart | packages/meshtastic-link/src/simulation.ts:199-208 | the least start at or after the earliest that overlaps no open window |
| PacketNetwork.EarliestFitUnique | packages/meshtastic-link/src/simulation.ts:199-208 | that start is the only one that is free with nothing free before it |
| PacketNetwork.SimulatedPacketNetwork.OwnTransmissionsApart | packages/meshtastic-link/src/simulation.ts:178-197 | one radio never transmits twice at once, over all runs |
| PacketNetwork.SimulatedPacketNetwork.BoundedFlooding | packages/meshtastic-link/src/simulation.ts:216-300 | each packet is transmitted at most once per radio and within its hop limit |
| PacketNetwork.SimulatedPacketNetwork.ReserveTransmission | packages/meshtastic-link/src/simulation.ts:178-197 | the reserved window fits after the radio's own ones and, sensing the carrier, beside every other it hears |
| PacketNetwork.SimulatedPacketNetwork.ReceptionEnds | packages/meshtastic-link/src/simulation.ts:230-313 | an intact packet is delivered once and forwarded once |
| DeviceFraming.ChunkInvariance | packages/meshtastic-link/src/device-framing.ts:4-35 | every way of splitting the stream gives the packets, retained bytes and failure of the whole stream |
| DeviceFraming.RetainedBound | packages/meshtastic-link/src/device-framing.ts:4-35 | never more than one incomplete frame, at most 65,538 bytes, is retained |
| DeviceFraming.RecoversThroughNoise | packages/meshtastic-link/src/device-framing.ts:4-35 | frames with noise between them that holds no start pair come back exactly |
| DeviceFraming.RecoversFrames | packages/meshtastic-link/src/device-framing.ts:4-35 | an uninterrupted sequence of frames is read exactly |
| DeviceFraming.AcceptsExactly | packages/meshtastic-link/src/device-framing.ts:4-35 | without debug output a stream of bytes is accepted with certain packets and a certain rest exactly when it is those frames one after another and the start of at most one more, and fails exactly when something else follows a sequence of frames |
| DeviceFraming.SerialRoundTrip | packages/meshtastic-link/src/serial.ts:40-50 | however the stream is split, what the serial transport wrote is recovered |
| DeviceFraming.FrameParser.Transform | packages/meshtastic-link/src/device-framing.ts:8-30 | one chunk: packets, retained bytes and failure as specified |
| ZstandardBoundary.AcceptsExactly | packages/meshtastic-link/src/compression-methods.ts:104-129 | the check accepts exactly the bytes of one complete frame of section 3.1.1 of RFC 8878 |
| ZstandardBoundary.AssertBoundary | packages/meshtastic-link/src/compression-methods.ts:104-129 | the method decides exactly the specified predicate |
| ZstandardBoundary.FindEnd | packages/meshtastic-link/src/compression-methods.ts:114-127 | the block walk stops behind the block marked last or fails as specified |
| FragmentDelivery.FragmentsRebuild | packages/meshtastic-link/src/frame.ts:111-143 | the frames of a payload, at most 4096 and each within min(maxFrameBytes, 233), received in any order with any repetition, complete as one body, which restores exactly that payload unless it was sent as it is and reads as an envelope of something else; only a payload that begins with an envelope marker can |
| FragmentDelivery.EnvelopeMistaken | packages/meshtastic-link/src/frame.ts:111-143 | under any encoding but the message encodings a payload that is itself an envelope of another is received as that other |
| FrameExample.MarkerLost | packages/meshtastic-link/src/frame.ts:123-143 | with the example codecs a payload that begins with an envelope marker arrives without it |
| MessageFrame.MessageFrameReads | packages/meshtastic-link/src/frame.ts:403-409 | a message-v1 frame within the packet size is decoded to exactly what was encoded, unless session, operation or message identity is blank, which is refused |
| MessageFrame.BinaryFrameReads | packages/meshtastic-link/src/frame.ts:312-320 | the same for a binary-v1 frame, whose payload is repacked and deflated with the header |
| MessageFrame.FramedFaithful | packages/meshtastic-link/src/frame.ts:145-196 | with a deflate that can be undone, these frames and the choice of the older form meet what delivery asks of the codecs |
| MessageFrame.HeaderMeans | packages/meshtastic-link/src/frame.ts:462-489 | the fields of a header are understood as they were meant exactly when the names in it are not blank |
| FrameExample.PlainFaithful | packages/meshtastic-link/src/frame.ts:111-143 | codecs that meet everything asked of the unseen ones exist |
| FrameExample.PlainSplits | packages/meshtastic-link/src/frame.ts:123-143 | with those codecs every payload of 233 to 4096 bytes goes out in several frames |
| FragmentDelivery.AnyOrderRebuilds | packages/meshtastic-link/src/transport.ts:1284-1301 | a reassembly completes exactly when the last missing chunk arrives, and with exactly the body sent |
| FragmentDelivery.FragmentCarries | packages/meshtastic-link/src/frame.ts:111-143 | whatever the encoding, the frames carry the payload or a shorter envelope that restores to it |
| FragmentDelivery.SplitCarries | packages/meshtastic-link/src/frame.ts:198-226 | the frames of the chosen chunk size decode to the non-empty chunks of the body in order |
| Fragmentation.SearchLargest | packages/meshtastic-link/src/frame.ts:130-142 | the chunk size found is the largest feasible one in its range; a failing search has excluded every size or met an encoding failure |
| FragmentChoice.FewestFrames | packages/meshtastic-link/src/frame.ts:111-143 | a split succeeds unless no chunk size will do or a frame cannot be encoded; its frames fit and are the fewest that cutting into equal chunks allows |
| FragmentChoice.PayloadFewest | packages/meshtastic-link/src/frame.ts:111-143 | in the older encodings all frames fit and no way of cutting the payload into equal chunks takes fewer |
| FragmentChoice.OnePacket | packages/meshtastic-link/src/frame.ts:323-378 | a payload that fits one packet goes out as one frame, in the method frame only where that is shorter |
| FragmentChoice.NewerNoWorse | packages/meshtastic-link/src/frame.ts:323-378 | a newer encoding takes no more frames and no more bytes than the one before it, and succeeds where that does unless its envelope cannot be made |
| Fragmentation.SplitLoop | packages/meshtastic-link/src/frame.ts:130-142 | the search loop returns the frames of that size or the same failure |
| Fragmentation.FragmentEncodedMessage | packages/meshtastic-link/src/frame.ts:380-401 | the envelope search, with its early exit for receipts, equals the plain search with range failures forgiven |
| Fragmentation.ReceiptNeverSplits | packages/meshtastic-link/src/frame.ts:380-401 | a message with a receipt that needs several frames cannot be split at any smaller size |
| Fragmentation.ChunksConcat | packages/meshtastic-link/src/frame.ts:198-211 | the chunks of any size are non-empty and join to the body |
| Fragmentation.FramesFit | packages/meshtastic-link/src/frame.ts:213-226 | the loop answers whether every frame fits, or the first encoding failure |
| Fragmentation.FramesForChunkSize | packages/meshtastic-link/src/frame.ts:198-211 | the loop builds the frames in order |
| BinaryHeader.HeaderRoundTrip | packages/meshtastic-link/src/frame.ts:411-444 | every header that can be written is read back, and exactly the bytes after it are left |
| BinaryHeader.BodyRoundTrip | packages/meshtastic-link/src/frame.ts:636-689 | a payload after the header, or beside it, is decoded with that header |
| BinaryHeader.EncodeBinaryHeader | packages/meshtastic-link/src/frame.ts:411-437 | the loops push the specified bytes, or fail on an over-long text |

## Left out

- Identities drawn at random (`createID`) and SHA-256 settlement identities are fresh numbers and injective tuples.
- The clock never runs backwards, and a radio send settles within the ten-minute retention of operation identities.
- Metrics, diagnostics, adaptive retry timing and radio request identities are not modelled: timers may fire at any time after they are set.
- Transport event listeners are pure observers; the order in which one notification reaches several of them is not modelled.
- The rotation of `operationResults` beyond 4096 entries and blank operation identities are not modelled.
- Message contents are their routing fields; the checks of `contract.ts` appear as predicates on messages.
- A state delta inside a Link frame is handed to the application like any state message; the deltas have a model of their own.
- Handshakes of `joining.ts`, `controller.ts`, `vehicle.ts`, `retry-timing.ts` and `telemetry-publisher.ts` are not part of this model.
- The value form of `binary-codec.ts` is left out: it is the compact value form without a text table, compact numbers and a byte budget.
- Compression with its dictionaries is a function with a left inverse; `Faithful` and `Lawful` say what is asked of it, and `FrameExample` meets it.
- The JSON text of a number is an arbitrary function of the number, minus zero counts as zero, and the vocabularies are arbitrary lists.
- Names of nodes and sessions hold no unpaired surrogates; operation and message identities stand for their texts.
- `JSON.parse` is an arbitrary function; the encoder accepts a payload only if it equals the canonical text of what was parsed.
- Patches and publications travel as values; their JSON text is not modelled, only its length.
- FragmentDelivery.FragmentsRebuild: identities whose names are white space are excluded, because their frames are refused.
- LinkAdmission.AnnouncedExactly: session names of white space, which the source refuses, are not told apart from others.
- TaskOrder.BeforeExactly: as under BeforeTotal, identities compare by code units.
- TaskOrder.BeforeTotal: identities compare by code units where the source uses `localeCompare`, whose order depends on the locale.
- FragmentDelivery.AnyOrderRebuilds: one reassembly without expiry or eviction; eviction and expiry are steps of the transport model.
- Picture subscribers, the order of records in a snapshot and fields of a record that no rule reads are not modelled.
- Two publications of one resource can each be newer than the other, as `PictureState.MutuallyNewer` shows; the code is followed as it is.
- Reservations of the dispatcher, persistence of its state and its logging are not modelled.
- TaskEngine.TaskEngine.Ingest: calls follow one another; what other calls do while one awaits a callback is not modelled.
- Distance on the ground is an arbitrary function, and altitudes are real numbers.
- Collisions, capture and random loss decide in the simulation whether a reception is intact; that decision is a parameter.
- Timestamps are already parsed into milliseconds and fraction digits.
- The cache deep-freezes and clones values; values here are immutable.
- HTTP, serial port, radio configuration, command line and plugin code is not part of this model.
