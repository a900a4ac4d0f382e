# A verified model of an SQS-compatible queue service

This project models the message plane of the service over its tables, the Query-protocol decoder, and the canonical
encodings it relies on, and proves what holds of them over every input and every run.

## What is modelled

**Tables.** `Records` has the row types, `Tables` the tables as one value with the meaning of each SQL statement, and
`Storage` the store as a class with one method for each statement. Keys that the schema declares unique are map keys. The
foreign keys cascade.

**Events.** `Plane` describes the effect of every request as events: send one, lease some, redrive one, refresh one receipt,
delete one, change one, apply due patches, drop expired ledger entries, reap one queue, make one pass of a move task, create,
tombstone, purge and patch a queue, start and cancel a task. `Runs` lets any sequence of enabled events happen at instants
that never go backwards. A theorem about runs is therefore about every interleaving of whole requests and of the loops inside
them.

**Handlers.** `Contents`, `Batches`, `Sending`, `Receiving`, `Acknowledging`, `Maintenance`, `Upkeeping` and `QueueHandlers` hold
the handlers with their loops, as methods on the store, and `Requests`, `ReceiveRequests` and `QueueRequests` the whole requests.
Each is proved equal to its effect on the tables, and each whole request to be a run of events. `Service` puts them together:
after any sequence of requests every invariant holds.

**In columns.** `Selections`, `RedriveLimits`, `Answers`, `CachedAnswers`, `Deduplication`, `SendLaws`, `HandleLaws`, `Upkept`, `QueueLaws`,
`TaskLaws` and `RequestLaws` say what all this comes to in the columns of the tables, the attributes of the queue and the literal
limits, without the vocabulary of the model; `FormKeys` and `EncodingLaws` do so for form keys and bytes.

**Decoding and encodings.** `QueryDecoding` has the shape-directed decoder with its loops and `QueryRoundTrip` its round
trip. `AttributeDigest`, `AttributeSizes`, `CanonicalQuery`, `Tokens` and `Pagination` are about the encodings.

## Main results

- The two tables that record leases agree in every reachable state, no lease exceeds its bound, and all unexpired leases on
  one FIFO group come from one receive call (`Runs.ReachableSound`).
- Every whole request is a run of events, maintenance included, so that all of this holds after any sequence of requests
  (`Service.ServedReaches`, `Service.SessionSound`).
- A receive selects exactly the messages that are due, in order, on either kind of queue (`Selections.SelectedAreVisible`,
  `Selections.SelectedInOrder`, `Selections.StandardLeavesNothing`, `Selections.FifoLeavesNothing`, `FifoOrder.DeliveredInOrder`), and
  answers each with its own receipt, also when it replays (`Answers.TurnPairs`, `CachedAnswers.ReplayPairs`).
- A FIFO queue deduplicates exactly over five minutes, within its scope (`Deduplication.Duplicates`, `Deduplication.DuplicatesInScope`,
  `Ledger.RunDeduplicates`).
- Maintenance ends, purges, patches and moves exactly what is due (`Upkept.MaintenanceEnds`, `Upkept.MaintenanceKeeps`,
  `Upkept.MaintenancePatches`, `Upkept.MaintenancePasses`).
- No message is lost silently and no deletion is undone (`Fates.RunFate`, `Fates.RunContinues`).
- The redrive loop ends under an exact condition, and then delivers what one pass would (`RedriveLimits.EndsExactly`,
  `RedriveLimits.OnePass`, `RedriveLimits.StandardLeaves`).
- Move tasks conserve messages, complete in time and never restart (`MoveTasks.PassConserves`, `MoveTasks.PassesComplete`,
  `MoveTasks.UnratedCompletes`, `MoveTasks.ReachableTasks`, `TaskLaws.CancelledStaysStill`).
- Decoding inverts flattening for every acyclic registry (`QueryRoundTrip.FlattenedDecodes`, `QueryRoundTrip.NamedDecodes`), and reads
  the keys that the protocol names (`FormKeys.EntriesRead`, `FormKeys.CreationRead`).
- The canonical query string is exact: it is the same for two lists of parameters if and only if they are the same multiset
  (`CanonicalQuery.CanonicalExact`).

## Where a promise does not hold

Each input is a state that a run from the empty store leads to.

- The redrive loop does not always end. If a scan has a message to redrive and the dead-letter queue is missing, deleted, or
  the queue itself, it never does; `Redrive.LoopEnds` gives the condition in both directions, `Witnesses.MissingQueueLoops` an
  input.
- A replayed receive attempt can lengthen a lease beyond twelve hours; `ReplayBounds.ReplayWithinTwelveHours` gives the
  condition in both directions, `LeaseBounds.StepBounds` the most it can exceed them by, and `Witnesses.ReplayPassesTwelveHours` an
  input.
- Reaping is not invisible while a purge window is open: it takes the live messages sent up to the end of the window, also
  those sent after the purge was requested; `LazyExpiry.ReapIsInvisible` gives the condition in both directions,
  `Witnesses.PurgeTakesLaterMessage` an input.
- The number of messages still to move that a task records is wrong exactly when a message was moved back into its source
  (`MoveTasks.PassCountsRemaining`, `Witnesses.MovedBackIsMiscounted`).
- Deduplication does not tell its two scopes apart. When the attribute changes from one to the other, a send in a group that is named
  like the queue can count as a repeat of one in another group; `Deduplication.Duplicates` has the condition in both directions.
- Listing queues does not refuse every bad token: on one that decodes to a negative offset the handler panics.
  `Pagination.PanicsExactly` says on which, `Pagination.MinusOnePanics` gives one, and `Pagination.HandedOutAnswers` says that the
  service hands out none.

## Assumptions

- A handler runs as one step at one instant, the instant it reads from the clock; nothing is claimed about requests that
  interleave inside a handler, because the code holds no transaction across its statements.
- Time never goes backwards. Instants are integers in milliseconds; queue and task columns are cut to whole seconds, as
  they are stored.
- Store calls succeed. There is one account and one region.
- Receipt handles are opaque and never drawn twice. Message ids, sequence numbers, hashes and the parsing of redrive policies
  are values or functions the model is given.
- A string stands for its bytes.
- `Receipt.call`, `Receipt.replayed`, `Tables.issued` and `Tables.nextCall` are bookkeeping of the model that no
  handler reads.
- Rows that `ORDER BY started_at` leaves tied are listed by id, in the same direction.

## Model

| member | source | states |
|---|---|---|
| Storage.Store.constructor | internal/storage/sqlite/store.go:32-147 | A new store is empty. |
| Storage.Store.FindByUrl | internal/storage/sqlite/store.go:298-300 | The queue row with this URL, if there is one. |
| Storage.Store.FindByArn | internal/storage/sqlite/store.go:302-304 | The queue row with this ARN, if there is one. |
| Storage.Store.FindByName | internal/storage/sqlite/store.go:290-292 | The queue row with this name, if there is one. |
| Storage.Store.ListQueues | internal/storage/sqlite/store.go:317-339 | All queue rows in the byte order of their names, each once. |
| Storage.Store.InsertQueue | internal/storage/sqlite/store.go:204-240 | Adds the row under the next id and changes nothing else. |
| Storage.Store.UpdateQueue | internal/storage/sqlite/store.go:242-252 | Replaces the row with this id, if there is one, and nothing else. |
| Storage.Store.DeleteQueueRow | internal/storage/sqlite/store.go:254-257 | Removes the row and, by the foreign keys, everything that belonged to it. |
| Storage.Store.SavePendingAttributes | internal/storage/sqlite/store.go:341-349 | Adds a pending patch with its due instant in whole seconds. |
| Storage.Store.ListDuePatches | internal/storage/sqlite/store.go:157-180 | The patches due at an instant, in (effective_at, id) order. |
| Storage.Store.InsertMoveTask | internal/storage/sqlite/store.go:446-472 | Adds the move task under the next id. |
| Storage.Store.UpdateMoveTask | internal/storage/sqlite/store.go:474-492 | Replaces the move task with this id, if there is one. |
| Storage.Store.FindRunningMoveTask | internal/storage/sqlite/store.go:511-522 | The newest running task of the source, if there is one. |
| Storage.Store.ListMoveTasksBySourceQueue | internal/storage/sqlite/store.go:494-509 | The newest tasks of a source, up to a limit; a task left out is older than all of them. |
| Storage.Store.ListRunningMoveTasks | internal/storage/sqlite/message_store.go:12-27 | The running and cancelling tasks, by start and id. |
| Storage.Store.InsertMessage | internal/storage/sqlite/message_store.go:29-75 | Adds the row under the next id. |
| Storage.Store.UpdateMessage | internal/storage/sqlite/message_store.go:77-116 | Replaces the row with this id, if there is one. |
| Storage.Store.ListMessagesByQueue | internal/storage/sqlite/message_store.go:123-138 | The rows of the queue, each once: an earlier row was sent before, or at the same instant and has the smaller id. |
| Storage.Store.DeleteMessagesByQueueBefore | internal/storage/sqlite/message_store.go:140-143 | Marks the undeleted rows of the queue sent up to the cutoff as deleted at the cutoff. |
| Storage.Store.InsertReceipt | internal/storage/sqlite/message_store.go:150-169 | Adds the receipt under its unique handle. |
| Storage.Store.UpdateReceipt | internal/storage/sqlite/message_store.go:171-183 | Replaces the receipt, if there is one. |
| Storage.Store.DeactivateReceiptsByMessage | internal/storage/sqlite/message_store.go:190-193 | Deactivates every receipt of the row and nothing else. |
| Storage.Store.InsertDedupEntry | internal/storage/sqlite/message_store.go:195-208 | Inserts or replaces the entry under its key. |
| Storage.Store.DeleteExpiredDedupEntries | internal/storage/sqlite/message_store.go:229-232 | Keeps exactly the entries that have not expired. |
| Storage.Store.InsertReceiveAttempt | internal/storage/sqlite/message_store.go:234-247 | Inserts or replaces the cached attempt. |
| Storage.Store.InvalidateReceiveAttempts | internal/storage/sqlite/message_store.go:270-273 | Invalidates the valid attempts of the queue. |
| Deliverable.LiveMessages | internal/service/messages.go:996-1011 | The live messages, sorted: an earlier one was sent before, or at the same instant and has no greater id. |
| Deliverable.GroupMessages | internal/service/messages.go:948-970 | The groups in the order of their first message, the members of each, and the locked groups. |
| Deliverable.FifoCandidateMessages | internal/service/messages.go:941-994 | The first `max` of the concatenation, over the groups in first-appearance order, of the longest visible prefix of each group without a leased message. |
| Deliverable.StandardCandidates | internal/service/messages.go:929-938 | The first `max` visible messages. |
| Deliverable.CandidateMessages | internal/service/messages.go:924-939 | Selection on either kind of queue equals the declarative specification `Candidates`. |
| Deliverable.OffersByGroup | internal/service/messages.go:972-992 | Visiting the groups in first-appearance order makes exactly the offers that the recursive specification declares. |
| DeliveryLaws.CandidatesSound | internal/service/messages.go:924-994 | A candidate is a visible message of the list, and on a FIFO queue no message of its group is leased. |
| DeliveryLaws.CandidatesDistinct | internal/service/messages.go:924-994 | No message is selected twice. |
| DeliveryLaws.FifoNeverOvertakes | internal/service/messages.go:941-994 | With a selected message every earlier live message of its group is selected before it. |
| DeliveryLaws.CandidatesDropped | internal/service/messages.go:692-717 | Leaving out visible messages that are not selected does not change the selection, on either kind of queue. |
| DeliveryLaws.StandardCount | internal/service/messages.go:929-938 | A standard queue selects min(max, visible) messages. |
| FifoOrder.DeliveredInOrder | internal/service/messages.go:924-1011 | In every reachable state a FIFO receive delivers every earlier live message of a delivered message's group before it, in the same response. |
| Integrity.CandidateRows | internal/service/messages.go:187-193 | The candidates of a queue are stored visible rows of it, one each. |
| Integrity.StepKeyed | internal/storage/sqlite/store.go:32-147 | Every event keeps ids, names, URLs, ARNs and handles consistent keys. |
| Leases.StepAgreement | internal/service/messages.go:193-221 | Lease agreement is invariant: an undeleted message has a deadline exactly when it has one and only one active receipt, with that deadline and the message's queue. |
| Leases.HolderOf | internal/service/messages.go:792-830 | The active receipt of an undeleted message is its only one, and has its deadline and queue. |
| Leases.VisibleMeansExpired | internal/service/messages.go:193-196 | Receiving and redriving deactivate only receipts whose lease has run out. |
| Leases.DeleteAgreement | internal/service/messages.go:792-830 | A delete keeps lease agreement. |
| Leases.SetLeaseAgreement | internal/service/messages.go:855-863 | Setting a new deadline in both tables keeps lease agreement. |
| Leases.MovePassAgreement | internal/service/messages.go:486-508 | A move pass keeps lease agreement. |
| Leases.ReapAgreement | internal/service/messages.go:394-427 | Reaping and purging keep lease agreement. |
| Leases.LeaseAgreementKept | internal/service/messages.go:191-221 | Leasing the candidates keeps lease agreement. |
| LeaseBounds.StepBounds | internal/service/messages.go:843-857 | Every event keeps every lease below issue + 12 h + 5 min, and up to issue + 12 h if it was never replayed, together with the tie of cached attempts to the receipts they name: they expire exactly five minutes after the issue. |
| LeaseBounds.RefreshBounds | internal/service/messages.go:744-777 | A refresh happens less than five minutes after the issue of the receipt it refreshes. |
| ReplayBounds.ReplayWithinTwelveHours | internal/service/messages.go:744-777 | In every sound state the leases a replay refreshes, successful or abandoned, are within twelve hours of their issue if and only if there are none or now + timeout is within twelve hours of the caching of the attempt; the replay succeeds if and only if all were refreshed. |
| ReplayBounds.SuccessfulReplay | internal/service/messages.go:166-170 | The same for a successful replay, over the deliveries it answers with. |
| ReplayBounds.RefreshedPart | internal/service/messages.go:752-777 | What an abandoned replay leaves is what replaying the deliveries before the failing one leaves. |
| FifoLocks.StepReferenced | internal/storage/sqlite/store.go:104 | Every message stays in an existing queue. |
| FifoLocks.StepExclusive | internal/service/messages.go:941-994 | Group exclusivity is invariant: all unexpired leases on live messages of one group of a FIFO queue come from one receive call. |
| FifoLocks.LeaseExclusive | internal/service/messages.go:187-221 | A receive call enters only groups that nobody holds. |
| FifoLocks.ExclusiveLater | internal/service/messages.go:952-954 | Exclusivity is kept as time passes. |
| Runs.ReachableSound | internal/service/messages.go:131-262 | In every state a run from the empty store leads to: consistent keys, lease agreement, bounded leases, tied attempts, exclusive groups. |
| Runs.RunSound | internal/service/messages.go:131-262 | Every run keeps all invariants together. |
| Runs.RunJoins | internal/service/messages.go:131-262 | Runs compose. |
| Traces.ReachesOn | internal/service/messages.go:131-262 | A request made of events leads from a reachable state to a reachable state. |
| Traces.RequestRuns | internal/service/messages.go:131-262 | The events of a request are a run. |
| Ledger.RunDeduplicates | internal/service/messages.go:606-625 | Over any run two insertions under one (queue, scope, deduplication id) are at least five minutes apart; a send inserts exactly if there is none within five minutes, and otherwise gets that one's response. |
| Ledger.StepAccounts | internal/service/messages.go:677-687 | Every event keeps the ledger an exact account of the insertions of the last five minutes. |
| Ledger.SendAnswers | internal/service/messages.go:606-625 | How one send is answered from that account, both ways. |
| Contents.ReadContent | internal/service/messages.go:577-650 | The checks of characters and attributes in their order, the size of the attributes, and the digests the response carries. |
| Sending.CheckEntry | internal/service/messages.go:578-624 | The first reason, in the order of the source, for which an entry is refused, or none. |
| Sending.SendMessageEntry | internal/service/messages.go:577-690 | Answer and new tables of one entry: every refusal with its error, including those of characters and attributes, a duplicate, and an insertion. |
| Sending.SendEntries | internal/service/messages.go:108-123 | Answers and new tables of the entry loop: the entries sent one after the other. |
| Batches.CheckBatch | internal/service/messages.go:79-106 | The checks of a send batch as a whole, with the first error in the order of the source. |
| Batches.BatchAccepted | internal/service/messages.go:79-106 | A send batch is accepted if and only if it has one to ten entries with valid, distinct ids and acceptable attributes, and is at most a mebibyte. |
| Batches.ValidateBatchIds | internal/service/messages.go:1395-1420 | The checks of the other batches, with the first error. |
| Batches.IdsAccepted | internal/service/messages.go:1395-1420 | They are accepted if and only if they have one to ten entries with valid, distinct ids. |
| Batches.AnswerEach | internal/service/messages.go:108-128 | The two lists a batch answers with. |
| Batches.AnswerSucceeds | internal/service/messages.go:108-128 | The successes are exactly the ids with a successful result, each with that result. |
| Batches.AnswerFails | internal/service/messages.go:113-115 | The failures are exactly the ids with an error, each with that error. |
| Sending.BatchRepeats | internal/service/messages.go:108-123 | Two accepted entries of one batch under the same deduplication key get the same answer. |
| Sending.BatchLeads | internal/service/messages.go:108-123 | A batch is a run of sends. |
| Visibility.SentIsVisible | internal/service/messages.go:653-675 | An inserted message is live until its retention ends and deliverable exactly from the end of its delay until then; no other message is affected. |
| Visibility.LeasedIsHidden | internal/service/messages.go:193-206 | A leased message is out of sight until its deadline and deliverable again exactly from then on while it lives, with one more receive counted. |
| Visibility.DeletedIsNeverDelivered | internal/service/messages.go:817-821 | After any run, no receive of any queue selects a message that was deleted. |
| Visibility.NewQueueIsEmpty | internal/service/sqs.go:80-116 | A created queue has no messages, also under the name of a deleted one, and all other queues keep theirs. |
| Fates.StepFollows | internal/service/messages.go:394-427 | A message that is not deleted ends in a step if and only if it is deleted through its held receipt, its retention is over or a purge covers it when its queue is reaped, or its queue's tombstone is replaced; identity and deletion never change. |
| Fates.DeletePresentsTheLease | internal/service/messages.go:792-830 | A delete ends a message only through its one active receipt, while its lease runs. |
| Fates.RunFate | internal/service/messages.go:394-427 | No silent loss: after a run a message is gone if and only if some event of the run ended it. |
| Fates.RunContinues | internal/service/messages.go:486-508 | Over a run message id, body, group and deduplication id never change, no deletion is undone, and no row comes back. |
| Fates.PassFollows | internal/service/messages.go:486-508 | The pass that clears the deletion column never brings a deleted message back. |
| Redrive.LoopEnds | internal/service/messages.go:692-717 | The redrive loop ends if and only if its first scan has nothing to redrive or the dead-letter queue is a live queue other than this one. |
| Redrive.Settles | internal/service/messages.go:692-717 | With such a dead-letter queue the loop ends; the measure is the number of visible messages at or over the limit. |
| Redrive.SettledStays | internal/service/messages.go:712-715 | Once a scan is settled further rounds would change nothing, so the end of the loop is one state. |
| Redrive.Stuck | internal/service/messages.go:727-730 | Without one, a loop that has something to redrive never ends. |
| Redrive.RoundsRedrive | internal/service/messages.go:719-742 | After any number of rounds the messages that left are in the dead-letter queue, with their source noted and their receive counts kept, and nothing else has changed. |
| Redrive.LeftMessages | internal/service/messages.go:719-742 | Row by row: a message that left is visible in the dead-letter queue with its source noted, its receive count and identity kept and no active receipt; all other rows and receipts are untouched. |
| Redrive.MapCandidates | internal/service/messages.go:924-994 | Selection commutes with changes that visibility, leases and groups do not show. |
| Witnesses.MissingQueueLoops | internal/service/messages.go:727-730 | A run from the empty store after which a receive never ends: the dead-letter queue is missing. |
| Witnesses.ReplayPassesTwelveHours | internal/service/messages.go:771 | A run from the empty store after which a whole receive is a successful replay that leaves a lease of twelve hours and a second. |
| Witnesses.PurgeTakesLaterMessage | internal/service/messages.go:414-415 | A run from the empty store after which reaping takes a message that was sent after the purge was requested. |
| Witnesses.MovedBackIsMiscounted | internal/service/messages.go:510-512 | A run from the empty store after which a pass records nothing left to move while a message is still there. |
| Receiving.RedriveToTarget | internal/service/messages.go:719-742 | One redrive, including that it does nothing without a live dead-letter queue. |
| Receiving.RedriveCandidates | internal/service/messages.go:702-711 | The candidate loop redrives exactly the candidates at or over the limit. |
| Receiving.SelectOnce | internal/service/messages.go:693-715 | One turn of the selection loop. |
| Receiving.SelectMessagesForReceive | internal/service/messages.go:692-717 | Returns under the exact condition of `LoopEnds`, with the state and the selection of a settled scan. |
| Receiving.LeaseOne | internal/service/messages.go:193-220 | Leases one message: row, receipt and delivery. |
| Receiving.LeaseEach | internal/service/messages.go:192-221 | The leasing loop: one delivery for each candidate, in order. |
| Receiving.LeaseIsInTurn | internal/service/messages.go:192-241 | Leasing the candidates one by one comes to leasing them all at once. |
| Receiving.LeaseCandidates | internal/service/messages.go:191-242 | Deliveries and new tables of the leasing loop and the caching of the attempt. |
| Receiving.RefreshReceipt | internal/service/messages.go:752-776 | One turn of the replay loop: it refreshes both deadlines or finds that it must not. |
| Receiving.ReplayReceiveAttempt | internal/service/messages.go:744-790 | On success exactly the stored response; otherwise nothing, with the receipts before the failing one refreshed. |
| Receiving.ReplayLeases | internal/service/messages.go:752-790 | After a successful replay every handle is the active receipt of a live message of the queue, and both deadlines are now + timeout. |
| Receiving.ReplayOnlyDeadlines | internal/service/messages.go:744-790 | A replay, even an abandoned one, issues no receipt and changes nothing but deadlines. |
| Receiving.PollOnce | internal/service/messages.go:187-243 | Answer and new tables of selecting and leasing. |
| ReceiveRuns.ReplayLeads | internal/service/messages.go:744-790 | A replay, even one given up halfway, is a run of refreshes and keeps every invariant. |
| ReceiveRuns.ReceiveLeads | internal/service/messages.go:187-243 | Redrives and lease of a receive are a run of events. |
| ReceiveRuns.RoundsLead | internal/service/messages.go:692-717 | The redrives of a receive are a run. |
| Requests.Open | internal/service/messages.go:131-140 | How a request begins: maintenance, then the live queue of the URL or the error. |
| Requests.OpenReady | internal/service/messages.go:43-55 | How sending and receiving begin: the queue must be past its creation delay too. |
| Requests.SendMessage | internal/service/messages.go:43-62 | The whole request: maintenance, lookup, readiness, and the entry with every refusal. |
| Requests.SendMessageBatch | internal/service/messages.go:64-129 | The whole request: maintenance, lookup, readiness, the checks of the batch, and the entries under their ids. |
| Requests.DeleteMessage | internal/service/messages.go:264-279 | The whole request. |
| Requests.DeleteMessageBatch | internal/service/messages.go:281-310 | The whole request, with the checks of the batch. |
| Requests.ChangeMessageVisibility | internal/service/messages.go:312-330 | The whole request, with its range check. |
| Requests.ChangeMessageVisibilityBatch | internal/service/messages.go:332-367 | The whole request, with the checks of the batch and the range check of each entry. |
| Requests.SendsLead | internal/service/messages.go:43-129 | A send, alone or in a batch, is with its maintenance a run of events. |
| Requests.DeletedLeads | internal/service/messages.go:264-310 | A delete, alone or in a batch, is with its maintenance a run of events. |
| Requests.ChangedLeads | internal/service/messages.go:312-367 | A change of visibility, alone or in a batch, is with its maintenance a run of events. |
| ReceiveRequests.CheckReceive | internal/service/messages.go:145-165 | The range checks of a receive: number, wait, timeout, and attempt id. |
| ReceiveRequests.CheckAndReplay | internal/service/messages.go:145-172 | The checks of a receive request, every refusal included, and the replay. |
| ReceiveRequests.Poll | internal/service/messages.go:175-243 | One turn of the polling loop. |
| ReceiveRequests.ReceiveMessage | internal/service/messages.go:131-247 | The whole request to the end of its first turn: every refusal, the replay, or the selected and leased messages. |
| ReceiveRequests.PollLeads | internal/service/messages.go:175-243 | A turn of the polling loop is a run of events. |
| ReceiveRequests.ReceivedLeads | internal/service/messages.go:131-247 | A whole receive is a run of events: maintenance, refreshes, and unless the replay succeeded maintenance again, redrives and the lease. |
| QueueRequests.CreateQueueRequest | internal/service/sqs.go:58-116 | The whole request for valid attributes, with the mutations it applies first. |
| QueueRequests.DeleteQueueRequest | internal/service/sqs.go:118-133 | The whole request. |
| QueueRequests.SetQueueAttributesRequest | internal/service/sqs.go:220-250 | The whole request for valid attributes. |
| QueueRequests.PurgeQueueRequest | internal/service/sqs.go:430-448 | The whole request. |
| QueueRequests.StartMessageMoveTask | internal/service/sqs.go:499-549 | The whole request: maintenance, lookups with their errors, the running task if there is one, else a new task and a pass of every running one. |
| QueueRequests.CancelMessageMoveTask | internal/service/sqs.go:551-578 | The whole request: maintenance, lookup, and the task of this handle among the ten newest of the source. |
| QueueRequests.MoveRequestedLeads | internal/service/sqs.go:499-549 | Starting a move task is a run: maintenance, the new task, and a pass of every running one. |
| QueueRequests.MoveCancelledLeads | internal/service/sqs.go:551-578 | Cancelling a move task is a run. |
| Service.ServedLeads | internal/service/messages.go:43-367 | Every modelled request, whatever it asks for, is a run of events. |
| Service.ServedReaches | internal/service/messages.go:43-367 | From a reachable state every request leads to a reachable state, in which every invariant holds. |
| Service.SessionSound | internal/service/messages.go:43-367 | After any sequence of whole requests from the empty store every invariant holds: keys, lease agreement, lease bounds, tied attempts, exclusive groups. |
| Acknowledging.DeleteByReceiptHandle | internal/service/messages.go:792-830 | Result and new tables for every case of the handle. |
| Acknowledging.ChangeVisibilityByReceiptHandle | internal/service/messages.go:832-869 | Result and new tables for every case of the handle. |
| Maintenance.ApplyDueQueueMutations | internal/storage/sqlite/store.go:149-202 | Applies the due patches in order. |
| Maintenance.ExpireEach | internal/service/messages.go:399-413 | The expiry loop, message by message. |
| Maintenance.ExpireMessages | internal/service/messages.go:395-413 | Expires exactly the undeleted messages whose retention is over, and deactivates their receipts. |
| Maintenance.ReapQueue | internal/service/messages.go:394-427 | Expiry, purge and the closing of the purge window. |
| Maintenance.ResolveMoveDestination | internal/service/messages.go:527-549 | The destination of one message, if it resolves to a live queue. |
| Maintenance.MoveMessages | internal/service/messages.go:463-508 | The move loop, message by message, with its two counters. |
| Maintenance.PassIsLoop | internal/service/messages.go:463-520 | The loop comes to the declarative pass: the first movable live messages up to the limit. |
| Maintenance.ProcessMoveTask | internal/service/messages.go:442-525 | One pass of a task, or its failure when the source is gone. |
| Upkeeping.ReapQueues | internal/service/messages.go:380-387 | Reaps every live queue of the listing. |
| Upkeeping.ProcessMoveTasks | internal/service/messages.go:429-440 | One pass of every running task, oldest first. |
| Upkeeping.Maintain | internal/service/messages.go:369-392 | The whole of maintenance. |
| Upkeeping.MaintenanceLeads | internal/service/messages.go:369-392 | Maintenance is a run of events. |
| MoveTasks.PassConserves | internal/service/messages.go:463-508 | A pass conserves messages: moved rows are live at their destination with their identity, all other rows are untouched, and the source keeps what was not moved or was moved back. |
| MoveTasks.PassCounts | internal/service/messages.go:510-520 | moved + remaining is the number of live messages of the source, and the move task stops exactly when it was cancelling or nothing remains. |
| MoveTasks.PassCountsRemaining | internal/service/messages.go:510-512 | The recorded number still to move is the number of live messages left if and only if no message was moved back into the source. |
| MoveTasks.PassTakesFirst | internal/service/messages.go:466-479 | The moved messages come before every movable one that stays, and one stays only if the limit is reached. |
| MoveTasks.PassesComplete | internal/service/messages.go:463-520 | A running task from a live queue to another live one with limit m completes n messages within max(1, ceil(n/m)) passes and leaves none. |
| MoveTasks.UnratedCompletes | internal/service/messages.go:458-461 | A running task without a rate from a live queue to another live one completes in its first pass, however many messages there are. |
| MoveTasks.RunTasks | internal/service/sqs.go:499-578 | Over any run no source gets a second running task, and a stopped task stays stopped with its count. |
| MoveTasks.StoppedStaysStill | internal/service/messages.go:429-440 | No later run has a pass of a task that has stopped. |
| MoveTasks.ReachableOneRunning | internal/service/sqs.go:504-509 | In every reachable state no source has two running tasks. |
| MoveTasks.ReachableTasks | internal/service/sqs.go:499-578 | Both without a hypothesis, over every run from every reachable state. |
| Numerals.RoundsCeiling | internal/service/sqs.go:172-178 | The number of turns is max(1, ceil(n/m)). |
| QueueHandlers.MakeQueue | internal/service/sqs.go:58-116 | Result and new tables of a creation: blocked name, existing queue with equal or other attributes, replaced tombstone, new queue. |
| QueueHandlers.LookupQueueByURL | internal/service/sqs.go:580-589 | The live queue of a URL or the error. |
| QueueHandlers.BuryQueue | internal/service/sqs.go:118-133 | Deletion leaves a tombstone with its reuse block. |
| QueueHandlers.OpenPurge | internal/service/sqs.go:430-448 | Refused while a purge window is open, else opens one. |
| QueueHandlers.SchedulePatch | internal/service/sqs.go:235-250 | The end of a change of attributes: it is only scheduled, with the propagation time of its kind. |
| QueueHandlers.LookupQueueByARN | internal/service/sqs.go:591-600 | The live queue of an ARN or the error. |
| QueueHandlers.CountLive | internal/service/sqs.go:529-537 | Counts the live messages of a queue. |
| QueueHandlers.StartMove | internal/service/sqs.go:504-549 | Answers with the running task if there is one, whatever the destination; else refuses a missing destination, or inserts a task and makes a pass of every running task. |
| QueueHandlers.CancelListed | internal/service/sqs.go:560-578 | Stops the listed task of the handle, whatever its status, or answers that there is none. |
| QueueHandlers.RunningTaskIs | internal/storage/sqlite/store.go:511-522 | A newest running task is found if and only if some task of the source runs. |
| Patches.ApplyTwice | internal/storage/sqlite/store.go:149-202 | Applying due patches at a and again at b >= a leaves the attributes and pending patches of applying once at b. |
| Patches.PatchesApply | internal/storage/sqlite/store.go:183-199 | Attributes are overridden left to right by the patches of the queue, and exactly the patches of existing queues are no longer pending. |
| Patches.LastPatchWins | internal/storage/sqlite/store.go:191 | The last patch that sets an attribute decides it. |
| Patches.LaterDue | internal/storage/sqlite/store.go:156-180 | What is still due later is what was not applied before, in the same order. |
| LazyExpiry.ReapIsInvisible | internal/service/messages.go:394-413 | Reaping changes no live listing of any queue at any later instant, so no selection and no counter, if and only if no purge window covers a live message. |
| LazyExpiry.CountMessages | internal/service/messages.go:902-918 | The three counters of a queue. |
| LazyExpiry.CountersAgree | internal/service/messages.go:896-939 | The counters partition the live messages, and a standard receive selects min(max, visible). |
| QueryDecoding.CollectIndices | internal/protocol/query/decode.go:186-210 | The indices below a prefix, ascending, whatever order the keys are visited in. |
| QueryDecoding.NamedWired | internal/protocol/query/names.go:9-55 | A registry without dots in its names has no dots in its wire names, so that it meets the hypothesis of the round trip. |
| QueryDecoding.DecodeStructure | internal/protocol/query/decode.go:80-98 | The structure case equals the specification, errors included. |
| QueryDecoding.DecodeElement | internal/protocol/query/decode.go:107-124 | An element, or the bare text as a primitive. |
| QueryDecoding.DecodeList | internal/protocol/query/decode.go:99-125 | The list case equals the specification. |
| QueryDecoding.ReadEntry | internal/protocol/query/decode.go:133-151 | One entry of a map. |
| QueryDecoding.DecodeMap | internal/protocol/query/decode.go:126-153 | The map case equals the specification. |
| QueryDecoding.DecodeShape | internal/protocol/query/decode.go:77-165 | Terminates by shape rank and equals the specification, a function of the form alone. |
| QueryRoundTrip.RoundTrip | internal/protocol/query/decode.go:77-165 | Decoding a form that carries the flattened canonical value below the prefix gives the value back. |
| QueryRoundTrip.DecodesNothing | internal/protocol/query/decode.go:77-165 | Where there are no keys nothing is found. |
| QueryRoundTrip.IndicesOf | internal/protocol/query/decode.go:186-210 | The indices below a flattened list or map of n elements are 1 to n. |
| QueryRoundTrip.RequestRoundTrip | internal/protocol/query/decode.go:35-47 | The round trip for the input of a request, whatever other keys the form has. |
| QueryRoundTrip.FlattenedDecodes | internal/protocol/query/decode.go:15-48 | Flattening an input and decoding the form gives the input back. |
| QueryRoundTrip.NamedDecodes | internal/protocol/query/decode.go:15-48 | The same for every acyclic registry whose names have no dots and whose structures have distinct, non-empty wire names. |
| AttributeDigest.DigestInput | internal/service/messages.go:1301-1329 | The hashed bytes depend on the map alone, not on its order. |
| AttributeDigest.WriteAttribute | internal/service/messages.go:1310-1328 | What one attribute adds to the buffer. |
| AttributeDigest.ReadBack | internal/service/messages.go:1345-1350 | The hashed bytes can be read back to names, types and values. |
| AttributeDigest.DigestInjective | internal/service/messages.go:1301-1329 | Equal bytes if and only if equal names, types and decoded values. |
| AttributeSizes.NormalizeAttributes | internal/service/messages.go:1182-1254 | Accepts if and only if each attribute is accepted, keeps what the type calls for, and measures what it keeps; otherwise answers with the error of the first refused name. |
| AttributeSizes.RefusesFirst | internal/service/messages.go:1190-1202 | The error is that of the first refused name in the given order, and there is one if and only if some name is refused. |
| AttributeSizes.AcceptedDecode | internal/service/messages.go:1227-1229 | Accepted attributes can always be hashed. |
| AttributeSizes.EstimateMessageSize | internal/service/messages.go:1352-1362 | Body length plus the sizes of all attributes, in any order. |
| AttributeSizes.BatchEntrySize | internal/service/messages.go:96-102 | The estimate of an accepted entry is its body length plus exactly the size found on acceptance; a refused one gives the error of the refusal. |
| CanonicalQuery.AwsPercentEncode | internal/auth/auth.go:461-475 | The loop computes the percent-encoding. |
| CanonicalQuery.DecodeEncoded | internal/auth/auth.go:461-475 | Percent-encoding is invertible on all byte strings. |
| CanonicalQuery.EncodeUnchanged | internal/auth/auth.go:466-468 | A string is its own encoding if and only if all its characters are unreserved. |
| CanonicalQuery.CanonicalInAnyOrder | internal/auth/auth.go:419-424 | The canonical string is the same for every ordering of the parameters. |
| CanonicalQuery.CanonicalReadBack | internal/auth/auth.go:405-430 | The canonical string can be read back to the encoded parameters, sorted. |
| CanonicalQuery.CanonicalDecodes | internal/auth/auth.go:405-430 | Reading it back and percent-decoding gives the parameters, each as often as it was given. |
| CanonicalQuery.CanonicalExact | internal/auth/auth.go:405-430 | Two lists of parameters have the same canonical string if and only if they are the same multiset. |
| CanonicalQuery.CollectPairs | internal/auth/auth.go:412-417 | Encodes and collects the values of one key, leaving out the signature of a presigned request. |
| CanonicalQuery.BuildCanonicalQueryString | internal/auth/auth.go:405-430 | The result is the canonical string of the parameters in every enumeration of the keys. |
| Tokens.Base64Back | internal/service/helpers.go:100 | Decoding the encoding gives the bytes back. |
| Tokens.TokenBack | internal/service/helpers.go:96-112 | A token leads back to its offset, and is empty exactly at the start. |
| Pagination.CollectLiveUrls | internal/service/sqs.go:164-170 | The URLs of the live queues in the order of their names. |
| Pagination.CutPage | internal/service/sqs.go:171-179 | One page and the token of the next. |
| Pagination.ListQueues | internal/service/sqs.go:147-185 | For every token: the page, the refusal, or the panic on a negative offset. |
| Pagination.PanicsExactly | internal/service/sqs.go:171-174 | Listing panics if and only if the token is base64 for the text of a negative 64-bit number. |
| Pagination.EveryNegativeOffset | internal/service/helpers.go:103-112 | There is such a token for every negative 64-bit number. |
| Pagination.MinusOnePanics | internal/service/sqs.go:171-174 | A concrete token on which listing panics. |
| Pagination.HandedOutAnswers | internal/service/sqs.go:175-179 | No token that the service hands out does that: each is answered with its page. |
| QueueRequests.ListQueuesRequest | internal/service/sqs.go:147-185 | The whole request, with the mutations it applies first. |
| Pagination.LiveQueuesListed | internal/service/sqs.go:160-170 | The list has the URL of every live queue exactly once. |
| Pagination.PagesVisitAll | internal/service/sqs.go:171-184 | Following the tokens from the start gives the whole list in order, in max(1, ceil(n/m)) pages. |
| Strings.LessAtFirstDifference | internal/storage/sqlite/store.go:317-339 | The order of names: the first byte that differs decides, and a proper beginning comes first. |
| Selections.SelectedAreVisible | internal/service/messages.go:924-1024 | What is selected is stored in the queue, not deleted, not past its retention, past its delay and not leased, each once; on a FIFO queue it has a group in which nothing is leased. |
| Selections.SelectedInOrder | internal/service/messages.go:941-1011 | A standard selection and each group of a FIFO one is in the order of sending, and groups come in the order of their first live message. |
| Selections.StandardLeavesNothing | internal/service/messages.go:929-938 | A deliverable message is left out of a standard selection only if that is full, of messages sent before. |
| Selections.FifoLeavesNothing | internal/service/messages.go:941-994 | A due message is left out of a FIFO selection only if that is full, of messages of its group sent before and of groups that come before. With the three laws above this determines the selection. |
| RedriveLimits.OverLimit | internal/service/messages.go:1026-1052 | When a message is redriven: the policy reads, with a target and a positive limit, and the receive count has reached it. |
| RedriveLimits.TargetNamed | internal/service/messages.go:719-730 | The dead-letter queue is the live queue with the ARN of the policy, and there is none only if no live queue has it. |
| RedriveLimits.DeliveredBelowLimit | internal/service/messages.go:702-716 | When the loop stops every selected message has a receive count below the limit. |
| RedriveLimits.LeftAtLimit | internal/service/messages.go:719-742 | Row by row: what left was deliverable and had reached the limit, and is in the dead-letter queue, visible now, with its source noted and all else as it was; no other row has changed. |
| RedriveLimits.NoPolicyNoRedrive | internal/service/messages.go:1026-1029 | Without a valid policy the first scan is the last and no table changes. |
| RedriveLimits.EndsExactly | internal/service/messages.go:692-717 | The loop ends if and only if there is no valid policy, the first scan selects nothing at the limit, or the policy names a live queue other than this one. |
| RedriveLimits.OnePass | internal/service/messages.go:692-717 | What the loop selects, on either kind of queue, is what one pass over the original live messages selects without the deliverable ones whose receive count has reached the limit. |
| RedriveLimits.StandardLeaves | internal/service/messages.go:692-717 | Which messages leave a standard queue: the deliverable ones at or over the limit with fewer than `max` deliverable ones below it before them. |
| Receiving.LeasePairs | internal/service/messages.go:193-220 | Each delivery has the handle of its own message: an active receipt, issued now, that names the row with its message id, body and receive count. |
| Receiving.LeaseOnly | internal/service/messages.go:193-220 | All other messages are as they were, and of all other receipts those of the leased messages end. |
| Answers.SelectedPairs | internal/service/messages.go:187-242 | The i-th message of a leased answer is the i-th selected one, paired with its own receipt that runs for the timeout in seconds. |
| Answers.AnswerCached | internal/service/messages.go:223-240 | A leased answer is cached under its attempt id for five minutes, and only then. |
| Answers.TurnReached | internal/service/messages.go:131-184 | A receive that is answered, and not by a replay, comes to a turn in the live queue of its URL, after the replay and a second maintenance. |
| Answers.TurnTaken | internal/service/messages.go:131-242 | That turn selects and leases with the timeout of the request, or else of the queue. |
| Answers.TurnPairs | internal/service/messages.go:187-242 | What a turn answers was deliverable in the queue, is below the limit of its policy, and is paired with its own receipt. |
| CachedAnswers.ReplaysExactly | internal/service/messages.go:744-777 | A receive is answered by a replay if and only if its attempt is cached, neither expired nor invalid, and every receipt of the answer is active and running for a live message of the queue. |
| CachedAnswers.StepNamed | internal/service/messages.go:223-240 | Every event keeps cached answers with their messages: the receipt of a cached delivery names the row with its message id and body. |
| CachedAnswers.ReplayPairs | internal/service/messages.go:744-790 | Each message of a replayed answer is under an active receipt that names a live row with its message id and body, and both have the new deadline. |
| Deduplication.Duplicates | internal/service/messages.go:606-625 | After any run an accepted FIFO send adds no message if and only if a send to the queue within five minutes with the same deduplication id falls under its scope, and is then answered as that one. |
| Deduplication.DuplicatesInScope | internal/service/messages.go:1054-1059 | With an unchanged scope: within five minutes the same group and deduplication id, or under the scope of the queue the same deduplication id in whatever group; the id is the hash of the body if none is given. |
| Deduplication.DepositsApart | internal/service/messages.go:606-625 | Over any run two sends that add a message under one scope and deduplication id are five minutes apart. |
| SendLaws.NumbersRead | internal/service/messages.go:1061-1099 | What the number attributes of a queue say, and the defaults. |
| SendLaws.AcceptedExactly | internal/service/messages.go:577-624 | When an entry is accepted, both ways. |
| SendLaws.RefusedBecause | internal/service/messages.go:577-624 | With which error it is refused. |
| SendLaws.SentRow | internal/service/messages.go:626-690 | The row that a send adds, its answer and its ledger entry, column by column; any other send changes nothing. |
| Upkept.MaintenanceEnds | internal/service/messages.go:394-417 | In every live queue the messages past their retention end now, with their receipts, and those that a pending purge covers end with its window. |
| Upkept.MaintenanceKeeps | internal/service/messages.go:394-417 | All other messages of queues that no running task empties are as they were. |
| Upkept.MaintenanceCloses | internal/service/messages.go:418-426 | A purge window that is over is closed; but for that and its attributes every queue row is as it was. |
| Upkept.MaintenancePatches | internal/storage/sqlite/store.go:149-202 | The last due patch that sets an attribute decides it, and an attribute that no due patch sets is as it was. |
| Upkept.MaintenanceConsumes | internal/storage/sqlite/store.go:149-202 | A patch is pending no more if and only if it is due and its queue exists. |
| Upkept.MaintenanceStamps | internal/storage/sqlite/store.go:190-195 | A queue is stamped exactly if a patch of it was due. |
| Upkept.MaintenanceForgets | internal/storage/sqlite/message_store.go:229-232 | The ledger keeps exactly the entries that have not expired. |
| Upkept.MaintenancePasses | internal/service/messages.go:429-525 | Every task that runs has had its pass, which fails it without a live source and else advances or stops it; every other task is as it was. |
| Upkept.PassHad | internal/service/messages.go:429-440 | That pass is one of the passes that maintenance makes, one after the other. |
| HandleLaws.DeleteAnswers | internal/service/messages.go:792-815 | How a delete is answered, in each case of the handle. |
| HandleLaws.DeleteEnds | internal/service/messages.go:815-830 | A delete through a running lease ends the message, the receipt, and the cached attempts of the queue; any other changes at most the receipt. |
| HandleLaws.ChangeMoves | internal/service/messages.go:832-869 | A change of visibility is accepted exactly within its bounds and then moves the end of the lease in both tables. |
| HandleLaws.ChangeRefused | internal/service/messages.go:832-860 | With which error it is refused. |
| QueueLaws.CreationAdds | internal/service/sqs.go:80-116 | A free name gets a new empty queue with its URL, ARN and attributes, and a tombstone that no longer blocks goes with all its messages. |
| QueueLaws.CreationFinds | internal/service/sqs.go:80-95 | A taken name: the URL of the live queue if its settings are the same, and otherwise the error. |
| QueueLaws.RemovalCascades | internal/storage/sqlite/store.go:32-147 | What goes with the row of a queue. |
| QueueLaws.DeletionBuries | internal/service/sqs.go:118-133 | A deletion leaves a tombstone that blocks its name for the cooldown. |
| QueueLaws.PurgeOpens | internal/service/sqs.go:430-448 | A purge opens a window from now to the end of the cooldown, unless one is open. |
| QueueLaws.PatchWaits | internal/service/sqs.go:220-250 | A change of attributes is pending for its propagation time, which depends on whether it is of the retention alone. |
| TaskLaws.DestinationIs | internal/service/messages.go:527-549 | Where a message of a task goes: the destination of the task or the noted source, if that is live. |
| TaskLaws.PassRewrites | internal/service/messages.go:486-508 | A moved row, column by column: it starts anew in its destination without a receipt; no other row changes. |
| TaskLaws.PassWithinRate | internal/service/messages.go:458-479 | A pass takes no more than its rate. |
| TaskLaws.PassLeavesLater | internal/service/messages.go:466-479 | It leaves a message that could be moved only if the rate is used up by messages sent before. |
| TaskLaws.StartAdds | internal/service/sqs.go:519-549 | The task that a start adds: its source, its destination, the rate if positive, the count; then a pass of every running task. |
| TaskLaws.StartPasses | internal/service/sqs.go:546-549 | The added task has its first pass at once. |
| TaskLaws.StartRefused | internal/service/sqs.go:499-527 | Without a live source or destination, or while a task of the source runs, nothing is started. |
| TaskLaws.CancellationFinds | internal/service/sqs.go:551-563 | Which task a cancellation finds: one of the source with the handle, and none only if ten newer ones hide it. |
| TaskLaws.CancellationStops | internal/service/sqs.go:564-571 | A successful cancellation stops the task and changes nothing else. |
| TaskLaws.CancelledStaysStill | internal/service/sqs.go:564-571 | From a reachable state, no run after a cancellation has a pass of the task. |
| RequestLaws.QueueFound | internal/service/messages.go:551-575 | Which queue a request finds, and when sending and receiving may use it. |
| RequestLaws.ReceiveAccepted | internal/service/messages.go:145-165 | The ranges and defaults of a receive request, both ways. |
| RequestLaws.DigestsAnswered | internal/service/messages.go:583-650 | The digests in the answer of a send are those of its own attributes and its own system attributes. |
| RequestLaws.EntryCarries | internal/service/messages.go:577-650 | Every value of an entry is sent under its own name. |
| RequestLaws.BatchRefused | internal/service/messages.go:79-106 | With which error a batch is refused as a whole, in the order of the checks. |
| RequestLaws.AnswersInOrder | internal/service/messages.go:108-128 | Successes and failures are answered in the order of the entries. |
| RequestLaws.BatchDeletes | internal/service/messages.go:291-309 | Every held handle of a delete batch ends its message and is answered Ok. |
| RequestLaws.BatchDeletesOnly | internal/service/messages.go:291-309 | A message that no handle of the batch names is as it was. |
| RequestLaws.BatchSends | internal/service/messages.go:108-123 | Every accepted entry of a batch to a standard queue adds a message of its own. |
| RequestLaws.RequestSends | internal/service/messages.go:43-129 | A send request does what its sends do, and a refused one nothing. |
| RequestLaws.RequestDeletes | internal/service/messages.go:264-310 | A delete request ends the message of each held handle. |
| RequestLaws.RequestChanges | internal/service/messages.go:312-367 | The changes of a request are made one after the other. |
| RequestLaws.RequestsOnQueue | internal/service/sqs.go:118-250 | Deleting, purging and changing a queue is done to the live queue with the URL, or to none. |
| RequestLaws.UrlsByName | internal/service/sqs.go:160-170 | The listed URLs are those of live queues in the byte order of their names. |
| LazyExpiry.CountersMean | internal/service/messages.go:896-922 | What the three counters count, as rows of the message table. |
| FormKeys.MembersRead | internal/protocol/query/decode.go:80-98 | A structure has exactly the members found under their wire names, with the values found there. |
| FormKeys.EntriesRead | internal/protocol/query/decode.go:126-153 | A map is read from `<prefix>.<i>.Name` and `<prefix>.<i>.Value`: exactly the names with a value, and of a repeated name the value with the greatest index. |
| FormKeys.ListRead | internal/protocol/query/decode.go:99-125 | A list of texts is read from `<prefix>.<i>` in ascending order of the indices. |
| FormKeys.CreationRead | internal/protocol/query/names.go:22-33 | The attributes of a creation are read from the keys below `Attribute`, its tags from those below `Tag`. |
| FormKeys.SendRead | internal/protocol/query/names.go:22-33 | The message attributes of a send are read from the keys below `MessageAttribute`. |
| FormKeys.CollectionNames | internal/protocol/query/names.go:22-41 | The other wire names of collections: the shape without its ending. |
| FormKeys.PrimitiveRead | internal/protocol/query/decode.go:167-184 | How numbers and truth values are read. |
| EncodingLaws.NumberRead | internal/protocol/query/decode.go:167-173 | A text is a number exactly if it is digits after at most one sign, with their place values and 64 bits. |
| EncodingLaws.NumberWritten | internal/service/helpers.go:96-102 | A number is written in its digits without leading zeros. |
| EncodingLaws.ThreeBytes | internal/service/helpers.go:96-102 | Three bytes are four characters of the same 24 bits, most significant first. |
| EncodingLaws.LastBytes | internal/service/helpers.go:96-102 | The end is filled up with zeros. |
| EncodingLaws.LengthFirst | internal/service/messages.go:1345-1350 | A length is written in four bytes, most significant first, before the value. |
| EncodingLaws.AttributeBytes | internal/service/messages.go:1310-1328 | What one attribute adds to the digest: name, type, the byte of its kind, and the value, decoded if binary. |
| EncodingLaws.NamesAscend | internal/service/messages.go:1302-1309 | The attributes are hashed in the byte order of their names. |
| EncodingLaws.OneAttributeMore | internal/service/messages.go:1352-1362 | Each attribute adds the lengths of its name, its type and its values. |
| EncodingLaws.AttributeAccepted | internal/service/messages.go:1204-1250 | When an attribute is accepted, both ways, and what is kept of it. |
| EncodingLaws.ByteEncoded | internal/auth/auth.go:461-475 | How one byte is percent-encoded. |
| EncodingLaws.PartsAscend | internal/auth/auth.go:419-424 | The encoded parameters come in the byte order of their keys and then of their values. |
| EncodingLaws.PartsJoined | internal/auth/auth.go:425-430 | The parts are written as key, equals sign and value, with ampersands between them. |
| EncodingLaws.ParametersCollected | internal/auth/auth.go:406-417 | The parameters are all values of all keys, but for the signature of a presigned request. |

## Left out

- Waiting in the polling loop: a request that waits is a first turn and later turns at later instants, with other requests
  in between; how long it waits is not modelled.
- Queue name and attribute value checks, and the patterns of attribute names, of allowed characters and of base64: the first arrive
  valid, the others are parameters.
- Message attributes, system attributes, body digests, sequence numbers and encryption key ids are not columns of the modelled
  message row; they are written once and never read by the message plane.
- Tags, permissions, the reading of attributes and tags, and the listing of dead-letter sources and of move tasks: easy members.
- The cancelling status: no code sets it, but a pass that finds it is modelled.
- Session credentials, signatures, headers, HTTP, XML and JSON: not part of this model.
- Storage.Store.ListQueues: does not filter by name prefix, whose wildcards are those of the database; there is one account and region.
- Pagination.ListQueues: lists without a name prefix.
- QueueHandlers.MakeQueue: the attributes that are compared and stored arrive merged with the defaults and valid.
- QueueRequests.CreateQueueRequest: takes valid attributes, merged with the defaults.
- QueueRequests.SetQueueAttributesRequest: takes valid attributes.
- QueueHandlers.StartMove: the move task handle arrives fresh; the source derives it from the clock and relies on a unique column.
- ReceiveRequests.ReceiveMessage: requires that the redrive loop ends, under the exact condition of `Redrive.LoopEnds`, when the
  request comes to it; otherwise the source does not return.
- AttributeDigest.DigestInjective: requires every length to be below 2^32, because a longer one is cut when it is written.
- QueryRoundTrip.RoundTrip: the parsing of the query string and the body into keys and values is not modelled.
- FifoOrder.DeliveredInOrder: nothing is claimed about the order of messages that a move task or a redrive brings into a group,
  because the code sorts by the time of sending, which a move resets.
