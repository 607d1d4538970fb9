# QGramm protocols

QGramm is a chat relay whose hard parts are small durable protocols. This project
models them in Dafny and proves what they promise. A database is a value, a
transaction is a function from state to state or a method that changes state only
on success, a crash drops volatile state, and encryption is opaque data.

| module | what it covers |
|---|---|
| `GroupCommit`, `Relay`, `BatchEndpoint` | one commit shared by up to sixteen isolated jobs, and the batch endpoint on top, against "one message, one transaction, in order" |
| `Sending` | what one send, and a list of them, is answered: from the tables alone |
| `WriterQueue` | admission, draining and shutdown of the writer over every interleaving |
| `Retention`, `Replay`, `Subscription` | sequence numbers, bounded deletion, cursor paging, and what a subscription writes over a whole run |
| `WakeUps` | commits, wakes, the shared poll and the connections over every interleaving |
| `Ledger`, `PolicyGate` | the AI effect gate and its budget ledger, in 64-bit arithmetic |
| `Conversation` | conversations that stop for approvals and resume from saved continuations |
| `AiSessions` | serial named AI tasks and the context they carry |
| `Sidecar` | the external endpoint's crash protocol |
| `EpochBarrier` | MLS commits, rosters and one-time key packages (sections 10 and 14 of RFC 9420) |
| `VaultSearch`, `VaultGraph` | bounded top-k search and layered graph search |

Each protocol is a step machine or a class, an invariant kept by every step, and
theorems over every run from the initial state. Fields marked as history in a
state record what happened so that a theorem can speak of it; no step's guard
reads them, with two exceptions that stand for a uniqueness constraint of the
tables: `posted` in `AiSessions` is the operation rows of results, and the ids in
`transitions` in `EpochBarrier` are the table's primary keys.

Three promises hold only under a condition, and the exact condition is proved:

- Deleting events by creation time keeps each chat a contiguous suffix for every
  cutoff if and only if its creation times never decrease
  (`Retention.ContiguousIffClockKept`).
- A page of `Events` is made of two reads. Without a retention commit between them
  it is gap free; in general it is contiguous exactly when it is empty or its first
  number is still there at the second read (`Replay.PageContiguousIff`, with a
  concrete gap in `Replay.RetentionBetweenReadsGaps`).
- A resumed AI conversation repeats two checks that an uninterrupted one does not
  make at that point: the context limit in the middle of a step
  (`internal/modules/ai_policy_runtime.go:105-108`) and the argument limit on
  canonical instead of received text (`internal/modules/ai.go:784-786`). It equals
  the uninterrupted run if and only if every saved continuation passes both and the
  1 MiB limit (`Conversation.ResumeEqualsNeverPausing`). It always does when
  arguments arrive in canonical form and twice the context limit plus the
  continuation's fixed part stays within 1 MiB, which the largest context limit
  allowed (`internal/config/config.go:809`) leaves 512 KiB for
  (`Conversation.CanonicalCallsAlwaysResume`, met by the conversation of
  `Conversation.ResumingCanSucceed`). `Conversation.ResumingCanFail` is the same
  conversation with an argument of 65536 bytes that contains a `<`, which encoding
  escapes in six bytes: it answers when it is not stopped and fails when it is.

Hypotheses: digests are injective; sealing and opening are inverse; signature, MLS,
HPKE and JSON functions are parameters with the laws stated where they are used
(`Relay.Server`, `Conversation.Laws`, `EpochBarrier.Parsed`); clocks, fresh ids and
storage failures are parameters of each step. Configuration is constant over a run.

## Model

| member | source | states |
|---|---|---|
| `GroupCommit.MessageWriter.ExecuteBatch` | internal/core/writer_queue.go:273-360 | For any jobs, request contexts and statement failures, a shared commit either equals running each job in a transaction of its own, in order, or leaves the database as it was and fails every job; without outer failures it always equals them. |
| `GroupCommit.MessageWriter.SubmitGroup` | internal/core/writer_queue.go:106-172 | A group over sixteen jobs or 8 MiB (unless alone), with a request already cancelled, or offered to a writer that is stopping or full, is refused with one error for all and without effect; an admitted one has the one-at-a-time result, or on an outer failure none at all. |
| `GroupCommit.SequentialSplit` | internal/core/writer_queue.go:264-266 | The one-at-a-time reference composes: cutting a list anywhere gives the same database and answers. |
| `GroupCommit.SequentialAt` | internal/core/writer_queue.go:286-319 | In the one-at-a-time reference each job succeeds exactly when its request is live before its body, the body succeeds and the request is still live after it; then the body's database and answer stand, otherwise the first of the three errors and no trace of it. |
| `GroupCommit.RefusalExactly` | internal/core/writer_queue.go:106-144 | When a group is admitted, and which error it gets when it is not: size first, then the first cancelled request, then a writer that is stopping or full. |
| `Relay.PersistRecords` | internal/core/messages.go:166-217 | A successful persist leaves an operation row that makes its answer durable; it is a new message with the next sequence number, outside the barrier and at the current epoch, exactly when it is no repeat, and a repeat writes nothing. |
| `Relay.PersistTouchesOneKey` | internal/core/messages.go:207-210 | Only the operation under the sender's own device and operation id can appear. |
| `Relay.PrepareStable` | internal/core/messages.go:88-164 | Validation gives the same verdict before and after other messages are stored, as long as its own operation id has not been used. |
| `Relay.SendResultStable` | internal/core/messages.go:219-235 | The reply for a stored message does not change as others are stored. |
| `Relay.GrowsTransitive` | internal/core/messages.go:166-217 | What sends leave untouched stays untouched over any number of them. |
| `BatchEndpoint.Batch` | internal/core/messages.go:413-474 | The endpoint: whatever operation ids repeat, with equal, different or malformed content, and wherever groups or bytes are cut, the final database and each reply are those of sending the messages one at a time. |
| `BatchEndpoint.Regroup` | internal/core/messages.go:453-474 | The regrouping loop ends with the database and answers of the one-at-a-time history. |
| `BatchEndpoint.Admit` | internal/core/messages.go:453-473 | One turn of the loop keeps the pending group equal to the history so far, flushing before a repeated id is validated and before a limit would be passed. |
| `BatchEndpoint.Flush` | internal/core/messages.go:438-452 | Submitting the pending group files each answer at its own index and changes nothing about the history reached. |
| `BatchEndpoint.FileAnswers` | internal/core/messages.go:443-449 | Each answer lands at its message's index and no other entry moves. |
| `BatchEndpoint.SubmitPrepared` | internal/core/messages.go:68-86 | A group that fits is committed as its messages in order. |
| `BatchEndpoint.PreparedEarly` | internal/core/messages.go:454-462 | A message whose id is not pending may be validated before the pending group is committed. |
| `BatchEndpoint.RunDraftsDurable` | internal/core/messages.go:166-168 | Every acknowledged or repeated message of a committed group has its durable operation row and message. |
| `BatchEndpoint.RepliesAtTheEnd` | internal/core/messages.go:475-480 | Replies computed after the whole request equal those each separate request would have been told at its own time. |
| `BatchEndpoint.ApiLawful` | internal/core/messages.go:88-217 | The real prepare and persist meet the laws the regrouping proof uses. |
| `BatchEndpoint.JobsRunDrafts` | internal/core/messages.go:160-163 | The queued jobs of a group run as its drafts, byte counts included. |
| `BatchEndpoint.JobsReadOnlyRepeats` | internal/core/messages.go:182-193 | A job that reports a repeat wrote nothing, so an all-repeat batch needs no commit. |
| `Sending.PrepareExactly` | internal/core/messages.go:88-164 | Validation lets a message through exactly for an unused safe operation id, a live sender who may send, no pending epoch, enabled features and content that opens, is bound to the sender and fits; the draft carries that content unchanged. A recorded operation with the same content gives its result. |
| `Sending.PrepareRefusals` | internal/core/messages.go:88-129 | Which refusal each other request gets, if and only if: a bad id, the same id with other content, a sender who may not, a pending epoch, an absent feature. |
| `Sending.ContentRefusals` | internal/core/messages.go:130-150 | Which refusal each unacceptable content gets, in both modes, if and only if. |
| `Sending.PersistExactly` | internal/core/messages.go:166-217 | What persistence decides again in the transaction, each error if and only if; a repeat gives the recorded message and writes nothing; a new message takes the chat's next number and adds exactly its own message, payload, operation and event. |
| `Sending.PostExactly` | internal/core/messages.go:88-217 | One request end to end: the recorded message for a repeat and 409 for other content, both without effect; otherwise accepted exactly when acceptable and written as sent, and every refusal changes nothing. |
| `Sending.ReplyExactly` | internal/core/messages.go:219-235 | What the caller is told of an answer: the error, the receipt, the stored message, or 404 when a live caller may not read it. |
| `Sending.RecordedForLater` | internal/core/messages.go:204-210 | In any list an accepted message's operation row is there, with its content, for every later one. |
| `Sending.CopiesGetTheFirst` | internal/core/messages.go:102-113 | In any list whatever follows an accepted message under its operation id is answered by it: a copy with its message, other content with 409, and neither has an effect. |
| `Sending.BatchAnswersCopies` | internal/core/messages.go:475-480 | The endpoint's reply to such a follower: the first message for a copy, while it is visible to the caller, and 409 for anything else. |
| `WriterQueue.EveryRunIsSafe` | internal/core/writer_queue.go:74-262 | Every interleaving: execution order is admission order through the pending slot and groups, batches respect both limits, members never exceed the capacity, retained jobs stay within capacity + 17. |
| `WriterQueue.DefaultBranchUnreachable` | internal/core/writer_queue.go:90-98 | A producer that passed the capacity check always finds room, so neither default branch is reached. |
| `WriterQueue.ShutdownAnswersEverything` | internal/core/writer_queue.go:211-224 | Closing at any point of any run ends with the worker gone, every admitted job answered exactly once in order, and the surplus counter at zero. |
| `WriterQueue.Progress` | internal/core/writer_queue.go:200-226 | From a closed writer every worker step keeps the invariant and gets strictly closer to the exit. |
| `WriterQueue.Shutdown` | internal/core/writer_queue.go:371-379 | The worker's remaining run terminates with nothing admitted meanwhile. |
| `WriterQueue.ClosedAdmitsNothing` | internal/core/writer_queue.go:81-84 | Once closed, no run admits anything. |
| `WriterQueue.AdmittedWhenRoom` | internal/core/writer_queue.go:81-98 | Nobody is turned away while there is room: if the members waiting and a producer's own fit the capacity when it takes the mutex, it is admitted whatever the worker does before and between its two reads; from its own reads it is admitted exactly when they fit. |
| `WriterQueue.StepKeeps` | internal/core/writer_queue.go:74-262 | Each atomic step keeps order, count and shape of the queue. |
| `WriterQueue.SendCounted` | internal/core/writer_queue.go:151-166 | The group surplus counts exactly the members beyond one per channel slot. |
| `WriterQueue.DrainOneFifo` | internal/core/writer_queue.go:246-261 | Draining, or setting a job aside as pending, keeps admission order. |
| `WriterQueue.DrainOneShaped` | internal/core/writer_queue.go:248-259 | A drained batch stays within sixteen jobs and 8 MiB. |
| `Retention.EventTable.DeleteRetentionBatch` | internal/core/store.go:360-380 | A bounded delete removes exactly the index-first rows it counts, at most its limit and all expired; it leaves the rest as they were, every chat a contiguous suffix, and has finished when it deletes fewer. |
| `Retention.EventTable.CleanupRetention` | internal/core/store.go:382-409 | The loop leaves exactly the rows since the cutoff when it finishes; cut short it has removed only expired, index-first rows and every chat is a contiguous suffix. |
| `Retention.EventTable.Oldest` | internal/core/store.go:361 | The index-first row is the oldest, ties by insertion. |
| `Retention.WithoutFirstKeepsOrder` | internal/core/store.go:361 | Rows that stay are rows that were there, in their old order. |
| `Retention.WithoutFirstSplit` | internal/core/store.go:383-405 | Deleting in batches is deleting at once. |
| `Retention.RemoveOldestKeeps` | internal/core/store.go:361 | Deleting the index-first row keeps every chat a contiguous range ending at its head, if its clock never went back. |
| `Retention.AppendKeeps` | internal/core/store.go:307-325 | Appending the next number keeps the journal's shape and order. |
| `Retention.ContiguousIffClockKept` | internal/core/store.go:323 | Deleting by creation time keeps every chat contiguous for every cutoff if and only if each chat's creation times never decrease. |
| `Retention.SinceHole` | internal/core/store.go:361 | A clock that goes back opens a hole at a concrete cutoff. |
| `Replay.PageIsGapFree` | internal/core/messages.go:540-594 | With only appends between the two reads, a page is the contiguous range right after max(cursor, joined - 1), empty exactly at the head, and a short page reaches the head first seen. |
| `Replay.PageContiguousIff` | internal/core/messages.go:546-594 | Whatever retention does in between, a successful page is contiguous exactly when it is empty or its first number is still retained at the second read. |
| `Replay.RetentionBetweenReadsGaps` | internal/core/messages.go:546-594 | A concrete retention commit between the reads that makes a page skip an event. |
| `Replay.Events` | internal/core/messages.go:540-660 | One page for one identity: its errors, its contiguous numbers, and each event showing its own row. |
| `Replay.Project` | internal/core/messages.go:603-658 | Each distinct message of a page is projected once, every event shows its own row, and the page fails exactly on a lost membership or an inaccessible message. |
| `Replay.AfterIsRange` | internal/core/messages.go:572 | The rows after a retained cursor are the whole range to the head. |
| `Replay.MinNumIsLeast` | internal/core/messages.go:546 | The minimum read is the least retained number. |
| `Replay.EnumeratesInterval` | internal/core/messages.go:572 | An increasing enumeration of an interval lists it in order without a gap. |
| `Subscription.EveryRunIsGapFree` | internal/core/realtime.go:204-233 | Over every run of appends, retention, rejoins and flushes, what a subscription writes is strictly increasing and skips a number only up to the join point. |
| `Subscription.FlushKeeps` | internal/core/realtime.go:213-230 | A page of a flush continues the written log without a gap; an error ends the subscription. |
| `Subscription.FlushDelivers` | internal/core/realtime.go:214-230 | What one page of a flush writes: behind the head the very next numbers, one to a hundred, fewer than a hundred only up to the head, and the cursor moves to the last; at the head nothing; a cursor that is ahead or expired, or a lost access, ends the subscription without writing. |
| `Subscription.CatchesUp` | internal/core/realtime.go:211-233 | With its next event retained and nothing new arriving, each page brings a subscription exactly a hundred events closer to the head, and no further. |
| `Subscription.StepKeeps` | internal/core/realtime.go:204-233 | Every step keeps the journal contiguous and the log ordered, and only appends to it. |
| `WakeUps.NoLostWakeUp` | internal/core/realtime.go:25-95 | Every interleaving: a live subscription behind a committed event is due to look again or next in a notification round, or else neither the poll has recorded that head nor, if its commit owes one, has its Wake completed. |
| `WakeUps.PendingHasToken` | internal/core/realtime.go:25-43 | A nonempty pending set always has a wake token, a notifier about to send one, or a consumer about to take. |
| `WakeUps.QuiescentIsCaughtUp` | internal/core/realtime.go:204-270 | An idle connection without a token has passed every event whose Wake completed and every head the poll recorded: each mechanism suffices alone. |
| `WakeUps.WakeBegins` | internal/core/realtime.go:65-71 | A Wake that is owed begins a round over all the chat's subscribers, up to its head. |
| `WakeUps.PollBegins` | internal/core/sharedreplay.go:25-72 | So does a poll, for every subscribed chat whose head it has not recorded. |
| `WakeUps.RoundDelivers` | internal/core/realtime.go:204-270 | A round notifies an idle subscriber, which takes the chat, reads the head and, within a page of it, ends at the head. |
| `WakeUps.PagesMeetTheLaw` | internal/core/realtime.go:214-230 | The page law used by the protocol is what journal paging gives. |
| `WakeUps.DeliverKeeps` | internal/core/realtime.go:213-232 | A page, a full page asking for more, a rescheduled tenth page and a failed one keep the coverage. |
| `WakeUps.PollChatKeeps` | internal/core/sharedreplay.go:54-72 | Pruning, an unchanged head and a new round keep the coverage. |
| `WakeUps.FinishKeeps` | internal/core/sharedreplay.go:62-71 | Recording an observed head, or completing a Wake, is covered by the notifications just made. |
| `WakeUps.MarkKeeps` | internal/core/realtime.go:26-31 | Marking a chat pending before its token is sent keeps the coverage. |
| `WakeUps.TakeKeeps` | internal/core/realtime.go:37-43 | Taking the pending set keeps every chat due to be flushed. |
| `WakeUps.SubscribeKeeps` | internal/core/realtime.go:260-262 | A new or moved cursor is covered by its initial flush. |
| `WakeUps.StepKeeps` | internal/core/realtime.go:234-285 | Every step of every party keeps coverage, tokens and recorded heads. |
| `Ledger.CeilRate` | internal/modules/ai_policy.go:699-710 | The price is the exact product rounded up, and is given exactly when the guarded product fits; no step overflows. |
| `Ledger.Cost` | internal/modules/ai_policy.go:684-697 | A provider costs its two rounded prices exactly when they fit together; a tool costs its reserve. |
| `Ledger.ReserveExactly` | internal/modules/ai_policy.go:501-554 | A reservation is granted exactly when it is not negative, not booked yet and all three accounts have room; then those accounts hold it, at or below their caps, and no other account changes. |
| `Ledger.ReservesInThreeAccounts` | internal/modules/ai_policy.go:501-554 | By name: a reservation needs room, and takes it, in the day's global account, the AI user's own and the source user's, for the price's reserve or a provider's default; it adds one row for each and changes no other account. |
| `Ledger.ReserveKeeps` | internal/modules/ai_policy.go:501-554 | A reservation keeps conservation and the budget bound. |
| `Ledger.SettleExactly` | internal/modules/ai_policy.go:603-674 | Settling keeps conservation and the bound, fails only on an unpriceable cost or a full counter, settles every row of the request and credits the accounts of the day of reservation. |
| `Ledger.ToolAddsNoExcess` | internal/modules/ai_policy.go:586-588 | A settled tool never exceeds its reserve. |
| `Ledger.LedgerTable.ReserveTx` | internal/modules/ai_policy.go:501-554 | The reservation loop over three scopes, all or nothing. |
| `Ledger.LedgerTable.SettleTx` | internal/modules/ai_policy.go:585-682 | The settlement loop over ledger rows, all or nothing. |
| `Ledger.SettleRowKeeps` | internal/modules/ai_policy.go:625-667 | Settling one row moves its hold to its cost and keeps every sum. |
| `Ledger.DivisionBounds` | internal/modules/ai_policy.go:706-708 | The overflow guard by division is the guard on the product. |
| `PolicyGate.EveryRunDispatchesOnce` | internal/modules/ai_policy.go:330-415 | Every run: requests are dispatched at most once each, those that required approval used distinct nonces, and a status says dispatched exactly when the history does. |
| `PolicyGate.NeverAgain` | internal/modules/ai_policy.go:398-406 | A request that was sent, expired or cancelled is never dispatched later, through restarts, revocations, deletes and retries. |
| `PolicyGate.StepDispatches` | internal/modules/ai_policy.go:438-499 | Every dispatch is of an approved or immediate, unexpired, authorised request and, when approval is required, uses up one unused, unrevoked, matching grant. |
| `PolicyGate.RevokedNeverConsumed` | internal/modules/ai_policy.go:980-1013 | A nonce revoked before it was consumed never is. |
| `PolicyGate.EveryRunBalances` | internal/modules/ai_policy.go:501-682 | Every run: each account's reserved and used are the sums over its open and completed rows; every sent request, and no other, has rows, exactly one in each scope; used + reserved stays within cap plus total excess. |
| `PolicyGate.SettlingFailsOnlyOnOverflow` | internal/modules/ai_policy.go:564-682 | In every reachable state settling fails only on a cost that does not fit; settling a completed request changes nothing. |
| `PolicyGate.PolicyStore.BeginTx` | internal/modules/ai_policy.go:330-415 | Beginning an effect as one transaction: a refusal changes nothing, only a dispatch touches books, grants and history, and it sends exactly one request. |
| `PolicyGate.PolicyStore.CleanupExpired` | internal/modules/ai_policy.go:224-282 | A pass over the expiry index expires lapsed approvals, all of them or the 256 oldest, and fails their waiting jobs. |
| `PolicyGate.SelectLapsed` | internal/modules/ai_policy.go:231-252 | What a pass reads: at most 256 lapsed approvals, none older passed over. |
| `PolicyGate.ExpireCloses` | internal/modules/ai_policy.go:254-274 | Every lapsed approval of a pass ends expired. |
| `PolicyGate.ApproveKeeps` | internal/modules/ai_policy.go:793-902 | An approval adds at most one grant to an awaiting request and keeps every invariant; late and repeated ones change nothing. |
| `PolicyGate.ApproveExactly` | internal/modules/ai_policy.go:793-902 | A valid token of an authorised source, unexpired, for an awaiting unexpired request with the same effect whose job awaits approval, under a nonce neither revoked nor granted, approves the request, queues the job and adds one unused grant; any other token changes nothing. |
| `PolicyGate.EveryGrantWasPresented` | internal/modules/ai_policy.go:793-902 | Every run: each grant's token was presented at some step, validly and by an authorised source, before it and its request expired, while that request was awaiting approval of the same effect and the nonce was not revoked. |
| `PolicyGate.EveryRequiredDispatchWasApproved` | internal/modules/ai_policy.go:438-472 | Every run: each dispatch that required approval goes back to such a step, with its own request and nonce. |
| `PolicyGate.GoExactly` | internal/modules/ai_policy.go:330-499 | When an effect is dispatched, if and only if: approved and unexpired or new and in no need of approval, with an open grant when approval is required, and with room in the accounts. |
| `PolicyGate.GoWrites` | internal/modules/ai_policy.go:473-499 | What a dispatch writes and nothing else: the status, the reserves, one grant's use and one entry of history. |
| `PolicyGate.WaitsExactly` | internal/modules/ai_policy.go:330-426 | When a request waits for approval, if and only if, and what its first asking records; a refusal changes nothing. |
| `PolicyGate.StatusMoves` | internal/modules/ai_policy.go:224-902 | Which step may move a request from which status to which, and under which of its conditions; effect, chat and expiry never change. |
| `PolicyGate.DeletedIsNeverSent` | internal/modules/ai_policy.go:162-209 | After a delete no run dispatches a request the chat had by then. |
| `PolicyGate.LapsedIsNeverSent` | internal/modules/ai_policy.go:224-282 | After a cleanup pass no run dispatches a request the pass read as expired. |
| `PolicyGate.RevokedIsNeverUsed` | internal/modules/ai_policy.go:980-1013 | After a revocation no run consumes the nonce, if it had not been consumed before. |
| `PolicyGate.RestartedIsNotResent` | internal/modules/ai_policy.go:148-157 | After a restart what had been sent is uncertain or completed, and no run sends it again. |
| `PolicyGate.RestartJobs` | internal/modules/ai_policy.go:148-157 | A restart makes uncertain exactly the running jobs with an effect in flight. |
| `PolicyGate.ExpireMoves` | internal/modules/ai_policy.go:254-266 | A cleanup pass expires exactly the lapsed requests it read. |
| `PolicyGate.ExpireJobs` | internal/modules/ai_policy.go:267-274 | A cleanup pass fails exactly the queued or waiting jobs of the requests it expires. |
| `PolicyGate.RestartKeeps` | internal/modules/ai_policy.go:148-157 | A restart turns what was in flight uncertain and keeps every invariant. |
| `PolicyGate.DeleteKeeps` | internal/modules/ai_policy.go:162-209 | Deleting a message cancels the chat's open requests and keeps every invariant. |
| `PolicyGate.StepKeeps` | internal/modules/ai_policy.go:330-902 | Every step keeps history, grants, uses and books in agreement. |
| `Conversation.ResumeEqualsNeverPausing` | internal/modules/ai_policy_runtime.go:66-226 | Whenever the uninterrupted run answers, the run stopped at every approval gives the same answer by the same effects in the same order if and only if each continuation it saves is resumable; otherwise it gives none. |
| `Conversation.CanonicalCallsAlwaysResume` | internal/modules/ai_policy_runtime.go:169-181 | When arguments arrive in canonical form, texts add up and twice the context limit leaves room in a continuation, stopping never changes anything. |
| `Conversation.ResumingCanFail` | internal/modules/ai.go:784-786 | A concrete conversation, within every size limit, that answers without stopping and fails when resumed, because the argument limit is checked again on the canonical text. |
| `Conversation.ResumingCanSucceed` | internal/modules/ai_policy_runtime.go:87-96 | A concrete conversation that meets those conditions, stops for approval and gives its answer through the stop. |
| `Conversation.FittingIsAcceptable` | internal/modules/ai_policy_runtime.go:88-90 | A context within its limit makes a continuation within 1 MiB, because pending calls are those of the step's own turn. |
| `Conversation.RunConversation` | internal/modules/ai_policy_runtime.go:98-225 | The nested loops compute the specified run, and from the start of a conversation every effect is the one due after those before it, with the transcript the replies make, up to an end its last effect justifies. |
| `Conversation.MakeCalls` | internal/modules/ai_policy_runtime.go:158-219 | The loop over one step's calls: each one made is permitted, canonical and in order, and is followed by the turn with its own id and result; up to a stop, an error or the next step. |
| `Conversation.EveryRunIsFaithful` | internal/modules/ai_policy_runtime.go:98-225 | Every run, from the effects and the world's replies alone: each provider call carries the given turns, one assistant turn for each earlier answer with its calls made canonical, and one result for each call under that call's own id; a step's tool calls are exactly the wanted ones in order, permitted, within the limit and canonical; and the run ends for the reason its last effect gives. |
| `Conversation.EveryConversationIsFaithful` | internal/modules/ai_policy_runtime.go:66-225 | So are the effects of a conversation stopped at every approval and resumed from its continuations, whether or not it comes to an answer. |
| `Conversation.ToolsIsFaithful` | internal/modules/ai_policy_runtime.go:158-219 | From within a step, on course, to the end of the run. |
| `Conversation.TopKeepsTheGate` | internal/modules/ai_policy_runtime.go:127-145 | What a run does without a ticket needs no approval, a ticket lets through its first effect alone, and a pause is at an effect that needs one. |
| `Conversation.MakeCall` | internal/modules/ai_policy_runtime.go:158-219 | One turn of the loop over a step's calls. |
| `Conversation.ToolsResume` | internal/modules/ai_policy_runtime.go:158-219 | From counterpart states within a step, both directions of the equivalence. |
| `Conversation.TopResume` | internal/modules/ai_policy_runtime.go:98-157 | From the top of a step, both directions of the equivalence. |
| `Conversation.StoppedCall` | internal/modules/ai_policy_runtime.go:87-96 | Going on from a continuation saved at a call makes exactly that call, or never answers. |
| `Conversation.AskedAgain` | internal/modules/ai_policy_runtime.go:109-149 | A continuation saved before a provider call is read back unchanged and asks the same. |
| `Conversation.Doomed` | internal/modules/ai.go:784-786 | A stored argument over the limit dooms every later resumption. |
| `Conversation.TopProgress` | internal/modules/ai_policy_runtime.go:92-98 | Each resumption gets strictly further. |
| `Conversation.BindAt` | internal/modules/ai_policy_runtime.go:175-181 | Rebinding touches exactly the step's own assistant turn. |
| `AiSessions.EverySessionIsSerial` | internal/modules/ai_participants.go:576-592 | Every run: a session has at most one task running or awaiting approval. |
| `AiSessions.SucceededIffPosted` | internal/modules/ai_participants.go:893-967 | Every run: a task has succeeded exactly when its one result message exists. |
| `AiSessions.ContextIsTheFold` | internal/modules/ai_participants.go:901-953 | Every run: a session's context is the bounded fold of the turns completed since the last delete, in completion order, one entry for each succeeded task. |
| `AiSessions.TerminalIsAbsorbing` | internal/modules/ai_participants.go:737-746 | A final status, with its result, never changes. |
| `AiSessions.EndedTasksAreSilent` | internal/modules/ai_participants.go:932-938 | Once a task is over, no run publishes a message or a turn for it, whatever worker is still at work on it. |
| `AiSessions.DeleteSilencesWorkers` | internal/modules/ai_participants.go:136-182 | After a message of a chat is deleted, no run publishes anything for a task the chat had, and its sessions start from nothing. |
| `AiSessions.BoundKeepsASuffix` | internal/modules/ai.go:622-647 | Bounding keeps a nonempty suffix within both limits, starts a shortened context at a user turn and leaves a fitting one alone. |
| `AiSessions.BoundIsLongest` | internal/modules/ai.go:622-647 | Bounding drops no more than it must: it keeps the longest suffix that fits and starts at a user turn. |
| `AiSessions.BoundContext` | internal/modules/ai.go:622-647 | The bounding loops compute the specified suffix. |
| `AiSessions.CompleteKeeps` | internal/modules/ai_participants.go:921-967 | The final transaction advances task, message and context together. |
| `AiSessions.CompleteExactly` | internal/modules/ai_participants.go:893-967 | When the final transaction publishes: authorised, task running, session at the version the worker loaded, context within its limit, no result yet; then task, message, context and history advance together, and otherwise nothing is published. |
| `AiSessions.LoadExactly` | internal/modules/ai_participants.go:815-856 | Which context a worker gets, and when: the session's own with the source turn, within the bounds, while its task runs and is authorised. |
| `AiSessions.EveryResultWasAuthorised` | internal/modules/ai_participants.go:921-967 | Every run: each turn of a session's history was published by an authorised completion of a running task, at the session's version and from its own context at that time. |
| `AiSessions.EveryPostWasAuthorised` | internal/modules/ai_participants.go:921-967 | Every run: so was each message posted for a task. |
| `AiSessions.StatusMoves` | internal/modules/ai_participants.go:569-967 | Which step may move a task from which status to which; its session and source never change. |
| `AiSessions.EveryQueueIsBounded` | internal/modules/ai_participants.go:434-470 | Every run: a source message has at most one task for each agent, and a session at most 64 active ones. |
| `AiSessions.ClaimKeeps` | internal/modules/ai_participants.go:569-615 | A claim keeps sessions serial. |
| `AiSessions.DeleteKeeps` | internal/modules/ai_participants.go:136-182 | A delete empties the chat's sessions under new versions and cancels its active tasks. |
| `AiSessions.RestartKeeps` | internal/modules/ai_participants.go:130-134 | A restart makes running tasks uncertain and keeps every invariant. |
| `Sidecar.NoGenerationTwice` | internal/microsafer/runtime.go:402-445 | Every run with crashes anywhere: two different released ciphertexts never share a send generation, and released and waiting ones lie below the durable counter. |
| `Sidecar.OutboxIsKept` | internal/microsafer/store.go:425-455 | An outbox entry is never replaced. |
| `Sidecar.HandlersRunOnce` | internal/microsafer/rpc.go:322-458 | Every run: a handler runs at most once for a client id, always behind a committed intent, and approved intents hold distinct consumed nonces. |
| `Sidecar.IntentsComeWithGrants` | internal/microsafer/rpc.go:392-408 | An intent appears only for a client without one, in the same commit as its fresh nonce, before any run. |
| `Sidecar.EveryIntentWasChecked` | internal/microsafer/rpc.go:322-408 | Every run: each intent was committed by a begin whose checks had passed, for a pending request of the inbox whose client had none and whose nonce, if it needed one, was unused. |
| `Sidecar.EveryRunWasChecked` | internal/microsafer/rpc.go:322-458 | Every run: each handler run goes back to such a begin, with its own client. |
| `Sidecar.InboxIsGenuine` | internal/microsafer/runtime.go:218-274 | Every run: each inbox row is the sender and request of a relay message that was decoded, not the endpoint's own, of its epoch, and could be opened. |
| `Sidecar.AnswersAreTruthful` | internal/microsafer/rpc.go:341-353 | Every run: a request answered, or left undecided, has the hash its client's intent is bound to, and an intent is complete only after its handler ran. |
| `Sidecar.CursorPassesOnlySettled` | internal/microsafer/runtime.go:189-210 | Every run: below the cursor lie only messages not decoded, own echoes, and inbox items that are decided. |
| `Sidecar.SealCommitKeeps` | internal/microsafer/runtime.go:428-443 | Saving snapshot and outbox entry together, or failing to, keeps every invariant. |
| `Sidecar.KeepCommitKeeps` | internal/microsafer/runtime.go:257-273 | Saving snapshot and inbox row together, or failing to, keeps every invariant. |
| `Sidecar.DispatchKeeps` | internal/microsafer/store.go:277-305 | Consuming the grant and writing the intent keeps every invariant. |
| `Sidecar.SendDirectRatchet` | internal/microsafer/participant.go:219-233 | A direct send is saved before it is released. |
| `Sidecar.FinishKeeps` | internal/microsafer/runtime.go:287-313 | Finishing or rejecting an item decides it before the loop moves on. |
| `Sidecar.StepKeeps` | internal/microsafer/runtime.go:157-314 | Every step, crash and restart keeps ratchet, intents, grants and cursor sound. |
| `EpochBarrier.OneTransitionAtATime` | internal/modules/e2ee.go:356-465 | Every run: at most one unconfirmed transition for a chat, only while pending, at the chat's epoch, shown as open by the journal; the epoch counts confirmed transitions since initialisation. |
| `EpochBarrier.NoMessageInsideTheBarrier` | internal/core/messages.go:175-181 | Every run: no message is created inside an open commit, and message epochs ascend along the journal. |
| `EpochBarrier.ConfirmedBeforeMessages` | internal/modules/e2ee.go:648-716 | Every run: between a pending commit and a later message of the chat lies a confirmation. |
| `EpochBarrier.SettledRostersAreSound` | internal/core/management.go:117-141 | Every run: in an initialised chat that is not pending, every roster device is unrevoked and of an active member. |
| `EpochBarrier.PackagesAreOneTime` | internal/modules/e2ee.go:276-317 | Every run: a key package is claimed by at most one chat and used by at most one Welcome, of that chat. |
| `EpochBarrier.EveryTransitionWasCommitted` | internal/modules/e2ee.go:364-398 | Every run: each transition comes from a step whose commit met every condition in the tables of that time and was built for the chat's own epoch then. |
| `EpochBarrier.OneWinnerPerEpoch` | internal/modules/e2ee.go:364-398 | Every run: of the commits accepted for a chat no two are for the same epoch, and they came in the order of their epochs. |
| `EpochBarrier.SubmitExactly` | internal/modules/e2ee.go:323-469 | When a commit is accepted, if and only if, from the tables: a live sender who may send, at its own roster leaf and with a key, the chat's group and epoch, a signature, agreeing hooks, a new id, no open transition and deliverable Welcomes; and everything it leaves. |
| `EpochBarrier.ConfirmExactly` | internal/modules/e2ee.go:572-720 | When a confirmation or initialisation is accepted, if and only if, from the tables, and everything it leaves. |
| `EpochBarrier.RosterAgrees` | internal/modules/e2ee.go:82-121 | What agreeing with the membership tables means, device by device and account by account. |
| `EpochBarrier.RosterMapLists` | internal/modules/e2ee.go:122-132 | The saved roster has exactly the given devices, each at its leaf. |
| `EpochBarrier.UseEachExactly` | internal/modules/e2ee.go:403-456 | Welcomes go through exactly when each is for a different active device under an unused package of that device claimed by this chat; then exactly those packages are used. |
| `EpochBarrier.ClaimExactly` | internal/modules/e2ee.go:276-317 | Who may claim which package for a chat, and that nothing else changes. |
| `EpochBarrier.PutMemberExactly` | internal/core/management.go:236-262 | The membership row, the join point and the barrier after a membership change, exactly. |
| `EpochBarrier.JoinHidesHistory` | internal/core/management.go:240-245 | A member who joins or rejoins without history cannot read what was stored before. |
| `EpochBarrier.RevokeExactly` | internal/core/management.go:117-141 | A revocation raises the barrier exactly in the encrypted chats its user is active in. |
| `EpochBarrier.ValidateRoster` | internal/modules/e2ee.go:82-121 | The roster check accepts exactly the rosters that agree with the membership tables. |
| `EpochBarrier.SaveRoster` | internal/modules/e2ee.go:122-132 | The roster table is replaced by the given leaves. |
| `EpochBarrier.RosterMapKeys` | internal/modules/e2ee.go:126-130 | The saved roster has exactly the given devices. |
| `EpochBarrier.MlsRelay.SubmitCommit` | internal/modules/e2ee.go:356-469 | Submitting a commit, all or nothing: accepted exactly when the sender, roster leaf, key, group, epoch, signature, transitions and Welcomes allow it, and then leaving one open transition under the commit's own epoch, the barrier, one event and its Welcomes. |
| `EpochBarrier.MlsRelay.UseWelcomes` | internal/modules/e2ee.go:403-456 | The loop over Welcomes uses up one claimed package for each distinct recipient, or fails. |
| `EpochBarrier.MlsRelay.ConfirmEpoch` | internal/modules/e2ee.go:621-720 | Confirming or initialising, all or nothing: accepted exactly when roster, signer, proof, group, epoch and transition allow it, and then leaving the next epoch settled under the new roster. |
| `EpochBarrier.SubmitKeeps` | internal/modules/e2ee.go:388-465 | A submitted commit opens the barrier and keeps every invariant. |
| `EpochBarrier.ConfirmKeeps` | internal/modules/e2ee.go:689-716 | A confirmation closes the barrier and keeps every invariant. |
| `EpochBarrier.InitialisedKeeps` | internal/modules/e2ee.go:137-159 | Initialising a relay settles its chat with a checked roster. |
| `EpochBarrier.RevokeRosters` | internal/core/management.go:134 | Revoking a device raises the barrier wherever it is in a settled roster. |
| `EpochBarrier.PutMemberKeeps` | internal/core/management.go:239-262 | A membership change that could unseat a roster device raises the barrier. |
| `EpochBarrier.CreateChatKeeps` | internal/core/management.go:142-200 | An encrypted chat starts under the barrier. |
| `EpochBarrier.ClaimKeeps` | internal/modules/e2ee.go:276-322 | A claim takes an unclaimed package once. |
| `EpochBarrier.SendKeeps` | internal/modules/e2ee.go:214-226 | A stored message keeps order and barrier. |
| `VaultSearch.Search` | internal/aivault/storage.go:483-527 | The scan fails exactly when a document is unreadable; otherwise it returns, by non-increasing score, exactly the best matching documents up to the limit: every matching document left out has a lower score, or the same score and a larger id, than each one returned. |
| `VaultSearch.TopAnswers` | internal/aivault/storage.go:483-563 | In plain scores and ids: a result has at most the limit, is distinct and sorted, and leaves out only documents a text query does not match at all and, with the limit reached, ones that every returned document outranks by a higher score or by the same score and a smaller id. |
| `VaultSearch.TopIsTheRankingsFront` | internal/aivault/storage.go:558-563 | What is kept is the front of the full ranking by score and id. |
| `VaultSearch.RankedIsRanking` | internal/aivault/storage.go:558-563 | Every list with distinct ids has a full ranking by score and id. |
| `VaultSearch.KeptIsRankedFront` | internal/aivault/storage.go:483-527 | On every list what a search keeps is the front of the ranking of the matching documents. |
| `VaultSearch.Consider` | internal/aivault/storage.go:506-518 | One more document keeps exactly the best so far. |
| `VaultSearch.SortResults` | internal/aivault/storage.go:833-839 | The in-place sort computes the specified sequence. |
| `VaultSearch.MoveUp` | internal/aivault/storage.go:835-837 | The inner loop moves one item past everything it outscores. |
| `VaultSearch.SortedIsSorted` | internal/aivault/storage.go:833-839 | That sequence is a permutation in non-increasing score. |
| `VaultSearch.Worst` | internal/aivault/storage.go:510-515 | The scan for the worst kept document finds it. |
| `VaultSearch.TopReplaces` | internal/aivault/storage.go:516-518 | Replacing the worst kept document by a better one keeps the best. |
| `VaultSearch.TopStays` | internal/aivault/storage.go:516-518 | A candidate no better than the worst changes nothing. |
| `VaultGraph.GraphBfs` | internal/aivault/storage.go:661-738 | Below the limit the nodes are exactly those within depth; truncated they are still within depth; always the edges are a shortest-path tree with one node more than edges. |
| `VaultGraph.Layer` | internal/aivault/storage.go:683-731 | One layer takes exactly the new targets of the frontier, or stops at the limit. |
| `VaultGraph.ReachHasPath` | internal/aivault/storage.go:683-731 | A node within bounded reach has a path of at most that many edges. |
| `VaultGraph.PathIsReach` | internal/aivault/storage.go:683-731 | A path of at most that many edges ends within bounded reach. |
| `VaultGraph.OnlyTheFrontierMatters` | internal/aivault/storage.go:685-712 | Scanning only the frontier's edges loses no node. |
| `VaultGraph.EmptyLevelStops` | internal/aivault/storage.go:683 | Stopping at an empty frontier loses no node. |

## Left out

- Cryptography, MLS, JSON, JWT and SHA-256 themselves: foreign code, parameters here.
- HTTP routing, headers, timers, SQL text, statement caching, metrics and diagnostics.
- Provider and tool adapters: a call is an arbitrary answer, failure or crash.
- Files, calls, reactions, mutations and configuration validation: single-guard checks.
- Prepare and in-transaction hooks other than the MLS ones, projection hooks and re-encryption for a recipient: only which stored message a page shows is modelled.
- Retention of tickets and operations: same loop as for events; a repeat is recognised only while its operation row is kept.
- Time-outs and per-request cancellation inside the writer's queue, other than what a job's context reports before and after its body.
- WakeUps.NoLostWakeUp: assumes no retention commit between a page's two reads, as gap freedom does; the mutex is released between the chats of a poll's batch, which only adds interleavings.
- Subscription.EveryRunIsGapFree: assumes clocks that never go back and no retention between a page's two reads.
- BatchEndpoint.Batch: assumes a quiet writer, that is no storage failure, cancelled request, refused admission or other sender during the request.
- PolicyGate.EveryRunBalances: the bound carries the total by which settled costs exceeded their reserves, because a provider's cost may exceed what was asked; token counts and currency of a row are not modelled.
- Conversation.ResumeEqualsNeverPausing: settings, authorization and budget are unchanged between stops, and storage boundaries are not modelled; their bytes count in the continuation's fixed part; an unresolved provider name, a failed settlement or a refused effect is an error like any other.
- AiSessions.ContextIsTheFold: the storage filter is off, and tasks are claimed in any order rather than oldest first.
- Legacy unnamed AI jobs: same status rules as named tasks, without sessions.
- Sidecar.HandlersRunOnce: capacity counts appear only as refusals, and the final response need not reach the outbox, since an uncertain answer after a restart shares its sequence number with the notice and an existing entry is kept.
- Sidecar.NoGenerationTwice: one epoch between two offline rejoins, in the sequential loop; receive-side ratchet state is not modelled.
- EpochBarrier.SettledRostersAreSound: does not say that the roster covers every enabled account, because disabling or enabling a user does not raise the barrier.
- EpochBarrier.ClaimKeeps: which unclaimed package of the device is taken (the oldest) and its expiry are not modelled.
- VaultSearch.Search: does not order ties by id, because the final sort compares scores only; floating-point scoring is an abstract real number.
- VaultGraph.GraphBfs: the edge list is fixed during the search and the final listing of nodes in name order is a set here.
- Vault encryption, quotas and storage grants.
- Command-line tools, benchmarks, browser code and documentation.
