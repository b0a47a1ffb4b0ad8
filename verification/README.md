# Verified model of the chat server's protocols

A Dafny model of the parts of an epoll chat server (worker threads, MySQL, Redis) whose
guarantees hold only over whole runs: per-connection request serialization with delivery
fences, the claim protocol for pushes coming from another server, the crash-tolerant stream
consumer behind it, the cross-process session store, concurrent message creation and paging,
the connection pool, and the byte-level and queue code underneath them.

`dafny verify dfyconfig.toml` checks everything.

## How the model is built

Concurrent protocols are transition systems: a `State`, a `Step` datatype with one case per
atomic action (a critical section, a Redis command or script, an SQL statement, one action of
the I/O thread), `Enabled` and `Apply`, and runs as sequences of steps in any interleaving.
Results quantify over every run, or over every `Reachable` state. Failures (a failed `submit`,
`epoll_ctl`, command or commit, a lost reply, a crash) are choices of the step, so every
combination of them is a run.

Objects that update their fields one call at a time are classes. Each method is proved equal to
a function of the old state, loops included, and those same functions are what the runs are
made of: `ConnectionContext.Context`, `ConnectionTable.Tables`, `SessionStore.RedisSessionStore`,
`LogQueue.Logger`, `PacketCodec.Codec` and `SendBuffer`, `RateLimiter.Limiter`,
`ChatService.Service`.

| file | part of the server |
|---|---|
| `ConnectionContext.dfy`, `RequestFlow.dfy` | the request gate of a connection, and the I/O thread, workers, completed-response queue and post-delivery events around it |
| `RemotePush.dfy` | `deliverRemotePush` and `stop()` racing on one atomic per task |
| `PushCodec.dfy`, `PushStream.dfy` | the push event codec and the Redis Stream consumer |
| `PushAccounts.dfy`, `LostPushes.dfy` | what an acknowledgement of that consumer is worth, and runs that lose a message |
| `PushPipeline.dfy`, `PushEndToEnd.dfy` | the consumer composed with the claim protocol, and what becomes of an entry |
| `MessageStore.dfy`, `OfflineMessages.dfy` | `createMessage` transactions; paging and delivered/read updates |
| `ChatService.dfy` | the dedup/create/conflict section of `sendMessage`, one call at a time, and conversation ids |
| `ConcurrentSends.dfy`, `CachelessRuns.dfy` | the same section run by any number of calls over the transactions of `MessageStore`, and its runs with and without a cache |
| `OneCall.dfy` | the one-call view of `createMessage` against its transactions |
| `SessionStore.dfy` | the four Lua scripts and their callers |
| `DbPool.dfy` | borrow, return, init, stop and lease moves |
| `ConnectionTable.dfy` | the connection tables and the timeout scan |
| `PacketCodec.dfy`, `LogQueue.dfy`, `Utf8.dfy`, `RateLimiter.dfy` | framing and send buffer, log queue, UTF-8 check, rate limiter |
| `Decimal.dfy`, `Wrappers.dfy` | decimal text, option and byte types shared by the others |

## Properties that do not hold as one would first state them

Each is given with the exact condition under which it does hold.

- Token conservation fails when one handler answer carries both a mark-on-response list and a
  marked push to its own connection: two finish events are then posted for one request.
  `RequestFlow.DisciplineIsExact` shows this is the only way, and `RequestFlow.Violation`
  builds the run.
- An acknowledged push entry need not have been delivered, nor even passed to the delivery callback.
  The next claim of an entry reads a live dedup key as a duplicate and acknowledges the entry for
  good, but the key may stand for nothing. It is stray when the reply of the SET that made it was
  lost, when the DEL after a kRetry failed, or when the consumer crashed before that DEL; it is torn
  when the consumer crashed after the claim and before the callback returned, whether or not it had
  been entered. `LostPushes` builds the four runs for every well-formed event, and
  `PushEndToEnd.NeverCalledBack` one in which the callback is never entered. Acknowledging on a live
  key is right exactly when the key is neither stray nor torn (`PushAccounts.NilIsRightExactly`);
  these are the only ways, over every run of the consumer (`PushAccounts.AckedWasAttempted`) and of
  consumer and server together (`PushEndToEnd.AckedEndToEnd`).
- kInvalidTarget, on which the consumer acknowledges, does not mean that the target is gone: a server
  that is stopping answers it for an open connection bound to the addressee
  (`RemotePush.StopHidesOpenTarget`). `RemotePush.OutcomeIsTrue` says exactly when it is answered.
- For one call and one pattern of failures the dedup cache is invisible unless `createMessage` would
  fail while the cache hits; then the cached answer is returned instead of the failure
  (`ChatService.Service.SendMessage`). Over runs, where failures are free, it is invisible outright
  (`CachelessRuns.CacheIsInvisible`).
- A live presence entry keeps its connection-index entry through `ClearPresence` and
  `RevokeSession` exactly when the caller's session is the one Redis holds for that connection
  (`SessionStore.PresenceStep`); `SessionStore.ForeignClearSplits` builds the run that loses it.
- After `stop()` the pool's idle queue stays empty, except that an `init()` called on a stopped pool
  fills it, exactly when the configured minimum is not zero (`DbPool.StoppedPoolDrains`);
  `DbPool.LateInitFillsStoppedPool` builds the run.
- A push event reaches its own connection exactly when the unsigned connection id fits in 63 bits
  (`PushCodec.TargetSurvivesExactly`).
- Registering a connection keeps the tables in step exactly when the descriptor is not already
  registered (`ConnectionTable.RegisterKeepsExactly`).
- A payload survives framing exactly when it has no newline, does not end in a carriage return
  and is at most 65536 bytes (`PacketCodec.PayloadSurvivesExactly`).
- A rate-limit counter outlives its bucket exactly unless it was set in the last window before
  clock zero, where truncating division doubles the bucket
  (`RateLimiter.OutlivesItsBucketExactly`).

## Model

| member | source | states |
|---|---|---|
| ConnectionContext.GateIsAFifo | src/ConnectionContext.cc:82-118 | no gate transition reorders, drops or invents a request, and nothing passes while a request is in flight or a fence is up |
| ConnectionContext.Context.StartRequestOrQueue | src/ConnectionContext.cc:82-91 | starts or queues the request, as the gate's transition says |
| ConnectionContext.Context.FinishRequestAndPopNext | src/ConnectionContext.cc:93-105 | ends the current request and hands out the next one unless the queue is empty or a fence is up |
| ConnectionContext.Context.PopNextRequestIfIdle | src/ConnectionContext.cc:107-118 | hands out the next request only to an idle, unfenced connection |
| ConnectionContext.Context.IncrementPendingDeliveryMarks | include/net/ConnectionContext.h:95-99 | raises the fence counter and changes nothing else |
| ConnectionContext.Context.DecrementPendingDeliveryMarks | include/net/ConnectionContext.h:95-99 | lowers the fence counter and changes nothing else |
| RequestFlow.TokenConservation | src/TcpServer.cc:593-678 | in every reachable state an open connection owns exactly one task, reply, finish job or finish event while a request is in flight and none otherwise; two requests of one connection are never with the workers together |
| RequestFlow.NoStall | src/TcpServer.cc:893-975 | an idle connection with queued requests is still owed a mark job or release event; with no work left anywhere, everything received has been dispatched |
| RequestFlow.ArrivalOrder | src/TcpServer.cc:544-591 | received packets are dispatched ones followed by queued ones; a worker runs the latest dispatched request; responses enter the send buffer in request order |
| RequestFlow.DeliveryFence | src/TcpServer.cc:893-927 | the fence counter is the number of mark jobs still holding it, never negative, and when a request is dispatched every mark job for an earlier push to that connection has finished |
| RequestFlow.DisciplineIsExact | src/TcpServer.cc:826-945 | over every run of a handler policy, tokens are conserved if and only if the policy never finishes one request twice |
| RequestFlow.DoubleFinish | src/TcpServer.cc:826-945 | from any quiet point with a request at the workers, an answer that finishes twice leads to two finish jobs for the one request |
| RequestFlow.Violation | src/TcpServer.cc:826-945 | such an answer gives, from a fresh server, a run that breaks token conservation |
| RequestFlow.StepKeeps | src/TcpServer.cc:544-976 | every step of every thread keeps the invariant behind these results |
| RemotePush.PromiseSetOnce | src/TcpServer.cc:126-198 | whatever the interleaving of caller, I/O thread and stop(), the promise is set at most once |
| RemotePush.OutcomeIsTrue | src/TcpServer.cc:126-198 | kDelivered: appended exactly once, to the target while bound to the addressee, and nowhere else; kRetry and kInvalidTarget: no open connection holds the payload; kInvalidTarget if and only if stop() had begun or the event was malformed at the call, or the target was found closed or bound to another |
| RemotePush.StopHidesOpenTarget | src/TcpServer.cc:161-165 | a stopping server answers kInvalidTarget for an open connection bound to the addressee |
| RemotePush.StepSight | src/TcpServer.cc:743-795 | every step keeps what was found of the target tied to the outcome |
| RemotePush.ReturnIsFinal | src/TcpServer.cc:161-198 | no later step changes what a caller was told |
| RemotePush.RetryStaysUndelivered | src/TcpServer.cc:161-198 | after kRetry, no open connection ever comes to hold that attempt's payload |
| RemotePush.ClaimedTaskCompletes | src/TcpServer.cc:743-795 | a claimed task without a value is in the I/O thread's hand, its completing steps stay enabled, and no other step takes it away |
| RemotePush.WaitingCallerReturns | src/TcpServer.cc:161-198 | a waiting caller can collect its value or give up with kRetry unless someone has its task in hand, also when the task was queued after stop() swapped the queue out |
| RemotePush.BlockedCallerIsOwed | src/TcpServer.cc:189-198 | a caller waiting without a deadline waits for a task in the I/O thread's or stop()'s hand, or one already completed |
| RemotePush.StepKeeps | src/TcpServer.cc:126-198 | every step keeps the invariant tying the atomic, the promise, the caller and the send queues together |
| PushCodec.IntegerRoundTrip | src/stream/redis_push_stream.cc:17-24 | reading back a written number gives it, saturated to 64 bits |
| PushCodec.EventRoundTrip | src/stream/redis_push_stream.cc:53-68 | an event is published exactly when its texts are non-empty and its numbers positive, and the consumer decodes the same event up to saturation |
| PushCodec.TargetSurvivesExactly | src/stream/redis_push_stream.cc:262-282 | the event arrives unchanged if and only if the connection id fits in 63 bits |
| PushStream.AtMostOneDelivery | src/stream/redis_push_stream.cc:195-222 | across crashes, re-claims, duplicate publishes, lost replies and failed DELs, a delivery and any later attempt for the same message acquired the dedup key at least its lifetime apart |
| PushStream.DeliveryIsGuarded | src/stream/redis_push_stream.cc:195-222 | while a possible delivery's dedup period lasts, its key is live |
| PushStream.AckedOnlyWhenSettled | src/stream/redis_push_stream.cc:242-253 | an entry read is pending or acknowledged, never both, and an acknowledged one was dead-lettered or its dedup key had been claimed |
| PushAccounts.NilIsRightExactly | src/stream/redis_push_stream.cc:205-213 | when SET NX answers nil, a callback run that returned kDelivered or kInvalidTarget is within its dedup period if and only if the key is neither stray nor torn |
| PushAccounts.AckedWasAttempted | src/stream/redis_push_stream.cc:195-222 | for an acknowledged well-formed entry the callback returned kDelivered or kInvalidTarget, or a crash cut an attempt short, or a lost SET reply, a failed DEL or a crash before the DEL once left its message's key behind |
| PushAccounts.AckedForGood | src/stream/redis_push_stream.cc:242-245 | an acknowledged entry is never pending again, whatever runs afterwards |
| LostPushes.LostClaimLosesMessage | src/stream/redis_push_stream.cc:205-213 | for every well-formed event a run with a lost SET reply acknowledges it with no callback ever made |
| LostPushes.FailedReleaseLosesMessage | src/stream/redis_push_stream.cc:215-219 | for every well-formed event a run with a failed DEL acknowledges it after one kRetry |
| LostPushes.CrashLosesMessage | src/stream/redis_push_stream.cc:215-219 | for every well-formed event a run with a crash before the DEL acknowledges it after one kRetry |
| LostPushes.CutAttemptLosesMessage | src/stream/redis_push_stream.cc:205-215 | for every well-formed event a run with a crash between the claim and the callback's return acknowledges it, with no command failing and no key stray |
| PushAccounts.KeyStep | src/stream/redis_push_stream.cc:205-219 | every step keeps what a live key stands for: a finished callback run, one in hand, one cut short if torn, or nothing if stray |
| PushAccounts.AckStep | src/stream/redis_push_stream.cc:195-222 | every step keeps acknowledged entries accounted for |
| PushStream.AtMostOnceStep | src/stream/redis_push_stream.cc:195-222 | every command, reply, crash and restart keeps the dedup invariant |
| PushStream.GroupStep | src/stream/redis_push_stream.cc:92-115 | every step keeps the consumer-group invariant |
| PushPipeline.NoDuplicatePush | src/main.cc:147-149 | in every run of consumer and server together, copies of one message held by open connections come from dedup claims at least the key's lifetime apart, and each copy is in its own target's send queue once |
| PushEndToEnd.AckedEndToEnd | src/main.cc:147-149 | an acknowledged well-formed entry: the callback was entered for its message and returned, and the server did what that outcome says; or the process crashed in the callback; or before it was entered; or a key was left behind |
| PushEndToEnd.NeverCalledBack | src/stream/redis_push_stream.cc:205-215 | for every well-formed event a run of the two together acknowledges it though the callback was never entered and no key was stray |
| PushEndToEnd.FullStep | src/main.cc:147-149 | every step of either keeps callback runs, server tasks and outcomes tied together across crashes |
| MessageStore.OneMessagePerKey | src/db/message_repository.cc:324-419 | all successful calls for one sender and client id return the same id and sequence, and at most one returns created |
| MessageStore.SuccessIsCommitted | src/db/message_repository.cc:324-419 | a successful result names a committed row, written by that call exactly if it was told created |
| MessageStore.RowsAreAsSent | src/db/message_repository.cc:384-413 | every committed row is the message of the call that wrote it |
| MessageStore.SequencesAreDense | src/db/message_repository.cc:352-392 | a conversation's committed sequences are exactly 1..last_seq, each once, in commit order |
| MessageStore.StepKeeps | src/db/message_repository.cc:324-419 | every statement, failure, lost commit reply and late commit keeps the invariant |
| OfflineMessages.ListOffline | src/db/message_repository.cc:429-488 | the page is the first rows of the unlimited answer, and has_more says whether any were cut off |
| OfflineMessages.UpdatesMoveForward | src/db/message_repository.cc:490-548 | delivered/read updates move exactly the user's listed messages, forward to the asked status and never back, keep delivery times, and are idempotent |
| OfflineMessages.TimesAreForGood | src/db/message_repository.cc:490-548 | over any updates a message has its delivery and read times exactly from the statuses that set them, and a time once set is never changed |
| OfflineMessages.NextPage | src/db/message_repository.cc:429-488 | with the last returned id as cursor, the next query sees exactly what the page left |
| OfflineMessages.UpdatesKeepRest | src/db/message_repository.cc:490-548 | updates of returned messages do not change what is still to be returned, even when the cursor's own row is updated |
| OfflineMessages.PagingIsExact | src/service/chat_service.cc:311-351 | pulling with any limits, with updates of returned messages in between, returns the user's stored messages in (created_at, id) order, each once, and has_more is true exactly while some remain |
| ChatService.Repository.CreateMessage | src/db/message_repository.cc:324-419 | stores a new message or returns the one under the same key, or fails and changes nothing |
| ChatService.DedupCache.Lookup | src/cache/message_dedup_cache.cc:10-19 | finds a non-empty cached id unless the command fails |
| ChatService.DedupCache.Save | src/cache/message_dedup_cache.cc:21-26 | stores a non-empty id unless the command fails |
| ChatService.DedupCache.Remove | src/cache/message_dedup_cache.cc:28-32 | drops the entry unless the command fails |
| ChatService.Service.SendMessage | src/service/chat_service.cc:182-219 | whatever the cache holds and whichever commands fail, answer and table are those of a send with no cache, if and only if not (createMessage would fail and the cache hits) |
| ConcurrentSends.AnswersAgree | src/service/chat_service.cc:182-208 | whatever the cache answers and however sends interleave, all sends of one key that get a message get the same id and sequence, and at most one is told it is new |
| ConcurrentSends.AnswerIsCommitted | src/service/chat_service.cc:182-208 | the message a send goes on with is a committed row of its key, written by its own call if created |
| ConcurrentSends.HitIsARead | src/service/chat_service.cc:185-195 | in one state: a cache hit gives what createMessage would give without the cache, and changes no table |
| CachelessRuns.CacheIsInvisible | src/service/chat_service.cc:182-208 | for every run with a cache there is a run without one that stores the same messages under the same numbers and gives every send the same answer |
| CachelessRuns.StoreStepSame | src/db/message_repository.cc:324-419 | a statement of a call and the same statement of its counterpart keep the two stores the same up to call ids |
| CachelessRuns.Match | src/service/chat_service.cc:182-208 | every step with a cache is matched by steps without one |
| ConcurrentSends.StepKeeps | src/service/chat_service.cc:182-208 | every step of every send and transaction keeps the invariant behind these |
| OneCall.UndisturbedCallIsCreate | src/db/message_repository.cc:324-419 | a run of one new createMessage call and of nobody else, statement by statement, ends with the table and result of the one-call view |
| ChatService.ResendIsIdempotent | src/service/chat_service.cc:182-219 | resending stores nothing and returns the stored message; a different message under the same client id conflicts and stores nothing |
| ChatService.ConversationIdIsThePair | src/service/chat_service.cc:36-40 | two pairs of users share a conversation id if and only if they are the same pair |
| SessionStore.RedisSessionStore.Bind | src/server/redis_session_store.cc:100-110 | refuses an invalid session unchanged, otherwise takes over the user's token, presence and index |
| SessionStore.RedisSessionStore.Displace | src/server/redis_session_store.cc:12-42 | deletes exactly the previous token, the previous presence's index key and the connection's previous presence |
| SessionStore.RedisSessionStore.Refresh | src/server/redis_session_store.cc:44-56 | extends presence and index exactly when both are live and name the caller's user, connection and token |
| SessionStore.RedisSessionStore.ClearPresence | src/server/redis_session_store.cc:58-66 | removes the index entry of the connection, and the presence only if it is the caller's |
| SessionStore.RedisSessionStore.RevokeSession | src/server/redis_session_store.cc:68-80 | additionally removes the token and the session key that names it |
| SessionStore.TokensStep | src/server/redis_session_store.cc:12-80 | every script keeps each live token the one in its user's live session key |
| SessionStore.IndexStep | src/server/redis_session_store.cc:12-80 | every script keeps each live index entry matched by its user's presence |
| SessionStore.PresenceStep | src/server/redis_session_store.cc:58-80 | the converse is kept if and only if Clear and Revoke present the session Redis holds for that connection |
| SessionStore.ForeignClearSplits | src/server/redis_session_store.cc:58-66 | a bind followed by a clear of that connection with another token reaches a presence with no index entry |
| SessionStore.OneTokenPerUser | src/server/redis_session_store.cc:12-80 | at every moment of every run a user has at most one live token, the one in the session key, and an index entry implies the matching presence |
| SessionStore.PresenceAndIndexAgree | src/server/redis_session_store.cc:12-80 | over runs whose closing connections speak for themselves, presence and index agree in both directions |
| SessionStore.StaleRunsAreHarmless | src/server/redis_session_store.cc:44-80 | no number of Refresh, Clear and Revoke calls by others changes a presence owned by another (server, connection, token) |
| DbPool.Conservation | src/db/db_pool.cc:178-380 | total_connections_ is idle plus held plus being created, between 0 and the maximum, and the waiting count is the number of waiters |
| DbPool.OnePlace | src/db/db_pool.cc:178-380 | a connection held by a borrower, lease or return is held by no other and is not idle |
| DbPool.IdleOnce | src/db/db_pool.cc:178-380 | an idle connection is in the idle queue once |
| DbPool.Accounting | src/db/db_pool.cc:120-380 | until stop(), created equals established plus ping-failed, invalidated and expired |
| DbPool.ErrorsAreTrue | src/db/db_pool.cc:178-342 | over every run, a borrow is told stopping only after stop(), a failed health check only after a ping of its own failed, a timeout only after its own wait, and the timeouts told are at most those counted |
| DbPool.NothingLentEarly | src/db/db_pool.cc:182-189 | before init() takes effect nothing is held or being created |
| DbPool.StoppedPoolDrains | src/db/db_pool.cc:415-444 | after stop() the total never grows and is zero if and only if nothing is idle, held or being created; the idle queue stays empty except under an init(), which fills it if and only if the minimum is not zero |
| DbPool.LateInitFillsStoppedPool | src/db/db_pool.cc:120-176 | stop() and then init() with a non-zero minimum reaches a stopped pool with idle connections |
| DbPool.MoveAssignKeeps | src/db/db_pool.cc:56-69 | move assignment, self-assignment and assignment over a held lease included, loses and duplicates no connection |
| DbPool.StepBooks | src/db/db_pool.cc:178-380 | every critical section keeps the per-connection books |
| ConnectionTable.Tables.RegisterConnection | src/TcpServer.cc:430-446 | enters a fresh id in both tables and at the back of the scan queue |
| ConnectionTable.Tables.CloseClientFd | src/TcpServer.cc:477-500 | removes the context from both tables and its user's list, or does nothing for an unknown descriptor |
| ConnectionTable.Tables.BindAuthenticatedConnection | src/TcpServer.cc:521-529 | moves the connection to the user's list |
| ConnectionTable.Tables.UnbindAuthenticatedConnection | src/TcpServer.cc:531-542 | takes the connection off its user's list, and the user off with the last |
| ConnectionTable.Tables.ScanConnectionTimeouts | src/TcpServer.cc:1052-1089 | examines the first 256 queue entries, or all if fewer, one after another |
| ConnectionTable.RegisterKeepsExactly | src/TcpServer.cc:430-446 | registering keeps the tables in step if and only if the descriptor is not already registered |
| ConnectionTable.TablesAgree | src/TcpServer.cc:430-542 | in every run both tables hold the same contexts, each authenticated connection is listed once under exactly its user, and each open id is in the scan queue exactly once |
| ConnectionTable.ScanIsExact | src/TcpServer.cc:1052-1089 | a scan closes exactly the examined connections that have timed out and leaves every other as it was |
| ConnectionTable.ScanIsFair | src/TcpServer.cc:1052-1089 | an id at place p is examined by one of the next p / 256 + 1 scans, whatever happens in between |
| ConnectionTable.SilentIsClosed | src/TcpServer.cc:1052-1089 | so a connection that stays timed out is closed within that many scans |
| PacketCodec.Codec.Feed | src/codec/packet_codec.cc:7-31 | succeeds exactly when buffer plus chunk decodes, and then gives its packets and residue; on failure clears both |
| PacketCodec.DecodeIsExact | src/codec/packet_codec.cc:7-31 | a stream decodes exactly when no line, finished or not, exceeds 65536 bytes, and then to its stripped lines and the unfinished rest |
| PacketCodec.AnyStreamDecodes | src/codec/packet_codec.cc:7-31 | the same for every byte string at all, with the lines and rest it splits into |
| PacketCodec.ChunkingIsInvisible | src/codec/packet_codec.cc:7-31 | however a stream is cut, feeding the pieces succeeds exactly when the whole decodes, with the same packets and residue |
| PacketCodec.PayloadSurvivesExactly | src/codec/packet_codec.cc:33 | decode inverts encode if and only if the payload is clean |
| PacketCodec.SendBuffer.Append | src/ConnectionContext.cc:55 | sent plus pending bytes stay the concatenated encoded payloads |
| PacketCodec.SendBuffer.Consume | src/ConnectionContext.cc:68-78 | moves at most the pending bytes to the sent ones, in order |
| PacketCodec.SendBuffer.OnWritable | src/TcpServer.cc:1091-1127 | keeps that law for any send results, and stops drained, waiting or closed after exactly the bytes they account for |
| PacketCodec.ReceiverSeesAPrefix | src/TcpServer.cc:1091-1127 | a receiver fed any part of the sent bytes, cut in any way, has decoded a prefix of the payloads, all of them once all is sent |
| LogQueue.FindLow | src/common/logger.cc:354-360 | finds the oldest low-priority line of the queue |
| LogQueue.Logger.Write | src/common/logger.cc:330-381 | refuses past the gate, pushes, drops, or evicts the oldest low-priority line for an urgent one |
| LogQueue.Logger.FlushCall | src/common/logger.cc:383-409 | queues a barrier, or answers at once when the worker is gone |
| LogQueue.Logger.Take | src/common/logger.cc:441-458 | takes the drop count and the head of the queue, or leaves when stopped and empty |
| LogQueue.Conservation | src/common/logger.cc:330-481 | in every run the counter is the number of queued lines, within capacity; each accepted line is in exactly one place or lost; every loss is reported or still counted |
| LogQueue.OutputInOrder | src/common/logger.cc:434-481 | lines come out in the order they were accepted, each at most once |
| LogQueue.UrgentSurvives | src/common/logger.cc:348-368 | a queued WARN or ERROR line, or a barrier, is never thrown out |
| LogQueue.RefusedExactly | src/common/logger.cc:348-368 | a line past the gate is refused if and only if the queue is full and the line is low-priority or every queued one is urgent |
| LogQueue.OldestGoes | src/common/logger.cc:354-367 | an urgent line that needs room displaces the oldest low-priority line and nothing else |
| LogQueue.FlushIsABarrier | src/common/logger.cc:383-409 | when a flush has returned, every line accepted before the call is written or counted as dropped |
| LogQueue.ExitIsClean | src/common/logger.cc:411-481 | once the worker has left, lines written plus drops reported are the lines accepted, and every flush has been answered |
| Utf8.Next | src/common/validator.cc:28-58 | reads one code point, or fails, as the reference says |
| Utf8.DecodeUtf8 | src/common/validator.cc:24-68 | accepts exactly the concatenations of encoded scalar values; count and control flag are those of the longest decodable start |
| Utf8.FirstIsSound | src/common/validator.cc:30-58 | what is read is a scalar value whose encoding (section 3 of RFC 3629) is there |
| Utf8.FirstIsComplete | src/common/validator.cc:30-58 | every encoded scalar value is read back |
| Utf8.PrefixFree | src/common/validator.cc:30-58 | no character's encoding starts another's |
| Utf8.OneDecoding | src/common/validator.cc:24-68 | the longest decoding is the only one and decides well-formedness |
| RateLimiter.Limiter.EvalScript | src/cache/redis_rate_limiter.cc:9-16 | increments a live counter or starts one that expires a window later, and returns count and remaining life |
| RateLimiter.Limiter.Allow | src/cache/redis_rate_limiter.cc:28-46 | passes invalid calls and failed round trips, otherwise judges by the counter |
| RateLimiter.CounterIsExact | src/cache/redis_rate_limiter.cc:9-16 | after any run a counter holds exactly the calls counted in its bucket and lives past the bucket's end |
| RateLimiter.OutlivesItsBucketExactly | src/cache/redis_rate_limiter.cc:33 | a counter set at t lives to the end of t's bucket if and only if t is not in the window before zero |
| RateLimiter.AnswerIsExact | src/cache/redis_rate_limiter.cc:28-46 | an answered call passes if and only if its bucket had room; a denied one is told 1..window seconds, which lands in a later bucket |
| RateLimiter.AnsweredQuota | src/cache/redis_rate_limiter.cc:28-46 | per bucket Redis passes at most limit calls, and exactly min(limit, calls) when every reply arrives |
| RateLimiter.BucketQuota | src/cache/redis_rate_limiter.cc:28-46 | all checked calls that get through in a bucket are the passes Redis answered plus the calls whose round trip failed, so at most limit plus those |
| RateLimiter.SpanQuota | src/cache/redis_rate_limiter.cc:28-46 | in any span of one window at most twice the limit gets through, plus the calls whose round trip failed |

## Left out

- Sockets, epoll, eventfd, timers, the accept loop and the command-line client: only the success or failure of a call is kept, as a choice.
- RequestFlow: runs before `stop()`; `weak_ptr::lock()` on a context succeeds exactly while the connection is registered; batches swapped out of a queue are taken one item at a time from its head; connection ids are unbounded. The message ids inside a mark job and the database rows it changes are not tracked there.
- RemotePush: callers do not exclude one another and closing the event descriptor does not wait for them, although the code holds a mutex there: more runs than the code has. The wall-clock wait is a step that may happen at any time; condition-variable fairness is not modelled, so completion is stated as steps that stay enabled.
- PushStream: one consumer per server id and no loss of Redis data. An entry is kept as what its fields decode to. The delivery-retry stream, the group set-up and the parsing of Redis replies are left out.
- MessageStore: the single-chat key and the conversation id name the same pair (`ChatService.ConversationIdIsThePair`), so one conversation row stands for both; an update that reports a row count other than one is a failure. Group messages are left out.
- ChatService.Repository.CreateMessage: the one-call-at-a-time view of `createMessage`; its concurrent behaviour is in MessageStore, and `OneCall.UndisturbedCallIsCreate` ties the two.
- ConcurrentSends: the cache is any answer at any time, so what Save and Remove leave in it is not tracked there; the conflict check after the answer compares the stored row and is in ChatService.
- ChatService.Service: validation before the dedup section and the push after it are left out.
- OfflineMessages: new arrivals during paging are excluded, as their place in the order may lie before the cursor. Message ids stand for their rank in the column's collation.
- SessionStore: keys are typed tuples rather than text; the read-back of tokens and presence and its removal of malformed entries are left out.
- DbPool: each critical section is one step on values rather than a method on an object, since borrow releases and retakes the lock inside one call; one `init()`; the retries inside `createConnection` are one outcome; which waiter wakes is any.
- ConnectionTable: bind and unbind are called on registered connections; dispatching the close notification to the workers is left out.
- PacketCodec.SendBuffer.OnWritable: re-arming and disarming of write events is left out; closing is its outcome.
- LogQueue: synchronous mode, sinks, formatting and file rotation are left out; a level below the threshold is a Write that never starts. The worker's writing to the sinks is one step.
- Utf8: the length and character validators around the decoder are left out.
- RateLimiter: calls passed unchecked (empty kind or identity, zero limit or window) are not counted as passes; the key is a triple rather than text; calls under one name use one limit and one window; Redis and the limiter read the same clock, which does not go back.
- The Redis connection pool (`src/redis/redis_pool.cc`), the in-memory session manager, the cached user repository, friend and group services, JSON and config code, password hashing and id generation: easy members or foreign code.
