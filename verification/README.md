# Balance pipeline: model and proofs

`balances-watcher` follows the ERC-20 balances of wallets and streams changes to browsers.
This project models the path from a block header to a client's view in four linked parts
and proves what each keeps over every run.

1. **Event dispatcher.** Headers reach the dispatcher through a bounded channel; it drains
   the channel, plans block ranges against its cursor, and bisects ranges a provider
   refuses. `FetchPlanner`, `RangeBisect`, `DrainRefinement`, `DispatcherRuns`,
   `EventDispatcher`.
2. **Snapshot and replicas.** A block-guarded map is updated by two tasks, published as
   diffs over a lossy broadcast ring, and rebuilt by clients. `Subscription`, `LagClose`,
   `Replica`, `ReplicaExactness`, `SnapshotUpdater`.
3. **Session registry.** Two-phase upserts, subscribes, unsubscribes and timed sweeps race
   on one map. `SubscriptionManager`, `RegistryRuns`.
4. **Refresh queue and reads.** Requests are coalesced and resolved to a block, read by
   multicall in one batch or in chunks, and merged. `BalanceRefreshQueue`, `RpcClient`,
   `NoMiss`; and `EndToEnd`, which joins the first part to this one.

How the parts are written. What an object of the code does under one lock, or in one turn
of its loop, is a method of a class with the same fields, proved equal to a function of the
old state. Concurrency is a step system over those same functions: a run is any sequence of
steps, an impossible step changes nothing, and the theorems quantify over all runs. The
dispatcher's `RunOnce` is proved to perform a run of its step system while headers keep
arriving, before every poll of the drain and during every range. The two log sources of a
range run side by side in one task: what each resolves depends on its own provider alone, so
each is resolved and their hand-overs to the handlers are then interleaved in any order. The
two publishers of a session are likewise proved to perform runs of `Replica`'s step system,
with any steps of the rest of the session before each item and between each merge and its
broadcast.

Providers are arbitrary: a log provider may answer each call differently (`RangeBisect.Provider`
takes the number of the call), and a balance provider too, except where a theorem names an
honesty assumption. Amounts are natural numbers; the code renders them as decimal strings
on the way out. Addresses are natural numbers in their numeric order. A subscription, an
`Arc` in the code, is named by a generation number. Times are milliseconds.

Verify everything with `dafny verify dfyconfig.toml`.

## What the proofs found

- **Overlapping publishers break agreement.** Merging and broadcasting are separate steps
  and two tasks run them. When the younger of two diffs on one token is broadcast first, a
  client that receives everything keeps the older amount (`Replica.OverlapBreaksAgreement`).
  `ReplicaExactness.AgreementIsExact` says for every run when a client agrees: exactly if,
  for the stored tokens named since it attached, the broadcasts in the order sent end where
  the diffs in the order merged do. `Replica.ReplicasAgree` gives the guard that ensures it:
  no broadcast overtakes an older open one on a shared token, which includes all runs whose
  merge-to-broadcast windows do not overlap.
- **Evicted tokens can come back.** The comment at `src/services/subscription.rs:102-104`
  rules out entries outside the watched set, but a read in flight across a replacement
  re-inserts them (`Replica.InFlightReadRevivesEvicted`). An unwatched token is stored exactly
  if some merge since the last replacement carried it (`ReplicaExactness.RevivalIsExact`), so
  the comment holds all along a run exactly if every merge carries only tokens watched at
  that moment (`ReplicaExactness.CleanRunIsExact`).
- **Lost blocks are not retried.** The comments at `src/services/event_dispatcher.rs:25-27`
  and `378-379` speak of a residual gap that the next head re-triggers; the code advances the
  cursor whatever the fetch returned, so a lost block stays lost in every later state
  (`DispatcherRuns.LossIsNeverRetried`, and `LossIsReachable` for the loss itself). The one
  exception is block 0.
- **Block 0 is a sentinel.** A head of 0 is fetched but is no baseline, so the accounting
  starts at the first nonzero head. Block 0 is fetched again whatever became of it
  (`DispatcherRuns.HeadZeroIsNoBaseline`): in every run and for either source exactly once for
  each drain that ends on head 0 with nothing processed yet, so more than once exactly if two
  do (`DispatcherRuns.ZeroIsFetchedPerStart`).
- **Reap window.** `src/config/constants.rs:42-47` gives `[TTL, 2 * TTL)`. The code compares
  with `>`, so a session is removed within `(TTL, 2 * TTL]` of going idle
  (`RegistryRuns.ReapTiming`); surviving a sweep at exactly TTL and being removed at exactly
  2 * TTL both occur (`RegistryRuns.ReapAtTwiceTtl`).
- **Registered is not running.** A queue error cancels a session and leaves it in the map
  (`RegistryRuns.RegisteredMayBeCancelled`). A registered session is cancelled exactly if
  shutdown has been signalled or its own queue has failed (`RegistryRuns.CancelledExactly`).
- **Saturation miscounts.** The client counter saturates at 2^32 - 1 and then counts down
  from there: after that many subscribes one more leaves the counter one short
  (`RegistryRuns.SaturationMiscounts`). The books are right all along a run exactly if no
  subscribe finds a full counter (`RegistryRuns.AccountingIsExact`).
- **Chunks are sequential.** `src/services/rpc_client.rs:313-316` says chunks run in parallel
  and lines 323-325 that they arrive unordered; line 357 runs them one after the other, and so does the model.

## Model

| member | source | states |
|---|---|---|
| FetchPlanner.PlanFetch | src/services/event_dispatcher.rs:147-185 | on 64-bit words no operation of the planner overflows while a chunk fits above the head, and the result is the plan whose arithmetic the lemmas below establish |
| FetchPlanner.PlanRanges | src/services/event_dispatcher.rs:167-173 | the chunking loop terminates without overflow and yields exactly the chunks from the first block to the head |
| FetchPlanner.PlanArithmetic | src/services/event_dispatcher.rs:160-184 | from a running cursor the ranges tile the newest min(gap, cap) blocks up to the head, none wider than a chunk, in the fewest requests, and skipped plus fetched is the gap |
| FetchPlanner.FirstHeadPlan | src/services/event_dispatcher.rs:144-165 | with nothing processed yet, exactly the head is fetched and nothing is skipped |
| FetchPlanner.StaleHeadPlan | src/services/event_dispatcher.rs:153-158 | a head at or below a running cursor plans nothing and skips nothing |
| FetchPlanner.PlanCover | src/services/event_dispatcher.rs:147-185 | for every cursor and head, which blocks are fetched, each once |
| FetchPlanner.TilesCover | src/services/event_dispatcher.rs:79-82 | a list of contiguous ranges holds every block of its interval exactly once and no other |
| RangeBisect.FetchRangeWithBisect | src/services/event_dispatcher.rs:219-268 | under any provider the accepted subranges and lost single blocks partition the range in order, each is a real answer and is the whole range or half of a refused one, logs arrive as the accepted batches in order, both counts are exact, and at most 2n-1 calls are made |
| RangeBisect.SplitStep | src/services/event_dispatcher.rs:245-255 | splitting the top of the stack with the older half pushed last keeps the stack a tiling of what is unresolved |
| RangeBisect.SettleStep | src/services/event_dispatcher.rs:239-263 | settling the top range extends the resolved prefix by exactly that range and accounts for its logs or its loss |
| RangeBisect.BisectRefinesBlockByBlock | src/services/event_dispatcher.rs:45-51 | under a provider that refuses wide ranges and some blocks, the delivered logs and the losses are those of fetching every block alone |
| RangeBisect.HalvingIsCheap | src/services/event_dispatcher.rs:245-255 | under a provider that refuses exactly the ranges wider than w, a range that fits takes one call and n blocks that do not take fewer than 4n/w |
| DrainRefinement.ProcessCursor | src/services/event_dispatcher.rs:372-382 | a processed plan moves the cursor to the larger of cursor and head |
| DrainRefinement.OneByOneCursor | src/services/event_dispatcher.rs:33-43 | processing heads in turn ends at the largest of them and the cursor |
| DrainRefinement.DrainRefines | src/services/event_dispatcher.rs:187-203 | draining a backlog into its newest head ends at the same cursor, fetches no block more often, makes no more requests, and within the cap fetches exactly the same blocks |
| DispatcherRuns.WholeRunAccounting | src/services/event_dispatcher.rs:310-393 | over every run with gaps, duplicates, reorderings and drops: between cycles the cursor is the largest head consumed, headers are conserved, and for either source each block from the first nonzero head to the cursor is in exactly one accepted response, lost single block or skip |
| DispatcherRuns.CursorIsMonotone | src/services/event_dispatcher.rs:372-382 | the cursor never goes back and the ledgers only grow |
| DispatcherRuns.LossIsNeverRetried | src/services/event_dispatcher.rs:256-264 | for either source and in every later state, also inside a cycle, a lost block other than block 0 is covered by its one failed fetch and nothing else |
| DispatcherRuns.LossIsReachable | src/services/event_dispatcher.rs:372-382 | any first head whose own fetches fail ends lost for both sources with the cursor on it |
| DispatcherRuns.RestIsHealthy | src/services/event_dispatcher.rs:281-307 | at rest with an empty channel and no drop, every header and the watcher's head are at or below the cursor, so the lag is zero |
| DispatcherRuns.HeadZeroIsNoBaseline | src/services/event_dispatcher.rs:153-165 | a run in which block 0, lost or accepted, is fetched again and blocks 1 to 4 are never fetched |
| DispatcherRuns.ZeroIsFetchedPerStart | src/services/event_dispatcher.rs:153-165 | in every run, for either source, block 0 is asked for exactly once per drain that ends on head 0 with nothing processed yet |
| DispatcherRuns.StepKeepsInv | src/services/event_dispatcher.rs:314-389 | every step of the pipeline keeps the accounting invariant |
| EventDispatcher.ChunkFitsCap | src/domain/evm_network.rs:84-129 | on every network the chunk is at least one block and fits the backfill cap |
| EventDispatcher.BlockChannel.TrySend | src/services/block_watcher.rs:235-248 | a head enters unless 256 are queued, and then the queue is unchanged |
| EventDispatcher.BlockChannel.TryRecv | src/services/event_dispatcher.rs:198-201 | the oldest head leaves, or the queue was empty |
| EventDispatcher.BlockWatcher.RecordConnected | src/services/block_watcher.rs:231-249 | the header is recorded and the watcher connected in any case; a full channel drops only the hand-over and counts it |
| EventDispatcher.BlockWatcher.HeadersArrive | src/services/block_watcher.rs:231-249 | headers arriving one after the other are as many pipeline steps, whatever the dispatcher is doing |
| EventDispatcher.DrainQueuedHeads | src/services/event_dispatcher.rs:192-203 | with headers arriving before every poll: the channel ends empty, every head queued at the start is taken, the result is the maximum of the first and all heads taken, these are counted, and the whole is a run of pipeline steps |
| EventDispatcher.Erc20TransferEventDispatcher.constructor | src/services/event_dispatcher.rs:119-130 | a fresh dispatcher is inactive, at cursor 0, with its chain's budgets |
| EventDispatcher.Erc20TransferEventDispatcher.ObserveHeader | src/services/block_watcher.rs:231-249 | a header arriving at any point of the loop is the pipeline's header step |
| EventDispatcher.Erc20TransferEventDispatcher.HealthStatus | src/services/event_dispatcher.rs:274-308 | healthy if and only if active and, once a head has been seen and a block processed, the head is at most the allowed lag above the cursor |
| EventDispatcher.Erc20TransferEventDispatcher.RunOnce | src/services/event_dispatcher.rs:316-387 | with headers arriving throughout, one turn of the loop is a run of pipeline steps back to idle, consumes every head that was waiting and leaves the cursor at the larger of itself and the newest head consumed |
| EventDispatcher.Erc20TransferEventDispatcher.ReceiveNewest | src/services/event_dispatcher.rs:317-324 | receiving and draining, with headers arriving meanwhile, yields the newest head consumed, in steps of the pipeline |
| EventDispatcher.Erc20TransferEventDispatcher.NextPlan | src/services/event_dispatcher.rs:317-348 | the plan is made against that newest head and the unchanged cursor, in steps of the pipeline |
| EventDispatcher.Erc20TransferEventDispatcher.FetchPlanned | src/services/event_dispatcher.rs:372-382 | with headers arriving throughout, the ranges are resolved in order, in steps of the pipeline, and the cursor ends at the last range's end |
| EventDispatcher.Erc20TransferEventDispatcher.ProcessRange | src/services/event_dispatcher.rs:372-382 | headers arriving during a range, then its resolution, are steps of the pipeline |
| EventDispatcher.Erc20TransferEventDispatcher.ResolveRange | src/services/event_dispatcher.rs:373-380 | both sources resolve the range before the cursor moves to its end; both ledgers, the handlers' input and the lost-block counter stay exact |
| EventDispatcher.JoinHandlers | src/services/event_dispatcher.rs:373-376 | however the two sources take turns, each handler sees its own source's logs in order and nothing else |
| EventDispatcher.Erc20TransferEventDispatcher.FetchLogsAndProcess | src/services/event_dispatcher.rs:395-458 | for either source, the range is resolved, its delivered logs are handed on in order and the counter grows by exactly its lost blocks |
| Subscription.DiffIsExact | src/services/subscription.rs:147-188 | old amounts overlaid with the diff are the new amounts, the diff names exactly the visible changes, and no other map does both |
| Subscription.MergeAllSettles | src/services/subscription.rs:147-188 | after any sequence of results each token holds its reading at the highest block, or the stored entry if none is strictly newer |
| Subscription.MergesConverge | src/services/subscription.rs:144-188 | two sequences of results with the same observations give the same snapshot from any start: order, repetition and chunking do not matter |
| Subscription.BlocksNeverDecrease | src/services/subscription.rs:161-173 | no sequence of merges, of whatever balances, loses an entry or takes it to an older block |
| Subscription.Subscription.constructor | src/services/subscription.rs:45-62 | a fresh subscription has the given tokens, an empty snapshot and nothing sent |
| Subscription.Subscription.SetWatchedTokens | src/services/subscription.rs:96-108 | reports whether the set changed; if so exactly the stored tokens of the new set survive, untouched, and if not nothing changes |
| Subscription.Subscription.UpdateBalancesAndTakeDiff | src/services/subscription.rs:147-188 | in whatever order the batch is iterated, snapshot and diff are those of the block-guarded merge |
| LagClose.StreamIsGapFree | src/services/session_manager.rs:368-405 | over every interleaving the output is a gap-free run of the sends since attachment, all of them once the stream has ended, or such a run followed by one 503 |
| LagClose.PollIsExact | src/services/session_manager.rs:378-403 | a poll more than 256 behind puts out exactly the 503 and closes; one within reach puts out the next event, which is among the newest 256; one up to date waits or ends |
| LagClose.ClosedExactly | src/services/session_manager.rs:386-400 | in every run a stream has been closed if and only if some poll found its receiver more than 256 behind |
| LagClose.NothingAfterClose | src/services/session_manager.rs:378-403 | after the 503 the output stays and the next poll ends the stream |
| LagClose.KeepingUpIsSafe | src/services/session_manager.rs:358-367 | a stream never more than the capacity behind when polled is never closed |
| Replica.ReplicasAgree | src/services/session_manager.rs:407-473 | in every run whose broadcasts do not overtake on a shared token, a client that is open and has received everything sent holds the server's amount for every stored token once no diff is on its way |
| Replica.NonOverlappingIsInOrder | src/services/snapshot_updater.rs:244-257 | merge-to-broadcast windows that never overlap are a case of that hypothesis |
| Replica.StepKeepsInv | src/services/session_manager.rs:407-473 | every step in order keeps: what a client has plus what is still due to it agrees with the snapshot |
| Replica.ReceiveIsExact | src/services/session_manager.rs:378-403 | a client more than 256 behind is closed with its view as it was, one within reach overlays the next event, one up to date waits |
| Replica.OvertakingIsExact | src/services/snapshot_updater.rs:244-257 | broadcasting the younger of two open diffs first leaves a client in agreement if and only if they carry the same amount for every stored token they share |
| Replica.OverlapBreaksAgreement | src/services/snapshot_updater.rs:244-257 | a run from a fresh session that ends with a stale client |
| ReplicaExactness.AgreementIsExact | src/services/snapshot_updater.rs:244-257 | in every run, whatever the order, a client that is open and has received everything sent agrees once no diff is on its way if and only if broadcast order and merge order end at the same amounts for the stored tokens named since it attached |
| ReplicaExactness.ClientStartsWhereItAttached | src/services/session_manager.rs:407-430 | in every run what a client gets begins with the first event sent after its receiver was attached |
| Replica.UnwatchedComesFromOldRead | src/services/snapshot_updater.rs:260-278 | in every reachable state a stored unwatched token was read under a list copy or watch check older than the last replacement, when it was watched |
| Replica.EvictionIsExact | src/services/subscription.rs:96-108 | a step leaves an unwatched token in a clean snapshot exactly when it merges a balance for one |
| ReplicaExactness.CleanRunIsExact | src/services/subscription.rs:96-108 | all along a run only watched tokens are stored if and only if every merge carries only tokens watched at that moment |
| ReplicaExactness.RevivalIsExact | src/services/snapshot_updater.rs:260-292 | in every run an unwatched token is stored if and only if a merge since the last replacement carried it |
| Replica.InFlightReadRevivesEvicted | src/services/snapshot_updater.rs:260-292 | a run in which an evicted token comes back |
| SnapshotUpdater.Perform | src/services/subscription.rs:96-188 | each step of a session is the effect of one call on the shared object, or none |
| SnapshotUpdater.UpdateBalancesAndSendEvent | src/services/snapshot_updater.rs:244-257 | whatever the rest of the session does between merge and broadcast, the diff broadcast is the one the merge took, and nothing is sent when it is empty |
| SnapshotUpdater.PublishedIsTheChange | src/services/snapshot_updater.rs:244-257 | whatever happens in between, what is broadcast is exactly the change the merge made to the visible amounts, and nothing when it made none |
| SnapshotUpdater.PublishRound | src/services/snapshot_updater.rs:281-310 | with the rest of the session acting before the item and between merge and broadcast, balances are merged and broadcast, and an error leaves the snapshot alone and sends one 500 |
| SnapshotUpdater.FetchBalancesAndBroadcast | src/services/snapshot_updater.rs:260-311 | with the rest of the session acting throughout, a refresh copies the watched tokens once and then reads, merges and broadcasts chunk after chunk up to cancellation |
| SnapshotUpdater.ReceiveQueueResults | src/services/snapshot_updater.rs:203-239 | with the rest of the session acting throughout, results are published until outside cancellation or the first error, which is broadcast as a 503, cancels the session and ends the loop |
| SnapshotUpdater.RefreshIsRun | src/services/snapshot_updater.rs:260-311 | what a refresh does to the session is a run of the session's steps, so every theorem about runs applies to it |
| SnapshotUpdater.QueueIsRun | src/services/snapshot_updater.rs:203-239 | the same for the queue loop |
| SnapshotUpdater.QuietRounds | src/services/snapshot_updater.rs:244-311 | a publisher left alone publishes its items one after the other |
| SnapshotUpdater.EventsReplayTheSnapshot | src/services/snapshot_updater.rs:244-311 | overlaying all events broadcast on the amounts before gives the amounts after, whatever the stream yields |
| SnapshotUpdater.RefreshEqualsOneRead | src/services/snapshot_updater.rs:260-311 | with an honest provider at one block and nobody else acting, a whole refresh leaves the snapshot of one big read, and the events it broadcast lead from the old amounts to it |
| SubscriptionManager.Manager.CreateSession | src/services/subscription_manager.rs:157-252 | an existing session is used, an absent one is refused if and only if its owner has 5 sessions, and otherwise created without clients, idle from now |
| SubscriptionManager.Manager.ReplaceWatchedTokens | src/services/subscription_manager.rs:257-280 | the set is replaced, and a refresh forced exactly when it changed |
| SubscriptionManager.Manager.Upsert | src/services/subscription_manager.rs:123-190 | with other tasks running between the lock sections the tokens end up on a subscription of this session, a registered session is always used, a refusal means an absent session and an owner at the cap, and a receiver comes only with a new generation |
| SubscriptionManager.Manager.Subscribe | src/services/subscription_manager.rs:282-307 | a registered session gains a client and stops being idle; otherwise nothing changes |
| SubscriptionManager.Manager.Unsubscribe | src/services/subscription_manager.rs:343-378 | a client leaves and the last one starts the idle clock; an unknown session or a zero counter is an error that changes nothing |
| SubscriptionManager.Manager.CleanupSubs | src/services/subscription_manager.rs:412-439 | exactly the expired sessions are dropped and exactly theirs are cancelled |
| SubscriptionManager.Manager.CloseSseConnections | src/services/subscription_manager.rs:397-410 | every registered session is told once and the map is emptied |
| SubscriptionManager.Manager.OwnedQueuesWatching | src/services/subscription_manager.rs:320-340 | with other tasks running before every read, each session of the owner at the start is decided once, by its watched set of some moment of the call; no other session's queue is returned and none twice |
| RegistryRuns.CreationIsSound | src/services/subscription_manager.rs:147-190 | over all interleavings every subscription ever created is registered or cancelled, of any two generations of one session the older is removed and cancelled, and no owner exceeds 5 sessions |
| RegistryRuns.OneReceiverPerGeneration | src/services/subscription_manager.rs:192-252 | a receiver is handed out only by the write section of an upsert, for a session whose earlier generations were all removed, and its generation is then the registered one |
| RegistryRuns.WriteOutcome | src/services/subscription_manager.rs:192-252 | in any state the write section of an upsert uses a session that has appeared, creates an absent one exactly while its owner has fewer than 5, and a refusal changes nothing |
| RegistryRuns.JoinOutcome | src/services/subscription_manager.rs:282-307 | a subscribe to a registered session is one client more and ends its idleness; to another it changes nothing |
| RegistryRuns.LeaveOutcome | src/services/subscription_manager.rs:343-378 | an unsubscribe is one client fewer, and the last one starts the idle clock at that moment |
| RegistryRuns.SweepOutcome | src/services/subscription_manager.rs:412-439 | a sweep drops and cancels exactly the sessions without clients for more than the TTL |
| RegistryRuns.RegisteredMayBeCancelled | src/services/snapshot_updater.rs:221-234 | a queue error leaves a cancelled session registered |
| RegistryRuns.CancelledExactly | src/services/snapshot_updater.rs:221-234 | in every run a registered session is cancelled if and only if shutdown was signalled or its own queue failed |
| RegistryRuns.ClientsAreCounted | src/services/subscription_manager.rs:282-378 | until shutdown, in every run in which no subscribe finds a full counter, clients equals subscribes minus unsubscribes, zero exactly when idle, and every outstanding subscriber's generation is still registered with a counter its unsubscribe can take from |
| RegistryRuns.AccountingIsExact | src/services/subscription_manager.rs:291-296 | the books are right all along a run if and only if no subscribe of it finds a full counter |
| RegistryRuns.SaturationMiscounts | src/services/subscription_manager.rs:291-296 | a run of 2^32 - 1 subscribes after which the next finds a full counter and the counter is one short of the subscribers outstanding |
| RegistryRuns.FewSubscribersNeverSaturate | src/services/subscription_manager.rs:282-307 | with never more than 2^32 - 1 subscribers of a session outstanding, no subscribe finds a full counter |
| RegistryRuns.ReapTiming | src/services/subscription_manager.rs:380-439 | in every run with sweeps every TTL, measured from the event that left the session without clients: it is gone by 2 TTL later, and whatever step removes a session is a sweep, finds no clients and comes strictly after TTL |
| RegistryRuns.IdleSinceIsTrue | src/services/subscription_manager.rs:346-357 | in every run the recorded idle time is that of the event that left the session without clients, and it has had none since |
| RegistryRuns.ReapAtTwiceTtl | src/services/subscription_manager.rs:417-425 | a session idle for exactly one TTL survives that sweep and lives for exactly two |
| BalanceRefreshQueue.CoalesceStandsFor | src/services/balance_refresh_queue.rs:153-173 | the coalesced value of a token is unpinned if any request is, else the highest requested block |
| BalanceRefreshQueue.CoalesceIgnoresOrder | src/services/balance_refresh_queue.rs:158-173 | the coalesced map depends only on which requests the window holds |
| BalanceRefreshQueue.ResolveBlockId | src/services/balance_refresh_queue.rs:201-210 | in whatever order the values are folded: latest if any is unpinned or none is above zero, else the highest block |
| BalanceRefreshQueue.ResolvesUniquely | src/services/balance_refresh_queue.rs:196-210 | that description determines the block |
| BalanceRefreshQueue.ChosenBlockIsFresh | src/services/balance_refresh_queue.rs:153-210 | an honest answer at the chosen block is at least as recent as every event in the window |
| BalanceRefreshQueue.MergeIsFresh | src/services/balance_refresh_queue.rs:177-194 | after merging, each answered token is stored no older than any event coalesced for it |
| RpcClient.MapBalanceResult | src/services/rpc_client.rs:398-439 | exactly the tokens whose own subcall succeeded are delivered, each with its subcall's balance, and the counter is the number of missing and failed subcalls |
| RpcClient.OwnSubcallOnly | src/services/rpc_client.rs:282-295 | a token only gets the value of a subcall that was its own |
| RpcClient.DeliveredPlusFailed | src/services/rpc_client.rs:275-308 | for distinct tokens delivered plus failed is their number, whatever was answered |
| RpcClient.SortedSorts | src/services/rpc_client.rs:348-350 | sorting keeps every token as often as it was given |
| RpcClient.FetchBalancesByChunks | src/services/rpc_client.rs:342-396 | the calls are the sorted list cut into full chunks and a rest, one item per call in order from its own answer, a failure being that call's alone; the counter holds exactly the failed subcalls of the answered calls |
| RpcClient.ChunksSplit | src/services/rpc_client.rs:348-354 | the chunks concatenated are the list, none is empty or longer than the size, and all but the last are full |
| RpcClient.ChunksAreFewest | src/services/rpc_client.rs:348-354 | there are as few chunks as the size allows |
| RpcClient.ChunksAccount | src/services/rpc_client.rs:342-439 | whatever is answered, delivered plus counted failures plus the tokens of exhausted chunks is the number of distinct tokens |
| RpcClient.ChunkedEqualsOneShot | src/services/rpc_client.rs:313-396 | with an honest provider at one block, merging the chunks in turn gives the snapshot of the single-batch read, for every token list and chunk size; RefreshEqualsOneRead ties it to the stream |
| NoMiss.NothingIsMissed | src/services/session_manager.rs:252-300 | in every run, for each handled log, each owner it names and each open session registered before the lookup: the event is on its way, or it was looked up, and if the session was the owner's and watched the token, a request for this token and block is in its queue, a batch or a result, or merged and the token stored no older than the log, unless the answer left it out or it was evicted |
| NoMiss.TransfersExact | src/services/event_dispatcher.rs:460-527 | a handled log gives rise to exactly the transfers of its sender and receiver if it has three topics, or of the owner of a deposit or withdrawal |
| NoMiss.NothingIsInvented | src/services/event_dispatcher.rs:460-527 | every transfer event comes from a handled log that gives rise to it |
| NoMiss.CheckedAgainstWatched | src/services/subscription_manager.rs:333-338 | in every run the watched set a lookup was decided by is the one the session had at that moment |
| NoMiss.ClosedByItsEnd | src/services/snapshot_updater.rs:221-234 | in every run a session is closed only by its removal or cancellation, or when the error of a failed batch reaches it |
| NoMiss.FateIsTheNodes | src/services/balance_refresh_queue.rs:175-194 | in every run the answer a merged request is recorded with is one the node gave to a batch that held the request |
| NoMiss.NothingIsStuck | src/services/balance_refresh_queue.rs:124-149 | from every state of an open session whose results hold no error, with a node that answers, its own tasks can bring every routed request to the merge |
| NoMiss.RouterMoves | src/services/session_manager.rs:252-300 | a transfer enters the channel when there is room, a free router takes the oldest and has every open session of its owner to check, and each check leaves one fewer |
| NoMiss.StepKeepsInv | src/services/event_dispatcher.rs:460-527 | every step keeps each event on its way or looked up once by every session, and each session's requests conserved in order and up to date |
| NoMiss.ActKeepsInv | src/services/balance_refresh_queue.rs:124-149 | gathering, dispatching, answering, merging and replacing keep a session's routed requests conserved in order and its merged ones up to date |
| NoMiss.EvictionHasReplacement | src/services/subscription.rs:96-108 | a request counts as evicted only if a replacement after its merge left its token out |
| EndToEnd.AcceptedLogsAreFollowed | src/services/event_dispatcher.rs:395-527 | for every log in an accepted response of the ledgers, handed over by the dispatcher, the transfers of its sender and receiver, or of the wrapping's owner, are followed to every session |
| EndToEnd.EveryBlockIsAccounted | src/services/event_dispatcher.rs:310-527 | in every run, between cycles, each block from the first nonzero head to the cursor is for either source a skip, a lost single block, or in one response of which no log's transfer is missed by any session |

## Left out

- NoMiss.NothingIsMissed: assumes a node that is not behind: a read pinned at a block reports that block or a later one, and one at `latest` reports none older than the events of the batch. A chain whose contract-level block number runs behind the one its logs carry is outside the claim, and so is a session once it is removed or cancelled.
- RegistryRuns.ReapTiming: assumes sweeps on time; a delayed tick of the timer moves the upper end by the delay.
- RpcClient.SortedSorts: the library's in-place sort is modelled as a function on sequences.
- Closing of the block channel when the dispatcher is gone, and the process-wide shutdown of the dispatcher loop.
- WebSocket connect and retry, the stall watchdog and its verdict, backoff and retry classification, semaphores: scheduling is any order of steps and a provider's answer is its last one.
- Multicall3 encoding, log decoding beyond topic count, signature and address, JSON and SSE serialisation, decimal rendering of amounts.
- Token-list download, URL checks, caching, the token limit and the native-token filter: easy set operations around the upsert.
- Chain reorganisations: where a statement needs it, an amount is a function of token and block.
- HTTP routing, configuration, tracing and metrics other than the counters named above.
