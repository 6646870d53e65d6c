# A model of the gateway's hand-written state machines

The gateway forwards OpenAI-style requests to many providers. Around its HTTP, SQL, Redis
and JSON libraries it has a number of state machines of its own. This project models them
in Dafny and proves what they promise, for every input, every run and every interleaving
of their atomic steps. `dafny verify dfyconfig.toml` checks everything.

| file | what it models |
|---|---|
| `Pool.dfy`, `PoolChain.dfy` | the weighted ring with its 64-bit cursor, cooldowns and the chain of fallback pools |
| `Retry.dfy` | the failover loop of one request, over the keys of a pool and then over pools of the same model |
| `PackedLimiter.dfy` | the compare-and-swap rate limiter that packs minute and count into one word |
| `SlidingWindow.dfy` | the Lua script of the Redis rate limiter, against the plain sliding-window rule |
| `BatchInsert.dfy`, `LockOrder.dfy`, `StringOrder.dfy` | the batch upsert of discovered models, and its row locks |
| `JobQueue.dfy` | the job queue, its workers, retries, dead letters, statistics and run status |
| `Debouncer.dfy` | the debounced reloader behind the notification channel |
| `AgentRouter.dfy` | the OpenAI-to-Anthropic message compiler: tool ids, turns, coalescing |
| `GeminiTurns.dfy` | the two OpenAI-to-Gemini turn builders |
| `StreamFailover.dfy` | the mid-stream failover of Gemini streams and its sanitizer |
| `JsonString.dfy`, `ThinkTags.dfy`, `PrefixStrip.dfy`, `Text.dfy` | the JSON printers, the `<think>` extractor, the in-place prefix removal, and the string functions they use |

Where the source updates state, the model does: objects with fields, arrays, loops. Each
such method is proved against a specification function, and the theorems are about that
function. Calls into libraries, the clock, the network and other goroutines are parameters
or steps of an environment that may do anything.

## What the proofs found

Some promises hold only under a condition. The code is modelled as it is, and the condition
is proved exactly.

- A scan of the ring looks at every slot if and only if its ticket does not wrap around 2^64
  on the way or the length of the ring divides 2^64 (`Pool.ScanCoversIff`); otherwise one
  ready credential can be missed (`Pool.ScanMissesReady`). That takes a cursor within a ring's
  length of 2^64, which no deployment reaches, and the failover loop is not affected even
  then: its safety valve picks that credential (`Retry.AllOnTrack`).
- The failover loop's comment says that no single error ends it early. All keys are called if
  and only if none of the replies that wait for them, but for the last, is a second 400 from
  one provider or a 429 from a single key that does not speak of quota (`Retry.AllKeysCalledIff`,
  `Retry.AbortsEarlyIff`); two bad requests leave the rest untried
  (`Retry.BadRequestsHappen`). A 404 always rotates, so the branch for it below is never
  taken.
- Tried slots are remembered by number alone, so a key of a fallback pool is never called
  when the pool of the round has served its number (`Retry.CalledIffNumberIsNew`,
  `Retry.CascadedKeyIsNeverCalled`); two pools that do so are `Retry.CascadeHappens`.
- After a success the loop clears the slot it acquired first. If the stream of that key broke
  off and another one answered, the 30 seconds of the broken key are erased
  (`Retry.SuccessClearsFirstSlot`, `Retry.BrokenKeyIsFreed`).
- The packed limiter bounds runs of commits within one minute, and nothing more
  (`PackedLimiter.ReachableHistories`). Every minute is sure to stay within the limit if and
  only if none comes back after another was committed (`PackedLimiter.PerMinuteBoundIff`);
  a minute read before a slow loop can come back (`PackedLimiter.StaleMinuteExceedsLimit`).
- The comment in the listener says that a notification dropped from the full channel is
  already pending. It is answered by a reload exactly when one of its own kind waits in the
  channel or is pending (`Debouncer.DroppedIsAnsweredIff`); a channel full of tenant updates
  loses a pool update (`Debouncer.DroppedPoolUpdateIsLost`).
- Tool results are paired first in, first out if and only if no prefix of the conversation
  has more results than calls (`AgentRouter.FifoPairing`).
- The Gemini turns alternate if and only if no assistant message follows another and no user
  message stands next to a tool message (`GeminiTurns.AlternatesIff`).
- Text that the stream sanitizer changed is put into the chunk without escaping, and flushed
  text is escaped as Go does. The client reads what the gateway accounts for, resumes from
  and reports if and only if none of it needed more (`StreamFailover.ClientTextIff`); there
  are sessions in which it did (`StreamFailover.ClientMissesText`).
- White space before a fence can make the sanitizer cut too early
  (`StreamFailover.FenceIsDroppedIff`). Resuming after a model turn drops the signature of
  its last part (`StreamFailover.SignatureIsLostIff`). Tool calls in a chunk with empty text
  are lost (`StreamFailover.ToolCallsKeptIff`).
- The status of a finished run is right on every schedule if and only if there is at most one
  worker, or no retry, or nothing to execute (`JobQueue.StatusTellsIff`).
- A binding looks like another one to the batch upsert if and only if one of its fields holds
  a bar (`BatchInsert.CollidesIff`), and is then lost (`BatchInsert.CollisionLosesBinding`).
- Two keys can share a place in the batch's cache of ciphers if and only if the key or its
  provider's name holds a colon (`BatchInsert.CachesAlikeIff`); the second one is then stored
  as the first (`BatchInsert.SharedPlaceBindsWrongKey`).
- The integer printer writes nothing for a negative number; it round-trips if and only if
  the number is not negative (`JsonString.PrintedIntRoundTrip`).

## Model

| member | source | states |
|---|---|---|
| `Pool.ScanCoversIff` | internal/credentials/pool.go:89-96 | a scan looks at every slot iff its ticket does not wrap around 2^64 on the way or the ring length divides 2^64 |
| `Pool.ScanFindsReady` | internal/credentials/pool.go:94-105 | in that case a scan finds nothing iff every credential is cooling |
| `Pool.ScanMissesReady` | internal/credentials/pool.go:92-96 | in the other case there are cooldowns for which it misses the only ready slot |
| `Pool.RingCount` | internal/credentials/pool.go:48-57 | in the ring of distinct credentials each has max(weight, 1) slots |
| `Pool.EveryRunAccounts` | internal/credentials/pool.go:89-104 | under every interleaving of increments and scans, what was chosen and what the scans under way will choose is what the drawn tickets stand for |
| `Pool.WeightedFairness` | internal/credentials/pool.go:46-66 | k full rounds of acquires that all finish select each credential exactly k times max(weight, 1) |
| `PoolChain.ServesUnlessDry` | internal/credentials/pool.go:79-114 | acquiring fails iff every credential of every pool within reach is cooling |
| `PoolChain.ServesFirstReady` | internal/credentials/pool.go:94-114 | the pool that serves is the first on the chain with a ready credential, and serves a ready one |
| `PoolChain.SoonestIsReadyIfAny` | internal/credentials/pool.go:188-217 | the safety valve takes a credential with the least cooldown, a ready one iff there is one |
| `PoolChain.HealthyUnlessAllCooling` | internal/credentials/pool.go:164-178 | the healthy count is positive iff not all credentials are cooling |
| `PoolChain.BalancedChannelPool.constructor` | internal/credentials/pool.go:46-66 | the loops build the weighted ring, and the chain of fallbacks ends |
| `PoolChain.BalancedChannelPool.AcquireActiveToken` | internal/credentials/pool.go:84-115 | returns what the chain serves; exactly the pools asked draw a ticket |
| `PoolChain.BalancedChannelPool.AcquireLeastPenalizedToken` | internal/credentials/pool.go:188-217 | returns the first slot with the least cooldown, along the chain |
| `PoolChain.BalancedChannelPool.PenalizeToken` | internal/credentials/pool.go:119-125 | cools every slot of the credential at that index; ignores an index outside the ring |
| `PoolChain.BalancedChannelPool.PenalizeByCredID` | internal/credentials/pool.go:130-140 | cools the first credential with that identifier, if any |
| `PoolChain.BalancedChannelPool.ResetCooldown` | internal/credentials/pool.go:157-161 | clears every slot of the credential at that index |
| `PoolChain.BalancedChannelPool.HealthyCount` | internal/credentials/pool.go:164-178 | counts the different credentials off cooldown |
| `Retry.EveryRequestIsAnswered` | internal/proxy/handler.go:606-1104 | whatever pools serve, upstreams answer and the client does, the request ends with exactly one response; each pool has at most one round of at most min(max(T,1),20) calls on different slots within 3n+1 working passes; a success is the last call and what the client sees |
| `Retry.IterateRanks` | internal/proxy/handler.go:631-660 | every pass of the loop uses up a spin or ends the round, so a round terminates |
| `Retry.LeaveRanks` | internal/proxy/handler.go:1017-1072 | a jump to another pool strictly shrinks the set of untried patterns, or the request is over |
| `Retry.FoundIsNew` | internal/proxy/model_matcher.go:170-206 | a fallback is never a pool whose pattern was tried |
| `Retry.AllOnTrack` | internal/proxy/handler.go:593-603 | a lone request on an available pool of any weights, whose calls fail without failing over inside, calls another credential in every pass while one is left and it has not given up, even when the cursor wraps |
| `Retry.TotalExhaustion` | internal/proxy/handler.go:593-720 | with weights one, no expiry, no fallback, no failover inside a call and only failures that rotate: exactly min(T,20) different slots once each, one pass per call, so the spin valve never fires, and the status of the last call decides the answer |
| `Retry.ServesIsAcquire` | internal/proxy/handler.go:671-690 | what the theorem on a lone request takes the pool to serve is what the pool objects give |
| `Retry.PenaltiesAreTransient` | internal/proxy/handler.go:818-1014 | over every request, the penalties of forwarded calls included, none is shorter than 300 milliseconds or longer than 30 seconds, and none longer than 15 exactly when no stream broke off within a call |
| `Retry.InnerWithin` | internal/proxy/gemini_sdk.go:820-846 | of a forwarded call alone: 30 seconds for each broken stream, 5 for each throttled candidate |
| `Retry.AbortsEarlyIff` | internal/proxy/handler.go:897-990 | the exact failures on which the loop gives up |
| `Retry.AllKeysCalledIff` | internal/proxy/handler.go:593-603 | in the setting of total exhaustion without the hypothesis on verdicts: the calls are what the passes offer, in turn, up to the first to be given up on; all min(T,20) keys are called iff none of the first min(T,20)-1 offers, which the environment fixes beforehand, is one |
| `Retry.BadRequestsLeaveKeysUntried` | internal/proxy/handler.go:943-972 | two bad requests in a row from one provider end the round after two calls, whatever the size of the pool |
| `Retry.BadRequestsHappen` | internal/proxy/handler.go:943-972 | such a setting exists, with a key left untried |
| `Retry.SuccessClearsFirstSlot` | internal/proxy/handler.go:760-764 | the cooldowns of the credential acquired first are cleared and no others, also if its stream broke off and it was cooling; its slot is that of the credential that answered iff the pool of the round holds that one under the same number |
| `Retry.BrokenKeyIsFreed` | internal/proxy/gemini_sdk.go:820-857 | a whole request in which the penalty of the key that broke off is erased by the success of another |
| `Retry.CalledIffNumberIsNew` | internal/proxy/handler.go:714-719 | while calls fail and rotate, a credential that is served is called iff no pool of the chain has served one of its number before in the round, and there are as many calls as numbers |
| `Retry.CascadedKeyIsNeverCalled` | internal/proxy/handler.go:635-720 | a whole request in which a key of a fallback pool is served in every pass but the first and never called; the safety valve ends the round |
| `Retry.CascadeHappens` | internal/credentials/pool.go:84-115 | two pools whose chain serves exactly these passes, with the fallback key ready all the time |
| `Retry.RetryLoop.NoteFailure` | internal/proxy/handler.go:818-1014 | records, penalizes, and rotates or gives up as judged |
| `Retry.RetryLoop.TryCredential` | internal/proxy/handler.go:718-818 | one forwarded call and what follows it |
| `Retry.RetryLoop.TryOnce` | internal/proxy/handler.go:635-717 | one pass of the loop is one step of the specification |
| `Retry.RetryLoop.FallBack` | internal/proxy/handler.go:1017-1104 | the switch to another pool with counters reset, or the final error |
| `Retry.RetryLoop.Execute` | internal/proxy/handler.go:606-1104 | the loops compute the request function |
| `PackedLimiter.PackIsExact` | internal/middleware/ratelimit.go:81-105 | packing and unpacking lose nothing iff the count is below 2^32 |
| `PackedLimiter.RunKeepsInv` | internal/middleware/ratelimit.go:79-116 | under every interleaving of loads and swaps: runs of commits within one minute stay within the limit, the low half counts the current run, every refusal saw a full run |
| `PackedLimiter.ReachableHistories` | internal/middleware/ratelimit.go:79-116 | the histories that can be committed are exactly those whose runs are within the limit |
| `PackedLimiter.PerMinuteBound` | internal/middleware/ratelimit.go:44-116 | if no minute comes back after another was committed, none admits more than the limit |
| `PackedLimiter.ForwardsBound` | internal/middleware/ratelimit.go:44-116 | in particular if committed minutes never go backwards |
| `PackedLimiter.PerMinuteBoundIff` | internal/middleware/ratelimit.go:66-116 | for every order of run minutes: all reachable histories with those runs keep every minute within the limit iff no minute comes back |
| `PackedLimiter.StaleMinuteExceedsLimit` | internal/middleware/ratelimit.go:66-116 | under every limit a minute committed late, after another one, exceeds it in some reachable history |
| `PackedLimiter.TenantLimiter.Admit` | internal/middleware/ratelimit.go:79-116 | the compare-and-swap loop: admitted with the length of the run it joins, refused only where its minute had a full run |
| `SlidingWindow.EveryWindowBounded` | internal/middleware/redis_ratelimit.go:26-40 | every half-open window holds at most `limit` admissions |
| `SlidingWindow.RefusedOnlyWhenFull` | internal/middleware/redis_ratelimit.go:35-40 | a call is refused only when exactly `limit` admissions lie in its own window |
| `SlidingWindow.ExpiryKeepsLive` | internal/middleware/redis_ratelimit.go:47-51 | expiry of the keys never removes an entry that still counts, nor the serial number that keeps members apart |
| `SlidingWindow.ScriptRefinesRule` | internal/middleware/redis_ratelimit.go:26-54 | one run of the script, on pruned and expiring keys, decides as the plain rule does on the full history |
| `SlidingWindow.RunRefinesRule` | internal/middleware/redis_ratelimit.go:26-54 | so does every sequence of calls |
| `SlidingWindow.MembersNeverCollide` | internal/middleware/redis_ratelimit.go:42-45 | members of different admissions differ, in an ordered history as `RunRefinesRule` gives for every run |
| `SlidingWindow.PruneDropsDead` | internal/middleware/redis_ratelimit.go:33-34 | pruning by score drops exactly a prefix of the history |
| `SlidingWindow.TenantKeys.Call` | internal/middleware/redis_ratelimit.go:26-54 | the script on stored keys is the specified step |
| `SlidingWindow.TenantKeys.Serve` | internal/middleware/redis_ratelimit.go:75-130 | a run of calls on fresh keys decides as the plain rule |
| `LockOrder.NoDeadlock` | internal/credentials/batch_insert.go:65-66 | transactions that lock rows in increasing order and keep them never wait in a ring |
| `LockOrder.SomeoneCanStep` | internal/credentials/batch_insert.go:99-133 | while one is unfinished, one can take its next lock or commit |
| `LockOrder.RunsAreBounded` | internal/credentials/batch_insert.go:99-133 | so every run of any number of batches is finite |
| `LockOrder.UnsortedDeadlocks` | internal/credentials/batch_insert.go:65-66 | without the sorting two batches can block each other |
| `StringOrder.SortIncreasing` | internal/credentials/batch_insert.go:65-66 | the sorted patterns are strictly increasing |
| `BatchInsert.BatchesNeverDeadlock` | internal/credentials/batch_insert.go:65-133 | however the transactions of several batches interleave, there is no ring and one can go on |
| `BatchInsert.EntryInjective` | internal/credentials/batch_insert.go:155-189 | the index entries of different bindings differ when no field but the last holds a bar |
| `BatchInsert.CollidesIff` | internal/credentials/batch_insert.go:155-189 | some other binding has the same index entry iff one of the fields holds a bar |
| `BatchInsert.CollisionLosesBinding` | internal/credentials/batch_insert.go:186-196 | from empty tables, of two such items the second is taken for bound and never stored |
| `BatchInsert.CollisionHappens` | internal/credentials/batch_insert.go:186-196 | two such items |
| `BatchInsert.LookupIsExact` | internal/credentials/batch_insert.go:186-196 | an item counts as bound iff its pool, provider, plain key, base URL and prefix are bound |
| `BatchInsert.CiphersFit` | internal/credentials/batch_insert.go:68-83 | if no provider's name holds a colon, the cache holds for every item a cipher of its own key |
| `BatchInsert.CachesAlikeIff` | internal/credentials/batch_insert.go:75-82 | another key has the same place in the cache iff the key or its provider's name holds a colon |
| `BatchInsert.SharedPlaceBindsWrongKey` | internal/credentials/batch_insert.go:192-196 | of two such new items in a batch the second is stored with the cipher of the first one's key, and its own key is bound nowhere |
| `BatchInsert.SharedPlaceHappens` | internal/credentials/batch_insert.go:192-196 | two such items |
| `BatchInsert.AnyTwoDiffer` | internal/credentials/batch_insert.go:186-221 | tables in which none are alike hold no two credential rows with the same pool, provider, plain key, base URL and prefix |
| `BatchInsert.BatchBinds` | internal/credentials/batch_insert.go:135-235 | afterwards exactly the old bindings and those asked for are there, each new row binds something new and the count of them is right, and no two rows are alike if none were |
| `BatchInsert.RowsAreBindings` | internal/credentials/batch_insert.go:186-221 | if no two rows were alike, there are afterwards as many credential rows as old and asked bindings together |
| `BatchInsert.BatchPools` | internal/credentials/batch_insert.go:37-59 | each pattern has one pool, keeping its id, with the union of the flags of its items; other pools stay |
| `BatchInsert.NotifiesIffNew` | internal/credentials/batch_insert.go:228-233 | a reload is announced iff a pool or a binding is new |
| `BatchInsert.OrderDoesNotMatter` | internal/credentials/rediscovery.go:243-252 | the order in which workers append, and repeated items, change neither pools nor bindings nor counts |
| `BatchInsert.SecondRunIsIdle` | internal/credentials/batch_insert.go:22-236 | a second run with the same items, in any order, changes nothing and announces nothing |
| `BatchInsert.GroupItems` | internal/credentials/batch_insert.go:37-59 | the grouping loop gives the patterns, their items in order and the union of their flags |
| `BatchInsert.EncryptKeys` | internal/credentials/batch_insert.go:68-83 | the cache of ciphers, or failure when the vault fails |
| `BatchInsert.Database.BatchInsert` | internal/credentials/batch_insert.go:22-236 | the whole function takes the tables, counts and notifications to those of the specification |
| `JobQueue.ExactlyOnePlace` | internal/jobs/worker.go:58-167 | at every step of any number of workers each message is in exactly one of queue, hand, sleeping retry, succeeded, dead, dropped |
| `JobQueue.ExecutionsAreBounded` | internal/jobs/worker.go:138-160 | no message that starts at attempt 1 is executed more than max(1, MaxRetries) times |
| `JobQueue.StatisticsAddUp` | internal/jobs/worker.go:237-251 | run_count is success_count plus failure_count; with idle workers every execution is counted and every success as one |
| `JobQueue.StatusTellsOutcome` | internal/jobs/worker.go:87-167 | if no retry is taken up before its failure is marked, a run that is over shows how it ended |
| `JobQueue.HastyRetryShowsFailure` | internal/jobs/worker.go:138-157 | with two or more workers and a retry, a run that succeeded can show as failed |
| `JobQueue.StatusTellsIff` | internal/jobs/worker.go:87-167 | on every schedule every run that is over shows its outcome iff there is at most one worker, or MaxRetries is at most one, or no job type is known |
| `JobQueue.ReversedPush` | internal/jobs/queue.go:32-75 | pushing at the head and popping at the tail is first in, first out |
| `JobQueue.Backend.Enqueue` | internal/jobs/queue.go:32-53 | the message becomes the newest |
| `JobQueue.Backend.Dequeue` | internal/jobs/queue.go:57-75 | returns the oldest message not yet returned, or none |
| `JobQueue.Backend.SendToDLQ` | internal/jobs/queue.go:78-117 | the newest of at most 10000 dead letters, or dropped when the queue is disabled |
| `JobQueue.Backend.ProcessMessage` | internal/jobs/worker.go:87-167 | one message processed without interruption takes the steps of the protocol |
| `Debouncer.RunKeepsInv` | internal/credentials/sync.go:310-353 | in every reachable state a pending flag means an armed timer, and no accepted update is uncovered |
| `Debouncer.AcceptedIsKept` | internal/credentials/sync.go:298-353 | each accepted update is in the channel, or pending under an armed timer, or a reload of its kind began after it was taken |
| `Debouncer.RestingReloads` | internal/credentials/sync.go:310-353 | when the goroutine comes to rest what it owed has been reloaded |
| `Debouncer.DroppedIsAnsweredIff` | internal/credentials/sync.go:298-303 | a dropped notification is followed by a reload of its kind iff one of that kind waits or is pending |
| `Debouncer.FloodIsReachable` | internal/credentials/sync.go:298-303 | a channel full of tenant updates can come about |
| `Debouncer.DroppedPoolUpdateIsLost` | internal/credentials/sync.go:298-303 | then a pool update is lost |
| `Debouncer.Reloader.Serve` | internal/credentials/sync.go:310-353 | after any sequence of events the variables are what the possible ones among them make of the state before |
| `AgentRouter.FifoPairing` | internal/proxy/agentrouter.go:138-293 | with no ids given, generated ids differ, and the i-th result answers the i-th call for all i iff no prefix has more results than calls |
| `AgentRouter.QueueIsFifo` | internal/proxy/agentrouter.go:138-293 | the queue holds the calls not yet answered; from the first unbalanced message on some result has an id of no call |
| `AgentRouter.RemoveFirstKeepsOrder` | internal/proxy/agentrouter.go:138-147 | an explicit id takes out its own entry and keeps the order of the rest |
| `AgentRouter.QueueKeepsCallOrder` | internal/proxy/agentrouter.go:138-293 | whatever ids are given, the queue holds ids of calls, each at most once, in call order |
| `AgentRouter.MergeIsHomomorphism` | internal/proxy/agentrouter.go:524-550 | the blocks of merged content are the blocks of both in order |
| `AgentRouter.CoalesceMessages` | internal/proxy/agentrouter.go:495-521 | turns alternate, start as before, and say the same blocks in the same roles and order |
| `AgentRouter.TranslateMessages` | internal/proxy/agentrouter.go:138-320 | the loop over messages computes the specified turns and queue |
| `AgentRouter.Translate` | internal/proxy/agentrouter.go:138-337 | a non-empty list that starts with the user, alternates, and says what the turns said after an added greeting if needed |
| `GeminiTurns.PartsInOrder` | internal/proxy/gemini.go:235-321 | the parts of all turns are the parts of the messages in order, and names are those of earlier calls |
| `GeminiTurns.RegisterIsLatest` | internal/proxy/gemini.go:235-321 | an unnamed tool result takes the name of the latest earlier call with its id |
| `GeminiTurns.AdjacentUserTurns` | internal/proxy/gemini.go:235-321 | two user turns side by side are one of tool results and one of text |
| `GeminiTurns.AlternatesIff` | internal/proxy/gemini.go:229-321 | the turns alternate iff no assistant message follows another and no user message stands next to a tool message |
| `GeminiTurns.BuildersAgree` | internal/proxy/gemini_sdk.go:94-176 | whichever of them signs function calls, both builders fail together or give the same roles, kinds of parts, texts and function names |
| `GeminiTurns.SignedAlikeIff` | internal/proxy/gemini_sdk.go:92-135 | their function calls are signed alike iff both ask to sign or neither does, or there are no calls |
| `GeminiTurns.BuildRestTurns` | internal/proxy/gemini.go:229-321 | the turn loop computes the specified turns or fails with them |
| `GeminiTurns.BuildSdkTurns` | internal/proxy/gemini_sdk.go:94-176 | so does the SDK loop |
| `StreamFailover.FenceIsDroppedIff` | internal/proxy/gemini_sdk.go:1077-1108 | the exact texts whose leading fence is dropped whole |
| `StreamFailover.StreamSanitizer.Sanitize` | internal/proxy/gemini_sdk.go:1048-1065 | holds text back until it can decide, then passes everything on |
| `StreamFailover.StreamSanitizer.Flush` | internal/proxy/gemini_sdk.go:1068-1074 | releases what is held back, once |
| `StreamFailover.RestCompletes` | internal/proxy/gemini_sdk.go:1046-1074 | outputs plus flush are a suffix of the input, all of it iff inactive or the deciding text has no leading fence |
| `StreamFailover.CompletedRound` | internal/proxy/gemini_sdk.go:671-805 | a completed attempt keeps every delta without text in order and of its text such a suffix |
| `StreamFailover.ToolCallsKeptIff` | internal/proxy/gemini_sdk.go:725-770 | a first attempt passes on every tool call iff none came in a chunk with empty text |
| `StreamFailover.ResumedPrompt` | internal/proxy/gemini_sdk.go:618-668 | a resumed prompt ends in a user turn after a model turn whose text ends with what was emitted, and keeps alternation |
| `StreamFailover.SignatureIsLostIff` | internal/proxy/gemini_sdk.go:626-650 | the history is sent again with all its signatures iff its last turn is no model turn whose last part has one |
| `StreamFailover.AttemptsKeep` | internal/proxy/gemini_sdk.go:592-872 | at every attempt the valid-data flag says whether text or a tool call was sent, and a completed session has sent some |
| `StreamFailover.CallsResumeFromSent` | internal/proxy/gemini_sdk.go:618-673 | the i-th call asks for what the client had by then |
| `StreamFailover.CompletionContinues` | internal/proxy/gemini_sdk.go:618-808 | the completing attempt continues the text that was cut off |
| `StreamFailover.Response.Relay` | internal/proxy/gemini_sdk.go:725-776 | one chunk: sent, counted and accumulated alike, and written as it came or, if its text was changed, with that text as it stands |
| `StreamFailover.Response.Play` | internal/proxy/gemini_sdk.go:675-776 | one stream up to its end or first error |
| `StreamFailover.Stream` | internal/proxy/gemini_sdk.go:574-895 | at most five attempts; the text reported and the tokens are those of the deltas sent, the client reads that text from the chunks iff none came to harm, and the status is 200 iff anything was sent |
| `StreamFailover.ClientTextIff` | internal/proxy/gemini_sdk.go:725-800 | in every session, after every attempt, the text a reader gets from the chunks is the text accounted for and resumed from iff no changed text needs an escape and no flushed text one that only Go writes |
| `StreamFailover.ClientMissesText` | internal/proxy/gemini_sdk.go:725-776 | a session that completes and reports text the client has not read |
| `StreamFailover.SplicedTextReadsBack` | internal/proxy/gemini_sdk.go:729-734 | text changed by the sanitizer is read back by the client iff it needs no escape |
| `StreamFailover.SplicedLineBreaks` | internal/proxy/gemini_sdk.go:729-734 | a line end after a held-back letter is not |
| `JsonString.JsonRoundTrip` | internal/proxy/gemini.go:1054-1079 | a reader after section 7 of RFC 8259 gives back every printed string, whatever follows it |
| `JsonString.NoControlCharacter` | internal/proxy/gemini.go:1054-1079 | the output holds no raw control character |
| `JsonString.RawTextReadsBack` | internal/proxy/gemini_sdk.go:729-734 | unescaped text between quotation marks is read back iff it needs no escape |
| `JsonString.GoQuoteReadsBackIff` | internal/proxy/gemini_sdk.go:797-799 | text written by `%q` is read back as itself iff each of its characters is written as JSON knows it, and else not at all |
| `JsonString.WriteJSONString` | internal/proxy/gemini.go:1054-1079 | the writer appends exactly the quoted string |
| `JsonString.WriteInt` | internal/proxy/gemini.go:1038-1051 | the digit buffer of 20 bytes suffices, and exactly the printed integer is appended |
| `JsonString.PrintedIntRoundTrip` | internal/proxy/gemini.go:1038-1051 | the digits read back as the integer iff it is not negative |
| `ThinkTags.PrintOfParse` | internal/proxy/handler.go:1955-1987 | every string is the print of the well-formed answer it parses to, unclosed tags included |
| `ThinkTags.ParseOfPrint` | internal/proxy/handler.go:1955-1987 | extraction inverts printing of text and reasoning without each other's tags |
| `ThinkTags.ExtractThinking` | internal/proxy/handler.go:1955-1987 | the loop ends and collects the visible text and the non-blank trimmed reasoning in order |
| `ThinkTags.NormalizeReasoning` | internal/proxy/handler.go:1940-2004 | when the message is left alone and what it becomes otherwise |
| `PrefixStrip.StripModelPrefixInPlace` | internal/proxy/handler.go:2546-2567 | the overlapping copies give the body with the first occurrence replaced, or the body |
| `PrefixStrip.TwoCopiesReplace` | internal/proxy/handler.go:2546-2567 | closing the gap and writing the shorter token is the replacement |
| `PrefixStrip.ReplaceBySelf` | internal/proxy/handler.go:542-547 | without the prefix the allocating form changes nothing either |

## Left out

- HTTP transport, header and URL rewriting and the inside of `forwardRequest`: a call gives a status, the credentials it changed to and the candidates it found throttled, and writes to the client only on a 2xx without a panic.
- Rewriting of the request body and provider flags when the loop switches pools (internal/proxy/handler.go:1109-1155).
- `ExtractCoreModelAndVersion` and the choice a Go map makes among several fallbacks: both are parameters.
- Chains of fallback pools that form a ring. The wiring in internal/credentials/sync.go:123-137 does not exclude one, and acquiring from a ring of pools that are all cooling does not return; the pool objects here are built with chains that end. Pools without credentials do not get there either (internal/credentials/sync.go:108-113), though acquiring is modelled for them too.
- Retry.TotalExhaustion: for calls that do not fail over inside themselves, since a call that does uses and cools other keys of the pool itself.
- Retry.RetryLoop.Execute: what the pools serve in each pass is a parameter, since other requests draw from the same cursors and cool the same keys; in the theorems on a lone request it is what the pool gives.
- Sleeping while all keys cool, telemetry, alerts, broadcasts to other nodes, logging.
- Random choice by `Strategy`: the pool ignores that field, and so does the model.
- `ConsecutiveFailures`: it is counted and never read by the loop.
- `ResetByCredID` (internal/credentials/pool.go:144-154): as `PenalizeByCredID` with the time 0.
- `RateLimiter.Cleanup`: it may delete a limiter in use, and is outside the run and per-minute theorems; minutes are below 2^32.
- PackedLimiter.TenantLimiter.Admit: the rounds of the loop are bounded by the other goroutines' commits, which are given as a finite list.
- Redis numbers are doubles and Lua prints them with 14 digits; times and serial numbers here are integers without that limit, from one clock that does not go back. The local fallback on a Redis failure is the packed limiter.
- Database failures inside the batch transaction, which roll back; existing rows whose key cannot be decrypted or whose base URL is null (rows that are there twice are allowed); AES-GCM itself (decryption undoes encryption, ciphers hold no bar, and no plain key is a cipher). The memo of decrypted keys is not modelled.
- BatchInsert.BatchBinds: for consistent items with a non-empty raw key and fields without separators, as the index assumes.
- Redis failures and crashes of workers; time limits and panics of an execution (both are failures here); the length of a retry's delay.
- JobQueue.Backend.ProcessMessage: one worker without interruption; interleavings are in the step protocol.
- Discovery over the network, and the choice of keys per endpoint group before items are appended.
- JSON parsing and marshalling: messages, parts and chunks are given as parsed. Invalid UTF-8 in the string printer.
- Tools, tool choice, schemas, generation settings, thinking budgets and safety settings of the three request builders, and response translation.
- StreamFailover.ToolCallsKeptIff: whether the transmuxer ever gives a chunk with empty text and tool calls is not known here, since internal/transmux is not part of this model.
- StreamFailover.Stream: which key the pool gives after a failure is a parameter, as is the transmuxer, which is not part of this model; the model name put into chunks is left out, and which characters Go prints as they are is a parameter.
- `mapSDKError`, `stripSchemaKeywords`, `mapGeminiFinishReasonNS`: classifications without state.
