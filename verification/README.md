# Substrate RPC proxy: a verified model

The repository holds a JSON-RPC proxy that stands between websocket clients and a set of
Substrate nodes, and a consumer that follows submitted extrinsics until they are on chain.
This project models the parts of both that keep state across goroutines, connections or
retries, and proves what they promise.

| file | what it models |
|---|---|
| `Failover.dfy` | one proxied connection as a transition system: up to fifty client goroutines, the poll goroutine, failing upstreams, the replay under the `pause` lock |
| `FailoverSafety.dfy`, `FailoverRuns.dfy` | its invariants, and what follows for every run |
| `FailoverReplies.dfy` | which request a reply reaches, what can go wrong after a failover, and when the poll goroutine blocks for good |
| `FailoverCrash.dfy` | when the poll goroutine sends on a closed channel |
| `FailoverSources.dfy` | where the answers come from |
| `ProxiedConnection.dfy` | the code of `UpstreamWrite`, `UpstreamRead`, `handleUpstreamResponse`, `retryRunningRequests` and `poll`, with others acting wherever they can |
| `JsonRpc.dfy`, `RpcFrames.dfy` | denying methods, splitting batches, merging answers, composed with the connection |
| `Broker.dfy`, `BrokerRuns.dfy`, `DecimalKeys.dfy` | the request and subscription demultiplexer as a transition system, and what each channel hears |
| `WSMessageBroker.dfy` | the code of `WSMessageBroker`, proved to take those steps |
| `BlockCache.dfy`, `ChainClient.dfy` | the block cache, edited in place, and the walk along parent hashes that uses it |
| `Consumer.dfy`, `ConsumerRuns.dfy` | the consumer's retry loop |
| `Throttle.dfy` | the two-level throttle, as a transition system and as code |
| `Endpoints.dfy`, `Selection.dfy` | the endpoints of an upstream, and choosing one |
| `StorageKey.dfy` | storage keys and their hashers |
| `Wrappers.dfy` | shared result types |

A protocol is a `State`, an `Enabled` predicate and an `Apply` function over atomic events;
`Run` relates a state to those reachable by a sequence of events, and a theorem about `Run` is
about every interleaving. Code that changes fields step by step is a class or a method with
loops, and its contract says which steps of the protocol, or which function of the old state,
it amounts to. What the network, a clock or the other side decides is a parameter.

Main results:

- **No request is lost over a failover.** In every reachable state a registered request has been
  written on the connection in use, is about to be, or that connection is already broken;
  although the lock covers only the store and the replay, not the write.
- **A batch is answered in place.** Whatever the interleaving, entry i of an answered batch
  bears the id of entry i and was read from an upstream meanwhile, for an entry with that id; a
  denied entry never reaches an upstream and makes no difference to the others.
- **Every channel of the broker hears a function of what the node sent.** A requester hears the
  first reply since its store, a subscriber the pushes for the id its reply named, in order; on
  shutdown each registered channel hears one error and is closed. No send ever meets a full
  slot or a closed channel.
- **The cached walk agrees with the uncached one**, and over a linked chain examines exactly
  the interval of block numbers the consumer needs.
- **The consumer acknowledges once, at the end**, for one of three reasons, and ends if the head
  advances.
- **The throttle conserves its tokens**, refuses only at capacity, and drains.
- **Updating endpoints computes the intended set**, and selection prefers healthy endpoints and
  ends.
- **A storage key determines its arguments** as far as its hashers allow.

Where the code does not keep a promise, the model follows the code, a lemma shows a concrete
history, and another says exactly when the promise is kept:

- A reply is matched to a request by id alone. After a failover the upstream may answer a
  replayed request a second time. If the client reuses no id in flight, a reply is sent to the
  channel of its request if and only if the goroutine of that request has neither finished nor
  given up (`ReplyRoutedIffUnanswered`); otherwise it is forwarded to the client as a push, which
  also bars later failovers, or answers a later request with the same id.
- The poll goroutine can block for good in sending a reply. If the client reuses no id in flight,
  it does if and only if this is the third frame read for its goroutine, or the second if that
  goroutine has failed or given up (`SendBlocksIff`).
- The poll goroutine can send on a closed channel, which ends the whole process. While a client
  frame is served this is possible if and only if the frame uses an id twice for requests that
  are not denied, and the poll goroutine has neither stopped nor is sending to a full channel when
  the frame arrives (`CrashIffIdRepeated`).
- The broker writes a frame before it stores the channel. A reply is heard if and only if the
  store came before the read loop got to it (`HeardIffStoredInTime`).
- A subscription keeps its channel on confirmation if and only if the server's id is not in use
  (`RekeyKeepsAll`).
- For the head of the chain the cache is trusted by number. It agrees with the node if and only
  if the block cached under the head's number is the node's (`CachedHeadIffNotForked`).
- A message expires past its lifetime, and also when the node's head lies before the block it
  was first seen in, because the difference is unsigned (`ExpiredIff`).
- Blocks beyond the capacity of the cache go unexamined (`FoundIffOnChain`,
  `MissedBeyondCapacity`).
- A cache of capacity zero empties itself on every second add (`ZeroCapacityForgets`).
- The address excluded from selection can come back after the first wait. It is safe from that if
  and only if there is no wait or the first round has another usable address
  (`ExclusionHoldsIff`).
- `readme.md` gives the length of the throttle's queue as SUB_THROTTLE_BACKLOG_SIZE minus
  SUB_THROTTLE_LIMIT. The code admits Limit + BacklogLimit requests, of which up to BacklogLimit
  wait while Limit are served (`Capacity`); the model follows the code.

## Model

| member | source | states |
|---|---|---|
| FailoverSafety.InvStep | cmd/proxy/handler/wsproxy.go:100-259 | every atomic step of any client goroutine, the poll goroutine or the network keeps all eight invariants of a connection |
| FailoverRuns.NoRequestLost | cmd/proxy/handler/wsproxy.go:121-159 | in every reachable state each registered request is on the connection in use, between store and write, still to be replayed, or that connection is broken |
| FailoverRuns.RequestsNeverChange | pkg/middleware/jsonrpc.go:159-171 | a run only adds requests and never changes the one of a goroutine |
| FailoverRuns.FailedWriteEnds | cmd/proxy/handler/wsproxy.go:141-145 | over all runs, a goroutine whose write failed after a push had been forwarded has failed and never waits for a reply; any other write leaves it waiting, and a successful one is on the connection it was made on |
| FailoverRuns.AnswersMatchRequests | pkg/middleware/jsonrpc.go:159-171 | whatever happens while a client frame is served, the answer of entry i bears the id of entry i |
| FailoverRuns.InFlightBound | pkg/middleware/websocket.go:125-141 | at most fifty requests are ever in flight on a connection, and none between frames while it is live |
| FailoverRuns.PushesFromOneConnection | cmd/proxy/handler/wsproxy.go:184-188 | all pushes a client gets were read from one upstream connection, in arrival order |
| FailoverRuns.PushPinsTheConnection | cmd/proxy/handler/wsproxy.go:261-285 | after the first push the upstream connection is never replaced |
| FailoverRuns.DeniedNeverReachesUpstream | pkg/middleware/denymethods.go:13-47 | in every reachable state a denied request has been written to no upstream, is not registered, and once finished was answered with the denial under its id |
| FailoverRuns.BystandersRunAlike | cmd/proxy/handler/wsproxy.go:100-259 | any run without steps of goroutine t can be performed with t standing elsewhere, and the outcome differs in t only |
| FailoverRuns.DenialUnaffecting | pkg/middleware/denymethods.go:28-40 | whatever the others do before a request is denied locally they can do after it, with the same outcome for them |
| FailoverReplies.RegularRuns | cmd/proxy/handler/wsproxy.go:100-119 | while no in-flight id is reused, every goroutine waits on its own channel, is registered until it is done or fails, and the frames read for it are exactly those in its hands, in its channel or on the way there |
| FailoverReplies.ReplyRoutedIffUnanswered | cmd/proxy/handler/wsproxy.go:161-190 | while no in-flight id is reused, a reply to what was written for t on the connection in use goes to t if and only if t has neither finished nor given up |
| FailoverReplies.FirstReplyMatches | cmd/proxy/handler/wsproxy.go:161-190 | while no in-flight id is reused, the first reply to a request is sent to its channel if and only if its goroutine has not given up |
| FailoverReplies.KeptUnlessAborted | cmd/proxy/handler/wsproxy.go:107-118 | a goroutine stays registered until it is done exactly if it does not give up, and once it has it is never registered again |
| FailoverReplies.LateReplyTakenForPush | cmd/proxy/handler/wsproxy.go:179-188 | a history in which the second answer to a replayed request is forwarded as a push and bars later failovers |
| FailoverReplies.LateReplyAnswersNextRequest | cmd/proxy/handler/wsproxy.go:179-182 | a history in which such an answer is given to a later request that no upstream has seen |
| FailoverReplies.SendBlocksIff | cmd/proxy/handler/wsproxy.go:179-182 | while no in-flight id is reused, with give-ups and failures at any time, the send of a reply never completes if and only if it is of the third frame read for its goroutine, or of the second if that goroutine has failed or given up |
| FailoverReplies.SendCompletes | cmd/proxy/handler/wsproxy.go:100-119 | otherwise there is a continuation, without another client frame, that deposits the reply |
| FailoverReplies.ThreeAtMost | cmd/proxy/handler/wsproxy.go:179-182 | while no in-flight id is reused, no goroutine is ever read more than three frames for |
| FailoverReplies.WedgedForever | cmd/proxy/handler/wsproxy.go:179-182 | once the goroutine has left the map, a blocked send stays blocked in every continuation whatsoever |
| FailoverReplies.CanWedge | cmd/proxy/handler/wsproxy.go:148-159 | such a state is reached by two failovers before a request has left the map |
| FailoverCrash.CrashIffIdRepeated | cmd/proxy/handler/wsproxy.go:135-140 | in every reachable state and for every client frame, whatever ids were used before, the poll goroutine can send on a closed channel while the frame is served if and only if the frame repeats an id among requests that are not denied and the poll goroutine has neither stopped nor is sending to a full channel |
| FailoverCrash.CleanBetweenFrames | cmd/proxy/handler/wsproxy.go:121-146 | between the frames of a live connection nothing is registered and no channel is closed, whatever ids were used before |
| FailoverCrash.TidySendBlocksIff | cmd/proxy/handler/wsproxy.go:179-182 | for a client that repeats no id within a frame the send blocks for good under exactly the condition of `SendBlocksIff`, with no further assumption |
| FailoverCrash.DistinctIdsNeverCrash | cmd/proxy/handler/wsproxy.go:135-140 | a client that repeats no id within a frame never makes the proxy panic, whatever happens |
| FailoverCrash.DistinctIdsAreRegular | cmd/proxy/handler/wsproxy.go:130-140 | the duplicate branch is never taken for such a client, whoever gives up |
| ProxiedConnections.ProxiedConnection.RegisterRequest | cmd/proxy/handler/wsproxy.go:121-140 | the section under the lock registers the request, or, exactly if the id is in flight, closes the other's channel and removes the entry |
| ProxiedConnections.ProxiedConnection.UpstreamWrite | cmd/proxy/handler/wsproxy.go:121-146 | whatever others do after the lock and before the write: a duplicate id is reported exactly if it was in flight, a failed write exactly if the connection is unrecoverable; success means that the request, while registered, is on the connection in use or will be (that one is broken, being replaced, or the request is still to be replayed), and after a successful write it is on some connection |
| ProxiedConnections.ProxiedConnection.UpstreamRead | cmd/proxy/handler/wsproxy.go:100-119 | it returns exactly what is in the channel after the others have acted, unless it gives up or nothing is there; a reply returned bears the id of the request, the id is no longer in the map, and reading fails at once exactly if it was not there |
| ProxiedConnections.ProxiedConnection.FinishRead | cmd/proxy/handler/wsproxy.go:107-112 | leaving UpstreamRead takes the id out of the map and the reply handed over bears it |
| ProxiedConnections.ProxiedConnection.HandleUpstreamResponse | cmd/proxy/handler/wsproxy.go:161-190 | a frame whose id is registered ends in that channel, blocks on it because it is full, or panics because it is closed; any other is a push, makes the connection unrecoverable and is written to the client; a malformed one ends polling |
| ProxiedConnections.ProxiedConnection.Recover | cmd/proxy/handler/wsproxy.go:225-240 | the connection is swapped exactly if the client is there, no push was forwarded, the error was not idleness and dialling worked; otherwise polling ends |
| ProxiedConnections.ProxiedConnection.RetryRunningRequests | cmd/proxy/handler/wsproxy.go:148-159 | with others taking requests out of the map between the writes: after success everything registered has been written on the new connection and nothing has been registered meanwhile; failure means that connection is broken, and does not happen if it accepts as many writes as there were requests |
| ProxiedConnections.ProxiedConnection.Poll | cmd/proxy/handler/wsproxy.go:192-259 | for every script of reads, failures and interference the loop takes every turn, the frames read are exactly those of the turns taken in order, and it stops early only on a cancelled connection or for a reason in its last turn; when it returns, the connection is cancelled, and all it did is a run of the protocol |
| JsonRpc.DenyRpcMethods | pkg/middleware/denymethods.go:13-47 | answers here exactly a request with a non-zero id whose method is listed in some mixture of cases, under that id and with error -32601 |
| JsonRpc.SplitBatchToSubrequests | pkg/middleware/jsonrpc.go:92-107 | a batch is refused exactly if it has more than fifty entries; otherwise there is one request per entry, in order |
| JsonRpc.WriteBatchResponse | pkg/middleware/jsonrpc.go:109-127 | the merge succeeds exactly if there are entries and all of them have been answered, and then holds every answer in its position; otherwise the first empty buffer is the error |
| JsonRpc.BatchAnsweredInPlace | pkg/middleware/jsonrpc.go:153-175 | for every run during a batch, an answered batch has its length and entry i the id of request i; it is the denial in denied positions, and in the others a frame read from an upstream since the batch arrived, for an entry that went upstream under that id |
| JsonRpc.OwnAnswer | pkg/middleware/jsonrpc.go:159-171 | if the batch repeats no id that entry is entry i itself |
| FailoverSources.AnswersComeFromUpstream | cmd/proxy/handler/wsproxy.go:100-119 | whatever happens while a client frame is served, an answer that is not a denial is a frame read from an upstream meanwhile, for an entry that went upstream under its id |
| JsonRpc.BatchDenial | pkg/middleware/jsonrpc.go:159-171 | throughout a batch a denied entry is either untouched or answered with its denial |
| Broker.InvStep | pkg/rpc/wsconnbroker.go:32-63 | every step of callers, read loop or broadcast keeps: table entries are the stored calls of their kind, still awaited channels are open, a request's slot is free, each subscriber has one key |
| BrokerRuns.SendsAreSafe | pkg/rpc/wsconnbroker.go:202-226 | in every reachable state no send is to a closed channel, and a send to a request's one-slot channel finds it empty |
| BrokerRuns.OneOutcome | pkg/rpc/wsconnbroker.go:66-82 | in every run a requester hears nothing, one reply bearing its own id, or one error on a closed channel; never both |
| BrokerRuns.CallerHearsItsId | pkg/rpc/wsconnbroker.go:111-135 | over all runs from the write on, a caller that gave an id hears no reply but one with that id, and a caller that gave none no reply but one with the id picked for it |
| BrokerRuns.FirstAtIsFirst | pkg/rpc/wsconnbroker.go:220-226 | the frame taken for a reply is the earliest with that id since the store |
| BrokerRuns.MineIsTarget | pkg/rpc/wsconnbroker.go:202-228 | the read loop sends a frame to the channel that should hear it and to no other |
| BrokerRuns.EachHearsItsOwn | pkg/rpc/wsconnbroker.go:109-234 | with distinct ids, every channel's contents are the first reply since its store, or the pushes for the id its reply named since that reply in order, then one error if it was closed |
| BrokerRuns.HeardIffStoredInTime | pkg/rpc/wsconnbroker.go:121-135 | the reply to a written request is heard if and only if the store preceded its processing, and a subscription waits under its temporary key for good if and only if it did not |
| BrokerRuns.EarlyConfirmationStopsReading | pkg/rpc/wsconnbroker.go:205-213 | a history in which a confirmation overtakes the store and the first push then stops the broker |
| BrokerRuns.RekeyKeepsAll | pkg/rpc/wsconnbroker.go:215-218 | confirming a subscription keeps every subscriber registered if and only if the server's id is not yet a key |
| BrokerRuns.ShutdownReachesAll | pkg/rpc/wsconnbroker.go:41-61 | each channel registered when reading stops has, when the broadcast is over, been sent exactly one error and been closed, if no caller stores under a registered id during the broadcast |
| BrokerRuns.BroadcastAdvances | pkg/rpc/wsconnbroker.go:43-60 | the broadcast never sticks: every channel still due can be failed at once |
| BrokerRuns.SilentAfterwards | pkg/rpc/wsconnbroker.go:109-136 | after the broadcast no channel hears anything, so a later caller waits for its own context |
| DecimalKeys.InitKeyInjective | pkg/rpc/wsconnbroker.go:138-141 | different frame ids have different temporary keys |
| DecimalKeys.InitKeyForm | pkg/rpc/wsconnbroker.go:138-141 | the temporary key is "init/" followed by the id in decimal |
| WSMessageBrokers.WSMessageBroker.Submit | pkg/rpc/wsconnbroker.go:109-124 | the first half of submit is the write step; the frame goes out under the caller's id, and only without one under an id picked between 1 and 29999; only a successful write leads on to the store |
| WSMessageBrokers.WSMessageBroker.Register | pkg/rpc/wsconnbroker.go:125-135 | the second half is the store step, under the id or the temporary key |
| WSMessageBrokers.WSMessageBroker.Receive | pkg/rpc/wsconnbroker.go:193-228 | one frame is the dispatch step, and the loop stops exactly on a push nobody is registered for |
| WSMessageBrokers.WSMessageBroker.ReadLoop | pkg/rpc/wsconnbroker.go:190-234 | the loop dispatches what the connection yields in order up to the first item that stops it |
| WSMessageBrokers.ReadingIsRun | pkg/rpc/wsconnbroker.go:190-234 | reading is a sequence of steps of the protocol, one for each item of a prefix of the input |
| WSMessageBrokers.WSMessageBroker.Shutdown | pkg/rpc/wsconnbroker.go:41-61 | with nobody storing meanwhile, exactly the registered channels get one error each and are closed |
| WSMessageBrokers.RequestsFailedIsRun | pkg/rpc/wsconnbroker.go:43-51 | in whatever order, failing the requests is a sequence of steps of the protocol |
| BlockCaching.BlockCache.GetByHash | pkg/rpc/block_cache.go:15-22 | returns the first cached block with the hash |
| BlockCaching.BlockCache.Get | pkg/rpc/block_cache.go:24-31 | returns the first cached block with the number |
| BlockCaching.BlockCache.InsertAt | pkg/rpc/block_cache.go:43-46 | moving the tail onto itself within one backing array inserts exactly the block and loses none |
| BlockCaching.BlockCache.Add | pkg/rpc/block_cache.go:33-53 | the slice afterwards is the cut-back old one with the block in front of the first lower one |
| BlockCaching.FoundIffCached | pkg/rpc/block_cache.go:24-31 | a block is found under its number if and only if it is cached |
| BlockCaching.HashFound | pkg/rpc/block_cache.go:15-22 | a lookup by hash fails only if no cached block has the hash |
| BlockCaching.FirstWithHash | pkg/rpc/block_cache.go:15-22 | of several blocks with the hash the first is found |
| BlockCaching.AddKeepsInv | pkg/rpc/block_cache.go:33-53 | an add keeps numbers strictly descending and the length within twice the capacity (one, if that is zero), and brings in no other block |
| BlockCaching.AddInsertsOneOrNothing | pkg/rpc/block_cache.go:38-52 | an add inserts exactly the block if there is a lower one and none of its number, and otherwise nothing |
| BlockCaching.SurvivesIff | pkg/rpc/block_cache.go:38-40 | an add keeps a block if and only if it is one of the capacity highest or there is room for one more below twice the capacity |
| BlockCaching.HighestSurvive | pkg/rpc/block_cache.go:38-40 | none of the capacity highest blocks is ever evicted by an add |
| BlockCaching.AddAllInv | pkg/rpc/block_cache.go:33-53 | the invariant holds after any sequence of adds |
| BlockCaching.HighestInFront | pkg/rpc/block_cache.go:33-53 | after any adds a block of the highest number ever given is in front |
| BlockCaching.ZeroCapacityForgets | pkg/rpc/block_cache.go:38-40 | with capacity zero the cache holds a block only after an odd number of adds |
| ChainClient.RpcClient.ChainGetBlock | pkg/rpc/client.go:68-108 | consults the cache by number for the head and by hash otherwise, asks the node only on a miss, and caches what it got |
| ChainClient.LookupSays | pkg/rpc/client.go:68-108 | a cached block is served whatever the node does and the cache stays as it is; otherwise the node's answer is returned and added to the cache exactly if the cache takes it; the head goes by number first; and every failure is accounted for |
| ChainClient.SecondLookupNeedsNoNode | pkg/rpc/client.go:89-107 | a block fetched and taken by the cache is found again without the node |
| ChainClient.RpcClient.FindExtrinsicsBlock | pkg/rpc/client.go:177-196 | the loop is the walk of at most min(limit, capacity) lookups, and no lookup at all for a limit of zero or below |
| ChainClient.LookupKeepsGood | pkg/rpc/client.go:89-107 | a lookup keeps every cached block equal to what the node serves for its hash, and returns such a block |
| ChainClient.WalkRefinesUncached | pkg/rpc/client.go:177-196 | for any cache contents, and whatever other goroutines make of the cache before and during each lookup, the walk finds what the walk without a cache finds, or fails because a request did |
| ChainClient.AddAllKeepsGood | pkg/rpc/block_cache.go:33-53 | blocks that others got from the node and add keep the cache consistent with it |
| ChainClient.CachedHeadIffNotForked | pkg/rpc/client.go:78-88 | the head found is the node's if and only if no other block is cached under its number |
| ChainClient.StaleHead | pkg/rpc/client.go:78-88 | a cache and a chain for which the head found is not the node's |
| ChainClient.WalkFindsFirst | pkg/rpc/client.go:183-194 | the walk returns the first block along parent links that holds the extrinsic, or none does within its depth |
| ChainClient.WalkCoversInterval | pkg/rpc/client.go:177-196 | over a linked chain the walk examines exactly the numbers head-depth+1..head and returns the highest block that holds the extrinsic |
| Consumers.Consumer.ProcessMessage | cmd/consumer/consumer.go:49-121 | outcome, effects and cache are those of the loop; the in-progress counter counts the messages whose loop still goes on |
| Consumers.Consumer.JudgeRound | cmd/consumer/consumer.go:69-118 | one turn of the loop passes the verdict of the specification; it has acknowledged exactly if the verdict ends the loop, resubmitted exactly if the verdict is refusal or a resubmitted retry, and refuses only if the node rejected |
| ConsumerRuns.AckedOnceAtTheEnd | cmd/consumer/consumer.go:67-120 | for any script of rounds the message is acknowledged exactly once and last if the loop ended, and not at all before |
| ConsumerRuns.EndsWithVerdict | cmd/consumer/consumer.go:80-117 | the loop ends only in a round that found the message expired, included or refused, judged with a consistent cache; refused means resubmitted and rejected in that round |
| ConsumerRuns.VerdictIff | cmd/consumer/consumer.go:69-118 | exactly when a round includes the message, refuses it (nothing found, resubmitted, rejected), retries after an accepted resubmission, or retries without one |
| ConsumerRuns.JudgeKeepsGood | cmd/consumer/consumer.go:69-94 | a round keeps the cache consistent with the chain |
| ConsumerRuns.ExpiredIff | cmd/consumer/consumer.go:80-85 | a message expires if and only if the head is past its deadline or, by wrap-around, before its first block |
| ConsumerRuns.LaggingNodeExpires | cmd/consumer/consumer.go:80-85 | a node behind the one the message was first seen on ends the tracking |
| ConsumerRuns.JudgeSearches | cmd/consumer/consumer.go:86-118 | with a responsive node a round within the lifetime concludes what the walk without a cache says |
| ConsumerRuns.FoundIffOnChain | cmd/consumer/consumer.go:86-117 | a round includes the message if and only if it is in a block after its first-seen one, or after head - capacity if that is later, up to the head; it reports the highest such block, and the gap lies between 1 and the lifetime |
| ConsumerRuns.MissedBeyondCapacity | pkg/rpc/client.go:178-182 | a chain on which a block beyond the capacity goes unexamined |
| ConsumerRuns.TerminatesIfHeadAdvances | cmd/consumer/consumer.go:67-120 | if the head rises every round and calls succeed, the loop ends within lifetime + 1 rounds and resubmits at most that often |
| Throttle.Capacity | pkg/middleware/throttle.go:78-145 | over every interleaving at most Limit are served and Limit + BacklogLimit admitted; a request is refused exactly when that many are admitted, admitted exactly when fewer are, and served exactly when fewer than Limit are |
| Throttle.ConservedRun | pkg/middleware/throttle.go:78-136 | free tokens and holders always add up to what the channels were filled with |
| Throttle.Progress | pkg/middleware/throttle.go:107-136 | returning a token never blocks, and if somebody waits while nobody is served a token is free |
| Throttle.MeasureFalls | pkg/middleware/throttle.go:97-145 | every step but an arrival lowers the measure |
| Throttle.DrainIsBounded | pkg/middleware/throttle.go:97-145 | without arrivals every run is no longer than the measure |
| Throttle.DrainNeverSticks | pkg/middleware/throttle.go:97-145 | in a reachable state that is not drained some request can move on without a timeout or cancellation |
| Throttle.Drains | pkg/middleware/throttle.go:97-145 | from every reachable state a run without arrivals, timeouts and cancellations, no longer than the measure, leads to the state with all requests gone and all tokens back |
| Throttle.Throttler.constructor | pkg/middleware/throttle.go:67-83 | the filling loop leaves Limit tokens and Limit + BacklogLimit backlog tokens |
| Throttle.Throttler.Enter | pkg/middleware/throttle.go:97-145 | the outer select admits exactly if a backlog token is there and cancellation was not chosen, and refuses only without one |
| Throttle.Throttler.Await | pkg/middleware/throttle.go:112-136 | the inner select serves exactly if a token is there and expiry was not chosen |
| Throttle.Throttler.Return | pkg/middleware/throttle.go:107-134 | the deferred sends find room, return what was taken, and the request is gone |
| Endpoints.Upstream.UpdateHostIPs | pkg/rpc-endpoint/upstream.go:161-194 | the three loops leave the survivors followed by the new addresses |
| Endpoints.Upstream.DeleteAll | pkg/rpc-endpoint/upstream.go:174-176 | deleting in place by descending indices removes exactly the absent endpoints |
| Endpoints.Upstream.AbsentIndices | pkg/rpc-endpoint/upstream.go:162-173 | the indices listed are those of the absent endpoints, descending |
| Endpoints.Upstream.Check | pkg/rpc-endpoint/upstream.go:222-255 | a failed lookup changes nothing; otherwise the endpoints have exactly the addresses looked up, every one gets the status of its own check, and success means that all passed; without a health check everything is Healthy and the check succeeds |
| Endpoints.UpdateComputesIntendedSet | pkg/rpc-endpoint/upstream.go:161-194 | afterwards the addresses are exactly those given, without duplicates; survivors keep order and status, new ones follow as Unreachable |
| Endpoints.UpdateIsIdempotent | pkg/rpc-endpoint/upstream.go:161-194 | the same set of addresses again, in any order, changes nothing |
| Selection.Rate | pkg/rpc-endpoint/upstream.go:299-334 | the counters and lists the loops build are those of the candidates of the round |
| Selection.RatingSplits | pkg/rpc-endpoint/upstream.go:306-334 | the rating is all healthy addresses, the last one first, followed by all available ones in order, split at healthyCount |
| Selection.CandidatesAre | pkg/rpc-endpoint/upstream.go:299-334 | the candidates are exactly what the upstreams offer apart from the excluded address |
| Selection.GetEndpoint | pkg/rpc-endpoint/upstream.go:287-348 | the method chooses what the specification of the search chooses |
| Selection.LiveRoundDecides | pkg/rpc-endpoint/upstream.go:336-341 | a round with a usable endpoint ends the search: with a healthy one if there is one, else an available one, never the excluded one |
| Selection.LastRoundTakesAnything | pkg/rpc-endpoint/upstream.go:342-347 | after the last wait any other address is taken, and only if there is none the search fails |
| Selection.SearchEnds | pkg/rpc-endpoint/upstream.go:336-347 | under arbitrary status changes the search ends after at most `tries` waits, in the first round with a usable endpoint or the last |
| Selection.ExclusionHoldsIff | pkg/rpc-endpoint/upstream.go:336-347 | whatever the later rounds bring, the excluded address is never returned, if and only if there is no wait or the first round has another usable address |
| Selection.ExcludedRecovers | pkg/rpc-endpoint/upstream.go:342-345 | otherwise it is returned when it alone has recovered by the second round |
| Selection.EveryHealthyOneCanBeChosen | pkg/rpc-endpoint/upstream.go:336-338 | for every healthy address there is a random number that picks it |
| Selection.EveryAvailableOneCanBeChosen | pkg/rpc-endpoint/upstream.go:339-341 | without a healthy address, for every available one there is a random number that picks it |
| Selection.AnyAddressCanBeChosen | pkg/rpc-endpoint/upstream.go:346-347 | in a last round without a usable address every address can be picked |
| StorageKeys.TwoxHash | pkg/decoder/hash.go:10-22 | copying the digests block by block leaves the seeded digests in order, and zeros for a part of a block |
| StorageKeys.HashLayout | pkg/decoder/hash.go:36-53 | every hasher yields a digest of its own fixed size, followed by the data exactly for the transparent ones |
| StorageKeys.HashIs | pkg/decoder/hash.go:36-53 | which digests each hasher takes, in which order, and whether the data follow |
| StorageKeys.NewStorageRequest | pkg/decoder/decoder.go:138-172 | not found if and only if no entry matches; otherwise the first match decides, with its names, its type, its key or too many arguments |
| StorageKeys.KeyIs | pkg/decoder/decoder.go:143-167 | the key is 0x and the digests of the pallet name, then of the entry name, as the metadata spells them, then the hashed arguments in order; too many arguments is the only other outcome |
| StorageKeys.HexAt | pkg/decoder/decoder.go:165-165 | each byte is two lower-case digits, the higher one first |
| StorageKeys.HexInjective | pkg/decoder/decoder.go:165-165 | different byte strings have different hexadecimal forms |
| StorageKeys.FewerArgumentsPrefix | pkg/decoder/decoder.go:146-165 | the key with fewer arguments is a prefix of the key with more |
| StorageKeys.KeyDeterminesArguments | pkg/decoder/decoder.go:146-165 | equal keys with equally many arguments agree on every digest and on every encoding a hasher carries, if no encoding but those of the last argument continues another with the same digest |
| StorageKeys.KeysCanCollide | pkg/decoder/decoder.go:157-160 | without that condition two different argument lists get the same key |

## Left out

- Sockets, HTTP, TLS, DNS, Redis, metrics, logging, signals and configuration: their outcomes are parameters or events.
- JSON, SCALE and metadata decoding: frames, blocks and entries are values; the fields the code reads are fields of the model. A frame without a string result or subscription id reads as the empty string, as in the code.
- xxHash, Blake2b and the argument encodings: functions of which only the digest sizes are known.
- Timers and retry delays: a timeout is an event that may or may not happen.
- The plain HTTP branch of the proxy and `RawRequest`: one request over one connection, no shared state.
- The connection tables (`GetOrCreateUpstreamConnection`, `GetOrCreateConnection`): the models start from one established connection.
- The duplicate-id path of `UpstreamWrite` (closing the other's channel, removing the entry) is one atomic step, and so is giving up a read.
- Batches without entries: the code fails on the missing header, which `JsonRpc.WriteBatchResponse` reports as an error; the connection model starts with at least one frame.
- `AcceptConnection`: its loop is represented by the guard of `Begin`, which lets the next client frame start only when all goroutines of the previous one have finished.
- Data races on `upstreamConn`, `Unrecoverable` and the broker's `err`, and the pointers the cache hands out into its own slice: blocks are values, accesses are atomic steps.
- A store that replaces the table entry the broadcast is about to visit: `sync.Map.Range` may then see the old or the new channel, the model sees the new one.
- Subscription channels are unbuffered: a push counts as heard when the read loop sends it, and a subscriber that stops receiving, which blocks the read loop, is not modelled.
- Unicode case folding: `strings.EqualFold` is modelled for ASCII letters.
- The glue in `ServeHTTP` between `UpstreamWrite`, `UpstreamRead` and the client: writing the answer and cancelling after an error are steps of `Failover`, not code.
- BrokerRuns.ShutdownReachesAll: assumes that no caller stores under a registered id while the broadcast goes on; such a store can hide the earlier channel from it.
- ChainClient.WalkRefinesUncached: assumes that the walk meets no empty hash, which the code would take for the head of the chain.
- ConsumerRuns.FoundIffOnChain: assumes the head is not before the first-seen block; what happens otherwise is stated by `ExpiredIff`.
- Consumers.Consumer.ProcessMessage: the endless loop is followed over scripts of rounds of every finite length; other messages act on the shared cache (in every lookup) but not on the in-progress counter.
- ProxiedConnections.ProxiedConnection.Poll: the endless loop is followed over scripts of every finite length.
- FailoverReplies.SendBlocksIff: assumes that the client reuses no id in flight, and so do `ReplyRoutedIffUnanswered`, `FirstReplyMatches` and `ThreeAtMost`; a client that repeats no id within a frame never does (`DistinctIdsAreRegular`).
- BrokerRuns.EachHearsItsOwn: assumes that no waiting id is reused and that the node's subscription ids are new and do not start with "init/"; `RekeyKeepsAll` and `OneOutcome` say what holds without this.
- Selection.Rate: the upstreams come as a list, in the order the sorted keys of the map give.
- An upstream set without any address but the excluded one: the code panics in `rand.Intn(0)`, `Selection.GetEndpoint` reports `NoAddress`.
- A negative cache capacity, for which the code panics.
- `GetStorageJson`: frames of "extensions/get-storage/1.0" are answered by the proxy itself, without an id, so that the batch theorems do not speak of batches with such entries. `LogToDB`, which copies extrinsics to Redis on the way.
- `DecodeExtrinsicEra`, URL parsing and formatting, the `Mapped` getters: they would only add easy members.
