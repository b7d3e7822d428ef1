# RosKit, modelled and verified in Dafny

RosKit collects telemetry from MikroTik routers: a connection pool keeps one RouterOS connection per router,
collectors stream events over it, a use case writes, caches and publishes each event, and an aggregator keeps
lists of configured users who are not online. This project models the parts of it that hold state, run
concurrently or compute, and proves what they promise.

| file | models |
|---|---|
| `Conn`, `Backoff`, `Pool`, `Engine` | `RouterConn`, its retry delays, `ConnPool` and `Engine` as classes; each lock-protected body also as a function on the connection's value |
| `ConnThreads` | any number of goroutines on one `RouterConn`, with lock, dial, close and command as separate steps |
| `LockOrder` | the mutexes of the whole program, as its operations take and leave them |
| `Session` | `RouterCollector`: streams, sessions and the retry loop |
| `Shutdown`, `ShutdownLeak` | registering, starting, monitoring, collecting and stopping as one state machine, and when dropping a router is safe |
| `Lifecycle` | what Start, the health loops, the collectors and Stop do in that machine, step by step and over runs |
| `PoolRefinement`, `EngineRefinement` | that the methods of `ConnPool`, `Engine` and `RouterCollector` take the steps of that state machine |
| `Aggregator`, `Recalculation` | `InactiveAggregator`, and the recalculations it starts, which read and store at any later moment |
| `CacheStore`, `Telemetry`, `Streams` | the Redis hash store, `TelemetryUseCase`, and the concurrent streams that feed it |
| `InfluxBuffer` | `InfluxDBWriter` over an array that is reused |
| `Points`, `ListStore` | from the events to the server's points, and from the recalculations to the lists in Redis |
| `Text`, `Int64`, `Orders`, `Domain`, `Wrappers` | strings and decimals, wrapping int64, map iteration orders, events, `Option` |
| `Parser`, `Duration`, `DurationValue`, `Executor` | the RouterOS value parsers, the duration expression with leftmost-first matching, and the `=key=value` printer |

Conventions. What the network, a clock or a context decides is a parameter (`dialOk`, `pingOk`, `ok`, a list of
rounds or attempts); a timer or ticker may fire at any moment. Clients are numbered in the order they are
dialled, and a multiset counts the calls of each one's `Close`. A Go map is walked in an order chosen freely,
and what is proved holds for every order. Where goroutines interleave, the model is a state machine whose runs are
sequences of steps; the classes carry the same bodies in the imperative form of the source.

Where the code and its comments differ, the model follows the code:

- `ParseDuration` says it returns 0 for text it cannot parse. It takes the longest ordered run of groups at the
  start instead: `1h5x` is one hour, and in `5s1h` only the seconds count. A number too large for an int counts
  as the largest int, because the error of `strconv.Atoi` is dropped.
- `Meaning` of a sentence follows the code for words without a leading `=`: they are read like the others.
- `RouterCollector.Start` keeps its delay across a session that ran and then failed; only the connection's own
  delay is reset by a successful `Connect`.
- `RouterCollector.Stop` before the goroutine of `Start` has run cancels nothing.
- `Update` expects the user's name of a session event in `Fields`. Neither shipped session spec puts it there, so
  each of their events panics; `Telemetry` ends the process there.
- Bare dead events of the secret and user specs name the user `""`, so they remove nobody else.
- `ReconnectWithBackoff` is modelled although nothing in the repository calls it.

## Model

| member | source | states |
|---|---|---|
| Conn.ApplyKeepsTidy | internal/collector/pool.go:78-240 | every lock-protected body, whatever the network does, leaves one open current client at most, every other dialled client closed exactly once, nothing else ever closed, and a state that agrees with the client and is not Connecting |
| Conn.ReleaseClosesAll | internal/collector/pool.go:168-179 | after Release or Close every client dialled so far has been closed once, and none is current |
| Conn.ApplyWithClient | internal/collector/pool.go:78-240 | what each body does to a connection that has a client, and what its caller gets |
| Conn.ApplyWithoutClient | internal/collector/pool.go:78-240 | the same for one that has none |
| Conn.RouterConn.DoConnect | internal/collector/pool.go:78-107 | no-op when connected; otherwise dials, and on success the new client is current and the delay is back at the configured interval; a failure leaves everything as it was |
| Conn.RouterConn.NextDelay | internal/collector/pool.go:120-129 | hands out the delay and doubles it up to the cap, as int64 |
| Conn.RouterConn.Round | internal/collector/pool.go:113-143 | one round of the retry loop: whether it ends, whether it waits, and what it leaves |
| Conn.RouterConn.ReconnectWithBackoff | internal/collector/pool.go:112-144 | it ends at the first attempt that sees the context done or the connection there, with the outcome of that one, and goes on until then; its waits are the backoff's delays from the one it found |
| Conn.EndsAtFirst | internal/collector/pool.go:112-144 | the first decisive attempt alone decides how the loop ends and how often it waits |
| Conn.RouterConn.AcquireAsync | internal/collector/pool.go:150-163 | the current client, made asynchronous, and not closed; an error iff there is none |
| Conn.RouterConn.DoRelease | internal/collector/pool.go:168-179 | whatever client is current gets closed; then every client ever dialled has been closed exactly once |
| Conn.RouterConn.DoClose | internal/collector/pool.go:231-240 | the same for Close |
| Conn.RouterConn.CheckAlive | internal/collector/pool.go:183-202 | true iff connected and the router answers |
| Conn.RouterConn.ExecuteContext | internal/collector/pool.go:207-216 | a command runs on the current client only, which has not been closed, with the router's answer; without a client it fails |
| Backoff.DelayIsSchedule | internal/collector/pool.go:120-129 | below 2^62 ns, the iterated wrap-around doubling is min(R * 2^k, Max), positive and at most max(R, Max), for every retry k |
| Backoff.ScheduleHoldsIffBelow2To62 | internal/collector/router.go:85-111 | that closed form holds at every retry iff both intervals are below 2^62 ns; otherwise some doubling wraps |
| Backoff.WrapsAt | internal/collector/router.go:111 | the retry at which an interval of 2^62 ns or more leaves the schedule |
| Backoff.DelaysGrowToTheCap | internal/domain/config.go:37-50 | each wait is twice the one before or the cap, whichever is less; with R at most Max the waits never shrink and never exceed Max |
| Backoff.DefaultInterval | internal/domain/config.go:37-43 | a positive interval is kept, any other becomes five seconds |
| Backoff.DefaultMax | internal/domain/config.go:37-43 | a positive cap is kept, any other becomes a minute |
| ConnThreads.EveryClientClosedOnce | internal/collector/pool.go:78-240 | in every interleaving of any goroutines, at every step, each dialled client is current and unclosed or closed exactly once, and no State call returns Connecting |
| ConnThreads.NoCommandMeetsClose | internal/collector/pool.go:168-240 | no IsAlive or ExecuteContext command is ever running while any client is being closed, nor on a closed client |
| ConnThreads.StepKeepsInv | internal/collector/pool.go:78-240 | each small step, of any goroutine, keeps the lock's record, the connection and every goroutine's place in agreement |
| ConnThreads.BodyRefines | internal/collector/pool.go:78-240 | the parts of a body commit nothing until the last one, which is the atomic body with its result |
| ConnThreads.StepRefines | internal/collector/pool.go:78-240 | each step of an interleaving is one atomic body with the caller's result, or changes nothing |
| ConnThreads.InterleavingIsAtomicHistory | internal/collector/pool.go:78-240 | every interleaving has the results and the final state of its completed operations run one after the other |
| ConnThreads.AcquiredIsClosedByRelease | internal/collector/router.go:144-156 | a client handed out by AcquireAsync is open then, and closed for good once its holder's Release has done its work, whatever others released, dialled or acquired in between |
| ConnThreads.SomeoneCanStep | internal/collector/pool.go:78-240 | in no reachable state are all goroutines stuck that have called an operation |
| ConnThreads.OperationGetsDone | internal/collector/pool.go:78-240 | when nobody holds the lock, any goroutine can do any operation to its end, with the effect of the atomic body |
| LockOrder.EveryOperationIsOrdered | internal/collector/engine.go:58-96 | each operation, on top of any lower locks, takes only higher ones and leaves them all |
| LockOrder.OperationTakes | internal/collector/engine.go:58-174 | exactly which locks each operation takes, and in which mode |
| LockOrder.WaitsGoUp | internal/collector/pool.go:285-317 | whoever is waited for has work left, and waits, if at all, strictly higher in the order |
| LockOrder.NoCircularWait | internal/collector/pool.go:366-396 | in no reachable state of any goroutines running any operations do waits form a cycle, with writers that wait for readers, and readers and writers behind a waiting writer |
| LockOrder.LocksExclude | internal/collector/pool.go:285-325 | in no reachable state does a goroutine share a lock that another has for itself, or wait first in line beside another |
| LockOrder.SomeoneCanGoOn | internal/collector/engine.go:168-174 | every goroutine with work left can go on, or waits through a finite chain for one that can |
| Pool.ConnPool.Register | internal/collector/pool.go:285-305 | the router's new, unconnected entry; a replaced connection is closed; every other entry stays |
| Pool.ConnPool.Unregister | internal/collector/pool.go:308-317 | the entry is gone and its connection closed; every other entry stays |
| Pool.ConnPool.CloseAll | internal/collector/pool.go:377-381 | every connection in the map ends closed, and with it every client it ever dialled |
| Pool.ConnPool.Status | internal/collector/pool.go:387-396 | a state for each router and no other, Connected iff it has a client |
| Pool.ConnPool.CheckConnection | internal/collector/pool.go:423-452 | a disconnected router is dialled; a silent one loses its client, which is closed; a live one is left alone |
| Engine.Engine.AddRouter | internal/collector/engine.go:58-81 | replaces collector and connection: the old connection is closed, the old collector cancelled iff its Start has run, everything else stays |
| Engine.Engine.RemoveRouter | internal/collector/engine.go:85-96 | forgets collector and connection, cancelling the one and closing the other, known or not |
| Engine.Engine.ExecuteCommand | internal/collector/engine.go:168-174 | an error for an unknown router; otherwise the answer of its current client, or the error of having none |
| PoolRefinement.Register | internal/collector/pool.go:285-305 | the method takes the state machine's registering step on the connections' values |
| PoolRefinement.Unregister | internal/collector/pool.go:308-317 | the method takes its dropping step |
| PoolRefinement.CloseAll | internal/collector/pool.go:377-381 | the method leaves what the state machine's closing loop leaves |
| PoolRefinement.ClosingLoopCloses | internal/collector/pool.go:377-381 | in whatever order it takes them, that loop ends with exactly the pool's connections closed |
| EngineRefinement.AddRouter | internal/collector/engine.go:58-81 | the method takes the state machine's steps on the pool and on the collectors: the old collector and connection go, the new ones come |
| EngineRefinement.RemoveRouter | internal/collector/engine.go:85-96 | the method takes its steps of dropping a collector, cancelled iff it has started, and then the connection |
| Session.RunSpec | internal/collector/router.go:205-257 | a stream's end and the events it processes, as the next two rows describe them |
| Session.EndIsFirstEnd | internal/collector/router.go:216-257 | the first item that ends the stream says how, and nothing after it is processed |
| Session.EachParsedOnce | internal/collector/router.go:234-254 | until then each item that parses adds its event at the end, and no other item adds anything |
| Session.CleanEndMeansDone | internal/collector/router.go:222-245 | a stream ends without an error only if it has seen its context done |
| Session.RunAllSpecs | internal/collector/router.go:163-201 | how many of the streams fail, by what each of them sees, unless the context is done by then |
| Session.ErrorCountIs | internal/collector/router.go:169-187 | the count is the number of streams that ended with an error |
| Session.RouterCollector.AcquireAndStream | internal/collector/router.go:128-160 | which error each way out gives; an acquired client is released once; a session fails iff a stream failed and the context is not done, with how many of how many |
| Session.RouterCollector.Start | internal/collector/router.go:69-113 | it returns in the first round that sees the context done at the top, at the end of a session or in the wait, after exactly that many rounds, waits and acquire-release pairs, and goes on while none does; the waits are one backoff sequence for the whole call |
| Session.ReturnsOnlyWhenDone | internal/collector/router.go:87-112 | with a non-empty spec list, Start returns only after its context is done, whatever fails |
| Session.ReturnsAtFirst | internal/collector/router.go:86-112 | the loop returns in the first round that notices, with one pair of calls for each round that acquired until then |
| Session.GoesOnUntilNoticed | internal/collector/router.go:86-112 | while no round notices, the loop goes on and waits after each |
| Session.ReturnsEarlyIffNoSpecs | internal/collector/router.go:99-112 | Start can return without its context being done iff the spec list is empty |
| Session.AcquiresArePaired | internal/collector/router.go:144-156 | over any run, every successful AcquireAsync is followed by exactly one Release before the next |
| Session.RouterCollector.Stop | internal/collector/router.go:116-124 | cancels iff Start has set the cancel function |
| Shutdown.StepKeepsInv | internal/collector/pool.go:400-452 | each step of owner, health loops, collectors and registrations, but a successful dial of a connection that was dropped while monitored, keeps every open client reachable for Stop: through the pool or in a session |
| Shutdown.StopClosesUnlessRedialled | internal/collector/engine.go:127-142 | in every run in which neither Start nor a health loop gets through to a connection that was dropped while monitored, once Stop has returned every client ever dialled is closed, and no step after that dials |
| Shutdown.StopClosesEverything | internal/collector/engine.go:127-142 | so in every run that drops no monitored connection |
| Shutdown.KeepingRoutersKeepsMonitored | internal/collector/pool.go:285-317 | a run that neither unregisters nor re-registers a pooled router after Start drops no monitored connection |
| Shutdown.StopClosesEverythingKept | internal/collector/engine.go:127-142 | so in every such run Stop's return means every client ever dialled is closed |
| Shutdown.StoppedNeverDials | internal/collector/pool.go:366-384 | once Stop has returned, no collector or health loop can dial again |
| Lifecycle.StartBegins | internal/collector/pool.go:328-338 | Start takes on exactly the connections in the pool |
| Lifecycle.StartTries | internal/collector/pool.go:342-356 | it dials each of them; one has a client then iff it had one or answered |
| Lifecycle.LoopsThenCollectors | internal/collector/engine.go:101-123 | then each of them gets a health loop, and after that every collector that the engine knows gets its goroutine, and no other |
| Lifecycle.StartReachesThePool | internal/collector/pool.go:328-363 | over any run, when the first dials are over each connection of the pool has been tried once and has a health loop |
| Lifecycle.StartReachesTheMembers | internal/collector/engine.go:114-122 | over any run from the launch, every collector known then has been started |
| Lifecycle.HealthRound | internal/collector/pool.go:423-452 | a round of a health loop that nobody interrupts dials a disconnected router, closes one that does not answer, and leaves one that does alone |
| Lifecycle.CollectorStreams | internal/collector/router.go:128-151 | a started collector whose router is in the pool can always come to stream on that connection's current client, while its context is not done |
| Lifecycle.SessionEnds | internal/collector/router.go:150-160 | a session's end closes the connection's client, and ends the collector only if its context is done or it has no specs |
| Lifecycle.EndsWhenDone | internal/collector/router.go:86-105 | between sessions a collector ends as soon as it sees its context done, and tries again otherwise |
| Lifecycle.EndsOnlyWhenDue | internal/collector/router.go:86-112 | no collector ends otherwise |
| Lifecycle.FailureIsRetried | internal/collector/router.go:128-149 | without its router, or without a client, a collector waits to try again and has opened nothing |
| Lifecycle.RouterStepsReach | internal/collector/pool.go:285-317 | routers can be registered and dropped at any time, except while Stop's closing loop holds the pool's lock |
| Lifecycle.StopInOrder | internal/collector/engine.go:127-142 | Stop cancels, waits for all collectors, then for all health loops, and only then closes what is in the pool |
| Lifecycle.StoppedIsQuiet | internal/collector/engine.go:127-142 | when Stop has returned, the context is done, no collector is at work and every health loop has returned |
| ShutdownLeak.StopCanReturn | internal/collector/engine.go:127-142 | wherever collectors and health loops are, Stop can run to its end |
| ShutdownLeak.DropIsSafeIffUnmonitored | internal/collector/pool.go:285-317 | before Start, during it and until Stop, while the context is not done and no monitored connection has been dropped, unregistering or replacing a router is safe for every continuation that drops none either, iff no health loop monitors its connection |
| ShutdownLeak.DropIsSafeIffUnmonitoredOrDone | internal/collector/pool.go:91-97 | where no dial succeeds once the context is done, and no monitored connection has been dropped before that, dropping a router at any moment is safe for every such continuation iff no health loop monitors its connection or the context is done |
| ShutdownLeak.LoopOpens | internal/collector/pool.go:427-433 | while the context is not done, a live health loop can always come to hold an open client, whether or not its connection is still in the pool |
| ShutdownLeak.StopMissesOrphan | internal/collector/pool.go:377-381 | Stop can then return with that client open |
| ShutdownLeak.Leak | internal/collector/pool.go:308-317 | dropping a monitored connection while the context is not done is followed by some run, dropping no other and with no dial succeeding once the context is done, whose Stop leaves a client open |
| Aggregator.TotalsAreLastWords | internal/usecase/aggregator.go:66-118 | after any run of events, a user is configured, with that snapshot, iff the last event on it was an update with it |
| Aggregator.ActivesAreLastWords | internal/usecase/aggregator.go:78-118 | after any run, a user is online iff the last event on its sessions was an update |
| Aggregator.InactiveIsDifference | internal/usecase/aggregator.go:128-160 | the list holds exactly the users last reported configured and not last reported online, with their last snapshot |
| Aggregator.InactiveCount | internal/usecase/aggregator.go:147-181 | the stored count is the number configured minus the number both configured and online |
| Aggregator.SecretBranch | internal/usecase/aggregator.go:67-104 | the whole state after an event on a configured user: the named user's snapshot put in or taken out of its own map, nothing else |
| Aggregator.SessionBranch | internal/usecase/aggregator.go:80-117 | the whole state after an event on a session: the named user put into or taken out of its own set, nothing else |
| Aggregator.OtherBranch | internal/usecase/aggregator.go:55-66 | any other measurement makes the router known, any other kind of event does nothing |
| Aggregator.PanicsIff | internal/usecase/aggregator.go:80-107 | exactly which events panic |
| Aggregator.InactiveOf | internal/usecase/aggregator.go:128-159 | the lists in terms of the four maps |
| Aggregator.EnsureRouterKeeps | internal/usecase/aggregator.go:44-51 | making a router known changes nobody's lists |
| Aggregator.ShippedActiveSpecsPanic | internal/domain/ppp_active.go:27-33 | every event of the shipped session specs panics in Update, for both categories |
| Aggregator.DeadRemovesExactlyTheNamed | internal/spec/ppp_secret.go:55-63 | a dead event removes a configured user iff it names it; a bare one names only the empty string |
| Aggregator.InactiveAggregator.Update | internal/usecase/aggregator.go:55-125 | the whole new state, which category's recalculation starts, and a panic iff the session event lacks the name |
| Aggregator.InactiveAggregator.DoEnsureRouter | internal/usecase/aggregator.go:44-51 | the four maps know the same routers, and this one among them |
| Aggregator.InactiveAggregator.OnPppSecrets | internal/usecase/aggregator.go:67-78 | the secret's branch: its whole new state |
| Aggregator.InactiveAggregator.OnPppActives | internal/usecase/aggregator.go:80-91 | the session's branch: its whole new state, or a panic iff the name is missing |
| Aggregator.InactiveAggregator.OnHotspotUsers | internal/usecase/aggregator.go:93-104 | the same for hotspot users |
| Aggregator.InactiveAggregator.OnHotspotActives | internal/usecase/aggregator.go:106-117 | the same for hotspot sessions |
| Aggregator.InactiveAggregator.CollectInactive | internal/usecase/aggregator.go:147-159 | the loop leaves exactly the configured users that are not online, with their snapshots |
| Aggregator.InactiveAggregator.Payload | internal/usecase/aggregator.go:170-175 | the loop lists each of them once, in some order |
| Aggregator.InactiveAggregator.TakeSnapshot | internal/usecase/aggregator.go:128-175 | the category's key, and a list that holds every inactive user's snapshot once, in some order; its length is that difference |
| Aggregator.InactiveAggregator.StoreSnapshot | internal/usecase/aggregator.go:177-188 | list, count and timestamp replace those fields under the category's key, unless the store fails |
| Recalculation.EveryListIsATrueDifference | internal/usecase/aggregator.go:120-189 | in every interleaving, each stored list is the difference of one state at or after the update that spawned it, with that state's count |
| Recalculation.ListWillBeCurrentIffNoneOutdated | internal/usecase/aggregator.go:128-189 | in any state, every continuation without a further event or a failing store of a key leaves its current list once nothing is under way, iff no recalculation of it holds an outdated difference and one is under way or the stored list is current |
| Recalculation.OrderedStoresLeaveTheCurrentList | internal/usecase/aggregator.go:128-189 | if stores succeed and go in the order of their reads, a key with no recalculation under way holds the current difference |
| Recalculation.StaleListCanStay | internal/usecase/aggregator.go:160-184 | from any state, any two events of a key of which the second changes its difference can leave the first one's list stored for good, though every store succeeds |
| Recalculation.SecretUpdateCanBeLost | internal/spec/ppp_secret.go:67-91 | so two updates of one secret, as the shipped spec sends them, can leave the older snapshot of a user who is not online in the stored list |
| Recalculation.OnlySpawnedChanges | internal/usecase/aggregator.go:120-124 | an event changes no difference but the one it starts a recalculation for |
| CacheStore.ReadBack | internal/repository/redis.go:54-92 | what a key reads after a put, a deletion, or a change to another key |
| CacheStore.RedisRepository.SetSnapshot | internal/repository/redis.go:54-70 | an empty snapshot does nothing; otherwise its fields are merged into the hash, or the call fails |
| CacheStore.RedisRepository.HSetArgs | internal/repository/redis.go:58-64 | in any order, the arguments amount to merging the snapshot into whatever hash is there |
| CacheStore.RedisRepository.DeleteSnapshot | internal/repository/redis.go:85-92 | the key is gone, or the call fails |
| Telemetry.EffectsAreIndependent | internal/usecase/telemetry.go:53-141 | after any run, the effects of one event in sequence leave each store as its own call's outcome alone decides; the writer is given the point whatever it answers |
| Points.EveryUpdateReachesTheWriter | internal/usecase/telemetry.go:73-93 | after any run, with any outcomes and any flushes, ticks and closing between the writes, the server's points then the buffered ones are those of the updates written, in order, each once, with the update's measurement, fields, time and tags and its router |
| Points.HandedOver | internal/usecase/telemetry.go:73-93 | what the writer has been given is the points of the updates written before a crash, in order |
| Telemetry.PointAndMessage | internal/usecase/telemetry.go:73-79 | what an event's point and message hold: a tag `router` of the event's own wins over the router |
| Telemetry.MessagesInOrder | internal/usecase/telemetry.go:154-170 | after any run subscribers have seen a message for each event published, in order, on its router's channel |
| Telemetry.StoreIsMergeSinceDead | internal/usecase/telemetry.go:73-141 | after any run, with any failures and list stores in between, an entity's key reads as the merge of its stored snapshots since its last dead event |
| Telemetry.MergeIsLastIff | internal/repository/redis.go:54-70 | such a merge is its last snapshot iff that one has every field of the earlier ones |
| Telemetry.StoreIsLastSnapshot | internal/usecase/telemetry.go:91-128 | with a fixed field set per measurement, the key reads as the last snapshot since the last dead event, or as nothing |
| Telemetry.ListKeyIsMerge | internal/usecase/aggregator.go:170-188 | after any run, an aggregator key reads as the merge of what was stored for it, untouched by entity snapshots, deletions and other keys' lists |
| Telemetry.ListKeyIsLastStore | internal/usecase/aggregator.go:170-188 | with all three fields in every stored list, the key reads as the last list stored for it, or as nothing |
| ListStore.KeysHoldStoredLists | internal/usecase/aggregator.go:121-189 | after any run of the process that carries the recalculations, with anything else in between, each aggregator key holds the encoding of the list that they have stored last, or nothing |
| ListStore.EveryRunIsCarried | internal/usecase/aggregator.go:121-189 | every run of the recalculations is carried by some run of the process |
| ListStore.KeyWillHoldCurrentList | internal/usecase/aggregator.go:128-189 | so where no recalculation of a key is outdated, the key ends with the encoding of the current difference once nothing is under way |
| Telemetry.KeyNamesEntity | pkg/mikrotik/parser.go:146-148 | an event's key is an entity's key iff the event is about that entity |
| Telemetry.CrashedIffPanicked | internal/usecase/aggregator.go:81-107 | a run ends in a crash iff it fed the aggregator an event it panics on |
| Telemetry.AggregatorFoldsFed | internal/usecase/telemetry.go:53-62 | the aggregator's state is the fold of the events fed to it, whatever else interleaves |
| Telemetry.TelemetryUseCase.ProcessEvent | internal/usecase/telemetry.go:53-70 | every store after the event, as the sequence of its effects; nil does nothing; a crash iff the aggregator panics |
| Telemetry.TelemetryUseCase.Process | internal/usecase/telemetry.go:53-70 | the aggregator first, then the event's effects; nothing after a panic is promised |
| Telemetry.TelemetryUseCase.Route | internal/usecase/telemetry.go:60-69 | which effects each event type has |
| Telemetry.TelemetryUseCase.HandleUpdate | internal/usecase/telemetry.go:73-111 | one point with the event's measurement, fields, time, tags and router is handed over; the snapshot, if there is one and a key, is stored, and the message published, each unless its own call fails |
| Telemetry.TelemetryUseCase.HandleDead | internal/usecase/telemetry.go:114-141 | the key is deleted and the message published, each unless its own call fails |
| Telemetry.TelemetryUseCase.DoPublish | internal/usecase/telemetry.go:154-170 | the event's message on its router's channel |
| Streams.InterleavingsAgree | internal/collector/router.go:169-187 | any two merges that keep each stream's own order, with any lists stored at any moments in between, leave the same entity cache and the same totals and actives, for streams of different routers or measurements |
| Streams.MergeKeepsStreams | internal/collector/router.go:234-254 | a merge's actions from one source are exactly that source's stream |
| Streams.SomeInterleaving | internal/collector/router.go:169-187 | any streams have such a merge, with whichever of them last |
| Streams.SnapshotsOfOneSource | internal/usecase/telemetry.go:73-141 | what an entity's key reads depends on its own source's actions only |
| Streams.CacheAgrees | internal/usecase/telemetry.go:73-141 | two such merges leave the same hash under every entity key |
| Streams.UsersAgree | internal/usecase/aggregator.go:66-118 | two such merges leave the same configured and online users |
| InfluxBuffer.NothingLostOrRepeated | internal/repository/influxdb.go:92-183 | after any run of writes, flushes, ticks and closing, persisted points then buffered points are the written ones, in order, each once; and the buffer stays below BatchSize plus the failures since the last success |
| InfluxBuffer.FlushesEverything | internal/repository/influxdb.go:113-183 | over any run, a flush or tick that the server takes leaves everything written so far there and nothing buffered; one that fails changes neither |
| InfluxBuffer.WriteFlushesWhenFull | internal/repository/influxdb.go:92-110 | a write sends the whole buffer iff it fills the batch and the server takes it; otherwise it adds its point; it makes an attempt only when the batch is full |
| InfluxBuffer.BatchBound | internal/repository/influxdb.go:156-183 | a step sends at most one batch, of at most BatchSize plus those failures |
| InfluxBuffer.WriteResult | internal/repository/influxdb.go:92-110 | a WritePoint without error leaves fewer than BatchSize points; one with an error keeps its point |
| InfluxBuffer.CloseCompleteIff | internal/repository/influxdb.go:120-132 | after Close everything written is persisted iff the buffer was empty or the final flush succeeded, and no tick can follow |
| InfluxBuffer.CloseGoesThrough | internal/repository/influxdb.go:120-132 | a writer that has not been closed can be, whatever is buffered |
| InfluxBuffer.CompleteStays | internal/repository/influxdb.go:120-153 | and it stays so as long as nothing is written |
| InfluxBuffer.StepKeepsInv | internal/repository/influxdb.go:92-183 | each operation keeps conservation and the bound |
| InfluxBuffer.InfluxDBWriter.constructor | internal/repository/influxdb.go:51-88 | an empty buffer; a positive batch size is kept, any other means 5000 |
| InfluxBuffer.InfluxDBWriter.Append | internal/repository/influxdb.go:96-102 | appending in place or into a larger array adds one point at the end |
| InfluxBuffer.InfluxDBWriter.DoFlush | internal/repository/influxdb.go:156-183 | the batch is the buffer; a success empties it without a new array, a failure keeps it |
| InfluxBuffer.InfluxDBWriter.WritePoint | internal/repository/influxdb.go:92-110 | buffer, server and error after a write that fills the batch and after one that does not |
| InfluxBuffer.InfluxDBWriter.Flush | internal/repository/influxdb.go:113-117 | the whole buffer is sent and emptied, or kept if that fails |
| InfluxBuffer.InfluxDBWriter.OnTick | internal/repository/influxdb.go:135-153 | the same on a tick of the loop |
| InfluxBuffer.InfluxDBWriter.Close | internal/repository/influxdb.go:120-132 | done is closed, the loop returns, and then the whole buffer is sent, or kept if that fails |
| Parser.ParseUint64InvertsDecimal | pkg/mikrotik/parser.go:24-33 | every uint64 survives printing and parsing |
| Parser.ParseUint64NonZeroExactly | pkg/mikrotik/parser.go:24-33 | a text parses to n > 0 iff n is below 2^64 and the text is its decimal form after leading zeros; so all else gives 0 |
| Parser.CacheAndFieldAgreeBelow2To63 | internal/domain/firewall.go:36-57 | the cached decimal and the int64 field denote the same count iff it is below 2^63; beyond, the field is negative |
| Parser.SentenceToMap | pkg/mikrotik/parser.go:124-142 | the sentence's meaning, word by word |
| Parser.LastWordWins | pkg/mikrotik/parser.go:124-142 | a sentence holds, for each key, the value of its last word with that key, and no other keys |
| Parser.DeadIsLastWord | pkg/mikrotik/parser.go:15-21 | a sentence reports a removal iff its last `.dead` word says true or yes |
| Parser.MeaningKeysFree | pkg/mikrotik/parser.go:124-142 | no key of a parsed sentence contains an equals sign |
| Parser.PrintedWord | internal/tool/executor.go:53-59 | one printed word reads back as its key and value |
| Parser.OtherWords | pkg/mikrotik/parser.go:124-142 | a word without a value means the empty value, and one without its leading equals sign is read the same |
| Parser.CacheKeyInjective | pkg/mikrotik/parser.go:146-148 | for colon-free router IDs and measurements, equal keys have equal parts, whatever the entity IDs |
| Parser.CacheKeyParts | pkg/mikrotik/parser.go:146-154 | where in a key or a channel name its parts are |
| Parser.CacheKeyUnambiguousIffColonFree | pkg/mikrotik/parser.go:146-148 | a key has one colon-free reading, its own parts, iff its router ID and measurement are colon-free |
| Parser.CacheKeyIsNoInactiveKey | internal/usecase/aggregator.go:134-141 | no entity key is an aggregator key, for colon-free router IDs and any measurement and entity |
| Parser.InactiveKeyInjective | internal/usecase/aggregator.go:134-141 | the aggregator's keys tell routers and categories apart |
| Parser.InactiveKeyIs | internal/usecase/aggregator.go:134-141 | the two keys of a router, written out |
| Executor.RoundTripIffNoEquals | internal/tool/executor.go:53-70 | printed parameters, in any order, read back as the map they came from iff no key contains an equals sign |
| Executor.MeaningOfWords | internal/tool/executor.go:53-70 | each printed parameter overwrites one key of what the words before it say |
| Executor.Add | internal/tool/executor.go:53-59 | the path's command, then `=key=value` for every parameter once in some order; it parses back to the parameters iff no key has an equals sign |
| Executor.Set | internal/tool/executor.go:62-70 | the same with the id first; where no parameter is read as another `numbers`, the words read back with the id |
| Executor.NumbersReadBackIff | internal/tool/executor.go:62-70 | in every order of the parameters, what Set appends reads back with `numbers` as the id, iff each parameter that is read as `numbers` (the key `numbers`, or one that begins with `numbers=`) is read as that id |
| Executor.AppendParams | internal/tool/executor.go:53-70 | the loop appends every parameter once |
| Duration.UnitMatchesOnce | pkg/mikrotik/parser.go:55 | digits before a unit letter match in at most one way, so backtracking into them never helps |
| Duration.FirstWayIsScan | pkg/mikrotik/parser.go:55 | from any unit on, the preferred way of the expression is the one-pass scanner's |
| Duration.RegexIsScanner | pkg/mikrotik/parser.go:55-68 | leftmost-first matching of the whole expression finds, at the start, the scanner's end and captures |
| DurationValue.MatchIsLongestOrderedPrefix | pkg/mikrotik/parser.go:55-68 | the match is the longest prefix of digit-run-and-unit groups in strict w, d, h, m, s order, with their digits as captures |
| DurationValue.TakenIsLongest | pkg/mikrotik/parser.go:55-68 | no ordered groups at a position reach further than the scanner, and those reaching the end are the scanner's |
| DurationValue.ParseDuration | pkg/mikrotik/parser.go:59-93 | the groups' duration in wrapping int64, which is their exact duration iff that fits |
| DurationValue.ReadsUnits | pkg/mikrotik/parser.go:55-92 | weeks, days, hours, minutes and seconds in this order, written out with their letters, each there or left out, are read as the seconds they add up to iff those fit int64 nanoseconds |
| DurationValue.ReadsUnitsModulo | pkg/mikrotik/parser.go:67-92 | when they do not fit they are read modulo 2^64, as long as each number is an int |
| DurationValue.TooLargeCountsAsLargest | pkg/mikrotik/parser.go:67-92 | a number beyond int64 counts as the largest int |
| DurationValue.IgnoresPadding | pkg/mikrotik/parser.go:59-64 | white space around a text makes no difference |
| DurationValue.NanosExactIffFits | pkg/mikrotik/parser.go:67-92 | clamped numbers and wrapped sums are exact iff the total is below 2^63 ns |
| DurationValue.NothingOverflows | pkg/mikrotik/parser.go:67-92 | when the total fits, no product and no partial sum on the way overflows |
| DurationValue.NoProductOverflows | pkg/mikrotik/parser.go:69-91 | no partial product of a group exceeds its nanoseconds |
| DurationValue.GroupsOfPrint | pkg/mikrotik/parser.go:59-68 | printed ordered groups are read back as themselves |
| DurationValue.CanonicalRoundTrip | pkg/mikrotik/parser.go:59-93 | parsing the canonical text of n seconds gives n seconds iff they fit int64 nanoseconds |

## Left out

- The RouterOS, InfluxDB and Redis clients, TLS and the network: their calls succeed or fail as a parameter says; the stores are maps and sequences.
- JSON: the encoding of a list is a function parameter, encoding and decoding one entry is taken as the identity, and a message is the value it encodes.
- Timestamps are values from outside; `ParseMikroTikTime` needs the wall clock.
- Real time: tickers, timeouts and retry timers may fire at any moment, so no claim is about how long anything takes.
- Logging and `lastDrop`, the no-op repositories and `cmd/example`: they decide nothing.
- The spec files and domain structs: one generic event; only what the PPP and hotspot specs put into their events is used.
- `ParseBool` and `ParseInt64`: their results only get copied into the fields of a point.
- `Run`, `Enable`, `Disable` and `Remove` of the executor: each hands one fixed sentence to `ExecuteCommand`.
- WaitGroup waits are part of `Shutdown`, not of `LockOrder`, which is about mutexes; the `errMu` of one session is held around no other lock and is left out.
- Goroutines on the class objects: `Engine`, `ConnPool`, `RouterConn`, `RouterCollector`, `InactiveAggregator` and `InfluxDBWriter` run one method at a time. Interleaving is in `ConnThreads`, `Shutdown`, `Recalculation`, `Streams` and the runs of `InfluxBuffer`.
- Queued writers keep new readers out only in `LockOrder`; `ConnThreads` allows more interleavings than Go's RWMutex.
- A second `Start` or `Stop` of an engine, and a second `Close` of the writer, which panics in the source.
- A dial that fails because its context is done is one of the failures a dial may have; `Shutdown` also lets one succeed that was under way.
- Conn.RouterConn.ReconnectWithBackoff: nobody else uses the connection between two attempts.
- Conn.RouterConn.ExecuteContext: a reply is one flag, its contents are not modelled.
- Pool.ConnPool.CheckConnection: its calls follow each other without interruption; `Shutdown` takes them one by one.
- InfluxBuffer.InfluxDBWriter.Append: Go's growth factor is its runtime's; a larger array of another size takes its place.
- Telemetry.TelemetryUseCase.DoPublish: a failing encoding and a failing publish are one flag.
