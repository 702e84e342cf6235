# Price throttler: a Dafny model of its sequential core

The price throttler sits between a source of FX price updates (`onPrice(ccyPair, rate)`)
and a set of subscribers of different speeds. It keeps a priority queue per subscriber
and coalesces updates: a subscriber holds at most one pending price per currency pair.
Once a second, a scheduled tick makes two passes: one over the round-robin rotation of
FAST subscribers, then one over the rotation of SLOW subscribers. A pass takes at most as
many subscribers from its rotation as the pool has free threads (core size minus active
count). It skips a subscriber that is still busy, and hands an idle one the highest
priority price in its queue. It stops early at the first idle subscriber whose queue is
empty, or on an empty rotation. A slow subscriber whose
delivery finishes under a time bound is promoted to the fast rotation.

The model has one module per source file, with leaves first:

- `Seqs` (seqs.dfy): the Java collections the registry and publisher use, as sequences.
  - `remove(Object)` on a list or linked queue is `RemoveFirst`.
  - Poll-then-add on a rotation is `Rotate`.
- `Price` (price.dfy): `PriorityPrice` as a value.
  - It has the constructor, `setPriority`, `compareTo`, `equals` and `hashCode`.
  - Priorities are Java `int`s: the `int32` newtype.
- `RapidityResolver` (rapidity.dfy): the SLOW/FAST decision of `TaskRapidityResolver`.
  - The elapsed time is an input in milliseconds.
- `PriceFactory` (price_factory.dfy): `PriorityPriceFactory` as a class.
  - Its `priorityMap` is a `map` field.
  - Its increment wraps like a Java `int`.
- `Container` (container.dfy): `PriceProcessorsContainer` as a class with four fields:
  - the queues: a map from subscriber to a sequence of prices;
  - the rapidity map;
  - the slow rotation and the fast rotation (sequences).
  - Each method states the whole new state.
  - Lemmas about the queue functions prove coalescing, highest-priority polling and the
    registry's shape.
- `Publisher` (publisher.dfy): `PricePublisher` as a class.
  - `publishToFastSubscribers` and `publishToSlowSubscribers` are `for` loops.
  - Each loop is proved equal to a pure specification, `Pass(lane, state, iterations)`,
    built from `Step`, one loop iteration.
  - Every property of a pass is a lemma about `Pass`.
  - `execute` appends a `Task` to `pending`.
  - The task body is the separate method `CompleteTask`.
- `Throttler` (throttler.dfy): the `PriceThrottler` facade.
  - `onPrice` is the ledger, then the fan-out.
  - `subscribe` and `unsubscribe` are registry calls.
  - It also holds a scenario. Unsubscribing during a slow delivery that later turns out
    FAST stops the scheduled ticks.

Subscribers (`PriceProcessor`) are identities (`nat`). A subscriber callback that ran is
recorded as a `Delivery` in the publisher's `delivered` list.

## Model

| member | source | states |
|---|---|---|
| `Price.NewPrice` | src/main/java/ru/luxsoft/price/processor/throttler/price/PriorityPrice.java:9-18 | A new price carries the given pair and rate, with priority 0 |
| `Price.SetPriority` | src/main/java/ru/luxsoft/price/processor/throttler/price/PriorityPrice.java:20-22 | Only the priority changes; pair and rate stay |
| `Price.CompareTo` | src/main/java/ru/luxsoft/price/processor/throttler/price/PriorityPrice.java:37-39 | -1 iff a's priority is higher, 0 iff equal, 1 iff lower: the higher priority orders first |
| `Price.CompareToAntisymmetric` | src/main/java/ru/luxsoft/price/processor/throttler/price/PriorityPrice.java:37-39 | compare(a, b) == -compare(b, a) |
| `Price.CompareToTransitive` | src/main/java/ru/luxsoft/price/processor/throttler/price/PriorityPrice.java:37-39 | The order is transitive, strictly so when one step is strict |
| `Price.Equals` | src/main/java/ru/luxsoft/price/processor/throttler/price/PriorityPrice.java:41-49 | A price equals itself, and equal prices have equal hash codes |
| `Price.EqualsIgnoresRateAndPriority` | src/main/java/ru/luxsoft/price/processor/throttler/price/PriorityPrice.java:41-49 | A price equals itself with any other rate or priority |
| `Price.EqualsIsEquivalence` | src/main/java/ru/luxsoft/price/processor/throttler/price/PriorityPrice.java:41-49 | `equals` is reflexive, symmetric and transitive |
| `Price.StringHash` | src/main/java/ru/luxsoft/price/processor/throttler/price/PriorityPrice.java:51-54 | The pair's `String.hashCode` stays within 32 bits |
| `Price.ToInt32` | src/main/java/ru/luxsoft/price/processor/throttler/price/PriorityPrice.java:51-54 | The signed `int` has the same 32-bit pattern as the unsigned hash |
| `Price.HashCode` | src/main/java/ru/luxsoft/price/processor/throttler/price/PriorityPrice.java:51-54 | The signed `int` has the 32-bit pattern of the pair's `String.hashCode` |
| `Price.HashCodeConsistentWithEquals` | src/main/java/ru/luxsoft/price/processor/throttler/price/PriorityPrice.java:51-54 | Equal prices have equal hash codes |
| `RapidityResolver.ElapsedSeconds` | src/main/java/ru/luxsoft/price/processor/throttler/rapidity/TaskRapidityResolver.java:24 | The whole seconds s with 1000 s <= elapsed ms < 1000 (s + 1): truncation, not rounding |
| `RapidityResolver.Resolve` | src/main/java/ru/luxsoft/price/processor/throttler/rapidity/TaskRapidityResolver.java:26 | SLOW iff the whole elapsed seconds reach the bound, FAST otherwise |
| `RapidityResolver.ResolveInMillis` | src/main/java/ru/luxsoft/price/processor/throttler/rapidity/TaskRapidityResolver.java:24-26 | After truncation: SLOW iff the elapsed milliseconds are at least 1000 times the bound |
| `RapidityResolver.ZeroBoundAlwaysSlow` | src/main/java/ru/luxsoft/price/processor/throttler/rapidity/TaskRapidityResolver.java:26 | With bound 0 every task is SLOW |
| `RapidityResolver.ResolveMonotone` | src/main/java/ru/luxsoft/price/processor/throttler/rapidity/TaskRapidityResolver.java:26 | A longer run of a SLOW task is still SLOW |
| `PriceFactory.Inc32` | src/main/java/ru/luxsoft/price/processor/throttler/price/PriorityPriceFactory.java:16 | `+ 1` on an `int`: the successor below 2^31 - 1, the most negative `int` at it |
| `PriceFactory.NextPriority` | src/main/java/ru/luxsoft/price/processor/throttler/price/PriorityPriceFactory.java:14-18 | 0 for a pair not yet in the ledger; otherwise the stored value plus one (until it wraps) |
| `PriceFactory.NextPrice` | src/main/java/ru/luxsoft/price/processor/throttler/price/PriorityPriceFactory.java:14-16 | The returned price carries the given pair and rate, with the ledger's next priority |
| `PriceFactory.Record` | src/main/java/ru/luxsoft/price/processor/throttler/price/PriorityPriceFactory.java:18 | The pair is stored with its next priority; every other pair keeps its value and no key is lost |
| `PriceFactory.Occurrences` | src/main/java/ru/luxsoft/price/processor/throttler/price/PriorityPriceFactory.java:13-21 | The number of calls for a pair is at most the number of calls, and 0 exactly when the pair was never called |
| `PriceFactory.PriorityPriceFactory.constructor` | src/main/java/ru/luxsoft/price/processor/throttler/price/PriorityPriceFactory.java:11 | The ledger starts empty |
| `PriceFactory.PriorityPriceFactory.CreateNewPriceOrChangePriority` | src/main/java/ru/luxsoft/price/processor/throttler/price/PriorityPriceFactory.java:13-21 | Returns the next price; the ledger maps the pair to the returned priority and keeps every other pair |
| `PriceFactory.LedgerCountsCalls` | src/main/java/ru/luxsoft/price/processor/throttler/price/PriorityPriceFactory.java:11-21 | From an empty ledger, after n > 0 calls for a pair it holds n - 1 for it; with no call it holds nothing |
| `PriceFactory.NthCallReturnsN` | src/main/java/ru/luxsoft/price/processor/throttler/price/PriorityPriceFactory.java:13-21 | The n-th call for a pair (from 0) returns priority n, whatever other pairs are interleaved |
| `PriceFactory.PriorityWrapsAfterMaxInt` | src/main/java/ru/luxsoft/price/processor/throttler/price/PriorityPriceFactory.java:16 | The call after 2^31 - 1 wraps to the most negative `int` |
| `PriceFactory.LedgerOnlyGrows` | src/main/java/ru/luxsoft/price/processor/throttler/price/PriorityPriceFactory.java:18 | No ledger key is ever removed, and pairs not called keep their value |
| `Seqs.RemoveFirst` | src/main/java/ru/luxsoft/price/processor/throttler/PriceProcessorsContainer.java:36-37 | Removing an absent element changes nothing, and nothing new appears |
| `Seqs.RemoveFirstMultiset` | src/main/java/ru/luxsoft/price/processor/throttler/PriceProcessorsContainer.java:35-41 | Exactly one occurrence is removed |
| `Seqs.Rotate` | src/main/java/ru/luxsoft/price/processor/throttler/PriceProcessorsContainer.java:70-78 | Poll-then-add moves the head to the back and keeps the length |
| `Seqs.RotateMembers` | src/main/java/ru/luxsoft/price/processor/throttler/PriceProcessorsContainer.java:70-88 | Turning a rotation keeps its members |
| `Seqs.RotateMultiset` | src/main/java/ru/luxsoft/price/processor/throttler/PriceProcessorsContainer.java:80-88 | Turning a rotation keeps every member's count |
| `Seqs.RotateNShifts` | src/main/java/ru/luxsoft/price/processor/throttler/PriceProcessorsContainer.java:70-78 | k polls of a rotation give s[k..] + s[..k] |
| `Seqs.RoundRobinVisitsAll` | src/main/java/ru/luxsoft/price/processor/throttler/PriceProcessorsContainer.java:70-88 | The k-th poll returns the k-th member, and \|s\| polls bring the rotation back |
| `Container.RemovePrice` | src/main/java/ru/luxsoft/price/processor/throttler/PriceProcessorsContainer.java:65 | `remove(price)` only removes entries, and never one for another pair |
| `Container.RemovePriceSplit` | src/main/java/ru/luxsoft/price/processor/throttler/PriceProcessorsContainer.java:65 | It drops the first pending entry for the pair and keeps every other pair's entries in order |
| `Container.RemovePriceUnique` | src/main/java/ru/luxsoft/price/processor/throttler/PriceProcessorsContainer.java:65 | On a coalesced queue no entry for the pair is left |
| `Container.AddOrReplace` | src/main/java/ru/luxsoft/price/processor/throttler/PriceProcessorsContainer.java:65-66 | The new price is last in the queue; every other entry was there before, and every entry for another pair stays |
| `Container.AddOrReplaceUnique` | src/main/java/ru/luxsoft/price/processor/throttler/PriceProcessorsContainer.java:65-66 | remove-then-add keeps at most one entry per pair |
| `Container.AddOrReplaceCoalesces` | src/main/java/ru/luxsoft/price/processor/throttler/PriceProcessorsContainer.java:63-68 | Afterwards the only entry for the pair is the new price; other pairs' entries are unchanged |
| `Container.PollIndex` | src/main/java/ru/luxsoft/price/processor/throttler/PriceProcessorsContainer.java:90-92 | `poll` takes a position inside the queue |
| `Container.PollIndexHighest` | src/main/java/ru/luxsoft/price/processor/throttler/PriceProcessorsContainer.java:90-92 | The polled entry orders first under `compareTo` (highest priority); earlier entries have strictly lower priority |
| `Container.RemoveAtUnique` | src/main/java/ru/luxsoft/price/processor/throttler/PriceProcessorsContainer.java:91 | Polling keeps a queue coalesced |
| `Container.WithRapidity` | src/main/java/ru/luxsoft/price/processor/throttler/PriceProcessorsContainer.java:43-45 | The subscribers counted for a rapidity are registered ones |
| `Container.NoneWithRapidity` | src/main/java/ru/luxsoft/price/processor/throttler/PriceProcessorsContainer.java:43-45 | The count for a rapidity is 0 exactly when no subscriber has it |
| `Container.CountsAddUp` | src/main/java/ru/luxsoft/price/processor/throttler/PriceProcessorsContainer.java:43-49 | count(SLOW) + count(FAST) equals the number of registered subscribers |
| `Container.PartitionedAfterAdd` | src/main/java/ru/luxsoft/price/processor/throttler/PriceProcessorsContainer.java:28-33 | Adding a new subscriber keeps each registered subscriber exactly once, in the rotation of its rapidity |
| `Container.PartitionedAfterRemove` | src/main/java/ru/luxsoft/price/processor/throttler/PriceProcessorsContainer.java:35-41 | Removal keeps that shape and leaves the subscriber in no rotation |
| `Container.PartitionedAfterMarkFast` | src/main/java/ru/luxsoft/price/processor/throttler/PriceProcessorsContainer.java:94-98 | Promoting a registered SLOW subscriber keeps the shape |
| `Container.MarkFastAfterRemoveLeavesNoQueue` | src/main/java/ru/luxsoft/price/processor/throttler/PriceProcessorsContainer.java:94-98 | Promoting an unregistered subscriber gives it a rapidity and a fast slot, but no queue: the shape breaks |
| `Container.PriceProcessorsContainer.constructor` | src/main/java/ru/luxsoft/price/processor/throttler/PriceProcessorsContainer.java:20-26 | Empty maps and rotations, coalesced and in shape |
| `Container.PriceProcessorsContainer.ProcessorsCount` | src/main/java/ru/luxsoft/price/processor/throttler/PriceProcessorsContainer.java:47-49 | The number of subscribers is the SLOW count plus the FAST count |
| `Container.PriceProcessorsContainer.ProcessorsCountWith` | src/main/java/ru/luxsoft/price/processor/throttler/PriceProcessorsContainer.java:43-45 | At most the number of subscribers; 0 exactly when no subscriber has that rapidity |
| `Container.PriceProcessorsContainer.AddProcessor` | src/main/java/ru/luxsoft/price/processor/throttler/PriceProcessorsContainer.java:28-33 | Empty queue, rapidity SLOW, appended to the slow rotation, nothing else changes; a re-add resets the queue and appends again |
| `Container.PriceProcessorsContainer.RemoveProcessor` | src/main/java/ru/luxsoft/price/processor/throttler/PriceProcessorsContainer.java:35-41 | One occurrence leaves each rotation; the queue and rapidity entries go; nothing else changes |
| `Container.PriceProcessorsContainer.AddOrReplacePrice` | src/main/java/ru/luxsoft/price/processor/throttler/PriceProcessorsContainer.java:63-68 | Every registered queue, and only those, becomes remove-then-add of the price; the queues stay coalesced |
| `Container.PriceProcessorsContainer.GetNextProcessor` | src/main/java/ru/luxsoft/price/processor/throttler/PriceProcessorsContainer.java:70-78 | None on an empty slow rotation; otherwise returns its head and rotates it |
| `Container.PriceProcessorsContainer.GetNextFastProcessor` | src/main/java/ru/luxsoft/price/processor/throttler/PriceProcessorsContainer.java:80-88 | The same on the fast rotation |
| `Container.PriceProcessorsContainer.GetNextPrice` | src/main/java/ru/luxsoft/price/processor/throttler/PriceProcessorsContainer.java:90-92 | None on an empty queue; otherwise removes and returns the polled, highest-priority entry |
| `Container.PriceProcessorsContainer.MarkProcessorAsFast` | src/main/java/ru/luxsoft/price/processor/throttler/PriceProcessorsContainer.java:94-98 | One occurrence leaves the slow rotation, rapidity becomes FAST, appended to the fast rotation (again on a repeat call) |
| `Publisher.FreeThreads` | src/main/java/ru/luxsoft/price/processor/throttler/PricePublisher.java:64-65 | The loop bound is core minus active when positive, else 0 |
| `Publisher.Dispatch` | src/main/java/ru/luxsoft/price/processor/throttler/PricePublisher.java:72-80 | Polls a highest-priority entry out of the subscriber's queue (one occurrence leaves it), marks the subscriber in progress, appends one task on the lane carrying that price; other queues and the rotation are unchanged |
| `Publisher.Step` | src/main/java/ru/luxsoft/price/processor/throttler/PricePublisher.java:67-80 | The rotation is turned once; the iteration stops with NoProcessor iff the rotation is empty, NoQueue iff the idle head has no queue, NoPrice iff the idle head's queue is empty |
| `Publisher.Pass` | src/main/java/ru/luxsoft/price/processor/throttler/PricePublisher.java:66 | A pass submits at most `iterations` tasks |
| `Publisher.Resume` | src/main/java/ru/luxsoft/price/processor/throttler/PricePublisher.java:66-81 | The remaining iterations submit at most that many tasks |
| `Publisher.NoFreeThreadsNoPass` | src/main/java/ru/luxsoft/price/processor/throttler/PricePublisher.java:64-65 | With no free thread a pass changes nothing |
| `Publisher.PassStopsEarly` | src/main/java/ru/luxsoft/price/processor/throttler/PricePublisher.java:67-75 | An empty rotation, or an idle head with an empty queue, stops the whole pass at once |
| `Publisher.PassSkipsBusy` | src/main/java/ru/luxsoft/price/processor/throttler/PricePublisher.java:71 | Busy subscribers are skipped but use up iterations: with all busy, a pass only turns the rotation n times |
| `Publisher.PassKeepsSubmitted` | src/main/java/ru/luxsoft/price/processor/throttler/PricePublisher.java:77-80 | A pass only appends to the submitted tasks |
| `Publisher.PassKeepsInProgressMatched` | src/main/java/ru/luxsoft/price/processor/throttler/PricePublisher.java:76-80 | The in-progress list names exactly the subscribers of the submitted tasks |
| `Publisher.PassKeepsInProgress` | src/main/java/ru/luxsoft/price/processor/throttler/PricePublisher.java:76 | A pass never clears an in-progress mark |
| `Publisher.PassSubmitsIdle` | src/main/java/ru/luxsoft/price/processor/throttler/PricePublisher.java:67-77 | New tasks are on the pass's lane, for rotation members that were not in progress |
| `Publisher.PassSubmitsIdleAfter` | src/main/java/ru/luxsoft/price/processor/throttler/PricePublisher.java:67-77 | The same for the iterations after the first |
| `Publisher.PassKeepsInProgressUnique` | src/main/java/ru/luxsoft/price/processor/throttler/PricePublisher.java:71-76 | No subscriber is dispatched twice; the in-progress list stays free of duplicates |
| `Publisher.StepShape` | src/main/java/ru/luxsoft/price/processor/throttler/PricePublisher.java:67-72 | One iteration turns the rotation once and adds or removes no queue |
| `Publisher.PassRotates` | src/main/java/ru/luxsoft/price/processor/throttler/PricePublisher.java:66-70 | The rotation is polled and re-appended k <= n times; the set of queues is unchanged |
| `Publisher.PassKeepsRotationMembers` | src/main/java/ru/luxsoft/price/processor/throttler/PricePublisher.java:66-70 | A pass keeps each member of its rotation, as often as before |
| `Publisher.StepFacts` | src/main/java/ru/luxsoft/price/processor/throttler/PricePublisher.java:67-80 | One iteration keeps marks and queue keys, appends at most one task, marks its subscriber, polls its price and leaves other queues alone |
| `Publisher.PassLeavesOtherQueues` | src/main/java/ru/luxsoft/price/processor/throttler/PricePublisher.java:71-72 | Only the queues of newly dispatched subscribers change |
| `Publisher.PassPollsQueues` | src/main/java/ru/luxsoft/price/processor/throttler/PricePublisher.java:72-77 | Each new task carries the price polled from its queue, and exactly that entry leaves the queue |
| `Publisher.PassPollsHighest` | src/main/java/ru/luxsoft/price/processor/throttler/PricePublisher.java:72 | A dispatched price has priority at least that of every entry its queue held |
| `Publisher.PassSafeWhenRegistered` | src/main/java/ru/luxsoft/price/processor/throttler/PricePublisher.java:67-75 | With only registered subscribers in the rotation, a pass never meets a missing queue |
| `Publisher.UnregisteredHeadFailsPass` | src/main/java/ru/luxsoft/price/processor/throttler/PricePublisher.java:71-72 | An idle unregistered head makes `getNextPrice` throw (outcome NoQueue) |
| `Publisher.SlowTasksStaySlow` | src/main/java/ru/luxsoft/price/processor/throttler/PricePublisher.java:94-99 | Appending fast tasks, or slow tasks for registered SLOW subscribers, keeps every slow task's subscriber registered and SLOW |
| `Publisher.FastPassKeepsHealthy` | src/main/java/ru/luxsoft/price/processor/throttler/PricePublisher.java:63-84 | On a registry in shape the fast pass cannot throw, keeps the shape and keeps slow tasks with SLOW subscribers |
| `Publisher.SlowPassKeepsHealthy` | src/main/java/ru/luxsoft/price/processor/throttler/PricePublisher.java:86-112 | The same for the slow pass |
| `Publisher.CompletionKeepsMatched` | src/main/java/ru/luxsoft/price/processor/throttler/PricePublisher.java:79 | Removing the finished task's mark keeps the in-progress list duplicate-free and matched to the remaining tasks |
| `Publisher.CompletionKeepsSlowTasks` | src/main/java/ru/luxsoft/price/processor/throttler/PricePublisher.java:104-107 | A finished task's promotion leaves the other slow tasks with SLOW subscribers |
| `Publisher.PricePublisher.constructor` | src/main/java/ru/luxsoft/price/processor/throttler/PricePublisher.java:31-37 | Stores pool sizes, bound and registry; nothing is in progress |
| `Publisher.PricePublisher.Iterate` | src/main/java/ru/luxsoft/price/processor/throttler/PricePublisher.java:67-80 | One loop iteration does exactly what `Step` specifies, returning the method's early exit if any |
| `Publisher.PricePublisher.PublishToFastSubscribers` | src/main/java/ru/luxsoft/price/processor/throttler/PricePublisher.java:63-84 | The new queues, fast rotation, in-progress list and tasks are `Pass` over the fast rotation with the free threads |
| `Publisher.PricePublisher.PublishToSlowSubscribers` | src/main/java/ru/luxsoft/price/processor/throttler/PricePublisher.java:86-112 | The same over the slow rotation, with the capacity taken from the fast pool |
| `Publisher.PricePublisher.Tick` | src/main/java/ru/luxsoft/price/processor/throttler/PricePublisher.java:45-50 | Fast pass, then slow pass, unless the fast one threw; a NoQueue outcome stops all later ticks; a healthy publisher stays healthy and never halts |
| `Publisher.PricePublisher.CompleteTask` | src/main/java/ru/luxsoft/price/processor/throttler/PricePublisher.java:77-108 | The callback runs once with the task's pair and rate. A FAST slow-lane task promotes its subscriber. The task and one in-progress mark are removed |
| `Throttler.PriceThrottler.constructor` | src/main/java/ru/luxsoft/price/processor/throttler/PriceThrottler.java:29-43 | Fresh ledger, registry and publisher, all empty, with the given pool sizes and bound |
| `Throttler.PriceThrottler.OnPrice` | src/main/java/ru/luxsoft/price/processor/throttler/PriceThrottler.java:45-48 | The ledger records the pair, and every registered queue coalesces the ledger's next price |
| `Throttler.PriceThrottler.Subscribe` | src/main/java/ru/luxsoft/price/processor/throttler/PriceThrottler.java:50-52 | Registered SLOW with an empty queue, so it sees no earlier price |
| `Throttler.PriceThrottler.Unsubscribe` | src/main/java/ru/luxsoft/price/processor/throttler/PriceThrottler.java:54-56 | No queue and no rapidity entry remain; one slot leaves each rotation |
| `Throttler.TwoUpdatesCoalesce` | src/main/java/ru/luxsoft/price/processor/throttler/PriceThrottler.java:45-48 | Two updates for a pair leave one entry: the second rate, priority one above the first; other pairs untouched |
| `Throttler.UnsubscribeDuringSlowDeliveryHalts` | src/main/java/ru/luxsoft/price/processor/throttler/PricePublisher.java:104-107 | With one subscriber, unsubscribing during its slow delivery that turns out FAST makes the next tick's fast pass throw, and the ticks stop |

## Left out

- Thread pools, the scheduled executor, `start`'s timer, `shutdown` and `awaitTermination` are not modelled.
  - A tick is an explicit call of `Publisher.PricePublisher.Tick`.
  - A pool is its core size plus the active count `getActiveCount()` reports; the active count is a parameter of each pass.
  - `execute` only records the task, and the task body runs in `CompleteTask`.
- Concurrency, `synchronized` and the concurrent maps are not modelled: the model is sequential. The race between `contains` and `add` on the in-progress list cannot be expressed.
- The stopwatch of `executeTask` is not modelled: the elapsed time is a parameter of `CompleteTask`.
- Exceptions thrown by a subscriber's `onPrice` are not modelled.
  - Because the task bodies have no `finally`, such an exception would leave the subscriber marked in progress for good.
  - `Publisher.PricePublisher.CompleteTask` models only normal completion.
- The `double` rate is not modelled as a floating-point value. It is a `real` that is carried, never computed with.
- `printStats`, logging and `System.out` are not modelled; they are diagnostics only. So are `getPriceProcessors`, `getProcessorQueue` and `getRapidity`, used only by `printStats`.
- The `PriceProcessor` interface is modelled as an identity (`nat`): the registry only compares subscribers.
- `Container.PollIndex`: among entries of equal priority the model polls the earliest one in queue order, and the second ensures of `Container.PollIndexHighest` promises that.
  - `PriorityBlockingQueue.poll` promises only an entry of highest priority, and its binary heap may pick another one. After adding A, B and C at priority 0, Java polls A then C; the model polls A then B.
  - The contracts that rest on this choice are those naming `PollIndex`: `Container.PriceProcessorsContainer.GetNextPrice`, `Publisher.Dispatch` through `Publisher.Step` and `Publisher.Pass`, `Publisher.PassPollsQueues`, and the publishing methods proved equal to `Pass`.
  - `Publisher.PassPollsHighest` and the first ensures of `Container.PollIndexHighest` hold for any highest-priority choice.
- `Price.StringHash`: the model hashes Dafny `char` values. Java hashes UTF-16 code units, so a pair outside the Basic Multilingual Plane would hash differently.
- `Price.SetPriority`: `setPriority` mutates the price. It is called only by the factory, on a fresh object before the object is shared, so the model uses a value update.
- `Container.PriceProcessorsContainer.GetNextPrice` requires a registered subscriber.
  - In the Java, an unregistered one makes the method throw `NullPointerException`.
  - The publisher checks this before calling and models the throw as the pass outcome `NoQueue`.
- `Throttler.PriceThrottler.constructor` requires both parallelisms to be at least 1. `Executors.newFixedThreadPool` throws on anything smaller, and that failure is not modelled.
- `PriceFactory.LedgerCountsCalls` and `PriceFactory.NthCallReturnsN` hold only up to 2^31 - 1 calls for a pair. The wrap beyond that is stated separately in `PriceFactory.PriorityWrapsAfterMaxInt`.
- `Publisher.PricePublisher.Tick` promises health preservation (registry in shape, slow tasks with SLOW subscribers) only for a publisher that is already healthy. `Throttler.UnsubscribeDuringSlowDeliveryHalts` shows how an unhealthy one fails.
- The pool's `slowCoreSize` is stored but never read: the slow pass takes its capacity from the fast pool.

## Where the code and its design disagree

The model follows the code in each case.

- The doc comment of `PriorityPrice` says a lower priority is processed first. The comparator hands out the HIGHER priority first (`Price.CompareTo`, `Container.PollIndexHighest`).
- A second `subscribe` of the same subscriber is not ignored: it resets the queue and puts a second copy in the slow rotation (`Container.PriceProcessorsContainer.AddProcessor`).
- A promotion is not idempotent: each call appends to the fast rotation again (`Container.PriceProcessorsContainer.MarkProcessorAsFast`).
- Clearing the in-progress mark is not guaranteed: the task bodies have no `finally`.
- `publishToSlowSubscribers` computes its free threads from the FAST pool (`PricePublisher.java:87`), not the slow one. `Publisher.PricePublisher.PublishToSlowSubscribers` models that as written.
- The promotion does not check that the subscriber is still registered.
  - Unsubscribing a subscriber whose slow delivery is in flight can re-insert it into the fast rotation without a queue, if that delivery then turns out FAST.
  - The first later fast pass that reaches that subscriber while it is idle then throws, and `scheduleWithFixedDelay` runs no further tick.
  - A pass may never reach it: with no free threads, or when it stops earlier at an idle subscriber with an empty queue.
  - `Throttler.UnsubscribeDuringSlowDeliveryHalts` walks through this with one subscriber.
