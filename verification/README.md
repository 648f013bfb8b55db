# Redis queue plugin: sharding, failover and redelivery

This project models the parts of the Redis queue plugin where state can go wrong, and proves what
keeps it right. Three parts of the repository are modelled.

**The shard allocator** (`redis_queue/v1_0/utils.py`) routes every recipient key to one plugin
instance ("uid"), notices a stale owner with a backlog, and drains all its keys to the others. The
two ownership maps, the pending counts, the access stamps, the round-robin iterator and the per-key
queues live in Redis and have to agree.

- `Shards`: the Redis structures and one call of the allocator, as functions on their value.
- `Ownership`: what one call keeps, moves and counts. `RoundRobin`: fairness of the iterator.
- `ShardRuns`, `ShardTheorems`: all runs of producers and workers (`redis_queue/v1_0/inbound.py`)
  with a producer call as one step and a worker's decrement as one step, every other Redis command
  being its own step.
- `ShardCommands`, `CallRefinement`: the same call command by command, with worker commands
  (registrations included) between any two of them, and the proof that an uninterrupted call is a run
  of its commands that ends where the one step above does.
- `CommandCounts`: ShardRuns with the call taken apart into those commands and the worker's decrement
  into its HGET and HSET. Pending counts and queues stay covered at this granularity too.
- `SplitDecrement`: the worker's HGET and HSET as two steps. Runs whose HSETs find the count that was
  read are runs of ShardRuns; what a late HSET loses, exactly, and a run that loses a message's count.
- `CommandFailover`: failover command by command, in the runs of `CommandCounts`.
- `Bystanders`: one call that may assign and drain, beside any number of calls that do neither.
- `OverlappingCalls`, `OverlapSchedules`: two whole calls at the same time, command by command, workers
  anywhere, of which neither drains. Which schedules leave the ownership maps in agreement, and which
  pairs of calls are safe under every such schedule.
- `OverlapDrains`: with drains no pair of overlapping calls is safe under every schedule.
- `FieldNames`: the text of hash fields, list names and joined recipient keys.
- `ShardStore`: the allocator, the relay's send loop (`redis_relay/relay/relay.py`) and the worker's
  round as methods that change a `Redis` object, its pending hash and its lists keyed by text. Each
  method is tied to the steps of `ShardRuns`.

**The delivery service** (`redis_deliverer/deliver/deliver.py`) pops the outbound list, posts, and
schedules failed messages in a sorted set that every deliverer polls.

- `Retries`: any number of deliverers, one Redis command or POST a step.
- `RetryOutcomes`: what each status does, and the order of the outbound list.
- `RetrySafety`, `RetryProgress`, `RetryTiming`, `RetryFairness`, `RetryLateness`: nothing lost, nothing
  duplicated, at most so many attempts, not too early, nobody starved, not too late.
- `DeliveryService`: the loops of one deliverer as methods over the shared lists.

**The codecs**: `Base64` (RFC 4648, sections 4 and 5, with the padding repair of `b64_to_bytes`),
`Base64Bits` (what that text is, bit by bit) and `OutboundPayload` (the record a retry re-encodes and
decodes).

## Assumptions

- A registering uid was never used before and has no underscore (uuid4).
- HKEYS lists the fields in some order without duplicates that changes only when the field set does;
  a Python `list(set)` is in any order.
- A Redis error means the command was not applied.
- There is one clock, and it never goes back.
- Messages are well formed, and JSON text is a lossless form of the records used.
- Real numbers stand for the floating-point waits: `w` with `w * w * (w * w) == 5^(k + 3)`.

## Where the code and its documentation differ

The model follows the code.

- A uid without an access stamp counts as stale (`redis_queue/v1_0/utils.py:177-178`), although
  `redis_queue/README.md:27` says it does not. A gap of exactly 15 whole seconds is stale too.
- The iterator wraps when the next value reaches the length of the list
  (`redis_queue/v1_0/utils.py:91-94`), not when it exceeds it (`redis_queue/README.md:37`).
- A pending count is moved whenever it exists, zero included (`redis_queue/v1_0/utils.py:150-155`),
  not only from one up (`redis_queue/README.md:53`).

## Model

| member | source | states |
|---|---|---|
| ShardCommands.OwnershipAgrees | redis_queue/v1_0/utils.py:99-211 | per command, one call in flight, workers anywhere: whenever no call is in flight, key k maps to u exactly when k is in u's list, and no key is in two lists |
| ShardCommands.CommandKeeps | redis_queue/v1_0/utils.py:67-211 | each of the call's Redis commands keeps the ownership invariant of its program point, so a half-done move is known exactly |
| ShardCommands.WorkerKeeps | redis_queue/v1_0/inbound.py:66-135 | registering, stamping and overwriting any count keep that invariant at every point of a call |
| ShardCommands.AgreesUnlessMidway | redis_relay/relay/relay.py:353-356 | per command: a call that ends part way leaves the maps in agreement if and only if it does not stop between recording an owner and writing the owner's list |
| Bystanders.HarmlessCommand | redis_queue/v1_0/utils.py:171-210 | a command of a call that neither assigns nor drains is, to another call, at most a worker's count write |
| Bystanders.CrowdAgrees | redis_queue/v1_0/utils.py:159-211 | with any number of such calls beside one that may do both, the maps agree if and only if that one is not between recording an owner and writing the owner's list |
| CallRefinement.CallRefines | redis_queue/v1_0/utils.py:159-211 | the commands of an uninterrupted call are a possible run of ShardCommands and leave exactly the database of the one-step call |
| CommandCounts.CommandsCoverLoad | redis_queue/v1_0/utils.py:137-155 | per command, one call in flight, each HSET finding the count read: a key's queued, allocated and popped but unaccounted messages are at most the owner's count, or the count the call carries while it is in no field; popped then queued is what was pushed |
| CommandCounts.CommandsStaySound | redis_queue/v1_0/utils.py:99-156 | per command: ownership maps and counts are in order, and no queue is an orphan, if and only if the call is not inside an assignment's or a move's writes, so always when none is in flight |
| OverlappingCalls.DifferentKeysAgree | redis_queue/v1_0/utils.py:103-111 | every interleaving of two calls for different keys, neither draining, workers anywhere: from the moment both have their uid to the end of both, the maps agree if and only if the calls were never both between reading and writing the same uid's list |
| OverlappingCalls.SameKeyAgrees | redis_queue/v1_0/utils.py:99-114 | every interleaving of two calls for one key, neither draining, workers anywhere: likewise, if and only if both got the same uid |
| OverlappingCalls.FreshNeverDrains | redis_queue/v1_0/utils.py:175-182 | two calls that each find their owner's stamp fresh drain nobody |
| OverlapSchedules.SafePairs | redis_queue/v1_0/utils.py:171-210 | two whole calls leave the maps in agreement under every schedule in which neither drains, registrations included, if and only if one of their keys has an owner when they begin |
| OverlapSchedules.SafePairsAmongRegistered | redis_queue/v1_0/utils.py:86-94 | if neither drains and nobody registers meanwhile, exactly these pairs too: two calls for one key with a single worker or an iterator out of range; with nobody registered both wait |
| OverlapSchedules.DifferentKeysClash | redis_queue/v1_0/utils.py:103-111 | a schedule of two whole first calls for different keys, from any state with a worker, that overlaps the read-write windows on one list |
| OverlapSchedules.NewcomerSplits | redis_queue/v1_0/utils.py:74-86 | a schedule of two whole first calls for one key, from any state with a worker, that assigns it to two uids |
| OverlapDrains.AssignDuringDrain | redis_queue/v1_0/utils.py:103-148 | from any database that gives one key an owner and the other none, at any instant 15 s after the last stamp, a schedule in which an assignment writes back a list the drain has just emptied |
| OverlapDrains.DrainIntoDrain | redis_queue/v1_0/utils.py:117-148 | from any database that gives the keys different owners, a schedule in which one drain moves a key into a list the other has read and then overwrites |
| OverlapDrains.DrainedTwice | redis_queue/v1_0/utils.py:117-148 | from any database that gives both keys one owner, a schedule in which both drains move the same key, to different uids |
| OverlapDrains.DrainsBreakEveryPair | redis_queue/v1_0/utils.py:159-211 | so with drains no condition on the database makes two overlapping calls safe under every schedule, not even with the clock standing still at any instant late enough |
| ShardTheorems.PendingCoversLoad | redis_queue/v1_0/utils.py:209-210 | in every reachable state a key's queued, allocated but unpushed and popped but unaccounted messages are at most its owner's pending count |
| ShardTheorems.NoOrphans | redis_queue/v1_0/utils.py:198-211 | a non-empty queue has a registered owner that lists its key, a count exists only for an owning pair, a key is in one list |
| ShardTheorems.PerKeyFifo | redis_queue/v1_0/utils.py:211 | popped followed by queued is what was pushed, for every key, across changes of owner (ShardStore ties the per-key lists to the lists by name) |
| ShardTheorems.FailoverNeverMissed | redis_queue/v1_0/utils.py:175-208 | a stale owner with one message waiting anywhere loses all its keys to registered others and is deregistered by the next call for any of its keys |
| CommandFailover.FailoverByCommand | redis_queue/v1_0/utils.py:183-208 | per command: a call that has judged its owner stale, with another worker registered and a message of one listed key waiting until its count is read, ends with the owner deregistered and all its keys with registered others, whatever workers do meanwhile |
| ShardTheorems.OnlyStaleBackloggedMove | redis_queue/v1_0/utils.py:175-202 | a key changes owner only if its owner is stale, has a backlog, is not alone, and is the one the call started from |
| ShardTheorems.RetiredForEver | redis_queue/v1_0/utils.py:203-208 | a removed uid never owns a key again in any run |
| ShardTheorems.SelectionNeverWaits | redis_queue/v1_0/utils.py:67-96 | once a worker has registered the registry is never empty, and a selection yields a registered uid, not the ignored one if there are two |
| ShardTheorems.StaleWindow | redis_queue/v1_0/utils.py:14-25 | truncation to seconds: stale exactly from 15 s after the stamp's second began, so always at 15 s and never within 14 |
| ShardTheorems.StaleExactly | redis_queue/v1_0/utils.py:175-182 | in every reachable state a worker is stale if and only if it has no stamp or 15 s have passed since its stamp's second began |
| ShardTheorems.LongGapIsStale | redis_queue/v1_0/utils.py:175-182 | in every reachable state a worker unstamped, or stamped 15 s ago or more, is stale |
| ShardTheorems.CalmRunsKeepOwners | redis_queue/v1_0/utils.py:175-202 | if every call finds its owner stamped at most 14 s ago, no key ever changes owner |
| ShardTheorems.LoneWorkerKeepsAll | redis_queue/v1_0/utils.py:117-156 | draining a lone worker restores ownership and counts; only the iterator and the message's own count differ |
| ShardRuns.CallConserves | redis_queue/v1_0/utils.py:137-155 | a call raises its key's count by one, no other count wherever the key went, and so the grand total by one |
| ShardRuns.AccountKeeps | redis_queue/v1_0/inbound.py:123-135 | an atomic decrement keeps the run invariant even when the key has moved on meanwhile |
| ShardRuns.RunKeeps | redis_queue/v1_0/inbound.py:66-135 | every run keeps ownership, coverage, order and stamps together |
| SplitDecrement.LateWriteIsAtomic | redis_queue/v1_0/inbound.py:124-135 | the late HSET does what one atomic decrement would if and only if the count is still the one read (or both leave nothing to lower) |
| SplitDecrement.SteadyRefines | redis_queue/v1_0/inbound.py:124-135 | a run with separate HGETs and HSETs, each HSET finding the count read, is a run of ShardRuns with each decrement at its HSET |
| SplitDecrement.SteadyRunsReach | redis_queue/v1_0/inbound.py:124-135 | so such runs keep ownership, coverage, order and stamps |
| SplitDecrement.LateWriteSound | redis_queue/v1_0/inbound.py:124-135 | a late HSET leaves counts with owners only if and only if the worker still owns the key |
| SplitDecrement.LateWriteCovers | redis_queue/v1_0/inbound.py:124-135 | it leaves every message counted if and only if no more messages were on their way than the count read |
| SplitDecrement.RisenCountLoses | redis_queue/v1_0/inbound.py:124-135 | where the count was exact, if and only if it has not risen since the HGET |
| SplitDecrement.LostUpdate | redis_queue/v1_0/inbound.py:131-135 | a run from the empty store of one worker and two sends that ends with a queued message and a count of 0 |
| Ownership.ReassignMoves | redis_queue/v1_0/utils.py:117-156 | one move keeps registrations, counts and their sum, gives the key to a registered uid, and with old and new equal changes only the iterator |
| Ownership.DrainMoves | redis_queue/v1_0/utils.py:198-202 | a drain keeps every count and, with another uid registered, leaves none of the listed keys behind |
| Ownership.DrainAlone | redis_queue/v1_0/utils.py:198-202 | a drain with one uid registered restores everything but the iterator |
| Ownership.SettleSettles | redis_queue/v1_0/utils.py:171-208 | a call before it counts: who owns what, which counts, who is still registered, drain or no drain |
| Ownership.SelectYields | redis_queue/v1_0/utils.py:74-95 | a selection takes the uid at the iterator, or the head past the end, from the registry without the ignored uid in its order (unless that is the only one), and stores the next place or 0 |
| RoundRobin.FullRound | redis_queue/v1_0/utils.py:86-94 | from an in-range iterator, n selections over n uids pick each once and bring the iterator back |
| RoundRobin.PicksBalanced | redis_queue/v1_0/utils.py:86-94 | any number of selections is balanced to within one |
| RoundRobin.PicksNearlyBalanced | redis_queue/v1_0/utils.py:86-94 | to within two from an iterator out of range |
| RoundRobin.OvershootRepeatsHead | redis_queue/v1_0/utils.py:88-94 | any iterator out of range picks the head twice and then every other candidate once, so the bound of two is met |
| RoundRobin.DrainFollowsPicks | redis_queue/v1_0/utils.py:199-200 | the new owners of drained keys are successive selections over one list of survivors |
| RoundRobin.DrainSpreadsEvenly | redis_queue/v1_0/utils.py:198-202 | so survivors gain numbers of keys that differ by at most one, or two from an iterator out of range |
| FieldNames.FieldInjective | redis_queue/v1_0/utils.py:112 | a field of the pending hash determines uid and key for uids without underscore |
| FieldNames.FieldClash | redis_queue/v1_0/utils.py:112 | with underscores in a uid two pairs can share a field |
| FieldNames.NameText | redis_queue/v1_0/utils.py:209-211 | a field is the uid, an underscore and the key, a list name the topic, an underscore and the key, place by place |
| FieldNames.GetField | redis_queue/v1_0/utils.py:138-140 | HGET on the flat hash reads the pair's count |
| FieldNames.PutField | redis_queue/v1_0/utils.py:113 | HSET and HINCRBY on the flat hash change the one pair they name |
| FieldNames.DropField | redis_queue/v1_0/utils.py:141 | HDEL on the flat hash removes the one pair it names |
| FieldNames.TopicInjective | redis_queue/v1_0/utils.py:211 | under one topic the name of a list determines the key, and does not mention the owner |
| FieldNames.PutQueue | redis_queue/v1_0/inbound.py:97-100 | RPUSH and BLPOP by name change the list of the one key they name |
| FieldNames.JoinInjective | redis_queue/v1_0/utils.py:162 | comma-free kid lists join to the same key only if equal, or if they are the empty list and the list of one empty kid |
| FieldNames.JoinText | redis_queue/v1_0/utils.py:162 | a join is the kids in their order with one comma between each two and nothing else, place by place, commas in kids or not |
| ShardStore.Redis.TrySelect | redis_queue/v1_0/utils.py:72-95 | one pass of the selection loop: which uid it takes and which iterator it stores, place by place, or nothing while nobody is registered |
| ShardStore.Redis.GetNewValidUid | redis_queue/v1_0/utils.py:67-96 | with anyone registered the loop takes that uid at once, otherwise the first arrival |
| ShardStore.Redis.AssignRecipKeyToNewUid | redis_queue/v1_0/utils.py:99-114 | the new state is the assignment function of the old |
| ShardStore.Redis.ReassignRecipKeyToUid | redis_queue/v1_0/utils.py:117-156 | the new state is the move function of the old, old and new uid equal or not |
| ShardStore.Redis.HasBacklog | redis_queue/v1_0/utils.py:186-197 | the scan with its break finds a pending key exactly if there is one |
| ShardStore.Redis.DrainUid | redis_queue/v1_0/utils.py:199-202 | the loop performs the whole drain and follows the message's key |
| ShardStore.Redis.SettleKey | redis_queue/v1_0/utils.py:175-208 | stale check, scan, drain and removal together settle the key as specified |
| ShardStore.Redis.ProcessPayloadRecipKey | redis_queue/v1_0/utils.py:159-211 | one call is one Allocate step of the runs, keeps their invariant and returns the topic, an underscore and the joined kids |
| ShardStore.Redis.SendMessage | redis_relay/relay/relay.py:353-363 | after any number of failed pushes the message is queued exactly once, last, and each attempt was counted once |
| ShardStore.Redis.RegisterUid | redis_queue/v1_0/inbound.py:66-70 | a registration is one Register step |
| ShardStore.Redis.AwaitPop | redis_queue/v1_0/inbound.py:94-107 | five failed pops are survived, the sixth ends the worker |
| ShardStore.Redis.ServeKey | redis_queue/v1_0/inbound.py:93-135 | a visit to a key is no step, a pop, or a pop, stamp and decrement, according to faults, queue and record |
| ShardStore.Redis.ServeRound | redis_queue/v1_0/inbound.py:73-135 | a round takes the first message of each of the worker's waiting keys, lowers the count by one for each decoded one, and touches nothing else |
| RetrySafety.NothingLost | redis_deliverer/deliver/deliver.py:111-126 | in every run every accepted content is queued, in a POST, being scheduled, stored, in hand, delivered or given up, merged entries included |
| RetrySafety.StepCarries | redis_deliverer/deliver/deliver.py:191-218 | each step takes a content from its place to a definite next place |
| RetrySafety.ExactlyOnePlace | redis_deliverer/deliver/deliver.py:171-218 | with distinct contents that place is unique at all times |
| RetryProgress.RequeuedOnce | redis_deliverer/deliver/deliver.py:192-213 | an entry is re-queued at most once, however many deliverers hold the same rows |
| RetryProgress.AttemptBound | redis_deliverer/deliver/deliver.py:111-126 | a message with r <= 5 retries is posted at most 6 - r times, a POST still open included, given up only after exactly 6 - r failures, delivered by its last post |
| RetryProgress.StepLowers | redis_deliverer/deliver/deliver.py:64-218 | without arrivals every productive step lowers a measure no other step raises |
| RetryProgress.RunTerminates | redis_deliverer/deliver/deliver.py:64-218 | so a run without arrivals has at most that many productive steps |
| RetryOutcomes.StepOutcome | redis_deliverer/deliver/deliver.py:93-128 | a POST that ends with a status from 200 to 299 delivers; any other end schedules retry r + 1 below five retries and gives up from five |
| RetryOutcomes.OutcomesByStatus | redis_deliverer/deliver/deliver.py:93-128 | over any run the delivered and the given-up messages are exactly those, in order |
| RetryOutcomes.OutboundFifo | redis_deliverer/deliver/deliver.py:72-206 | over any run what is popped followed by what is queued is what was queued and appended, in order |
| RetryTiming.NeverRequeuedEarly | redis_deliverer/deliver/deliver.py:154-165 | an entry with counter k is re-queued more than 5^((k+3)/4) - 1 seconds after its score was computed, by stale rows too |
| RetryTiming.GivenUpLate | redis_deliverer/deliver/deliver.py:113-126 | a message injected without retries is given up more than 60 s after its first failure |
| RetryTiming.WaitBound | redis_deliverer/deliver/deliver.py:154-158 | lower bounds of the five waits |
| RetryLateness.FirstAndLastWait | redis_deliverer/deliver/deliver.py:154-158 | the wait before retry 1 is 5 s and no other, before retry 5 it is 25 s and no other |
| RetryLateness.MiddleWaits | redis_deliverer/deliver/deliver.py:154-158 | the waits between lie within a hundredth of a second of 7.47, 11.18 and 16.71 s |
| RetryLateness.ScoreAtMost | redis_deliverer/deliver/deliver.py:154-165 | in every run counters of entries run from 1 to 5 and a score is at most 5, 7.48, 11.19, 16.72 or 25 s after it was computed |
| RetryLateness.NotTooLate | redis_deliverer/deliver/deliver.py:154-218 | with one deliverer an entry whose wait is over, with d entries before it, is re-queued within d / 10 + 1 polling rounds begun from then on |
| RetryFairness.NoStarvation | redis_deliverer/deliver/deliver.py:173-218 | with one deliverer whose ZADDs arrive before their entries are due, a due entry with d entries before it is re-queued within d / 10 + 1 polling rounds begun from then on |
| RetryFairness.QuickIsPrompt | redis_deliverer/deliver/deliver.py:154-165 | a ZADD applied up to 4 seconds after its score was computed arrives before its entry is due |
| DeliveryService.Deliverer.AddRetry | redis_deliverer/deliver/deliver.py:149-169 | the entry is stored once, scored by the attempt that succeeded plus the wait of its retry, in whole seconds and in numbers for each of the five |
| DeliveryService.Deliverer.ProcessDelivery | redis_deliverer/deliver/deliver.py:68-127 | one pass delivers on a status from 200 to 299, and otherwise schedules with one more retry below five or gives up |
| DeliveryService.Deliverer.ZRangeByScore | redis_deliverer/deliver/deliver.py:176-184 | the entries with a score from 0 to the current second in (score, member) order, all of them or the first ten |
| DeliveryService.Deliverer.ProcessRow | redis_deliverer/deliver/deliver.py:192-213 | the row is pushed if and only if this deliverer removed it |
| DeliveryService.Deliverer.ProcessRetries | redis_deliverer/deliver/deliver.py:173-218 | an undisturbed pass moves the batch to the outbound list in order, and the batch holds every due entry or ten |
| Base64Bits.EncodeText | redis_deliverer/deliver/deliver.py:119-121 | the text of an encoding, character by character: the table of RFC 4648 section 5 at bits 6i to 6i + 5, zeros after the last byte, then '=' |
| Base64Bits.DecodeText | redis_queue/v1_0/utils.py:28-37 | the bytes read from any text of the tables are its bits, eight to a byte, with padding repaired or as whole groups |
| Base64.EncodeDecodes | redis_deliverer/deliver/__init__.py:51-55 | decoding undoes encoding for every byte string |
| Base64.StrippedRoundTrip | redis_queue/v1_0/utils.py:28-37 | it still does after any of the trailing '=' are dropped |
| Base64.RepairReach | redis_queue/v1_0/utils.py:32-36 | the repairing decoder takes an unpadded text if and only if its length is not 4n + 1 |
| Base64.PlainReach | redis_queue/v1_0/utils.py:37 | without repair only whole groups decode |
| Base64.NonAsciiFails | redis_queue/v1_0/utils.py:30-31 | text outside ASCII is refused |
| OutboundPayload.CyclesOnlyCount | redis_deliverer/deliver/deliver.py:115-124 | url, headers and payload survive any number of fail, re-encode, decode cycles; only the counter moves |
| OutboundPayload.OutboundDecodes | redis_queue/v1_0/outbound.py:93-101 | a produced record decodes to its message with no retries used |
| OutboundPayload.WrittenText | redis_deliverer/deliver/deliver.py:115-124 | the record written: url and headers as they are, the payload's bits in the table of section 5, the counter one up, or absent from a producer's record |
| OutboundPayload.DefaultsDecode | redis_deliverer/deliver/__init__.py:40-44 | a record without headers and counter decodes to no headers and 0 retries |
| OutboundPayload.PayloadNotRepaired | redis_deliverer/deliver/__init__.py:51-55 | this decoder repairs nothing: an unpadded payload decodes as whole groups only |
| OutboundPayload.MemberInjective | redis_deliverer/deliver/deliver.py:159-161 | two retry entries have the same text if and only if they are the same message with the same counter |
| OutboundPayload.TextCommands | redis_deliverer/deliver/deliver.py:162-195 | ZADD and ZREM by text change the one entry they name, and ZREM's count tells whether it was there |

## Left out

- Redis client, cluster, sockets, HTTP sessions, logging, signals: commands are atomic and outcomes are chosen freely.
- JSON syntax and the base64 text around stored key lists: a stored list is a set of keys listed in any order.
- The WebSocket branch of the delivery loop, unsupported schemes and their uncaught exceptions: only http and https messages are modelled.
- Malformed packed messages. A Redis error that ends an allocator call is a step of ShardCommands and CommandCounts, but no run goes on after one that left an assignment or a move half done.
- A deliverer that crashes between ZREM and RPUSH loses its entry; crashes are not steps of the delivery service.
- What a worker does with a decoded message: sessions, direct responses and parse failures after the decrement.
- The relay's waiting for direct responses, status endpoints, events, configuration, demos.
- Two overlapping producer calls of which one drains: OverlapDrains shows that they can break the maps, not which schedules do.
- Two topics in one store; all lists of the model are under one topic.
- Time zones, daylight saving and clock skew between hosts.
- ShardTheorems.PendingCoversLoad: takes a producer call and a decrement as one step each; CommandCounts.CommandsCoverLoad is the statement per command.
- ShardTheorems.NoOrphans: takes a producer call and a decrement as one step each; CommandCounts.CommandsStaySound is the statement per command.
- ShardRuns.RunKeeps: takes a producer call and a decrement as one step each; the modules CommandCounts and SplitDecrement take them apart.
- ShardRuns.AccountKeeps: takes HGET and HSET as one step; SplitDecrement.LateWriteIsAtomic says when they are.
- CommandCounts.CommandsCoverLoad: takes runs whose HSETs find the count their HGET read; SplitDecrement says exactly what the others lose.
- CommandCounts.CommandsStaySound: likewise; the ownership maps alone stay in order in all runs, by ShardCommands.AgreesUnlessMidway.
- ShardStore.Redis.SendMessage: is stated for a sequential run of the loop; interleaving of several producers is covered by the steps of ShardRuns.
- ShardStore.Redis.ServeRound: is stated for a round nobody interrupts; interleaving is covered by the steps of ShardRuns and CommandCounts.
- DeliveryService.Deliverer.ProcessRetries: is stated for an undisturbed pass; rows removed by others in between are covered by ProcessRow and by Retries.
