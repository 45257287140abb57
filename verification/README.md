# Outbox, sessions and polylines

A Dafny model of three parts of the platform and proofs of what they promise.

**Transactional outbox, broker, consumer.** Services insert events into a table in the transaction of the business
write. Relay replicas claim the oldest free rows, publish them outside any transaction with a pool of workers (one
aggregate at a time per worker, its rows in order), and ack: published, released for retry, or poison. A retention sweep
deletes old published rows. A consumer skips what it can never process, retries what failed, and remembers processed
event ids. The model has several views of it, tied to each other:

- `OutboxStore`, `PublishPhase`, `Relay`, `Consumer`: the classes and loops as they run for one caller;
- `OutboxSystem` with `OutboxExclusivity`, `OutboxOrder`, `OutboxOvertaking`, `OutboxOnce`: any number of replicas, one
  SQL statement, send event, log append or clock change a step, with crashes, late sends, late acks, stale re-claims and
  sweeps;
- `OutboxTick`: a tick inside that system does what one call of `drain` does;
- `OutboxDeadline`: the same system with a clock on every send; `OutboxWindow`: exactly which stale window it needs;
  `OutboxPool`: how much less is enough when the worker pool never idles; `PoolTiming`: how long the pool takes on given
  durations;
- `EndToEnd`: from the insert to the handler's state.

**Refresh sessions.** `Redis` holds the keys and their atomic commands. `RefreshStore` and `SessionRevocation` are the
two stores with one call at a time; `RefreshConcurrency` interleaves the commands of any number of calls, and shows that
a call nobody interrupts is the call of the store; `RefreshIndex` says what the interleavings do to the index, and
`RefreshSeal` joins it with the denylist: who can still obtain an access token after a clear.

**Polylines.** `Polyline` is the encoder and decoder of the Google Encoded Polyline Algorithm Format with its 32-bit
arithmetic (`Machine`), `LocalEngine` the street-less router that builds distances and step geometry on it.

Where the code and its comments differ, the model follows the code:

- the comments around the start-up check of the relay say that a publish timeout below the stale window excludes double
  publishing (packages/database/src/outbox-relay.ts:148-157, packages/events/src/outbox.ts:113-114). The check bounds one
  send; a tick sends many rows on one claim. `SlowSendsPublishTwice` is a run with every send inside its timeout and no
  failure that publishes a row twice; `WindowDecidesDoublePublish` says exactly which window excludes that, and
  `WindowDecidesExclusivity` that it is the same that keeps two replicas from holding a row together;
- claims are per row, so per-aggregate order is a property of a single relay that does not crash in a tick:
  `DeliveredInOrder` against `TwoReplicasBreakOrder` and `CrashBreaksOrder`. For any replicas and crashes
  `ClaimDecidesOrder` and `FirstOpenClaimDecides` say exactly which claim puts the order of two rows at risk;
- the comments promise publishing by (`created_at`, `seq`). The claim orders by the stored microseconds, the sort in
  the process by whole milliseconds (packages/database/src/outbox.ts:229, 263-269), so within one millisecond `seq`
  alone decides: `SortDecidesOrder` says of any two events of an aggregate exactly when a lone relay can log them the
  wrong way round;
- the comment on the index lifetime (packages/auth/src/refresh-store.ts:119-124) takes a session to live at most one
  time-to-live from its creation, but a rotation renews the record and not the index: `RevokeAllIsExact` and
  `UnrotatedIsIndexed` against `RotatedSessionEscapes`;
- `revokeAllForUser` deletes the index key two commands after reading it, so a login in between loses its entry:
  `InterleavedLoginEscapes`; `DelDropsNewborn` and `CountIsExact` say exactly which sessions that costs and when the
  count is right, `QuietIndexIsComplete` that it costs nothing else;
- the seal of `revokeAllForUser` is said to kill every session issued before it, also those it did not enumerate
  (packages/auth/src/refresh-store.ts:219-221). It stops access tokens; a session that the index missed keeps its
  refresh record, and its next rotation yields a token issued after the seal: `LiveDecidesToken`, `ClearSparesMissed`;
- a monotone seal covers its user's old tokens unless it meets a higher, future-dated seal about to expire:
  `SealCoverage` against `FutureSealLeavesGap`;
- `encodePolyline` is called an exact inverse of `decodePolyline`; it is one exactly while the deltas fit in 31 bits:
  `GridRoundTrip`, and for all legal lines exactly up to precision 6: `LegalRoundTrip`.

`dafny verify dfyconfig.toml` checks the project.

## Model

| member | source | states |
|---|---|---|
| OutboxSystem.NothingIsLost | packages/database/src/outbox.ts:190-399 | After any run of any number of replicas, with crashes anywhere, stale re-claims, late acks and sweeps, every event ever enqueued is in the log, pending, or a poison row; a deleted row was delivered; the log holds only valid events; a poison row never reached the log and is not also marked published |
| OutboxSystem.RunKeepsInv | packages/database/src/outbox.ts:190-399 | Every step of every run keeps what that rests on: each replica's lists are true of the log and of the validation, each row's marks agree with them, no claim lies in the future |
| OutboxSystem.TerminalIsForGood | packages/database/src/outbox.ts:226-228 | A published or poison row is never claimable again and never loses its mark, whatever any replica, also a stale one with a late ack, does later; it can only be swept |
| OutboxSystem.PendingBecomesClaimable | packages/database/src/outbox.ts:220-235 | In every reachable state a pending row, whoever holds its claim, is in the claim's pool once the stale window has passed |
| OutboxSystem.KeptForRetention | packages/database/src/outbox.ts:387-399 | In every run, from the ack that marks a row published on, whatever any replica acks late or any sweep deletes, the row is in the table with a mark no earlier than that ack until the retention has passed |
| OutboxExclusivity.ClaimsAreExclusive | packages/database/src/outbox.ts:220-235 | In every run in which no replica stays in its tick longer than the stale window, no row is in flight at two replicas and the table shows each replica's own claim on all it holds, although acks check no ownership |
| OutboxExclusivity.OverlapNeedsOverrun | packages/database/src/outbox.ts:220-235 | From exclusively held rows, some possible claim takes a row already in flight if and only if some replica still holding rows has overrun the stale window |
| OutboxExclusivity.SendsAreBounded | packages/database/src/outbox.ts:220-358 | In any run a row is sent at most once, plus once per ack that put it back, plus once per stale re-claim |
| OutboxOrder.DeliveredInOrder | packages/database/src/outbox.ts:251-324 | In any run of a lone relay whose acks succeed: a valid row that the claim and the sort both put before another of its aggregate, and that was not inserted behind it, is in the log before each occurrence of the other, over any failures, batch cuts, retries and sends that land late |
| OutboxOrder.ClosedClaimsKeepOrder | packages/database/src/outbox.ts:220-324 | The same for any number of replicas, crashes and stale re-claims, in every run in which each claim that takes the later row finds the earlier one delivered or takes it too |
| OutboxOvertaking.ClaimDecidesOrder | packages/database/src/outbox.ts:220-324 | In any state of the protocol in which a valid row of an aggregate is in order before another, a claim makes it possible, with no further claim or insert, that the later one is logged with no earlier one in front of it if and only if the claim takes the later row and leaves the earlier one, undelivered, out of the same claim |
| OutboxOvertaking.FirstOpenClaimDecides | packages/database/src/outbox.ts:220-324 | Over whole runs of any replicas with crashes: up to the first claim that is not closed in that sense no continuation without claims and inserts overtakes, and that claim, and only such a claim, changes it |
| OutboxCounterexamples.SlowSendsPublishTwice | packages/database/src/outbox-relay.ts:148-157 | A concrete run, no crash and no failure, three sends of one aggregate answered after 29 999 ms or still under way against a 60 s stale window, after which row 1 is in the log twice |
| OutboxCounterexamples.TwoReplicasBreakOrder | packages/database/src/outbox.ts:220-235 | For every batch size of at least 1 and any two valid events of an aggregate that the claim and the sort put in this order, a run of two replicas with neither crash nor failure after which the log holds the younger event and not the older |
| Outbox.OrdersDisagree | packages/database/src/outbox.ts:263-269 | The order of the claim and the order of the sort agree on two rows if and only if they are not of one millisecond with the older having the higher `seq`; rows a millisecond or more apart are sorted by `created_at`, rows of one millisecond by `seq` |
| OutboxCounterexamples.CrashBreaksOrder | packages/database/src/outbox.ts:220-235 | For every batch size of at least 1 and any two valid events of an aggregate that the claim and the sort put in this order, a run of one relay that crashes once, after which the log holds the younger event and not the older |
| OutboxCounterexamples.OneMillisecondBreaksOrder | packages/database/src/outbox.ts:263-269 | For any two events of one aggregate the sort takes against their `created_at`, a run of a lone relay with no failure that logs the younger alone |
| OutboxCounterexamples.SortDecidesOrder | packages/database/src/outbox.ts:263-269 | For any two valid events of one aggregate, `a` before `b` by `created_at`: some run of a lone relay that inserts `a` and then `b` logs `b` with no `a` in front of it if and only if the sort puts `b` first and a batch holds two rows |
| OutboxTick.TickSortsLikeDrain | packages/database/src/outbox.ts:190-202 | From a claim to the end of its publishing, whatever other replicas, inserts, sweeps and the clock do in between, a replica's three lists are exactly the rows the publish phase makes succeed, stops and poisons |
| OutboxTick.LoneTickIsDrain | packages/database/src/outbox.ts:190-202 | A tick nobody disturbs, acks included, leaves the table that one `drain` of the same rows leaves |
| PublishPhase.GroupByAggregate | packages/database/src/outbox.ts:271-285 | Of sorted rows: every row in one group, one group per aggregate, each group oldest first, groups in the order of their oldest rows |
| PublishPhase.PublishGrouped | packages/database/src/outbox.ts:251-324 | For every concurrency and every order in which the publishes under way are answered the pool ends, and `succeeded`, `failed` and `poisoned` list, once each, the rows that were published, stopped by a transient failure of themselves or an earlier row of their aggregate, and rejected for good; publish was called once for each row with no such failure before it, in key order within an aggregate and beginning the aggregates oldest first; a poisoned event carries its row's event type; it starts with as many publishes under way as the concurrency allows and there are aggregates, never has more, and has fewer only when every aggregate is begun |
| PublishPhase.SequentialVerdict | packages/database/src/outbox.ts:290-312 | The one-row-after-the-other reference lists a row as succeeded, failed or poisoned exactly by what lies before it in its aggregate |
| PublishPhase.SameAsSequential | packages/database/src/outbox.ts:251-324 | Every outcome of the pool, over any order of the claimed rows, lists the ids the sequential reference lists |
| PublishPhase.OutcomePartitions | packages/database/src/outbox.ts:279-323 | Every claimed id is in exactly one of the three lists, once, and nothing else is in any |
| PublishPhase.FailedIsSuffix | packages/database/src/outbox.ts:300-311 | Within an aggregate the failed rows are a suffix in key order and the called rows a prefix |
| PublishPhase.CalledIsPrefix | packages/database/src/outbox.ts:290-312 | A row is called if and only if no earlier row of its aggregate failed: all rows in front of the first failed one, and that one; every row that did not fail was called |
| PublishPhase.SortSorted | packages/database/src/outbox.ts:263-269 | Rows returned in any order come out strictly ascending by (created_at in whole milliseconds, seq) |
| Poison.PoisonIsInvalidPayload | packages/events/src/poison.ts:75-92 | A publish is permanent if and only if the payload fails the schema of its event type, or the broker client throws an Error named ZodError with an array of issues; it is published if and only if the payload is sound and the broker acknowledges; everything else, no answer in time, a thrown value that is no Error, any other Error, is transient |
| OutboxStore.PrismaOutboxStore.Enqueue | packages/database/src/outbox.ts:127-135 | Adds one pending, unclaimed row with the envelope and aggregate and changes no other row |
| OutboxStore.PrismaOutboxStore.Claim | packages/database/src/outbox.ts:220-235 | Returns, each once, the oldest claimable unlocked rows by (created_at, seq) up to the limit, and stamps exactly those |
| OutboxStore.PrismaOutboxStore.Ack | packages/database/src/outbox.ts:337-358 | Leaves the table of the statements sent, none for an empty list, up to the one the database fails in, and says whether it failed |
| OutboxStore.PrismaOutboxStore.Drain | packages/database/src/outbox.ts:190-202 | Claims the oldest rows and leaves each published, released or marked poison by what its publish and the earlier ones of its aggregate came to, all others untouched; returns the number published and the poisoned events; if the database fails, exactly the statements before that have been done |
| OutboxStore.DrainSettlesBySends | packages/database/src/outbox.ts:290-358 | Each row of an undisturbed drain by its payload and what the broker did: released where the broker failed for it or for a row in front of it in its aggregate; otherwise published with the time of the ack if sound and acknowledged, and poison with that time if not sound or refused with a look-alike |
| OutboxStore.BrokerFailureReleases | packages/events/src/poison.ts:75-92 | A claimed row with a sound payload that the broker does not acknowledge, for whatever reason short of that look-alike, is pending and unclaimed after an undisturbed drain |
| OutboxStore.CutDrainLeaves | packages/database/src/outbox.ts:332-335 | Wherever the database fails in a drain, each claimed row is left either claimed as it was taken or as a whole drain leaves it, and no other row is touched |
| OutboxStore.PrismaOutboxStore.SweepPublished | packages/database/src/outbox.ts:387-399 | Deletes only unlocked rows published longer ago than the retention, the oldest by (published_at, seq) up to the batch, nothing else, and answers how many |
| OutboxStore.AckSettles | packages/database/src/outbox.ts:326-358 | The acks of any outcome of the publish phase leave each claimed row settled by its own verdict; the three statements do not get in each other's way |
| OutboxStore.TickLeaves | packages/database/src/outbox.ts:190-202 | After a tick of the only relay the pending rows are the former ones less the claimed rows that were not stopped; it claimed the oldest, and none is left claimed |
| OutboxStore.TickMakesProgress | packages/database/src/outbox.ts:300-311 | A tick of the only relay lowers the pending count if and only if in some aggregate the first row of its batch does not fail transiently, whatever poison is about |
| OutboxStore.CleanTicksDrain | packages/database/src/outbox.ts:190-202 | With no transient failure, n pending rows are all settled after k ticks if and only if n is at most k batches, and otherwise k batches are |
| Relay.OutboxRelay.Create | packages/database/src/outbox-relay.ts:131-157 | A relay starts if and only if its publish timeout is below its stale window |
| Relay.OutboxRelay.Tick | packages/database/src/outbox-relay.ts:174-201 | A tick that finds one running changes nothing; any other drains once, as far as the database lets it, and lowers the guard either way |
| Relay.OutboxRelay.Sweep | packages/database/src/outbox-relay.ts:210-229 | Terminates; deletes an initial part of the published rows in (published_at, seq) order, each past its retention at one of its DELETEs, at most 100 batches, never a pending or poison row; if it deletes less, no row remains that was past its retention at the last DELETE |
| Relay.SweepExtends | packages/database/src/outbox.ts:387-399 | Each further DELETE, at its own cutoff, extends the deleted rows to a longer initial part |
| Relay.PartialBatchExhausts | packages/database/src/outbox-relay.ts:215-220 | A DELETE that takes less than a batch leaves nothing below its cutoff |
| PoolTiming.WorkIsConserved | packages/database/src/outbox.ts:314-321 | No worker idles while groups are waiting: the workers' times add up to the durations handed out |
| PoolTiming.StartBound | packages/database/src/outbox.ts:282-321 | A group starts no later than the durations of the groups before it divided by the number of workers |
| PoolTiming.EndBound | packages/database/src/outbox.ts:314-321 | The phase ends within (all durations + (workers - 1) longest) / workers |
| PoolTiming.PhaseBound | packages/events/src/outbox.ts:91-131 | With each send cut off by the timeout, a batch takes at most (rows + (workers - 1) rows of the largest aggregate) timeouts over the workers |
| PoolTiming.WindowMustHoldBatch | packages/database/src/outbox-relay.ts:148-157 | Every batch of up to so many rows, in which a send that uses up its timeout is the last of its aggregate, is published within the stale window if and only if that many timeouts fit in it, for every concurrency and however finely time is counted |
| OutboxOnce.LoggedOnce | packages/database/src/outbox.ts:220-358 | In every run of any replicas in which no tick outlives the stale window, nothing crashes and nothing fails for a time, no event is in the log twice |
| OutboxWindow.WindowDecidesDoublePublish | packages/database/src/outbox-relay.ts:148-157 | With every send cut off at the publish timeout and nobody pausing between sends, and for any number of workers: no run without crash and transient failure logs an event twice if and only if the stale window holds the claim, a whole batch of timeouts, and the acks |
| OutboxWindow.WindowDecidesExclusivity | packages/database/src/outbox-relay.ts:148-157 | The same window, exactly, keeps every two replicas from ever having a row in flight together, also with crashes and failures |
| OutboxPool.PoolWindowSuffices | packages/database/src/outbox.ts:251-324 | With k workers that never idle while a row may start and at most L rows of one aggregate in a batch of n: a window of the claim, (n + (k - 1) L) / k timeouts and the acks is enough that no two replicas hold a row together and, without crash and transient failure, no event is logged twice |
| OutboxPool.StepsWell | packages/database/src/outbox.ts:314-321 | Every step keeps, for each open row, k times the clock plus the work left plus (k - 1) times the work left in its aggregate within the budget of the batch |
| OutboxDeadline.WideWindowIsExclusive | packages/events/src/outbox.ts:66-77 | Under such a window, in every run that keeps that pace, two replicas never hold a row together |
| OutboxDeadline.StepsOnTime | packages/events/src/outbox.ts:91-131 | Every step keeps each tick within its claim plus one timeout for each row already taken from its queue, and each send under way within that too |
| PoolTiming.DefaultsPassTheCheckAndOverrun | packages/database/src/outbox-env.ts:22-43 | The default settings pass the start-up check and there is a batch that does not fit the window |
| Consumer.KafkaEventConsumer.On | packages/events/src/kafka.ts:117-121 | Registers the handler, replacing only its own event type's, and adds the type's topic |
| Consumer.KafkaEventConsumer.ProcessEventOnce | packages/events/src/dedup.ts:40-52 | A marked event is not run; otherwise it runs and is marked only after success, with each place a failure or crash can cut it short, in the middle of the handler too |
| Consumer.KafkaEventConsumer.EachMessage | packages/events/src/kafka.ts:132-178 | Which messages are skipped, which are handled, with or without the dedup, what is left of each interrupted delivery, and whether the offset advances |
| Consumer.FailureHoldsOffset | packages/events/src/kafka.ts:169-175 | For every handler, with the dedup or without: the offset of a handled message moves if and only if nothing went wrong, and then its handler has run to the end, or its event was marked already |
| Consumer.AtLeastOnce | packages/events/src/kafka.ts:132-178 | After any faults, rewinds and expired marks, every message to be handled below the highest offset ever passed was handled, by a run of its handler to the end or because its event was marked |
| Consumer.MalformedNeverBlocks | packages/events/src/kafka.ts:133-168 | A message is skipped if and only if it is absent, no JSON, no envelope, without handler, or fails its schema; a skipped one changes nothing and is committed, and a delivery without fault always commits |
| Consumer.EffectivelyOnce | packages/events/src/dedup.ts:40-52 | After any redeliveries, failed or half-done attempts, crashes between handler and mark, rewinds and expired marks in which no handler ran for an event older than the latest, once the consumer has caught up the state of a handler that can be repeated is one pass over the valid events of the log, each at its first occurrence |
| Consumer.InTurnDecidesOnce | packages/events/src/dedup.ts:25-52 | After any happenings at all that leave the consumer caught up, that holds of every repeatable handler if and only if no handler ran for an event older than the latest |
| Consumer.MarksKeepTurns | packages/events/src/dedup.ts:25-52 | As long as no mark expires no handler ever runs for an older event, whatever is redelivered, rewound or cut short |
| Consumer.CatchesUp | packages/events/src/kafka.ts:132-178 | From any state of the partition, one faultless delivery for each message left brings the consumer to its end |
| Consumer.ExpiredDuplicateIsHarmless | packages/events/src/dedup.ts:25-50 | After any happenings with handlers run in turn that leave the consumer caught up, an event whose mark expired, published and delivered again, keeps the state of every repeatable handler that of one pass if and only if it is the last event of the log |
| Consumer.ExpiredMarkRevertsState | packages/events/src/dedup.ts:25-50 | A concrete run from the start: with a last-value handler, the duplicate of the first of two events puts its value back after its mark expired |
| EndToEnd.InsertToHandler | packages/events/src/outbox.ts:116-131 | With a lone relay and distinct event ids, a consumer with repeatable handlers that has caught up with its partition, of any topics and keys, is in the state of one pass over the delivered events it handles, each once and none before one that precedes it in its aggregate; if no row routed there is pending these are all its valid events |
| EndToEnd.KeyOrderAscends | packages/events/src/kafka.ts:64-70 | Of two events of one aggregate on which claim and sort agree, that order is ascending (created_at, seq) |
| RefreshConcurrency.RunKeepsInv | packages/auth/src/refresh-store.ts:51-224 | Under every interleaving of commands the record of a live session is the end of its token chain with the times of its login and its last rotation, no token is given twice, and each call's progress is true of the keys |
| RefreshConcurrency.DeadStaysDead | packages/auth/src/refresh-store.ts:148-186 | No step of any call, in any continuation, recreates a session record that is gone |
| RefreshConcurrency.OneWinnerPerToken | packages/auth/src/refresh-store.ts:51-71 | Of all concurrent calls presenting a token at most one is granted a rotation |
| RefreshConcurrency.ReuseKillsSession | packages/auth/src/refresh-store.ts:148-171 | Without a grace window, once two calls presenting the same token of a session have completed, the session is gone in every continuation |
| RefreshConcurrency.ChainDecidesVerdict | packages/auth/src/refresh-store.ts:51-71 | In every reachable state a live session's tokens form a chain without repetition: the last rotates, the one before is answered with the last exactly inside the window counted from the rotation that replaced it, every older or foreign token is reuse; only the last changes the record |
| RefreshConcurrency.ActivityIsLastGiven | packages/auth/src/refresh-store.ts:254-267 | In every reachable state the last activity listed for a live session is the time of its last granted rotation, or of its login if there was none |
| RefreshConcurrency.GivenGrows | packages/auth/src/refresh-store.ts:63-70 | A token given by a login or a granted rotation is recorded with the time of that step, and no other step records one |
| RefreshConcurrency.ClearedStayDead | packages/auth/src/refresh-store.ts:206-224 | Every session a completed `revokeAllForUser` read from the index is dead from then on, whatever ran beside it |
| RefreshConcurrency.InterleavedLoginEscapes | packages/auth/src/refresh-store.ts:206-218 | A concrete interleaving with one login after which the new session lives and its user's index does not name it |
| RefreshIndex.IndexMissesDropped | packages/auth/src/refresh-store.ts:113-140 | In every reachable state of any interleaving a live session is in its own user's index if and only if no index DEL and no index expiry took its entry away |
| RefreshIndex.DelDropsNewborn | packages/auth/src/refresh-store.ts:206-218 | The index DEL of a `revokeAllForUser` takes away the entries of exactly the live sessions of the user created since its SMEMBERS that still had one |
| RefreshIndex.CountIsExact | packages/auth/src/refresh-store.ts:206-215 | Its count is the number of the user's live sessions when their records are deleted if and only if none of them was created since the SMEMBERS or was without an entry then |
| RefreshIndex.QuietIndexIsComplete | packages/auth/src/refresh-store.ts:148-224 | Under any interleaving of rotations, revocations and clears, index expiry aside: if no session of the user is created in the window of one of its clears, every live session of the user is in its index and every count is exact |
| RefreshSeal.LiveDecidesToken | services/identity-service/src/auth/auth.service.ts:96-119 | In every reachable state of any interleaving, whatever was sealed and revoked before: some call begun from then on rotates a session once created, with an access token the denylist accepts at once, if and only if the session's refresh record is live |
| RefreshSeal.ClearSparesMissed | packages/auth/src/refresh-store.ts:206-224 | After a completed `revokeAllForUser`, of the user's sessions exactly those with a live record can still obtain an accepted token, and each of them was without an index entry when the call read the index or was created since |
| RefreshSeal.RevokedIsShut | packages/auth/src/refresh-store.ts:174-186 | Under any interleaving: from the last command of a `revoke`, or of a `rotate` that met a reused token, no continuation lets through a token of the session issued up to then or within the 60 s margin |
| RefreshSeal.ClearedIsShut | packages/auth/src/refresh-store.ts:206-224 | From the last command of a `revokeAllForUser` no continuation lets through a token of the user issued before that second |
| RefreshConcurrency.RotateAlone | packages/auth/src/refresh-store.ts:148-171 | The commands of an uninterrupted `rotate` add up to the store's call and verdict |
| RefreshConcurrency.RevokeAlone | packages/auth/src/refresh-store.ts:174-186 | The commands of an uninterrupted `revoke` add up to the store's call |
| RefreshConcurrency.ClearAlone | packages/auth/src/refresh-store.ts:206-224 | The commands of an uninterrupted `revokeAllForUser` add up to the store's call, with its count |
| Redis.Server.Create | packages/auth/src/refresh-store.ts:134-138 | Record, index member and the expiry of both in one block |
| Redis.Server.EvalRotate | packages/auth/src/refresh-store.ts:51-71 | The four verdicts of the compare-and-swap script and the record it leaves |
| Redis.Server.EvalSeal | packages/auth/src/session-revocation.ts:82-93 | Raises a seal that is absent or lower, otherwise changes neither seal nor expiry |
| RefreshStore.RedisRefreshTokenStore.CreateSession | packages/auth/src/refresh-store.ts:130-140 | The new record, indexed under its user, and the pair returned |
| RefreshStore.RedisRefreshTokenStore.Rotate | packages/auth/src/refresh-store.ts:148-171 | Missing and reuse are errors, reuse leaves no record; a rotation returns the token that is now current; a retry in the window returns the current token and changes nothing |
| RefreshStore.RedisRefreshTokenStore.Revoke | packages/auth/src/refresh-store.ts:174-186 | Record gone, its user's index without the sid, denylist written, all else as before |
| RefreshStore.RevokeDenies | packages/auth/src/refresh-store.ts:174-186 | With the default denylist, after a `revoke` the session's tokens are shut for ever if and only if issued at most 60 s after the second one millisecond past the call |
| RefreshStore.ReuseDenies | packages/auth/src/refresh-store.ts:163-166 | The same after a `rotate` that finds a reused token, and the record is gone |
| RefreshStore.RevokeForgets | packages/auth/src/refresh-store.ts:174-186 | The record of the session and its entry in its user's index are gone, and no other session's |
| RefreshStore.RedisRefreshTokenStore.RevokeAllForUser | packages/auth/src/refresh-store.ts:206-224 | Deletes the indexed records and the index, seals this second, and returns how many of the indexed sids had a record |
| RefreshStore.RevokeAllSeals | packages/auth/src/refresh-store.ts:206-224 | After `revokeAllForUser` the user's tokens issued before a second are shut for ever if and only if that second is not after the call's |
| RefreshStore.RedisRefreshTokenStore.ResealRevokedBefore | packages/auth/src/refresh-store.ts:236-238 | The monotone seal, and no effect and `false` without a denylist |
| RefreshStore.RedisRefreshTokenStore.ListSessionsForUser | packages/auth/src/refresh-store.ts:254-267 | Lists each indexed sid with a record exactly once with its last activity, and no stale sid |
| RefreshStore.RevokeAllIsExact | packages/auth/src/refresh-store.ts:188-224 | After any history of completed calls and expiries: the sids found are the user's live sessions less those whose index expired under them; the count is exact, and none is left, if and only if there are none of these; other users lose nothing |
| RefreshStore.UnrotatedIsIndexed | packages/auth/src/refresh-store.ts:113-140 | After any history a live session that was never rotated is in its own user's index |
| RefreshStore.RotatedSessionEscapes | packages/auth/src/refresh-store.ts:60-64 | A history in which a rotated session outlives the index and survives `revokeAllForUser` |
| SessionRevocation.SessionRevocationStore.RevokeSession | packages/auth/src/session-revocation.ts:117-123 | The sid is denied for the store's time to live from now |
| SessionRevocation.SessionRevocationStore.RevokeAllForUser | packages/auth/src/session-revocation.ts:129-136 | The seal is this second, whatever was there |
| SessionRevocation.SessionRevocationStore.SealRevokedBefore | packages/auth/src/session-revocation.ts:157-166 | The seal only rises, and the answer says whether it rose |
| SessionRevocation.SessionRevocationStore.IsRevoked | packages/auth/src/session-revocation.ts:174-197 | The reason by sid first, then by a seal strictly above the token's issue second; nothing when Redis does not answer |
| SessionRevocation.SealCoverage | packages/auth/src/session-revocation.ts:82-93 | A seal not in the future shuts out every token issued before it for ever, under any later writes and expiries, if and only if it rises or the higher seal it finds outlives the last such token |
| SessionRevocation.RevokeAllCovers | packages/auth/src/session-revocation.ts:129-136 | `revokeAllForUser` shuts out every token issued before this second for ever, unconditionally |
| SessionRevocation.PastSealsAlwaysCover | packages/auth/src/session-revocation.ts:60-63 | In every history without a future-dated seal, a seal covers |
| SessionRevocation.FutureSealLeavesGap | packages/auth/src/session-revocation.ts:82-93 | A history in which a seal written at its own second covers nothing |
| SessionRevocation.RevokedSidCoverage | packages/auth/src/session-revocation.ts:60-63 | A revoked sid stays shut for every token issued up to a second, for ever, if and only if that is at most 60 s after the second one millisecond past the revocation |
| Polyline.EncodeValue | packages/maps/src/polyline.ts:49-58 | Writes the zig-zag of the 32-bit value in five-bit chunks, lowest first, for every integer |
| Polyline.ValueIsBase32 | packages/maps/src/polyline.ts:49-58 | A delta that fits is written as the base-32 digits, lowest first, of twice it, or of one less than twice its opposite, in units 95 to 126 and a last one of 63 to 94, with no idle zero |
| Polyline.OverflowIsOneUnit | packages/maps/src/polyline.ts:49-58 | A 32-bit delta that does not fit is written as the single unit that is left of it |
| Polyline.EncodePolyline | packages/maps/src/polyline.ts:65-80 | Writes the deltas of the quantised line, latitude first |
| Polyline.ReadValue | packages/maps/src/polyline.ts:18-25 | Reads one value, terminating on every text, also one that ends in the middle of a value |
| Polyline.DecodePolyline | packages/maps/src/polyline.ts:8-41 | Terminates on every text with the accumulated points |
| Polyline.PaddedDecode | packages/maps/src/polyline.ts:18-38 | A text that ends inside a point is read as if its missing bits were zero: a unit without bits behind it changes nothing, and behind a whole text repeats the last point |
| Polyline.PublishedExample | packages/maps/src/polyline.spec.ts:5-12 | The published example of the format is encoded to its text, and decoded from it, at precision 5 |
| Polyline.GridRoundTrip | packages/maps/src/polyline.ts:8-80 | Decoding an encoded list of grid points gives the list back if and only if every delta lies in [-2^30, 2^30) |
| Polyline.DecodedIsFixed | packages/maps/src/polyline.ts:8-80 | What the decoder returns for any text at all is unchanged by encoding and decoding it again |
| Polyline.DecodedDeltasFit | packages/maps/src/polyline.ts:17-38 | For any text the decoder's deltas are all ones the encoder can write |
| Polyline.LegalFits | packages/maps/src/polyline.ts:65-80 | Up to precision 6 the deltas of every line of points on the globe fit |
| Polyline.RealRoundTrip | packages/maps/src/polyline.ts:8-80 | Every decoded coordinate is within half a unit of the last decimal of the original, with no accumulation along the line |
| Polyline.LegalRoundTrip | packages/maps/src/polyline.ts:65-80 | Every line of points on the globe is read back at a precision if and only if it is at most 6 |
| LocalEngine.LocalMapsEngine.Route | packages/maps/src/local-engine.ts:41-66 | The straight length through the waypoints times the detour factor, to the nearest metre, the duration from it, and the geometry |
| LocalEngine.LocalMapsEngine.SegmentMeasures | packages/maps/src/local-engine.ts:84-99 | A step's distance is its segment's length times the detour factor to the nearest metre; a turn comes from the bearing the step before it left on |
| LocalEngine.LocalMapsEngine.RouteWithSteps | packages/maps/src/local-engine.ts:73-111 | One step per segment with its rounded length, the bearings its turn comes from and its encoded line, then the arrival step, with the distance, duration and geometry of `route` |
| LocalEngine.LocalMapsEngine.StepDistances | packages/maps/src/local-engine.ts:73-111 | For n segments the step distances add up to the route distance within (n + 1) / 2 metres |
| LocalEngine.LocalMapsEngine.SegmentGeometry | packages/maps/src/local-engine.ts:94-97 | A step's polyline decodes to the quantised ends of its segment |
| LocalEngine.LocalMapsEngine.StepsChain | packages/maps/src/local-engine.ts:84-108 | The decoded step lines chain exactly, each starting on the point the last one ended on, from the quantised origin through the waypoints to the destination |

## Left out

- Kafka, Postgres and Redis clients, NestJS wiring, timers, metrics, tracing, logging and trace propagation; only the atomic steps they carry out are modelled.
- Failures of Postgres inside a sweep of `Relay`, and a statement that fails after it took effect: in a tick a statement is done or not.
- The retention hook called after a tick, the interval set-up, and `retentionMs <= 0` turning the sweep off.
- The check of the schema name as a Postgres identifier.
- zod: a schema is a deterministic predicate on the payload of an event type.
- uuid generation: a new id, sid or jti is one never used before.
- The broker appends each send at most once, now or at any later time, also after its relay gave it up; producer retries that duplicate one send are not modelled.
- One clock: all replicas, Postgres, Redis and issuers of tokens read the same time, and a call reads it when its command runs.
- PoolTiming: list scheduling on given durations, next to `PublishPhase.PublishGrouped`, which has no time. `OutboxDeadline` and `OutboxPool` have the clock on the protocol itself; there a replica takes any group's first row next, not the oldest's. A process suspended in its tick keeps no pace.
- OutboxPool.PoolWindowSuffices: enough, not necessary; for batches with no bound on the rows of an aggregate `OutboxWindow` has both directions.
- Consumer.EffectivelyOnce: a mark may expire at any time, it has no clock of its own; partitions are consumed one at a time, and the read of the mark, the handler and the mark are one delivery with a fault at any point, not interleaved with another delivery of the same event; of handlers outside the dedup `Consumer.AtLeastOnce` says that they run, not how often.
- RefreshStore.RedisRefreshTokenStore.ListSessionsForUser: reads the records one by one where the code sends one MGET; nothing comes between.
- EndToEnd.InsertToHandler: the consumer's handlers run in turn (`Consumer.InTurnDecidesOnce`); the partition holds the messages of this outbox only, none of another producer between them.
- `isRevoked` failing open is an answer of `IsRevoked` outside the coverage theorems; swallowed errors of the denylist writes are left out.
- JWT signing and verification: a token is accepted until 900 s after its issue second. The account lookup before an access token is issued again.
- Floating point: coordinates and lengths are real numbers and `Math.round` is floor(x + 1/2). `10 ** precision` is taken for natural precisions.
- Great-circle distance, bearing, the turn derived from two bearings, instruction texts, the geocoder, and the remote map clients. The empty `polyline` of `route` is not a field of the result.
- LocalEngine.LocalMapsEngine.Route: a zero average speed gives no duration instead of infinity or not-a-number.
- `revokeSession` of the refresh store, `assertNotRevoked` and `polylineToGeoJson`, short wrappers of members modelled here.
