# Eventus, verified

A Dafny model of the eventus framework: commands append events to a log under
optimistic concurrency, a transactional outbox is drained by relays into an
at-least-once broker, and idempotent projections keep read views. The model
proves what the framework promises: views are folds of the committed log, every
event is applied once and in order, nothing is lost, and the read side can always
catch up. Where the code does not keep a promise, the exact condition is proved.

## How it is built

**The shared state** (`World`) holds the tables of `infra/postgres/schema.sql`, the
read views, the row locks of `FOR UPDATE SKIP LOCKED`, the broker's stream with its
acknowledgements, and a history of committed handler runs. A transaction is a
record of writes that takes effect at once if the unique constraints admit it.
`Inv` is what holds of that state at every moment, in three parts: `BaseInv` for every
system, `WriteInv` for replayable aggregates, `ViewOk` for each followed stream.

**The machine** (`Machine`) has any number of command handlers, relays and projection
workers, each with a program counter, interleaved step by step. All
nondeterminism is in the choice of the step: who moves, which message is
delivered again, whether a commit takes effect and what is reported about it, whose
write fails unnoticed, who fails, gives up or crashes. `Runs` builds runs of it.
`Safety`, `Publishing`, `Convergence`, `Interleaving`, `CatchUp`, `Draining`, `Gaps`,
`Pooling`, `Overwriting`, `Contents`, `Recovery`, `Sequential`, `Product`, `LossyProduct`
and `Scenario` hold the theorems.

**The components** (`AggregateRoot`, `Backend`, `Store`, `Repository`, the command
handlers, `Relay`, `Projection`, `ProductViewRepository`) are classes with the loops
and early returns of the source. `Backend.Interfere` stands for everybody else: it
may do whatever a session may rely on (`Rely`), and every machine step of another
process is of that kind (`Postgres.MachineStepsAreRely`). Statements, publications and
acknowledgements may fail, and a commit may take effect and still be reported as failed.
`Backend.faults` counts these failures: an error without one has a reason that the
contract names, and loops that go on after an error are proved to go on by what the
faults can have cost them. For an operation that runs alone and meets no fault (`Calm`)
the contracts are exact: a delivery is `Redeliver`, a poll is `Poll`, a command is
`CommandResult`. Each of these is a run of the machine (`Convergence.RedeliverIsRun`, `Refinement`). A disturbed
delivery is one as well: `Projection.Handle` is proved to be an interleaving of the steps
of one worker with whatever the others do (`Moves`).

## Hypotheses

The machine, its invariant and the contracts of the components hold for every
configuration, the sample as it is included. A theorem that needs more says so:

- `Replayable`, on the write side: `Apply` gives the aggregate the version of the event
  it accepts, and snapshots either forget the version or are lossless (`Faithful`,
  which also asks that tracked events leave the aggregate with the id of its stream).
- `Suited`, on the read side and stream by stream: along this stream the handler leaves
  the version of each event on the view. `HandlerContract` implies it for all streams.
- `Followed`: the stream is suited, and handlers write in the transaction.
- `Rebuilding`: the stream is suited, and each event overwrites what any other has left
  on the view. Products that begin with a creation are of this kind.
- `Live`: the stream is suited, whichever way its handler writes, the view is a fold of
  it and has every event that is processed. Followed streams always are
  (`Convergence.FollowedIsLive`).
- A command handler tracks events as `cfg.allowed` says. For products that is
  `HandlersTrack`, or `CreatedFirst` if updates are sent only for existing products.

## Where the code and its promises part

- **Lossy snapshots.** The fields of `AggregateRoot` are unexported and
  `Repository.Load` drops the store's version, so a product restored from a
  snapshot has version 0 until an event follows it. `Commands.LossyLoadsCurrentIff`
  gives the exact condition under which an update succeeds, and
  `LossyProduct.SnapshotFreezesIff` shows that a snapshot ends its stream forever, if
  and only if nobody is between the two queries of loading the product.
- **Pooled handlers.** The sample's projection writes through the pool. By
  `Pooling.HarmlessIffTransactional` and, for products from the empty database on,
  `Scenario.SafeIffTransactional`, processed events are within their views in all runs if
  and only if handlers write in the transaction. An outdated version read takes a pooled
  view back (`Pooling.PooledHandlerRegresses`), and there it stays
  (`Pooling.RegressedViewIsStuck`). The view still shows the product at some version
  (`Product.ViewsShowProducts`), and by `Scenario.ProductCatchesUpIff` it can catch up if
  and only if it is not doomed: not before an event that is processed and that nobody is
  about to apply or to write past. With one worker at a time it cannot happen
  (`Sequential.OneAtATimeIsLive`), unless failures are hidden.
- **Hidden failures.** The sample's projection returns nil when its write failed. A failed
  write in the transaction poisons it, so only a pooled handler can have the event marked
  all the same. `Pooling.HiddenFailureStopsView` has the run, after which the view stays as
  it is along every run, and `Scenario.HiddenFailureHidesProduct` the product that never
  gets a view. By `Sequential.OneAtATimeIff`, workers that take turns are safe if and only
  if nothing is hidden.
- **Update of an unknown id.** It commits a `ProductUpdated` at version 1, which has no
  view, and never will (`Scenario.UnknownIdHasNoView`). By `Product.ShowsIffCreatedFirst`
  views show their aggregates if and only if the stream begins with a creation, and by
  `Product.FollowsIffCreatedFirst` these are exactly the streams the projection follows.
- **Ignored snapshot errors.** `Store.Save` only logs a failed snapshot insert, but the
  transaction is poisoned by it. By `Repository.NilIsHonestIff` the result of a save can
  be believed if and only if the driver reports the rollback at commit
  (`reportsRollback`) or no due snapshot is refused.
- **Saving again after an error.** `Repository.Save` clears the uncommitted events before
  the commit. By `Repository.RetryIsHonestIff` a second save of the same aggregate can be
  believed if and only if it still has its events; otherwise it is nil and saves nothing.
  The command handlers discard the aggregate on every error, which avoids this.

## Model

| member | source | states |
|---|---|---|
| `Safety.PrefixConsistency` | cqrs/projection.go:91-178 | in every reachable state of any number of commands, relays and workers, the view of a followed stream at version k is the fold of its first k committed events, and k is within the stream |
| `Safety.ExactlyOnceInOrder` | cqrs/projection.go:129-142 | on a followed stream the committed handler runs of a subscriber are exactly versions 1..k in order; an event was applied once if the view has it, and otherwise never |
| `Safety.AppliedOnceIffProcessed` | infra/postgres/idempotency.go:34-53 | on a followed stream the number of committed handler runs for an event is 1 if the event is marked processed and 0 if it is not |
| `Safety.ProcessedIffWithinView` | cqrs/projection.go:105-119 | on a followed stream an event is processed if and only if its version is at most the version of the view |
| `Safety.StaleTransactionCannotCommit` | cqrs/projection.go:105-142 | a handler transaction begun on a version read that is outdated by now cannot take effect, even when several later versions were applied since |
| `Safety.ContractFollows` | cqrs/projection.go:25-30 | a handler that moves the view from version to version follows every stream that can occur |
| `Safety.NilMeansProcessed` | infra/nats/broker.go:138-143 | a worker that returns nil, and every acknowledged message, has its event durably processed, whatever handlers do, under ambiguous commits and poisoned transactions |
| `Safety.StreamsAreContiguous` | infra/postgres/schema.sql:12 | each stream carries exactly the versions 1..n in commit order under any interleaving, also with snapshots that drop the version |
| `Safety.DualWriteConserved` | infra/postgres/event_store.go:45-50 | in every system, whichever saves failed or were rolled back, log and outbox hold the same events, field for field and in the same order |
| `Safety.NothingIsTakenBack` | infra/postgres/schema.sql:1-2 | along every run the log, the outbox, the marks and the broker only advance, every stream only gets longer, and the views of followed streams only move forward |
| `Safety.NoLostUpdate` | sample/command/update_product.go:32-54 | a committed save extends the stream by exactly its events, computed on exactly the events before them; with lossless snapshots the saved aggregate is the replay of the new stream, reached from the replay of the old one |
| `Safety.AtMostOneWriterCommits` | infra/postgres/event_store.go:107-114 | of all writers that loaded a stream at the same version, once one committed no other ever can |
| `Safety.LoadIsLinearizable` | infra/postgres/event_store.go:64-79 | the load with two separate queries returns the full replay of the stream as committed at the second query, whatever was committed in between |
| `Safety.SnapshotAgreement` | infra/postgres/event_store.go:156-179 | every committed snapshot at version v decodes to the replay of events 1..v; v is a multiple of the frequency and within the stream |
| `Safety.SnapshotAtFrequency` | infra/postgres/event_store.go:52-58 | in every reachable state, a save that takes its snapshot leaves a row for the id and version of its aggregate if the version is a multiple of the frequency and the aggregate can be marshalled, and no new row otherwise; there is never a second row for the same id and version |
| `Safety.HistoryIsValid` | eventsrc/aggregate.go:82-91 | every non-empty committed prefix replays without error to a valid aggregate, which is why replay need not validate |
| `Safety.NoEventLost` | infra/postgres/outbox.go:30-58 | a committed event of a subscriber's topic is unpublished in the outbox, or un-acknowledged in the broker, or processed |
| `Safety.PublishedMeansSent` | outbox/relay.go:79-111 | the event of a row marked published is with the broker if and only if it has a topic; the others are marked without being sent |
| `Safety.RelaysDisjoint` | infra/postgres/outbox.go:62-101 | two relays never hold the same row, and marking a held batch affects exactly as many rows as it has events |
| `Machine.StepKeepsInv` | infra/postgres/db.go:37-52 | every step of every process, for any aggregate and any handler, keeps the invariant of the whole system, and what is committed only grows |
| `Machine.RunKeepsInv` | infra/postgres/db.go:37-52 | the same for whole runs |
| `Publishing.PublishedExactlyOnce` | outbox/relay_test.go:92-140 | in a run in which no relay fails, every event with a topic is sent at most once, and exactly once when it is marked published, across any number of relays |
| `Convergence.PassAdvances` | cqrs/projection.go:110-127 | with a drained outbox, one pass over the un-acknowledged messages, in any order, moves every lagging live view by at least one version, whichever way its handler writes |
| `Convergence.ViewsConverge` | cqrs/projection.go:110-127 | after as many such passes as the stream has events the view is the fold of the whole stream |
| `Convergence.LastPassAcknowledges` | infra/nats/broker.go:129-143 | one more pass acknowledges every remaining copy of the events of a live stream |
| `Convergence.RedeliverIsRun` | infra/nats/broker.go:129-143 | one undisturbed delivery, whatever handlers do, is a run of the machine |
| `Convergence.DeliveryConverges` | infra/nats/broker.go:112-147 | from any reachable state with a drained outbox and an idle worker, any covering passes are a run of the machine to the full fold of every live stream on the topic |
| `CatchUp.AlwaysCatchesUp` | infra/nats/broker.go:112-147 | from every reachable state, with all processes interrupted anywhere, there is a run without new events after which the outbox is published, and of every live stream, hence of every followed one, all messages are acknowledged and the view is the fold of the whole stream |
| `Recovery.CatchesUpIff` | cqrs/projection.go:91-142 | from a reachable state with workers interrupted anywhere, the view of a stream that a pooled handler rebuilds can still become up to date, by any run with or without new events, if and only if it is not doomed |
| `Recovery.DoomedForever` | cqrs/projection.go:91-142 | a view before a lost event, with no write past that event under way, stays before it along every run |
| `Scenario.ProductCatchesUpIff` | sample/query/repository/repository.go:41-72 | for the sample as it is: the view of a created product can still become up to date if and only if the projection writes in the transaction or the view is not doomed |
| `Interleaving.RoundAdvances` | infra/nats/broker.go:112-147 | in a run segment in which every waiting message is handled to the end, with any commands, relays and workers in between, a lagging view of a transactional handler moves by at least one version |
| `Interleaving.RoundsConverge` | infra/nats/broker.go:112-147 | after n such rounds the view has the first n sent events of its stream, and is the fold of a prefix that contains them |
| `CatchUp.AllOnTopic` | outbox/relay.go:86-94 | every committed event carries the aggregate type, so every stream is wholly on the topic of that name |
| `Draining.Drain` | infra/postgres/outbox.go:25-78 | after k polls with batch size b exactly max(0, m - k*b) of m pending rows are left, and the publications are a timestamp-sorted permutation of the others, in that order in the broker |
| `Events.ChainExtendsStream` | infra/postgres/schema.sql:11-12 | events numbered from a version inside the stream pass the unique constraint only if they start at its end, and then the streams stay contiguous |
| `Events.RowsAfterIsSuffix` | infra/postgres/event_store.go:124-129 | the ordered tail query returns exactly the part of the stream after the given version |
| `Aggregates.TrackingIsReplay` | eventsrc/aggregate.go:69-91 | a sequence of changes is tracked successfully if and only if replaying it succeeds through valid states, and both end in the same aggregate |
| `Aggregates.ReplayConcat` | eventsrc/aggregate.go:84-91 | replaying a concatenation is replaying its parts, with the early stop at the first rejected event |
| `Aggregates.AggregateRoot.TrackChange` | eventsrc/aggregate.go:71-80 | a change is recorded only if it is accepted and leaves a valid state; a refused change still leaves the aggregate changed |
| `Aggregates.AggregateRoot.LoadFromHistory` | eventsrc/aggregate.go:84-91 | the loop equals the replay function, including the state left by the first rejected event |
| `Saving.TrackKeepsTracked` | sample/command/update_product.go:39-51 | tracking at version + 1 keeps the aggregate a continuation of the prefix it was loaded from |
| `Saving.SaveKeepsInv` | infra/postgres/event_store.go:34-61 | a committed save extends one stream at its end by exactly the tracked events, in log and outbox alike, and keeps every invariant, multi-event saves and snapshot conflicts included |
| `Saving.SaveTakesSnapshot` | infra/postgres/event_store.go:52-58 | what a save with its snapshot writes includes a row at each multiple of the frequency, if the aggregate can be marshalled, and no snapshot otherwise |
| `Loading.LoadIsReplay` | infra/postgres/event_store.go:119-202 | from whatever the first query left, the second yields the replay of the current stream, and without lossless snapshots never a version ahead of it |
| `World.LatestSnapshot` | infra/postgres/event_store.go:185-191 | a row of the aggregate with the greatest version, and none only if there is none |
| `Events.RowsAfter` | infra/postgres/event_store.go:124-129 | exactly the rows of the aggregate after the version, in ascending order |
| `Loading.LoadNeverAhead` | eventsrc/aggregate_repository.go:31-55 | whatever the snapshots of a replayable aggregate carry, a loaded version never exceeds the length of the stream |
| `Loading.ForgetfulLoad` | eventsrc/aggregate_repository.go:31-55 | with snapshots that forget the version, a load ends at the true version iff an event follows the newest snapshot, and at 0 iff none does |
| `Loading.CommitsIffCurrent` | infra/postgres/event_store.go:107-114 | with fresh event ids a save is admitted if and only if it was computed at the current end of the stream |
| `Projecting.UnprocessedMeansNext` | cqrs/projection.go:105-127 | while an event of a followed stream whose gate was passed is unprocessed, its view is exactly one version behind it |
| `Projecting.HandleKeepsInv` | cqrs/projection.go:132-142 | committing handler and mark together, for an event that is unprocessed by then, keeps every invariant |
| `Projecting.OldEventIsProcessed` | cqrs/projection.go:110-118 | a transaction that only marks an old event always finds the mark there and never adds one |
| `Relaying.Oldest` | infra/postgres/outbox.go:63-70 | a correct batch exists: at most b free rows, sorted by timestamp, none newer than a free row left out, and fewer than b only if no free row is left |
| `Relaying.LockKeepsInv` | infra/postgres/outbox.go:62-78 | locking a batch keeps every invariant and the locks of all other sessions |
| `Relaying.BatchesDisjoint` | infra/postgres/outbox.go:66-69 | batches locked by different sessions share no row |
| `Relaying.HeldRowsAffected` | infra/postgres/outbox.go:93-99 | the update of a held batch touches exactly as many rows as there are ids |
| `Relaying.CommitBatchKeepsInv` | infra/postgres/outbox.go:52-58 | marking and releasing a completely sent batch keeps every invariant and disturbs no other session |
| `Postgres.MachineStepsAreRely` | infra/postgres/db.go:37-52 | every step of the machine by another process is an interference the components are proved against |
| `Postgres.Backend.Begin` | infra/postgres/db.go:38-41 | an empty, usable transaction of the caller, or an error |
| `Postgres.Backend.Rollback` | infra/postgres/db.go:42-49 | nothing of the transaction remains, and its row locks are gone |
| `Postgres.Backend.InsertEvent` | infra/postgres/event_store.go:83-115 | one more pending row, or a poisoned transaction; without a fault, a concurrency error exactly if a row with the same id or the same version of the aggregate exists, and nil otherwise |
| `Postgres.Backend.InsertOutbox` | infra/postgres/outbox.go:112-141 | one more pending row, or a poisoned transaction |
| `Postgres.Backend.InsertSnapshot` | infra/postgres/event_store.go:169-177 | a pending snapshot row, or a poisoned transaction; without a fault it fails exactly in a database that refuses snapshots |
| `Postgres.Backend.UpdatePublished` | infra/postgres/outbox.go:87-91 | the ids become pending marks, and the count is that of the rows with these ids |
| `Postgres.Backend.RunHandler` | cqrs/projection.go:133-136 | the handler's row, computed from the row found at that moment, becomes pending or goes through the pool at once, or the transaction is poisoned; a handler that hides failures returns nil in both cases, but leaves the transaction usable only if it wrote through the pool |
| `Postgres.Backend.Ack` | infra/nats/broker.go:141-143 | the message is acknowledged, and without a fault it is for sure; only processed messages may be acknowledged |
| `Postgres.Backend.Commit` | infra/postgres/db.go:47-52 | a commit takes effect as a whole or not at all; it cannot if the transaction is poisoned or the constraints refuse it, and then nil is returned exactly by drivers that do not report rollbacks; it may be reported as failed although it took effect |
| `Postgres.Backend.MarkAsProcessed` | infra/postgres/idempotency.go:34-53 | a unique violation is turned into nil but poisons the transaction, and then the event is processed already |
| `Postgres.Backend.SelectForUpdate` | infra/postgres/outbox.go:62-78 | the oldest unpublished rows that nobody holds, at most the batch size, now held by the caller |
| `Postgres.Backend.Publish` | infra/nats/broker.go:65-86 | nil means that the broker has the event; an error is a fault and leaves open whether it does, but the event is sent at most once |
| `EventStore.Store.Save` | infra/postgres/event_store.go:34-61 | the same events for log and outbox, and the due snapshot unless the transaction is poisoned, become pending together; alone and without a fault a unique violation, and nothing else, is reported as a concurrency error, and any other error is a fault; nil comes with a poisoned transaction only if a snapshot was due, and without a fault exactly if it was due and refused |
| `EventStore.Store.SaveEventsInTx` | infra/postgres/event_store.go:81-117 | on nil all events are pending in order; an error poisons the transaction; alone and without a fault it is nil if the constraints admit the events, and a concurrency error if and only if they do not |
| `EventStore.Store.SaveOutboxEvents` | infra/postgres/outbox.go:105-144 | on nil all events are pending in order; without a transaction nothing happens |
| `EventStore.Store.SaveSnapshotInTx` | infra/postgres/event_store.go:163-179 | the row of the aggregate's id and version becomes pending; a failed marshal leaves the transaction as it was, a failed insert poisons it |
| `EventStore.Store.LoadEvents` | infra/postgres/event_store.go:119-154 | all rows after the version in order; a decoding error only if one of them has an unregistered type, and then never a result |
| `EventStore.Store.LoadSnapshot` | infra/postgres/event_store.go:181-202 | the newest snapshot row, or none and version 0 |
| `EventStore.Store.Load` | infra/postgres/event_store.go:64-79 | snapshot and tail fit together although anything may be committed between the queries; no fault goes unreported |
| `Repository.Repository.Load` | eventsrc/aggregate_repository.go:27-58 | the aggregate is the full replay of the stream at the second query for lossless snapshots, and never ahead of the stream otherwise; nothing is uncommitted, and no fault goes unreported |
| `Repository.Repository.Save` | eventsrc/aggregate_repository.go:61-73 | uncommitted events are cleared exactly if the store took them |
| `Repository.Repository.SaveAndCommit` | infra/postgres/db.go:37-52 | on nil exactly these events are the end of the stream, after everything committed before, and the saved aggregate is the replay of it, if no snapshot was due or the driver reports rollbacks; a driver that reports them has also committed a snapshot for the id and version of the aggregate at each multiple of the frequency, and undisturbed there is no other new snapshot; an error means a fault, a collision or a refused snapshot, and the events are still uncommitted or gone; undisturbed, result, new state and remaining events are those of `SaveResult` and `EventsLeft` |
| `Repository.Repository.TrackAndCommit` | sample/command/update_product.go:39-54 | a refused change rolls everything back, and without a fault only that, a collision or a refused snapshot is an error; nil means the same as for `SaveAndCommit`; undisturbed, result and new state are those of `CommandResult` |
| `Repository.CommandSucceedsIff` | sample/command/update_product.go:39-54 | with a fresh event id, and no due snapshot refused, an undisturbed command succeeds if and only if its change is accepted and its aggregate is current |
| `Repository.NilIsHonestIff` | infra/postgres/event_store.go:52-61 | a save that the constraints admit is reported as saved exactly when it was, if and only if the driver reports rollbacks or no due snapshot is refused |
| `Repository.RetryIsHonestIff` | eventsrc/aggregate_repository.go:61-73 | after a save that returned an error, the result of saving the same aggregate again can be believed if and only if it still has its events, which it has unless the failure was at the commit |
| `Repository.Repository.SaveThenLoad` | eventsrc/aggregate_repository.go:27-73 | with lossless snapshots, and nobody else at work, an aggregate saved with nil is loaded again equal, with nothing uncommitted, if the driver reports rollbacks or nothing failed; without faults, an admitted save whose snapshot is not refused is nil and the load succeeds |
| `Repository.FaithfulLoadsCurrent` | eventsrc/aggregate_repository.go:27-58 | with lossless snapshots an undisturbed load always ends at the version of the stream |
| `Repository.SaveIsSafe` | infra/postgres/event_store.go:107-114 | a loaded and tracked aggregate may be committed at any later time: the constraints refuse it or it still fits |
| `Commands.CreateProductHandler.Handle` | sample/command/create_product.go:38-81 | nil only with a name and a positive price; on nil, if no snapshot is due at version 1 or the driver reports rollbacks, the newest event of the stream is the ProductCreated at version 1 with exactly the name, price, event id and time of the command, and with lossless snapshots the stream replays to that product; without a fault only an invalid product, a collision or a refused snapshot is an error; undisturbed that event is the one new row of log and outbox, and with a fresh event id and no snapshot refused the result is nil if and only if the product is valid and its id has no stream; result and new state are those of `CommandResult` on the empty aggregate |
| `Commands.UpdateProductHandler.Handle` | sample/command/update_product.go:32-55 | nil only with a name and a positive price; on nil, under the same condition at its version, the newest event of the stream, after everything committed before, is the ProductUpdated with exactly the name, price, event id and time of the command, and with lossless snapshots the stream replays to that product; without a fault an update on what was loaded fails only for an invalid product, a collision or a refused snapshot; undisturbed that event is the one new row of log and outbox, and with a fresh event id and no snapshot refused the result is nil if and only if the product is valid and what is loaded is current; result and new state are those of `CommandResult` on what was loaded |
| `Commands.LossyLoadsCurrentIff` | sample/domain/aggregate/product_aggregate.go:36-61 | with the snapshots of the sample a load is current iff there is no snapshot, no event, or an event after the newest snapshot |
| `Refinement.PollIsRun` | infra/postgres/outbox.go:25-59 | an undisturbed poll is a run of the machine |
| `Refinement.CreateIsRun` | sample/command/create_product.go:43-74 | an undisturbed creation is a run of the machine |
| `Refinement.UpdateIsRun` | sample/command/update_product.go:33-54 | an undisturbed update is a run of the machine |
| `Relay.Relay.PublishAll` | outbox/relay.go:83-107 | nil means that everything with a topic is with the broker; the first failed publication ends it: what it sends itself is exactly a prefix of the batch, in batch order, and an error is one fault; the batch stays locked |
| `Relay.Relay.PublishOne` | outbox/relay.go:85-102 | an event without a topic is skipped; an event with one is sent at most once, and on nil it was sent |
| `Relay.Relay.MarkAsPublished` | infra/postgres/outbox.go:81-102 | exactly the ids of the batch become marked, and it fails if and only if a fault occurs; the consistency error is never returned |
| `Relay.Relay.ProcessBatch` | infra/postgres/outbox.go:25-59 | nil means that the whole batch is marked and sent; a failed publication leaves the whole batch unpublished; it returns an error if and only if a fault occurs; with nobody else at work nil is one poll of a correct batch, and after an error a prefix of a correct batch has been sent, no lock is left and nothing is marked, unless everything was committed and only reported as failed |
| `Relay.Relay.Run` | outbox/relay.go:58-72 | failed polls are only skipped: exactly as many polls return an error as faults occur, and with nobody else at work, after k polls of which f returned one, at most max(0, m - (k - f)*b) of m pending rows are left; without faults it is exactly max(0, m - k*b), each published once and by timestamp |
| `Relay.BehindIsMinus` | outbox/relay.go:61-66 | the bound that `Relay.Relay.Run` keeps is max(0, m - k*b), with no row lock left |
| `Projection.Projection.HandleInTx` | cqrs/projection.go:132-142 | handler and mark become pending together, or the transaction is poisoned and the event is processed already |
| `Projection.Projection.RunAndMark` | cqrs/projection.go:129-148 | nil means processed, whether this transaction or another one did it |
| `Projection.Projection.MarkOld` | cqrs/projection.go:110-119 | nil means processed; on a followed stream an old event is processed whatever becomes of the transaction |
| `Projection.Projection.Retry` | cqrs/projection.go:151-153 | further attempts until one stops the loop or none is left: attempts are left over only on nil, or if the last attempt read a view version that the event is too early or too old for, whatever the handler; any other error has cost a fault in each attempt, unless the event is processed |
| `Projection.Projection.Attempt` | cqrs/projection.go:103-149 | one round of the retry loop: it is the last one only on nil, or if the view version that it read shows the event too early or too old; any other error is a fault, or the event is processed; on a followed stream an old event is processed |
| `Projection.Projection.Handle` | cqrs/projection.go:91-178 | nil only for processed events; on a followed stream the handler's effect is committed once if the event is processed and never otherwise, over all attempts; it gives up before its last attempt only on an event that the last version read showed too early or too old, for every handler, and every attempt that fails otherwise costs a fault, unless the event is processed; undisturbed it is `HandleCalmly`; disturbed it is an interleaving of a worker's machine steps with those of others |
| `Moves.MoveIsStep` | cqrs/projection.go:91-178 | each action of a disturbed delivery is a step of the machine, whatever the rest of the system is doing |
| `Projection.Projection.Consume` | infra/nats/broker.go:129-144 | whatever fails, every fetched message is handled to its end, as an interleaving of worker steps with those of others; it acknowledges only processed events, and without a fault all that were handled with nil; undisturbed it is one pass |
| `Projection.Projection.Deliver` | infra/nats/broker.go:133-143 | one message is handled to its end, and without a fault acknowledged if that was nil; undisturbed it is `Redeliver` |
| `Projection.Projection.Subscribe` | infra/nats/broker.go:112-147 | whatever fails, every message of every fetch is handled to its end; undisturbed, covering fetches bring every live view on the topic to the fold of its whole stream |
| `Projection.HandleIsSafe` | cqrs/projection.go:129-142 | a handler's row may be committed with its mark at any later time: the mark is refused or the row is still right |
| `Product.CreatedOnlyAtVersionOne` | sample/command/create_product.go:45-61 | in every reachable state all events are registered and ProductCreated occurs at version 1 only, and exactly there if updates are sent for existing products |
| `Product.ProductHistoryIsValid` | eventsrc/aggregate.go:82-91 | with any snapshots and any projection, every non-empty committed prefix of a product replays without error to a product with a name and a positive price, those of its last event |
| `Product.NothingWorthless` | sample/domain/domain/product.go:17-25 | in every reachable state, with any snapshots and any projection, every event in the log and every view of every projection has a name and a positive price |
| `Contents.ViewsAreGood` | cqrs/projection.go:129-142 | whatever property of a row all handlers keep on tracked events, every view has in every reachable state, however its handler writes |
| `Product.ProductsAreReplayable` | sample/domain/aggregate/product_aggregate.go:36-61 | products with the snapshots of the sample meet the hypothesis of the write side, whatever the handlers track; with lossless ones if updates are sent for existing products |
| `Product.ViewShowsAggregate` | sample/query/projection/projection.go:25-83 | the view of a stream that begins with a creation has the aggregate's name, price and version, created at the first event and updated at the last |
| `Product.FollowsIffCreatedFirst` | sample/query/repository/repository.go:41-72 | the projection follows a stream of product events if and only if it is empty or begins with a creation, and then the view shows the aggregate after each of its events |
| `Product.ProductsRebuild` | sample/query/repository/repository.go:41-72 | on a stream that begins with a creation every projected event overwrites whatever view the others have left, but keeps the time of creation |
| `Overwriting.PooledPrefixConsistency` | cqrs/projection.go:91-178 | in every reachable state, the view of a stream that a pooled handler rebuilds is the fold of a prefix of it, also after writes that came late |
| `Overwriting.NeverAView` | sample/query/repository/repository.go:58-72 | a stream at none of whose events the handler makes a row has no view in any reachable state, whichever way it writes |
| `Product.CreatedFirstRebuilds` | sample/command/update_product.go:33-54 | if updates are sent for existing products, the projection follows and rebuilds every product in every reachable state |
| `Product.ShowsIffCreatedFirst` | sample/query/repository/repository.go:58-72 | in every reachable state, view and aggregate of a stream agree if and only if it begins with a creation; otherwise there is no view at all |
| `Product.ViewsShowProducts` | sample/query/projection/projection.go:25-83 | end to end, in every reachable state, pooled or not, hiding failures or not: a product view at version k shows the aggregate after its first k events, and without a creation there is no view |
| `LossyProduct.LoadKeepsProduct` | sample/domain/aggregate/product_aggregate.go:36-61 | a load returns the product of the whole stream from any snapshot; the version is right iff an event follows the snapshot |
| `LossyProduct.FrozenForever` | eventsrc/aggregate_repository.go:31-55 | once the newest snapshot is at the end of a stream and no command is about to load the events before it, no run extends the stream |
| `LossyProduct.SnapshotFreezesIff` | eventsrc/aggregate_repository.go:31-55 | the save that takes a product snapshot is the last one of its stream, whatever runs afterwards, if and only if nobody is between the two queries of loading that product |
| `Pooling.PooledHandlerRegresses` | sample/query/repository/repository.go:51-67 | with a handler that writes through the pool, whenever two consecutive events wait for two idle workers there is a run that takes the view back behind a processed event |
| `Pooling.RegressedViewIsStuck` | sample/query/repository/repository.go:51-67 | and along every run after that the view stays behind the processed event |
| `Pooling.HarmlessIffTransactional` | cqrs/projection.go:129-131 | from such a state, processed events are within their views in all states that follow if and only if handlers write in the transaction |
| `Scenario.SafeIffTransactional` | cqrs/projection.go:129-131 | for products, with any snapshot frequency, processed events are within their views in all reachable states if and only if projections write in the transaction |
| `Sequential.OneAtATimeIsLive` | infra/nats/broker.go:112-144 | if no two workers of a subscriber are past the idempotency check on the same stream at once, a pooled handler that hides nothing keeps every view a fold of its stream with all processed events |
| `Sequential.OneAtATimeIff` | infra/nats/broker.go:112-144 | under that discipline, from a state in which a live view waits for an event, processed events stay within the view in all runs if and only if the handler hides no failure |
| `Scenario.FirstSnapshotBlocks` | eventsrc/aggregate_repository.go:31-55 | a concrete run of the sample with a snapshot at every version, after which the product just created cannot be updated |
| `Scenario.HiddenFailureHidesProduct` | sample/query/projection/projection.go:55-82 | a concrete run of the sample in which the pooled write of a created product fails once, after which the product never gets a view |
| `Scenario.UnknownIdHasNoView` | sample/command/update_product.go:33-54 | a concrete run in which an id never created is updated twice: both commit, the first is handled and acknowledged without a view, the second is out of order, and no run ever makes a view |
| `Pooling.HiddenFailureStopsView` | sample/query/projection/projection.go:55-82 | with a pooled handler, from any state in which the event is next there is a run in which the handler hides its failure and the message is acknowledged, and along every run after that the view stays as it was |
| `Gaps.StuckForever` | cqrs/projection.go:105-127 | a view that misses a processed event, with nobody past the idempotency check on its stream, stays as it is along every run, with handlers of any kind |
| `Views.ProductViewRepository.SaveProductView` | sample/query/repository/repository.go:41-56 | the upsert keeps the creation time of a row already there; all other rows stay |
| `Views.ProductViewRepository.UpdateProductView` | sample/query/repository/repository.go:58-72 | the update changes an existing row but its creation time, and without a row nothing |
| `Views.ProductProjectionHandler.Handle` | sample/query/projection/projection.go:25-83 | always nil; the view moves as the fold says, or not at all if the write failed |

## Left out

- Projection.Projection.Retry: backoff timing, the elapsed-time limit and context cancellation; the number of retries is a parameter, and an error marked permanent stops the loop with that error.
- Commands.CreateProductHandler.Handle: if a snapshot is due at version 1 and the driver does not report rollbacks, nil promises nothing about the log; by `Repository.NilIsHonestIff` it cannot.
- Commands.UpdateProductHandler.Handle: the same; success is characterised exactly only without faults and interference; where `CreatedFirst` is the discipline, its callers know the product.
- Repository.Repository.SaveThenLoad: stated without interference between the save and the load; with interference `Repository.Load` says what is loaded.
- Interleaving.RoundsConverge: about transactional handlers, since interleaved pooled ones may take views back; that every waiting message is handled to the end in a round is its hypothesis.
- Relay.Relay.ProcessBatch: proved against an environment that includes all machine steps; that its own disturbed actions are machine steps is shown for `Projection.Projection.Handle` only.
- A handler that returns nil without trying to write, on an event it should project, is not modelled as a failure: it is a handler that does not follow the stream.
- Product.ProductsAreReplayable: lossless snapshots of products only with creation first, because an update of an unknown id leaves a product without its id.
- Postgres.Backend.Commit: a writer that PostgreSQL would keep waiting for a conflicting row is modelled by the check of the constraints when it commits.
- Postgres.Backend.SelectForUpdate: the choice among rows with equal timestamps is fixed in the body but not in the contract.
- The body of `WithTransaction` is written out at each of its uses, because methods cannot be passed as arguments.
- One aggregate is saved per transaction, and one aggregate type is configured per system.
- JSON is a codec of events without loss; snapshots are a codec with explicit hypotheses; the id inside the product value is never set and left out.
- The event registry is the predicate `Registered` on the two product events.
- Prices are real numbers; the integer price column of the sample is not modelled.
- Ids are naturals with 0 as the zero UUID; generated ids and the clock are parameters.
- Tickers, goroutines and their shutdown, logging, stream creation, the query handler and the wiring of the sample are not part of this model.
- A message that cannot be decoded is not modelled; outbox rows always decode.
- Fairness: `CatchUp.AlwaysCatchesUp` shows that catching up is always possible, not that a scheduler does it.
