# Depot aggregate root: the unit of work

This project models the unit of work of `depot/depot-aggregate-root` (`src/UnitOfWork.php`). The unit of work is the write-side coordinator of an event-sourced store. It does three things:

- **Tracking.** It keeps a registry of tracked aggregates, grouped by contract name in insertion order. It refuses to track a (type, id) pair twice.
- **Commit.** For every tracked aggregate, in registry order, it numbers the pending changes from `readVersion - count(changes)` and builds one envelope per change. It then creates or opens the aggregate's stream, appends the envelopes and commits them. Only then does it clear the aggregate's changes.
- **Get.** It returns the tracked instance when there is one. Otherwise it rebuilds the aggregate from its stream and tracks it, or returns null when the stream is empty.

The model is split into modules:

- `Changes` (changes.dfy): the change and envelope values, and the stream-to-changes mapping of `findPersistedAggregate`.
- `Envelopes` (envelopes.dfy): the pure definition of the envelopes persist builds (`BuildEnvelopes`), with lemmas on their versions and event ids, on gap-free streams and on rebuilding a stream from its own changes.
- `Aggregates` (aggregate.dfy): the aggregate as the aggregate manipulator sees it. It has an identity, a version, pending changes and the changes replayed into it.
- `IdGeneration` (id_generation.dfy): event-id and commit-id generators, as counters over a sequence of ids.
- `EventStorage` (event_store.dfy): the event store collaborator. It keeps a map of streams and a log of the calls it receives. Streams are created or opened as handles that buffer envelopes and commit them under an expected-version check.
- `Registry` (registry.dfy): the tracked-aggregate registry as a value, with the lookups and updates of `track` and `findTrackedAggregate`.
- `AggregateRoot` (unit_of_work.dfy): the `UnitOfWork` class. Its methods update the registry, the store and the aggregates in place.
- `CommitLog` (commit_log.dfy): the record of a commit as the store sees it. Each write notes the registry position, the stream, create or open, the commit id and the batch. It includes the streams and store calls that follow from the writes, and the positions at which a commit finds changes pending, in commit order.
- `Scenarios` (scenarios.dfy): scenarios after the repository's unit tests. They cover tracking the same account twice, a new account over an existing stream (persisted directly and committed), a new account committed through create, a new account whose stream is created and then opened by a later persist, a get followed by a persist, and a get repeated.

Failures that the PHP code raises as exceptions are returned as `Outcome` values (`Pass` or `Fail(error)`), with the error tags of `Errors`. A call on a missing (null) id generator is modelled as the `NoEventIdGenerator` and `NoCommitIdGenerator` tags, because the constructor accepts null for both.

## Model

| member | source | states |
|---|---|---|
| Changes.WriteChange | src/UnitOfWork.php:235-241 | writeChange for a writer that keeps the envelope's event id and version: the change reader finds both on the change and reads back the event, metadata and timestamp that were stored |
| Changes.ToChanges | src/UnitOfWork.php:234-242 | one change per stored envelope, in stream order, carrying that envelope's event, metadata, timestamp, event id and version |
| Envelopes.BuildPrefix | src/UnitOfWork.php:130-153 | the envelopes the loop has built after passing the first n changes: one per change passed |
| Envelopes.BuildEnvelopes | src/UnitOfWork.php:127-153 | exactly one envelope per pending change |
| Envelopes.BuildPrefixStep | src/UnitOfWork.php:131-153 | one more pass of the loop appends the next change's envelope, under its own event id or else the next unused generated id, and needs at most the ids available |
| Envelopes.MissingBeforeGrows | src/UnitOfWork.php:134-136 | the count of generated ids never falls as the loop passes changes, and rises past every change without an id of its own |
| Envelopes.BuildPrefixAt | src/UnitOfWork.php:131-153 | after n passes, the k-th envelope is built from the k-th change, with version initialVersion + k + 1 unless the change carries one, and the change's own event id or generated id number MissingBefore(changes, k) |
| Envelopes.BuildEnvelopesAt | src/UnitOfWork.php:131-153 | the k-th envelope is built from the k-th change, with version initialVersion + k + 1 unless the change carries one, and the change's own event id or the next unused generated id |
| Envelopes.EnvelopesFollowChanges | src/UnitOfWork.php:131-153 | envelopes keep their changes' order, event, metadata and timestamp, and carry the contract names the resolvers give event and metadata |
| Envelopes.EnvelopeVersions | src/UnitOfWork.php:132-141 | every envelope's version is the change's own version when it can be read, otherwise initialVersion plus its 1-based position |
| Envelopes.EnvelopeEventIds | src/UnitOfWork.php:134-136 | a change's own event id is kept; each change without one takes a generated id, in change order, and no generated id is used twice |
| Envelopes.VersionsAreConsecutive | src/UnitOfWork.php:127-141 | without supplied versions the envelopes are versioned initialVersion + 1, initialVersion + 2, ... and the last is initialVersion + number of changes, the aggregate's read version |
| Envelopes.AppendKeepsGapFree | src/UnitOfWork.php:127-160 | appending a commit numbered from the stream's last version keeps a stream versioned 0, 1, 2, ... gap-free; a new aggregate's N changes are stored as versions 0 to N - 1 |
| Envelopes.NoMissingIds | src/UnitOfWork.php:134-136 | no id is generated exactly when every change carries its own event id; so changes rebuilt from a stream need no generator |
| Envelopes.RebuildFromStream | src/UnitOfWork.php:234-242 | the changes rebuilt from a stream, built into envelopes again, give back exactly the stored envelopes (round trip of writeChange and the persist loop) |
| Aggregates.Aggregate.constructor | src/UnitOfWork.php:255-260 | instantiateForReconstitution: a blank aggregate with version -1, nothing pending and nothing replayed |
| Aggregates.Aggregate.Record | tests/unit/UnitOfWorkTest.php:88-113 | the aggregate's own business methods queue one change and count it in the version |
| Aggregates.Aggregate.ClearChanges | src/UnitOfWork.php:162 | clearChanges drops the pending changes and keeps the version |
| Aggregates.Aggregate.Reconstitute | src/UnitOfWork.php:262-267 | reconstitute replays the events and counts one version per event, leaving nothing pending |
| IdGeneration.EventIdGenerator.GenerateEventId | src/UnitOfWork.php:134-136 | each call hands out the next id of the generator's sequence |
| IdGeneration.EventIdGenerator.Upcoming | src/UnitOfWork.php:134-136 | the next n ids the generator will hand out, in order |
| IdGeneration.CommitIdGenerator.GenerateCommitId | src/UnitOfWork.php:160 | each call hands out the next commit id |
| EventStorage.EventStore.Create | src/UnitOfWork.php:155-157 | create gives a handle whose commit expects no prior version (-1) and records the call; no stream changes |
| EventStorage.EventStore.Open | src/UnitOfWork.php:229-242 | open gives a handle that holds the stream's history, which all() returns in stream order, and expects that history's last version, and records the call; no stream changes |
| EventStorage.EventStream.AppendAll | src/UnitOfWork.php:159 | appendAll buffers the envelopes after the ones already buffered, in order |
| EventStorage.EventStream.Commit | src/UnitOfWork.php:160 | commit records the batch and stores it after the stream's history exactly when the stream is still at the expected version; otherwise it fails with an optimistic concurrency failure and changes no stream. A handle whose history ends at its expected version stays so |
| Registry.GroupIndex | src/UnitOfWork.php:98-101 | array_key_exists on the contract name: the position of the first group with that name (no group before it has the name), or -1 exactly when no group has it |
| Registry.FirstNamed | src/UnitOfWork.php:98-101 | the lookup by contract name finds the first group with that name: a group at position k named so, with no group before it named so, is the position found |
| Registry.IndexOfId | src/UnitOfWork.php:198-203 | the position of the first aggregate of a group that identifies as the id, or -1 exactly when none does |
| Registry.Find | src/UnitOfWork.php:190-206 | null exactly when the contract has no group or no aggregate of its group identifies as the id; otherwise the first aggregate of that group, in tracking order, that identifies as the id |
| Registry.Prepare | src/UnitOfWork.php:86-96 | a missing group is added, empty, at the end; existing groups keep their places; contract names stay distinct |
| Registry.Add | src/UnitOfWork.php:73-84 | tracking keeps the contract names of the registry distinct |
| Registry.AddAppendsToGroup | src/UnitOfWork.php:81-84 | track creates the contract's group at the end if it is missing, appends the aggregate at the end of that group, and changes no other group |
| Registry.AddThenFound | src/UnitOfWork.php:73-84 | after tracking, a lookup of the aggregate's own (type, id) finds a tracked instance, and finds this one when none was tracked before |
| Registry.PrepareKeepsLookups | src/UnitOfWork.php:86-96 | adding an empty group changes the result of no lookup |
| Registry.AddKeepsOtherLookups | src/UnitOfWork.php:81-84 | tracking changes the result of no lookup of another (type, id) |
| Registry.AddKeepsUnique | src/UnitOfWork.php:73-84 | tracking an id that is not yet tracked keeps identities unique within each group |
| CommitLog.Keys | src/UnitOfWork.php:105-111 | the stream of each registry position is its group's contract name with the aggregate's identity, the pair persist is called with |
| CommitLog.OneWrite | src/UnitOfWork.php:155-160 | a single write stores its batch after its stream's history, and its calls are create or open followed by the commit of the batch |
| CommitLog.AppliedConcat | src/UnitOfWork.php:105-114 | writing one record and then another is writing the two together |
| CommitLog.CallsOfConcat | src/UnitOfWork.php:105-114 | the calls of two records in a row are the calls of the first followed by those of the second |
| CommitLog.AppliedExtends | src/UnitOfWork.php:155-160 | writes only append: every stream begins with what it held before |
| CommitLog.AppliedElsewhere | src/UnitOfWork.php:155-160 | a stream no write was made to keeps its history |
| CommitLog.AppliedOnce | src/UnitOfWork.php:155-160 | a stream written exactly once holds its old history followed by that write's batch |
| CommitLog.WrittenStreams | src/UnitOfWork.php:105-112 | with distinct contract names and ids unique within each group, writes in commit order go to distinct streams, so each written stream holds its old history followed by exactly its batch |
| CommitLog.DueBounds | src/UnitOfWork.php:105-114 | every position due up to a stop lies before the stop and has changes pending |
| CommitLog.DueOrdered | src/UnitOfWork.php:105-114 | the positions due are listed strictly in commit order: group by group, and in tracking order within a group |
| CommitLog.DueComplete | src/UnitOfWork.php:105-114 | every position before the stop with changes pending is due |
| CommitLog.DueStep | src/UnitOfWork.php:107-113 | one position further, the positions due gain that position exactly when it has changes pending |
| CommitLog.RecordPass | src/UnitOfWork.php:107-113 | a persist that passed at a position extends the record to the next position: its write, present exactly when changes were pending, is appended with its streams and calls |
| CommitLog.RecordStep | src/UnitOfWork.php:107-113 | one step of the inner loop: a persist that passed extends the record to the next position; one that failed leaves the record and the streams as they were |
| CommitLog.NextGroup | src/UnitOfWork.php:105-107 | the record up to the end of a group is the record up to the start of the next group |
| CommitLog.RecordedInOrder | src/UnitOfWork.php:105-114 | a record up to a stop lists its writes in commit order, before the stop, only at positions with changes pending, one envelope per pending change, and at every such position |
| AggregateRoot.VisitedAt | src/UnitOfWork.php:105-113 | an aggregate commit has reached on its way to a position sits at a registry position before it |
| AggregateRoot.VisitedFrom | src/UnitOfWork.php:105-113 | an aggregate at a registry position before a position has been reached on the way there (the converse of VisitedAt) |
| AggregateRoot.Pending | src/UnitOfWork.php:105-125 | what commit finds pending at each position: the aggregate's changes at its first position in commit order, and none at a later position of the same instance, which the first persist has already cleared |
| AggregateRoot.DistinctPending | src/UnitOfWork.php:105-125 | with no instance tracked twice, commit finds at every position all the changes its aggregate holds |
| AggregateRoot.PendingHere | src/UnitOfWork.php:105-125 | when commit reaches a position, the aggregate there holds exactly the changes counted as pending there |
| AggregateRoot.ProgressStart | src/UnitOfWork.php:103-105 | when commit begins, nothing has been cleared and nothing has moved |
| AggregateRoot.ProgressStep | src/UnitOfWork.php:107-113 | a persist that clears the aggregate at a position on success, and changes nothing else, moves commit one position on when it passes and leaves it in place when it fails |
| AggregateRoot.ProgressNextGroup | src/UnitOfWork.php:105-107 | reaching the end of a group is reaching the start of the next |
| AggregateRoot.ProgressHeld | src/UnitOfWork.php:103-115 | progress up to a position, read off the aggregates: versions and replayed changes kept, every aggregate before the position cleared, every aggregate not yet reached holding its changes |
| AggregateRoot.PersistedAsHeldStep | src/UnitOfWork.php:107-113 | a record of passing persists, extended by one more write that passed against the streams the record leaves, is still a record of passing persists |
| AggregateRoot.HeldStep | src/UnitOfWork.php:107-113 | one step at a position read against what it held when commit began: the record extended by the step's write (present exactly when it passed with changes pending) stays one of passing persists, and a failure is the one persist gives for the changes held there |
| AggregateRoot.PersistOutcomeOrder | src/UnitOfWork.php:117-162 | the order in which persist decides its outcome (PersistOutcome), stated on the changes: with nothing pending it passes; otherwise it fails with NoEventIdGenerator exactly when some change has no event id of its own and there is no event-id generator; failing that, with NoCommitIdGenerator exactly when there is no commit-id generator; failing that, with OptimisticConcurrencyFailed exactly when it is a create (initial version -1) of a stream whose last version is not -1; and it passes exactly when none of these applies. An open never fails |
| AggregateRoot.PassedBatch | src/UnitOfWork.php:127-160 | what a passing persist stored: both generators were usable for its changes, a create found the stream empty, and the batch has one envelope per change with the change's event and its own version or else the initial version plus its 1-based position |
| AggregateRoot.CommitWrites | src/UnitOfWork.php:103-115 | what a record up to a stop means for the store: writes in commit order at exactly the positions with changes pending, one envelope per change; every stream begins with its old history, no untracked stream changes, and with unique ids each written stream is its old history followed by its batch |
| AggregateRoot.ReloadedAggregateContinuesStream | src/UnitOfWork.php:127-157 | an aggregate rebuilt from a non-empty gap-free stream, which reads version \|history\| - 1 plus one per change recorded since, has the stream's last version as its initial version. So its next commit opens the stream rather than creating it, and the stream stays gap-free |
| AggregateRoot.UnitOfWork.constructor | src/UnitOfWork.php:50-65 | the collaborators are stored and nothing is tracked |
| AggregateRoot.UnitOfWork.IsPrepared | src/UnitOfWork.php:98-101 | true exactly when some group has the contract's name |
| AggregateRoot.UnitOfWork.EnsurePrepared | src/UnitOfWork.php:86-96 | the registry becomes Prepare of the old one |
| AggregateRoot.UnitOfWork.FindTracked | src/UnitOfWork.php:190-206 | the linear search returns exactly what Find specifies |
| AggregateRoot.UnitOfWork.Track | src/UnitOfWork.php:73-84 | fails with AlreadyTracked, leaving the registry alone, exactly when the (type, id) is tracked; otherwise the registry becomes Add of the old one; uniqueness of ids is preserved when the id given is the aggregate's own |
| AggregateRoot.UnitOfWork.EnvelopeOf | src/UnitOfWork.php:132-152 | one pass of the loop extends the envelopes built so far to those of one change more, drawing one id from the generator exactly when the change has none; without a generator such a change fails |
| AggregateRoot.UnitOfWork.EnvelopesFor | src/UnitOfWork.php:127-153 | the persist loop builds exactly BuildEnvelopes with the generator's next ids and draws one id per change without its own; with no generator it fails exactly when some change lacks an id |
| AggregateRoot.UnitOfWork.WriteStream | src/UnitOfWork.php:155-160 | create exactly when the initial version is -1, else open; then append and commit under the next commit id; the failure cases and the new streams follow |
| AggregateRoot.UnitOfWork.PersistChanges | src/UnitOfWork.php:127-162 | with changes pending: the outcome is PersistOutcome of the changes, their initial version and the stream's history (no event id and no generator, no commit-id generator, create over a stream that holds a version), create or open and the commit of the planned envelopes are the store calls made, and the changes are cleared only when everything succeeded |
| AggregateRoot.UnitOfWork.Persist | src/UnitOfWork.php:117-163 | no store call when nothing is pending; otherwise the outcome is PersistOutcome of the changes, their initial version and the stream's history as it stood, the planned envelopes are committed after the stream's history, and changes are cleared only when everything succeeded; version and replayed history are untouched; only the aggregate's own stream can change, and only by growing |
| AggregateRoot.UnitOfWork.PersistAt | src/UnitOfWork.php:107-113 | persist of the aggregate at one position, under its group's contract and its own identity. Its changes are cleared on success and kept on failure; its version and replayed changes stay. With changes pending and success, there is exactly one write: to that position's stream, created exactly when the initial version is -1, under the next commit id, with one envelope per change. Its batch is the planned envelopes: BuildEnvelopes of the changes at their initial version with the event ids handed out, and persist passed against the stream's history as it stood (PassedWith). The outcome is PersistOutcome against that history. The streams are the old ones with that write applied, and on success the calls are the old ones followed by the write's create or open and commit |
| AggregateRoot.UnitOfWork.PersistGroup | src/UnitOfWork.php:106-113 | the inner loop: the aggregates of one group are persisted in tracking order up to the first failure. On success commit has reached the start of the next group; on failure it stops at a position of the group. Every position before the stop has been cleared, every aggregate not reached keeps its changes, and the record gains one write per position reached with changes pending, in order, with the streams and calls it accounts for; every write passed with what its position held when commit began, and a failure is the one persist meets at the stop with what it held there, where commit finds changes pending |
| AggregateRoot.UnitOfWork.PersistTracked | src/UnitOfWork.php:107-113 | persist under the group's contract and the aggregate's own identity: the outcome is PersistOutcome against the stream as it stood; on success with changes pending the stream gains exactly the planned envelopes, built with the ids handed out, and the calls gain create or open and the commit under the next commit id; otherwise no stream changes |
| AggregateRoot.UnitOfWork.PersistHeld | src/UnitOfWork.php:107-113 | one persist as a step of the record: on success the record moves to the next position; the record extended by its write stays one of passing persists of what each position held when commit began, and a failure is FailsAsHeld: the outcome persist gives for the changes the position held, against the stream as the record leaves it, at a position where commit finds changes pending |
| AggregateRoot.UnitOfWork.PersistStep | src/UnitOfWork.php:107-113 | one pass of the inner loop: on success commit moves one position on, clearing that aggregate and adding its write to the record; on failure it stays, and no stream changes; every write of the record passed with what its position held (PersistedAsHeld), and a failure is the one persist meets with what the position held (FailsAsHeld), at a position where commit finds changes pending |
| AggregateRoot.UnitOfWork.PersistGroups | src/UnitOfWork.php:105-114 | the outer loop: groups in insertion order up to the first failure; on success commit has reached the end of the registry, on failure it stops at a position of the failing group. The record lists one write per position before the stop with changes pending, in commit order; the streams are the old ones with those writes applied, and the calls begin with the old ones followed by the writes' calls (exactly those on success); every write passed with what its position held when commit began, against its stream with the writes before it applied, and a failure is the one persist meets at the stop with what it held there, where commit finds changes pending |
| AggregateRoot.UnitOfWork.Commit | src/UnitOfWork.php:103-115 | groups in insertion order, aggregates in tracking order, stopping at the first failure. On success every tracked aggregate has nothing pending. Every aggregate before the stop has nothing pending, and every aggregate not reached keeps its changes; versions and replayed changes are untouched. The writes are exactly at the positions before the stop where changes were pending, in commit order, each with one envelope per pending change. The streams are the old ones with the batches appended, and with ids unique within each group each written stream is its old history followed by its batch. The call log begins with the old calls followed by each write's create or open and commit (exactly that on success). Every stream only grows, and streams of untracked keys are unchanged. Each write is the passing persist of the changes its position held when commit began, against its stream with the earlier writes applied: its batch is BuildEnvelopes of those changes at their initial version with the write's event ids. On failure commit found changes pending at the stop position (so an instance already persisted at an earlier position never fails there), and the outcome is PersistOutcome of those changes against its stream with the writes applied: the error persist gives there |
| AggregateRoot.UnitOfWork.FindPersisted | src/UnitOfWork.php:227-253 | opens the stream; an empty stream gives null and tracks nothing; otherwise a fresh aggregate with the stream's changes replayed, version one less than the stream length and nothing pending, tracked under the (type, id) |
| AggregateRoot.UnitOfWork.Get | src/UnitOfWork.php:171-182 | a tracked instance is returned as is, with no store call; otherwise the stream is opened and an empty one gives null, a non-empty one the rebuilt aggregate, which is now tracked and found by a later get |
| Scenarios.NewAggregateCreatesStream | tests/unit/UnitOfWorkTest.php:86-110 | a new account with two changes is stored through create as versions 0 and 1, and is left at version 1 with nothing pending |
| Scenarios.TrackOverExistingStream | tests/unit/UnitOfWorkTest.php:127-132 | a new account with one change, tracked over a stream that holds one event: the registry holds exactly that account |
| Scenarios.OneAccountPending | src/UnitOfWork.php:103-115 | a registry of one account is found by commit at one position with all the account's changes pending |
| Scenarios.FirstWriteRefused | tests/unit/UnitOfWorkTest.php:124-135 | a first write for the account over the stream holding an event cannot be a passing persist of its change |
| Scenarios.OnlyConcurrencyFailure | tests/unit/UnitOfWorkTest.php:124-135 | commit of the new account over the existing stream fails with an optimistic concurrency failure at the account's position and writes nothing; CommitOverExistingStream then finds the change kept and the stream unchanged |
| Scenarios.TrackNewAccount | tests/unit/UnitOfWorkTest.php:86-97 | a new account with two changes, tracked with no stream stored: the registry holds exactly that account |
| Scenarios.OnlyBothStored | tests/unit/UnitOfWorkTest.php:86-110 | commit of the new account passes with one write, and its stream then holds its two events as versions 0 and 1; CommitNewAccount then finds its changes cleared |
| Scenarios.GetStoredAccount | tests/unit/UnitOfWorkTest.php:152-158 | get on a stored account with two events opens its stream once and rebuilds it at version 1 with nothing pending, leaving the stream as it was |

## Left out

- Serialization, physical persistence and the commit ids the store keeps. The event store is a map of streams with a call log, and its expected-version check is the one the unit tests rely on. Store failures other than the version check are not modelled.
- Contract resolution (`resolveFromObject`) is a pair of functions passed in as `Resolvers`. Event payloads, metadata and timestamps are opaque strings and integers.
- The reflection-based strategies are represented by the abstract aggregate operations of `Aggregates.Aggregate`: the named-constructor instantiator and the public-method version reader.
- The change reader is the fields of `Changes.Change`: an event, optional metadata, a timestamp, and an optional event id and version.
- The change writer is one concrete writer, `Changes.WriteChange`, which keeps the envelope's event id and version on the change. The repository's `ChangeIsEventWriter` (src/ChangeWriting/ChangeIsEventWriter.php:7-10) returns the bare event instead, dropping the id, version, timestamp and metadata. `Envelopes.RebuildFromStream`, and the half of `Envelopes.NoMissingIds` that says rebuilt changes need no event id generator, hold only for the model's writer.
- The "unsupported type" errors of the change manipulators (`AggregateRootChangeNotSupported`) are not modelled: every change and aggregate has the shape the model gives it.
- Error message formatting: errors are tags.
- Aggregates.Aggregate.constructor: the aggregate's id is fixed when it is instantiated. In the source, instantiateForReconstitution makes an object without an id and the replayed events give it one.
- Aggregates.Aggregate.Reconstitute: the version counts the replayed events. The source leaves this to the aggregate. On a stream versioned 0, 1, 2, ... this equals the last event's version, as `ReloadedAggregateContinuesStream` shows.
- `findTrackedAggregate` compares ids with PHP's loose `==`. The model compares them as strings.
- `findAndTrackPersistedAggregate` (src/UnitOfWork.php:214-219) only forwards to `findPersistedAggregate` and is folded into `FindPersisted`.
- AggregateRoot.UnitOfWork.Commit: the clause that each written stream is its old history followed by exactly its batch needs ids unique within each group. When the same (contract, id) is tracked twice, which track only allows when the id passed differs from the aggregate's own, two writes can go to one stream; the commit then states only that the streams are the old ones with the writes applied in order.
- An instance tracked at two positions is persisted at the first and finds nothing pending at the second, so commit neither writes nor fails there. `AggregateRoot.Pending` counts its changes at the first position only.
- The handle `open` gives expects the stream's last version at the time of opening. Persist never hands `initialAggregateVersion` to `open` (src/UnitOfWork.php:155-157). So persist of an aggregate whose initial version differs from the stream's last version, such as one loaded before another writer committed, commits without a concurrency failure, and the stream is then not gap-free: a stale writer is not refused. `AggregateRoot.PersistOutcome` states this: only a create over a stream that holds a version fails the version check.
- Uniqueness of ids is proved only for a track whose id is the aggregate's own identity. The source does not check that the two agree.
- The source's two probes per optional field (`canReadEventId`/`readEventId`, `canReadEventVersion`/`readEventVersion`) are one `Option` field each.

An event store might be expected to refuse `create` on an existing stream and `open` on a missing one. The code and its tests show otherwise, and the model follows them:

- The unit test for a new aggregate over an existing stream (tests/unit/UnitOfWorkTest.php:127-135) expects the failure from the commit, not from the create. The model's create always succeeds, and the commit fails on the version check.
- `get` (src/UnitOfWork.php:227-246) opens the stream and treats an empty history as "no such aggregate". The model's open of a missing stream gives an empty history. As a consequence, persist of an aggregate whose initial version is not -1 but whose stream is empty opens the stream and commits.
