/** Scenarios of the unit of work, after the repository's own unit tests: an
    account aggregate under one contract, changes that carry their own event ids,
    no event id generator and a commit id generator. */
module Scenarios {
  import opened Wrappers
  import opened Changes
  import opened Errors
  import opened Envelopes
  import opened Registry
  import opened Aggregates
  import opened IdGeneration
  import opened EventStorage
  import opened CommitLog
  import opened AggregateRoot

  const Account := Contract("Banking.Account", "Account")
  const Tags := Resolvers(e => "Event." + e, m => "Metadata")

  /** A change as the account's business methods record it: own event id, no own version. */
  function WasOpened(eventId: EventId): Change {
    Change("AccountWasOpened", None, 25, Some(eventId), None)
  }

  function Increased(eventId: EventId): Change {
    Change("AccountBalanceIncreased", None, 100, Some(eventId), None)
  }

  /** A stored envelope of the fixture stream. */
  function Stored(eventId: EventId, version: int): Envelope {
    Envelope("Event.AccountWasOpened", eventId, "AccountWasOpened", version, 0, "Metadata", None)
  }

  /** Tracking the same (type, id) twice in a row is refused the second time. */
  method TrackAgainRightAway() {
    var store := new EventStore(map[]);
    var commitIds := new CommitIdGenerator(n => "commit");
    var uow := new UnitOfWork(store, Tags, null, commitIds);
    var account := new Aggregate("fixture-account-201");
    var first := uow.Track(Account, "fixture-account-201", account);
    assert first.Pass?;
    AddThenFound([], Account, account);
    var second := uow.Track(Account, "fixture-account-201", account);
    assert second == Fail(AlreadyTracked);
  }

  /** A new aggregate (initial version -1) whose stream already holds events is written
      through create, and the commit of that stream is refused. */
  method CreateOverExistingStream() {
    var key := StreamKey(Account.name, "fixture-account-001");
    var store := new EventStore(map[key := [Stored("e-0", 0)]]);
    var commitIds := new CommitIdGenerator(n => "commit");
    var uow := new UnitOfWork(store, Tags, null, commitIds);
    var account := new Aggregate("fixture-account-001");
    account.Record(WasOpened("e-5"));
    assert account.changes == [WasOpened("e-5")] && account.version == 0;
    assert MissingIds(account.changes) == 0 by {
      NoMissingIds(account.changes);
    }
    assert LastVersion(store.History(key)) == 0;
    var outcome := uow.Persist(Account, "fixture-account-001", account);
    assert outcome == Fail(OptimisticConcurrencyFailed);
    assert account.changes == [WasOpened("e-5")];
    assert store.streams == map[key := [Stored("e-0", 0)]];
  }

  /** A new account with one change pending, tracked over a stream that already
      holds an event. */
  method TrackOverExistingStream() returns (uow: UnitOfWork, account: Aggregate)
    ensures fresh(uow) && fresh(uow.store) && fresh(uow.commitIds) && fresh(account)
    ensures uow.Valid() && uow.eventIds == null && uow.commitIds != null && uow.resolvers == Tags
    ensures uow.groups == [Group(Account, [account])]
    ensures account.id == "fixture-account-001" && account.changes == [WasOpened("e-5")]
    ensures account.version == 0 && account.replayed == []
    ensures uow.store.streams == map[StreamKey(Account.name, "fixture-account-001") := [Stored("e-0", 0)]]
  {
    var key := StreamKey(Account.name, "fixture-account-001");
    var store := new EventStore(map[key := [Stored("e-0", 0)]]);
    var commitIds := new CommitIdGenerator(n => "commit");
    uow := new UnitOfWork(store, Tags, null, commitIds);
    account := new Aggregate("fixture-account-001");
    account.Record(WasOpened("e-5"));
    assert account.changes == [WasOpened("e-5")] && account.version == 0;
    assert Prepare([], Account) == [Group(Account, [])];
    assert GroupIndex([Group(Account, [])], Account.name) == 0;
    var tracked := uow.Track(Account, "fixture-account-001", account);
    assert tracked.Pass?;
    var none: seq<Aggregate> := [];
    assert none + [account] == [account];
    assert [Group(Account, none)][0 := Group(Account, [account])] == [Group(Account, [account])];
  }

  /** A registry holding only the account, with changes pending, is found so by commit:
      one position, holding what the account holds, with all its changes pending there. */
  lemma OneAccountPending(groups: seq<Group>, account: Aggregate)
    requires groups == [Group(Account, [account])]
    ensures Snapshot(groups) == [[Held(account.changes, account.version, account.replayed)]]
    ensures PendingCounts(groups) == [[|account.changes|]]
  {
    var snap := Snapshot(groups);
    assert |snap| == 1 && |snap[0]| == 1 && snap[0][0] == Held(account.changes, account.version, account.replayed);
    assert snap[0] == [Held(account.changes, account.version, account.replayed)];
    assert !VisitedBefore(groups, account, 0, 0);
    var counts := PendingCounts(groups);
    assert |counts| == 1 && |counts[0]| == 1 && counts[0][0] == |account.changes|;
    assert counts[0] == [|account.changes|];
  }

  /** A first write at the account's position, against the stream holding one event,
      cannot be a passing persist of its change: the create meets the stored version. */
  lemma FirstWriteRefused(snap: seq<seq<Held>>, streams: map<StreamKey, seq<Envelope>>, writes: seq<Write>)
    requires snap == [[Held([WasOpened("e-5")], 0, [])]]
    requires streams == map[StreamKey(Account.name, "fixture-account-001") := [Stored("e-0", 0)]]
    requires writes != [] && writes[0].g == 0 && writes[0].i == 0
    requires writes[0].key == StreamKey(Account.name, "fixture-account-001")
    ensures !PassedBefore(snap, Tags, false, true, streams, writes, 0)
  {
    assert MissingIds([WasOpened("e-5")]) == 0 by {
      NoMissingIds([WasOpened("e-5")]);
    }
    assert writes[..0] == [];
  }

  /** What commit's contract leaves possible for the registry of TrackOverExistingStream
      (snap, with counts pending, over streams): only the concurrency failure at the
      account's position, with nothing written. */
  lemma OnlyConcurrencyFailure(groups: seq<Group>, snap: seq<seq<Held>>, counts: seq<seq<nat>>,
                               streams: map<StreamKey, seq<Envelope>>,
                               outcome: Outcome<Failure>, stopG: nat, stopI: nat, writes: seq<Write>)
    requires |groups| == 1 && |groups[0].aggregates| == 1
    requires KeyAt(groups, 0, 0) == StreamKey(Account.name, "fixture-account-001")
    requires snap == [[Held([WasOpened("e-5")], 0, [])]] && counts == [[1]]
    requires streams == map[StreamKey(Account.name, "fixture-account-001") := [Stored("e-0", 0)]]
    requires outcome.Pass? ==> stopG == |groups| && stopI == 0
    requires outcome.Fail? ==> stopG < |groups| && stopI < |groups[stopG].aggregates|
    requires InCommitOrder(Keys(groups), writes, stopG, stopI)
    requires Positions(writes) == Due(counts, stopG, stopI)
    requires PersistedAsHeld(snap, Tags, false, true, streams, writes)
    requires outcome.Fail? ==>
      FailsAsHeld(snap, counts, false, true, HistoryOf(Applied(streams, writes), KeyAt(groups, stopG, stopI)), stopG, stopI, outcome)
    ensures outcome == Fail(OptimisticConcurrencyFailed) && stopG == 0 && stopI == 0 && writes == []
  {
    if writes != [] {
      assert WriteAt(Keys(groups), writes[0]);
      FirstWriteRefused(snap, streams, writes);
    }
    assert Due(counts, 1, 0) == [(0, 0)] && Due(counts, 0, 0) == [];
    assert MissingIds([WasOpened("e-5")]) == 0 by {
      NoMissingIds([WasOpened("e-5")]);
    }
  }

  /** The same new aggregate, tracked and committed: commit stops at its position with
      the concurrency failure, writes nothing and leaves its change pending. */
  method CommitOverExistingStream() {
    var key := StreamKey(Account.name, "fixture-account-001");
    var uow, account := TrackOverExistingStream();
    var store := uow.store;
    ghost var groups := uow.groups;
    OneAccountPending(groups, account);
    ghost var snap := Snapshot(groups);
    ghost var counts := PendingCounts(groups);
    assert !VisitedBefore(groups, account, 0, 0);
    ghost var streams := store.streams;
    var outcome, stopG, stopI, writes := uow.Commit();
    OnlyConcurrencyFailure(groups, snap, counts, streams, outcome, stopG, stopI, writes);
    assert outcome == Fail(OptimisticConcurrencyFailed);
    assert account.changes == [WasOpened("e-5")];
    assert store.History(key) == [Stored("e-0", 0)];
  }

  /** A new account with two changes pending, tracked with no stream stored. */
  method TrackNewAccount() returns (uow: UnitOfWork, account: Aggregate)
    ensures fresh(uow) && fresh(uow.store) && fresh(uow.commitIds) && fresh(account)
    ensures uow.Valid() && uow.eventIds == null && uow.commitIds != null && uow.resolvers == Tags
    ensures uow.groups == [Group(Account, [account])]
    ensures account.id == "fixture-account-201" && account.changes == [WasOpened("e-1"), Increased("e-2")]
    ensures account.version == 1 && account.replayed == []
    ensures uow.store.streams == map[]
  {
    var store := new EventStore(map[]);
    var commitIds := new CommitIdGenerator(n => "commit");
    uow := new UnitOfWork(store, Tags, null, commitIds);
    account := new Aggregate("fixture-account-201");
    account.Record(WasOpened("e-1"));
    account.Record(Increased("e-2"));
    assert account.changes == [WasOpened("e-1"), Increased("e-2")] && account.version == 1;
    assert Prepare([], Account) == [Group(Account, [])];
    assert GroupIndex([Group(Account, [])], Account.name) == 0;
    var tracked := uow.Track(Account, "fixture-account-201", account);
    assert tracked.Pass?;
    var none: seq<Aggregate> := [];
    assert none + [account] == [account];
    assert [Group(Account, none)][0 := Group(Account, [account])] == [Group(Account, [account])];
  }

  /** What commit's contract leaves possible for the registry of TrackNewAccount (snap,
      with counts pending, over no streams): it passes with one write, and the account's
      stream then holds its two events as versions 0 and 1. */
  lemma OnlyBothStored(groups: seq<Group>, snap: seq<seq<Held>>, counts: seq<seq<nat>>,
                       outcome: Outcome<Failure>, stopG: nat, stopI: nat, writes: seq<Write>)
    requires |groups| == 1 && |groups[0].aggregates| == 1
    requires KeyAt(groups, 0, 0) == StreamKey(Account.name, "fixture-account-201")
    requires snap == [[Held([WasOpened("e-1"), Increased("e-2")], 1, [])]] && counts == [[2]]
    requires outcome.Pass? ==> stopG == |groups| && stopI == 0
    requires outcome.Fail? ==> stopG < |groups| && stopI < |groups[stopG].aggregates|
    requires InCommitOrder(Keys(groups), writes, stopG, stopI)
    requires Positions(writes) == Due(counts, stopG, stopI)
    requires PersistedAsHeld(snap, Tags, false, true, map[], writes)
    requires outcome.Fail? ==>
      FailsAsHeld(snap, counts, false, true, HistoryOf(Applied(map[], writes), KeyAt(groups, stopG, stopI)), stopG, stopI, outcome)
    ensures outcome.Pass? && |writes| == 1
    ensures var stored := HistoryOf(Applied(map[], writes), StreamKey(Account.name, "fixture-account-201"));
      |stored| == 2 && stored[0].event == "AccountWasOpened" && stored[0].version == 0 &&
      stored[1].event == "AccountBalanceIncreased" && stored[1].version == 1
  {
    var changes := [WasOpened("e-1"), Increased("e-2")];
    assert MissingIds(changes) == 0 by {
      NoMissingIds(changes);
    }
    assert PersistOutcome(changes, -1, [], false, true) == Pass;
    assert Due(counts, 1, 0) == [(0, 0)] && Due(counts, 0, 0) == [];
    if outcome.Pass? {
      assert |writes| == 1 && WriteAt(Keys(groups), writes[0]);
      assert PassedBefore(snap, Tags, false, true, map[], writes, 0);
      assert writes[..0] == [];
      PassedBatch(changes, 1, [], Tags, false, true, writes[0]);
    }
  }

  /** The new account, tracked and committed: commit passes, stores both changes through
      create as versions 0 and 1, and clears them. */
  method CommitNewAccount() {
    var key := StreamKey(Account.name, "fixture-account-201");
    var uow, account := TrackNewAccount();
    var store := uow.store;
    ghost var groups := uow.groups;
    OneAccountPending(groups, account);
    ghost var snap := Snapshot(groups);
    ghost var counts := PendingCounts(groups);
    var outcome, stopG, stopI, writes := uow.Commit();
    OnlyBothStored(groups, snap, counts, outcome, stopG, stopI, writes);
    assert outcome.Pass? && account.changes == [];
    var stored := store.History(key);
    assert |stored| == 2 && stored[0].version == 0 && stored[1].version == 1;
  }

  /** A new aggregate's two changes are stored through create as versions 0 and 1. */
  method NewAggregateCreatesStream() returns (uow: UnitOfWork, account: Aggregate)
    ensures fresh(uow) && fresh(uow.store) && fresh(uow.commitIds) && fresh(account)
    ensures uow.Valid() && uow.eventIds == null && uow.commitIds != null && uow.resolvers == Tags
    ensures account.id == "fixture-account-201" && account.changes == [] && account.version == 1
    ensures var stored := uow.store.History(StreamKey(Account.name, "fixture-account-201"));
      |stored| == 2 && stored[0].version == 0 && stored[1].version == 1
    ensures |uow.store.calls| > 0 && uow.store.calls[0] == Created(StreamKey(Account.name, "fixture-account-201"))
  {
    var key := StreamKey(Account.name, "fixture-account-201");
    var store := new EventStore(map[]);
    var commitIds := new CommitIdGenerator(n => "commit");
    uow := new UnitOfWork(store, Tags, null, commitIds);
    account := new Aggregate("fixture-account-201");
    account.Record(WasOpened("e-1"));
    account.Record(Increased("e-2"));
    var changes := account.changes;
    assert changes == [WasOpened("e-1"), Increased("e-2")] && account.version == 1;
    assert MissingIds(changes) == 0 by {
      NoMissingIds(changes);
    }
    assert store.History(key) == [];
    VersionsAreConsecutive(changes, -1, [], Tags);
    assert uow.PlannedEnvelopes(changes, -1) == BuildEnvelopes(changes, -1, [], Tags);
    var outcome := uow.Persist(Account, "fixture-account-201", account);
    assert outcome.Pass?;
  }

  /** After the create of a new aggregate's stream, a change it records next is stored
      through open, as version 2. */
  method CreateThenOpen() {
    var key := StreamKey(Account.name, "fixture-account-201");
    var uow, account := NewAggregateCreatesStream();
    var store := uow.store;
    var stored := store.History(key);
    account.Record(Increased("e-3"));
    var changes := account.changes;
    assert changes == [Increased("e-3")] && account.version == 2;
    assert MissingIds(changes) == 0 by {
      NoMissingIds(changes);
    }
    VersionsAreConsecutive(changes, 1, [], Tags);
    assert uow.PlannedEnvelopes(changes, 1) == BuildEnvelopes(changes, 1, [], Tags);
    ghost var before := store.calls;
    var outcome := uow.Persist(Account, "fixture-account-201", account);
    assert outcome.Pass? && account.changes == [];
    assert store.calls[|before|] == Opened(key);
    assert store.History(key) == stored + [uow.PlannedEnvelopes(changes, 1)[0]];
    assert store.History(key)[2].version == 2;
  }

  /** get on a stored account with two events rebuilds it at version 1 with nothing
      pending, and a second get hands out the same instance without reading the store. */
  method GetTwice() {
    var key := StreamKey(Account.name, "fixture-account-000");
    var history := [Stored("e-0", 0), Stored("e-1", 1)];
    var store := new EventStore(map[key := history]);
    var commitIds := new CommitIdGenerator(n => "commit");
    var uow := new UnitOfWork(store, Tags, null, commitIds);
    assert Find(uow.groups, Account.name, "fixture-account-000") == null;
    var account := uow.Get(Account, "fixture-account-000");
    assert account != null && account.version == 1 && account.changes == [] && |account.replayed| == 2;
    var again := uow.Get(Account, "fixture-account-000");
    assert again == account && store.calls == [Opened(key)];
  }

  /** get on a stored account with two events rebuilds it at version 1, with nothing
      pending, after one open of its stream. */
  method GetStoredAccount() returns (uow: UnitOfWork, account: Aggregate)
    ensures fresh(uow) && fresh(uow.store) && fresh(uow.commitIds) && fresh(account)
    ensures uow.Valid() && uow.eventIds == null && uow.commitIds != null && uow.resolvers == Tags
    ensures account.changes == [] && account.version == 1
    ensures uow.store.History(StreamKey(Account.name, "fixture-account-000")) == [Stored("e-0", 0), Stored("e-1", 1)]
    ensures uow.store.calls == [Opened(StreamKey(Account.name, "fixture-account-000"))]
  {
    var key := StreamKey(Account.name, "fixture-account-000");
    var store := new EventStore(map[key := [Stored("e-0", 0), Stored("e-1", 1)]]);
    var commitIds := new CommitIdGenerator(n => "commit");
    uow := new UnitOfWork(store, Tags, null, commitIds);
    assert Find(uow.groups, Account.name, "fixture-account-000") == null;
    var found := uow.Get(Account, "fixture-account-000");
    assert found != null;
    account := found;
  }

  /** A change recorded by an account that get rebuilt is written through open, after
      the two stored events, as version 2. */
  method GetThenPersist() {
    var key := StreamKey(Account.name, "fixture-account-000");
    var uow, account := GetStoredAccount();
    var store := uow.store;
    account.Record(Increased("e-2"));
    var changes := account.changes;
    assert changes == [Increased("e-2")] && account.version == 2;
    assert MissingIds(changes) == 0 by {
      NoMissingIds(changes);
    }
    VersionsAreConsecutive(changes, 1, [], Tags);
    assert uow.PlannedEnvelopes(changes, 1) == BuildEnvelopes(changes, 1, [], Tags);
    var outcome := uow.Persist(Account, "fixture-account-000", account);
    assert outcome.Pass? && account.changes == [];
    assert store.calls[1] == Opened(key);
    var stored := store.History(key);
    assert |stored| == 3 && stored[..2] == [Stored("e-0", 0), Stored("e-1", 1)] && stored[2].version == 2;
  }
}
