/** The event store collaborator: streams of envelopes keyed by (contract, id),
    opened or created as stream handles that buffer envelopes and commit them
    under an expected-version check. */
module EventStorage {
  import opened Wrappers
  import opened Changes
  import opened Errors

  datatype StreamKey = StreamKey(contract: ContractName, id: AggregateId)

  /** The calls the store has received, in order. */
  datatype StoreCall =
    | Created(key: StreamKey)
    | Opened(key: StreamKey)
    | Committed(key: StreamKey, commitId: CommitId, batch: seq<Envelope>)

  /** Version of the last envelope of a stream; -1 for an empty stream. */
  function LastVersion(history: seq<Envelope>): int {
    if history == [] then -1 else history[|history| - 1].version
  }

  /** A stream's stored envelopes in a map of streams; a stream never written to is empty. */
  function HistoryOf(streams: map<StreamKey, seq<Envelope>>, key: StreamKey): seq<Envelope> {
    if key in streams then streams[key] else []
  }

  /** Every stream of after begins with the same stream of before: nothing was rewritten. */
  ghost predicate Extends(before: map<StreamKey, seq<Envelope>>, after: map<StreamKey, seq<Envelope>>) {
    forall key :: HistoryOf(before, key) <= HistoryOf(after, key)
  }

  lemma ExtendsTransitive(a: map<StreamKey, seq<Envelope>>, b: map<StreamKey, seq<Envelope>>, c: map<StreamKey, seq<Envelope>>)
    requires Extends(a, b) && Extends(b, c)
    ensures Extends(a, c)
  {
  }

  class EventStore {
    var streams: map<StreamKey, seq<Envelope>>
    var calls: seq<StoreCall>

    constructor (streams: map<StreamKey, seq<Envelope>>)
      ensures this.streams == streams && calls == []
    {
      this.streams := streams;
      calls := [];
    }

    /** A stream's stored envelopes; a stream never written to is empty. */
    function History(key: StreamKey): seq<Envelope>
      reads this`streams
    {
      HistoryOf(streams, key)
    }

    /** A handle for a new stream: its commit expects no prior version (-1). */
    method Create(key: StreamKey) returns (s: EventStream)
      modifies this
      ensures fresh(s) && s.store == this && s.key == key
      ensures s.expectedVersion == -1 && s.committed == [] && s.pending == [] && s.Consistent()
      ensures streams == old(streams) && calls == old(calls) + [Created(key)]
    {
      s := new EventStream(this, key, -1, []);
      calls := calls + [Created(key)];
    }

    /** A handle for an existing stream: its commit expects the version stored now. */
    method Open(key: StreamKey) returns (s: EventStream)
      modifies this
      ensures fresh(s) && s.store == this && s.key == key
      ensures s.expectedVersion == LastVersion(History(key)) && s.committed == History(key) && s.pending == []
      ensures s.Consistent()
      ensures streams == old(streams) && calls == old(calls) + [Opened(key)]
    {
      s := new EventStream(this, key, LastVersion(History(key)), History(key));
      calls := calls + [Opened(key)];
    }
  }

  class EventStream {
    const store: EventStore
    const key: StreamKey
    var expectedVersion: int
    var committed: seq<Envelope>
    var pending: seq<Envelope>

    constructor (store: EventStore, key: StreamKey, expectedVersion: int, committed: seq<Envelope>)
      ensures this.store == store && this.key == key && this.expectedVersion == expectedVersion
      ensures this.committed == committed && pending == []
    {
      this.store := store;
      this.key := key;
      this.expectedVersion := expectedVersion;
      this.committed := committed;
      pending := [];
    }

    /** The history the handle holds ends at the version its next commit expects. */
    ghost predicate Consistent()
      reads this
    {
      LastVersion(committed) == expectedVersion
    }

    /** all(): the stream's history as the handle holds it, in stream order. */
    function All(): seq<Envelope>
      reads this
    {
      committed
    }

    /** appendAll: buffers envelopes for the next commit, in the given order. */
    method AppendAll(envelopes: seq<Envelope>)
      modifies this
      ensures pending == old(pending) + envelopes
      ensures committed == old(committed) && expectedVersion == old(expectedVersion)
    {
      pending := pending + envelopes;
    }

    /** commit: stores the buffered batch if the stream is still at the expected
        version, and fails with OptimisticConcurrencyFailed otherwise. */
    method Commit(commitId: CommitId) returns (outcome: Outcome<Failure>)
      modifies this, store
      ensures store.calls == old(store.calls) + [Committed(key, commitId, old(pending))]
      ensures outcome.Pass? <==> old(LastVersion(store.History(key))) == old(expectedVersion)
      ensures outcome.Pass? ==>
        store.streams == old(store.streams)[key := old(store.History(key)) + old(pending)] &&
        committed == old(committed) + old(pending) && pending == [] &&
        expectedVersion == LastVersion(store.History(key))
      ensures outcome.Fail? ==>
        outcome.error == OptimisticConcurrencyFailed && store.streams == old(store.streams) &&
        committed == old(committed) && pending == old(pending) && expectedVersion == old(expectedVersion)
      ensures old(Consistent()) ==> Consistent()
    {
      store.calls := store.calls + [Committed(key, commitId, pending)];
      if LastVersion(store.History(key)) != expectedVersion {
        return Fail(OptimisticConcurrencyFailed);
      }
      store.streams := store.streams[key := store.History(key) + pending];
      committed := committed + pending;
      pending := [];
      expectedVersion := LastVersion(store.History(key));
      outcome := Pass;
    }
  }
}
