/** The aggregate as the aggregate manipulator sees it: identify, readVersion,
    extractChanges, clearChanges, instantiateForReconstitution and reconstitute. */
module Aggregates {
  import opened Changes

  class Aggregate {
    /** identify: a stable identity. */
    const id: AggregateId
    /** readVersion: the version including every pending change already applied. */
    var version: int
    /** extractChanges: the pending changes, oldest first. */
    var changes: seq<Change>
    /** The changes replayed onto this instance by reconstitute. */
    var replayed: seq<Change>

    /** A blank aggregate that was never persisted: conceptual version -1 and nothing pending.
        instantiateForReconstitution yields one of these too. */
    constructor (id: AggregateId)
      ensures this.id == id && version == -1 && changes == [] && replayed == []
    {
      this.id := id;
      version := -1;
      changes := [];
      replayed := [];
    }

    /** The aggregate's own business logic applying a new change: it is queued and
        counted in the version. */
    method Record(c: Change)
      modifies this
      ensures changes == old(changes) + [c] && version == old(version) + 1 && replayed == old(replayed)
    {
      changes := changes + [c];
      version := version + 1;
    }

    /** clearChanges: drops the pending changes after a successful commit. */
    method ClearChanges()
      modifies this
      ensures changes == [] && version == old(version) && replayed == old(replayed)
    {
      changes := [];
    }

    /** reconstitute: replays stored history, one version per event, without
        queueing anything as pending. */
    method Reconstitute(events: seq<Change>)
      modifies this
      ensures replayed == old(replayed) + events && version == old(version) + |events| && changes == old(changes)
    {
      replayed := replayed + events;
      version := version + |events|;
    }
  }
}
