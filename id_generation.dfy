/** Event-id and commit-id generators: each call hands out the next id of the
    strategy's sequence. */
module IdGeneration {
  import opened Changes

  /** Id number n of a strategy's sequence of event ids. */
  function IdAt(source: nat -> EventId, n: nat): EventId {
    source(n)
  }

  /** Ids number start, start + 1, ..., start + n - 1 of a strategy's sequence. */
  function IdsFrom(source: nat -> EventId, start: nat, n: nat): (ids: seq<EventId>)
    ensures |ids| == n && forall k :: 0 <= k < n ==> ids[k] == IdAt(source, start + k)
  {
    seq(n, k requires 0 <= k < n => IdAt(source, start + k))
  }

  class EventIdGenerator {
    /** The ids this generator hands out, in order. */
    const source: nat -> EventId
    /** How many ids have been handed out. */
    var issued: nat

    constructor (source: nat -> EventId)
      ensures this.source == source && issued == 0
    {
      this.source := source;
      issued := 0;
    }

    /** The id the next call hands out. */
    function Next(): EventId
      reads this
    {
      IdAt(source, issued)
    }

    method GenerateEventId() returns (id: EventId)
      modifies this
      ensures id == old(Next()) && issued == old(issued) + 1
    {
      id := IdAt(source, issued);
      issued := issued + 1;
    }

    /** The next n ids the generator will hand out. */
    function Upcoming(n: nat): (ids: seq<EventId>)
      reads this
      ensures |ids| == n && forall k :: 0 <= k < n ==> ids[k] == IdAt(source, issued + k)
    {
      IdsFrom(source, issued, n)
    }
  }

  class CommitIdGenerator {
    const source: nat -> CommitId
    var issued: nat

    constructor (source: nat -> CommitId)
      ensures this.source == source && issued == 0
    {
      this.source := source;
      issued := 0;
    }

    /** The id the next call hands out. */
    function Next(): CommitId
      reads this
    {
      source(issued)
    }

    method GenerateCommitId() returns (id: CommitId)
      modifies this
      ensures id == old(Next()) && issued == old(issued) + 1
    {
      id := source(issued);
      issued := issued + 1;
    }
  }
}
