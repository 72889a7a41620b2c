/** Version assignment and envelope building for one aggregate's pending changes,
    as a pure specification of the loop in UnitOfWork::persist. */
module Envelopes {
  import opened Wrappers
  import opened Changes

  /** How many of the first n changes carry no event id of their own, i.e. how many
      ids the event-id generator has been asked for once the loop has passed them. */
  function MissingBefore(changes: seq<Change>, n: nat): nat
    requires n <= |changes|
  {
    if n == 0 then 0
    else MissingBefore(changes, n - 1) + (if changes[n - 1].eventId.None? then 1 else 0)
  }

  /** How many changes carry no event id of their own: the ids persist draws in all. */
  function MissingIds(changes: seq<Change>): nat {
    MissingBefore(changes, |changes|)
  }

  /** The version a change is stored under: its own, when it carries one, else the computed one. */
  function VersionOf(c: Change, computed: int): int {
    c.version.GetOr(computed)
  }

  /** One envelope for one change, with its version and event id already decided. */
  function EnvelopeFor(c: Change, version: int, eventId: EventId, res: Resolvers): Envelope {
    Envelope(res.eventContract(c.event), eventId, c.event, version, c.when, res.metadataContract(c.metadata), c.metadata)
  }

  /** The envelopes of the first n changes: the k-th change (0-based) is given the
      computed version initialVersion + k + 1 unless it carries its own, and its own
      event id or else the next unused id of freshIds. */
  function BuildPrefix(changes: seq<Change>, n: nat, initialVersion: int, freshIds: seq<EventId>, res: Resolvers): (r: seq<Envelope>)
    requires n <= |changes| && MissingBefore(changes, n) <= |freshIds|
    ensures |r| == n
  {
    if n == 0 then []
    else
      var c := changes[n - 1];
      var eventId := if c.eventId.Some? then c.eventId.value else freshIds[MissingBefore(changes, n - 1)];
      BuildPrefix(changes, n - 1, initialVersion, freshIds, res) + [EnvelopeFor(c, VersionOf(c, initialVersion + n), eventId, res)]
  }

  /** The envelopes persist builds for all the changes. */
  function BuildEnvelopes(changes: seq<Change>, initialVersion: int, freshIds: seq<EventId>, res: Resolvers): (r: seq<Envelope>)
    requires MissingIds(changes) <= |freshIds|
    ensures |r| == |changes|
  {
    BuildPrefix(changes, |changes|, initialVersion, freshIds, res)
  }

  /** The envelopes of one change more are those of the changes before it, followed
      by that change's own, under the id the change carries or else the next fresh one. */
  lemma BuildPrefixStep(changes: seq<Change>, n: nat, initialVersion: int, freshIds: seq<EventId>, res: Resolvers,
                        built: seq<Envelope>, eventId: EventId)
    requires n < |changes| && MissingBefore(changes, n) <= |freshIds|
    requires built == BuildPrefix(changes, n, initialVersion, freshIds, res)
    requires changes[n].eventId.Some? ==> eventId == changes[n].eventId.value
    requires changes[n].eventId.None? ==> MissingBefore(changes, n) < |freshIds| && eventId == freshIds[MissingBefore(changes, n)]
    ensures MissingBefore(changes, n + 1) <= |freshIds|
    ensures built + [EnvelopeFor(changes[n], VersionOf(changes[n], initialVersion + n + 1), eventId, res)] ==
      BuildPrefix(changes, n + 1, initialVersion, freshIds, res)
  {
  }

  /** Passing more changes never lowers the count of ids drawn, and passing one
      without an id raises it. */
  lemma {:induction false} MissingBeforeGrows(changes: seq<Change>, j: nat, k: nat)
    requires j <= k <= |changes|
    ensures MissingBefore(changes, j) <= MissingBefore(changes, k)
    ensures j < k && changes[j].eventId.None? ==> MissingBefore(changes, j) < MissingBefore(changes, k)
    decreases k
  {
    if j < k {
      MissingBeforeGrows(changes, j, k - 1);
    }
  }

  /** Pointwise meaning of BuildPrefix: envelope k is change k's, at version
      initialVersion + k + 1 unless the change has its own, with the change's own
      id or else fresh id number MissingBefore(changes, k). */
  lemma {:induction false} BuildPrefixAt(changes: seq<Change>, n: nat, initialVersion: int, freshIds: seq<EventId>, res: Resolvers, k: nat)
    requires n <= |changes| && MissingBefore(changes, n) <= |freshIds|
    requires k < n
    ensures MissingBefore(changes, k) + (if changes[k].eventId.None? then 1 else 0) <= MissingBefore(changes, n)
    ensures BuildPrefix(changes, n, initialVersion, freshIds, res)[k] ==
      EnvelopeFor(changes[k], VersionOf(changes[k], initialVersion + k + 1),
        if changes[k].eventId.Some? then changes[k].eventId.value else freshIds[MissingBefore(changes, k)], res)
    decreases n
  {
    MissingBeforeGrows(changes, k + 1, n);
    if k < n - 1 {
      BuildPrefixAt(changes, n - 1, initialVersion, freshIds, res, k);
    }
  }

  /** Pointwise meaning of BuildEnvelopes. */
  lemma BuildEnvelopesAt(changes: seq<Change>, initialVersion: int, freshIds: seq<EventId>, res: Resolvers, k: nat)
    requires MissingIds(changes) <= |freshIds|
    requires k < |changes|
    ensures MissingBefore(changes, k) + (if changes[k].eventId.None? then 1 else 0) <= MissingIds(changes)
    ensures BuildEnvelopes(changes, initialVersion, freshIds, res)[k] ==
      EnvelopeFor(changes[k], VersionOf(changes[k], initialVersion + k + 1),
        if changes[k].eventId.Some? then changes[k].eventId.value else freshIds[MissingBefore(changes, k)], res)
  {
    BuildPrefixAt(changes, |changes|, initialVersion, freshIds, res, k);
  }

  /** Exactly one envelope per change, in change order, carrying that change's
      event, metadata and time, tagged by the resolvers. */
  lemma EnvelopesFollowChanges(changes: seq<Change>, initialVersion: int, freshIds: seq<EventId>, res: Resolvers)
    requires MissingIds(changes) <= |freshIds|
    ensures var r := BuildEnvelopes(changes, initialVersion, freshIds, res);
      |r| == |changes| &&
      forall k :: 0 <= k < |r| ==>
        r[k].event == changes[k].event && r[k].metadata == changes[k].metadata &&
        r[k].when == changes[k].when && Resolved(r[k], res)
  {
    forall k | 0 <= k < |changes| {
      BuildEnvelopesAt(changes, initialVersion, freshIds, res, k);
    }
  }

  /** The k-th change (1-based) gets version initialVersion + k unless it supplies its own. */
  lemma EnvelopeVersions(changes: seq<Change>, initialVersion: int, freshIds: seq<EventId>, res: Resolvers)
    requires MissingIds(changes) <= |freshIds|
    ensures var r := BuildEnvelopes(changes, initialVersion, freshIds, res);
      forall k :: 0 <= k < |r| ==>
        r[k].version == if changes[k].version.Some? then changes[k].version.value else initialVersion + k + 1
  {
    forall k | 0 <= k < |changes| {
      BuildEnvelopesAt(changes, initialVersion, freshIds, res, k);
    }
  }

  /** Each envelope's event id is the change's own id when it has one; otherwise it is
      a generated id, taken from freshIds in order, each at most once. */
  lemma EnvelopeEventIds(changes: seq<Change>, initialVersion: int, freshIds: seq<EventId>, res: Resolvers)
    requires MissingIds(changes) <= |freshIds|
    ensures var r := BuildEnvelopes(changes, initialVersion, freshIds, res);
      forall k :: 0 <= k < |r| ==>
        if changes[k].eventId.Some? then r[k].eventId == changes[k].eventId.value
        else MissingBefore(changes, k) < MissingIds(changes) && r[k].eventId == freshIds[MissingBefore(changes, k)]
    ensures forall j, k :: 0 <= j < k <= |changes| && changes[j].eventId.None? ==>
      MissingBefore(changes, j) < MissingBefore(changes, k)
  {
    forall k | 0 <= k < |changes| {
      BuildEnvelopesAt(changes, initialVersion, freshIds, res, k);
    }
    forall j, k | 0 <= j < k <= |changes| && changes[j].eventId.None?
      ensures MissingBefore(changes, j) < MissingBefore(changes, k)
    {
      MissingBeforeGrows(changes, j, k);
    }
  }

  /** A change list in which no change supplies its own version. */
  predicate NoOwnVersions(changes: seq<Change>) {
    forall k :: 0 <= k < |changes| ==> changes[k].version.None?
  }

  /** Without supplied versions, the envelopes are versioned initialVersion + 1,
      initialVersion + 2, ... with no gap, and the last one is initialVersion + |changes|
      (the aggregate's read version when initialVersion = readVersion - |changes|). */
  lemma VersionsAreConsecutive(changes: seq<Change>, initialVersion: int, freshIds: seq<EventId>, res: Resolvers)
    requires MissingIds(changes) <= |freshIds|
    requires NoOwnVersions(changes)
    ensures var r := BuildEnvelopes(changes, initialVersion, freshIds, res);
      (forall k :: 0 <= k < |r| ==> r[k].version == initialVersion + k + 1) &&
      (r != [] ==> r[|r| - 1].version == initialVersion + |changes|)
  {
    EnvelopeVersions(changes, initialVersion, freshIds, res);
  }

  /** A stream whose envelopes are versioned 0, 1, 2, ... in order. */
  predicate GapFree(history: seq<Envelope>) {
    forall k :: 0 <= k < |history| ==> history[k].version == k
  }

  /** Appending the envelopes of changes without supplied versions, with
      initialVersion at the stream's last version, keeps a gap-free stream gap-free.
      With an empty stream (initialVersion = -1, a new aggregate) the stored versions
      are exactly 0, 1, ..., |changes| - 1. */
  lemma AppendKeepsGapFree(history: seq<Envelope>, changes: seq<Change>, freshIds: seq<EventId>, res: Resolvers)
    requires GapFree(history)
    requires MissingIds(changes) <= |freshIds|
    requires NoOwnVersions(changes)
    ensures GapFree(history + BuildEnvelopes(changes, |history| - 1, freshIds, res))
  {
    var r := BuildEnvelopes(changes, |history| - 1, freshIds, res);
    VersionsAreConsecutive(changes, |history| - 1, freshIds, res);
    forall k | 0 <= k < |history| + |r|
      ensures (history + r)[k].version == k
    {
      if k >= |history| {
        assert (history + r)[k] == r[k - |history|];
      }
    }
  }

  /** No id is drawn exactly when every change carries its own event id; in
      particular every change replayed from a stream carries one. */
  lemma NoMissingIds(changes: seq<Change>)
    ensures MissingIds(changes) == 0 <==> forall k :: 0 <= k < |changes| ==> changes[k].eventId.Some?
  {
    forall n | 0 <= n <= |changes|
      ensures MissingBefore(changes, n) == 0 <==> forall k :: 0 <= k < n ==> changes[k].eventId.Some?
    {
      NoMissingBefore(changes, n);
    }
  }

  lemma {:induction false} NoMissingBefore(changes: seq<Change>, n: nat)
    requires n <= |changes|
    ensures MissingBefore(changes, n) == 0 <==> forall k :: 0 <= k < n ==> changes[k].eventId.Some?
  {
    if n > 0 {
      NoMissingBefore(changes, n - 1);
    }
  }

  /** Round trip through the change writer: building envelopes again from the
      changes written back from stored envelopes, at any initial version and with
      any generator, gives back exactly the stored envelopes, because each written
      change carries its stored id and version. */
  lemma RebuildFromStream(envelopes: seq<Envelope>, initialVersion: int, freshIds: seq<EventId>, res: Resolvers)
    requires forall k :: 0 <= k < |envelopes| ==> Resolved(envelopes[k], res)
    ensures MissingIds(ToChanges(envelopes)) == 0
    ensures BuildEnvelopes(ToChanges(envelopes), initialVersion, freshIds, res) == envelopes
  {
    var changes := ToChanges(envelopes);
    NoMissingIds(changes);
    forall k | 0 <= k < |envelopes|
      ensures BuildEnvelopes(changes, initialVersion, freshIds, res)[k] == envelopes[k]
    {
      BuildEnvelopesAt(changes, initialVersion, freshIds, res, k);
    }
  }
}
