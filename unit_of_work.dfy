/** The unit of work: tracks aggregates per contract, commits their pending
    changes to the event store, and loads untracked aggregates from it. */
module AggregateRoot {
  import opened Wrappers
  import opened Changes
  import opened Errors
  import opened Envelopes
  import opened Registry
  import opened Aggregates
  import opened IdGeneration
  import opened EventStorage
  import opened CommitLog

  /** The aggregates in the registry. */
  ghost function Members(groups: seq<Group>): set<Aggregate> {
    set g, i | 0 <= g < |groups| && 0 <= i < |groups[g].aggregates| :: groups[g].aggregates[i]
  }

  /** The aggregates of one group are in the registry. */
  lemma GroupMembers(groups: seq<Group>, g: nat)
    requires g < |groups|
    ensures forall a :: a in groups[g].aggregates ==> a in Members(groups)
  {
    forall a | a in groups[g].aggregates
      ensures a in Members(groups)
    {
      var i :| 0 <= i < |groups[g].aggregates| && groups[g].aggregates[i] == a;
    }
  }

  /** (g, i) is a position of the registry, the end of a group, or the end of the
      registry: a place where commit can be. */
  predicate Reachable(groups: seq<Group>, g: nat, i: nat) {
    (g < |groups| && i <= |groups[g].aggregates|) || (g == |groups| && i == 0)
  }

  /** On its way to (g, i), commit has already reached a. */
  ghost predicate VisitedBefore(groups: seq<Group>, a: Aggregate, g: nat, i: nat)
    requires Reachable(groups, g, i)
    decreases g, i
  {
    if i > 0 then groups[g].aggregates[i - 1] == a || VisitedBefore(groups, a, g, i - 1)
    else g > 0 && VisitedBefore(groups, a, g - 1, |groups[g - 1].aggregates|)
  }

  /** An aggregate reached on the way to (g, i) sits at a position before (g, i). */
  lemma {:induction false} VisitedAt(groups: seq<Group>, a: Aggregate, g: nat, i: nat) returns (pg: nat, pi: nat)
    requires Reachable(groups, g, i) && VisitedBefore(groups, a, g, i)
    ensures pg < |groups| && pi < |groups[pg].aggregates| && Before(pg, pi, g, i) && groups[pg].aggregates[pi] == a
    decreases g, i
  {
    if i > 0 {
      if groups[g].aggregates[i - 1] == a {
        pg, pi := g, i - 1;
      } else {
        pg, pi := VisitedAt(groups, a, g, i - 1);
      }
    } else {
      pg, pi := VisitedAt(groups, a, g - 1, |groups[g - 1].aggregates|);
    }
  }

  /** An aggregate at a position before (g, i) is reached on the way to (g, i). */
  lemma {:induction false} VisitedFrom(groups: seq<Group>, a: Aggregate, g: nat, i: nat, pg: nat, pi: nat)
    requires Reachable(groups, g, i)
    requires pg < |groups| && pi < |groups[pg].aggregates| && Before(pg, pi, g, i) && groups[pg].aggregates[pi] == a
    ensures VisitedBefore(groups, a, g, i)
    decreases g, i
  {
    if i > 0 {
      if pg != g || pi != i - 1 {
        VisitedFrom(groups, a, g, i - 1, pg, pi);
      }
    } else {
      VisitedFrom(groups, a, g - 1, |groups[g - 1].aggregates|, pg, pi);
    }
  }

  /** The stream of some tracked aggregate. */
  ghost predicate TrackedKey(groups: seq<Group>, key: StreamKey) {
    exists g, i :: 0 <= g < |groups| && 0 <= i < |groups[g].aggregates| &&
      key == StreamKey(groups[g].contract.name, groups[g].aggregates[i].id)
  }

  /** What the aggregate at one position of the registry holds. */
  datatype Held = Held(changes: seq<Change>, version: int, replayed: seq<Change>)

  /** snap has one entry per position of the registry. */
  ghost predicate Fits(groups: seq<Group>, snap: seq<seq<Held>>) {
    |snap| == |groups| && forall g :: 0 <= g < |groups| ==> |snap[g]| == |groups[g].aggregates|
  }

  /** What every position of the registry holds now. */
  ghost function Snapshot(groups: seq<Group>): (snap: seq<seq<Held>>)
    reads Members(groups)
    ensures Fits(groups, snap)
    ensures forall g, i :: 0 <= g < |groups| && 0 <= i < |groups[g].aggregates| ==>
      var a := groups[g].aggregates[i];
      snap[g][i] == Held(a.changes, a.version, a.replayed)
  {
    seq(|groups|, g requires 0 <= g < |groups| reads Members(groups) =>
      seq(|groups[g].aggregates|, i requires 0 <= i < |groups[g].aggregates| reads Members(groups) =>
        var a := groups[g].aggregates[i];
        Held(a.changes, a.version, a.replayed)))
  }

  /** The number of changes commit finds pending at each position when the registry
      held snap as it started: the aggregate's changes at its first position, and none
      at a later position of the same instance, whose changes the first one has already
      taken. */
  ghost function Pending(groups: seq<Group>, snap: seq<seq<Held>>): (pending: seq<seq<nat>>)
    requires Fits(groups, snap)
    ensures Shaped(Keys(groups), pending)
    ensures forall g, i :: 0 <= g < |groups| && 0 <= i < |groups[g].aggregates| ==>
      pending[g][i] == if VisitedBefore(groups, groups[g].aggregates[i], g, i) then 0 else |snap[g][i].changes|
  {
    seq(|groups|, g requires 0 <= g < |groups| =>
      seq(|groups[g].aggregates|, i requires 0 <= i < |groups[g].aggregates| =>
        if VisitedBefore(groups, groups[g].aggregates[i], g, i) then 0 else |snap[g][i].changes|))
  }

  /** The changes a commit starting now finds pending at each position. */
  ghost function PendingCounts(groups: seq<Group>): (counts: seq<seq<nat>>)
    reads Members(groups)
    ensures |counts| == |groups| && forall g :: 0 <= g < |groups| ==> |counts[g]| == |groups[g].aggregates|
  {
    Pending(groups, Snapshot(groups))
  }

  /** No aggregate instance is tracked at two positions of the registry. */
  ghost predicate Distinct(groups: seq<Group>) {
    forall g, i, h, k ::
      0 <= g < |groups| && 0 <= i < |groups[g].aggregates| && 0 <= h < |groups| && 0 <= k < |groups[h].aggregates| &&
      (g != h || i != k)
      ==> groups[g].aggregates[i] != groups[h].aggregates[k]
  }

  /** With no instance tracked twice, commit finds at every position all the changes
      its aggregate holds. */
  lemma DistinctPending(groups: seq<Group>, g: nat, i: nat)
    requires Distinct(groups) && g < |groups| && i < |groups[g].aggregates|
    ensures PendingCounts(groups)[g][i] == |groups[g].aggregates[i].changes|
  {
    if VisitedBefore(groups, groups[g].aggregates[i], g, i) {
      var pg, pi := VisitedAt(groups, groups[g].aggregates[i], g, i);
      assert false;
    }
  }

  /** The registry, holding now, as commit reaches (g, i), against snap, what it held
      when commit began: every position before (g, i) has been cleared, every
      aggregate not yet reached still holds its changes, and no version or history has
      moved. */
  ghost predicate Progressed(groups: seq<Group>, snap: seq<seq<Held>>, now: seq<seq<Held>>, g: nat, i: nat)
    requires Fits(groups, snap) && Fits(groups, now) && Reachable(groups, g, i)
  {
    forall gg, ii {:trigger now[gg][ii]} :: 0 <= gg < |groups| && 0 <= ii < |groups[gg].aggregates| ==>
      now[gg][ii].version == snap[gg][ii].version && now[gg][ii].replayed == snap[gg][ii].replayed &&
      (Before(gg, ii, g, i) ==> now[gg][ii].changes == []) &&
      (!VisitedBefore(groups, groups[gg].aggregates[ii], g, i) ==> now[gg][ii].changes == snap[gg][ii].changes)
  }

  /** Progressed, for what the registry holds now. */
  ghost predicate Progress(groups: seq<Group>, snap: seq<seq<Held>>, g: nat, i: nat)
    requires Fits(groups, snap) && Reachable(groups, g, i)
    reads Members(groups)
  {
    Progressed(groups, snap, Snapshot(groups), g, i)
  }

  /** Commit finds pending at (g, i) what the aggregate there holds when it gets
      there: an aggregate reached before was cleared at its earlier position. */
  lemma PendingHere(groups: seq<Group>, snap: seq<seq<Held>>, g: nat, i: nat)
    requires Fits(groups, snap) && g < |groups| && i < |groups[g].aggregates| && Progress(groups, snap, g, i)
    ensures Pending(groups, snap)[g][i] == |groups[g].aggregates[i].changes|
    ensures groups[g].aggregates[i].changes != [] ==>
      var a := groups[g].aggregates[i];
      snap[g][i] == Held(a.changes, a.version, a.replayed)
  {
    if VisitedBefore(groups, groups[g].aggregates[i], g, i) {
      var pg, pi := VisitedAt(groups, groups[g].aggregates[i], g, i);
      assert Snapshot(groups)[pg][pi].changes == [];
    } else {
      assert Snapshot(groups)[g][i].changes == snap[g][i].changes;
    }
  }

  /** One position further: when the registry held before and now holds after,
      with only the aggregate at (g, i) changed, and cleared if its persist passed,
      commit moves on to (g, i + 1) if that persist passed and stays at (g, i)
      otherwise. */
  lemma ProgressStep(groups: seq<Group>, snap: seq<seq<Held>>, before: seq<seq<Held>>, after: seq<seq<Held>>,
                     g: nat, i: nat, passed: bool)
    requires Fits(groups, snap) && Fits(groups, before) && Fits(groups, after)
    requires g < |groups| && i < |groups[g].aggregates| && Progressed(groups, snap, before, g, i)
    requires forall gg, ii {:trigger after[gg][ii]} :: 0 <= gg < |groups| && 0 <= ii < |groups[gg].aggregates| ==>
      after[gg][ii] ==
        if groups[gg].aggregates[ii] != groups[g].aggregates[i] || !passed then before[gg][ii]
        else before[gg][ii].(changes := [])
    ensures Progressed(groups, snap, after, g, if passed then i + 1 else i)
  {
  }

  /** Nothing has moved when commit begins. */
  lemma ProgressStart(groups: seq<Group>, snap: seq<seq<Held>>)
    requires snap == Snapshot(groups)
    ensures Progress(groups, snap, 0, 0)
  {
  }

  /** Reaching the end of group g is reaching the start of group g + 1. */
  lemma ProgressNextGroup(groups: seq<Group>, snap: seq<seq<Held>>, now: seq<seq<Held>>, g: nat)
    requires Fits(groups, snap) && Fits(groups, now) && g < |groups| && Progressed(groups, snap, now, g, |groups[g].aggregates|)
    ensures Progressed(groups, snap, now, g + 1, 0)
  {
  }

  /** Progress up to (g, i), read off the registry's aggregates: every aggregate keeps
      its version and replayed changes, the ones before (g, i) hold no changes, and the
      ones not yet visited hold the changes they had in snap. */
  lemma ProgressHeld(groups: seq<Group>, snap: seq<seq<Held>>, g: nat, i: nat)
    requires Fits(groups, snap) && Reachable(groups, g, i) && Progress(groups, snap, g, i)
    ensures forall gg, ii {:trigger groups[gg].aggregates[ii]} :: 0 <= gg < |groups| && 0 <= ii < |groups[gg].aggregates| ==>
      var a := groups[gg].aggregates[ii];
      a.version == snap[gg][ii].version && a.replayed == snap[gg][ii].replayed &&
      (Before(gg, ii, g, i) ==> a.changes == []) &&
      (!VisitedBefore(groups, a, g, i) ==> a.changes == snap[gg][ii].changes)
  {
    var now := Snapshot(groups);
    forall gg, ii | 0 <= gg < |groups| && 0 <= ii < |groups[gg].aggregates|
      ensures var a := groups[gg].aggregates[ii];
        a.version == snap[gg][ii].version && a.replayed == snap[gg][ii].replayed &&
        (Before(gg, ii, g, i) ==> a.changes == []) &&
        (!VisitedBefore(groups, a, g, i) ==> a.changes == snap[gg][ii].changes)
    {
      assert now[gg][ii] == Held(groups[gg].aggregates[ii].changes, groups[gg].aggregates[ii].version,
                                 groups[gg].aggregates[ii].replayed);
    }
  }

  /** What persist gives for changes pending at an initial version, against the history
      of the aggregate's stream, with or without each generator. With nothing pending it
      passes. Otherwise it fails at the first of: a change without an event id of its own
      and no event-id generator; no commit-id generator; a create (initial version -1) of
      a stream that already holds a version. An open never fails, because the handle
      expects the version the stream holds when it is opened. */
  function PersistOutcome(changes: seq<Change>, initialVersion: int, history: seq<Envelope>,
                          hasEventIds: bool, hasCommitIds: bool): Outcome<Failure>
  {
    if changes == [] then Pass
    else if !hasEventIds && MissingIds(changes) > 0 then Fail(NoEventIdGenerator)
    else if !hasCommitIds then Fail(NoCommitIdGenerator)
    else if initialVersion == -1 && LastVersion(history) != -1 then Fail(OptimisticConcurrencyFailed)
    else Pass
  }

  /** The order in which persist decides, stated on the changes themselves: each
      failure is met exactly when nothing before it in that order failed, and persist
      passes exactly when nothing is pending or none of the three applies. */
  lemma {:induction false} PersistOutcomeOrder(changes: seq<Change>, initialVersion: int, history: seq<Envelope>,
                                               hasEventIds: bool, hasCommitIds: bool)
    ensures var idsUsable := hasEventIds || forall k :: 0 <= k < |changes| ==> changes[k].eventId.Some?;
      var outcome := PersistOutcome(changes, initialVersion, history, hasEventIds, hasCommitIds);
      (outcome == Fail(NoEventIdGenerator) <==>
        !hasEventIds && exists k :: 0 <= k < |changes| && changes[k].eventId.None?) &&
      (outcome == Fail(NoCommitIdGenerator) <==> changes != [] && idsUsable && !hasCommitIds) &&
      (outcome == Fail(OptimisticConcurrencyFailed) <==>
        changes != [] && idsUsable && hasCommitIds && initialVersion == -1 && LastVersion(history) != -1) &&
      (outcome == Pass <==>
        changes == [] || (idsUsable && hasCommitIds && (initialVersion == -1 ==> LastVersion(history) == -1)))
  {
    NoMissingIds(changes);
  }

  /** w is the passing persist of changes held at version: against the stream's history
      before it, persist meets no failure, and the batch is the envelopes built from the
      changes at their initial version, with the event ids w was given. */
  ghost predicate PassedWith(changes: seq<Change>, version: int, history: seq<Envelope>, res: Resolvers,
                             hasEventIds: bool, hasCommitIds: bool, w: Write)
  {
    var initialVersion := version - |changes|;
    PersistOutcome(changes, initialVersion, history, hasEventIds, hasCommitIds) == Pass &&
    MissingIds(changes) <= |w.ids| && w.batch == BuildEnvelopes(changes, initialVersion, w.ids, res)
  }

  /** PassedWith, for what snap holds at the position of w. */
  ghost predicate PassedAsHeld(snap: seq<seq<Held>>, res: Resolvers, hasEventIds: bool, hasCommitIds: bool,
                               history: seq<Envelope>, w: Write)
  {
    w.g < |snap| && w.i < |snap[w.g]| &&
    PassedWith(snap[w.g][w.i].changes, snap[w.g][w.i].version, history, res, hasEventIds, hasCommitIds, w)
  }

  /** outcome is the failure persist meets with what snap holds at (g, i), against the
      history of the aggregate's stream: commit found changes pending there (pending),
      and they fail. */
  ghost predicate FailsAsHeld(snap: seq<seq<Held>>, pending: seq<seq<nat>>, hasEventIds: bool, hasCommitIds: bool,
                              history: seq<Envelope>, g: nat, i: nat, outcome: Outcome<Failure>)
  {
    g < |snap| && i < |snap[g]| && snap[g][i].changes != [] && outcome.Fail? &&
    g < |pending| && i < |pending[g]| && pending[g][i] > 0 &&
    outcome == PersistOutcome(snap[g][i].changes, snap[g][i].version - |snap[g][i].changes|, history,
                              hasEventIds, hasCommitIds)
  }

  /** The j-th write of the record is the passing persist of what snap holds at its
      position, against its stream as streams holds it with the writes before it
      applied. */
  ghost predicate PassedBefore(snap: seq<seq<Held>>, res: Resolvers, hasEventIds: bool, hasCommitIds: bool,
                               streams: map<StreamKey, seq<Envelope>>, writes: seq<Write>, j: nat)
    requires j < |writes|
  {
    PassedAsHeld(snap, res, hasEventIds, hasCommitIds, HistoryOf(Applied(streams, writes[..j]), writes[j].key), writes[j])
  }

  /** Every write of the record is the passing persist of what the registry held at its
      position when commit began (snap), against its stream as streams held it with the
      writes before it applied. */
  ghost predicate PersistedAsHeld(snap: seq<seq<Held>>, res: Resolvers, hasEventIds: bool, hasCommitIds: bool,
                                  streams: map<StreamKey, seq<Envelope>>, writes: seq<Write>)
  {
    forall j :: 0 <= j < |writes| ==> PassedBefore(snap, res, hasEventIds, hasCommitIds, streams, writes, j)
  }

  /** One more passing persist, made against the streams the record has left, keeps
      the record one of passing persists. */
  lemma PersistedAsHeldStep(snap: seq<seq<Held>>, res: Resolvers, hasEventIds: bool, hasCommitIds: bool,
                            streams: map<StreamKey, seq<Envelope>>, writes: seq<Write>, w: seq<Write>)
    requires PersistedAsHeld(snap, res, hasEventIds, hasCommitIds, streams, writes) && |w| <= 1
    requires w != [] ==>
      PassedAsHeld(snap, res, hasEventIds, hasCommitIds, HistoryOf(Applied(streams, writes), w[0].key), w[0])
    ensures PersistedAsHeld(snap, res, hasEventIds, hasCommitIds, streams, writes + w)
  {
    var all := writes + w;
    forall j | 0 <= j < |all|
      ensures PassedBefore(snap, res, hasEventIds, hasCommitIds, streams, all, j)
    {
      if j < |writes| {
        assert PassedBefore(snap, res, hasEventIds, hasCommitIds, streams, writes, j);
        assert all[..j] == writes[..j] && all[j] == writes[j];
      } else {
        assert all[..j] == writes && all[j] == w[0];
      }
    }
  }

  /** One step of commit at position (g, i), read against snap: the aggregate there held
      held, and persist gave outcome against history, the stream of key as the record
      writes leaves it. The record, extended with the write w the step made (when it
      passed), stays one of passing persists, and a failure is the one persist meets
      with what (g, i) held. */
  lemma HeldStep(snap: seq<seq<Held>>, pending: seq<seq<nat>>, res: Resolvers, hasEventIds: bool, hasCommitIds: bool,
                 streams: map<StreamKey, seq<Envelope>>, writes: seq<Write>, w: seq<Write>, extended: seq<Write>,
                 g: nat, i: nat, key: StreamKey, held: Held, history: seq<Envelope>, outcome: Outcome<Failure>)
    requires PersistedAsHeld(snap, res, hasEventIds, hasCommitIds, streams, writes)
    requires g < |snap| && i < |snap[g]| && (held.changes != [] ==> snap[g][i] == held)
    requires g < |pending| && i < |pending[g]| && pending[g][i] == |held.changes|
    requires history == HistoryOf(Applied(streams, writes), key)
    requires outcome == PersistOutcome(held.changes, held.version - |held.changes|, history, hasEventIds, hasCommitIds)
    requires |w| <= 1 && (w != [] <==> outcome.Pass? && held.changes != [])
    requires w != [] ==>
      w[0].g == g && w[0].i == i && w[0].key == key &&
      PassedWith(held.changes, held.version, history, res, hasEventIds, hasCommitIds, w[0])
    requires extended == if outcome.Pass? then writes + w else writes
    ensures PersistedAsHeld(snap, res, hasEventIds, hasCommitIds, streams, extended)
    ensures outcome.Fail? ==>
      FailsAsHeld(snap, pending, hasEventIds, hasCommitIds, HistoryOf(Applied(streams, extended), key), g, i, outcome)
  {
    PersistedAsHeldStep(snap, res, hasEventIds, hasCommitIds, streams, writes, w);
  }

  /** What a passing persist stored: one envelope per change, in change order, each
      with the change's event and its own version or else the initial version plus its
      1-based position. */
  lemma PassedBatch(changes: seq<Change>, version: int, history: seq<Envelope>, res: Resolvers,
                    hasEventIds: bool, hasCommitIds: bool, w: Write)
    requires PassedWith(changes, version, history, res, hasEventIds, hasCommitIds, w)
    ensures changes != [] ==> hasCommitIds && (hasEventIds || MissingIds(changes) == 0)
    ensures changes != [] && version - |changes| == -1 ==> LastVersion(history) == -1
    ensures |w.batch| == |changes|
    ensures forall k :: 0 <= k < |changes| ==>
      w.batch[k].event == changes[k].event &&
      w.batch[k].version == VersionOf(changes[k], version - |changes| + k + 1)
  {
    EnvelopesFollowChanges(changes, version - |changes|, w.ids, res);
    EnvelopeVersions(changes, version - |changes|, w.ids, res);
  }

  /** What commit has done once it stops at (stopG, stopI) with the record writes: the
      writes were made in commit order at positions before the stop, exactly at the
      positions reached with changes pending, one envelope per change.
      Every stream begins with its old history, the stream of no tracked aggregate is
      touched, and, with contract names distinct and ids unique within each group,
      each written stream is its old history followed by its batch. */
  lemma CommitWrites(groups: seq<Group>, pending: seq<seq<nat>>,
                     streams: map<StreamKey, seq<Envelope>>, calls: seq<StoreCall>, writes: seq<Write>,
                     stopG: nat, stopI: nat, streamsNow: map<StreamKey, seq<Envelope>>, callsNow: seq<StoreCall>)
    requires Shaped(Keys(groups), pending) && StopPoint(pending, stopG, stopI)
    requires Recorded(Keys(groups), pending, streams, calls, writes, stopG, stopI, streamsNow, callsNow)
    ensures streamsNow == Applied(streams, writes) && callsNow == calls + CallsOf(writes)
    ensures InCommitOrder(Keys(groups), writes, stopG, stopI)
    ensures forall j :: 0 <= j < |writes| ==> |writes[j].batch| == pending[writes[j].g][writes[j].i]
    ensures forall g, i {:trigger WroteAt(writes, g, i)} ::
      0 <= g < |groups| && 0 <= i < |groups[g].aggregates| && Before(g, i, stopG, stopI) && pending[g][i] > 0
      ==> WroteAt(writes, g, i)
    ensures Extends(streams, streamsNow)
    ensures forall key :: !TrackedKey(groups, key) ==> HistoryOf(streamsNow, key) == HistoryOf(streams, key)
    ensures DistinctNames(groups) && Unique(groups) ==>
      forall j :: 0 <= j < |writes| ==>
        HistoryOf(streamsNow, writes[j].key) == HistoryOf(streams, writes[j].key) + writes[j].batch
  {
    var keys := Keys(groups);
    RecordedInOrder(keys, pending, streams, calls, writes, stopG, stopI, streamsNow, callsNow);
    AppliedExtends(streams, writes);
    forall key | !TrackedKey(groups, key)
      ensures HistoryOf(Applied(streams, writes), key) == HistoryOf(streams, key)
    {
      forall j | 0 <= j < |writes|
        ensures writes[j].key != key
      {
        assert WriteAt(keys, writes[j]);
      }
      AppliedElsewhere(streams, writes, key);
    }
    if DistinctNames(groups) && Unique(groups) {
      WrittenStreams(groups, streams, writes, stopG, stopI);
    }
  }

  /** An aggregate rebuilt from a non-empty gap-free stream reads version |history| - 1,
      and recording changes raises that by one per change. When those changes (without
      versions of their own) are persisted, the initial version is the stream's last
      version, so the stream is opened rather than created, and the stream stays
      gap-free. */
  lemma ReloadedAggregateContinuesStream(history: seq<Envelope>, changes: seq<Change>, version: int,
                                         freshIds: seq<EventId>, res: Resolvers)
    requires GapFree(history) && history != []
    requires version == |history| - 1 + |changes|
    requires MissingIds(changes) <= |freshIds| && NoOwnVersions(changes)
    ensures var initialVersion := version - |changes|;
      initialVersion != -1 && initialVersion == LastVersion(history) &&
      GapFree(history + BuildEnvelopes(changes, initialVersion, freshIds, res))
  {
    AppendKeepsGapFree(history, changes, freshIds, res);
  }

  class UnitOfWork {
    const store: EventStore
    const resolvers: Resolvers
    /** May be absent; then every change must carry its own event id. */
    const eventIds: EventIdGenerator?
    /** May be absent; then no commit can be completed. */
    const commitIds: CommitIdGenerator?
    /** trackedAggregates: groups keyed by contract name, in insertion order. */
    var groups: seq<Group>

    ghost predicate Valid()
      reads this
    {
      DistinctNames(groups)
    }

    constructor (store: EventStore, resolvers: Resolvers, eventIds: EventIdGenerator?, commitIds: CommitIdGenerator?)
      ensures Valid() && groups == []
      ensures this.store == store && this.resolvers == resolvers && this.eventIds == eventIds && this.commitIds == commitIds
    {
      this.store := store;
      this.resolvers := resolvers;
      this.eventIds := eventIds;
      this.commitIds := commitIds;
      groups := [];
    }

    /** Whether envelopes can be built for these changes: a generator is configured,
        or every change carries its own event id. */
    predicate IdsAvailable(changes: seq<Change>) {
      eventIds != null || MissingIds(changes) == 0
    }

    /** The envelopes persist builds for these changes, with the generator's next ids. */
    ghost function PlannedEnvelopes(changes: seq<Change>, initialVersion: int): seq<Envelope>
      requires IdsAvailable(changes)
      reads eventIds
    {
      var generated := if eventIds == null then [] else eventIds.Upcoming(MissingIds(changes));
      BuildEnvelopes(changes, initialVersion, generated, resolvers)
    }

    /** isTrackedAggregateTypeIsPrepared: the contract's name has a group. */
    predicate IsPrepared(contract: Contract)
      reads this
      ensures IsPrepared(contract) <==> exists g :: 0 <= g < |groups| && groups[g].contract.name == contract.name
    {
      GroupIndex(groups, contract.name) >= 0
    }

    /** ensureTrackedAggregateTypeIsPrepared */
    method EnsurePrepared(contract: Contract)
      requires Valid()
      modifies this
      ensures Valid() && groups == Prepare(old(groups), contract)
    {
      if IsPrepared(contract) {
        return;
      }
      groups := groups + [Group(contract, [])];
      assert groups == Prepare(old(groups), contract);
    }

    /** findTrackedAggregate: a linear search of the contract's group. */
    method FindTracked(contract: Contract, id: AggregateId) returns (r: Aggregate?)
      ensures r == Find(groups, contract.name, id)
    {
      if !IsPrepared(contract) {
        return null;
      }
      var aggregates := groups[GroupIndex(groups, contract.name)].aggregates;
      var i := 0;
      while i < |aggregates|
        invariant 0 <= i <= |aggregates|
        invariant forall k :: 0 <= k < i ==> aggregates[k].id != id
      {
        if aggregates[i].id == id {
          return aggregates[i];
        }
        i := i + 1;
      }
      return null;
    }

    /** track: refuses a (type, id) that is already tracked; otherwise appends the
        aggregate to its contract's group, creating the group if needed. */
    method Track(contract: Contract, id: AggregateId, a: Aggregate) returns (outcome: Outcome<Failure>)
      requires Valid()
      modifies this
      ensures Valid()
      ensures outcome.Fail? <==> old(Find(groups, contract.name, id)) != null
      ensures outcome.Fail? ==> outcome.error == AlreadyTracked && groups == old(groups)
      ensures outcome.Pass? ==> groups == Add(old(groups), contract, a)
      ensures old(Unique(groups)) && a.id == id ==> Unique(groups)
    {
      var tracked := FindTracked(contract, id);
      if tracked != null {
        return Fail(AlreadyTracked);
      }
      if a.id == id && Unique(groups) {
        AddKeepsUnique(groups, contract, a);
      }
      EnsurePrepared(contract);
      var g := GroupIndex(groups, contract.name);
      groups := groups[g := groups[g].(aggregates := groups[g].aggregates + [a])];
      assert groups == Add(old(groups), contract, a);
      outcome := Pass;
    }

    /** The state of the persist loop once it has passed the first i changes: the
        generator has handed out one id per change passed without its own (there are
        none without a generator), and the envelopes of those changes are built. */
    ghost predicate Passed(changes: seq<Change>, i: nat, initialVersion: int, generated: seq<EventId>, start: nat,
                           envelopes: seq<Envelope>)
      reads eventIds
    {
      i <= |changes| && MissingBefore(changes, i) <= |generated| &&
      (eventIds == null ==> MissingBefore(changes, i) == 0) &&
      (eventIds != null ==> eventIds.issued == start + MissingBefore(changes, i)) &&
      envelopes == BuildPrefix(changes, i, initialVersion, generated, resolvers)
    }

    /** One pass of the persist loop for change i: its own event id or else the
        generator's next one, its own version or else the aggregate version reached, and
        the event and metadata contracts the resolvers give. Without a generator, a
        change that has no id of its own cannot be given an envelope. */
    method EnvelopeOf(changes: seq<Change>, i: nat, aggregateVersion: int, ghost initialVersion: int,
                      ghost generated: seq<EventId>, ghost start: nat, built: seq<Envelope>)
      returns (extended: seq<Envelope>, ok: bool)
      requires i < |changes| && aggregateVersion == initialVersion + i + 1
      requires eventIds != null ==>
        |generated| == MissingIds(changes) && forall k :: 0 <= k < |generated| ==> generated[k] == IdAt(eventIds.source, start + k)
      requires Passed(changes, i, initialVersion, generated, start, built)
      modifies eventIds
      ensures ok <==> changes[i].eventId.Some? || eventIds != null
      ensures !ok ==> MissingIds(changes) > 0
      ensures ok ==> Passed(changes, i + 1, initialVersion, generated, start, extended)
    {
      var change := changes[i];
      var eventId;
      if change.eventId.Some? {
        eventId := change.eventId.value;
      } else if eventIds == null {
        MissingBeforeGrows(changes, i, |changes|);
        return built, false;
      } else {
        MissingBeforeGrows(changes, i + 1, |changes|);
        ghost var drawn := MissingBefore(changes, i);
        assert generated[drawn] == eventIds.Next();
        eventId := eventIds.GenerateEventId();
        assert eventId == generated[drawn];
      }
      var version := if change.version.Some? then change.version.value else aggregateVersion;
      BuildPrefixStep(changes, i, initialVersion, generated, resolvers, built, eventId);
      extended := built + [EnvelopeFor(change, version, eventId, resolvers)];
      ok := true;
    }

    /** The loop of persist that numbers the changes and builds their envelopes,
        taking an event id from the generator for each change without one. Without a
        generator it fails at the first change that has no id of its own. */
    method EnvelopesFor(changes: seq<Change>, initialVersion: int) returns (envelopes: seq<Envelope>, idsAvailable: bool)
      modifies eventIds
      ensures idsAvailable == IdsAvailable(changes)
      ensures idsAvailable ==> envelopes == old(PlannedEnvelopes(changes, initialVersion))
      ensures eventIds != null ==> eventIds.issued == old(eventIds.issued) + MissingIds(changes)
    {
      ghost var generated := if eventIds == null then [] else eventIds.Upcoming(MissingIds(changes));
      ghost var start := if eventIds == null then 0 else eventIds.issued;
      var aggregateVersion := initialVersion;
      envelopes := [];
      var i := 0;
      while i < |changes|
        invariant i <= |changes| && aggregateVersion == initialVersion + i
        invariant Passed(changes, i, initialVersion, generated, start, envelopes)
      {
        aggregateVersion := aggregateVersion + 1;
        var ok;
        envelopes, ok := EnvelopeOf(changes, i, aggregateVersion, initialVersion, generated, start, envelopes);
        if !ok {
          return [], false;
        }
        i := i + 1;
      }
      idsAvailable := true;
    }

    /** The store half of persist: create the stream when the initial version is -1
        and open it otherwise, append the envelopes, and commit them under a fresh
        commit id. */
    method WriteStream(key: StreamKey, initialVersion: int, envelopes: seq<Envelope>) returns (outcome: Outcome<Failure>)
      modifies store, commitIds
      ensures store.calls == old(store.calls) + [if initialVersion == -1 then Created(key) else Opened(key)] +
        (if commitIds == null then [] else [Committed(key, old(commitIds.Next()), envelopes)])
      ensures outcome ==
        if commitIds == null then Fail(NoCommitIdGenerator)
        else if initialVersion == -1 && old(LastVersion(store.History(key))) != -1 then Fail(OptimisticConcurrencyFailed)
        else Pass
      ensures outcome.Pass? ==> store.streams == old(store.streams)[key := old(store.History(key)) + envelopes]
      ensures outcome.Fail? ==> store.streams == old(store.streams)
      ensures commitIds != null ==> commitIds.issued == old(commitIds.issued) + 1
    {
      var stream: EventStream;
      if initialVersion == -1 {
        stream := store.Create(key);
      } else {
        stream := store.Open(key);
      }
      assert store.History(key) == old(store.History(key));
      assert store.calls == old(store.calls) + [if initialVersion == -1 then Created(key) else Opened(key)];
      stream.AppendAll(envelopes);
      assert stream.pending == envelopes;
      assert store.calls == old(store.calls) + [if initialVersion == -1 then Created(key) else Opened(key)];
      if commitIds == null {
        return Fail(NoCommitIdGenerator);
      }
      var commitId := commitIds.GenerateCommitId();
      assert commitId == old(commitIds.Next());
      assert store.calls == old(store.calls) + [if initialVersion == -1 then Created(key) else Opened(key)];
      outcome := stream.Commit(commitId);
    }

    /** The part of persist after the early return: builds one envelope per pending
        change, writes them to the stream key, and only then clears the aggregate's changes. */
    method PersistChanges(key: StreamKey, a: Aggregate) returns (outcome: Outcome<Failure>)
      requires a.changes != []
      modifies a, store, eventIds, commitIds
      ensures a.version == old(a.version) && a.replayed == old(a.replayed)
      ensures outcome.Pass? ==> a.changes == []
      ensures outcome.Fail? ==> a.changes == old(a.changes) && store.streams == old(store.streams)
      ensures outcome == PersistOutcome(old(a.changes), old(a.version) - |old(a.changes)|, old(store.History(key)),
                                        eventIds != null, commitIds != null)
      ensures old(IdsAvailable(a.changes)) ==>
        var initialVersion := old(a.version) - |old(a.changes)|;
        var envelopes := old(PlannedEnvelopes(a.changes, initialVersion));
        store.calls == old(store.calls) + [if initialVersion == -1 then Created(key) else Opened(key)] +
          (if commitIds == null then [] else [Committed(key, old(commitIds.Next()), envelopes)]) &&
        (outcome.Pass? ==> store.streams == old(store.streams)[key := old(store.History(key)) + envelopes])
      ensures !old(IdsAvailable(a.changes)) ==> store.calls == old(store.calls)
      ensures eventIds != null ==> eventIds.issued == old(eventIds.issued) + MissingIds(old(a.changes))
      ensures commitIds != null ==> commitIds.issued == old(commitIds.issued) + (if old(IdsAvailable(a.changes)) then 1 else 0)
    {
      ghost var planned := if IdsAvailable(a.changes) then PlannedEnvelopes(a.changes, a.version - |a.changes|) else [];
      var changes := a.changes;
      var initialVersion := a.version - |changes|;
      var envelopes, idsAvailable := EnvelopesFor(changes, initialVersion);
      if !idsAvailable {
        return Fail(NoEventIdGenerator);
      }
      assert envelopes == planned;

      outcome := WriteStream(key, initialVersion, envelopes);
      if outcome.Fail? {
        return;
      }
      a.ClearChanges();
    }

    /** persist: prepares the contract's group; with nothing pending it stops there,
        otherwise it builds, writes and clears the aggregate's changes. */
    method Persist(contract: Contract, aggregateId: AggregateId, a: Aggregate) returns (outcome: Outcome<Failure>)
      requires Valid()
      modifies this, a, store, eventIds, commitIds
      ensures Valid() && groups == Prepare(old(groups), contract)
      ensures a.version == old(a.version) && a.replayed == old(a.replayed)
      ensures outcome.Pass? ==> a.changes == []
      ensures outcome.Fail? ==> a.changes == old(a.changes) && store.streams == old(store.streams)
      // Nothing pending: no store call and nothing cleared.
      ensures old(a.changes) == [] ==>
        outcome.Pass? && store.calls == old(store.calls) && store.streams == old(store.streams)
      // When persist fails, and with which failure.
      ensures outcome == PersistOutcome(old(a.changes), old(a.version) - |old(a.changes)|,
                                        old(store.History(StreamKey(contract.name, aggregateId))),
                                        eventIds != null, commitIds != null)
      // Create exactly when the initial version is -1, then commit the planned envelopes.
      ensures old(a.changes) != [] && old(IdsAvailable(a.changes)) ==>
        var key := StreamKey(contract.name, aggregateId);
        var initialVersion := old(a.version) - |old(a.changes)|;
        var envelopes := old(PlannedEnvelopes(a.changes, initialVersion));
        store.calls == old(store.calls) + [if initialVersion == -1 then Created(key) else Opened(key)] +
          (if commitIds == null then [] else [Committed(key, old(commitIds.Next()), envelopes)]) &&
        (outcome.Pass? ==> store.streams == old(store.streams)[key := old(store.History(key)) + envelopes])
      ensures old(a.changes) != [] && !old(IdsAvailable(a.changes)) ==> store.calls == old(store.calls)
      ensures old(store.calls) <= store.calls && Extends(old(store.streams), store.streams)
      ensures forall key :: key != StreamKey(contract.name, aggregateId) ==> store.History(key) == old(store.History(key))
      ensures eventIds != null ==> eventIds.issued == old(eventIds.issued) + MissingIds(old(a.changes))
      ensures commitIds != null ==>
        commitIds.issued == old(commitIds.issued) + (if old(a.changes) != [] && old(IdsAvailable(a.changes)) then 1 else 0)
    {
      EnsurePrepared(contract);
      if a.changes == [] {
        return Pass;
      }
      outcome := PersistChanges(StreamKey(contract.name, aggregateId), a);
    }

    /** persist of the aggregate at position (g, i) of the registry, under its group's
        contract and its own identity, with what it stored: when it passed with changes
        pending, the planned envelopes, built with the event ids ids, were committed under
        commitId to the aggregate's stream after create or open. */
    method PersistTracked(g: nat, i: nat)
      returns (outcome: Outcome<Failure>, ghost ids: seq<EventId>, ghost planned: seq<Envelope>, ghost commitId: CommitId)
      requires Valid() && g < |groups| && i < |groups[g].aggregates|
      modifies this, store, eventIds, commitIds, groups[g].aggregates[i]
      ensures Valid() && groups == old(groups)
      ensures var a := groups[g].aggregates[i];
        a.version == old(a.version) && a.replayed == old(a.replayed) &&
        (outcome.Pass? ==> a.changes == []) && (outcome.Fail? ==> a.changes == old(a.changes))
      ensures var a := groups[g].aggregates[i];
        outcome == PersistOutcome(old(a.changes), old(a.version) - |old(a.changes)|,
                                  old(store.History(KeyAt(groups, g, i))), eventIds != null, commitIds != null)
      ensures var a := groups[g].aggregates[i];
        var initialVersion := old(a.version) - |old(a.changes)|;
        var key := KeyAt(groups, g, i);
        outcome.Pass? && old(a.changes) != [] ==>
          commitIds != null && commitId == old(commitIds.Next()) &&
          MissingIds(old(a.changes)) <= |ids| && planned == BuildEnvelopes(old(a.changes), initialVersion, ids, resolvers) &&
          planned == old(PlannedEnvelopes(a.changes, initialVersion)) &&
          store.streams == old(store.streams)[key := old(store.History(key)) + planned] &&
          store.calls == old(store.calls) + [if initialVersion == -1 then Created(key) else Opened(key)] +
            [Committed(key, commitId, planned)]
      ensures !(outcome.Pass? && old(groups[g].aggregates[i].changes) != []) ==> store.streams == old(store.streams)
      ensures outcome.Pass? && old(groups[g].aggregates[i].changes) == [] ==> store.calls == old(store.calls)
      ensures old(store.calls) <= store.calls
    {
      var contract := groups[g].contract;
      var a := groups[g].aggregates[i];
      assert GroupIndex(groups, contract.name) >= 0;
      ids := if eventIds == null then [] else eventIds.Upcoming(MissingIds(a.changes));
      planned := if IdsAvailable(a.changes) then PlannedEnvelopes(a.changes, a.version - |a.changes|) else [];
      commitId := if commitIds == null then "" else commitIds.Next();
      outcome := Persist(contract, a.id, a);
      assert groups == old(groups);
      assert a == groups[g].aggregates[i];
    }

    /** One step of commit: persists the aggregate at position (g, i) of the registry.
        When changes were pending and persist succeeded, writes records what was stored:
        the planned envelopes, one per change, committed to the aggregate's stream after
        create or open. */
    method PersistAt(g: nat, i: nat) returns (outcome: Outcome<Failure>, ghost writes: seq<Write>)
      requires Valid() && g < |groups| && i < |groups[g].aggregates|
      modifies this, store, eventIds, commitIds, groups[g].aggregates[i]
      ensures Valid() && groups == old(groups)
      ensures var a := groups[g].aggregates[i];
        a.version == old(a.version) && a.replayed == old(a.replayed) &&
        (outcome.Pass? ==> a.changes == []) && (outcome.Fail? ==> a.changes == old(a.changes))
      ensures |writes| <= 1 && (writes != [] <==> outcome.Pass? && old(groups[g].aggregates[i].changes) != [])
      ensures writes != [] ==>
        var a := groups[g].aggregates[i];
        var initialVersion := old(a.version) - |old(a.changes)|;
        commitIds != null && writes[0].g == g && writes[0].i == i && writes[0].key == KeyAt(groups, g, i) &&
        writes[0].created == (initialVersion == -1) && writes[0].commitId == old(commitIds.Next()) &&
        |writes[0].batch| == |old(a.changes)|
      ensures store.streams == Applied(old(store.streams), writes)
      ensures old(store.calls) <= store.calls
      ensures outcome.Pass? ==> store.calls == old(store.calls) + CallsOf(writes)
      // Which failure persist meets, against the stream as it stood.
      ensures var a := groups[g].aggregates[i];
        outcome == PersistOutcome(old(a.changes), old(a.version) - |old(a.changes)|,
                                  old(store.History(KeyAt(groups, g, i))), eventIds != null, commitIds != null)
      // The batch stored is the planned envelopes of the changes.
      ensures writes != [] ==>
        var a := groups[g].aggregates[i];
        writes[0].batch == old(PlannedEnvelopes(a.changes, a.version - |a.changes|)) &&
        PassedWith(old(a.changes), old(a.version), old(store.History(KeyAt(groups, g, i))), resolvers,
                   eventIds != null, commitIds != null, writes[0])
    {
      ghost var a := groups[g].aggregates[i];
      ghost var pending := a.changes;
      ghost var initialVersion := a.version - |pending|;
      ghost var ids, planned, commitId;
      outcome, ids, planned, commitId := PersistTracked(g, i);
      if outcome.Pass? && pending != [] {
        var key := KeyAt(groups, g, i);
        var w := Write(g, i, key, initialVersion == -1, commitId, ids, planned);
        OneWrite(old(store.streams), old(store.calls), w);
        writes := [w];
      } else {
        writes := [];
      }
    }

    /** PersistAt as one step of the record of commit, at position (g, i) with
        pending[g][i] changes pending: when it passes, the record of writes (from
        streams and calls) moves on to the next position. Read against snap, what the
        registry held when commit began, the record stays one of passing persists, and
        a failure is the one persist meets with what (g, i) held. */
    method PersistHeld(g: nat, i: nat, ghost snap: seq<seq<Held>>, ghost pending: seq<seq<nat>>,
                       ghost streams: map<StreamKey, seq<Envelope>>, ghost calls: seq<StoreCall>, ghost writes: seq<Write>)
      returns (outcome: Outcome<Failure>, ghost extended: seq<Write>)
      requires Valid() && g < |groups| && i < |groups[g].aggregates| && Fits(groups, snap)
      requires Shaped(Keys(groups), pending) && pending[g][i] == |groups[g].aggregates[i].changes|
      requires groups[g].aggregates[i].changes != [] ==>
        var a := groups[g].aggregates[i];
        snap[g][i] == Held(a.changes, a.version, a.replayed)
      requires Recorded(Keys(groups), pending, streams, calls, writes, g, i, store.streams, store.calls)
      requires PersistedAsHeld(snap, resolvers, eventIds != null, commitIds != null, streams, writes)
      modifies this, store, eventIds, commitIds, groups[g].aggregates[i]
      ensures Valid() && groups == old(groups)
      ensures var a := groups[g].aggregates[i];
        a.version == old(a.version) && a.replayed == old(a.replayed) &&
        (outcome.Pass? ==> a.changes == []) && (outcome.Fail? ==> a.changes == old(a.changes))
      ensures outcome.Pass? ==>
        Recorded(Keys(groups), pending, streams, calls, extended, g, i + 1, store.streams, store.calls)
      ensures outcome.Fail? ==> extended == writes && store.streams == old(store.streams) && old(store.calls) <= store.calls
      ensures PersistedAsHeld(snap, resolvers, eventIds != null, commitIds != null, streams, extended)
      ensures outcome.Fail? ==>
        FailsAsHeld(snap, pending, eventIds != null, commitIds != null, HistoryOf(Applied(streams, extended), KeyAt(groups, g, i)),
                    g, i, outcome)
    {
      ghost var a := groups[g].aggregates[i];
      ghost var held := Held(a.changes, a.version, a.replayed);
      ghost var history := store.History(KeyAt(groups, g, i));
      ghost var w;
      outcome, w := PersistAt(g, i);
      extended := RecordStep(Keys(groups), pending, streams, calls, writes, w, g, i, |held.changes|, outcome.Pass?,
                             old(store.streams), store.streams, old(store.calls), store.calls);
      HeldStep(snap, pending, resolvers, eventIds != null, commitIds != null, streams, writes, w, extended,
               g, i, KeyAt(groups, g, i), held, history, outcome);
    }

    /** One pass of the inner loop of commit at position (g, i): persists that aggregate
        and, when it succeeds, moves the registry and the record of writes (from
        streams and calls, with pending counted against snap) on to the next position.
        A failure is the one persist meets with what (g, i) held when commit began,
        against the stream as the record leaves it. */
    method PersistStep(g: nat, i: nat, ghost snap: seq<seq<Held>>, ghost pending: seq<seq<nat>>,
                       ghost streams: map<StreamKey, seq<Envelope>>, ghost calls: seq<StoreCall>, ghost writes: seq<Write>)
      returns (outcome: Outcome<Failure>, ghost extended: seq<Write>)
      requires Valid() && g < |groups| && i < |groups[g].aggregates|
      requires Fits(groups, snap) && pending == Pending(groups, snap)
      requires Progress(groups, snap, g, i)
      requires Recorded(Keys(groups), pending, streams, calls, writes, g, i, store.streams, store.calls)
      requires PersistedAsHeld(snap, resolvers, eventIds != null, commitIds != null, streams, writes)
      modifies this, store, eventIds, commitIds, groups[g].aggregates[i]
      ensures Valid() && groups == old(groups)
      ensures Progress(groups, snap, g, if outcome.Pass? then i + 1 else i)
      ensures outcome.Pass? ==>
        Recorded(Keys(groups), pending, streams, calls, extended, g, i + 1, store.streams, store.calls)
      ensures outcome.Fail? ==> extended == writes && store.streams == old(store.streams) && old(store.calls) <= store.calls
      ensures PersistedAsHeld(snap, resolvers, eventIds != null, commitIds != null, streams, extended)
      ensures outcome.Fail? ==>
        FailsAsHeld(snap, pending, eventIds != null, commitIds != null, HistoryOf(Applied(streams, extended), KeyAt(groups, g, i)),
                    g, i, outcome)
    {
      PendingHere(groups, snap, g, i);
      ghost var before: seq<seq<Held>> := Snapshot(groups);
      ghost var a := groups[g].aggregates[i];
      outcome, extended := PersistHeld(g, i, snap, pending, streams, calls, writes);
      ghost var after: seq<seq<Held>> := Snapshot(groups);
      forall gg, ii | 0 <= gg < |groups| && 0 <= ii < |groups[gg].aggregates|
        ensures after[gg][ii] == if groups[gg].aggregates[ii] != a || !outcome.Pass? then before[gg][ii]
                                 else before[gg][ii].(changes := [])
      {
      }
      ProgressStep(groups, snap, before, after, g, i, outcome.Pass?);
    }

    /** The inner loop of commit: persists the aggregates of group g in tracking
        order and stops at the first failure, at position stop of the group. snap is
        what the registry held when commit began and pending what commit finds pending
        at each position; writes is the record of commit up to the start of the group,
        from streams and calls, and extended adds what the group stored. */
    method PersistGroup(g: nat, ghost snap: seq<seq<Held>>, ghost pending: seq<seq<nat>>,
                        ghost streams: map<StreamKey, seq<Envelope>>, ghost calls: seq<StoreCall>, ghost writes: seq<Write>)
      returns (outcome: Outcome<Failure>, ghost stop: nat, ghost extended: seq<Write>)
      requires Valid() && g < |groups|
      requires Fits(groups, snap) && pending == Pending(groups, snap)
      requires Progress(groups, snap, g, 0)
      requires Recorded(Keys(groups), pending, streams, calls, writes, g, 0, store.streams, store.calls)
      requires PersistedAsHeld(snap, resolvers, eventIds != null, commitIds != null, streams, writes)
      modifies this, store, eventIds, commitIds, groups[g].aggregates
      ensures Valid() && groups == old(groups)
      ensures outcome.Pass? ==>
        Progress(groups, snap, g + 1, 0) &&
        Recorded(Keys(groups), pending, streams, calls, extended, g + 1, 0, store.streams, store.calls)
      ensures outcome.Fail? ==>
        stop < |groups[g].aggregates| && Progress(groups, snap, g, stop) &&
        Recorded(Keys(groups), pending, streams, calls, extended, g, stop, store.streams, calls + CallsOf(extended)) &&
        calls + CallsOf(extended) <= store.calls
      ensures PersistedAsHeld(snap, resolvers, eventIds != null, commitIds != null, streams, extended)
      ensures outcome.Fail? ==>
        FailsAsHeld(snap, pending, eventIds != null, commitIds != null, HistoryOf(Applied(streams, extended), KeyAt(groups, g, stop)),
                    g, stop, outcome)
    {
      var gs := groups;
      extended := writes;
      outcome := Pass;
      var i := 0;
      while i < |gs[g].aggregates|
        invariant i <= |gs[g].aggregates| && outcome.Pass? && groups == gs && Valid()
        invariant Progress(gs, snap, g, i)
        invariant Recorded(Keys(gs), pending, streams, calls, extended, g, i, store.streams, store.calls)
        invariant PersistedAsHeld(snap, resolvers, eventIds != null, commitIds != null, streams, extended)
      {
        outcome, extended := PersistStep(g, i, snap, pending, streams, calls, extended);
        if outcome.Fail? {
          break;
        }
        i := i + 1;
      }
      stop := i;
      if outcome.Pass? {
        NextGroup(Keys(gs), pending, streams, calls, extended, g, store.streams, store.calls);
        ProgressNextGroup(gs, snap, Snapshot(gs), g);
      }
    }

    /** The outer loop of commit: persists group after group, from the start of the
        registry, and stops at the first failure, at (stopG, stopI). snap is what the
        registry held when commit began and pending what commit finds pending at each
        position; writes records what was stored, in commit order. */
    method PersistGroups(ghost snap: seq<seq<Held>>, ghost pending: seq<seq<nat>>)
      returns (outcome: Outcome<Failure>, ghost stopG: nat, ghost stopI: nat, ghost writes: seq<Write>)
      requires Valid() && Fits(groups, snap) && pending == Pending(groups, snap) && Progress(groups, snap, 0, 0)
      modifies this, store, eventIds, commitIds, Members(groups)
      ensures Valid() && groups == old(groups)
      ensures outcome.Pass? ==> stopG == |groups| && stopI == 0
      ensures outcome.Fail? ==> stopG < |groups| && stopI < |groups[stopG].aggregates|
      ensures Progress(groups, snap, stopG, stopI)
      ensures Recorded(Keys(groups), pending, old(store.streams), old(store.calls), writes, stopG, stopI,
                       store.streams, old(store.calls) + CallsOf(writes))
      ensures old(store.calls) + CallsOf(writes) <= store.calls
      ensures outcome.Pass? ==> store.calls == old(store.calls) + CallsOf(writes)
      ensures PersistedAsHeld(snap, resolvers, eventIds != null, commitIds != null, old(store.streams), writes)
      ensures outcome.Fail? ==>
        FailsAsHeld(snap, pending, eventIds != null, commitIds != null,
                    HistoryOf(Applied(old(store.streams), writes), KeyAt(groups, stopG, stopI)), stopG, stopI, outcome)
    {
      var gs := groups;
      writes := [];
      outcome := Pass;
      var g := 0;
      ghost var stop;
      while g < |gs|
        invariant g <= |gs| && outcome.Pass? && groups == gs && Valid()
        invariant Progress(gs, snap, g, 0)
        invariant Recorded(Keys(gs), pending, old(store.streams), old(store.calls), writes, g, 0, store.streams, store.calls)
        invariant PersistedAsHeld(snap, resolvers, eventIds != null, commitIds != null, old(store.streams), writes)
      {
        GroupMembers(gs, g);
        outcome, stop, writes := PersistGroup(g, snap, pending, old(store.streams), old(store.calls), writes);
        if outcome.Fail? {
          stopG, stopI := g, stop;
          return;
        }
        g := g + 1;
      }
      stopG, stopI := g, 0;
    }

    /** commit: persists every tracked aggregate, group by group in insertion order
        and in tracking order within a group, under its contract and its own identity.
        The first failure ends the commit: (stopG, stopI) is where it happened, every
        aggregate before it has been persisted, and the ones not reached keep their
        pending changes. writes records, in commit order, each aggregate whose changes
        were stored: the streams are the old ones with those batches appended, and the
        store calls begin with their create or open and commit calls. */
    method Commit() returns (outcome: Outcome<Failure>, ghost stopG: nat, ghost stopI: nat, ghost writes: seq<Write>)
      requires Valid()
      modifies this, store, eventIds, commitIds, Members(groups)
      ensures Valid() && groups == old(groups)
      ensures outcome.Pass? ==> stopG == |groups| && stopI == 0
      ensures outcome.Pass? ==>
        forall g, i :: 0 <= g < |groups| && 0 <= i < |groups[g].aggregates| ==> groups[g].aggregates[i].changes == []
      ensures outcome.Fail? ==> stopG < |groups| && stopI < |groups[stopG].aggregates|
      // Every aggregate keeps its version and replayed changes; the ones before the stop
      // hold no changes, and the ones commit has not reached keep theirs.
      ensures forall g, i {:trigger groups[g].aggregates[i]} :: 0 <= g < |groups| && 0 <= i < |groups[g].aggregates| ==>
        var a := groups[g].aggregates[i];
        a.version == old(a.version) && a.replayed == old(a.replayed) &&
        (Before(g, i, stopG, stopI) ==> a.changes == []) &&
        (!VisitedBefore(groups, a, stopG, stopI) ==> a.changes == old(a.changes))
      ensures store.streams == Applied(old(store.streams), writes)
      ensures InCommitOrder(Keys(groups), writes, stopG, stopI)
      ensures Positions(writes) == Due(old(PendingCounts(groups)), stopG, stopI)
      ensures old(store.calls) + CallsOf(writes) <= store.calls
      ensures outcome.Pass? ==> store.calls == old(store.calls) + CallsOf(writes)
      // Exactly the positions reached with changes pending were written, each with one
      // envelope per change commit found there.
      ensures forall j :: 0 <= j < |writes| ==>
        |writes[j].batch| == old(PendingCounts(groups))[writes[j].g][writes[j].i]
      ensures forall g, i {:trigger WroteAt(writes, g, i)} ::
        0 <= g < |groups| && 0 <= i < |groups[g].aggregates| && Before(g, i, stopG, stopI) &&
        old(PendingCounts(groups))[g][i] > 0
        ==> WroteAt(writes, g, i)
      // With ids unique within each group, every written stream is its old history followed by its batch.
      ensures Unique(groups) ==>
        forall j :: 0 <= j < |writes| ==> store.History(writes[j].key) == old(store.History(writes[j].key)) + writes[j].batch
      ensures Extends(old(store.streams), store.streams)
      ensures forall key :: !TrackedKey(groups, key) ==> store.History(key) == old(store.History(key))
      // Every write is the passing persist of what its position held when commit began,
      // against its stream as the writes before it left it: its batch is the envelopes
      // built from those changes at their initial version.
      ensures PersistedAsHeld(old(Snapshot(groups)), resolvers, eventIds != null, commitIds != null,
                              old(store.streams), writes)
      // A failure is the one persist meets with the changes the stop position held,
      // against its stream as the writes left it. Commit stops only where it found
      // changes pending: an instance also tracked at an earlier position, whose changes
      // that position already stored, never fails.
      ensures outcome.Fail? ==>
        FailsAsHeld(old(Snapshot(groups)), old(PendingCounts(groups)), eventIds != null, commitIds != null,
                    HistoryOf(Applied(old(store.streams), writes), KeyAt(groups, stopG, stopI)), stopG, stopI, outcome)
    {
      ghost var snap := Snapshot(groups);
      ghost var pending := Pending(groups, snap);
      ProgressStart(groups, snap);
      outcome, stopG, stopI, writes := PersistGroups(snap, pending);
      ProgressHeld(groups, snap, stopG, stopI);
      forall g, i | 0 <= g < |groups| && 0 <= i < |groups[g].aggregates|
        ensures var a := groups[g].aggregates[i];
          a.version == old(a.version) && a.replayed == old(a.replayed) &&
          (Before(g, i, stopG, stopI) ==> a.changes == []) &&
          (!VisitedBefore(groups, a, stopG, stopI) ==> a.changes == old(a.changes))
      {
        var a := groups[g].aggregates[i];
        assert snap[g][i] == old(Held(a.changes, a.version, a.replayed));
      }
      CommitWrites(groups, pending, old(store.streams), old(store.calls), writes, stopG, stopI,
                   store.streams, old(store.calls) + CallsOf(writes));
      assert old(PendingCounts(groups)) == pending;
    }

    /** findPersistedAggregate: opens the aggregate's stream and turns its envelopes
        back into changes; an empty stream means there is no such aggregate. Otherwise a
        blank instance replays the changes and is tracked. */
    method FindPersisted(contract: Contract, id: AggregateId) returns (r: Aggregate?, outcome: Outcome<Failure>)
      requires Valid()
      modifies this, store
      ensures Valid()
      ensures store.streams == old(store.streams)
      ensures store.calls == old(store.calls) + [Opened(StreamKey(contract.name, id))]
      ensures old(store.History(StreamKey(contract.name, id))) == [] ==>
        r == null && outcome.Pass? && groups == old(groups)
      ensures old(store.History(StreamKey(contract.name, id))) != [] ==>
        var history := old(store.History(StreamKey(contract.name, id)));
        r != null && fresh(r) && r.id == id && r.changes == [] &&
        r.replayed == ToChanges(history) && r.version == |history| - 1 &&
        (outcome.Fail? <==> old(Find(groups, contract.name, id)) != null) &&
        (outcome.Fail? ==> outcome.error == AlreadyTracked && groups == old(groups)) &&
        (outcome.Pass? ==> groups == Add(old(groups), contract, r))
      ensures old(Unique(groups)) ==> Unique(groups)
    {
      var stream := store.Open(StreamKey(contract.name, id));
      var events := ToChanges(stream.All());
      if |events| == 0 {
        return null, Pass;
      }
      r := new Aggregate(id);
      r.Reconstitute(events);
      outcome := Track(contract, id, r);
    }

    /** get: the tracked instance when there is one, without touching the store;
        otherwise the aggregate rebuilt from its stream and now tracked, or null when
        the stream is empty. */
    method Get(contract: Contract, id: AggregateId) returns (r: Aggregate?)
      requires Valid()
      modifies this, store
      ensures Valid()
      ensures store.streams == old(store.streams)
      ensures old(Find(groups, contract.name, id)) != null ==>
        r == old(Find(groups, contract.name, id)) && groups == old(groups) && store.calls == old(store.calls)
      ensures old(Find(groups, contract.name, id)) == null ==>
        store.calls == old(store.calls) + [Opened(StreamKey(contract.name, id))]
      ensures old(Find(groups, contract.name, id)) == null && old(store.History(StreamKey(contract.name, id))) == [] ==>
        r == null && groups == old(groups)
      ensures old(Find(groups, contract.name, id)) == null && old(store.History(StreamKey(contract.name, id))) != [] ==>
        var history := old(store.History(StreamKey(contract.name, id)));
        r != null && fresh(r) && r.id == id && r.changes == [] &&
        r.replayed == ToChanges(history) && r.version == |history| - 1 &&
        groups == Add(old(groups), contract, r) && Find(groups, contract.name, id) == r
      ensures old(Unique(groups)) ==> Unique(groups)
    {
      r := FindTracked(contract, id);
      if r != null {
        return;
      }
      var outcome;
      r, outcome := FindPersisted(contract, id);
      if r != null {
        AddThenFound(old(groups), contract, r);
      }
    }
  }
}
