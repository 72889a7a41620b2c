/** What a commit writes to the store: one record per aggregate whose changes were
    stored, in the order commit visits the registry, and the streams and store calls
    those records account for. */
module CommitLog {
  import opened Changes
  import opened Registry
  import opened EventStorage

  /** Position (g, i) of the registry comes before position (limitG, limitI) in commit order. */
  predicate Before(g: int, i: int, limitG: int, limitI: int) {
    g < limitG || (g == limitG && i < limitI)
  }

  /** The stream of the aggregate at position (g, i) of the registry. */
  function KeyAt(groups: seq<Group>, g: nat, i: nat): StreamKey
    requires g < |groups| && i < |groups[g].aggregates|
  {
    StreamKey(groups[g].contract.name, groups[g].aggregates[i].id)
  }

  /** The stream of every position of the registry: Keys(groups)[g][i] is the stream
      of the i-th aggregate of group g. */
  function Keys(groups: seq<Group>): (keys: seq<seq<StreamKey>>)
    ensures |keys| == |groups|
    ensures forall g :: 0 <= g < |groups| ==> |keys[g]| == |groups[g].aggregates|
    ensures forall g, i :: 0 <= g < |groups| && 0 <= i < |groups[g].aggregates| ==> keys[g][i] == KeyAt(groups, g, i)
  {
    seq(|groups|, g requires 0 <= g < |groups| =>
      seq(|groups[g].aggregates|, i requires 0 <= i < |groups[g].aggregates| => KeyAt(groups, g, i)))
  }

  /** One successful persist with changes pending: the aggregate's registry position,
      its stream, whether the stream was created (rather than opened), the commit id,
      the event ids the generator handed out for it and the envelopes committed. */
  datatype Write = Write(g: nat, i: nat, key: StreamKey, created: bool, commitId: CommitId,
                         ids: seq<EventId>, batch: seq<Envelope>)

  /** The streams after the writes, made in order: each stores its batch after its
      stream's history. */
  function Applied(streams: map<StreamKey, seq<Envelope>>, writes: seq<Write>): map<StreamKey, seq<Envelope>>
    decreases |writes|
  {
    if writes == [] then streams
    else
      var w := writes[|writes| - 1];
      var before := Applied(streams, writes[..|writes| - 1]);
      before[w.key := HistoryOf(before, w.key) + w.batch]
  }

  /** The store calls of the writes, in order: create or open, then the commit of the batch. */
  function CallsOf(writes: seq<Write>): seq<StoreCall>
    decreases |writes|
  {
    if writes == [] then []
    else
      var w := writes[|writes| - 1];
      CallsOf(writes[..|writes| - 1]) +
        [if w.created then Created(w.key) else Opened(w.key), Committed(w.key, w.commitId, w.batch)]
  }

  /** w was made at a position of the layout keys, to the stream of that position, and
      stored something. */
  ghost predicate WriteAt(keys: seq<seq<StreamKey>>, w: Write) {
    w.g < |keys| && w.i < |keys[w.g]| && w.key == keys[w.g][w.i] && w.batch != []
  }

  /** The writes were made at positions before (stopG, stopI), each strictly after the
      ones before it in commit order. */
  ghost predicate InCommitOrder(keys: seq<seq<StreamKey>>, writes: seq<Write>, stopG: int, stopI: int) {
    (forall j :: 0 <= j < |writes| ==> WriteAt(keys, writes[j]) && Before(writes[j].g, writes[j].i, stopG, stopI)) &&
    (forall j, k :: 0 <= j < k < |writes| ==> Before(writes[j].g, writes[j].i, writes[k].g, writes[k].i))
  }

  /** One of the writes was made at position (g, i). */
  ghost predicate WroteAt(writes: seq<Write>, g: int, i: int) {
    exists j :: 0 <= j < |writes| && writes[j].g == g && writes[j].i == i
  }

  /** A single write stores its batch after its stream's history, with a create or
      open call and then a commit call. */
  lemma OneWrite(streams: map<StreamKey, seq<Envelope>>, calls: seq<StoreCall>, w: Write)
    ensures Applied(streams, [w]) == streams[w.key := HistoryOf(streams, w.key) + w.batch]
    ensures calls + CallsOf([w]) ==
      calls + [if w.created then Created(w.key) else Opened(w.key)] + [Committed(w.key, w.commitId, w.batch)]
  {
    assert [w][..0] == [];
  }

  /** Writing a then b is writing a + b. */
  lemma {:induction false} AppliedConcat(streams: map<StreamKey, seq<Envelope>>, a: seq<Write>, b: seq<Write>)
    ensures Applied(streams, a + b) == Applied(Applied(streams, a), b)
    decreases |b|
  {
    if b == [] {
      assert a + b == a;
    } else {
      var c := a + b;
      assert c[..|c| - 1] == a + b[..|b| - 1];
      AppliedConcat(streams, a, b[..|b| - 1]);
    }
  }

  lemma {:induction false} CallsOfConcat(a: seq<Write>, b: seq<Write>)
    ensures CallsOf(a + b) == CallsOf(a) + CallsOf(b)
    decreases |b|
  {
    if b == [] {
      assert a + b == a;
    } else {
      var c := a + b;
      assert c[..|c| - 1] == a + b[..|b| - 1];
      CallsOfConcat(a, b[..|b| - 1]);
    }
  }

  /** Writes only append: every stream begins with what it held before. */
  lemma {:induction false} AppliedExtends(streams: map<StreamKey, seq<Envelope>>, writes: seq<Write>)
    ensures Extends(streams, Applied(streams, writes))
    decreases |writes|
  {
    if writes != [] {
      var w := writes[|writes| - 1];
      var before := Applied(streams, writes[..|writes| - 1]);
      AppliedExtends(streams, writes[..|writes| - 1]);
      var after := before[w.key := HistoryOf(before, w.key) + w.batch];
      assert Extends(before, after) by {
        forall key ensures HistoryOf(before, key) <= HistoryOf(after, key) {
          if key == w.key {
            assert HistoryOf(after, key) == HistoryOf(before, key) + w.batch;
          }
        }
      }
      ExtendsTransitive(streams, before, after);
    }
  }

  /** A stream no write was made to keeps its history. */
  lemma {:induction false} AppliedElsewhere(streams: map<StreamKey, seq<Envelope>>, writes: seq<Write>, key: StreamKey)
    requires forall j :: 0 <= j < |writes| ==> writes[j].key != key
    ensures HistoryOf(Applied(streams, writes), key) == HistoryOf(streams, key)
    decreases |writes|
  {
    if writes != [] {
      AppliedElsewhere(streams, writes[..|writes| - 1], key);
    }
  }

  /** A stream written exactly once holds its old history followed by that write's batch. */
  lemma {:induction false} AppliedOnce(streams: map<StreamKey, seq<Envelope>>, writes: seq<Write>, j: nat)
    requires j < |writes|
    requires forall k :: 0 <= k < |writes| && k != j ==> writes[k].key != writes[j].key
    ensures HistoryOf(Applied(streams, writes), writes[j].key) == HistoryOf(streams, writes[j].key) + writes[j].batch
    decreases |writes|
  {
    var prefix := writes[..|writes| - 1];
    if j == |writes| - 1 {
      AppliedElsewhere(streams, prefix, writes[j].key);
    } else {
      assert prefix[j] == writes[j];
      AppliedOnce(streams, prefix, j);
    }
  }

  /** Under distinct contract names and ids unique within each group, writes in commit
      order go to distinct streams, so each written stream holds its old history
      followed by exactly its batch. */
  lemma WrittenStreams(groups: seq<Group>, streams: map<StreamKey, seq<Envelope>>, writes: seq<Write>, stopG: int, stopI: int)
    requires DistinctNames(groups) && Unique(groups) && InCommitOrder(Keys(groups), writes, stopG, stopI)
    ensures forall j :: 0 <= j < |writes| ==>
      HistoryOf(Applied(streams, writes), writes[j].key) == HistoryOf(streams, writes[j].key) + writes[j].batch
  {
    forall j | 0 <= j < |writes|
      ensures HistoryOf(Applied(streams, writes), writes[j].key) == HistoryOf(streams, writes[j].key) + writes[j].batch
    {
      forall k | 0 <= k < |writes| && k != j
        ensures writes[k].key != writes[j].key
      {
        var p, q := writes[j], writes[k];
        assert WriteAt(Keys(groups), p) && WriteAt(Keys(groups), q);
        assert p.g != q.g || p.i != q.i;
        if p.g == q.g {
          assert groups[p.g].aggregates[p.i].id != groups[q.g].aggregates[q.i].id;
        } else {
          assert NameAt(groups, p.g) != NameAt(groups, q.g);
        }
      }
      AppliedOnce(streams, writes, j);
    }
  }

  /** pending has one count per position of the layout keys. */
  ghost predicate Shaped(keys: seq<seq<StreamKey>>, pending: seq<seq<nat>>) {
    |pending| == |keys| && forall g :: 0 <= g < |keys| ==> |pending[g]| == |keys[g]|
  }

  /** (g, i) is a position of the registry, or the end of a group, or the end of the
      registry: a place where commit can be. */
  predicate StopPoint(pending: seq<seq<nat>>, g: nat, i: nat) {
    (g < |pending| && i <= |pending[g]|) || (g == |pending| && i == 0)
  }

  /** The registry position of each write, in order. */
  function Positions(writes: seq<Write>): seq<(nat, nat)> {
    seq(|writes|, j requires 0 <= j < |writes| => (writes[j].g, writes[j].i))
  }

  /** The positions of writes a then b are those of a then those of b. */
  lemma PositionsConcat(a: seq<Write>, b: seq<Write>)
    ensures Positions(a + b) == Positions(a) + Positions(b)
  {
  }

  /** Each write was made at a position of the layout keys, to that position's stream,
      and stored one envelope per change pending there. */
  ghost predicate Batches(keys: seq<seq<StreamKey>>, pending: seq<seq<nat>>, writes: seq<Write>)
    requires Shaped(keys, pending)
  {
    forall j :: 0 <= j < |writes| ==>
      WriteAt(keys, writes[j]) && |writes[j].batch| == pending[writes[j].g][writes[j].i]
  }

  /** A single write made at a position of the layout keys, storing one envelope per
      change pending there, is a batch record. */
  lemma BatchOne(keys: seq<seq<StreamKey>>, pending: seq<seq<nat>>, w: seq<Write>)
    requires Shaped(keys, pending) && |w| == 1
    requires WriteAt(keys, w[0]) && |w[0].batch| == pending[w[0].g][w[0].i]
    ensures Batches(keys, pending, w)
  {
  }

  /** Writes that each match their positions, followed by more such writes, still do. */
  lemma BatchesConcat(keys: seq<seq<StreamKey>>, pending: seq<seq<nat>>, a: seq<Write>, b: seq<Write>)
    requires Shaped(keys, pending) && Batches(keys, pending, a) && Batches(keys, pending, b)
    ensures Batches(keys, pending, a + b)
  {
    var c := a + b;
    forall j | 0 <= j < |c|
      ensures WriteAt(keys, c[j]) && |c[j].batch| == pending[c[j].g][c[j].i]
    {
      if j < |a| {
        assert c[j] == a[j];
      } else {
        assert c[j] == b[j - |a|];
      }
    }
  }

  /** The positions at which commit finds changes pending, in commit order, from the
      start of the registry up to (g, i): group by group, and within a group in
      tracking order. */
  ghost function Due(pending: seq<seq<nat>>, g: nat, i: nat): seq<(nat, nat)>
    requires StopPoint(pending, g, i)
    decreases g, i
  {
    if i > 0 then Due(pending, g, i - 1) + (if pending[g][i - 1] > 0 then [(g, i - 1)] else [])
    else if g == 0 then []
    else Due(pending, g - 1, |pending[g - 1]|)
  }

  /** Every position due up to (g, i) lies in the registry before (g, i) and has changes pending. */
  lemma {:induction false} DueBounds(pending: seq<seq<nat>>, g: nat, i: nat)
    requires StopPoint(pending, g, i)
    ensures forall j :: 0 <= j < |Due(pending, g, i)| ==>
      var p := Due(pending, g, i)[j];
      p.0 < |pending| && p.1 < |pending[p.0]| && pending[p.0][p.1] > 0 && Before(p.0, p.1, g, i)
    decreases g, i
  {
    if i > 0 {
      DueBounds(pending, g, i - 1);
    } else if g > 0 {
      DueBounds(pending, g - 1, |pending[g - 1]|);
    }
  }

  /** The positions due are listed strictly in commit order. */
  lemma {:induction false} DueOrdered(pending: seq<seq<nat>>, g: nat, i: nat)
    requires StopPoint(pending, g, i)
    ensures forall j, k :: 0 <= j < k < |Due(pending, g, i)| ==>
      Before(Due(pending, g, i)[j].0, Due(pending, g, i)[j].1, Due(pending, g, i)[k].0, Due(pending, g, i)[k].1)
    decreases g, i
  {
    if i > 0 {
      DueOrdered(pending, g, i - 1);
      DueBounds(pending, g, i - 1);
    } else if g > 0 {
      DueOrdered(pending, g - 1, |pending[g - 1]|);
    }
  }

  /** Every position before (g, i) with changes pending is due. */
  lemma {:induction false} DueComplete(pending: seq<seq<nat>>, g: nat, i: nat, pg: nat, pi: nat)
    requires StopPoint(pending, g, i)
    requires pg < |pending| && pi < |pending[pg]| && Before(pg, pi, g, i) && pending[pg][pi] > 0
    ensures (pg, pi) in Due(pending, g, i)
    decreases g, i
  {
    if i > 0 {
      if pg != g || pi != i - 1 {
        DueComplete(pending, g, i - 1, pg, pi);
      }
    } else {
      DueComplete(pending, g - 1, |pending[g - 1]|, pg, pi);
    }
  }

  /** The record of commit up to position (g, i), with what the store holds because of
      it: one write at each position due, in commit order, to that position's stream,
      storing one envelope per pending change; the streams are streams with the writes
      applied, and the store calls are calls followed by the calls of the writes. */
  ghost predicate Recorded(keys: seq<seq<StreamKey>>, pending: seq<seq<nat>>,
                           streams: map<StreamKey, seq<Envelope>>, calls: seq<StoreCall>, writes: seq<Write>,
                           g: nat, i: nat, streamsNow: map<StreamKey, seq<Envelope>>, callsNow: seq<StoreCall>)
    requires Shaped(keys, pending) && StopPoint(pending, g, i)
  {
    Positions(writes) == Due(pending, g, i) && Batches(keys, pending, writes) &&
    streamsNow == Applied(streams, writes) && callsNow == calls + CallsOf(writes)
  }

  /** Passing position (g, i) adds it to the positions due exactly when it has changes
      pending, which is when a write w was made there. */
  lemma DueStep(pending: seq<seq<nat>>, g: nat, i: nat, w: seq<Write>)
    requires g < |pending| && i < |pending[g]|
    requires |w| <= 1 && (w != [] <==> pending[g][i] > 0) && (w != [] ==> w[0].g == g && w[0].i == i)
    ensures Due(pending, g, i + 1) == Due(pending, g, i) + Positions(w)
  {
    if w != [] {
      assert Positions(w) == [(g, i)];
    } else {
      assert Positions(w) == [];
    }
  }

  /** One step of commit at position (g, i) that passed, as the store sees it: the
      writes w of that step (one when changes were pending there, none otherwise) took
      the streams from before to after and the store calls from callsBefore to
      callsAfter, and the record with w added reaches the next position. */
  lemma RecordPass(keys: seq<seq<StreamKey>>, pending: seq<seq<nat>>,
                   streams: map<StreamKey, seq<Envelope>>, calls: seq<StoreCall>, writes: seq<Write>, w: seq<Write>,
                   g: nat, i: nat,
                   before: map<StreamKey, seq<Envelope>>, after: map<StreamKey, seq<Envelope>>,
                   callsBefore: seq<StoreCall>, callsAfter: seq<StoreCall>)
    requires Shaped(keys, pending) && g < |keys| && i < |keys[g]|
    requires Recorded(keys, pending, streams, calls, writes, g, i, before, callsBefore)
    requires |w| <= 1 && (w != [] <==> pending[g][i] > 0)
    requires w != [] ==> w[0].g == g && w[0].i == i && w[0].key == keys[g][i] && |w[0].batch| == pending[g][i]
    requires after == Applied(before, w) && callsAfter == callsBefore + CallsOf(w)
    ensures Recorded(keys, pending, streams, calls, writes + w, g, i + 1, after, callsAfter)
  {
    AppliedConcat(streams, writes, w);
    CallsOfConcat(writes, w);
    PositionsConcat(writes, w);
    DueStep(pending, g, i, w);
    if w != [] {
      BatchOne(keys, pending, w);
    }
    BatchesConcat(keys, pending, writes, w);
  }

  /** One step of commit at position (g, i), as the store sees it: visited changes were
      pending there when it was reached, and the writes w of that step took the streams
      from before to after and the store calls from callsBefore to callsAfter. When the
      step passed, extended is the record with w added, up to the next position;
      otherwise nothing was written. */
  lemma RecordStep(keys: seq<seq<StreamKey>>, pending: seq<seq<nat>>,
                   streams: map<StreamKey, seq<Envelope>>, calls: seq<StoreCall>, writes: seq<Write>, w: seq<Write>,
                   g: nat, i: nat, visited: nat, passed: bool,
                   before: map<StreamKey, seq<Envelope>>, after: map<StreamKey, seq<Envelope>>,
                   callsBefore: seq<StoreCall>, callsAfter: seq<StoreCall>)
    returns (extended: seq<Write>)
    requires Shaped(keys, pending) && g < |keys| && i < |keys[g]|
    requires Recorded(keys, pending, streams, calls, writes, g, i, before, callsBefore)
    requires |w| <= 1 && (w != [] <==> passed && visited > 0)
    requires w != [] ==> w[0].g == g && w[0].i == i && w[0].key == keys[g][i] && |w[0].batch| == visited
    requires visited == pending[g][i]
    requires after == Applied(before, w) && (passed ==> callsAfter == callsBefore + CallsOf(w))
    ensures passed ==> extended == writes + w && Recorded(keys, pending, streams, calls, extended, g, i + 1, after, callsAfter)
    ensures !passed ==> extended == writes && after == before
  {
    if passed {
      RecordPass(keys, pending, streams, calls, writes, w, g, i, before, after, callsBefore, callsAfter);
      extended := writes + w;
    } else {
      assert w == [];
      extended := writes;
    }
  }

  /** The record up to the end of group g is the record up to the start of group g + 1. */
  lemma NextGroup(keys: seq<seq<StreamKey>>, pending: seq<seq<nat>>,
                  streams: map<StreamKey, seq<Envelope>>, calls: seq<StoreCall>, writes: seq<Write>,
                  g: nat, streamsNow: map<StreamKey, seq<Envelope>>, callsNow: seq<StoreCall>)
    requires Shaped(keys, pending) && g < |keys|
    requires Recorded(keys, pending, streams, calls, writes, g, |keys[g]|, streamsNow, callsNow)
    ensures Recorded(keys, pending, streams, calls, writes, g + 1, 0, streamsNow, callsNow)
  {
    assert Due(pending, g + 1, 0) == Due(pending, g, |pending[g]|);
  }

  /** The record up to (stopG, stopI) lists its writes in commit order, before the stop,
      exactly at the positions with changes pending there, and at each of them. */
  lemma RecordedInOrder(keys: seq<seq<StreamKey>>, pending: seq<seq<nat>>,
                        streams: map<StreamKey, seq<Envelope>>, calls: seq<StoreCall>, writes: seq<Write>,
                        stopG: nat, stopI: nat, streamsNow: map<StreamKey, seq<Envelope>>, callsNow: seq<StoreCall>)
    requires Shaped(keys, pending) && StopPoint(pending, stopG, stopI)
    requires Recorded(keys, pending, streams, calls, writes, stopG, stopI, streamsNow, callsNow)
    ensures InCommitOrder(keys, writes, stopG, stopI)
    ensures forall j :: 0 <= j < |writes| ==> pending[writes[j].g][writes[j].i] == |writes[j].batch| > 0
    ensures forall g, i {:trigger WroteAt(writes, g, i)} ::
      0 <= g < |keys| && 0 <= i < |keys[g]| && Before(g, i, stopG, stopI) && pending[g][i] > 0
      ==> WroteAt(writes, g, i)
  {
    var due := Due(pending, stopG, stopI);
    var ps := Positions(writes);
    DueBounds(pending, stopG, stopI);
    DueOrdered(pending, stopG, stopI);
    forall j | 0 <= j < |writes|
      ensures Before(writes[j].g, writes[j].i, stopG, stopI) && pending[writes[j].g][writes[j].i] > 0
    {
      assert ps[j] == due[j];
    }
    forall j, k | 0 <= j < k < |writes|
      ensures Before(writes[j].g, writes[j].i, writes[k].g, writes[k].i)
    {
      assert ps[j] == due[j] && ps[k] == due[k];
    }
    forall g, i | 0 <= g < |keys| && 0 <= i < |keys[g]| && Before(g, i, stopG, stopI) && pending[g][i] > 0
      ensures WroteAt(writes, g, i)
    {
      DueComplete(pending, stopG, stopI, g, i);
      var j :| 0 <= j < |due| && due[j] == (g, i);
      assert ps[j] == (writes[j].g, writes[j].i);
    }
  }
}
