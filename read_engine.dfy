/**
  The snapshot index and the read engine: how the store turns one type's event
  collection and the shared snapshot collection into the event stream of one
  aggregate.
 */
module ReadEngine {
  import opened Records
  import opened Ordering

  /** A record of the shared snapshot collection, tagged with the type it belongs to. */
  datatype SnapshotEntry = SnapshotEntry(streamType: string, event: DomainEvent)

  predicate IsSnapshotOf(s: SnapshotEntry, streamType: string, id: string) {
    s.streamType == streamType && s.event.aggregateIdentifier == id
  }

  /**
    The snapshot of aggregate `id` of type `streamType` with the greatest sequence
    number, if there is any. Among snapshots with equal sequence numbers the one
    written last wins.
   */
  function LatestSnapshot(snapshots: seq<SnapshotEntry>, streamType: string, id: string): (r: Option<DomainEvent>)
    ensures r.None? <==> forall k | 0 <= k < |snapshots| :: !IsSnapshotOf(snapshots[k], streamType, id)
    ensures r.Some? ==> SnapshotEntry(streamType, r.value) in snapshots && r.value.aggregateIdentifier == id
    ensures r.Some? ==> forall k | 0 <= k < |snapshots| && IsSnapshotOf(snapshots[k], streamType, id) ::
      snapshots[k].event.sequenceNumber <= r.value.sequenceNumber
  {
    if snapshots == [] then None
    else
      var last := snapshots[|snapshots| - 1];
      var earlier := LatestSnapshot(snapshots[..|snapshots| - 1], streamType, id);
      assert snapshots == snapshots[..|snapshots| - 1] + [last];
      if IsSnapshotOf(last, streamType, id) && (earlier.None? || earlier.value.sequenceNumber <= last.event.sequenceNumber)
      then Some(last.event)
      else earlier
  }

  /** The sequence number below and at which events are covered by the latest snapshot. */
  function Floor(latest: Option<DomainEvent>): Option<Int64> {
    if latest.Some? then Some(latest.value.sequenceNumber) else None
  }

  /** Event `e` belongs to the stream of `id` above `floor`. */
  predicate Follows(e: DomainEvent, id: string, floor: Option<Int64>) {
    e.aggregateIdentifier == id && (floor.Some? ==> floor.value < e.sequenceNumber)
  }

  /** The events of `collection` that belong to aggregate `id` and lie above `floor`, in collection order. */
  function Filter(collection: seq<DomainEvent>, id: string, floor: Option<Int64>): (r: seq<DomainEvent>)
    ensures forall k | 0 <= k < |r| :: Follows(r[k], id, floor)
    ensures |r| <= |collection|
  {
    if collection == [] then []
    else
      var rest := Filter(collection[1..], id, floor);
      if Follows(collection[0], id, floor) then [collection[0]] + rest else rest
  }

  /**
    Filtering keeps every occurrence of each event that follows the floor for
    `id`, and drops every occurrence of the others.
   */
  lemma {:induction false} FilterCounts(collection: seq<DomainEvent>, id: string, floor: Option<Int64>)
    ensures forall x ::
              multiset(Filter(collection, id, floor))[x] == if Follows(x, id, floor) then multiset(collection)[x] else 0
  {
    if collection != [] {
      assert collection == [collection[0]] + collection[1..];
      FilterCounts(collection[1..], id, floor);
    }
  }

  /**
    The event stream of aggregate `id` of type `streamType`: the latest snapshot,
    if any, then the events of `collection` for `id` with a greater sequence
    number, ascending.
   */
  function Stream(collection: seq<DomainEvent>, snapshots: seq<SnapshotEntry>, streamType: string, id: string)
    : (r: seq<DomainEvent>)
    ensures forall k | 0 <= k < |r| :: r[k].aggregateIdentifier == id
    ensures SortedBySequence(r)
    ensures LatestSnapshot(snapshots, streamType, id).Some? ==>
      && r != []
      && r[0] == LatestSnapshot(snapshots, streamType, id).value
      && forall k | 1 <= k < |r| :: r[0].sequenceNumber < r[k].sequenceNumber
  {
    var latest := LatestSnapshot(snapshots, streamType, id);
    var tail := Sort(Filter(collection, id, Floor(latest)));
    TailFollows(collection, id, Floor(latest));
    HeadThenTail(latest, tail, id);
    if latest.Some? then [latest.value] + tail else tail
  }

  /** The latest snapshot of `id`, put before a sorted tail of `id`'s events above it, gives a sorted stream of `id`. */
  lemma HeadThenTail(latest: Option<DomainEvent>, tail: seq<DomainEvent>, id: string)
    requires latest.Some? ==> latest.value.aggregateIdentifier == id
    requires SortedBySequence(tail)
    requires forall k | 0 <= k < |tail| :: Follows(tail[k], id, Floor(latest))
    ensures var r := if latest.Some? then [latest.value] + tail else tail;
      && (forall k | 0 <= k < |r| :: r[k].aggregateIdentifier == id)
      && SortedBySequence(r)
      && (latest.Some? ==> r != [] && r[0] == latest.value && forall k | 1 <= k < |r| :: r[0].sequenceNumber < r[k].sequenceNumber)
  {
  }

  /** Every event of the sorted tail belongs to the stream above the floor. */
  lemma TailFollows(collection: seq<DomainEvent>, id: string, floor: Option<Int64>)
    ensures forall k | 0 <= k < |Sort(Filter(collection, id, floor))| ::
      Follows(Sort(Filter(collection, id, floor))[k], id, floor)
  {
    var f := Filter(collection, id, floor);
    var t := Sort(f);
    forall k | 0 <= k < |t| ensures Follows(t[k], id, floor) {
      assert t[k] in multiset(f);
    }
  }

  /**
    An event is in the stream exactly when it is the latest snapshot, or it is an
    event of `collection` for `id` above the latest snapshot's sequence number.
   */
  lemma StreamMembership(collection: seq<DomainEvent>, snapshots: seq<SnapshotEntry>, streamType: string, id: string, x: DomainEvent)
    ensures var latest := LatestSnapshot(snapshots, streamType, id);
      x in Stream(collection, snapshots, streamType, id) <==>
        latest == Some(x) || (x in collection && Follows(x, id, Floor(latest)))
  {
    var latest := LatestSnapshot(snapshots, streamType, id);
    var f := Filter(collection, id, Floor(latest));
    var t := Sort(f);
    FilterCounts(collection, id, Floor(latest));
    assert x in t <==> x in multiset(t);
    assert x in collection <==> x in multiset(collection);
    if latest.Some? {
      assert Stream(collection, snapshots, streamType, id) == [latest.value] + t;
    }
  }

  /**
    A snapshot superseded by a later snapshot of the same aggregate does not
    appear in the stream at all.
   */
  lemma SupersededSnapshotExcluded(collection: seq<DomainEvent>, snapshots: seq<SnapshotEntry>, streamType: string,
                                   older: DomainEvent, newer: DomainEvent)
    requires SnapshotEntry(streamType, older) in snapshots && SnapshotEntry(streamType, newer) in snapshots
    requires older.aggregateIdentifier == newer.aggregateIdentifier
    requires older.sequenceNumber < newer.sequenceNumber
    ensures older !in Stream(collection, snapshots, streamType, older.aggregateIdentifier)
  {
    var id := older.aggregateIdentifier;
    var latest := LatestSnapshot(snapshots, streamType, id);
    var p :| 0 <= p < |snapshots| && snapshots[p] == SnapshotEntry(streamType, newer);
    assert IsSnapshotOf(snapshots[p], streamType, id);
    StreamMembership(collection, snapshots, streamType, id, older);
  }

  /**
    Order independence: the stream depends only on which events were appended,
    not on their append order or batching, as long as the aggregate's sequence
    numbers are unique.
   */
  lemma OrderIndependence(c1: seq<DomainEvent>, c2: seq<DomainEvent>, snapshots: seq<SnapshotEntry>, streamType: string, id: string)
    requires multiset(c1) == multiset(c2)
    requires UniqueFor(c1, id)
    ensures Stream(c1, snapshots, streamType, id) == Stream(c2, snapshots, streamType, id)
  {
    var floor := Floor(LatestSnapshot(snapshots, streamType, id));
    var f1, f2 := Filter(c1, id, floor), Filter(c2, id, floor);
    FilterCounts(c1, id, floor);
    FilterCounts(c2, id, floor);
    assert multiset(f1) == multiset(f2);
    assert multiset(f1) <= multiset(c1);
    SortIsAscendingArrangement(f1, id, Sort(f2)) by {
      UniqueSurvives(c1, id, f1);
    }
  }

  /**
    With no snapshot for the aggregate, reading back the events of one aggregate
    with unique sequence numbers yields them in ascending order, and nothing else.
   */
  lemma ReadBackWithoutSnapshot(collection: seq<DomainEvent>, snapshots: seq<SnapshotEntry>, streamType: string, id: string,
                                expected: seq<DomainEvent>)
    requires LatestSnapshot(snapshots, streamType, id).None?
    requires forall k | 0 <= k < |collection| :: collection[k].aggregateIdentifier == id
    requires UniqueFor(collection, id)
    requires SortedBySequence(expected) && multiset(expected) == multiset(collection)
    ensures Stream(collection, snapshots, streamType, id) == expected
  {
    var f := Filter(collection, id, None);
    FilterCounts(collection, id, None);
    assert multiset(f) == multiset(collection);
    UniqueSurvives(collection, id, f);
    SortIsAscendingArrangement(f, id, expected);
  }

  /**
    A batch of one aggregate written in ascending order of sequence numbers, with
    no snapshot for the aggregate, reads back exactly as it was written.
   */
  lemma AscendingBatchReadsBack(events: seq<DomainEvent>, snapshots: seq<SnapshotEntry>, streamType: string, id: string)
    requires LatestSnapshot(snapshots, streamType, id).None?
    requires forall k | 0 <= k < |events| :: events[k].aggregateIdentifier == id
    requires StrictlyAscending(events)
    ensures Stream(events, snapshots, streamType, id) == events
  {
    ReadBackWithoutSnapshot(events, snapshots, streamType, id, events);
  }

  /**
    With a latest snapshot, the stream is that snapshot followed by the ascending
    arrangement of the aggregate's events above it.
   */
  lemma ReadBackAfterSnapshot(collection: seq<DomainEvent>, snapshots: seq<SnapshotEntry>, streamType: string, id: string,
                              snapshot: DomainEvent, expectedTail: seq<DomainEvent>)
    requires LatestSnapshot(snapshots, streamType, id) == Some(snapshot)
    requires UniqueFor(collection, id)
    requires SortedBySequence(expectedTail)
    requires multiset(expectedTail) == multiset(Filter(collection, id, Some(snapshot.sequenceNumber)))
    ensures Stream(collection, snapshots, streamType, id) == [snapshot] + expectedTail
  {
    var f := Filter(collection, id, Some(snapshot.sequenceNumber));
    FilterCounts(collection, id, Some(snapshot.sequenceNumber));
    assert multiset(f) <= multiset(collection);
    UniqueSurvives(collection, id, f);
    SortIsAscendingArrangement(f, id, expectedTail);
  }

  /** Filtering distributes over concatenation: events appended later are filtered on their own. */
  lemma {:induction false} FilterAppend(a: seq<DomainEvent>, b: seq<DomainEvent>, id: string, floor: Option<Int64>)
    ensures Filter(a + b, id, floor) == Filter(a, id, floor) + Filter(b, id, floor)
  {
    if a == [] {
      assert a + b == b;
    } else {
      assert (a + b)[1..] == a[1..] + b;
      FilterAppend(a[1..], b, id, floor);
    }
  }

  /** Snapshots of other aggregates or types leave the latest snapshot unchanged. */
  lemma {:induction false} UnrelatedSnapshotsInvisible(snapshots: seq<SnapshotEntry>, extra: seq<SnapshotEntry>, streamType: string, id: string)
    requires forall k | 0 <= k < |extra| :: !IsSnapshotOf(extra[k], streamType, id)
    ensures LatestSnapshot(snapshots + extra, streamType, id) == LatestSnapshot(snapshots, streamType, id)
  {
    if extra != [] {
      var init := extra[..|extra| - 1];
      assert (snapshots + extra)[..|snapshots + extra| - 1] == snapshots + init;
      UnrelatedSnapshotsInvisible(snapshots, init, streamType, id);
    } else {
      assert snapshots + extra == snapshots;
    }
  }

  /**
    Isolation: appending events of other aggregates to the collection, and
    snapshots of other aggregates or types to the snapshot collection, does not
    change the stream of aggregate `id` of type `streamType`.
   */
  lemma UnrelatedAppendsInvisible(collection: seq<DomainEvent>, events: seq<DomainEvent>,
                                  snapshots: seq<SnapshotEntry>, extra: seq<SnapshotEntry>, streamType: string, id: string)
    requires forall k | 0 <= k < |events| :: events[k].aggregateIdentifier != id
    requires forall k | 0 <= k < |extra| :: !IsSnapshotOf(extra[k], streamType, id)
    ensures Stream(collection + events, snapshots + extra, streamType, id) == Stream(collection, snapshots, streamType, id)
  {
    UnrelatedSnapshotsInvisible(snapshots, extra, streamType, id);
    var floor := Floor(LatestSnapshot(snapshots, streamType, id));
    FilterAppend(collection, events, id, floor);
    FilterNoneFollow(events, id, floor);
    assert Filter(collection, id, floor) + [] == Filter(collection, id, floor);
  }

  /** A collection none of whose events follows the floor for `id` filters to nothing. */
  lemma {:induction false} FilterNoneFollow(events: seq<DomainEvent>, id: string, floor: Option<Int64>)
    requires forall k | 0 <= k < |events| :: !Follows(events[k], id, floor)
    ensures Filter(events, id, floor) == []
  {
    if events != [] {
      FilterNoneFollow(events[1..], id, floor);
    }
  }

  /** A collection all of whose events follow the floor for `id` filters to itself. */
  lemma {:induction false} FilterAllFollow(events: seq<DomainEvent>, id: string, floor: Option<Int64>)
    requires forall k | 0 <= k < |events| :: Follows(events[k], id, floor)
    ensures Filter(events, id, floor) == events
  {
    if events != [] {
      FilterAllFollow(events[1..], id, floor);
      assert events == [events[0]] + events[1..];
    }
  }

  /**
    Events of other aggregates written before the collection do not change the
    stream of aggregate `id`.
   */
  lemma UnrelatedPrefixInvisible(earlier: seq<DomainEvent>, collection: seq<DomainEvent>,
                                 snapshots: seq<SnapshotEntry>, streamType: string, id: string)
    requires forall k | 0 <= k < |earlier| :: earlier[k].aggregateIdentifier != id
    ensures Stream(earlier + collection, snapshots, streamType, id) == Stream(collection, snapshots, streamType, id)
  {
    var floor := Floor(LatestSnapshot(snapshots, streamType, id));
    FilterAppend(earlier, collection, id, floor);
    FilterNoneFollow(earlier, id, floor);
    assert [] + Filter(collection, id, floor) == Filter(collection, id, floor);
  }
}
