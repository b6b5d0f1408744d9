/**
  The scenarios of the snapshot test class: a snapshot goes to the shared
  snapshot class, the latest snapshot heads the stream, and only the events
  above it follow, ascending.

  As in the event store's own test class, `clock(k)` is the timestamp of the
  `k`-th event the scenario creates (batches and snapshots alike) and
  `serialize` renders an event's value as its body.
 */
module SnapshotOrientEventStoreTest {
  import opened Records
  import opened Ordering
  import opened ReadEngine
  import opened EventStore
  import opened TestUtils
  import opened OrientEventStoreTest

  /**
    A snapshot is written to the shared snapshot class as one document of the
    event schema, tagged with its type; the type's own collection stays empty.
   */
  method SnapshotEventSchema(clock: nat -> string, serialize: string -> seq<Byte>)
    returns (docs: seq<(string, Document)>, typeRecords: seq<DomainEvent>)
    requires forall i: nat :: |clock(i)| == TimestampLength
    ensures |docs| == 1
    ensures docs[0].0 == "Simple"
    ensures docs[0].1.Keys == EventFieldNames && Conforms(docs[0].1, EventSchema)
    ensures typeRecords == []
  {
    var snapshot := NewSimpleDomainEvent(1, "1", "val", clock(0), serialize);
    var store := new OrientEventStore();
    var outcome := store.AppendSnapshotEvent("Simple", snapshot);
    docs := store.BrowseSnapshots();
    typeRecords := store.Collection("Simple");
    DocumentConformsIffSchemaValid(snapshot);
    assert FromDocument(docs[0].1) == Some(snapshot);
    assert docs[0].1 == ToDocument(snapshot);
  }

  /**
    A fresh store after the append sequence of both snapshot scenarios: batch
    `first`, a snapshot `early`, batch `second`, a snapshot `late`, batch
    `third`, all under `streamType`.
   */
  method StoreWithSnapshots(streamType: string, first: seq<DomainEvent>, early: DomainEvent,
                            second: seq<DomainEvent>, late: DomainEvent, third: seq<DomainEvent>)
    returns (store: OrientEventStore)
    requires AllSchemaValid(first) && AllSchemaValid(second) && AllSchemaValid(third)
    requires SchemaValid(early) && SchemaValid(late)
    ensures fresh(store) && store.Valid()
    ensures store.Collection(streamType) == first + second + third
    ensures store.snapshots == [SnapshotEntry(streamType, early), SnapshotEntry(streamType, late)]
  {
    store := new OrientEventStore();
    var outcome := store.AppendEvents(streamType, first);
    assert store.Collection(streamType) == first && store.snapshots == [];
    outcome := store.AppendSnapshotEvent(streamType, early);
    assert store.Collection(streamType) == first;
    outcome := store.AppendEvents(streamType, second);
    assert store.Collection(streamType) == first + second;
    assert store.snapshots == [SnapshotEntry(streamType, early)];
    outcome := store.AppendSnapshotEvent(streamType, late);
    assert store.Collection(streamType) == first + second;
    outcome := store.AppendEvents(streamType, third);
  }

  /** Of two snapshots of one aggregate, the one with the greater sequence number is the latest. */
  lemma LaterNumberedSnapshotWins(streamType: string, early: DomainEvent, late: DomainEvent)
    requires early.aggregateIdentifier == late.aggregateIdentifier
    requires early.sequenceNumber < late.sequenceNumber
    ensures LatestSnapshot([SnapshotEntry(streamType, early), SnapshotEntry(streamType, late)],
                           streamType, late.aggregateIdentifier) == Some(late)
  {
  }

  /** Three batches of two events whose six sequence numbers differ pairwise have unique sequence numbers. */
  lemma ThreeBatchesUnique(first: seq<DomainEvent>, second: seq<DomainEvent>, third: seq<DomainEvent>, numbers: seq<Int32>)
    requires |first| == 2 && |second| == 2 && |third| == 2 && |numbers| == 6
    requires first[0].sequenceNumber == numbers[0] && first[1].sequenceNumber == numbers[1]
    requires second[0].sequenceNumber == numbers[2] && second[1].sequenceNumber == numbers[3]
    requires third[0].sequenceNumber == numbers[4] && third[1].sequenceNumber == numbers[5]
    requires forall i, j | 0 <= i < j < 6 :: numbers[i] != numbers[j]
    ensures UniqueFor(first + second + third, "1")
  {
  }

  /** Filtering a batch of two keeps each of its events that follows the floor, in batch order. */
  lemma {:induction false} FilterPair(pair: seq<DomainEvent>, id: string, floor: Option<Int64>)
    requires |pair| == 2
    ensures Filter(pair, id, floor) ==
      (if Follows(pair[0], id, floor) then [pair[0]] else []) + (if Follows(pair[1], id, floor) then [pair[1]] else [])
  {
  }

  /** Three batches of two filter batch by batch. */
  lemma FilterThreePairs(first: seq<DomainEvent>, second: seq<DomainEvent>, third: seq<DomainEvent>,
                         id: string, floor: Option<Int64>)
    requires |first| == 2 && |second| == 2 && |third| == 2
    ensures Filter(first + second + third, id, floor) ==
      Filter(first, id, floor) + Filter(second, id, floor) + Filter(third, id, floor)
  {
    FilterAppend(first + second, third, id, floor);
    FilterAppend(first, second, id, floor);
  }

  /** The floor of snapshot 6 filters the storing scenario's events down to the third batch. */
  lemma StoringWithSnapshotTail(first: seq<DomainEvent>, second: seq<DomainEvent>, third: seq<DomainEvent>, floor: Int64)
    requires floor == 6
    requires |first| == 2 && |second| == 2 && |third| == 2
    requires forall k | 0 <= k < 2 ::
      first[k].aggregateIdentifier == "1" && second[k].aggregateIdentifier == "1" && third[k].aggregateIdentifier == "1"
    requires first[0].sequenceNumber == 1 && first[1].sequenceNumber == 2
    requires second[0].sequenceNumber == 4 && second[1].sequenceNumber == 5
    requires third[0].sequenceNumber == 7 && third[1].sequenceNumber == 8
    ensures Filter(first + second + third, "1", Some(floor)) == third
  {
    FilterThreePairs(first, second, third, "1", Some(floor));
    FilterPair(first, "1", Some(floor));
    FilterPair(second, "1", Some(floor));
    FilterPair(third, "1", Some(floor));
    assert third == [third[0], third[1]];
  }

  /**
    The stream of the storing scenario: events 1, 2, 4 and 5 lie at or below
    snapshot 6, so the stream is snapshot 6 and then events 7 and 8.
   */
  lemma StoringWithSnapshotStream(streamType: string, first: seq<DomainEvent>, early: DomainEvent,
                                  second: seq<DomainEvent>, late: DomainEvent, third: seq<DomainEvent>)
    requires |first| == 2 && |second| == 2 && |third| == 2
    requires forall k | 0 <= k < 2 ::
      first[k].aggregateIdentifier == "1" && second[k].aggregateIdentifier == "1" && third[k].aggregateIdentifier == "1"
    requires first[0].sequenceNumber == 1 && first[1].sequenceNumber == 2
    requires second[0].sequenceNumber == 4 && second[1].sequenceNumber == 5
    requires third[0].sequenceNumber == 7 && third[1].sequenceNumber == 8
    requires early == DomainEvent("1", 3, early.timestamp, early.body)
    requires late == DomainEvent("1", 6, late.timestamp, late.body)
    ensures Stream(first + second + third,
                   [SnapshotEntry(streamType, early), SnapshotEntry(streamType, late)], streamType, "1")
            == [late] + third
  {
    LaterNumberedSnapshotWins(streamType, early, late);
    StoringWithSnapshotTail(first, second, third, late.sequenceNumber);
    ThreeBatchesUnique(first, second, third, [1, 2, 4, 5, 7, 8]);
    assert SortedBySequence(third);
    ReadBackAfterSnapshot(first + second + third, [SnapshotEntry(streamType, early), SnapshotEntry(streamType, late)],
                          streamType, "1", late, third);
  }

  /**
    The floor of snapshot 6 filters the sorting scenario's events down to 8 and
    7, in append order.
   */
  lemma SortingWithSnapshotTail(first: seq<DomainEvent>, second: seq<DomainEvent>, third: seq<DomainEvent>, floor: Int64)
    requires floor == 6
    requires |first| == 2 && |second| == 2 && |third| == 2
    requires forall k | 0 <= k < 2 ::
      first[k].aggregateIdentifier == "1" && second[k].aggregateIdentifier == "1" && third[k].aggregateIdentifier == "1"
    requires first[0].sequenceNumber == 1 && first[1].sequenceNumber == 8
    requires second[0].sequenceNumber == 4 && second[1].sequenceNumber == 7
    requires third[0].sequenceNumber == 5 && third[1].sequenceNumber == 2
    ensures Filter(first + second + third, "1", Some(floor)) == [first[1], second[1]]
  {
    FilterThreePairs(first, second, third, "1", Some(floor));
    FilterPair(first, "1", Some(floor));
    FilterPair(second, "1", Some(floor));
    FilterPair(third, "1", Some(floor));
  }

  /**
    The stream of the sorting scenario: only events 8 and 7 lie above snapshot
    6, whatever their append order relative to it, and they follow it ascending.
   */
  lemma SortingWithSnapshotStream(streamType: string, first: seq<DomainEvent>, early: DomainEvent,
                                  second: seq<DomainEvent>, late: DomainEvent, third: seq<DomainEvent>)
    requires |first| == 2 && |second| == 2 && |third| == 2
    requires forall k | 0 <= k < 2 ::
      first[k].aggregateIdentifier == "1" && second[k].aggregateIdentifier == "1" && third[k].aggregateIdentifier == "1"
    requires first[0].sequenceNumber == 1 && first[1].sequenceNumber == 8
    requires second[0].sequenceNumber == 4 && second[1].sequenceNumber == 7
    requires third[0].sequenceNumber == 5 && third[1].sequenceNumber == 2
    requires early == DomainEvent("1", 3, early.timestamp, early.body)
    requires late == DomainEvent("1", 6, late.timestamp, late.body)
    ensures Stream(first + second + third,
                   [SnapshotEntry(streamType, early), SnapshotEntry(streamType, late)], streamType, "1")
            == [late, second[1], first[1]]
  {
    LaterNumberedSnapshotWins(streamType, early, late);
    SortingWithSnapshotTail(first, second, third, late.sequenceNumber);
    ThreeBatchesUnique(first, second, third, [1, 8, 4, 7, 5, 2]);
    var tail := [second[1], first[1]];
    assert SortedBySequence(tail);
    assert multiset(tail) == multiset([first[1], second[1]]);
    ReadBackAfterSnapshot(first + second + third, [SnapshotEntry(streamType, early), SnapshotEntry(streamType, late)],
                          streamType, "1", late, tail);
  }

  /** Snapshot 6 supersedes snapshot 3 and the events up to it: the stream is snapshot 6, 7, 8. */
  method StoringWithSnapshot(clock: nat -> string, serialize: string -> seq<Byte>) returns (v: Verdict)
    requires forall i: nat :: |clock(i)| == TimestampLength
    ensures v == Pass
  {
    var firstDomainEvents := CreateBatch([1, 2], "1", clock, serialize);
    var early := NewSimpleDomainEvent(3, "1", "val", clock(2), serialize);
    var secondDomainEvents := CreateBatch([4, 5], "1", Later(clock, 3), serialize);
    var snapshotEvent := NewSimpleDomainEvent(6, "1", "val", clock(5), serialize);
    var thirdDomainEvents := CreateBatch([7, 8], "1", Later(clock, 6), serialize);
    StoringWithSnapshotStream("Aggregatte", firstDomainEvents, early, secondDomainEvents, snapshotEvent, thirdDomainEvents);

    var store := StoreWithSnapshots("Aggregatte", firstDomainEvents, early, secondDomainEvents, snapshotEvent,
                                    thirdDomainEvents);
    var resultEvents := [snapshotEvent] + thirdDomainEvents;
    v := ReadAndCompare(store, "Aggregatte", "1", resultEvents);
  }

  /**
    Events 5 and 2, appended after snapshot 6, are still below it; 8, appended
    before 7, still follows it: the stream is snapshot 6, 7, 8.
   */
  method SortingWithSnapshot(clock: nat -> string, serialize: string -> seq<Byte>) returns (v: Verdict)
    requires forall i: nat :: |clock(i)| == TimestampLength
    ensures v == Pass
  {
    var firstDomainEvents := CreateBatch([1, 8], "1", clock, serialize);
    var early := NewSimpleDomainEvent(3, "1", "val", clock(2), serialize);
    var secondDomainEvents := CreateBatch([4, 7], "1", Later(clock, 3), serialize);
    var snapshotEvent := NewSimpleDomainEvent(6, "1", "val", clock(5), serialize);
    var thirdDomainEvents := CreateBatch([5, 2], "1", Later(clock, 6), serialize);
    SortingWithSnapshotStream("Aggregatte", firstDomainEvents, early, secondDomainEvents, snapshotEvent, thirdDomainEvents);

    var store := StoreWithSnapshots("Aggregatte", firstDomainEvents, early, secondDomainEvents, snapshotEvent,
                                    thirdDomainEvents);
    var resultEvents := [snapshotEvent, secondDomainEvents[1], firstDomainEvents[1]];
    v := ReadAndCompare(store, "Aggregatte", "1", resultEvents);
  }
}
