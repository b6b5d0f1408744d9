/**
  The OrientDB event store as an in-memory, sequential object: one collection of
  event records per stream type (the type registry's classes) and one shared
  collection of snapshot records.
 */
module EventStore {
  import opened Records
  import opened Ordering
  import opened ReadEngine

  /** The result of an append: stored, or rejected by the schema at the named event. */
  datatype Outcome = Stored | SchemaViolation(rejected: DomainEvent)

  /** Events `events` of the batch that precede the first one the schema rejects. */
  function AcceptedPrefix(events: seq<DomainEvent>): (n: nat)
    ensures n <= |events|
    ensures forall k | 0 <= k < n :: SchemaValid(events[k])
    ensures n < |events| ==> !SchemaValid(events[n])
  {
    if events == [] || !SchemaValid(events[0]) then 0
    else 1 + AcceptedPrefix(events[1..])
  }

  /** A batch is stored whole exactly when every event of it conforms to the schema. */
  lemma {:induction false} AcceptedPrefixWhole(events: seq<DomainEvent>)
    ensures AcceptedPrefix(events) == |events| <==> AllSchemaValid(events)
  {
  }

  /**
    The accepted prefix is the one length whose events all conform and that is
    followed by a rejected event or by the end of the batch.
   */
  lemma {:induction false} AcceptedPrefixIs(events: seq<DomainEvent>, n: nat)
    requires n <= |events|
    requires forall k | 0 <= k < n :: SchemaValid(events[k])
    requires n < |events| ==> !SchemaValid(events[n])
    ensures AcceptedPrefix(events) == n
  {
  }

  /**
    The check the database applies to the document of `e` before saving it:
    whether it conforms to the event schema.
   */
  method CheckRecord(e: DomainEvent) returns (accepted: bool)
    ensures accepted <==> SchemaValid(e)
  {
    DocumentConformsIffSchemaValid(e);
    accepted := Conforms(ToDocument(e), EventSchema);
  }

  /** Every event of `s` conforms to the event schema. */
  predicate AllSchemaValid(s: seq<DomainEvent>) {
    forall k | 0 <= k < |s| :: SchemaValid(s[k])
  }

  /** No event of `events` belongs to aggregate `id`. */
  predicate NoneFor(events: seq<DomainEvent>, id: string) {
    forall k | 0 <= k < |events| :: events[k].aggregateIdentifier != id
  }

  class OrientEventStore {
    /** The event collection of each stream type provisioned so far. */
    var collections: map<string, seq<DomainEvent>>
    /** The shared snapshot collection, in write order. */
    var snapshots: seq<SnapshotEntry>

    /** Every record the store holds passed the schema check. */
    ghost predicate Valid()
      reads this
    {
      && (forall t | t in collections :: AllSchemaValid(collections[t]))
      && (forall k | 0 <= k < |snapshots| :: SchemaValid(snapshots[k].event))
    }

    constructor ()
      ensures Valid()
      ensures collections == map[] && snapshots == []
    {
      collections := map[];
      snapshots := [];
    }

    /** The records of type `streamType`; a type never written to has none. */
    function Collection(streamType: string): (c: seq<DomainEvent>)
      reads this
      ensures streamType !in collections ==> c == []
      ensures streamType in collections ==> c == collections[streamType]
    {
      if streamType in collections then collections[streamType] else []
    }

    /** The documents of class `streamType`, in the order they were written. */
    function BrowseClass(streamType: string): (docs: seq<Document>)
      reads this
      ensures |docs| == |Collection(streamType)|
      ensures forall k | 0 <= k < |docs| :: docs[k].Keys == EventFieldNames
      ensures forall k | 0 <= k < |docs| :: FromDocument(docs[k]) == Some(Collection(streamType)[k])
    {
      var c := Collection(streamType);
      seq(|c|, k requires 0 <= k < |c| => DocumentRoundTrip(c[k]); ToDocument(c[k]))
    }

    /**
      The event fields of the documents of the shared snapshot class, in the
      order they were written, each tagged with the stream type it belongs to.
     */
    function BrowseSnapshots(): (docs: seq<(string, Document)>)
      reads this
      ensures |docs| == |snapshots|
      ensures forall k | 0 <= k < |docs| ::
        docs[k].0 == snapshots[k].streamType && FromDocument(docs[k].1) == Some(snapshots[k].event)
    {
      seq(|snapshots|, k requires 0 <= k < |snapshots| reads this =>
        DocumentRoundTrip(snapshots[k].event);
        (snapshots[k].streamType, ToDocument(snapshots[k].event)))
    }

    /**
      The schema class of the documents of `streamType`, once the class has been
      provisioned: it is named after the type, and it accepts exactly the
      documents of events whose timestamp has 29 characters.
     */
    function SchemaClass(streamType: string): (r: Option<ClassSchema>)
      reads this
      ensures r.Some? <==> streamType in collections
      ensures r.Some? ==> r.value.name == streamType
      ensures r.Some? ==> forall e :: Conforms(ToDocument(e), r.value.properties) <==> SchemaValid(e)
    {
      if streamType in collections then
        forall e ensures Conforms(ToDocument(e), EventSchema) <==> SchemaValid(e) {
          DocumentConformsIffSchemaValid(e);
        }
        Some(ClassSchema(streamType, EventSchema))
      else None
    }

    /** Provisions the collection of `streamType` if it is absent; idempotent. */
    method EnsureCollection(streamType: string)
      requires Valid()
      modifies this
      ensures Valid()
      ensures collections == if streamType in old(collections) then old(collections) else old(collections)[streamType := []]
      ensures snapshots == old(snapshots)
    {
      if streamType !in collections {
        collections := collections[streamType := []];
      }
    }

    /**
      Appends `events` to the collection of `streamType`, one record at a time.
      The first event whose document the schema rejects stops the batch: the
      events before it stay stored, it and the events after it are not stored.
     */
    method AppendEvents(streamType: string, events: seq<DomainEvent>) returns (outcome: Outcome)
      requires Valid()
      modifies this
      ensures Valid()
      ensures var n := AcceptedPrefix(events);
        && collections == old(collections)[streamType := old(Collection(streamType)) + events[..n]]
        && outcome == if n == |events| then Stored else SchemaViolation(events[n])
      ensures AllSchemaValid(events) ==> collections == old(collections)[streamType := old(Collection(streamType)) + events]
      ensures snapshots == old(snapshots)
      ensures forall t, id | t != streamType :: ReadEvents(t, id) == old(ReadEvents(t, id))
    {
      EnsureCollection(streamType);
      ghost var before := collections[streamType];
      assert before == old(Collection(streamType));
      var n := StoreUntilRejected(streamType, events);
      outcome := if n == |events| then Stored else SchemaViolation(events[n]);
      AcceptedPrefixWhole(events);
      assert AllSchemaValid(events) ==> events[..n] == events;
      assert collections == old(collections)[streamType := before + events[..n]];
    }

    /**
      Writes the events of `events` into the existing collection of `streamType`
      one by one, checking each document against the schema first, and stops at
      the first one the schema rejects; `n` events were written.
     */
    method StoreUntilRejected(streamType: string, events: seq<DomainEvent>) returns (n: nat)
      requires Valid() && streamType in collections
      modifies this
      ensures Valid()
      ensures n == AcceptedPrefix(events)
      ensures collections == old(collections)[streamType := old(collections[streamType]) + events[..n]]
      ensures snapshots == old(snapshots)
    {
      ghost var before := collections[streamType];
      assert before + events[..0] == before;
      n := 0;
      while n < |events|
        invariant 0 <= n <= |events|
        invariant forall k | 0 <= k < n :: SchemaValid(events[k])
        invariant collections == old(collections)[streamType := before + events[..n]]
        invariant snapshots == old(snapshots)
      {
        var accepted := CheckRecord(events[n]);
        if !accepted {
          AcceptedPrefixIs(events, n);
          break;
        }
        assert collections[streamType] + [events[n]] == before + events[..n + 1] by {
          assert events[..n + 1] == events[..n] + [events[n]];
        }
        collections := collections[streamType := collections[streamType] + [events[n]]];
        n := n + 1;
      }
      if n == |events| {
        AcceptedPrefixIs(events, n);
      }
      assert AllSchemaValid(before + events[..n]);
    }

    /**
      Stores `event` as a snapshot of `streamType` in the shared snapshot
      collection; the type's own event collection is not touched.
     */
    method AppendSnapshotEvent(streamType: string, event: DomainEvent) returns (outcome: Outcome)
      requires Valid()
      modifies this
      ensures Valid()
      ensures outcome == if SchemaValid(event) then Stored else SchemaViolation(event)
      ensures snapshots == old(snapshots) + (if outcome.Stored? then [SnapshotEntry(streamType, event)] else [])
      ensures collections == old(collections)
      ensures forall t, id | t != streamType || id != event.aggregateIdentifier :: ReadEvents(t, id) == old(ReadEvents(t, id))
    {
      var accepted := CheckRecord(event);
      forall t, id | t != streamType || id != event.aggregateIdentifier
        ensures Stream(Collection(t), snapshots + [SnapshotEntry(streamType, event)], t, id)
             == Stream(Collection(t), snapshots, t, id)
      {
        UnrelatedAppendsInvisible(Collection(t), [], snapshots, [SnapshotEntry(streamType, event)], t, id);
        assert Collection(t) + [] == Collection(t);
      }
      if accepted {
        snapshots := snapshots + [SnapshotEntry(streamType, event)];
        outcome := Stored;
      } else {
        outcome := SchemaViolation(event);
      }
    }

    /**
      The event stream of aggregate `id` of type `streamType`. Every event in it
      passed the schema check; an aggregate with no records reads as empty, not
      as an error.
     */
    function ReadEvents(streamType: string, id: string): (r: seq<DomainEvent>)
      reads this
      ensures Valid() ==> AllSchemaValid(r)
      ensures (NoneFor(Collection(streamType), id) && LatestSnapshot(snapshots, streamType, id).None?) ==> r == []
    {
      var c := Collection(streamType);
      var r := Stream(c, snapshots, streamType, id);
      ReadEventsValid(c, snapshots, streamType, id);
      if NoneFor(c, id) && LatestSnapshot(snapshots, streamType, id).None? then
        FilterNoneFollow(c, id, None);
        r
      else r
    }
  }

  /** The stream of schema-valid records holds only schema-valid records. */
  lemma ReadEventsValid(c: seq<DomainEvent>, snapshots: seq<SnapshotEntry>, streamType: string, id: string)
    ensures AllSchemaValid(c) && (forall k | 0 <= k < |snapshots| :: SchemaValid(snapshots[k].event)) ==>
      AllSchemaValid(Stream(c, snapshots, streamType, id))
  {
    if AllSchemaValid(c) && (forall k | 0 <= k < |snapshots| :: SchemaValid(snapshots[k].event)) {
      var r := Stream(c, snapshots, streamType, id);
      forall k | 0 <= k < |r| ensures SchemaValid(r[k]) {
        StreamMembership(c, snapshots, streamType, id, r[k]);
        var latest := LatestSnapshot(snapshots, streamType, id);
        if latest == Some(r[k]) {
          var p :| 0 <= p < |snapshots| && snapshots[p] == SnapshotEntry(streamType, r[k]);
        }
      }
    }
  }
}
