# OrientDB event store, modelled in Dafny

This project models the observable contract of the data-storm OrientDB event
store (`OrientEventStore`) as its test classes pin it down, together with the
test-utility helpers those tests are written with.

The store keeps one collection of event records per stream type (one OrientDB
class per aggregate type) and one snapshot collection shared by all types. A
record holds an aggregate identifier, a 64-bit sequence number, a timestamp
string and an opaque body. Every record must pass the event schema: four
mandatory, non-null fields, and a timestamp of exactly 29 characters.

- `appendEvents(type, events)` writes one record per event into the type's
  collection.
- `appendSnapshotEvent(type, event)` writes one record into the shared
  snapshot collection, tagged with the type.
- `readEvents(type, id)` returns the snapshot of `(type, id)` with the
  greatest sequence number, if there is one. It is followed by the type's
  events for `id` whose sequence number is strictly greater, in ascending order.

Files:

- `records.dfy` (module `Records`): the domain event, the document written
  for it, and the event schema with its constraints.
- `ordering.dfy` (module `Ordering`): the sort by sequence number. It also
  proves that sorted arrangements of events with unique sequence numbers are
  unique.
- `read_engine.dfy` (module `ReadEngine`): the snapshot index
  (`LatestSnapshot`), the floor filter and the stream. It also proves isolation,
  order independence and the read-back properties.
- `event_store.dfy` (module `EventStore`): the store as a class. The methods
  append to its per-type map and its snapshot sequence, and `ReadEvents` reads
  its state.
- `test_utils.dfy` (module `TestUtils`): `createSimpleDomainEvents`,
  `sortBySequenceNumber` (a copy, insertion-sorted in place in an array),
  `assertDomainEventsEquality` and `assertClusterNames`.
- `orient_event_store_test.dfy` and `snapshot_orient_event_store_test.dfy`: each
  test of the two test classes is a method. It builds a fresh store, makes the
  test's appends and reads, and proves that every assertion of the test passes,
  except the cluster-id counts listed under "Left out".

Modelling decisions:

- The clock and the body serializer are parameters. `clock(k)` is the timestamp
  of the `k`-th event a scenario creates, and `serialize` renders an event's
  value as its body. Every timestamp renders as 29 characters.
- Aggregate identifiers are kept by their string form. That makes `agId` the
  identity, so it has no member of its own.
- A rejected record stops an append at that record. The batch's earlier records
  stay stored, and the call returns `SchemaViolation` naming the rejected event.
  A batch that passes the schema is stored whole.
- Duplicate sequence numbers are broken by append order. The sort is stable,
  and among snapshots with equal numbers the last one written wins.
- A document of a type's class has exactly the four event fields and no
  `streamType` field. That is what `testEventsAppending` asserts, so the
  model follows the test and not a five-field record.

## Model

| member | source | states |
|---|---|---|
| Records.GetProperty | src/test/java/datastorm/eventstore/otientdb/OrientEventStoreTest.java:86-106 | a property found by name is in the schema and has that name; none found means no property has it |
| Records.EventSchemaLookup | src/test/java/datastorm/eventstore/otientdb/OrientEventStoreTest.java:86-110 | each of the four event fields is found in the event schema with its own declared constraints |
| Records.ToDocument | src/test/java/datastorm/eventstore/otientdb/OrientEventStoreTest.java:55-61 | an event's document has exactly the four fields aggregateIdentifier, sequenceNumber, timestamp and body, none of them null |
| Records.DocumentConformsIffSchemaValid | src/test/java/datastorm/eventstore/otientdb/OrientEventStoreTest.java:98-104 | an event's document conforms to the event schema if and only if its timestamp has exactly 29 characters |
| Records.DocumentRoundTrip | src/test/java/datastorm/eventstore/otientdb/OrientEventStoreTest.java:63-66 | every field of an event is recovered unchanged from its document |
| Records.ConformingDocumentIsEvent | src/test/java/datastorm/eventstore/otientdb/OrientEventStoreTest.java:86-110 | a document that conforms to the schema reads back as a schema-valid event whose document agrees with it on all four fields |
| Ordering.Sort | src/test/java/datastorm/eventstore/otientdb/OrientEventStoreTest.java:129-141 | the read-time sort: the result is sorted ascending by sequence number and is a permutation of the input |
| Ordering.AscendingPermutationsEqual | src/test/java/datastorm/eventstore/otientdb/OrientEventStoreTest.java:129-141 | two strictly ascending arrangements of the same events are equal |
| Ordering.UniqueSurvives | src/test/java/datastorm/eventstore/otientdb/OrientEventStoreTest.java:129-141 | events of one aggregate drawn from a collection keep its uniqueness of sequence numbers |
| Ordering.SortIsAscendingArrangement | src/test/java/datastorm/eventstore/otientdb/OrientEventStoreTest.java:129-141 | for one aggregate with unique sequence numbers, sorting gives the one ascending arrangement, whatever the input order |
| ReadEngine.LatestSnapshot | trunk/src/test/java/datastorm/eventstore/otientdb/SnapshotOrientEventStoreTest.java:62-82 | none exactly when the pair has no snapshot; otherwise a stored snapshot of the pair whose sequence number is at least every other snapshot's of that pair |
| ReadEngine.Filter | trunk/src/test/java/datastorm/eventstore/otientdb/SnapshotOrientEventStoreTest.java:57-83 | every kept event belongs to the aggregate and lies strictly above the floor |
| ReadEngine.FilterCounts | trunk/src/test/java/datastorm/eventstore/otientdb/SnapshotOrientEventStoreTest.java:57-83 | filtering keeps every occurrence of each event above the floor for the aggregate and drops every other one |
| ReadEngine.Stream | trunk/src/test/java/datastorm/eventstore/otientdb/SnapshotOrientEventStoreTest.java:76-82 | the stream holds only the aggregate's events and is sorted; a latest snapshot is its first element, and every later element has a greater sequence number |
| ReadEngine.StreamMembership | trunk/src/test/java/datastorm/eventstore/otientdb/SnapshotOrientEventStoreTest.java:57-113 | an event is in the stream if and only if it is the latest snapshot or a stored event of the aggregate strictly above that snapshot |
| ReadEngine.SupersededSnapshotExcluded | trunk/src/test/java/datastorm/eventstore/otientdb/SnapshotOrientEventStoreTest.java:62-82 | a snapshot with a smaller sequence number than another of the same pair never appears in the stream |
| ReadEngine.OrderIndependence | src/test/java/datastorm/eventstore/otientdb/OrientEventStoreTest.java:129-141 | with unique sequence numbers the stream depends only on which events were appended, not on their order or batching |
| ReadEngine.ReadBackWithoutSnapshot | src/test/java/datastorm/eventstore/otientdb/OrientEventStoreTest.java:129-141 | without a snapshot, one aggregate's events read back as exactly their ascending arrangement |
| ReadEngine.AscendingBatchReadsBack | src/test/java/datastorm/eventstore/otientdb/OrientEventStoreTest.java:116-126 | an ascending batch of one aggregate with no snapshot reads back exactly as written |
| ReadEngine.ReadBackAfterSnapshot | trunk/src/test/java/datastorm/eventstore/otientdb/SnapshotOrientEventStoreTest.java:86-113 | with a latest snapshot, the stream is that snapshot followed by the ascending arrangement of the events above it |
| ReadEngine.FilterAppend | trunk/src/test/java/datastorm/eventstore/otientdb/SnapshotOrientEventStoreTest.java:97-112 | the filter of two appended segments is the filter of each, concatenated, so events written after a snapshot are filtered like earlier ones |
| ReadEngine.UnrelatedAppendsInvisible | src/test/java/datastorm/eventstore/otientdb/OrientEventStoreTest.java:164-198 | appending other aggregates' events and other pairs' snapshots leaves an aggregate's stream unchanged |
| ReadEngine.UnrelatedPrefixInvisible | src/test/java/datastorm/eventstore/otientdb/OrientEventStoreTest.java:183-198 | other aggregates' events written earlier to the same collection leave an aggregate's stream unchanged |
| ReadEngine.FilterNoneFollow | trunk/src/test/java/datastorm/eventstore/otientdb/SnapshotOrientEventStoreTest.java:57-83 | a segment with no event of the aggregate above the floor filters to nothing |
| ReadEngine.FilterAllFollow | trunk/src/test/java/datastorm/eventstore/otientdb/SnapshotOrientEventStoreTest.java:72-82 | a segment whose events all lie above the floor for the aggregate filters to itself |
| EventStore.AcceptedPrefix | src/test/java/datastorm/eventstore/otientdb/OrientEventStoreTest.java:98-104 | the length of the batch prefix whose events all pass the schema; the event after it, if any, fails the schema |
| EventStore.AcceptedPrefixWhole | src/test/java/datastorm/eventstore/otientdb/OrientEventStoreTest.java:98-104 | a batch is stored whole if and only if every event of it passes the schema |
| EventStore.AcceptedPrefixIs | src/test/java/datastorm/eventstore/otientdb/OrientEventStoreTest.java:98-104 | the accepted prefix is the one length whose events pass and that ends at a rejected event or at the end of the batch |
| EventStore.CheckRecord | src/test/java/datastorm/eventstore/otientdb/OrientEventStoreTest.java:86-110 | the schema check accepts a record if and only if its timestamp has 29 characters |
| EventStore.ReadEventsValid | src/test/java/datastorm/eventstore/otientdb/OrientEventStoreTest.java:86-110 | a stream read from schema-valid collections holds only schema-valid records |
| EventStore.OrientEventStore.constructor | src/test/java/datastorm/eventstore/otientdb/OrientEventStoreTest.java:33-36 | a new store has no type collection and no snapshot |
| EventStore.OrientEventStore.BrowseClass | src/test/java/datastorm/eventstore/otientdb/OrientEventStoreTest.java:51-68 | one document per stored record, in write order, each with exactly the four event fields and reading back as that record |
| EventStore.OrientEventStore.BrowseSnapshots | trunk/src/test/java/datastorm/eventstore/otientdb/SnapshotOrientEventStoreTest.java:45-48 | one document per snapshot, in write order, tagged with its type and reading back as that snapshot |
| EventStore.OrientEventStore.SchemaClass | src/test/java/datastorm/eventstore/otientdb/OrientEventStoreTest.java:81-110 | a type has a schema class if and only if its collection was provisioned; the class is named after the type and accepts an event's document exactly when its timestamp has 29 characters |
| EventStore.OrientEventStore.EnsureCollection | src/test/java/datastorm/eventstore/otientdb/OrientEventStoreTest.java:76-84 | provisions an empty collection for a new type and leaves an existing one unchanged |
| EventStore.OrientEventStore.AppendEvents | src/test/java/datastorm/eventstore/otientdb/OrientEventStoreTest.java:45-68 | the type's collection grows by the accepted prefix of the batch; the outcome names the first rejected event; snapshots and every other type's streams are unchanged |
| EventStore.OrientEventStore.StoreUntilRejected | src/test/java/datastorm/eventstore/otientdb/OrientEventStoreTest.java:45-68 | writes the batch one record at a time until the schema rejects one, storing exactly the accepted prefix |
| EventStore.OrientEventStore.AppendSnapshotEvent | trunk/src/test/java/datastorm/eventstore/otientdb/SnapshotOrientEventStoreTest.java:42-54 | a valid snapshot is appended to the shared snapshot collection, tagged with its type; no type collection changes, and neither does any other pair's stream |
| EventStore.OrientEventStore.ReadEvents | src/test/java/datastorm/eventstore/otientdb/OrientEventStoreTest.java:123-125 | the stream holds only schema-valid records, and is empty for an aggregate with neither events nor snapshots |
| TestUtils.CreateSimpleDomainEvents | trunk/src/test/java/datastorm/eventstore/otientdb/OrientEventStoreTestUtils.java:31-43 | fails with IllegalArgumentException exactly when the lengths differ; otherwise element i carries sequenceNumbers[i], ids[i] and the value "val" + i + "-" + ids[i] |
| TestUtils.SortBySequenceNumber | trunk/src/test/java/datastorm/eventstore/otientdb/OrientEventStoreTestUtils.java:78-87 | returns a copy sorted ascending by sequence number that is a permutation of the input |
| TestUtils.SinkLast | trunk/src/test/java/datastorm/eventstore/otientdb/OrientEventStoreTestUtils.java:80-85 | one insertion step extends the sorted prefix of the array by one, permuting only that prefix and leaving the rest of the array unchanged |
| TestUtils.AssertDomainEventsEquality | trunk/src/test/java/datastorm/eventstore/otientdb/OrientEventStoreTestUtils.java:61-69 | passes if and only if the stream yields exactly the listed events in order and nothing more; each failure names the position and reason |
| TestUtils.ClusterNamesSound | trunk/src/test/java/datastorm/eventstore/otientdb/OrientEventStoreTestUtils.java:105-112 | with distinct names and no cluster removed, a passing check means the clusters afterwards are exactly the earlier ones plus the new names |
| TestUtils.ClusterNamesComplete | trunk/src/test/java/datastorm/eventstore/otientdb/OrientEventStoreTestUtils.java:105-112 | clusters that are the earlier ones plus distinct new names pass the check |
| OrientEventStoreTest.EventsAppending | src/test/java/datastorm/eventstore/otientdb/OrientEventStoreTest.java:44-69 | one appended event yields one document with exactly the four fields, id "1", sequence number 1 and the event's timestamp |
| OrientEventStoreTest.EventSchemaOfType | src/test/java/datastorm/eventstore/otientdb/OrientEventStoreTest.java:71-110 | after the first append class "Doc" holds the document and is named "Doc"; it declares the four mandatory non-null properties, with the timestamp bounded to min = max = 29 |
| OrientEventStoreTest.BasicEventsStoring | src/test/java/datastorm/eventstore/otientdb/OrientEventStoreTest.java:115-126 | events 1 and 2 of id "1" read back exactly, in order |
| OrientEventStoreTest.EventsSorting | src/test/java/datastorm/eventstore/otientdb/OrientEventStoreTest.java:128-141 | events appended as 3,1,5,9,2,4,6,8,7 read back as their sorted copy, 1 to 9 |
| OrientEventStoreTest.EventsFromDifferentTypesWithSameId | src/test/java/datastorm/eventstore/otientdb/OrientEventStoreTest.java:143-161 | id "1" under "DocOne" and under "DocTwo" each reads back only its own type's batch |
| OrientEventStoreTest.EventsFromDifferentTypesWithDiffId | src/test/java/datastorm/eventstore/otientdb/OrientEventStoreTest.java:163-180 | ids "1" under "DocOne" and "2" under "DocTwo" each read back only their own batch |
| OrientEventStoreTest.EventsWithDiffId | src/test/java/datastorm/eventstore/otientdb/OrientEventStoreTest.java:182-198 | ids "1" and "2" sharing type "Doc" each read back only their own batch |
| SnapshotOrientEventStoreTest.SnapshotEventSchema | trunk/src/test/java/datastorm/eventstore/otientdb/SnapshotOrientEventStoreTest.java:41-54 | a snapshot becomes one document of the shared snapshot class, tagged "Simple" and conforming to the event schema; the type's collection stays empty |
| SnapshotOrientEventStoreTest.LaterNumberedSnapshotWins | trunk/src/test/java/datastorm/eventstore/otientdb/SnapshotOrientEventStoreTest.java:62-70 | of snapshots 3 and 6 of one aggregate, snapshot 6 is the latest |
| SnapshotOrientEventStoreTest.StoringWithSnapshotStream | trunk/src/test/java/datastorm/eventstore/otientdb/SnapshotOrientEventStoreTest.java:57-83 | events 1,2 / snapshot 3 / 4,5 / snapshot 6 / 7,8 give the stream snapshot 6, 7, 8 |
| SnapshotOrientEventStoreTest.SortingWithSnapshotStream | trunk/src/test/java/datastorm/eventstore/otientdb/SnapshotOrientEventStoreTest.java:86-113 | events 1,8 / snapshot 3 / 4,7 / snapshot 6 / 5,2 give snapshot 6, then 7, then 8 |
| SnapshotOrientEventStoreTest.StoringWithSnapshot | trunk/src/test/java/datastorm/eventstore/otientdb/SnapshotOrientEventStoreTest.java:56-83 | every assertion of the storing-with-snapshot test passes |
| SnapshotOrientEventStoreTest.SortingWithSnapshot | trunk/src/test/java/datastorm/eventstore/otientdb/SnapshotOrientEventStoreTest.java:85-113 | every assertion of the sorting-with-snapshot test passes |

## Left out

- Creating and deleting the in-memory OrientDB database, and handing it to the store, are storage-engine I/O. A new store object stands for a fresh database.
- Cluster ids: the `getClusterIds().length == 1` assertions and `assertClassHasClusterIds` query database metadata that the model does not have.
- `AbstractEventStoreBenchmark` is concurrency and wall-clock timing. `StubDomainEvent` is a framework event's `toString`. Neither is modelled.
- Concurrency: concurrent appends and the at-most-once creation of a type's collection under racing writers are not modelled. The store is sequential.
- The Joda timestamp's text format and the serialisation of event bodies are parameters, a clock and a serializer. Only the timestamp's length of 29 is constrained.
- `agId` has no member, because aggregate identifiers are modelled by their string form.
- `assertSnapshotEventSchema`, which checks the snapshot class's own schema, is not modelled. The snapshot class's discriminator field is therefore not modelled either, and a snapshot record is checked against the event schema only.
- A missing or null aggregate identifier, sequence number, timestamp or body is not modelled: every field of a domain event is always present, so the mandatory and not-null constraints of the schema can never reject an append, and the only schema violation the model reaches is a timestamp whose length is not 29.
- Field types beyond STRING, LONG and BINARY, and OrientDB's non-schema document fields, are not modelled.
- Whole-batch atomicity of `appendEvents` is not modelled. Records are written one at a time, and a rejected record stops the batch.
- TestUtils.SortBySequenceNumber: the contract states sortedness and permutation only. Stability is not stated, although the insertion step never moves an event past one with an equal sequence number.
