/**
  The record model of the OrientDB event store: the domain event the framework
  hands to the store, the document the store writes for it, and the schema that
  a per-type event class enforces on those documents.
 */
module Records {

  /** Java's `int` and `long`. */
  type Int32 = x: int | -0x8000_0000 <= x < 0x8000_0000
  type Int64 = x: int | -0x8000_0000_0000_0000 <= x < 0x8000_0000_0000_0000

  /** One byte of an opaque, already serialized event body. */
  type Byte = x: int | 0 <= x < 0x100

  datatype Option<T> = None | Some(value: T)

  /**
    A domain event as the store sees it. The aggregate identifier is kept by its
    string form, the timestamp by its string form, and the body is whatever the
    external serializer produced for the event.
   */
  datatype DomainEvent = DomainEvent(
    aggregateIdentifier: string,
    sequenceNumber: Int64,
    timestamp: string,
    body: seq<Byte>)

  const AggregateIdentifierField := "aggregateIdentifier"
  const SequenceNumberField := "sequenceNumber"
  const TimestampField := "timestamp"
  const BodyField := "body"

  /** Every stored timestamp has exactly this many characters. */
  const TimestampLength := 29

  /** The field names of an event document, and nothing else. */
  const EventFieldNames: set<string> :=
    {AggregateIdentifierField, SequenceNumberField, TimestampField, BodyField}

  /** The OrientDB property types the event schema uses. */
  datatype FieldType = STRING | LONG | BINARY

  /** The value of one document field; `Null` is a field that is present but null. */
  datatype FieldValue =
    | Null
    | StringValue(s: string)
    | LongValue(n: Int64)
    | BinaryValue(bytes: seq<Byte>)

  /** A stored record: field name to field value. */
  type Document = map<string, FieldValue>

  /** One property of a schema class, with its constraints. */
  datatype Property = Property(
    name: string,
    fieldType: FieldType,
    mandatory: bool,
    notNull: bool,
    min: Option<int>,
    max: Option<int>)

  /** A schema class: its name and its declared properties. */
  datatype ClassSchema = ClassSchema(name: string, properties: seq<Property>)

  /** The schema of every per-type event class. */
  const EventSchema: seq<Property> := [
    Property(AggregateIdentifierField, STRING, true, true, None, None),
    Property(SequenceNumberField, LONG, true, true, None, None),
    Property(TimestampField, STRING, true, true, Some(TimestampLength), Some(TimestampLength)),
    Property(BodyField, BINARY, true, true, None, None)
  ]

  predicate HasType(v: FieldValue, t: FieldType) {
    match t
    case STRING => v.StringValue?
    case LONG => v.LongValue?
    case BINARY => v.BinaryValue?
  }

  /** What a min/max constraint bounds: the length of a string or binary, the value of a number. */
  function Measure(v: FieldValue): int {
    match v
    case Null => 0
    case StringValue(s) => |s|
    case LongValue(n) => n
    case BinaryValue(b) => |b|
  }

  /** Document `d` meets property `p`: present if mandatory, non-null if so declared, typed and within bounds. */
  predicate SatisfiesProperty(d: Document, p: Property) {
    && (p.mandatory ==> p.name in d)
    && (p.name in d && p.notNull ==> d[p.name] != Null)
    && (p.name in d && d[p.name] != Null ==>
          && HasType(d[p.name], p.fieldType)
          && (p.min.Some? ==> p.min.value <= Measure(d[p.name]))
          && (p.max.Some? ==> Measure(d[p.name]) <= p.max.value))
  }

  predicate Conforms(d: Document, schema: seq<Property>) {
    forall k | 0 <= k < |schema| :: SatisfiesProperty(d, schema[k])
  }

  /** Finds the property of a schema by name, as the schema class's getProperty does. */
  function GetProperty(schema: seq<Property>, name: string): (r: Option<Property>)
    ensures r.Some? ==> r.value in schema && r.value.name == name
    ensures r.None? ==> forall k | 0 <= k < |schema| :: schema[k].name != name
  {
    if schema == [] then None
    else if schema[0].name == name then Some(schema[0])
    else GetProperty(schema[1..], name)
  }

  /** Each event field is declared once in the event schema, with its own constraints. */
  lemma EventSchemaLookup()
    ensures GetProperty(EventSchema, AggregateIdentifierField) == Some(EventSchema[0])
    ensures GetProperty(EventSchema, SequenceNumberField) == Some(EventSchema[1])
    ensures GetProperty(EventSchema, TimestampField) == Some(EventSchema[2])
    ensures GetProperty(EventSchema, BodyField) == Some(EventSchema[3])
  {
  }

  /** The document the store writes for an event: exactly the four event fields. */
  function ToDocument(e: DomainEvent): (d: Document)
    ensures d.Keys == EventFieldNames && |d| == 4
    ensures forall n | n in d :: d[n] != Null
  {
    map[AggregateIdentifierField := StringValue(e.aggregateIdentifier),
        SequenceNumberField := LongValue(e.sequenceNumber),
        TimestampField := StringValue(e.timestamp),
        BodyField := BinaryValue(e.body)]
  }

  /** Reads an event back from a document; `None` when a field is missing or of the wrong kind. */
  function FromDocument(d: Document): Option<DomainEvent> {
    if && AggregateIdentifierField in d && d[AggregateIdentifierField].StringValue?
       && SequenceNumberField in d && d[SequenceNumberField].LongValue?
       && TimestampField in d && d[TimestampField].StringValue?
       && BodyField in d && d[BodyField].BinaryValue?
    then Some(DomainEvent(d[AggregateIdentifierField].s, d[SequenceNumberField].n,
                          d[TimestampField].s, d[BodyField].bytes))
    else None
  }

  /**
    An event whose document the event schema accepts. Its document always has
    the four fields, non-null and of the declared types, so the timestamp's
    length is the one constraint left to check (see DocumentConformsIffSchemaValid).
   */
  predicate SchemaValid(e: DomainEvent) {
    |e.timestamp| == TimestampLength
  }

  /** The schema rejects an event's document for one reason only: a timestamp whose length is not 29. */
  lemma DocumentConformsIffSchemaValid(e: DomainEvent)
    ensures Conforms(ToDocument(e), EventSchema) <==> SchemaValid(e)
  {
    var d := ToDocument(e);
    if |e.timestamp| == TimestampLength {
      forall k | 0 <= k < |EventSchema| ensures SatisfiesProperty(d, EventSchema[k]) {
      }
    } else {
      assert !SatisfiesProperty(d, EventSchema[2]);
    }
  }

  /** Every field of an event is recovered unchanged from its document. */
  lemma DocumentRoundTrip(e: DomainEvent)
    ensures FromDocument(ToDocument(e)) == Some(e)
  {
  }

  /**
    A document that conforms to the event schema is the document of a valid event,
    up to fields the schema does not declare.
   */
  lemma ConformingDocumentIsEvent(d: Document)
    requires Conforms(d, EventSchema)
    ensures FromDocument(d).Some?
    ensures SchemaValid(FromDocument(d).value)
    ensures forall n | n in EventFieldNames :: n in d && d[n] == ToDocument(FromDocument(d).value)[n]
  {
    assert SatisfiesProperty(d, EventSchema[0]);
    assert SatisfiesProperty(d, EventSchema[1]);
    assert SatisfiesProperty(d, EventSchema[2]);
    assert SatisfiesProperty(d, EventSchema[3]);
  }
}
