/** The event envelope and its flat name/value form on a Redis stream. */
module StreamFields {
  import opened Common

  const EVENT_ID := "eventId"
  const TOPIC := "topic"
  const PARTITION_KEY := "partitionKey"
  const OCCURRED_AT := "occurredAt"
  const PAYLOAD := "payload"
  const REQUEST_ID := "requestId"
  const TRACEPARENT := "traceparent"

  /** A flat list: name, value, name, value. */
  type Fields = seq<string>

  datatype Json =
    | JsonNull
    | JsonBool(flag: bool)
    | JsonNumber(number: real)
    | JsonText(text: string)
    | JsonArray(items: seq<Json>)
    | JsonObject(members: map<string, Json>)

  datatype Envelope = Envelope(
    eventId: string,
    topic: string,
    partitionKey: string,
    occurredAt: string,
    payload: map<string, Json>,
    requestId: Option<string>,
    traceparent: Option<string>)

  datatype Peek = Peek(eventId: Option<string>, topic: Option<string>, requestId: Option<string>)

  datatype Parsed = Parsed(envelope: Envelope) | Invalid(issues: seq<string>)

  /** The checks of the envelope schema and the JSON coding. */
  datatype Schema = Schema(
    isEventId: string -> bool,
    topics: set<string>,
    isInstant: string -> bool,
    isRequestId: string -> bool,
    isTraceparent: string -> bool,
    stringify: Json -> string,
    parseJson: string -> Option<Json>)
  {
    ghost predicate CodecIsFaithful() {
      forall j :: parseJson(stringify(j)) == Some(j)
    }

    predicate Accepts(e: Envelope) {
      && isEventId(e.eventId) && e.topic in topics && |e.partitionKey| >= 1 && isInstant(e.occurredAt)
      && (e.requestId.Some? ==> isRequestId(e.requestId.value))
      && (e.traceparent.Some? ==> isTraceparent(e.traceparent.value))
    }
  }

  function Field(name: string, value: string): Fields {
    [name, value]
  }

  function OptionalField(name: string, value: Option<string>): Fields {
    if value.Some? then Field(name, value.value) else []
  }

  function ToStreamFields(schema: Schema, e: Envelope): Fields {
    Field(EVENT_ID, e.eventId) + (Field(TOPIC, e.topic) + (Field(PARTITION_KEY, e.partitionKey)
    + (Field(OCCURRED_AT, e.occurredAt) + (Field(PAYLOAD, schema.stringify(JsonObject(e.payload)))
    + (OptionalField(REQUEST_ID, e.requestId) + OptionalField(TRACEPARENT, e.traceparent))))))
  }

  /** The pairs of a list as a map; an odd last name is ignored. */
  function FieldMap(fields: Fields): map<string, string> {
    if |fields| < 2 then map[] else map[fields[0] := fields[1]] + FieldMap(fields[2..])
  }

  lemma SetThenMerge(values: map<string, string>, fields: Fields)
    requires |fields| >= 2
    ensures values + FieldMap(fields) == values[fields[0] := fields[1]] + FieldMap(fields[2..])
  {
  }

  method ReadFieldMap(fields: Fields) returns (values: map<string, string>)
    ensures values == FieldMap(fields)
  {
    values := map[];
    var index := 0;
    while index + 1 < |fields|
      invariant 0 <= index <= |fields|
      invariant values + FieldMap(fields[index..]) == FieldMap(fields)
      decreases |fields| - index
    {
      SetThenMerge(values, fields[index..]);
      assert fields[index..][2..] == fields[index + 2..];
      values := values[fields[index] := fields[index + 1]];
      index := index + 2;
    }
  }

  /** The value of a field: the last pair of that name wins. */
  function ValueOf(fields: Fields, name: string): Option<string> {
    var values := FieldMap(fields);
    if name in values then Some(values[name]) else None
  }

  lemma {:induction false} TheLastPairWins(fields: Fields, name: string)
    ensures match ValueOf(fields, name)
            case None => forall i :: 0 <= i && 2 * i + 1 < |fields| ==> fields[2 * i] != name
            case Some(v) =>
              exists i :: 0 <= i && 2 * i + 1 < |fields| && fields[2 * i] == name && fields[2 * i + 1] == v
                          && forall j :: i < j && 2 * j + 1 < |fields| ==> fields[2 * j] != name
    decreases |fields|
  {
    if |fields| >= 2 {
      var rest := fields[2..];
      TheLastPairWins(rest, name);
      assert forall i :: 0 <= i && 2 * i + 1 < |rest| ==> rest[2 * i] == fields[2 * (i + 1)];
      assert forall i :: 1 <= i && 2 * i + 1 < |fields| ==> fields[2 * i] == rest[2 * (i - 1)];
      if ValueOf(rest, name).Some? {
        var i :| 0 <= i && 2 * i + 1 < |rest| && rest[2 * i] == name && rest[2 * i + 1] == ValueOf(rest, name).value
                 && forall j :: i < j && 2 * j + 1 < |rest| ==> rest[2 * j] != name;
        assert fields[2 * (i + 1)] == name && fields[2 * (i + 1) + 1] == rest[2 * i + 1];
        assert forall j :: i + 1 < j && 2 * j + 1 < |fields| ==> fields[2 * j] != name;
      } else if fields[0] == name {
        assert fields[2 * 0] == name;
      }
    }
  }

  function PeekEnvelope(fields: Fields): Peek {
    Peek(ValueOf(fields, EVENT_ID), ValueOf(fields, TOPIC), ValueOf(fields, REQUEST_ID))
  }

  function ValidOnly(value: Option<string>, valid: string -> bool): Option<string> {
    if value.Some? && valid(value.value) then value else None
  }

  function IssueUnless(ok: bool, path: string): seq<string> {
    if ok then [] else [path]
  }

  function FromStreamFields(schema: Schema, fields: Fields): Parsed {
    var eventId := ValueOf(fields, EVENT_ID);
    var topic := ValueOf(fields, TOPIC);
    var partitionKey := ValueOf(fields, PARTITION_KEY);
    var occurredAt := ValueOf(fields, OCCURRED_AT);
    var text := ValueOf(fields, PAYLOAD);
    var payload := if text.None? then None else schema.parseJson(text.value);
    var issues :=
      IssueUnless(eventId.Some? && schema.isEventId(eventId.value), EVENT_ID)
      + IssueUnless(topic.Some? && topic.value in schema.topics, TOPIC)
      + IssueUnless(partitionKey.Some? && |partitionKey.value| >= 1, PARTITION_KEY)
      + IssueUnless(occurredAt.Some? && schema.isInstant(occurredAt.value), OCCURRED_AT)
      + IssueUnless(payload.Some? && payload.value.JsonObject?, PAYLOAD);
    if eventId.None? || topic.None? || partitionKey.None? || occurredAt.None? || payload.None?
      || !payload.value.JsonObject? || issues != []
    then Invalid(issues)
    else Parsed(Envelope(
      eventId.value, topic.value, partitionKey.value, occurredAt.value, payload.value.members,
      ValidOnly(ValueOf(fields, REQUEST_ID), schema.isRequestId),
      ValidOnly(ValueOf(fields, TRACEPARENT), schema.isTraceparent)))
  }

  lemma IssuesListed(a: bool, b: bool, c: bool, d: bool, e: bool, path: string)
    ensures var issues := IssueUnless(a, EVENT_ID) + IssueUnless(b, TOPIC) + IssueUnless(c, PARTITION_KEY)
                          + IssueUnless(d, OCCURRED_AT) + IssueUnless(e, PAYLOAD);
            && (path in issues
                <==> || (path == EVENT_ID && !a) || (path == TOPIC && !b) || (path == PARTITION_KEY && !c)
                     || (path == OCCURRED_AT && !d) || (path == PAYLOAD && !e))
            && (issues == [] <==> a && b && c && d && e)
  {
  }

  /** The payload field holds a JSON object. */
  predicate HoldsAnObject(schema: Schema, text: Option<string>) {
    text.Some? && match schema.parseJson(text.value)
                  case Some(JsonObject(_)) => true
                  case _ => false
  }

  /** A record is unreadable exactly when one of its five required fields is, and each bad field is named. */
  lemma IssuesExactly(schema: Schema, fields: Fields, path: string)
    ensures var parsed := FromStreamFields(schema, fields);
            var id, topic, key := ValueOf(fields, EVENT_ID), ValueOf(fields, TOPIC), ValueOf(fields, PARTITION_KEY);
            var at, text := ValueOf(fields, OCCURRED_AT), ValueOf(fields, PAYLOAD);
            parsed.Invalid? && path in parsed.issues
            <==> || (path == EVENT_ID && (id.None? || !schema.isEventId(id.value)))
                 || (path == TOPIC && (topic.None? || topic.value !in schema.topics))
                 || (path == PARTITION_KEY && (key.None? || key.value == ""))
                 || (path == OCCURRED_AT && (at.None? || !schema.isInstant(at.value)))
                 || (path == PAYLOAD && !HoldsAnObject(schema, text))
  {
    var id, topic, key := ValueOf(fields, EVENT_ID), ValueOf(fields, TOPIC), ValueOf(fields, PARTITION_KEY);
    var at, text := ValueOf(fields, OCCURRED_AT), ValueOf(fields, PAYLOAD);
    IssuesListed(id.Some? && schema.isEventId(id.value), topic.Some? && topic.value in schema.topics,
      key.Some? && |key.value| >= 1, at.Some? && schema.isInstant(at.value), HoldsAnObject(schema, text), path);
  }

  // ---------- reading a written list ----------

  /** Reading a longer list: later fields win over the first one. */
  lemma ValueAfter(name: string, value: string, rest: Fields, wanted: string)
    ensures ValueOf(Field(name, value) + rest, wanted)
         == if ValueOf(rest, wanted).Some? then ValueOf(rest, wanted) else if wanted == name then Some(value) else None
  {
    assert (Field(name, value) + rest)[2..] == rest;
  }

  /** The envelope fields have seven different names. */
  lemma FieldNamesDiffer()
    ensures var names := [EVENT_ID, TOPIC, PARTITION_KEY, OCCURRED_AT, PAYLOAD, REQUEST_ID, TRACEPARENT];
            forall i, j :: 0 <= i < j < |names| ==> names[i] != names[j]
  {
    assert |EVENT_ID| == |PAYLOAD| == 7 && EVENT_ID[0] != PAYLOAD[0];
    assert |OCCURRED_AT| == 10 && |PARTITION_KEY| == 12 && |TOPIC| == 5 && |REQUEST_ID| == 9 && |TRACEPARENT| == 11;
  }

  /** Every field of a written envelope reads back as written. */
  lemma WrittenFieldsRead(schema: Schema, e: Envelope)
    ensures var f := ToStreamFields(schema, e);
            && ValueOf(f, EVENT_ID) == Some(e.eventId) && ValueOf(f, TOPIC) == Some(e.topic)
            && ValueOf(f, PARTITION_KEY) == Some(e.partitionKey) && ValueOf(f, OCCURRED_AT) == Some(e.occurredAt)
            && ValueOf(f, PAYLOAD) == Some(schema.stringify(JsonObject(e.payload)))
            && ValueOf(f, REQUEST_ID) == e.requestId && ValueOf(f, TRACEPARENT) == e.traceparent
  {
    FieldNamesDiffer();
    var names := [EVENT_ID, TOPIC, PARTITION_KEY, OCCURRED_AT, PAYLOAD, REQUEST_ID, TRACEPARENT];
    forall i | 0 <= i < |names|
      ensures ValueOf(ToStreamFields(schema, e), names[i]) == match i
              case 0 => Some(e.eventId)
              case 1 => Some(e.topic)
              case 2 => Some(e.partitionKey)
              case 3 => Some(e.occurredAt)
              case 4 => Some(schema.stringify(JsonObject(e.payload)))
              case 5 => e.requestId
              case _ => e.traceparent
    {
      WrittenValue(schema, e, names[i]);
    }
    assert names[0] == EVENT_ID && names[1] == TOPIC && names[2] == PARTITION_KEY && names[3] == OCCURRED_AT
           && names[4] == PAYLOAD && names[5] == REQUEST_ID && names[6] == TRACEPARENT;
  }

  lemma WrittenValue(schema: Schema, e: Envelope, name: string)
    ensures ValueOf(ToStreamFields(schema, e), name)
         == if name == TRACEPARENT && e.traceparent.Some? then e.traceparent
            else if name == REQUEST_ID && e.requestId.Some? then e.requestId
            else if name == PAYLOAD then Some(schema.stringify(JsonObject(e.payload)))
            else if name == OCCURRED_AT then Some(e.occurredAt)
            else if name == PARTITION_KEY then Some(e.partitionKey)
            else if name == TOPIC then Some(e.topic)
            else if name == EVENT_ID then Some(e.eventId)
            else None
  {
    var f7 := OptionalField(TRACEPARENT, e.traceparent);
    var f6 := OptionalField(REQUEST_ID, e.requestId) + f7;
    var f5 := Field(PAYLOAD, schema.stringify(JsonObject(e.payload))) + f6;
    var f4 := Field(OCCURRED_AT, e.occurredAt) + f5;
    var f3 := Field(PARTITION_KEY, e.partitionKey) + f4;
    var f2 := Field(TOPIC, e.topic) + f3;
    if e.traceparent.Some? {
      assert f7 == Field(TRACEPARENT, e.traceparent.value) + [];
      ValueAfter(TRACEPARENT, e.traceparent.value, [], name);
    }
    if e.requestId.Some? {
      ValueAfter(REQUEST_ID, e.requestId.value, f7, name);
    } else {
      assert f6 == f7;
    }
    ValueAfter(PAYLOAD, schema.stringify(JsonObject(e.payload)), f6, name);
    ValueAfter(OCCURRED_AT, e.occurredAt, f5, name);
    ValueAfter(PARTITION_KEY, e.partitionKey, f4, name);
    ValueAfter(TOPIC, e.topic, f3, name);
    ValueAfter(EVENT_ID, e.eventId, f2, name);
  }

  // ---------- round trip ----------

  /** A valid envelope survives the wire. */
  lemma EnvelopeRoundTrip(schema: Schema, e: Envelope)
    requires schema.CodecIsFaithful() && schema.Accepts(e)
    ensures FromStreamFields(schema, ToStreamFields(schema, e)) == Parsed(e)
  {
    WrittenFieldsRead(schema, e);
  }

  /** Whatever parses is valid, and the quick look before validation saw the same fields. */
  lemma PeekAgreesWithParse(schema: Schema, fields: Fields)
    ensures var parsed := FromStreamFields(schema, fields);
            var peek := PeekEnvelope(fields);
            parsed.Parsed? ==>
              && schema.Accepts(parsed.envelope)
              && peek.eventId == Some(parsed.envelope.eventId) && peek.topic == Some(parsed.envelope.topic)
              && parsed.envelope.requestId == ValidOnly(peek.requestId, schema.isRequestId)
    ensures var parsed := FromStreamFields(schema, fields);
            parsed.Invalid? ==> parsed.issues != []
  {
  }
}
