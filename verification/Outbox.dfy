/** Durable projection targets: stored payloads, permitted upgrades, enqueue and acknowledge
    (electron/sessionLedgerOutbox.ts). */
module Outbox {
  import opened Json
  import opened EventSchema
  import opened ProjectionCompatibility
  import opened Readiness

  /** An event a target expects; `version` is None when the canonical sidecar does not state one. */
  datatype EventInput = EventInput(typ: string, version: Option<int>, payload: Payload)

  function RecordOf(e: EventInput): EventRecord {
    EventRecord(e.typ, e.version, e.payload, false)
  }

  /** The JSON object of an expected event. */
  function EventObject(e: EventInput): Payload {
    var base: Payload := map["type" := Str(e.typ), "payload" := Obj(e.payload)];
    if e.version.Some? then base["schemaVersion" := Num(e.version.value)] else base
  }

  function EventObjects(events: seq<EventInput>): (objects: seq<Payload>)
    ensures |objects| == |events|
    ensures forall i | 0 <= i < |events| :: objects[i] == EventObject(events[i])
  {
    seq(|events|, i requires 0 <= i < |events| => EventObject(events[i]))
  }

  /** The typed view of a stored obj, when it has the shape of an event. */
  function TypedEvent(obj: Payload): Option<EventInput> {
    if StringField(obj, "type").None? || "payload" !in obj || !obj["payload"].Obj? then None
    else if "schemaVersion" !in obj || obj["schemaVersion"].Null? then
      Some(EventInput(obj["type"].s, None, obj["payload"].fields))
    else if obj["schemaVersion"].Num? then
      Some(EventInput(obj["type"].s, Some(obj["schemaVersion"].n), obj["payload"].fields))
    else None
  }

  lemma TypedEventOfObject(e: EventInput)
    ensures TypedEvent(EventObject(e)) == Some(e)
  {
  }

  // ---------------------------------------------------------------- stored payloads

  /** A payload digest. sha256 is taken to be injective, so a digest is the material that was hashed. */
  datatype Digest = Sha256(events: seq<Payload>, ids: seq<string>) | NotADigest

  /** A JSON column: text that parses to a value, or text that does not. */
  datatype Text = Malformed | Parsed(json: Json)

  datatype StoredPayload = StoredPayload(eventsJson: Text, idsJson: Text, digest: Digest)

  datatype Decoded =
    | LegacyPayload(events: seq<Payload>, ids: seq<string>)
    | CanonicalV1(digest: Digest)

  datatype DecodeError = DigestInvalid | EncodingInvalid | EncodingUnsupported | PayloadInvalid | DigestMismatch

  const MARKER: Json := Obj(map["encoding" := Str("canonical-v1")])

  predicate ValidExpectation(eventCount: nat, ids: seq<string>) {
    eventCount > 0 && eventCount == |ids| && forall i | 0 <= i < |ids| :: ids[i] != ""
  }

  function DigestOf(events: seq<EventInput>, ids: seq<string>): Digest {
    Sha256(EventObjects(events), ids)
  }

  function Encode(events: seq<EventInput>, ids: seq<string>): StoredPayload {
    StoredPayload(Parsed(MARKER), Parsed(MARKER), DigestOf(events, ids))
  }

  function ObjectsOf(items: seq<Json>): (objects: seq<Payload>)
    requires forall i | 0 <= i < |items| :: items[i].Obj?
  {
    seq(|items|, i requires 0 <= i < |items| => items[i].fields)
  }

  function StringsOf(items: seq<Json>): (strings: seq<string>)
    requires forall i | 0 <= i < |items| :: items[i].Str?
  {
    seq(|items|, i requires 0 <= i < |items| => items[i].s)
  }

  function Encoding(j: Json): Option<Json> {
    if j.Obj? then Field(j.fields, "encoding") else None
  }

  function Decode(stored: StoredPayload): Result<Decoded, DecodeError> {
    if !stored.digest.Sha256? then Err(DigestInvalid)
    else if stored.eventsJson.Malformed? || stored.idsJson.Malformed? then Err(EncodingInvalid)
    else
      var events, ids := stored.eventsJson.json, stored.idsJson.json;
      var v1 := Some(Str("canonical-v1"));
      if events.Obj? || ids.Obj? then
        if events == MARKER && ids == MARKER then Ok(CanonicalV1(stored.digest))
        else if Encoding(events) == v1 || Encoding(ids) == v1 then Err(EncodingInvalid)
        else if Encoding(events).Some? || Encoding(ids).Some? then Err(EncodingUnsupported)
        else Err(EncodingInvalid)
      else if !events.Arr? || !ids.Arr? || (exists i | 0 <= i < |events.items| :: !events.items[i].Obj?)
              || (exists i | 0 <= i < |ids.items| :: !ids.items[i].Str?) then Err(EncodingInvalid)
      else
        var objects, strings := ObjectsOf(events.items), StringsOf(ids.items);
        if !ValidExpectation(|objects|, strings) then Err(PayloadInvalid)
        else if Sha256(objects, strings) != stored.digest then Err(DigestMismatch)
        else Ok(LegacyPayload(objects, strings))
  }

  /** The legacy representation: the two arrays themselves. */
  function EncodeLegacy(objects: seq<Payload>, ids: seq<string>): StoredPayload {
    StoredPayload(
      Parsed(Arr(seq(|objects|, i requires 0 <= i < |objects| => Obj(objects[i])))),
      Parsed(Arr(seq(|ids|, i requires 0 <= i < |ids| => Str(ids[i])))),
      Sha256(objects, ids))
  }

  /** Decoding an encoding yields its digest, decoding a legacy representation its original arrays,
      and nothing else decodes: the accepted stored payloads are exactly these two families. */
  lemma DecodeRoundTrip(stored: StoredPayload, events: seq<EventInput>, objects: seq<Payload>, ids: seq<string>)
    ensures Decode(Encode(events, ids)) == Ok(CanonicalV1(DigestOf(events, ids)))
    ensures ValidExpectation(|objects|, ids) ==> Decode(EncodeLegacy(objects, ids)) == Ok(LegacyPayload(objects, ids))
    ensures Decode(stored) == Ok(LegacyPayload(objects, ids)) ==>
        stored == EncodeLegacy(objects, ids) && ValidExpectation(|objects|, ids)
    ensures Decode(stored).Ok? && Decode(stored).value.CanonicalV1? ==>
              stored == StoredPayload(Parsed(MARKER), Parsed(MARKER), stored.digest)
                  && Decode(stored).value.digest == stored.digest
  {
  }

  // ---------------------------------------------------------------- targets

  /** Identity of a target. The durable id is a digest of these three values, taken to be injective. */
  datatype TargetId = TargetId(location: LocationKey, canonicalEventId: string, kind: string)

  datatype Target = Target(
    id: TargetId,
    sessionId: string,
    sessionGeneration: string,
    order: int,
    events: seq<EventInput>,
    ids: seq<string>)

  datatype Status = Pending | Acked

  datatype OutboxRow = OutboxRow(
    sessionId: string,
    sessionGeneration: string,
    sequence: int,
    order: int,
    payload: StoredPayload,
    status: Status)

  /** A committed History event; it is never changed. */
  datatype Canonical = Canonical(sequence: int, kind: string, turnId: string, payload: Json)

  datatype HistoryKey = HistoryKey(eventId: string, sessionId: string)

  datatype Db = Db(rows: map<LocationKey, Row>, outbox: map<TargetId, OutboxRow>, history: map<HistoryKey, Canonical>)

  predicate HasPending(outbox: map<TargetId, OutboxRow>, location: LocationKey) {
    exists id | id in outbox :: id.location == location && outbox[id].status == Pending
  }

  // ---------------------------------------------------------------- permitted upgrades

  /** `kind` is the tool-call projection kind of the given tool use. */
  function ToolCallKind(toolUseId: string): string {
    "tool-call:" + toolUseId
  }

  function VersionOf(e: EventInput): int {
    if e.version.Some? then e.version.value else 1
  }

  /** The ledger location named by a canonical sidecar, when it is well formed. */
  function SidecarLocation(sidecar: Payload): Option<LocationKey> {
    if "location" !in sidecar || !sidecar["location"].Obj? then None
    else
      var l := sidecar["location"].fields;
      if StringField(l, "workDir").None? || StringField(l, "sessionId").None? then None
      else if "createdAt" !in l || !l["createdAt"].Num? || !(-MAX_SAFE_INTEGER <= l["createdAt"].n <= MAX_SAFE_INTEGER)
           then None
      else if Blank(l["workDir"].s) || Blank(l["sessionId"].s) then None
      else Some(LocationKey(l["workDir"].s, l["sessionId"].s, l["createdAt"].n))
  }

  predicate Blank(s: string) {
    forall i | 0 <= i < |s| :: s[i] == ' ' || s[i] == '\t' || s[i] == '\n' || s[i] == '\r'
  }

  function Sidecar(envelope: Json): Option<Payload> {
    if envelope.Obj? && "sessionLedger" in envelope.fields && envelope.fields["sessionLedger"].Obj? then
      Some(envelope.fields["sessionLedger"].fields)
    else None
  }

  /** The attribution fields the new payload has as strings and the old one lacks. */
  function AddedAttribution(previous: Payload, next: Payload): set<string> {
    set k | k in ATTRIBUTION && StringField(next, k).Some? && k !in previous
  }

  /** The calls of a sidecar that carry this tool use id. */
  function CallsFor(calls: seq<Json>, toolUseId: string): seq<Payload> {
    if calls == [] then []
    else (if calls[0].Obj? && StringField(calls[0].fields, "toolUseId") == Some(toolUseId) then [calls[0].fields]
          else [])
         + CallsFor(calls[1..], toolUseId)
  }

  /** `isCanonicalToolCallAttributionEnrichment`. */
  predicate AttributionEnrichment(t: Target, previous: seq<Payload>, previousIds: seq<string>, canonical: Canonical) {
    && |previous| == 1 && |t.events| == 1 && previousIds == t.ids
    && TypedEvent(previous[0]).Some?
    && var prior, next := TypedEvent(previous[0]).value, t.events[0];
    && prior.typ == "tool_call" && next.typ == "tool_call" && VersionOf(prior) < VersionOf(next)
    && StringField(next.payload, "toolUseId").Some?
    && var toolUseId := StringField(next.payload, "toolUseId").value;
    && t.id.kind == ToolCallKind(toolUseId) && t.ids == ["tool_call:" + toolUseId]
    && Field(next.payload, "turnId") == Some(Str(canonical.turnId))
    && PayloadsCompatible("tool_call", prior.payload, next.payload)
    && (AddedAttribution(prior.payload, next.payload) == {} ==> prior.payload == next.payload)
    && canonical.kind == "model-response-committed"
    && Sidecar(canonical.payload).Some?
    && var sidecar := Sidecar(canonical.payload).value;
    && SidecarLocation(sidecar) == Some(t.id.location) && t.id.location.sessionId == t.sessionId
    && StringField(sidecar, "stepId").Some? && Field(sidecar, "stepId") == Field(next.payload, "stepId")
    && "toolCalls" in sidecar && sidecar["toolCalls"].Arr?
    && var calls := CallsFor(sidecar["toolCalls"].items, toolUseId);
    && |calls| == 1
    && Field(calls[0], "name") == Field(next.payload, "name") && Field(calls[0], "args") == Field(next.payload, "args")
    && (forall k | k in AddedAttribution(prior.payload, next.payload) :: Field(calls[0], k) == Field(next.payload, k))
  }

  /** `isCanonicalToolResultSchemaUpgrade`. */
  predicate ResultSchemaUpgrade(t: Target, previous: seq<Payload>, previousIds: seq<string>, canonical: Canonical) {
    && t.id.kind == "tool-result"
    && |previous| == 1 && |t.events| == 1 && previousIds == t.ids
    && TypedEvent(previous[0]).Some?
    && var prior, next := TypedEvent(previous[0]).value, t.events[0];
    && prior.typ == "tool_result" && next.typ == "tool_result" && VersionOf(prior) < VersionOf(next)
    && EventMatches(RecordOf(prior), RecordOf(next))
    && StringField(next.payload, "toolUseId").Some?
    && var toolUseId := StringField(next.payload, "toolUseId").value;
    && t.ids == ["tool_result:" + toolUseId]
    && Sidecar(canonical.payload).Some?
    && var sidecar := Sidecar(canonical.payload).value;
    && SidecarLocation(sidecar) == Some(t.id.location) && t.id.location.sessionId == t.sessionId
    && StringField(sidecar, "stepId").Some? && Field(sidecar, "stepId") == Field(next.payload, "stepId")
    && Field(canonical.payload.fields, "toolCallId") == Some(Str(toolUseId))
    && (canonical.kind == "tool-call-finished" || canonical.kind == "tool-call-not-dispatched")
    && Field(sidecar, "result") == Field(next.payload, "result")
  }

  predicate UpgradePermitted(t: Target, previous: seq<Payload>, previousIds: seq<string>, canonical: Canonical) {
    AttributionEnrichment(t, previous, previousIds, canonical)
        || ResultSchemaUpgrade(t, previous, previousIds, canonical)
  }

  /** A permitted upgrade keeps the event type, the event identities and every payload field outside the additive
      ones. */
  lemma UpgradeKeepsMeaning(t: Target, previous: seq<Payload>, previousIds: seq<string>, canonical: Canonical)
    requires UpgradePermitted(t, previous, previousIds, canonical)
    ensures |previous| == 1 && |t.events| == 1 && previousIds == t.ids
    ensures TypedEvent(previous[0]).Some?
    ensures var prior := TypedEvent(previous[0]).value;
            && prior.typ == t.events[0].typ && VersionOf(prior) < VersionOf(t.events[0])
            && PayloadsCompatible(prior.typ, prior.payload, t.events[0].payload)
            && Field(prior.payload, "toolUseId") == Field(t.events[0].payload, "toolUseId")
  {
    var prior := TypedEvent(previous[0]).value;
    if prior.typ == "tool_call" {
      assert Field(prior.payload - ATTRIBUTION, "toolUseId") == Field(t.events[0].payload - ATTRIBUTION, "toolUseId");
    } else {
      assert ARTIFACT_PATH[0] == "result" && ["toolUseId"][0] == "toolUseId";
      MatchedResultsAgree(prior.payload, t.events[0].payload, ["toolUseId"]);
      assert ReadPath(prior.payload, ["toolUseId"]) == Field(prior.payload, "toolUseId");
      assert ReadPath(t.events[0].payload, ["toolUseId"]) == Field(t.events[0].payload, "toolUseId");
    }
  }

  // ---------------------------------------------------------------- enqueue

  datatype EnqueueError = TargetInvalid | LocationMismatch | CanonicalMissing | TargetConflict

  /** The stored row after the conflict checks, before the insert. */
  function Reconciled(row: OutboxRow, t: Target, canonical: Canonical): Result<OutboxRow, EnqueueError> {
    if row.sessionId != t.sessionId || row.sessionGeneration != t.sessionGeneration then Err(TargetConflict)
    else
      match Decode(row.payload)
      case Err(_) => Err(TargetConflict)
      case Ok(CanonicalV1(digest)) => if digest == DigestOf(t.events, t.ids) then Ok(row) else Err(TargetConflict)
      case Ok(LegacyPayload(events, ids)) =>
        if row.payload.digest == DigestOf(t.events, t.ids) then Ok(row)
        else if UpgradePermitted(t, events, ids, canonical) then Ok(row.(payload := Encode(t.events, t.ids)))
        else Err(TargetConflict)
  }

  function SetRow(rows: map<LocationKey, Row>, key: LocationKey, op: RowOp, pending: bool): map<LocationKey, Row> {
    if key in rows then rows[key := Apply(op, rows[key], pending)] else rows
  }

  /** `enqueueCanonicalLedgerProjectionTargetInTransaction`; an error leaves the database as it was. */
  function Enqueue(db: Db, t: Target): Result<Db, EnqueueError> {
    var history := HistoryKey(t.id.canonicalEventId, t.sessionId);
    if !ValidExpectation(|t.events|, t.ids) then Err(TargetInvalid)
    else if t.id.location !in db.rows || t.id.location.sessionId != t.sessionId
            || db.rows[t.id.location].sessionGeneration != t.sessionGeneration then Err(LocationMismatch)
    else if history !in db.history then Err(CanonicalMissing)
    else
      var stored :=
        if t.id in db.outbox then Reconciled(db.outbox[t.id], t, db.history[history])
        else Ok(OutboxRow(t.sessionId, t.sessionGeneration, db.history[history].sequence, t.order,
                          Encode(t.events, t.ids), Pending));
      match stored
      case Err(e) => Err(e)
      case Ok(row) =>
        var outbox := db.outbox[t.id := row];
        if row.status == Pending then
          Ok(db.(outbox := outbox, rows := SetRow(db.rows, t.id.location, EnqueuedPending, true)))
        else Ok(db.(outbox := outbox))
  }

  // ---------------------------------------------------------------- acknowledge

  /** A stored turn end may carry error diagnostics and a surface snapshot on top of turn and reason. */
  predicate TerminalMatches(actual: Payload, expected: Payload) {
    && (forall k | k in actual :: k in {"turnId", "reason", "error", "errorCode", "finalSurfaceSnapshot"})
    && ("error" in actual ==> actual["error"].Str?)
    && ("errorCode" in actual ==> actual["errorCode"].Str?)
    && Field(actual, "turnId") == Field(expected, "turnId")
    && Field(actual, "reason") == Field(expected, "reason")
  }

  predicate IsToolCallKind(kind: string) {
    |kind| >= 10 && kind[..10] == "tool-call:"
  }

  /** One observed event against one expected event, by projection kind. */
  predicate ProjectionEventMatches(kind: string, expected: EventInput, actual: EventInput) {
    if kind == "tool-result" then
      expected.typ == "tool_result" && actual.typ == "tool_result"
          && ToolResultCompatible(actual.payload, expected.payload)
    else if IsToolCallKind(kind) then
      expected.typ == "tool_call" && actual.typ == "tool_call" && EventMatches(RecordOf(actual), RecordOf(expected))
    else if kind == "invocation-terminal" && expected.typ == "turn_end" && actual.typ == "turn_end" then
      SchemasCompatible(RecordOf(actual), RecordOf(expected)) && TerminalMatches(actual.payload, expected.payload)
    else
      EventMatches(RecordOf(actual), RecordOf(expected))
  }

  predicate ProjectionEventsMatch(kind: string, expected: seq<EventInput>, observed: seq<EventInput>) {
    |expected| == |observed| && forall i | 0 <= i < |expected| :: ProjectionEventMatches(kind, expected[i], observed[i])
  }

  function TypedEvents(objects: seq<Payload>): (events: Option<seq<EventInput>>)
  {
    if forall i | 0 <= i < |objects| :: TypedEvent(objects[i]).Some? then
      Some(seq(|objects|, i requires 0 <= i < |objects| => TypedEvent(objects[i]).value))
    else None
  }

  datatype Expectation = Expectation(events: seq<EventInput>, ids: seq<string>)

  /** What the row obliges the ledger to hold; a canonical-v1 row needs the canonical material that hashes to its
      digest. */
  function Obligation(row: OutboxRow, canonical: Option<Expectation>): Option<Expectation> {
    match Decode(row.payload)
    case Err(_) => None
    case Ok(CanonicalV1(digest)) =>
      if canonical.Some? && ValidExpectation(|canonical.value.events|, canonical.value.ids)
         && DigestOf(canonical.value.events, canonical.value.ids) == digest then canonical else None
    case Ok(LegacyPayload(objects, ids)) =>
      if canonical.Some? && DigestOf(canonical.value.events, canonical.value.ids) != row.payload.digest then None
      else if TypedEvents(objects).None? then None
      else Some(Expectation(TypedEvents(objects).value, ids))
  }

  /** The observation covers the complete obligation of the row. */
  predicate Covers(id: TargetId, row: OutboxRow, observed: Expectation, canonical: Option<Expectation>) {
    && Obligation(row, canonical).Some?
    && Obligation(row, canonical).value.ids == observed.ids
    && ProjectionEventsMatch(id.kind, Obligation(row, canonical).value.events, observed.events)
  }

  /** `acknowledgeCanonicalLedgerProjectionTarget`. */
  function Acknowledge(db: Db, id: TargetId, observed: Expectation, canonical: Option<Expectation>): (Db, bool) {
    if id !in db.outbox || !Covers(id, db.outbox[id], observed, canonical) then (db, false)
    else if db.outbox[id].status == Acked then (db, true)
    else
      var outbox := db.outbox[id := db.outbox[id].(status := Acked)];
      if HasPending(outbox, id.location) then (db.(outbox := outbox), true)
      else (db.(outbox := outbox, rows := SetRow(db.rows, id.location, AckedLast, false)), true)
  }
}
