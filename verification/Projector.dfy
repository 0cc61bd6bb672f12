/** Applying a projection target to the ledger through the idempotent `ensure...Event` consumers
    (electron/sessionEvents.ts, electron/runtime/sessionLedgerOutboxProjector.ts). */
module Projector {
  import opened Json
  import opened EventSchema
  import opened ProjectionCompatibility
  import opened Outbox

  // ---------------------------------------------------------------- event identity

  /** The identity classes the consumers search by. */
  datatype Slot =
    | CallSlot(callId: Option<Json>)
    | ResultSlot(resultId: Option<Json>)
    | HeaderSlot(headerRequest: Option<Json>, headerAttempt: Option<Json>)
    | ContextSlot(contextRequest: Option<Json>, contextAttempt: Option<Json>)
    | FinalContextSlot(finalRequest: Option<Json>, finalAttempt: Option<Json>)
    | RetrySlot(retryRequest: Option<Json>, retryAttempt: Option<Json>)
    | UsageSlot(usageRequest: Option<Json>)
    | StartSlot(startTurn: Option<Json>)
    | EndSlot(endTurn: Option<Json>)

  const FINAL: Json := Str("final")

  /** The slot an event occupies; a tool-result shaped diagnostic occupies none. */
  function SlotOf(typ: string, p: Payload): Option<Slot> {
    if typ == "tool_call" then Some(CallSlot(Field(p, "toolUseId")))
    else if typ == "tool_result" then (if "diagnosticType" in p then None else Some(ResultSlot(Field(p, "toolUseId"))))
    else if typ == "request_header" then Some(HeaderSlot(Field(p, "requestId"), Field(p, "attempt")))
    else if typ == "request_context" then
      (if Field(p, "projectionStage") == Some(FINAL)
       then Some(FinalContextSlot(Field(p, "requestId"), Field(p, "attempt")))
       else Some(ContextSlot(Field(p, "requestId"), Field(p, "attempt"))))
    else if typ == "request_retry" then Some(RetrySlot(Field(p, "requestId"), Field(p, "attempt")))
    else if typ == "request_usage" then Some(UsageSlot(Field(p, "requestId")))
    else if typ == "turn_start" then Some(StartSlot(Field(p, "turnId")))
    else if typ == "turn_end" then Some(EndSlot(Field(p, "turnId")))
    else None
  }

  function EventSlot(e: EventRecord): Option<Slot> {
    SlotOf(e.typ, e.payload)
  }

  /** The events of a ledger that occupy a slot, in order. */
  function InSlot(ledger: seq<EventRecord>, slot: Slot): (found: seq<EventRecord>)
    ensures forall i | 0 <= i < |found| :: EventSlot(found[i]) == Some(slot) && found[i] in ledger
    ensures |found| == 0 <==> forall i | 0 <= i < |ledger| :: EventSlot(ledger[i]) != Some(slot)
  {
    if ledger == [] then []
    else (if EventSlot(ledger[0]) == Some(slot) then [ledger[0]] else []) + InSlot(ledger[1..], slot)
  }

  /** No slot is occupied twice. */
  ghost predicate AtMostOnce(ledger: seq<EventRecord>) {
    forall slot :: |InSlot(ledger, slot)| <= 1
  }

  lemma {:induction false} InSlotAppend(ledger: seq<EventRecord>, e: EventRecord, slot: Slot)
    ensures InSlot(ledger + [e], slot) == InSlot(ledger, slot) + (if EventSlot(e) == Some(slot) then [e] else [])
  {
    hide EventSlot;
    if ledger == [] {
      assert [e][1..] == [];
    } else {
      assert (ledger + [e])[1..] == ledger[1..] + [e];
      InSlotAppend(ledger[1..], e, slot);
    }
  }

  // ---------------------------------------------------------------- consumers

  predicate Truthy(j: Option<Json>) {
    j.Some? && match j.value
               case Null => false
               case Bool(b) => b
               case Num(n) => n != 0
               case Str(s) => s != ""
               case _ => true
  }

  predicate IsString(j: Option<Json>) {
    j.Some? && j.value.Str?
  }

  predicate NonEmptyString(j: Option<Json>) {
    IsString(j) && Truthy(j)
  }

  predicate IsRecord(j: Option<Json>) {
    j.Some? && j.value.Obj?
  }

  predicate PositiveInteger(j: Option<Json>) {
    j.Some? && j.value.Num? && j.value.n > 0
  }

  /** The consumer a projection kind dispatches an expected event to. Compaction targets have their own consumer. */
  predicate Dispatched(kind: string, typ: string) {
    || (kind == "tool-result" && typ == "tool_result")
    || (IsToolCallKind(kind) && typ == "tool_call")
    || (kind == "request-retry" && typ == "request_retry")
    || (kind == "request-usage" && typ == "request_usage")
    || (kind == "request-final-context" && typ == "request_context")
    || (kind == "request-projection" && (typ == "request_header" || typ == "request_context"))
    || (kind == "invocation-terminal" && (typ == "turn_start" || typ == "turn_end"))
  }

  /** The fields a tool consumer copies from its input: mandatory ones, and optional ones that are not empty. */
  function ToolFields(typ: string): set<string> {
    if typ == "tool_call"
        then {"toolUseId", "turnId", "stepId", "requestId", "invocationRequestId", "lane", "name", "args"}
    else {"toolUseId", "turnId", "stepId", "requestId", "invocationRequestId", "lane", "result"}
  }

  /** The payload the consumer compares and appends. */
  function ProjectedPayload(kind: string, x: EventInput): Payload {
    if x.typ == "tool_call" || x.typ == "tool_result"
        then map k | k in x.payload && k in ToolFields(x.typ) && Truthy(Field(x.payload, k)) :: x.payload[k]
    else if x.typ == "turn_start" then map["turnId" := StringOf(Field(x.payload, "turnId"))]
    else if x.typ == "turn_end"
         then map["turnId" := StringOf(Field(x.payload, "turnId")), "reason" := StringOf(Field(x.payload, "reason"))]
    else if kind == "request-final-context" then x.payload["projectionStage" := FINAL]
    else x.payload
  }

  /** `String(value)` for the values identities are made of. */
  function StringOf(j: Option<Json>): Json {
    if IsString(j) then j.value else Str("undefined")
  }

  const TERMINAL_REASONS: set<string> := {"completed", "failed", "interrupted", "cancelled", "denied"}

  /** The input check at the head of each consumer. */
  predicate ValidInput(kind: string, x: EventInput) {
    var p := x.payload;
    if x.typ == "tool_result" then Truthy(Field(p, "toolUseId")) && Truthy(Field(p, "stepId"))
                                   && IsRecord(Field(p, "result"))
    else if x.typ == "tool_call" then
      Truthy(Field(p, "toolUseId")) && Truthy(Field(p, "stepId")) && Truthy(Field(p, "name"))
          && IsRecord(Field(p, "args"))
    else if x.typ == "turn_start" then !Blank(StringOf(Field(p, "turnId")).s)
    else if x.typ == "turn_end" then !Blank(StringOf(Field(p, "turnId")).s)
                                     && StringOf(Field(p, "reason")).s in TERMINAL_REASONS
    else if x.typ == "request_usage" then NonEmptyString(Field(p, "requestId")) && IsRecord(Field(p, "usage"))
    else if x.typ == "request_retry" then
      && NonEmptyString(Field(p, "requestId")) && PositiveInteger(Field(p, "attempt"))
      && NonEmptyString(Field(p, "code")) && Field(p, "backoffMs").Some? && Field(p, "backoffMs").value.Num?
    else if kind == "request-final-context" then
      && NonEmptyString(Field(p, "requestId")) && PositiveInteger(Field(p, "attempt"))
      && IsString(Field(p, "turnId")) && IsRecord(Field(p, "contextUsage"))
    else NonEmptyString(Field(p, "requestId")) && Field(p, "attempt").Some? && Field(p, "attempt").value.Num?
  }

  /** Whether a stored event is accepted as the projection that is to be ensured. */
  predicate Accepted(kind: string, x: EventInput, e: EventRecord) {
    var payload := ProjectedPayload(kind, x);
    var existing := if "turnId" in x.payload then e.payload else e.payload - {"turnId"};
    if x.typ == "tool_call"
        then EventMatches(e.(payload := existing), EventRecord("tool_call", Some(2), payload, false))
    else if x.typ == "tool_result" then
      SchemasCompatible(e, EventRecord("tool_result", Some(2), payload, false))
          && ToolResultCompatible(existing, payload)
    else if x.typ == "turn_start" then true
    else if x.typ == "turn_end" then TerminalMatches(e.payload, payload)
    else e.payload == payload
  }

  /** The version the writer stamps on an appended event. */
  function Stamp(e: EventInput): EventRecord {
    var version := if e.version.Some? then e.version.value
        else if CurrentVersion(e.typ).Some? then CurrentVersion(e.typ).value else 1;
    EventRecord(e.typ, Some(version), e.payload, !(e.typ in KNOWN_TYPES && version <= CurrentVersion(e.typ).value))
  }

  /** The event a consumer appends. */
  function Appended(kind: string, x: EventInput): EventRecord {
    Stamp(EventInput(x.typ, if x.typ == "tool_call" || x.typ == "tool_result" then Some(2)
                     else None, ProjectedPayload(kind, x)))
  }

  datatype Ensured = Rejected | Present | Append(event: EventRecord)

  /** The slot the consumer searches; a request projection looks for an initial context whatever the payload says. */
  function Wanted(kind: string, x: EventInput): Option<Slot> {
    var p := ProjectedPayload(kind, x);
    if kind == "request-projection" && x.typ == "request_context"
        then Some(ContextSlot(Field(p, "requestId"), Field(p, "attempt")))
    else SlotOf(x.typ, p)
  }

  /** The initial context of a request projection is not marked as the final one. */
  predicate InitialNotFinal(kind: string, x: EventInput) {
    kind == "request-projection" && x.typ == "request_context" ==> Field(x.payload, "projectionStage") != Some(FINAL)
  }

  /** Contexts carry the stage their projection kind stands for, as the canonical builder writes them. */
  predicate WellStaged(kind: string, x: EventInput) {
    InitialNotFinal(kind, x) && (kind == "request-final-context" ==> Field(x.payload, "projectionStage") == Some(FINAL))
  }

  predicate AnyUnsupported(events: seq<EventRecord>) {
    exists i | 0 <= i < |events| :: events[i].unsupported
  }

  /** One `ensure...Event` call on a readable ledger. */
  function Ensure(kind: string, ledger: seq<EventRecord>, x: EventInput): Ensured {
    if !Dispatched(kind, x.typ) || !ValidInput(kind, x) || Wanted(kind, x).None? then Rejected
    else
      var matching := InSlot(ledger, Wanted(kind, x).value);
      var turn := Field(ProjectedPayload(kind, x), "turnId");
      var starts, ends := InSlot(ledger, StartSlot(turn)), InSlot(ledger, EndSlot(turn));
      var initial := InSlot(ledger, ContextSlot(Field(x.payload, "requestId"), Field(x.payload, "attempt")));
      if AnyUnsupported(matching) || |matching| > 1 then Rejected
      else if x.typ == "turn_end" && (AnyUnsupported(starts) || |starts| != 1) then Rejected
      else if kind == "request-final-context" && AnyUnsupported(initial) then Rejected
      else if |matching| == 1 then (if Accepted(kind, x, matching[0]) then Present else Rejected)
      else if x.typ == "turn_start" && |ends| > 0 then Rejected
      else if kind == "request-final-context" && (exists i | 0 <= i < |initial| :: initial[i].payload == x.payload)
           then Present
      else if kind == "request-final-context" && |initial| > 1 then Rejected
      else Append(Appended(kind, x))
  }

  /** A consumer appends into the slot it searched, unless an initial context is marked final. */
  lemma AppendFillsWanted(kind: string, ledger: seq<EventRecord>, x: EventInput)
    requires Ensure(kind, ledger, x).Append?
    ensures EventSlot(Ensure(kind, ledger, x).event) == Wanted(kind, x) <==> InitialNotFinal(kind, x)
  {
  }

  /** Calling a consumer again after it appended finds the event, unless it is an initial
      context marked final, which every call appends once more. */
  lemma SecondEnsureFindsSlot(kind: string, ledger: seq<EventRecord>, x: EventInput)
    requires Ensure(kind, ledger, x).Append?
    ensures var again := Ensure(kind, ledger + [Ensure(kind, ledger, x).event], x);
            && (InitialNotFinal(kind, x) ==> !again.Append?)
            && (!InitialNotFinal(kind, x) ==> again == Ensure(kind, ledger, x))
  {
    var e := Ensure(kind, ledger, x).event;
    InSlotAppend(ledger, e, Wanted(kind, x).value);
    AppendFillsWanted(kind, ledger, x);
  }

  /** An append never fills an occupied slot, so it keeps every slot at most once occupied. */
  lemma EnsureKeepsAtMostOnce(kind: string, ledger: seq<EventRecord>, x: EventInput)
    requires AtMostOnce(ledger) && Ensure(kind, ledger, x).Append? && WellStaged(kind, x)
    ensures AtMostOnce(ledger + [Ensure(kind, ledger, x).event])
  {
    var e := Ensure(kind, ledger, x).event;
    forall slot ensures |InSlot(ledger + [e], slot)| <= 1 {
      InSlotAppend(ledger, e, slot);
    }
  }

  // ---------------------------------------------------------------- applying a whole target

  datatype Outcome = OutOfSteps | Failed | Finished

  /** `steps` counts the durable appends left before the process stops. */
  datatype Applied = Applied(ledger: seq<EventRecord>, steps: nat, outcome: Outcome)

  function EnsureAll(kind: string, ledger: seq<EventRecord>, xs: seq<EventInput>, steps: nat): Applied
    decreases |xs|
  {
    if xs == [] then Applied(ledger, steps, Finished)
    else
      match Ensure(kind, ledger, xs[0])
      case Rejected => Applied(ledger, steps, Failed)
      case Present => EnsureAll(kind, ledger, xs[1..], steps)
      case Append(e) =>
        if steps == 0 then Applied(ledger, 0, OutOfSteps)
        else EnsureAll(kind, ledger + [e], xs[1..], steps - 1)
  }

  /** `sameProjectionIdentity`: how the projector looks an ensured event up again. */
  predicate SameProjectionIdentity(e: EventRecord, x: EventInput) {
    && e.typ == x.typ
    && (if "toolUseId" in e.payload then Field(e.payload, "toolUseId") == Field(x.payload, "toolUseId")
        else if "requestId" in e.payload then
          && Field(e.payload, "requestId") == Field(x.payload, "requestId")
          && Field(e.payload, "attempt") == Field(x.payload, "attempt")
          && (x.typ == "request_context" ==> Field(e.payload, "projectionStage") == Field(x.payload, "projectionStage"))
        else if "turnId" in e.payload then Field(e.payload, "turnId") == Field(x.payload, "turnId")
        else if "compactionId" in e.payload then Field(e.payload, "compactionId") == Field(x.payload, "compactionId")
        else false)
  }

  /** The first ledger event the projector takes for `x`. */
  function FirstSame(ledger: seq<EventRecord>, x: EventInput): (found: Option<EventRecord>)
    ensures found.Some? ==> SameProjectionIdentity(found.value, x) && found.value in ledger
    ensures found.None? <==> forall i | 0 <= i < |ledger| :: !SameProjectionIdentity(ledger[i], x)
  {
    if ledger == [] then None
    else if SameProjectionIdentity(ledger[0], x) then Some(ledger[0])
    else FirstSame(ledger[1..], x)
  }

  /** `projectionPayloadMatches`. */
  predicate ObservedMatches(kind: string, e: EventRecord, x: EventInput) {
    if kind == "tool-result" && x.typ == "tool_result" then ToolResultCompatible(e.payload, x.payload)
    else if IsToolCallKind(kind) && x.typ == "tool_call" then PayloadsCompatible("tool_call", e.payload, x.payload)
    else if kind == "invocation-terminal" && x.typ == "turn_end" then
      SchemasCompatible(e, RecordOf(x)) && TerminalMatches(e.payload, x.payload)
    else EventMatches(e, RecordOf(x))
  }

  function ObservedInput(e: EventRecord): EventInput {
    EventInput(e.typ, if e.version == Some(1) then None else e.version, e.payload)
  }

  function IntText(n: int): string
    decreases if n < 0 then 1 else 0, if n < 0 then -n else n
  {
    if n < 0 then "-" + IntText(-n)
    else if n < 10 then [('0' as int + n) as char]
    else IntText(n / 10) + [('0' as int + n % 10) as char]
  }

  function IdText(j: Option<Json>): string {
    if j.None? then "undefined" else if j.value.Str? then j.value.s
                                     else if j.value.Num? then IntText(j.value.n) else "[object Object]"
  }

  /** `projectionEventIdentity`; None where it throws. */
  function IdentityText(typ: string, p: Payload): Option<string> {
    if typ == "tool_call" || typ == "tool_result" then Some(typ + ":" + IdText(Field(p, "toolUseId")))
    else if typ == "request_context" && Field(p, "projectionStage") == Some(FINAL) then
      Some("request_context_final:" + IdText(Field(p, "requestId")) + ":" + IdText(Field(p, "attempt")))
    else if typ == "request_header" || typ == "request_context" || typ == "request_retry" then
      Some(typ + ":" + IdText(Field(p, "requestId")) + ":" + IdText(Field(p, "attempt")))
    else if typ == "request_usage" then Some("request_usage:" + IdText(Field(p, "requestId")))
    else if typ == "turn_start" || typ == "turn_end" then Some(typ + ":" + IdText(Field(p, "turnId")))
    else if typ == "compaction_start" || typ == "compaction_summary"
         then Some(typ + ":" + IdText(Field(p, "compactionId")))
    else None
  }

  /** Reading back what was ensured: every expected event must be found, match, and carry the promised identity. */
  function Observe(kind: string, ledger: seq<EventRecord>, expected: Expectation): Option<Expectation> {
    if |expected.events| != |expected.ids| then None
    else if exists i | 0 <= i < |expected.events| :: !ObservedAt(kind, ledger, expected.events[i], expected.ids[i])
                                                     then None
    else Some(Expectation(seq(|expected.events|,
                              i requires 0 <= i < |expected.events| => ObservedInput(FirstSame(ledger,
                                    expected.events[i]).value)), expected.ids))
  }

  predicate ObservedAt(kind: string, ledger: seq<EventRecord>, x: EventInput, id: string) {
    && FirstSame(ledger, x).Some?
    && ObservedMatches(kind, FirstSame(ledger, x).value, x)
    && IdentityText(FirstSame(ledger, x).value.typ, FirstSame(ledger, x).value.payload) == Some(id)
  }

  /** A request projection is only accepted for a header and a context of one attempt. */
  predicate ValidShape(kind: string, xs: seq<EventInput>) {
    && xs != []
    && (kind == "request-projection" ==>
          && |xs| == 2 && xs[0].typ == "request_header" && xs[1].typ == "request_context"
          && Field(xs[0].payload, "requestId") == Field(xs[1].payload, "requestId")
          && Field(xs[0].payload, "attempt") == Field(xs[1].payload, "attempt"))
  }

  /** `projectCanonicalSessionLedgerTarget` with at most `steps` appends. */
  function Project(kind: string, ledger: seq<EventRecord>, expected: Expectation, steps: nat): (Applied,
        Option<Expectation>) {
    if !ValidShape(kind, expected.events) then (Applied(ledger, steps, Failed), None)
    else
      var applied := EnsureAll(kind, ledger, expected.events, steps);
      if applied.outcome != Finished then (applied, None)
      else
        var observed := Observe(kind, applied.ledger, expected);
        if observed.None? then (applied.(outcome := Failed), None) else (applied, observed)
  }

  lemma {:induction false} EnsureAllSteps(kind: string, ledger: seq<EventRecord>, xs: seq<EventInput>, steps: nat)
    ensures var r := EnsureAll(kind, ledger, xs, steps);
            ledger <= r.ledger && r.steps <= steps && |r.ledger| - |ledger| == steps - r.steps
                && (r.outcome == OutOfSteps ==> r.steps == 0)
    decreases |xs|
  {
    hide Ensure;
    if xs != [] {
      match Ensure(kind, ledger, xs[0])
      case Rejected =>
      case Present => EnsureAllSteps(kind, ledger, xs[1..], steps);
      case Append(e) =>
        if steps > 0 {
          EnsureAllSteps(kind, ledger + [e], xs[1..], steps - 1);
        }
    }
  }

  predicate AllWellStaged(kind: string, xs: seq<EventInput>) {
    forall i | 0 <= i < |xs| :: WellStaged(kind, xs[i])
  }

  /** Whatever happens, also when the process stops in the middle, events are only appended and no slot is filled
      twice. */
  lemma {:induction false} EnsureAllKeeps(kind: string, ledger: seq<EventRecord>, xs: seq<EventInput>, steps: nat)
    requires AtMostOnce(ledger) && AllWellStaged(kind, xs)
    ensures var r := EnsureAll(kind, ledger, xs, steps);
            ledger <= r.ledger && AtMostOnce(r.ledger)
    decreases |xs|
  {
    hide Ensure, AtMostOnce, WellStaged;
    if xs != [] {
      match Ensure(kind, ledger, xs[0])
      case Rejected =>
      case Present => EnsureAllKeeps(kind, ledger, xs[1..], steps);
      case Append(e) =>
        if steps > 0 {
          EnsureKeepsAtMostOnce(kind, ledger, xs[0]);
          EnsureAllKeeps(kind, ledger + [e], xs[1..], steps - 1);
        }
    }
  }

  /** An occupied slot stays occupied while the ledger grows. */
  lemma {:induction false} SlotStaysOccupied(ledger: seq<EventRecord>, longer: seq<EventRecord>, slot: Slot)
    requires ledger <= longer && InSlot(ledger, slot) != []
    ensures InSlot(longer, slot) != []
  {
  }
}
