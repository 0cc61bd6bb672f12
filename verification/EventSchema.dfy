/** Event types, their current schema versions, and the upcast loop (electron/sessionEventSchema.ts). */
module EventSchema {
  import opened Json

  const KNOWN_TYPES: set<string> := {
    "turn_start", "turn_end", "step_start", "step_end", "assistant_chunk", "tool_call", "tool_result",
    "request_header", "request_context", "request_usage", "request_retry", "compaction_start",
    "compaction_summary", "compaction_end", "session_end_seed" }

  /** A stored or expected event as the compatibility relation sees it. */
  datatype EventRecord = EventRecord(typ: string, version: Option<int>, payload: Payload, unsupported: bool)

  datatype Normalized = Normalized(typ: string, version: int, payload: Payload)

  function CurrentVersion(typ: string): Option<int> {
    if typ !in KNOWN_TYPES then None
    else if typ == "tool_call" || typ == "tool_result" then Some(2)
    else Some(1)
  }

  /** The registered upcast step from `version` to `version + 1`; both known steps only copy the payload. */
  function Upcast(typ: string, version: int, payload: Payload): Option<Payload> {
    if (typ == "tool_call" || typ == "tool_result") && version == 1 then Some(payload) else None
  }

  function DeclaredVersion(r: EventRecord): int {
    if r.version.Some? then r.version.value else 1
  }

  /** What a reader can interpret: a known type at a version between 1 and the current one. */
  predicate Supported(r: EventRecord) {
    && !r.unsupported
    && r.typ in KNOWN_TYPES
    && 1 <= DeclaredVersion(r) <= CurrentVersion(r.typ).value
  }

  /** The view of a record in the current schema. */
  function Normal(r: EventRecord): (n: Option<Normalized>) {
    if Supported(r) then Some(Normalized(r.typ, CurrentVersion(r.typ).value, r.payload)) else None
  }

  /** The upcast loop reaches the current version exactly for supported records and keeps their payload. */
  method NormalizeEventSchema(r: EventRecord) returns (n: Option<Normalized>)
    ensures n == Normal(r)
    ensures n.Some? <==> Supported(r)
    ensures n.Some? ==> n.value.typ == r.typ && n.value.payload == r.payload
                        && CurrentVersion(r.typ) == Some(n.value.version)
  {
    if r.unsupported || r.typ !in KNOWN_TYPES {
      return None;
    }
    var version := DeclaredVersion(r);
    if version < 1 {
      return None;
    }
    var current := CurrentVersion(r.typ);
    if current.None? || version > current.value {
      return None;
    }
    var payload := r.payload;
    while version < current.value
      invariant 1 <= version <= current.value
      invariant payload == r.payload
    {
      var next := Upcast(r.typ, version, payload);
      if next.None? {
        return None;
      }
      payload := next.value;
      version := version + 1;
    }
    return Some(Normalized(r.typ, current.value, payload));
  }
}
