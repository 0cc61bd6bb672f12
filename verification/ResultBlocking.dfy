/** What stops a tool result from being projected for ever: a tool-result shaped diagnostic that the read-back takes for
    it (electron/runtime/sessionLedgerOutboxProjector.ts). */
module ResultBlocking {
  import opened Json
  import opened EventSchema
  import opened ProjectionCompatibility
  import opened Outbox
  import opened LedgerStore
  import opened Projector
  import opened Drain
  import opened ExactlyOnce
  import opened FinalDrain

  // ---------------------------------------------------------------- one projection

  /** An event the projector takes for the result it looks for, although it is only a diagnostic of the same tool use,
      or a diagnostic of the same turn that names no tool use. */
  predicate TakenForResult(e: EventRecord, x: EventInput) {
    SameProjectionIdentity(e, x) && "diagnosticType" in e.payload
  }

  lemma DiagnosticNeverMatches(e: EventRecord, x: EventInput)
    requires "diagnosticType" in e.payload && "diagnosticType" !in x.payload
    ensures !ToolResultCompatible(e.payload, x.payload)
  {
  }

  lemma {:induction false} FirstSameAppend(ledger: seq<EventRecord>, e: EventRecord, x: EventInput)
    ensures FirstSame(ledger + [e], x) ==
            if FirstSame(ledger, x).Some? then FirstSame(ledger, x)
                else if SameProjectionIdentity(e, x) then Some(e) else None
  {
    if ledger == [] {
      assert [e][1..] == [];
    } else {
      assert (ledger + [e])[1..] == ledger[1..] + [e];
      FirstSameAppend(ledger[1..], e, x);
    }
  }

  lemma ResultAppended(ledger: seq<EventRecord>, o: Obligated, steps: nat)
    requires o.kind == "tool-result" && WellFormed(o) && steps > 0 && InSlot(ledger, Wanted(o.kind, o.x).value) == []
    ensures EnsureAll(o.kind, ledger, [o.x], steps) == Applied(ledger + [Appended(o.kind, o.x)], steps - 1, Finished)
    ensures SameProjectionIdentity(Appended(o.kind, o.x), o.x) && "diagnosticType" !in o.x.payload
    ensures Appended(o.kind, o.x).payload == o.x.payload && o.x.typ == "tool_result"
  {
    assert o.x.typ == "tool_result" by {
      assert "tool-result"[..10][5] == 'r' && "tool-call:"[5] == 'c';
    }
    assert o.x.payload == ProjectedPayload(o.kind, o.x);
    assert Ensure(o.kind, ledger, o.x) == Append(Appended(o.kind, o.x));
    assert [o.x][1..] == [];
  }

  lemma ReadBackResult(ledger: seq<EventRecord>, e: EventRecord, o: Obligated)
    requires o.kind == "tool-result" && o.x.typ == "tool_result" && "diagnosticType" !in o.x.payload
    requires SameProjectionIdentity(e, o.x) && e.payload == o.x.payload
    requires Some(o.id) == IdentityText(o.x.typ, o.x.payload)
    requires forall f | f in ledger && SameProjectionIdentity(f, o.x) :: "diagnosticType" in f.payload
    ensures ObservedAt(o.kind, ledger + [e], o.x, o.id) <==> forall f | f in ledger :: !TakenForResult(f, o.x)
  {
    hide SameProjectionIdentity, ToolResultCompatible, IdentityText;
    FirstSameAppend(ledger, e, o.x);
    OwnResultMatches(o.x);
    var first := FirstSame(ledger, o.x);
    if first.Some? {
      DiagnosticNeverMatches(first.value, o.x);
    } else {
      assert e.typ == "tool_result" by { SameType(e, o.x); }
    }
  }

  lemma SameType(e: EventRecord, x: EventInput)
    requires SameProjectionIdentity(e, x)
    ensures e.typ == x.typ
  {
  }

  /** A canonical tool result that is not in the ledger yet is projected and read back exactly when the ledger holds no
      diagnostic the projector would take for it. Where it does, the result is appended but its target stays pending. */
  lemma DiagnosticBlocksResult(ledger: seq<EventRecord>, o: Obligated, steps: nat)
    requires o.kind == "tool-result" && WellFormed(o) && Some(o.id) == IdentityText(o.x.typ, o.x.payload) && steps > 0
    requires InSlot(ledger, Wanted(o.kind, o.x).value) == []
    requires forall e | e in ledger && SameProjectionIdentity(e, o.x) :: "diagnosticType" in e.payload
    ensures var (applied, observed) := Project(o.kind, ledger, Expectation([o.x], [o.id]), steps);
            && applied.ledger == ledger + [Appended(o.kind, o.x)]
            && (observed.Some? <==> forall e | e in ledger :: !TakenForResult(e, o.x))
  {
    hide EnsureAll, WellFormed, ObservedAt, TakenForResult, IdentityText, Appended, SameProjectionIdentity, Wanted;
    ResultAppended(ledger, o, steps);
    ReadBackResult(ledger, Appended(o.kind, o.x), o);
    assert [o.x][0] == o.x && [o.id][0] == o.id;
  }

  // ---------------------------------------------------------------- every later projection

  /** The first event the read-back takes for the result is a diagnostic. */
  predicate Obstructed(ledger: seq<EventRecord>, x: EventInput) {
    FirstSame(ledger, x).Some? && "diagnosticType" in FirstSame(ledger, x).value.payload
  }

  predicate PlainResult(kind: string, x: EventInput) {
    kind == "tool-result" && x.typ == "tool_result" && "diagnosticType" !in x.payload
  }

  lemma {:induction false} FirstSameStays(ledger: seq<EventRecord>, longer: seq<EventRecord>, x: EventInput)
    requires ledger <= longer && FirstSame(ledger, x).Some?
    ensures FirstSame(longer, x) == FirstSame(ledger, x)
    decreases |ledger|
  {
    hide SameProjectionIdentity;
    if ledger != [] && !SameProjectionIdentity(ledger[0], x) {
      FirstSameStays(ledger[1..], longer[1..], x);
    }
  }

  lemma ObstructedStays(ledger: seq<EventRecord>, longer: seq<EventRecord>, x: EventInput)
    requires ledger <= longer && Obstructed(ledger, x)
    ensures Obstructed(longer, x)
  {
    FirstSameStays(ledger, longer, x);
  }

  lemma ObstructedNotObserved(kind: string, ledger: seq<EventRecord>, expected: Expectation, x: EventInput)
    requires PlainResult(kind, x) && x in expected.events && Obstructed(ledger, x)
    ensures Observe(kind, ledger, expected) == None
  {
    hide ToolResultCompatible, IdentityText;
    DiagnosticNeverMatches(FirstSame(ledger, x).value, x);
    if |expected.events| == |expected.ids| {
      var i :| 0 <= i < |expected.events| && expected.events[i] == x;
      assert !ObservedAt(kind, ledger, x, expected.ids[i]);
    }
  }

  /** Over an obstructed ledger, and over every ledger that extends it, no projection of the result is ever observed. */
  lemma ObstructedForEver(kind: string, ledger: seq<EventRecord>, later: seq<EventRecord>, expected: Expectation,
                          x: EventInput, steps: nat)
    requires PlainResult(kind, x) && x in expected.events && Obstructed(ledger, x) && ledger <= later
    ensures Project(kind, later, expected, steps).1 == None
  {
    hide EnsureAll, Observe, Obstructed, ValidShape;
    var applied := EnsureAll(kind, later, expected.events, steps);
    EnsureAllSteps(kind, later, expected.events, steps);
    ObstructedStays(ledger, applied.ledger, x);
    ObstructedNotObserved(kind, applied.ledger, expected, x);
  }

  // ---------------------------------------------------------------- every later drain

  /** Looking the target up gives material that expects this event, or nothing. */
  predicate Expects(resolution: Resolution, x: EventInput) {
    resolution != NoResolver && (resolution.Found? ==> x in resolution.target.events)
  }

  /** The drain under way is not about to acknowledge the target. */
  predicate NotObserved(task: Task, id: TargetId, x: EventInput) {
    && (task.Projecting? && task.id == id ==> x in task.expected.events)
    && (task.Appending? && task.id == id ==> x in task.expected.events)
    && (task.Reading? ==> task.id != id)
  }

  ghost predicate Stuck(s: System, id: TargetId, x: EventInput) {
    && id in s.w.db.outbox && s.w.db.outbox[id].status == Pending
    && Obstructed(s.w.ledger, x) && NotObserved(s.task, id, x)
  }

  /** The file stays in place, and only drains acknowledge the target. */
  predicate LeavesFile(m: Move, id: TargetId) {
    !m.ReplaceLedger? && !m.MoveAway? && (m.DbMove? && m.op.AckTarget? ==> m.op.id != id)
  }

  lemma TakeStuck(s: System, resolve: TargetId -> Resolution, id: TargetId, x: EventInput)
    requires Stuck(s, id, x) && s.task.Between? && Expects(resolve(id), x)
    ensures Stuck(Take(s, resolve), id, x)
  {
    hide Obstructed, ValidShape, Decode, DigestOf, UpgradePermitted, HasPending;
  }

  lemma LookStuck(s: System, id: TargetId, x: EventInput)
    requires Stuck(s, id, x) && s.task.Projecting? && PlainResult(id.kind, x)
    ensures Stuck(Look(s), id, x)
  {
    hide Obstructed, Ensure, Observe;
    var t := s.task;
    if t.id == id && t.i >= |t.expected.events| {
      ObstructedNotObserved(id.kind, s.w.ledger, t.expected, x);
    }
  }

  lemma AckStuck(s: System, id: TargetId, x: EventInput)
    requires Stuck(s, id, x) && s.task.Reading?
    ensures Stuck(Ack(s), id, x)
  {
    hide Obstructed, Covers, HasPending;
  }

  lemma DbMoveStuck(s: System, op: Op, id: TargetId, x: EventInput)
    requires Stuck(s, id, x) && (op.AckTarget? ==> op.id != id)
    ensures Stuck(s.(w := s.w.(db := Step(s.w.db, op))), id, x)
  {
    hide Obstructed, Covers, HasPending, Decode, DigestOf, UpgradePermitted, ValidExpectation;
  }

  lemma MoveStuck(s: System, m: Move, resolve: TargetId -> Resolution, id: TargetId, x: EventInput)
    requires Stuck(s, id, x) && LeavesFile(m, id) && Expects(resolve(id), x) && PlainResult(id.kind, x)
    ensures Stuck(Perform(s, m, resolve), id, x)
  {
    hide Obstructed, Take, Look, Ack, PlainResult, Expects, Step;
    match m
    case DbMove(op) => DbMoveStuck(s, op, id, x);
    case LiveAppend(e) => ObstructedStays(s.w.ledger, s.w.ledger + [e], x);
    case DrainStep =>
      match s.task {
        case Between(_) => TakeStuck(s, resolve, id, x);
        case Projecting(_, _, _, _, _, _) => LookStuck(s, id, x);
        case Appending(_, _, _, _, _, _, e) => ObstructedStays(s.w.ledger, s.w.ledger + [e], x);
        case Reading(_, _, _, _, _) => AckStuck(s, id, x);
        case Idle =>
      }
    case _ =>
  }

  /** Once obstructed, the target of the result stays pending in every run, however many drains it has, until the file
      is replaced. */
  lemma {:induction false} StuckAlongRuns(s: System, moves: seq<Move>, resolve: TargetId -> Resolution, id: TargetId,
                                          x: EventInput)
    requires Stuck(s, id, x) && Expects(resolve(id), x) && PlainResult(id.kind, x)
    requires forall i | 0 <= i < |moves| :: LeavesFile(moves[i], id)
    ensures Stuck(PerformAll(s, moves, resolve), id, x)
    decreases |moves|
  {
    hide Stuck, Perform, Expects, PlainResult, LeavesFile;
    if moves != [] {
      MoveStuck(s, moves[0], resolve, id, x);
      StuckAlongRuns(Perform(s, moves[0], resolve), moves[1..], resolve, id, x);
    }
  }

  // ---------------------------------------------------------------- the three ways

  const RESULT: EventInput :=
    EventInput("tool_result", Some(2),
               map["toolUseId" := Str("u"), "stepId" := Str("s"), "turnId" := Str("t"), "requestId" := Str("r"),
                   "result" := Obj(map[])])

  function Diagnostic(p: Payload): EventRecord {
    EventRecord("tool_result", Some(2), p["diagnosticType" := Str("dispatch")], false)
  }

  lemma DiagnosticObstructs(p: Payload)
    requires SameProjectionIdentity(Diagnostic(p), RESULT)
    ensures Obstructed([Diagnostic(p)], RESULT) && InSlot([Diagnostic(p)], ResultSlot(Some(Str("u")))) == []
  {
    assert [Diagnostic(p)][1..] == [];
  }

  lemma ResultCanonical()
    ensures CanonicalForm(Obligated("tool-result", RESULT, "tool_result:u")) && PlainResult("tool-result", RESULT)
  {
    assert ProjectedPayload("tool-result", RESULT) == RESULT.payload;
    assert "tool_result" + ":" + "u" == "tool_result:u";
  }

  /** A result whose identity is free, and a ledger of one diagnostic that keeps it from ever being acknowledged: a
      diagnostic of the same tool use, one of the same request and attempt that names no tool use, and one of the same
      turn that names neither. */
  lemma ThreeObstructions()
    ensures CanonicalForm(Obligated("tool-result", RESULT, "tool_result:u")) && PlainResult("tool-result", RESULT)
    ensures forall p | p in [map["toolUseId" := Str("u")], map["requestId" := Str("r")], map["turnId" := Str("t")]] ::
              Obstructed([Diagnostic(p)], RESULT) && InSlot([Diagnostic(p)], ResultSlot(Some(Str("u")))) == []
  {
    ResultCanonical();
    hide CanonicalForm, Obstructed, InSlot, PlainResult;
    DiagnosticObstructs(map["toolUseId" := Str("u")]);
    DiagnosticObstructs(map["requestId" := Str("r")]);
    DiagnosticObstructs(map["turnId" := Str("t")]);
  }
}
