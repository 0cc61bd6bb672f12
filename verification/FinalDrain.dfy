/** When a drain that is not interrupted acknowledges everything. */
module FinalDrain {
  import opened Json
  import opened EventSchema
  import opened ProjectionCompatibility
  import opened Readiness
  import opened Outbox
  import opened Projector
  import opened Images
  import opened Drain
  import opened ExactlyOnce

  // ---------------------------------------------------------------- coherent obligations

  /** One expected event of one target. */
  datatype Obligated = Obligated(kind: string, x: EventInput, id: string)

  /** The event has the shape the canonical builder gives it: a consumer takes it over unchanged. */
  predicate WellFormed(o: Obligated) {
    && Dispatched(o.kind, o.x.typ) && ValidInput(o.kind, o.x) && WellStaged(o.kind, o.x)
    && ProjectedPayload(o.kind, o.x) == o.x.payload
  }

  /** Well formed, of a schema version readers support, and with the identity its target promises. */
  predicate CanonicalForm(o: Obligated) {
    WellFormed(o) && Supported(RecordOf(o.x)) && IdentityText(o.x.typ, o.x.payload) == Some(o.id)
  }

  /** The consumer of the obligation looks at this ledger event. */
  predicate Touches(o: Obligated, e: EventRecord) {
    || EventSlot(e) == Wanted(o.kind, o.x)
    || (o.x.typ == "turn_end" && EventSlot(e) == Some(StartSlot(TurnOf(o.x))))
    || (o.kind == "request-final-context"
        && EventSlot(e) == Some(ContextSlot(Field(o.x.payload, "requestId"), Field(o.x.payload, "attempt"))))
  }

  /** A ledger event is either another identity, for the consumer as well as for the read-back, or an acceptable
      image. */
  predicate Fits(o: Obligated, e: EventRecord) {
    && (Touches(o, e) ==> !e.unsupported)
    && (EventSlot(e) == Wanted(o.kind, o.x) <==> SameProjectionIdentity(e, o.x))
    && (EventSlot(e) == Wanted(o.kind, o.x) ==>
          && Accepted(o.kind, o.x, e) && ObservedMatches(o.kind, e, o.x)
          && IdentityText(e.typ, e.payload) == Some(o.id)
          && ProjectionEventMatches(o.kind, o.x, ObservedInput(e)))
  }

  /** The targets do not contradict each other. */
  ghost predicate Coherent(os: set<Obligated>) {
    && (forall o | o in os :: CanonicalForm(o))
    && (forall o, p | o in os && p in os && o != p :: Fits(o, Appended(p.kind, p.x)))
  }

  /** The ledger does not contradict the targets, and holds no end of an expected turn without its start. */
  ghost predicate Consistent(os: set<Obligated>, ledger: seq<EventRecord>) {
    && AtMostOnce(ledger)
    && (forall o, e | o in os && e in ledger :: Fits(o, e))
    && (forall o | o in os && o.x.typ == "turn_start" && InSlot(ledger, EndSlot(TurnOf(o.x))) != [] ::
          InSlot(ledger, StartSlot(TurnOf(o.x))) != [])
  }

  // ---------------------------------------------------------------- a consumer accepts what it appends

  lemma TurnNamed(o: Obligated)
    requires WellFormed(o) && (o.x.typ == "turn_start" || o.x.typ == "turn_end")
    ensures "turnId" in o.x.payload && o.x.payload.Keys <= {"turnId", "reason"}
  {
  }

  lemma SelfSlot(o: Obligated)
    requires WellFormed(o)
    ensures EventSlot(Appended(o.kind, o.x)) == Wanted(o.kind, o.x)
        && SameProjectionIdentity(Appended(o.kind, o.x), o.x)
    ensures !Appended(o.kind, o.x).unsupported && Supported(Appended(o.kind, o.x))
        && Appended(o.kind, o.x).payload == o.x.payload
  {
    hide ProjectedPayload;
    if o.x.typ == "turn_start" || o.x.typ == "turn_end" {
      TurnNamed(o);
    }
  }

  lemma OwnResultMatches(x: EventInput)
    ensures ToolResultCompatible(x.payload, x.payload)
  {
    if "result" in x.payload && x.payload["result"].Obj? {
      var result := x.payload["result"].fields;
      assert WithoutLiveDiagnostics(result, result) == result;
      assert x.payload["result" := Obj(result)] == x.payload;
    }
  }

  lemma SelfAccepted(o: Obligated)
    requires WellFormed(o)
    ensures Accepted(o.kind, o.x, Appended(o.kind, o.x))
  {
    hide ValidInput, ProjectedPayload;
    var e := Appended(o.kind, o.x);
    SelfSlot(o);
    OwnResultMatches(o.x);
    assert "turnId" !in o.x.payload ==> e.payload - {"turnId"} == e.payload;
    if o.x.typ == "turn_end" {
      TerminalPayload(o);
    }
  }

  lemma TerminalPayload(o: Obligated)
    requires WellFormed(o) && o.x.typ == "turn_end"
    ensures TerminalMatches(o.x.payload, o.x.payload)
  {
    assert o.x.payload.Keys == {"turnId", "reason"};
  }

  lemma SelfObserved(o: Obligated)
    requires WellFormed(o) && Supported(RecordOf(o.x))
    ensures ObservedMatches(o.kind, Appended(o.kind, o.x), o.x)
    ensures ProjectionEventMatches(o.kind, o.x, ObservedInput(Appended(o.kind, o.x)))
  {
    hide ValidInput, ProjectedPayload, ToolResultCompatible, TerminalMatches, IsToolCallKind;
    SelfSlot(o);
    OwnResultMatches(o.x);
    KindOfTyp(o);
    if o.x.typ == "turn_end" {
      TerminalPayload(o);
    }
  }

  lemma KindOfTyp(o: Obligated)
    requires Dispatched(o.kind, o.x.typ)
    ensures o.kind == "tool-result" <==> o.x.typ == "tool_result"
    ensures IsToolCallKind(o.kind) <==> o.x.typ == "tool_call"
  {
    assert "tool-call:"[5] == 'c' && "tool-call:"[0] == 't';
    assert "tool-result"[..10][5] == 'r';
    assert "request-retry"[..10][0] == 'r' && "request-usage"[..10][0] == 'r'
        && "request-final-context"[..10][0] == 'r';
    assert "request-projection"[..10][0] == 'r' && "invocation-terminal"[..10][0] == 'i';
  }

  /** What a consumer appends for an event in canonical form is an acceptable image of it. */
  lemma SelfFit(o: Obligated)
    requires CanonicalForm(o)
    ensures Fits(o, Appended(o.kind, o.x))
  {
    hide ProjectedPayload, ValidInput, Accepted, ObservedMatches, ProjectionEventMatches, Appended;
    SelfSlot(o);
    SelfAccepted(o);
    SelfObserved(o);
  }

  function TurnOf(x: EventInput): Option<Json> {
    Field(x.payload, "turnId")
  }

  /** Every expected turn end finds its turn start in the ledger or before it in the list. */
  predicate StartsFirst(ledger: seq<EventRecord>, xs: seq<EventInput>) {
    forall i | 0 <= i < |xs| && xs[i].typ == "turn_end" ::
      InSlot(ledger, StartSlot(TurnOf(xs[i]))) != []
          || exists j :: 0 <= j < i && xs[j].typ == "turn_start" && TurnOf(xs[j]) == TurnOf(xs[i])
  }

  lemma TouchedSupported(os: set<Obligated>, ledger: seq<EventRecord>, o: Obligated, slot: Slot)
    requires Consistent(os, ledger) && o in os
    requires || Some(slot) == Wanted(o.kind, o.x)
             || (o.x.typ == "turn_end" && slot == StartSlot(TurnOf(o.x)))
             || (o.kind == "request-final-context"
                 && slot == ContextSlot(Field(o.x.payload, "requestId"), Field(o.x.payload, "attempt")))
    ensures !AnyUnsupported(InSlot(ledger, slot)) && |InSlot(ledger, slot)| <= 1
  {
    hide Accepted, ObservedMatches, ProjectionEventMatches, IdentityText, SameProjectionIdentity, Wanted;
    var found := InSlot(ledger, slot);
    forall i | 0 <= i < |found| ensures !found[i].unsupported {
      assert Fits(o, found[i]);
      assert Touches(o, found[i]);
    }
  }

  lemma EnsureAccepts(os: set<Obligated>, ledger: seq<EventRecord>, o: Obligated)
    requires Coherent(os) && Consistent(os, ledger) && o in os
    requires o.x.typ == "turn_end" ==> InSlot(ledger, StartSlot(TurnOf(o.x))) != []
    ensures Ensure(o.kind, ledger, o.x) != Rejected
  {
    hide Accepted, ValidInput, ProjectedPayload, SameProjectionIdentity, ObservedMatches, ProjectionEventMatches,
        IdentityText, Supported,
         Wanted, AtMostOnce, AnyUnsupported;
    assert CanonicalForm(o);
    DispatchedWanted(o);
    var matching := InSlot(ledger, Wanted(o.kind, o.x).value);
    TouchedSupported(os, ledger, o, Wanted(o.kind, o.x).value);
    if o.x.typ == "turn_end" {
      TouchedSupported(os, ledger, o, StartSlot(TurnOf(o.x)));
    }
    if o.kind == "request-final-context" {
      TouchedSupported(os, ledger, o, ContextSlot(Field(o.x.payload, "requestId"), Field(o.x.payload, "attempt")));
    }
    if |matching| == 1 {
      assert Fits(o, matching[0]);
    } else if o.x.typ == "turn_start" {
      StartWanted(o);
      assert InSlot(ledger, EndSlot(TurnOf(o.x))) == [];
    }
  }

  lemma AppendKeepsConsistent(os: set<Obligated>, ledger: seq<EventRecord>, o: Obligated)
    requires Coherent(os) && Consistent(os, ledger) && o in os && Ensure(o.kind, ledger, o.x).Append?
    ensures Consistent(os, ledger + [Ensure(o.kind, ledger, o.x).event])
  {
    hide ValidInput, ProjectedPayload, Fits, IdentityText, Supported;
    var e := Ensure(o.kind, ledger, o.x).event;
    var longer := ledger + [e];
    assert CanonicalForm(o);
    EnsureKeepsAtMostOnce(o.kind, ledger, o.x);
    forall p, f | p in os && f in longer ensures Fits(p, f) {
      assert f in ledger || f == Appended(o.kind, o.x);
      if p == o {
        SelfFit(o);
      }
    }
    forall p | p in os && p.x.typ == "turn_start" && InSlot(longer, EndSlot(TurnOf(p.x))) != []
      ensures InSlot(longer, StartSlot(TurnOf(p.x))) != []
    {
      var turn := TurnOf(p.x);
      InSlotAppend(ledger, e, EndSlot(turn));
      InSlotAppend(ledger, e, StartSlot(turn));
      if InSlot(ledger, EndSlot(turn)) == [] {
        AppendedEnd(o, ledger, turn);
      }
    }
  }

  /** A turn end is only appended behind its start. */
  lemma AppendedEnd(o: Obligated, ledger: seq<EventRecord>, turn: Option<Json>)
    requires WellFormed(o) && Ensure(o.kind, ledger, o.x).Append?
        && EventSlot(Ensure(o.kind, ledger, o.x).event) == Some(EndSlot(turn))
    ensures InSlot(ledger, StartSlot(turn)) != []
  {
    hide ValidInput, ProjectedPayload;
  }

  lemma {:induction false} EnsureAllAccepts(os: set<Obligated>, kind: string, ledger: seq<EventRecord>,
                                            xs: seq<EventInput>, ids: seq<string>, steps: nat)
    requires Coherent(os) && Consistent(os, ledger) && StartsFirst(ledger, xs) && |xs| == |ids| && steps >= |xs|
    requires forall i | 0 <= i < |xs| :: Obligated(kind, xs[i], ids[i]) in os
    ensures var r := EnsureAll(kind, ledger, xs, steps);
            r.outcome == Finished && Consistent(os, r.ledger) && r.steps >= steps - |xs|
    decreases |xs|
  {
    hide Ensure, Coherent, Consistent, InSlot;
    if xs != [] {
      var o := Obligated(kind, xs[0], ids[0]);
      EnsureAccepts(os, ledger, o);
      var ledger', steps' := ledger, steps;
      if Ensure(kind, ledger, xs[0]).Append? {
        AppendKeepsConsistent(os, ledger, o);
        ledger', steps' := ledger + [Ensure(kind, ledger, xs[0]).event], steps - 1;
      }
      CanonicalMember(os, o);
      if xs[0].typ == "turn_start" {
        StartIsFilled(o, ledger, ledger');
      }
      StartsStayFirst(ledger, ledger', xs);
      assert forall i | 0 <= i < |xs| - 1 :: xs[1..][i] == xs[i + 1] && ids[1..][i] == ids[i + 1];
      EnsureAllAccepts(os, kind, ledger', xs[1..], ids[1..], steps');
    }
  }

  /** After the consumer has run, the start it was asked for is there. */
  lemma StartIsFilled(o: Obligated, ledger: seq<EventRecord>, ledger': seq<EventRecord>)
    requires WellFormed(o) && o.x.typ == "turn_start" && Ensure(o.kind, ledger, o.x) != Rejected
    requires ledger' == if Ensure(o.kind, ledger, o.x).Append? then ledger + [Ensure(o.kind, ledger, o.x).event]
        else ledger
    ensures InSlot(ledger', StartSlot(TurnOf(o.x))) != []
  {
    hide Ensure, ValidInput, ProjectedPayload, Wanted, InSlot;
    StartWanted(o);
    if Ensure(o.kind, ledger, o.x).Append? {
      AppendMeansFilled(o.kind, ledger, o.x);
    } else {
      PresentMeansFilled(o.kind, ledger, o.x);
    }
  }

  lemma StartsStayFirst(ledger: seq<EventRecord>, ledger': seq<EventRecord>, xs: seq<EventInput>)
    requires xs != [] && StartsFirst(ledger, xs) && ledger <= ledger'
    requires xs[0].typ == "turn_start" ==> InSlot(ledger', StartSlot(TurnOf(xs[0]))) != []
    ensures StartsFirst(ledger', xs[1..])
  {
    hide InSlot;
    forall i | 0 <= i < |xs| - 1 && xs[1..][i].typ == "turn_end"
      ensures || InSlot(ledger', StartSlot(TurnOf(xs[1..][i]))) != []
              || exists j :: 0 <= j < i && xs[1..][j].typ == "turn_start" && TurnOf(xs[1..][j]) == TurnOf(xs[1..][i])
    {
      var slot := StartSlot(TurnOf(xs[i + 1]));
      if InSlot(ledger, slot) != [] {
        SlotStaysOccupied(ledger, ledger', slot);
      } else {
        var j :| 0 <= j < i + 1 && xs[j].typ == "turn_start" && TurnOf(xs[j]) == TurnOf(xs[i + 1]);
        if j > 0 {
          assert xs[1..][j - 1] == xs[j];
        }
      }
    }
  }

  lemma CanonicalMember(os: set<Obligated>, o: Obligated)
    requires Coherent(os) && o in os
    ensures CanonicalForm(o)
  {
  }

  lemma DispatchedWanted(o: Obligated)
    requires WellFormed(o)
    ensures Wanted(o.kind, o.x).Some?
  {
  }

  lemma StartWanted(o: Obligated)
    requires WellFormed(o) && o.x.typ == "turn_start"
    ensures Wanted(o.kind, o.x) == Some(StartSlot(TurnOf(o.x)))
  {
  }

  // ---------------------------------------------------------------- reading back and acknowledging

  lemma {:induction false} SlotWitness(ledger: seq<EventRecord>, slot: Slot) returns (e: EventRecord)
    requires InSlot(ledger, slot) != []
    ensures e in ledger && EventSlot(e) == Some(slot)
  {
    e := InSlot(ledger, slot)[0];
  }

  /** A consistent ledger that holds the slot of `o` is read back as an acceptable image of `o`. */
  lemma ReadBack(os: set<Obligated>, ledger: seq<EventRecord>, o: Obligated)
    requires Consistent(os, ledger) && o in os && SlotFilled(o.kind, ledger, o.x)
    ensures ObservedAt(o.kind, ledger, o.x, o.id)
    ensures FirstSame(ledger, o.x).Some? && ProjectionEventMatches(o.kind, o.x,
          ObservedInput(FirstSame(ledger, o.x).value))
  {
    hide Wanted, Accepted, SameProjectionIdentity, ObservedMatches, ProjectionEventMatches, IdentityText, InSlot,
        AtMostOnce;
    var e := SlotWitness(ledger, Wanted(o.kind, o.x).value);
    assert Fits(o, e);
    var found := FirstSame(ledger, o.x);
    assert found.Some?;
    assert Fits(o, found.value);
  }

  /** A legacy row whose material canonical History may replace by the target's. */
  predicate Upgradable(db: Db, id: TargetId, t: Target)
    requires id in db.outbox
  {
    && Decode(db.outbox[id].payload).Ok? && Decode(db.outbox[id].payload).value.LegacyPayload?
    && id.location in db.rows && id.location.sessionId == t.sessionId
        && db.rows[id.location].sessionGeneration == t.sessionGeneration
    && HistoryKey(id.canonicalEventId, t.sessionId) in db.history
    && UpgradePermitted(t, Decode(db.outbox[id].payload).value.events, Decode(db.outbox[id].payload).value.ids,
                        db.history[HistoryKey(id.canonicalEventId, t.sessionId)])
  }

  /** A target whose material is the stored one, or a permitted upgrade of it, and whose events are among the
      obligations. */
  ghost predicate Resolvable(os: set<Obligated>, db: Db, id: TargetId, resolution: Resolution) {
    && resolution.Found? && id in db.outbox
    && var t, row := resolution.target, db.outbox[id];
    && SameTarget(id, row, t) && ValidExpectation(|t.events|, t.ids) && ValidShape(id.kind, t.events)
    && ((Decode(row.payload).Ok? && row.payload.digest == DigestOf(t.events, t.ids)) || Upgradable(db, id, t))
    && StartsFirst([], t.events)
    && (forall i | 0 <= i < |t.events| :: Obligated(id.kind, t.events[i], t.ids[i]) in os)
  }

  lemma StartsFirstAnywhere(ledger: seq<EventRecord>, xs: seq<EventInput>)
    requires StartsFirst([], xs)
    ensures StartsFirst(ledger, xs)
  {
  }

  lemma ObligationOfResolved(row: OutboxRow, t: Target)
    requires Decode(row.payload).Ok? && row.payload.digest == DigestOf(t.events, t.ids)
        && ValidExpectation(|t.events|, t.ids)
    ensures Obligation(row, Some(Expectation(t.events, t.ids))) == Some(Expectation(t.events, t.ids))
  {
    if Decode(row.payload).value.LegacyPayload? {
      var objects := Decode(row.payload).value.events;
      assert objects == EventObjects(t.events);
      forall i | 0 <= i < |t.events| ensures TypedEvent(objects[i]) == Some(t.events[i]) {
        TypedEventOfObject(t.events[i]);
      }
      assert TypedEvents(objects).value == t.events;
    }
  }

  /** The material of a target whose events are all among the obligations. */
  ghost predicate Obliged(os: set<Obligated>, kind: string, t: Target) {
    && ValidExpectation(|t.events|, t.ids) && ValidShape(kind, t.events) && StartsFirst([], t.events)
    && (forall i | 0 <= i < |t.events| :: Obligated(kind, t.events[i], t.ids[i]) in os)
  }

  lemma ProjectSucceeds(os: set<Obligated>, kind: string, t: Target, ledger: seq<EventRecord>, steps: nat)
    requires Coherent(os) && Consistent(os, ledger) && Obliged(os, kind, t) && steps >= |t.events|
    ensures var (applied, observed) := Project(kind, ledger, Expectation(t.events, t.ids), steps);
            && applied.outcome == Finished && applied.steps >= steps - |t.events| && Consistent(os, applied.ledger)
            && observed.Some? && observed.value.ids == t.ids
            && ProjectionEventsMatch(kind, t.events, observed.value.events)
  {
    hide Ensure, Coherent, Consistent, ObservedAt, ProjectionEventMatches, SlotFilled;
    StartsFirstAnywhere(ledger, t.events);
    EnsureAllAccepts(os, kind, ledger, t.events, t.ids, steps);
    forall i | 0 <= i < |t.events| ensures WellStaged(kind, t.events[i]) {
      CanonicalMember(os, Obligated(kind, t.events[i], t.ids[i]));
    }
    EnsureAllFills(kind, ledger, t.events, steps);
    var final := EnsureAll(kind, ledger, t.events, steps).ledger;
    forall i | 0 <= i < |t.events|
      ensures ObservedAt(kind, final, t.events[i], t.ids[i])
      ensures FirstSame(final, t.events[i]).Some?
      ensures ProjectionEventMatches(kind, t.events[i], ObservedInput(FirstSame(final, t.events[i]).value))
    {
      ReadBack(os, final, Obligated(kind, t.events[i], t.ids[i]));
    }
  }

  /** The row is prepared, with or without an upgrade, and then holds the digest of the target. */
  lemma PrepareResolvable(os: set<Obligated>, db: Db, id: TargetId, resolution: Resolution)
    requires Resolvable(os, db, id, resolution)
    ensures var t, p := resolution.target, Prepare(db, id, resolution);
            && p.Apply? && p.expected == Expectation(t.events, t.ids) && p.canonical == Some(p.expected)
            && id in p.db.outbox && Decode(p.db.outbox[id].payload).Ok?
                && p.db.outbox[id].payload.digest == DigestOf(t.events, t.ids)
  {
    hide StartsFirst, ValidShape, UpgradePermitted, DigestOf;
    var t, row := resolution.target, db.outbox[id];
    if DigestOf(t.events, t.ids) != row.payload.digest {
      assert Upgradable(db, id, t);
      assert Enqueue(db, t).Ok?;
      DecodeRoundTrip(row.payload, t.events, [], t.ids);
    }
  }

  /** Preparing and acknowledging leave History and the provenance of every location alone. */
  predicate SameContext(db: Db, db': Db) {
    && db'.history == db.history && db'.rows.Keys == db.rows.Keys
    && (forall key | key in db.rows :: db'.rows[key].sessionGeneration == db.rows[key].sessionGeneration)
  }

  lemma PrepareContext(db: Db, id: TargetId, resolution: Resolution)
    requires id in db.outbox && Prepare(db, id, resolution).Apply?
    ensures SameContext(db, Prepare(db, id, resolution).db)
  {
    hide Decode, Reconciled, DigestOf;
  }

  lemma AcknowledgeContext(db: Db, id: TargetId, observed: Expectation, canonical: Option<Expectation>)
    ensures SameContext(db, Acknowledge(db, id, observed, canonical).0)
  {
    hide Covers, HasPending;
  }

  lemma HandleContext(w: World, id: TargetId, resolution: Resolution, steps: nat)
    requires id in w.db.outbox
    ensures SameContext(w.db, Handle(w, id, resolution, steps).world.db)
  {
    hide Prepare, Acknowledge, Project;
    if Prepare(w.db, id, resolution).Apply? {
      PrepareContext(w.db, id, resolution);
      var prepared := Prepare(w.db, id, resolution);
      var left := if prepared.wrote && steps > 0 then steps - 1 else steps;
      var (applied, observed) := Project(id.kind, w.ledger, prepared.expected, left);
      if observed.Some? {
        AcknowledgeContext(prepared.db, id, observed.value, prepared.canonical);
      }
    }
  }

  lemma HandleAcknowledges(os: set<Obligated>, w: World, id: TargetId, resolution: Resolution, steps: nat)
    requires Coherent(os) && Consistent(os, w.ledger) && Resolvable(os, w.db, id, resolution)
        && steps > |resolution.target.events| + 1
    ensures var h := Handle(w, id, resolution, steps);
            h.verdict == Acknowledged && Consistent(os, h.world.ledger)
                && h.steps >= steps - |resolution.target.events| - 2
  {
    hide Coherent, Consistent, Resolvable, Prepare, Obliged, Project, ProjectionEventsMatch, Decode, Acknowledge;
    ResolvedFound(os, w.db, id, resolution);
    var t, p := resolution.target, Prepare(w.db, id, resolution);
    PrepareResolvable(os, w.db, id, resolution);
    ResolvableObliged(os, w.db, id, resolution);
    var left := if p.wrote then steps - 1 else steps;
    ProjectSucceeds(os, id.kind, t, w.ledger, left);
    ObligationOfResolved(p.db.outbox[id], t);
    CoveredIsAcknowledged(p.db, id, Project(id.kind, w.ledger, p.expected, left).1.value, p.expected);
  }

  lemma ResolvableObliged(os: set<Obligated>, db: Db, id: TargetId, resolution: Resolution)
    requires Resolvable(os, db, id, resolution)
    ensures Obliged(os, id.kind, resolution.target)
  {
  }

  lemma CoveredIsAcknowledged(db: Db, id: TargetId, observed: Expectation, expected: Expectation)
    requires id in db.outbox && Obligation(db.outbox[id], Some(expected)) == Some(expected)
    requires observed.ids == expected.ids && ProjectionEventsMatch(id.kind, expected.events, observed.events)
    ensures Acknowledge(db, id, observed, Some(expected)).1
  {
    hide Obligation, ProjectionEventsMatch, HasPending;
  }

  /** Durable effects an uninterrupted drain may need: for each target an upgrade, every append, and the
      acknowledgement. */
  function Cost(ids: seq<TargetId>, resolve: TargetId -> Resolution): nat {
    if ids == [] then 0
    else (if resolve(ids[0]).Found? then |resolve(ids[0]).target.events| else 0) + 2 + Cost(ids[1..], resolve)
  }

  lemma ResolvableStays(os: set<Obligated>, db: Db, db': Db, id: TargetId, resolution: Resolution)
    requires Resolvable(os, db, id, resolution) && SameContext(db, db') && id in db'.outbox
        && db'.outbox[id] == db.outbox[id]
    ensures Resolvable(os, db', id, resolution)
  {
    hide ValidShape, StartsFirst, UpgradePermitted, Decode, SameTarget;
  }

  /** A drain that is not interrupted acknowledges every pending target, when all of them resolve to their stored
      material or to a permitted upgrade of it, and neither the targets nor the ledger contradict each other. */
  lemma {:induction false} FinalDrainAcksAll(os: set<Obligated>, w: World, ids: seq<TargetId>,
                                             resolve: TargetId -> Resolution, steps: nat)
    requires Coherent(os) && Consistent(os, w.ledger) && Distinct(ids) && steps >= Cost(ids, resolve)
    requires forall i | 0 <= i < |ids| :: ids[i] in w.db.outbox && Resolvable(os, w.db, ids[i], resolve(ids[i]))
    ensures var r := DrainList(w, ids, resolve, steps);
            r.projected == |ids| && r.failed == None && r.missing == [] && !r.stopped && Consistent(os, r.world.ledger)
    decreases |ids|
  {
    hide Handle, Coherent, Consistent, Resolvable, SameContext;
    if ids != [] {
      ResolvedFound(os, w.db, ids[0], resolve(ids[0]));
      var h := Handle(w, ids[0], resolve(ids[0]), steps);
      HandleAcknowledges(os, w, ids[0], resolve(ids[0]), steps);
      HandleEffect(w, ids[0], resolve(ids[0]), steps);
      HandleContext(w, ids[0], resolve(ids[0]), steps);
      var rest := ids[1..];
      forall i | 0 <= i < |rest|
        ensures rest[i] in h.world.db.outbox && Resolvable(os, h.world.db, rest[i], resolve(rest[i]))
      {
        assert rest[i] == ids[i + 1];
        assert h.world.db.outbox[rest[i]] == w.db.outbox[rest[i]];
        ResolvableStays(os, w.db, h.world.db, rest[i], resolve(rest[i]));
      }
      assert Distinct(rest) by {
        assert forall i | 0 <= i < |rest| :: rest[i] == ids[i + 1];
      }
      FinalDrainAcksAll(os, h.world, rest, resolve, h.steps);
    }
  }

  lemma ResolvedFound(os: set<Obligated>, db: Db, id: TargetId, resolution: Resolution)
    requires Resolvable(os, db, id, resolution)
    ensures resolution.Found? && id in db.outbox
  {
  }

  // ---------------------------------------------------------------- coherent targets exist

  /** A request event does not name a tool use, which the read-back would take for its identity. */
  predicate NamesNoTool(o: Obligated) {
    o.x.typ != "tool_call" && o.x.typ != "tool_result" ==> "toolUseId" !in o.x.payload
  }

  lemma DistinctSlotsFit(o: Obligated, p: Obligated)
    requires CanonicalForm(o) && CanonicalForm(p) && NamesNoTool(o) && NamesNoTool(p)
        && Wanted(o.kind, o.x) != Wanted(p.kind, p.x)
    ensures Fits(o, Appended(p.kind, p.x))
  {
    hide ProjectedPayload, Supported, IdentityText, Accepted, ObservedMatches, ProjectionEventMatches, Appended,
        IsToolCallKind;
    SelfSlot(p);
    DistinctSlotsDiffer(o, p);
  }

  lemma ResultPlain(o: Obligated)
    requires WellFormed(o) && o.x.typ == "tool_result"
    ensures "diagnosticType" !in o.x.payload
  {
  }

  /** Events of different slots have different identities for the read-back too. */
  lemma DistinctSlotsDiffer(o: Obligated, p: Obligated)
    requires WellFormed(o) && WellFormed(p) && NamesNoTool(o) && NamesNoTool(p)
        && Wanted(o.kind, o.x) != Wanted(p.kind, p.x)
    ensures !SameProjectionIdentity(Appended(p.kind, p.x), o.x)
  {
    hide ProjectedPayload, IsToolCallKind, Supported;
    SelfSlot(p);
    if o.x.typ == "tool_result" {
      ResultPlain(o);
    }
    if p.x.typ == "tool_result" {
      ResultPlain(p);
    }
    if o.x.typ == "turn_start" || o.x.typ == "turn_end" {
      TurnNamed(o);
    }
    if p.x.typ == "turn_start" || p.x.typ == "turn_end" {
      TurnNamed(p);
    }
  }

  /** Targets in canonical form are coherent as soon as no two of their events claim the same identity, and then an
      empty ledger contradicts none of them. */
  lemma DistinctSlotsCoherent(os: set<Obligated>)
    requires forall o | o in os :: CanonicalForm(o) && NamesNoTool(o)
    requires forall o, p | o in os && p in os && o != p :: Wanted(o.kind, o.x) != Wanted(p.kind, p.x)
    ensures Coherent(os) && Consistent(os, [])
  {
    hide CanonicalForm, NamesNoTool, Wanted, Fits;
    forall o, p | o in os && p in os && o != p ensures Fits(o, Appended(p.kind, p.x)) {
      DistinctSlotsFit(o, p);
    }
  }

  const A_CALL: Obligated :=
    Obligated("tool-call:u",
              EventInput("tool_call", Some(2), map["toolUseId" := Str("u"), "stepId" := Str("s"), "name" := Str("n"),
                                                   "args" := Obj(map[])]),
              "tool_call:u")
  const A_RESULT: Obligated :=
    Obligated("tool-result", EventInput("tool_result", Some(2),
                                        map["toolUseId" := Str("u"), "stepId" := Str("s"), "result" := Obj(map[])]),
              "tool_result:u")
  const A_HEADER: Obligated :=
    Obligated("request-projection", EventInput("request_header", None,
                                               map["requestId" := Str("r"), "attempt" := Num(1)]), "request_header:r:1")
  const A_CONTEXT: Obligated :=
    Obligated("request-projection", EventInput("request_context", None,
                                               map["requestId" := Str("r"), "attempt" := Num(1)]),
              "request_context:r:1")
  const A_FINAL: Obligated :=
    Obligated("request-final-context",
              EventInput("request_context", None,
                         map["requestId" := Str("r"), "attempt" := Num(1), "turnId" := Str("t"),
                             "contextUsage" := Obj(map[]),
                             "projectionStage" := FINAL]),
              "request_context_final:r:1")
  const A_RETRY: Obligated :=
    Obligated("request-retry",
              EventInput("request_retry", None,
                         map["requestId" := Str("r"), "attempt" := Num(1), "code" := Str("c"), "backoffMs" := Num(0)]),
              "request_retry:r:1")
  const A_USAGE: Obligated :=
    Obligated("request-usage", EventInput("request_usage", None, map["requestId" := Str("r"), "usage" := Obj(map[])]),
              "request_usage:r")
  const A_START: Obligated := Obligated("invocation-terminal",
                                        EventInput("turn_start", None, map["turnId" := Str("t")]), "turn_start:t")
  const AN_END: Obligated :=
    Obligated("invocation-terminal", EventInput("turn_end", None,
                                                map["turnId" := Str("t"), "reason" := Str("completed")]), "turn_end:t")

  /** One event of every class, the nine kinds of slot. */
  const SAMPLES: seq<Obligated> := [A_CALL, A_RESULT, A_HEADER, A_CONTEXT, A_FINAL, A_RETRY, A_USAGE, A_START, AN_END]

  function SlotClass(slot: Slot): nat {
    match slot
    case CallSlot(_) => 0
    case ResultSlot(_) => 1
    case HeaderSlot(_, _) => 2
    case ContextSlot(_, _) => 3
    case FinalContextSlot(_, _) => 4
    case RetrySlot(_, _) => 5
    case UsageSlot(_) => 6
    case StartSlot(_) => 7
    case EndSlot(_) => 8
  }

  ghost predicate SampleOk(o: Obligated, i: nat) {
    CanonicalForm(o) && NamesNoTool(o) && Wanted(o.kind, o.x).Some? && SlotClass(Wanted(o.kind, o.x).value) == i
  }

  lemma CallOk()
    ensures SampleOk(A_CALL, 0)
  {
    assert "tool-call:u"[..10] == "tool-call:";
    assert ProjectedPayload(A_CALL.kind, A_CALL.x) == A_CALL.x.payload;
    assert "tool_call" + ":" + "u" == A_CALL.id;
  }

  lemma ResultOk()
    ensures SampleOk(A_RESULT, 1)
  {
    assert ProjectedPayload(A_RESULT.kind, A_RESULT.x) == A_RESULT.x.payload;
    assert "tool_result" + ":" + "u" == A_RESULT.id;
  }

  lemma HeaderOk()
    ensures SampleOk(A_HEADER, 2)
  {
    assert IntText(1) == "1";
    assert "request_header" + ":" + "r" + ":" + "1" == A_HEADER.id;
  }

  lemma ContextOk()
    ensures SampleOk(A_CONTEXT, 3)
  {
    assert IntText(1) == "1";
    assert "request_context" + ":" + "r" + ":" + "1" == A_CONTEXT.id;
  }

  lemma FinalOk()
    ensures SampleOk(A_FINAL, 4)
  {
    assert IntText(1) == "1";
    assert "request_context_final:" + "r" + ":" + "1" == A_FINAL.id;
    assert A_FINAL.x.payload["projectionStage" := FINAL] == A_FINAL.x.payload;
  }

  lemma RetryOk()
    ensures SampleOk(A_RETRY, 5)
  {
    assert IntText(1) == "1";
    assert "request_retry" + ":" + "r" + ":" + "1" == A_RETRY.id;
  }

  lemma UsageOk()
    ensures SampleOk(A_USAGE, 6)
  {
    assert "request_usage:" + "r" == A_USAGE.id;
  }

  lemma TurnsOk()
    ensures SampleOk(A_START, 7) && SampleOk(AN_END, 8)
  {
    assert "t"[0] == 't';
    assert "turn_start" + ":" + "t" == A_START.id;
    assert "turn_end" + ":" + "t" == AN_END.id;
  }

  /** An event of a newer program that no consumer looks at. */
  const NEWER: EventRecord := EventRecord("step_start", Some(7), map[], true)

  lemma NewerFits(o: Obligated)
    requires WellFormed(o)
    ensures Fits(o, NEWER)
  {
    hide ValidInput, ProjectedPayload, Accepted, ObservedMatches, ProjectionEventMatches, IdentityText, Wanted;
    DispatchedWanted(o);
  }

  lemma NewerConsistent(os: set<Obligated>)
    requires Coherent(os)
    ensures Consistent(os, [NEWER])
  {
    hide Fits, WellFormed;
    assert [NEWER][1..] == [];
    assert forall slot :: InSlot([NEWER], slot) == [];
    forall o | o in os ensures Fits(o, NEWER) {
      NewerFits(o);
    }
  }

  /** Each projection kind has targets that meet the conditions of the final drain, all of them together, over an empty
      ledger and over one with an event this program cannot interpret. */
  lemma OneOfEachKind(os: set<Obligated>)
    requires os == set i | 0 <= i < |SAMPLES| :: SAMPLES[i]
    ensures Coherent(os) && Consistent(os, []) && Consistent(os, [NEWER])
    ensures A_CALL in os && A_RESULT in os && A_HEADER in os && A_CONTEXT in os && A_FINAL in os && A_RETRY in os
        && A_USAGE in os
            && A_START in os && AN_END in os
  {
    CallOk();
    ResultOk();
    HeaderOk();
    ContextOk();
    FinalOk();
    RetryOk();
    UsageOk();
    TurnsOk();
    hide Wanted, CanonicalForm, Coherent, Consistent, SlotClass, NamesNoTool;
    assert forall i | 0 <= i < |SAMPLES| :: SampleOk(SAMPLES[i], i);
    DistinctSlotsCoherent(os);
    NewerConsistent(os);
    assert forall i | 0 <= i < |SAMPLES| :: SAMPLES[i] in os;
    assert SAMPLES[0] == A_CALL && SAMPLES[1] == A_RESULT && SAMPLES[2] == A_HEADER && SAMPLES[3] == A_CONTEXT
        && SAMPLES[4] == A_FINAL;
    assert SAMPLES[5] == A_RETRY && SAMPLES[6] == A_USAGE && SAMPLES[7] == A_START && SAMPLES[8] == AN_END;
  }

  // A row from before results carried a schema version, with the canonical event that permits its upgrade.
  const OLD_RESULT: EventInput := A_RESULT.x.(version := None)
  const PLACE: LocationKey := LocationKey("work", "session", 0)
  const UPGRADE: Target := Target(TargetId(PLACE, "event", "tool-result"), "session", "first", 0, [A_RESULT.x],
                                  [A_RESULT.id])
  const SIDECAR: Payload :=
    map["location" := Obj(map["workDir" := Str("work"), "sessionId" := Str("session"), "createdAt" := Num(0)]),
        "stepId" := Str("s"), "result" := Obj(map[])]
  const FINISHED: Canonical := Canonical(1, "tool-call-finished", "t",
                                         Obj(map["toolCallId" := Str("u"), "sessionLedger" := Obj(SIDECAR)]))
  const OLD_ROW: OutboxRow := OutboxRow("session", "first", 1, 0,
                                        EncodeLegacy([EventObject(OLD_RESULT)], [A_RESULT.id]), Pending)
  const OLD_DB: Db := Db(map[PLACE := LegacyRow("first")], map[UPGRADE.id := OLD_ROW],
                         map[HistoryKey("event", "session") := FINISHED])

  lemma SidecarNamesPlace()
    ensures SidecarLocation(SIDECAR) == Some(PLACE)
  {
    assert "work"[0] == 'w' && "session"[0] == 's';
  }

  lemma OldRowDecodes()
    ensures Decode(OLD_ROW.payload) == Ok(LegacyPayload([EventObject(OLD_RESULT)], [A_RESULT.id]))
    ensures OLD_ROW.payload.digest != DigestOf(UPGRADE.events, UPGRADE.ids)
  {
    assert [A_RESULT.id][0] == A_RESULT.id && |A_RESULT.id| > 0;
    DecodeRoundTrip(OLD_ROW.payload, [], [EventObject(OLD_RESULT)], [A_RESULT.id]);
    assert EventObjects(UPGRADE.events)[0] == EventObject(A_RESULT.x);
    assert "schemaVersion" in EventObject(A_RESULT.x) && "schemaVersion" !in EventObject(OLD_RESULT);
    assert [EventObject(OLD_RESULT)][0] == EventObject(OLD_RESULT);
  }

  lemma OldRowUpgradable()
    ensures Upgradable(OLD_DB, UPGRADE.id, UPGRADE)
  {
    OldRowDecodes();
    SidecarNamesPlace();
    TypedEventOfObject(OLD_RESULT);
    hide Decode, SidecarLocation, TypedEvent;
    assert "tool_result:" + "u" == A_RESULT.id;
    assert EventMatches(RecordOf(OLD_RESULT), RecordOf(A_RESULT.x));
    assert ResultSchemaUpgrade(UPGRADE, [EventObject(OLD_RESULT)], [A_RESULT.id], FINISHED);
  }

  /** A pending row of the old form, whose stored material is not the canonical one, is upgraded and acknowledged. */
  lemma OldRowIsAcknowledged(resolve: TargetId -> Resolution)
    requires resolve(UPGRADE.id) == Found(UPGRADE)
    ensures OLD_ROW.payload.digest != DigestOf(UPGRADE.events, UPGRADE.ids)
    ensures DrainList(World(OLD_DB, []), [UPGRADE.id], resolve, 3).projected == 1
  {
    OldRowDecodes();
    OldRowUpgradable();
    ResultOk();
    var os := {A_RESULT};
    var ids := [UPGRADE.id];
    hide Handle, Upgradable, CanonicalForm, Decode, DrainList;
    DistinctSlotsCoherent(os);
    hide Coherent, Consistent;
    assert ids[1..] == [];
    assert Cost(ids, resolve) == 3 + Cost(ids[1..], resolve);
    assert Obligated(UPGRADE.id.kind, UPGRADE.events[0], UPGRADE.ids[0]) == A_RESULT;
    assert |A_RESULT.id| > 0;
    assert Resolvable(os, OLD_DB, UPGRADE.id, resolve(UPGRADE.id));
    FinalDrainAcksAll(os, World(OLD_DB, []), ids, resolve, 3);
  }
}
