/** Exactly-once projection: what holds over every schedule of enqueues, live appends, crashes and the single steps of
    drains at one location. */
module ExactlyOnce {
  import opened Json
  import opened EventSchema
  import opened Readiness
  import opened Outbox
  import opened LedgerStore
  import opened Projector
  import opened Images
  import opened Drain

  // ---------------------------------------------------------------- the invariant

  /** No identity is in the ledger twice, and the ledger holds every event of every acknowledged target. */
  ghost predicate OnceInv(w: World, key: LocationKey) {
    && AtMostOnce(w.ledger)
    && forall id | id in w.db.outbox && id.location == key && w.db.outbox[id].status == Acked ::
         Projected(id.kind, w.ledger, w.db.outbox[id].payload.digest)
  }

  /** The resolver is installed and yields targets as the canonical builder stages them. */
  ghost predicate CanonicalResolver(resolve: TargetId -> Resolution) {
    forall id :: CanonicalResolution(id, resolve(id))
  }

  predicate CanonicalResolution(id: TargetId, resolution: Resolution) {
    resolution != NoResolver && (resolution.Found? ==> AllWellStaged(id.kind, resolution.target.events))
  }

  // ---------------------------------------------------------------- drains

  /** An initial context is never equal to a final one. */
  lemma InitialIsNotFinal(initial: seq<EventRecord>, slot: Slot, x: EventInput)
    requires slot.ContextSlot? && Field(x.payload, "projectionStage") == Some(FINAL)
    requires forall i | 0 <= i < |initial| :: EventSlot(initial[i]) == Some(slot)
    ensures !exists i | 0 <= i < |initial| :: initial[i].payload == x.payload
  {
  }

  /** A consumer that found the projection already there found it in its own slot. */
  lemma PresentMeansFilled(kind: string, ledger: seq<EventRecord>, x: EventInput)
    requires Ensure(kind, ledger, x) == Present && WellStaged(kind, x)
    ensures SlotFilled(kind, ledger, x)
  {
    hide Accepted, ValidInput, IsToolCallKind, EventSlot, SlotOf, ProjectedPayload, AnyUnsupported, Appended;
    var slot := ContextSlot(Field(x.payload, "requestId"), Field(x.payload, "attempt"));
    if kind == "request-final-context" {
      InitialIsNotFinal(InSlot(ledger, slot), slot, x);
    }
  }

  lemma AppendMeansFilled(kind: string, ledger: seq<EventRecord>, x: EventInput)
    requires Ensure(kind, ledger, x).Append? && WellStaged(kind, x)
    ensures SlotFilled(kind, ledger + [Ensure(kind, ledger, x).event], x)
  {
    InSlotAppend(ledger, Ensure(kind, ledger, x).event, Wanted(kind, x).value);
    AppendFillsWanted(kind, ledger, x);
  }

  lemma {:induction false} EnsureAllFills(kind: string, ledger: seq<EventRecord>, xs: seq<EventInput>, steps: nat)
    requires AllWellStaged(kind, xs) && EnsureAll(kind, ledger, xs, steps).outcome == Finished
    ensures forall i | 0 <= i < |xs| :: SlotFilled(kind, EnsureAll(kind, ledger, xs, steps).ledger, xs[i])
    decreases |xs|
  {
    hide Ensure, Wanted, WellStaged, InSlot;
    if xs != [] {
      var ledger' := ledger;
      var steps' := steps;
      match Ensure(kind, ledger, xs[0]) {
        case Present => PresentMeansFilled(kind, ledger, xs[0]);
        case Append(e) =>
          AppendMeansFilled(kind, ledger, xs[0]);
          ledger', steps' := ledger + [e], steps - 1;
      }
      EnsureAllFills(kind, ledger', xs[1..], steps');
      EnsureAllSteps(kind, ledger', xs[1..], steps');
      SlotStaysOccupied(ledger', EnsureAll(kind, ledger', xs[1..], steps').ledger, Wanted(kind, xs[0]).value);
      assert forall i | 1 <= i < |xs| :: xs[i] == xs[1..][i - 1];
    }
  }

  // ---------------------------------------------------------------- the other actors

  lemma EnqueueKeepsOnce(w: World, t: Target, key: LocationKey)
    requires OnceInv(w, key) && Enqueue(w.db, t).Ok?
    ensures OnceInv(w.(db := Enqueue(w.db, t).value), key)
  {
    hide UpgradePermitted, Projected, AtMostOnce;
    var db' := Enqueue(w.db, t).value;
    forall id | id in db'.outbox && id.location == key && db'.outbox[id].status == Acked
      ensures Projected(id.kind, w.ledger, db'.outbox[id].payload.digest)
    {
      if id == t.id && db'.outbox[id].payload != w.db.outbox[id].payload {
        var canonical := w.db.history[HistoryKey(t.id.canonicalEventId, t.sessionId)];
        UpgradeKeepsProjected(t, w.db.outbox[id], canonical, w.ledger);
      }
    }
  }

  // ---------------------------------------------------------------- a drain in steps

  /** A pending row as the query returned it. */
  datatype Listed = Listed(id: TargetId, row: OutboxRow)

  /** How far the drain of a location is. It holds the lifecycle lock of the location unless it is idle. A request
      projection reads the file once and decides both of its events on that `view`; other consumers read it for every
      event. */
  datatype Task =
    | Idle
    | Between(rest: seq<Listed>)
    | Projecting(rest: seq<Listed>, id: TargetId, expected: Expectation, canonical: Option<Expectation>, i: nat,
                 view: Option<seq<EventRecord>>)
    | Appending(rest: seq<Listed>, id: TargetId, expected: Expectation, canonical: Option<Expectation>, i: nat,
                view: Option<seq<EventRecord>>,
                event: EventRecord)
    | Reading(rest: seq<Listed>, id: TargetId, expected: Expectation, canonical: Option<Expectation>,
              observed: Expectation)

  /** `missing`: the event file was moved away and no new one is in its place. */
  datatype System = System(w: World, task: Task, missing: bool)

  /** The next row: its material is resolved and compared, and a legacy row upgraded. */
  function Take(s: System, resolve: TargetId -> Resolution): System
    requires s.task.Between?
  {
    var rest := s.task.rest;
    if rest == [] then s.(task := Idle)
    else
      match PrepareRow(s.w.db, rest[0].id, rest[0].row, resolve(rest[0].id))
      case Bad => s.(task := Idle)
      case Missing => s.(task := Between(rest[1..]))
      case Apply(db, expected, canonical, _) =>
        s.(w := s.w.(db := db),
           task := if ValidShape(rest[0].id.kind, expected.events)
               then Projecting(rest[1..], rest[0].id, expected, canonical, 0, None) else Idle)
  }

  /** The file is read: the consumer decides about the next event, or what was ensured is read back. */
  function Look(s: System): System
    requires s.task.Projecting?
  {
    var t := s.task;
    if t.i < |t.expected.events| then
      var seen := if t.view.Some? then t.view.value else s.w.ledger;
      var view := if t.id.kind == "request-projection" then Some(seen) else None;
      match Ensure(t.id.kind, seen, t.expected.events[t.i])
      case Rejected => s.(task := Idle)
      case Present => s.(task := Projecting(t.rest, t.id, t.expected, t.canonical, t.i + 1, view))
      case Append(e) => s.(task := Appending(t.rest, t.id, t.expected, t.canonical, t.i, view, e))
    else
      match Observe(t.id.kind, s.w.ledger, t.expected)
      case None => s.(task := Idle)
      case Some(observed) => s.(task := Reading(t.rest, t.id, t.expected, t.canonical, observed))
  }

  /** The decided append reaches the file. */
  function Write(s: System): System
    requires s.task.Appending?
  {
    var t := s.task;
    var view := if t.view.Some? then Some(t.view.value + [t.event]) else None;
    s.(w := s.w.(ledger := s.w.ledger + [t.event]),
       task := Projecting(t.rest, t.id, t.expected, t.canonical, t.i + 1, view))
  }

  function Ack(s: System): System
    requires s.task.Reading?
  {
    var (db, ok) := Acknowledge(s.w.db, s.task.id, s.task.observed, s.task.canonical);
    s.(w := s.w.(db := db), task := if ok then Between(s.task.rest) else Idle)
  }

  /** The drain's own next step. */
  function Own(s: System, resolve: TargetId -> Resolution): System {
    match s.task
    case Idle => s
    case Between(_) => Take(s, resolve)
    case Projecting(_, _, _, _, _, _) => Look(s)
    case Appending(_, _, _, _, _, _, _) => Write(s)
    case Reading(_, _, _, _, _) => Ack(s)
  }

  /** What can happen at a location: any step of another actor on the tables, a live append, the file moved to the
      archive, a rebuilt file put in place, and the steps of a drain, which may stop after any of them. */
  datatype Move =
    | DbMove(op: Op)
    | LiveAppend(event: EventRecord)
    | MoveAway
    | ReplaceLedger(rebuilt: seq<EventRecord>)
    | StartDrain(rows: seq<Listed>)
    | DrainStep
    | Crash

  function Perform(s: System, m: Move, resolve: TargetId -> Resolution): System {
    match m
    case DbMove(op) => s.(w := s.w.(db := Step(s.w.db, op)))
    case LiveAppend(e) => s.(w := s.w.(ledger := s.w.ledger + [e]))
    case MoveAway => s.(w := s.w.(ledger := []), missing := true)
    case ReplaceLedger(rebuilt) => s.(w := s.w.(ledger := rebuilt), missing := false)
    case StartDrain(rows) => if s.task.Idle? then s.(task := Between(rows)) else s
    case DrainStep => Own(s, resolve)
    case Crash => s.(task := Idle)
  }

  /** The identity was found absent by a decision whose append is still to come. */
  ghost predicate Reserved(task: Task, slot: Slot) {
    || (task.Appending? && EventSlot(task.event) == Some(slot))
    || (task.Appending? && task.view.Some?
        && exists j | task.i < j < |task.expected.events| ::
            Wanted(task.id.kind, task.expected.events[j]) == Some(slot))
    || (task.Projecting? && task.view.Some?
        && exists j | task.i <= j < |task.expected.events| ::
            Wanted(task.id.kind, task.expected.events[j]) == Some(slot))
  }

  /** The readiness row of the location does not let work through. */
  predicate Shut(db: Db, key: LocationKey) {
    key in db.rows ==> db.rows[key].state != Ready
  }

  /** The update that records a proof of the file. */
  predicate Proves(op: Op, key: LocationKey) {
    op.OnRow? && op.key == key && (op.op.CompleteCheck? || op.op.CompleteBootstrap?)
  }

  /** Only a drain acknowledges here, and a missing file gives no proof. A live append adds an identity only while it is
      absent and not reserved by a drain under way. The file is moved away under the lock with the gate shut, a rebuilt
      one comes only after every target of the location was re-opened, and in between nobody drains or appends. */
  ghost predicate Legal(s: System, m: Move, key: LocationKey) {
    match m
    case DbMove(op) => (op.AckTarget? ==> op.id.location != key) && (s.missing ==> !Proves(op, key))
    case LiveAppend(e) =>
      && !s.missing
      && (EventSlot(e).Some? ==>
            InSlot(s.w.ledger, EventSlot(e).value) == [] && !Reserved(s.task, EventSlot(e).value))
    case MoveAway => s.task.Idle? && Shut(s.w.db, key)
    case ReplaceLedger(rebuilt) =>
      && s.task.Idle? && AtMostOnce(rebuilt)
      && forall id | id in s.w.db.outbox && id.location == key :: s.w.db.outbox[id].status == Pending
    case StartDrain(rows) =>
      && s.task.Idle? && !s.missing
      && forall i | 0 <= i < |rows| :: PendingAt(s.w.db.outbox, key, rows[i].id)
                                       && s.w.db.outbox[rows[i].id] == rows[i].row
    case _ => true
  }

  ghost predicate SameSlot(view: seq<EventRecord>, ledger: seq<EventRecord>, slot: Option<Slot>) {
    slot.Some? ==> InSlot(view, slot.value) == InSlot(ledger, slot.value)
  }

  /** The first i events of the target are in the ledger, and for the others a kept view says what the ledger says. */
  ghost predicate Halfway(kind: string, ledger: seq<EventRecord>, xs: seq<EventInput>, i: nat,
                          view: Option<seq<EventRecord>>) {
    && i <= |xs| && AllWellStaged(kind, xs)
    && (forall j | 0 <= j < i :: SlotFilled(kind, ledger, xs[j]))
    && (view.Some? ==> forall j | i <= j < |xs| :: SameSlot(view.value, ledger, Wanted(kind, xs[j])))
  }

  /** The event is decided for its own, still empty, slot. */
  ghost predicate DecidedFor(kind: string, ledger: seq<EventRecord>, x: EventInput, event: EventRecord) {
    && ValidInput(kind, x) && Wanted(kind, x).Some? && EventSlot(event) == Wanted(kind, x)
    && InSlot(ledger, Wanted(kind, x).value) == []
  }

  /** What was read back for an expected event came from the ledger, under the promised identity. */
  ghost predicate ReadFrom(ledger: seq<EventRecord>, x: EventInput, id: string, observed: EventInput) {
    exists e :: e in ledger && Identified(e, x, id) && observed == ObservedInput(e)
  }

  ghost predicate AllReadFrom(ledger: seq<EventRecord>, expected: Expectation, observed: Expectation) {
    && |expected.events| == |expected.ids| == |observed.events|
    && forall i | 0 <= i < |expected.events| ::
         ReadFrom(ledger, expected.events[i], expected.ids[i], observed.events[i])
  }

  ghost predicate TaskOk(s: System) {
    match s.task
    case Projecting(_, id, expected, canonical, i, view) =>
      canonical == Some(expected) && Halfway(id.kind, s.w.ledger, expected.events, i, view)
    case Appending(_, id, expected, canonical, i, view, event) =>
      && canonical == Some(expected) && Halfway(id.kind, s.w.ledger, expected.events, i, view) && i < |expected.events|
      && DecidedFor(id.kind, s.w.ledger, expected.events[i], event)
    case Reading(_, id, expected, canonical, observed) =>
      && canonical == Some(expected) && Halfway(id.kind, s.w.ledger, expected.events, |expected.events|, None)
      && AllReadFrom(s.w.ledger, expected, observed)
    case _ => true
  }

  /** While the file is missing nobody drains and the gate is shut; otherwise the ledger holds what it has to. */
  ghost predicate SystemInv(s: System, key: LocationKey) {
    && TaskOk(s)
    && if s.missing then s.task.Idle? && s.w.ledger == [] && Shut(s.w.db, key) else OnceInv(s.w, key)
  }

  /** An append outside the slots a view still answers for leaves the view right. */
  lemma HalfwayAfterAppend(kind: string, ledger: seq<EventRecord>, xs: seq<EventInput>, i: nat,
                           view: Option<seq<EventRecord>>, e: EventRecord)
    requires Halfway(kind, ledger, xs, i, view)
    requires view.Some? ==> forall j | i <= j < |xs| && Wanted(kind, xs[j]).Some? :: EventSlot(e) != Wanted(kind, xs[j])
    ensures Halfway(kind, ledger + [e], xs, i, view)
  {
    hide InSlot, EventSlot, Wanted, SlotFilled, AllWellStaged;
    forall j | 0 <= j < i ensures SlotFilled(kind, ledger + [e], xs[j]) {
      SlotFilledStays(kind, ledger, ledger + [e], xs[j]);
    }
    if view.Some? {
      forall j | i <= j < |xs| ensures SameSlot(view.value, ledger + [e], Wanted(kind, xs[j])) {
        if Wanted(kind, xs[j]).Some? {
          assert SameSlot(view.value, ledger, Wanted(kind, xs[j]));
          InSlotAppend(ledger, e, Wanted(kind, xs[j]).value);
        }
      }
    }
  }

  /** A decision on a view that is right about the wanted slot. */
  lemma DecisionHolds(kind: string, seen: seq<EventRecord>, ledger: seq<EventRecord>, x: EventInput)
    requires WellStaged(kind, x) && SameSlot(seen, ledger, Wanted(kind, x))
    ensures Ensure(kind, seen, x) == Present ==> SlotFilled(kind, ledger, x)
    ensures Ensure(kind, seen, x).Append? ==> DecidedFor(kind, ledger, x, Ensure(kind, seen, x).event)
  {
    if Ensure(kind, seen, x) == Present {
      PresentMeansFilled(kind, seen, x);
    } else if Ensure(kind, seen, x).Append? {
      AppendFillsWanted(kind, seen, x);
    }
  }

  lemma TakeKeeps(s: System, resolve: TargetId -> Resolution, key: LocationKey)
    requires SystemInv(s, key) && s.task.Between? && CanonicalResolver(resolve)
    ensures SystemInv(Take(s, resolve), key)
  {
    hide Projected, AtMostOnce, InSlot, Decode, DigestOf, WellStaged, SlotFilled, ValidShape;
    var rest := s.task.rest;
    if rest != [] {
      var id, resolution := rest[0].id, resolve(rest[0].id);
      assert CanonicalResolution(id, resolution);
      var p := PrepareRow(s.w.db, id, rest[0].row, resolution);
      if p.Apply? && p.wrote {
        hide Enqueue;
        assert p.db == Enqueue(s.w.db, resolution.target).value;
        EnqueueKeepsOnce(s.w, resolution.target, key);
      }
    }
  }

  lemma LookKeeps(s: System, key: LocationKey)
    requires SystemInv(s, key) && s.task.Projecting?
    ensures SystemInv(Look(s), key)
  {
    hide OnceInv, Ensure, Observe, InSlot, Wanted, SlotFilled, DecidedFor, AllReadFrom;
    var t := s.task;
    if t.i < |t.expected.events| {
      var seen := if t.view.Some? then t.view.value else s.w.ledger;
      DecisionHolds(t.id.kind, seen, s.w.ledger, t.expected.events[t.i]);
    } else if Observe(t.id.kind, s.w.ledger, t.expected).Some? {
      ObservedFromLedger(t.id.kind, s.w.ledger, t.expected);
    }
  }

  lemma ObservedFromLedger(kind: string, ledger: seq<EventRecord>, expected: Expectation)
    requires Observe(kind, ledger, expected).Some?
    ensures AllReadFrom(ledger, expected, Observe(kind, ledger, expected).value)
  {
    hide ObservedMatches, SameProjectionIdentity, IdentityText;
    var observed := Observe(kind, ledger, expected).value;
    forall i | 0 <= i < |expected.events|
      ensures ReadFrom(ledger, expected.events[i], expected.ids[i], observed.events[i])
    {
      assert ObservedAt(kind, ledger, expected.events[i], expected.ids[i]);
      assert Identified(FirstSame(ledger, expected.events[i]).value, expected.events[i], expected.ids[i]);
    }
  }

  lemma WriteKeeps(s: System, key: LocationKey)
    requires SystemInv(s, key) && s.task.Appending?
    ensures SystemInv(Write(s), key)
  {
    hide EventSlot, Wanted, OnceInv, ValidInput;
    var t := s.task;
    var xs, ledger, longer := t.expected.events, s.w.ledger, s.w.ledger + [t.event];
    FreshAppendKeepsOnce(s.w, t.event, key);
    hide InSlot, AllWellStaged;
    forall j | 0 <= j < t.i + 1 ensures SlotFilled(t.id.kind, longer, xs[j]) {
      if j < t.i {
        SlotFilledStays(t.id.kind, ledger, longer, xs[j]);
      } else {
        InSlotAppend(ledger, t.event, Wanted(t.id.kind, xs[j]).value);
      }
    }
    if t.view.Some? {
      forall j | t.i + 1 <= j < |xs| ensures SameSlot(t.view.value + [t.event], longer, Wanted(t.id.kind, xs[j])) {
        if Wanted(t.id.kind, xs[j]).Some? {
          InSlotAppend(ledger, t.event, Wanted(t.id.kind, xs[j]).value);
          InSlotAppend(t.view.value, t.event, Wanted(t.id.kind, xs[j]).value);
        }
      }
    }
  }

  /** With every identity at most once, an append keeps it so exactly when the identity of the event is absent. */
  lemma AppendKeepsAtMostOnceIff(ledger: seq<EventRecord>, e: EventRecord)
    requires AtMostOnce(ledger)
    ensures AtMostOnce(ledger + [e]) <==> EventSlot(e).None? || InSlot(ledger, EventSlot(e).value) == []
  {
    hide EventSlot;
    forall slot ensures |InSlot(ledger + [e], slot)| == |InSlot(ledger, slot)| + if EventSlot(e) == Some(slot) then 1
        else 0 {
      InSlotAppend(ledger, e, slot);
    }
    hide InSlot;
    if EventSlot(e).Some? && InSlot(ledger, EventSlot(e).value) != [] {
      assert |InSlot(ledger + [e], EventSlot(e).value)| > 1;
    }
  }

  lemma FreshAppendKeepsOnce(w: World, e: EventRecord, key: LocationKey)
    requires OnceInv(w, key) && (EventSlot(e).None? || InSlot(w.ledger, EventSlot(e).value) == [])
    ensures OnceInv(w.(ledger := w.ledger + [e]), key)
  {
    AppendKeepsAtMostOnceIff(w.ledger, e);
    hide InSlot, Projected, AtMostOnce;
    forall id | id in w.db.outbox && id.location == key && w.db.outbox[id].status == Acked
      ensures Projected(id.kind, w.ledger + [e], w.db.outbox[id].payload.digest)
    {
      ProjectedStays(id.kind, w.ledger, w.ledger + [e], w.db.outbox[id].payload.digest);
    }
  }

  /** An acknowledged row holds the digest of the material it was acknowledged with, and what was read back matches
      it. */
  lemma AcknowledgedDigest(db: Db, id: TargetId, observed: Expectation, expected: Expectation)
    requires Acknowledge(db, id, observed, Some(expected)).1
    ensures id in db.outbox && db.outbox[id].payload.digest == DigestOf(expected.events, expected.ids)
    ensures ProjectionEventsMatch(id.kind, expected.events, observed.events)
  {
    hide ProjectionEventsMatch, HasPending;
    var row := db.outbox[id];
    if Decode(row.payload).value.LegacyPayload? {
      var objects := Decode(row.payload).value.events;
      assert objects == EventObjects(expected.events);
      forall i | 0 <= i < |expected.events| ensures TypedEvent(objects[i]) == Some(expected.events[i]) {
        TypedEventOfObject(expected.events[i]);
      }
      assert TypedEvents(objects).value == expected.events;
    }
  }

  lemma RefusedChangesNothing(db: Db, id: TargetId, observed: Expectation, canonical: Option<Expectation>)
    requires !Acknowledge(db, id, observed, canonical).1
    ensures Acknowledge(db, id, observed, canonical).0 == db
  {
    hide Covers, HasPending;
  }

  lemma AckKeeps(s: System, key: LocationKey)
    requires SystemInv(s, key) && s.task.Reading?
    ensures SystemInv(Ack(s), key)
  {
    hide AtMostOnce, Projected, AllImaged, SlotFilled, AllWellStaged, SameSlot, Acknowledge, AllReadFrom;
    var t := s.task;
    var (db, ok) := Acknowledge(s.w.db, t.id, t.observed, t.canonical);
    if ok {
      AcknowledgedImages(s);
      AcknowledgeEffect(s.w.db, t.id, t.observed, t.canonical);
    } else {
      RefusedChangesNothing(s.w.db, t.id, t.observed, t.canonical);
    }
  }

  /** At an acknowledgement every event of the target has an image in the ledger. */
  lemma AcknowledgedImages(s: System)
    requires TaskOk(s) && s.task.Reading? && Acknowledge(s.w.db, s.task.id, s.task.observed, s.task.canonical).1
    ensures s.task.id in s.w.db.outbox
    ensures AllImaged(s.task.id.kind, s.w.ledger, s.w.db.outbox[s.task.id].payload.digest)
    ensures Projected(s.task.id.kind, s.w.ledger, s.w.db.outbox[s.task.id].payload.digest)
  {
    hide SlotFilled, AllWellStaged, SameSlot, Acknowledge, ProjectionEventMatches, Identified;
    var t := s.task;
    var kind, ledger, expected := t.id.kind, s.w.ledger, t.expected;
    AcknowledgedDigest(s.w.db, t.id, t.observed, expected);
    forall i | 0 <= i < |expected.events|
      ensures Imaged(kind, ledger, expected.events[i], expected.ids[i])
      ensures IsHeld(kind, ledger, expected.events[i], expected.ids[i])
    {
      assert ReadFrom(ledger, expected.events[i], expected.ids[i], t.observed.events[i]);
      var e :| e in ledger && Identified(e, expected.events[i], expected.ids[i])
          && t.observed.events[i] == ObservedInput(e);
      assert Image(kind, e, expected.events[i], expected.ids[i]);
      assert Held(kind, e, expected.events[i], expected.ids[i]);
    }
    DigestHeld(kind, ledger, expected.events, expected.ids);
    DigestImaged(kind, ledger, expected.events, expected.ids);
  }

  lemma AllReadFromStays(ledger: seq<EventRecord>, longer: seq<EventRecord>, expected: Expectation,
                         observed: Expectation)
    requires ledger <= longer && AllReadFrom(ledger, expected, observed)
    ensures AllReadFrom(longer, expected, observed)
  {
    hide Identified;
    forall i | 0 <= i < |expected.events|
      ensures ReadFrom(longer, expected.events[i], expected.ids[i], observed.events[i])
    {
      assert ReadFrom(ledger, expected.events[i], expected.ids[i], observed.events[i]);
    }
  }

  lemma LiveAppendKeeps(s: System, e: EventRecord, key: LocationKey)
    requires SystemInv(s, key) && Legal(s, LiveAppend(e), key)
    ensures SystemInv(s.(w := s.w.(ledger := s.w.ledger + [e])), key)
  {
    hide EventSlot, Wanted, OnceInv, InSlot, Halfway, AllReadFrom;
    FreshAppendKeepsOnce(s.w, e, key);
    match s.task
    case Projecting(_, id, expected, _, i, view) =>
      HalfwayAfterAppend(id.kind, s.w.ledger, expected.events, i, view, e);
    case Appending(_, id, expected, _, i, view, event) =>
      HalfwayAfterAppend(id.kind, s.w.ledger, expected.events, i, view, e);
      InSlotAppend(s.w.ledger, e, Wanted(id.kind, expected.events[i]).value);
    case Reading(_, id, expected, _, observed) =>
      HalfwayAfterAppend(id.kind, s.w.ledger, expected.events, |expected.events|, None, e);
      AllReadFromStays(s.w.ledger, s.w.ledger + [e], expected, observed);
    case _ =>
  }

  lemma DbMoveKeepsOnce(w: World, op: Op, key: LocationKey)
    requires OnceInv(w, key) && (op.AckTarget? ==> op.id.location != key)
    ensures OnceInv(w.(db := Step(w.db, op)), key)
  {
    hide AtMostOnce, Projected;
    if op.EnqueueTarget? && Enqueue(w.db, op.target).Ok? {
      EnqueueKeepsOnce(w, op.target, key);
    } else if op.AckTarget? && op.id in w.db.outbox {
      AcknowledgeEffect(w.db, op.id, op.observed, op.canonicalTarget);
    }
  }

  /** Only a proof opens the gate. */
  lemma ShutStays(db: Db, op: Op, key: LocationKey)
    requires Shut(db, key) && !Proves(op, key)
    ensures Shut(Step(db, op), key)
  {
    hide HasPending, Covers, Reconciled, Enabled;
  }

  lemma MoveKeepsOnce(s: System, m: Move, resolve: TargetId -> Resolution, key: LocationKey)
    requires SystemInv(s, key) && Legal(s, m, key) && CanonicalResolver(resolve)
    ensures SystemInv(Perform(s, m, resolve), key)
  {
    hide CanonicalResolver, Take, Look, Write, Ack, Projected, AtMostOnce, Step, Shut;
    match m
    case DbMove(op) =>
      if s.missing {
        ShutStays(s.w.db, op, key);
      } else {
        DbMoveKeepsOnce(s.w, op, key);
      }
    case LiveAppend(e) => LiveAppendKeeps(s, e, key);
    case DrainStep =>
      match s.task {
        case Between(_) => TakeKeeps(s, resolve, key);
        case Projecting(_, _, _, _, _, _) => LookKeeps(s, key);
        case Appending(_, _, _, _, _, _, _) => WriteKeeps(s, key);
        case Reading(_, _, _, _, _) => AckKeeps(s, key);
        case Idle =>
      }
    case _ =>
  }

  function PerformAll(s: System, moves: seq<Move>, resolve: TargetId -> Resolution): System
    decreases |moves|
  {
    if moves == [] then s else PerformAll(Perform(s, moves[0], resolve), moves[1..], resolve)
  }

  ghost predicate AllLegal(s: System, moves: seq<Move>, resolve: TargetId -> Resolution, key: LocationKey)
    decreases |moves|
  {
    moves != [] ==> Legal(s, moves[0], key) && AllLegal(Perform(s, moves[0], resolve), moves[1..], resolve, key)
  }

  /** Over every schedule, with other actors between any two steps of a drain and a crash after any of them, each
      identity is in the ledger at most once, and the ledger holds every event of every acknowledged target, a tool call
      up to its attribution fields; while the file is missing, the gate of the location is shut. */
  lemma {:induction false} ExactlyOnceProjection(s: System, moves: seq<Move>, resolve: TargetId -> Resolution,
                                                 key: LocationKey)
    requires SystemInv(s, key) && AllLegal(s, moves, resolve, key) && CanonicalResolver(resolve)
    ensures SystemInv(PerformAll(s, moves, resolve), key)
    decreases |moves|
  {
    hide Perform, SystemInv, Legal, CanonicalResolver;
    if moves != [] {
      MoveKeepsOnce(s, moves[0], resolve, key);
      ExactlyOnceProjection(Perform(s, moves[0], resolve), moves[1..], resolve, key);
    }
  }

  /** While a drain holds the lock of the location nobody else appends to its file. */
  ghost predicate LockedLegal(s: System, m: Move, key: LocationKey) {
    if m.LiveAppend?
        then s.task.Idle? && !s.missing
                 && (EventSlot(m.event).Some? ==> InSlot(s.w.ledger, EventSlot(m.event).value) == [])
    else Legal(s, m, key)
  }

  ghost predicate AllLockedLegal(s: System, moves: seq<Move>, resolve: TargetId -> Resolution, key: LocationKey)
    decreases |moves|
  {
    moves != [] ==>
        LockedLegal(s, moves[0], key) && AllLockedLegal(Perform(s, moves[0], resolve), moves[1..], resolve, key)
  }

  lemma {:induction false} LockedIsLegal(s: System, moves: seq<Move>, resolve: TargetId -> Resolution, key: LocationKey)
    requires AllLockedLegal(s, moves, resolve, key)
    ensures AllLegal(s, moves, resolve, key)
    decreases |moves|
  {
    hide Perform;
    if moves != [] {
      LockedIsLegal(Perform(s, moves[0], resolve), moves[1..], resolve, key);
    }
  }

  /** Exactly once for schedules in which the lifecycle lock keeps live appends out of a drain. */
  lemma ExactlyOnceUnderTheLock(s: System, moves: seq<Move>, resolve: TargetId -> Resolution, key: LocationKey)
    requires SystemInv(s, key) && AllLockedLegal(s, moves, resolve, key) && CanonicalResolver(resolve)
    ensures SystemInv(PerformAll(s, moves, resolve), key)
  {
    hide SystemInv, AllLockedLegal, AllLegal, CanonicalResolver, PerformAll;
    LockedIsLegal(s, moves, resolve, key);
    ExactlyOnceProjection(s, moves, resolve, key);
  }

  /** Without the lock it fails: a live append between a decision and its append keeps every identity at most once
      exactly when it is of an absent identity and not of the decided one. */
  lemma LiveAppendWhileDecided(s: System, e: EventRecord, resolve: TargetId -> Resolution, key: LocationKey)
    requires SystemInv(s, key) && s.task.Appending?
    ensures AtMostOnce(Perform(Perform(s, LiveAppend(e), resolve), DrainStep, resolve).w.ledger)
            <==> EventSlot(e).None? || (InSlot(s.w.ledger, EventSlot(e).value) == []
                                        && EventSlot(e) != EventSlot(s.task.event))
  {
    var ledger, event := s.w.ledger, s.task.event;
    var x := s.task.expected.events[s.task.i];
    hide EventSlot, InSlot, Wanted, Projected, SlotFilled, AllWellStaged, SameSlot;
    assert DecidedFor(s.task.id.kind, ledger, x, event);
    InSlotAppend(ledger, e, EventSlot(event).value);
    AppendKeepsAtMostOnceIff(ledger, e);
    if AtMostOnce(ledger + [e]) {
      AppendKeepsAtMostOnceIff(ledger + [e], event);
    } else {
      var slot :| |InSlot(ledger + [e], slot)| > 1;
      InSlotAppend(ledger + [e], event, slot);
    }
  }

  // ---------------------------------------------------------------- an undisturbed drain

  /** n own steps of the drain with nobody in between. */
  function Alone(s: System, n: nat, resolve: TargetId -> Resolution): System
    decreases n
  {
    if n == 0 then s else Alone(Own(s, resolve), n - 1, resolve)
  }

  lemma {:induction false} AloneAdds(s: System, a: nat, b: nat, resolve: TargetId -> Resolution)
    ensures Alone(Alone(s, a, resolve), b, resolve) == Alone(s, a + b, resolve)
    decreases a
  {
    hide Own;
    if a > 0 {
      AloneAdds(Own(s, resolve), a - 1, b, resolve);
    }
  }

  lemma {:induction false} AloneStays(s: System, n: nat, resolve: TargetId -> Resolution)
    ensures Alone(s, n, resolve).missing == s.missing
    decreases n
  {
    if n > 0 {
      assert Own(s, resolve).missing == s.missing;
      hide Own;
      AloneStays(Own(s, resolve), n - 1, resolve);
    }
  }

  /** Ensuring the remaining events one by one is `EnsureAll`; where the steps run out the drain is at the append it
      could not make. */
  lemma {:induction false} EnsureAllAlone(s: System, steps: nat, resolve: TargetId -> Resolution) returns (n: nat)
    requires s.task.Projecting? && s.task.i <= |s.task.expected.events|
        && (s.task.view.Some? ==> s.task.view.value == s.w.ledger)
    ensures var t := s.task;
            var r := EnsureAll(t.id.kind, s.w.ledger, t.expected.events[t.i..], steps);
            var s' := Alone(s, n, resolve);
            && s'.w == s.w.(ledger := r.ledger)
            && (r.outcome == Failed ==> s'.task == Idle)
            && (r.outcome == Finished ==>
                  && s'.task.Projecting?
                  && s'.task == Projecting(t.rest, t.id, t.expected, t.canonical, |t.expected.events|, s'.task.view))
    decreases |s.task.expected.events| - s.task.i
  {
    hide Ensure;
    var t := s.task;
    var xs := t.expected.events;
    n := 0;
    if t.i < |xs| {
      assert xs[t.i..][0] == xs[t.i] && xs[t.i..][1..] == xs[t.i + 1..];
      var looked := Look(s);
      match Ensure(t.id.kind, s.w.ledger, xs[t.i]) {
        case Rejected =>
          assert Alone(looked, 0, resolve) == looked;
          n := 1;
        case Present =>
          var k := EnsureAllAlone(looked, steps, resolve);
          n := k + 1;
        case Append(e) =>
          if steps > 0 {
            var written := Write(looked);
            var k := EnsureAllAlone(written, steps - 1, resolve);
            assert Alone(looked, k + 1, resolve) == Alone(written, k, resolve);
            n := k + 2;
          }
      }
    }
  }

  /** Projecting, reading back and acknowledging one prepared row with nobody in between. */
  lemma ProjectAlone(s: System, steps: nat, resolve: TargetId -> Resolution) returns (n: nat)
    requires s.task.Projecting? && s.task.i == 0 && s.task.view.None?
        && ValidShape(s.task.id.kind, s.task.expected.events)
    ensures var t := s.task;
            var (applied, observed) := Project(t.id.kind, s.w.ledger, t.expected, steps);
            var s' := Alone(s, n, resolve);
            && s'.w == s.w.(ledger := applied.ledger)
            && (applied.outcome == Failed ==> s'.task == Idle)
            && (observed.Some? ==> s'.task == Reading(t.rest, t.id, t.expected, t.canonical, observed.value))
  {
    hide EnsureAll, Observe, ValidShape, Own;
    var t := s.task;
    assert t.expected.events[0..] == t.expected.events;
    n := EnsureAllAlone(s, steps, resolve);
    if EnsureAll(t.id.kind, s.w.ledger, t.expected.events, steps).outcome == Finished {
      var ensured := Alone(s, n, resolve);
      OneMore(s, n, resolve);
      OwnLook(ensured, resolve);
      n := n + 1;
    }
  }

  lemma OwnLook(s: System, resolve: TargetId -> Resolution)
    requires s.task.Projecting?
    ensures Own(s, resolve) == Look(s)
  {
  }

  lemma OneMore(s: System, n: nat, resolve: TargetId -> Resolution)
    ensures Alone(s, n + 1, resolve) == Own(Alone(s, n, resolve), resolve)
  {
    hide Own;
    AloneAdds(s, n, 1, resolve);
    assert Alone(Own(Alone(s, n, resolve), resolve), 0, resolve) == Own(Alone(s, n, resolve), resolve);
  }

  /** One iteration of the drain loop is what the drain's own steps do when nobody comes in between; where the process
      stops in the iteration, it stops after some of them. */
  lemma HandleAlone(w: World, rest: seq<Listed>, steps: nat, resolve: TargetId -> Resolution) returns (n: nat)
    requires rest != [] && rest[0].id in w.db.outbox && w.db.outbox[rest[0].id] == rest[0].row
    ensures var h := Handle(w, rest[0].id, resolve(rest[0].id), steps);
            var s' := Alone(System(w, Between(rest), false), n, resolve);
            && s'.w == h.world
            && (h.verdict.Refused? ==> s'.task == Idle)
            && (h.verdict == Skipped || h.verdict == Acknowledged ==> s'.task == Between(rest[1..]))
  {
    hide Decode, EnsureAll, Observe, ValidShape, Acknowledge, PrepareRow, Own, Alone;
    var id := rest[0].id;
    var s := System(w, Between(rest), false);
    var p := Prepare(w.db, id, resolve(id));
    n := 0;
    AloneNothing(s, resolve);
    if !p.Apply? || !p.wrote || steps > 0 {
      var taken := Take(s, resolve);
      AloneNothing(taken, resolve);
      OwnFirst(s, 0, resolve);
      n := 1;
      if p.Apply? {
        var left := if p.wrote then steps - 1 else steps;
        if ValidShape(id.kind, p.expected.events) {
          var k := ProjectAlone(taken, left, resolve);
          OwnFirst(s, k, resolve);
          n := k + 1;
          var (applied, observed) := Project(id.kind, w.ledger, p.expected, left);
          if observed.Some? && applied.steps > 0 {
            var reading := Alone(taken, k, resolve);
            OneMore(taken, k, resolve);
            OwnFirst(s, k + 1, resolve);
            OwnAck(reading, resolve);
            AcknowledgeOrNothing(p.db, id, observed.value, p.canonical);
            n := k + 2;
          }
        }
      }
    }
  }

  lemma AcknowledgeOrNothing(db: Db, id: TargetId, observed: Expectation, canonical: Option<Expectation>)
    ensures !Acknowledge(db, id, observed, canonical).1 ==> Acknowledge(db, id, observed, canonical).0 == db
  {
    hide Acknowledge;
    if !Acknowledge(db, id, observed, canonical).1 {
      RefusedChangesNothing(db, id, observed, canonical);
    }
  }

  lemma AloneNothing(s: System, resolve: TargetId -> Resolution)
    ensures Alone(s, 0, resolve) == s
  {
  }

  lemma OwnFirst(s: System, n: nat, resolve: TargetId -> Resolution)
    requires s.task.Between?
    ensures Alone(s, n + 1, resolve) == Alone(Take(s, resolve), n, resolve)
  {
  }

  lemma OwnAck(s: System, resolve: TargetId -> Resolution)
    requires s.task.Reading?
    ensures Own(s, resolve) == Ack(s)
  {
  }

  function IdsOf(rows: seq<Listed>): (ids: seq<TargetId>)
    ensures |ids| == |rows| && forall i | 0 <= i < |rows| :: ids[i] == rows[i].id
  {
    seq(|rows|, i requires 0 <= i < |rows| => rows[i].id)
  }

  /** The drain loop, whatever its budget of durable effects, is a run of the drain's own steps with nobody in between;
      so the invariant of the interleaved system holds of the loop as well. */
  lemma {:induction false} DrainAlone(w: World, rows: seq<Listed>, steps: nat, resolve: TargetId -> Resolution)
      returns (n: nat)
    requires Distinct(IdsOf(rows))
    requires forall i | 0 <= i < |rows| :: rows[i].id in w.db.outbox && w.db.outbox[rows[i].id] == rows[i].row
    ensures Alone(System(w, Between(rows), false), n, resolve).w == DrainList(w, IdsOf(rows), resolve, steps).world
    ensures !DrainList(w, IdsOf(rows), resolve, steps).stopped ==>
        Alone(System(w, Between(rows), false), n, resolve).task == Idle
    decreases |rows|
  {
    hide Handle, Alone, Own;
    var s := System(w, Between(rows), false);
    if rows == [] {
      AloneNothing(Take(s, resolve), resolve);
      OwnFirst(s, 0, resolve);
      n := 1;
    } else {
      var ids, rest := IdsOf(rows), rows[1..];
      n := HandleAlone(w, rows, steps, resolve);
      var h := Handle(w, ids[0], resolve(ids[0]), steps);
      HandleEffect(w, ids[0], resolve(ids[0]), steps);
      assert IdsOf(rest) == ids[1..];
      if h.verdict == Skipped || h.verdict == Acknowledged {
        forall i | 0 <= i < |rest| ensures rest[i].id in h.world.db.outbox
            && h.world.db.outbox[rest[i].id] == rest[i].row {
          assert rest[i] == rows[i + 1] && ids[i + 1] != ids[0];
        }
        AloneStays(s, n, resolve);
        var k := DrainAlone(h.world, rest, h.steps, resolve);
        AloneAdds(s, n, k, resolve);
        n := n + k;
      }
    }
  }

  lemma {:induction false} AloneKeeps(s: System, n: nat, resolve: TargetId -> Resolution, key: LocationKey)
    requires SystemInv(s, key) && CanonicalResolver(resolve)
    ensures SystemInv(Alone(s, n, resolve), key)
    decreases n
  {
    hide SystemInv, CanonicalResolver, Own;
    if n > 0 {
      MoveKeepsOnce(s, DrainStep, resolve, key);
      AloneKeeps(Own(s, resolve), n - 1, resolve, key);
    }
  }

  /** The drain loop with a crash after any durable effect keeps the invariant. */
  lemma DrainKeepsOnce(w: World, rows: seq<Listed>, steps: nat, resolve: TargetId -> Resolution, key: LocationKey)
    requires OnceInv(w, key) && CanonicalResolver(resolve) && Distinct(IdsOf(rows))
    requires forall i | 0 <= i < |rows| :: rows[i].id in w.db.outbox && w.db.outbox[rows[i].id] == rows[i].row
    ensures OnceInv(DrainList(w, IdsOf(rows), resolve, steps).world, key)
  {
    hide OnceInv, CanonicalResolver, Distinct, Alone;
    var n := DrainAlone(w, rows, steps, resolve);
    AloneStays(System(w, Between(rows), false), n, resolve);
    AloneKeeps(System(w, Between(rows), false), n, resolve, key);
  }
}
