/** What an acknowledged target says about the ledger, in every schedule: when its events are there as they were
    acknowledged, and what an upgrade after the acknowledgement does to that
    (electron/sessionLedgerOutbox.ts, electron/runtime/sessionLedgerLifecycleProduction.ts). */
module AckedTargets {
  import opened Json
  import opened EventSchema
  import opened ProjectionCompatibility
  import opened Readiness
  import opened Outbox
  import opened LedgerStore
  import opened LedgerRuns
  import opened Projector
  import opened Images
  import opened Drain
  import opened ExactlyOnce
  import opened FinalDrain

  // ---------------------------------------------------------------- exactly one event

  /** What is held for an event in canonical form is in the slot of that event. */
  lemma HeldInSlot(o: Obligated, e: EventRecord)
    requires WellFormed(o) && Held(o.kind, e, o.x, o.id)
    ensures EventSlot(e) == Wanted(o.kind, o.x)
  {
    KindOfTyp(o);
    hide IsToolCallKind, IdentityText, ValidInput;
    if o.x.typ == "tool_call" {
      if !SameCall(o.kind, e, o.x) {
        CallOfImage(o.kind, e, o.x, o.id);
      }
      CallInSlot(o.kind, e, o.x, o.id);
    } else if o.x.typ == "tool_result" {
      AcceptedResultsAgreeOutsideResult(e.payload, o.x.payload, "toolUseId");
      AcceptedResultsAgreeOutsideResult(e.payload, o.x.payload, "diagnosticType");
      ResultPlain(o);
    } else if o.x.typ == "turn_start" || o.x.typ == "turn_end" {
      TurnNamed(o);
    }
  }

  predicate AckedAt(db: Db, key: LocationKey, id: TargetId) {
    id in db.outbox && id.location == key && db.outbox[id].status == Acked
  }

  /** Every expected event of an acknowledged target, in the form the canonical builder gives it, is in the ledger
      exactly once: its identity occurs once, and the event found there is the expected one, for a tool call up to the
      attribution fields. */
  lemma AckedEventExactlyOnce(w: World, key: LocationKey, id: TargetId, expected: Expectation, i: nat)
      returns (e: EventRecord)
    requires OnceInv(w, key) && AckedAt(w.db, key, id)
    requires w.db.outbox[id].payload.digest == DigestOf(expected.events, expected.ids) && i < |expected.events|
    requires |expected.events| == |expected.ids| && WellFormed(Obligated(id.kind, expected.events[i], expected.ids[i]))
    ensures Wanted(id.kind, expected.events[i]).Some?
    ensures InSlot(w.ledger, Wanted(id.kind, expected.events[i]).value) == [e]
    ensures Held(id.kind, e, expected.events[i], expected.ids[i])
  {
    hide Held, InSlot, AtMostOnce, WellFormed, EventSlot, Wanted;
    var x := expected.events[i];
    TypedEventOfObject(x);
    assert DigestOf(expected.events, expected.ids).events[i] == EventObject(x);
    assert IsHeld(id.kind, w.ledger, x, expected.ids[i]);
    e :| e in w.ledger && Held(id.kind, e, x, expected.ids[i]);
    HeldInSlot(Obligated(id.kind, x, expected.ids[i]), e);
    OneInSlot(w.ledger, e, Wanted(id.kind, x).value);
  }

  // ---------------------------------------------------------------- an upgrade after the acknowledgement

  ghost predicate Exact(s: System, id: TargetId)
    requires id in s.w.db.outbox
  {
    AllImaged(id.kind, s.w.ledger, s.w.db.outbox[id].payload.digest)
  }

  /** The step rewrites the payload of an acknowledged target. */
  predicate Rewrites(db: Db, db': Db, id: TargetId) {
    && id in db.outbox && id in db'.outbox && db.outbox[id].status == Acked
    && db'.outbox[id].payload != db.outbox[id].payload
  }

  ghost predicate DigestAgrees(ledger: seq<EventRecord>, digest: Digest) {
    digest.Sha256? && forall i | 0 <= i < |digest.events| ::
      TypedEvent(digest.events[i]).Some? && Agrees(ledger, TypedEvent(digest.events[i]).value)
  }

  /** Where the step rewrites the acknowledged target, the ledger agrees with its new events. */
  ghost predicate AgreeingStep(s: System, s': System, id: TargetId) {
    Rewrites(s.w.db, s'.w.db, id) ==> DigestAgrees(s.w.ledger, s'.w.db.outbox[id].payload.digest)
  }

  /** An enqueue that rewrites an acknowledged target leaves it with an image in the ledger exactly when the call that
      is there agrees with the attribution of the new event, and the new event has a supported schema version; a result
      keeps its image always. Outside the attribution fields nothing can differ. */
  lemma UpgradeAfterAckIff(w: World, t: Target, key: LocationKey)
    requires OnceInv(w, key) && AckedAt(w.db, key, t.id) && Enqueue(w.db, t).Ok?
    requires Rewrites(w.db, Enqueue(w.db, t).value, t.id)
    requires AllImaged(t.id.kind, w.ledger, w.db.outbox[t.id].payload.digest)
    ensures var db' := Enqueue(w.db, t).value;
            && AckedAt(db', key, t.id) && db'.outbox[t.id].payload == Encode(t.events, t.ids) && |t.events| == 1
            && (AllImaged(t.id.kind, w.ledger, db'.outbox[t.id].payload.digest) <==> Agrees(w.ledger, t.events[0]))
            && Projected(t.id.kind, w.ledger, db'.outbox[t.id].payload.digest) && IsCanonicalV1(db'.outbox[t.id])
  {
    hide UpgradePermitted, Decode, AtMostOnce, Imaged, IsHeld, Agrees, Supersedes, TypedEvent, ValidInput;
    hide Enqueue, Step;
    var row, db' := w.db.outbox[t.id], Enqueue(w.db, t).value;
    StepEnqueue(w.db, t);
    EnqueueRow(w.db, t, t.id);
    PayloadStep(w.db, EnqueueTarget(t), t.id);
    var previous := Decode(row.payload).value;
    var canonical := w.db.history[HistoryKey(t.id.canonicalEventId, t.sessionId)];
    assert UpgradePermitted(t, previous.events, previous.ids, canonical);
    LegacyDigest(row);
    PermittedSupersedes(t, previous.events, previous.ids, canonical);
    UpgradeKeepsProjected(t, row, canonical, w.ledger);
    DigestImaged(t.id.kind, w.ledger, t.events, t.ids);
    var prior := TypedEvent(previous.events[0]).value;
    assert IsHeld(t.id.kind, w.ledger, prior, previous.ids[0]);
    HeldValid(t.id.kind, w.ledger, prior, previous.ids[0]);
    UpgradeKeepsImageIff(t.id.kind, w.ledger, t.events[0], prior, t.ids[0]);
  }

  lemma HeldValid(kind: string, ledger: seq<EventRecord>, x: EventInput, id: string)
    requires IsHeld(kind, ledger, x, id)
    ensures ValidInput(kind, x)
  {
  }

  lemma AgreementOfMaterial(ledger: seq<EventRecord>, events: seq<EventInput>, ids: seq<string>)
    ensures DigestAgrees(ledger, DigestOf(events, ids)) <==> forall i | 0 <= i < |events| :: Agrees(ledger, events[i])
  {
    hide Agrees;
    forall i | 0 <= i < |events| ensures TypedEvent(EventObjects(events)[i]) == Some(events[i]) {
      TypedEventOfObject(events[i]);
    }
    if DigestAgrees(ledger, DigestOf(events, ids)) {
      forall i | 0 <= i < |events| ensures Agrees(ledger, events[i]) {
        assert TypedEvent(DigestOf(events, ids).events[i]) == Some(events[i]);
      }
    }
  }

  // ---------------------------------------------------------------- one move

  /** An enqueue changes an acknowledged target only by a permitted upgrade, after which it has images exactly when the
      ledger agrees. */
  lemma EnqueueExactIff(s: System, t: Target, key: LocationKey, id: TargetId)
    requires OnceInv(s.w, key) && AckedAt(s.w.db, key, id) && Exact(s, id) && Enqueue(s.w.db, t).Ok?
    ensures var s' := s.(w := s.w.(db := Enqueue(s.w.db, t).value));
            && AckedAt(s'.w.db, key, id) && (Exact(s', id) <==> AgreeingStep(s, s', id))
            && (Exact(s', id) || IsCanonicalV1(s'.w.db.outbox[id]))
  {
    hide AllImaged, DigestAgrees, OnceInv, Agrees, Projected, Decode, IsCanonicalV1;
    var db' := Enqueue(s.w.db, t).value;
    EnqueueRow(s.w.db, t, id);
    if Rewrites(s.w.db, db', id) {
      UpgradeAfterAckIff(s.w, t, key);
      AgreementOfMaterial(s.w.ledger, t.events, t.ids);
    }
  }

  lemma EnqueueRow(db: Db, t: Target, id: TargetId)
    requires Enqueue(db, t).Ok? && id in db.outbox
    ensures var db' := Enqueue(db, t).value;
            && id in db'.outbox && db'.outbox[id].status == db.outbox[id].status
            && (db'.outbox[id].payload != db.outbox[id].payload ==> id == t.id)
  {
    hide Decode, UpgradePermitted, DigestOf;
  }

  lemma AcknowledgeKeepsAcked(db: Db, other: TargetId, observed: Expectation, canonical: Option<Expectation>,
                              id: TargetId)
    requires id in db.outbox && db.outbox[id].status == Acked
    ensures var db' := Acknowledge(db, other, observed, canonical).0;
            id in db'.outbox && db'.outbox[id] == db.outbox[id]
  {
    hide Covers, HasPending;
  }

  /** The move neither re-opens the targets of the location nor takes its file away. */
  predicate StaysAcked(m: Move, key: LocationKey) {
    m != DbMove(ResetForRebuild(key)) && !m.MoveAway?
  }

  lemma DbMoveExactIff(s: System, op: Op, key: LocationKey, id: TargetId)
    requires OnceInv(s.w, key) && AckedAt(s.w.db, key, id) && Exact(s, id)
    requires (op.AckTarget? ==> op.id.location != key) && op != ResetForRebuild(key)
    ensures var s' := s.(w := s.w.(db := Step(s.w.db, op)));
            && AckedAt(s'.w.db, key, id) && (Exact(s', id) <==> AgreeingStep(s, s', id))
            && (Exact(s', id) || IsCanonicalV1(s'.w.db.outbox[id]))
  {
    hide AllImaged, DigestAgrees, OnceInv, Enqueue, Acknowledge, IsCanonicalV1;
    if op.EnqueueTarget? && Enqueue(s.w.db, op.target).Ok? {
      EnqueueExactIff(s, op.target, key, id);
    } else if op.AckTarget? {
      AcknowledgeKeepsAcked(s.w.db, op.id, op.observed, op.canonicalTarget, id);
    }
  }

  /** Taking a row is an enqueue, or leaves the tables alone. */
  lemma TakeIsEnqueue(s: System, resolve: TargetId -> Resolution)
    requires s.task.Between?
    ensures var s' := Take(s, resolve);
            && s'.w.ledger == s.w.ledger && s'.missing == s.missing
            && (s'.w.db == s.w.db
                || (s.task.rest != [] && resolve(s.task.rest[0].id).Found?
                    && Enqueue(s.w.db, resolve(s.task.rest[0].id).target) == Ok(s'.w.db)))
  {
    hide Enqueue, Decode, DigestOf, ValidShape;
  }

  /** A move leaves an acknowledged target that has its images acknowledged, and with its images exactly when it agrees
      with the ledger; it loses them only in canonical form. */
  lemma MoveExactIff(s: System, m: Move, resolve: TargetId -> Resolution, key: LocationKey, id: TargetId)
    requires SystemInv(s, key) && !s.missing && Legal(s, m, key) && StaysAcked(m, key)
    requires AckedAt(s.w.db, key, id) && Exact(s, id)
    ensures var s' := Perform(s, m, resolve);
            && !s'.missing && AckedAt(s'.w.db, key, id) && (Exact(s', id) <==> AgreeingStep(s, s', id))
            && (Exact(s', id) || IsCanonicalV1(s'.w.db.outbox[id]))
  {
    hide AllImaged, DigestAgrees, OnceInv, Enqueue, Acknowledge, TaskOk, Step, Take, IsCanonicalV1;
    var kind, ledger, digest := id.kind, s.w.ledger, s.w.db.outbox[id].payload.digest;
    match m
    case DbMove(op) => DbMoveExactIff(s, op, key, id);
    case LiveAppend(e) => AllImagedStays(kind, ledger, ledger + [e], digest);
    case DrainStep =>
      match s.task {
        case Between(rest) =>
          TakeIsEnqueue(s, resolve);
          var s' := Take(s, resolve);
          if s'.w.db != s.w.db {
            EnqueueExactIff(s, resolve(rest[0].id).target, key, id);
          }
        case Appending(_, _, _, _, _, _, e) => AllImagedStays(kind, ledger, ledger + [e], digest);
        case Reading(_, taskId, _, canonical, observed) =>
          AcknowledgeKeepsAcked(s.w.db, taskId, observed, canonical, id);
        case _ =>
      }
    case _ =>
  }

  // ---------------------------------------------------------------- schedules

  ghost predicate AgreeingRun(s: System, moves: seq<Move>, resolve: TargetId -> Resolution, id: TargetId)
    decreases |moves|
  {
    moves != [] ==> AgreeingStep(s, Perform(s, moves[0], resolve), id)
                    && AgreeingRun(Perform(s, moves[0], resolve), moves[1..], resolve, id)
  }

  /** The target is acknowledged, and some event of it has no image. */
  ghost predicate Inexact(s: System, key: LocationKey, id: TargetId) {
    !s.missing && AckedAt(s.w.db, key, id) && IsCanonicalV1(s.w.db.outbox[id]) && !Exact(s, id)
  }

  /** An event held without being an image is a call that differs in its attribution, and as its slot is taken no
      further event can become its image. */
  lemma NoLaterImage(kind: string, ledger: seq<EventRecord>, e: EventRecord, x: EventInput, id: string)
    requires IsHeld(kind, ledger, x, id) && !Imaged(kind, ledger, x, id)
    requires EventSlot(e).Some? ==> InSlot(ledger, EventSlot(e).value) == []
    ensures !Imaged(kind, ledger + [e], x, id)
  {
    hide InSlot, EventSlot, Identified, ProjectionEventMatches, IsToolCallKind;
    var f :| f in ledger && Held(kind, f, x, id);
    assert SameCall(kind, f, x) by {
      assert !Image(kind, f, x, id);
    }
    CallInSlot(kind, f, x, id);
    if Image(kind, e, x, id) {
      CallOfImage(kind, e, x, id);
      CallInSlot(kind, e, x, id);
      SlotMember(ledger, f, CallSlot(Field(x.payload, "toolUseId")));
    }
  }

  lemma AppendStaysInexact(kind: string, ledger: seq<EventRecord>, e: EventRecord, digest: Digest)
    requires Projected(kind, ledger, digest) && !AllImaged(kind, ledger, digest)
    requires EventSlot(e).Some? ==> InSlot(ledger, EventSlot(e).value) == []
    ensures !AllImaged(kind, ledger + [e], digest)
  {
    hide InSlot, EventSlot, IsHeld, Imaged;
    var i :| 0 <= i < |digest.events| && !Imaged(kind, ledger, TypedEvent(digest.events[i]).value, digest.ids[i]);
    NoLaterImage(kind, ledger, e, TypedEvent(digest.events[i]).value, digest.ids[i]);
  }

  lemma AckedIsProjected(w: World, key: LocationKey, id: TargetId)
    requires OnceInv(w, key) && AckedAt(w.db, key, id)
    ensures Projected(id.kind, w.ledger, w.db.outbox[id].payload.digest)
  {
  }

  lemma InexactMove(s: System, m: Move, resolve: TargetId -> Resolution, key: LocationKey, id: TargetId)
    requires SystemInv(s, key) && Legal(s, m, key) && StaysAcked(m, key) && Inexact(s, key, id)
    ensures Inexact(Perform(s, m, resolve), key, id)
  {
    hide AllImaged, OnceInv, Enqueue, Acknowledge, Step, Take, Projected, EventSlot, InSlot;
    var kind, ledger, digest := id.kind, s.w.ledger, s.w.db.outbox[id].payload.digest;
    match m
    case DbMove(op) => CanonicalDbMove(s.w.db, op, key, id);
    case LiveAppend(e) =>
      AckedIsProjected(s.w, key, id);
      AppendStaysInexact(kind, ledger, e, digest);
    case DrainStep =>
      match s.task {
        case Between(rest) =>
          TakeIsEnqueue(s, resolve);
          if Take(s, resolve).w.db != s.w.db {
            var t := resolve(rest[0].id).target;
            assert Step(s.w.db, EnqueueTarget(t)) == Take(s, resolve).w.db by { StepEnqueue(s.w.db, t); }
            CanonicalDbMove(s.w.db, EnqueueTarget(t), key, id);
          }
        case Appending(_, _, _, _, _, _, e) =>
          AckedIsProjected(s.w, key, id);
          AppendStaysInexact(kind, ledger, e, digest);
        case Reading(_, other, _, canonical, observed) =>
          AcknowledgeKeepsAcked(s.w.db, other, observed, canonical, id);
        case _ =>
      }
    case _ =>
  }

  lemma StepEnqueue(db: Db, t: Target)
    requires Enqueue(db, t).Ok?
    ensures Step(db, EnqueueTarget(t)) == Enqueue(db, t).value
  {
  }

  /** A canonical row that is acknowledged stays as it is. */
  lemma CanonicalDbMove(db: Db, op: Op, key: LocationKey, id: TargetId)
    requires AckedAt(db, key, id) && IsCanonicalV1(db.outbox[id])
    requires (op.AckTarget? ==> op.id.location != key) && op != ResetForRebuild(key)
    ensures var db' := Step(db, op);
            AckedAt(db', key, id) && db'.outbox[id].payload == db.outbox[id].payload
  {
    hide Enqueue, Acknowledge, Decode;
    if op.EnqueueTarget? && Enqueue(db, op.target).Ok? {
      EnqueueRow(db, op.target, id);
      PayloadFrozen(db, [op], id);
      assert Run(db, [op]) == Step(db, op) by { OneStep(db, op); }
    } else if op.AckTarget? {
      AcknowledgeKeepsAcked(db, op.id, op.observed, op.canonicalTarget, id);
    }
  }

  lemma OneStep(db: Db, op: Op)
    ensures Run(db, [op]) == Step(db, op)
  {
    hide Step;
    assert [op][1..] == [];
    assert Run(Step(db, op), []) == Step(db, op);
  }

  lemma {:induction false} InexactLasts(s: System, moves: seq<Move>, resolve: TargetId -> Resolution, key: LocationKey,
                                        id: TargetId)
    requires SystemInv(s, key) && AllLegal(s, moves, resolve, key) && CanonicalResolver(resolve)
    requires (forall i | 0 <= i < |moves| :: StaysAcked(moves[i], key)) && Inexact(s, key, id)
    ensures Inexact(PerformAll(s, moves, resolve), key, id)
    decreases |moves|
  {
    hide Perform, SystemInv, Legal, CanonicalResolver, Inexact, StaysAcked;
    if moves != [] {
      MoveKeepsOnce(s, moves[0], resolve, key);
      InexactMove(s, moves[0], resolve, key, id);
      InexactLasts(Perform(s, moves[0], resolve), moves[1..], resolve, key, id);
    }
  }

  /** From an acknowledgement on, until the targets are re-opened or the file is moved away, the target stays
      acknowledged, and its events keep their images exactly when every upgrade of it agreed with the ledger. */
  lemma {:induction false} ImagesLastIff(s: System, moves: seq<Move>, resolve: TargetId -> Resolution,
                                         key: LocationKey, id: TargetId)
    requires SystemInv(s, key) && !s.missing && AllLegal(s, moves, resolve, key) && CanonicalResolver(resolve)
    requires forall i | 0 <= i < |moves| :: StaysAcked(moves[i], key)
    requires AckedAt(s.w.db, key, id) && Exact(s, id)
    ensures var s' := PerformAll(s, moves, resolve);
            && !s'.missing && AckedAt(s'.w.db, key, id)
            && (Exact(s', id) <==> AgreeingRun(s, moves, resolve, id))
    decreases |moves|
  {
    hide Perform, SystemInv, Legal, CanonicalResolver, StaysAcked, Exact, AgreeingStep;
    if moves != [] {
      var s' := Perform(s, moves[0], resolve);
      MoveKeepsOnce(s, moves[0], resolve, key);
      MoveExactIff(s, moves[0], resolve, key, id);
      if Exact(s', id) {
        ImagesLastIff(s', moves[1..], resolve, key, id);
      } else {
        InexactLasts(s', moves[1..], resolve, key, id);
        assert Inexact(PerformAll(s', moves[1..], resolve), key, id);
      }
    }
  }

  /** Wherever the target is acknowledged, its events have images. */
  ghost predicate ImagedIfAcked(s: System, key: LocationKey, id: TargetId) {
    !s.missing && AckedAt(s.w.db, key, id) ==> Exact(s, id)
  }

  /** Only the acknowledging step of a drain makes a target acknowledged, and then its events have images. */
  lemma NewlyAcked(s: System, m: Move, resolve: TargetId -> Resolution, key: LocationKey, id: TargetId)
    requires SystemInv(s, key) && !s.missing && Legal(s, m, key) && !AckedAt(s.w.db, key, id)
    ensures ImagedIfAcked(Perform(s, m, resolve), key, id)
  {
    hide AllImaged, OnceInv, Enqueue, Acknowledge, Take, Projected, EventSlot, InSlot, TaskOk, Reserved;
    match m
    case DbMove(op) => DbMoveAddsNoAck(s.w.db, op, key, id);
    case DrainStep =>
      match s.task {
        case Between(rest) =>
          TakeIsEnqueue(s, resolve);
          if Take(s, resolve).w.db != s.w.db {
            EnqueueAddsNoAck(s.w.db, resolve(rest[0].id).target, key, id);
          }
        case Reading(_, other, _, canonical, observed) =>
          if Acknowledge(s.w.db, other, observed, canonical).1 {
            AcknowledgedImages(s);
            AcknowledgeEffect(s.w.db, other, observed, canonical);
          } else {
            RefusedChangesNothing(s.w.db, other, observed, canonical);
          }
        case _ =>
      }
    case _ =>
  }

  lemma EnqueueAddsNoAck(db: Db, t: Target, key: LocationKey, id: TargetId)
    requires Enqueue(db, t).Ok? && !AckedAt(db, key, id)
    ensures !AckedAt(Enqueue(db, t).value, key, id)
  {
    hide Decode, UpgradePermitted, DigestOf;
  }

  lemma DbMoveAddsNoAck(db: Db, op: Op, key: LocationKey, id: TargetId)
    requires !AckedAt(db, key, id) && (op.AckTarget? ==> op.id.location != key)
    ensures !AckedAt(Step(db, op), key, id)
  {
    hide Enqueue, Acknowledge;
    if op.EnqueueTarget? && Enqueue(db, op.target).Ok? {
      EnqueueAddsNoAck(db, op.target, key, id);
    } else if op.AckTarget? {
      if Acknowledge(db, op.id, op.observed, op.canonicalTarget).1 {
        AcknowledgedExists(db, op.id, op.observed, op.canonicalTarget);
        AcknowledgeEffect(db, op.id, op.observed, op.canonicalTarget);
      } else {
        RefusedChangesNothing(db, op.id, op.observed, op.canonicalTarget);
      }
    }
  }

  lemma AcknowledgedExists(db: Db, id: TargetId, observed: Expectation, canonical: Option<Expectation>)
    requires Acknowledge(db, id, observed, canonical).1
    ensures id in db.outbox
  {
    hide Covers, HasPending;
  }

  lemma ImagedMove(s: System, m: Move, resolve: TargetId -> Resolution, key: LocationKey, id: TargetId)
    requires SystemInv(s, key) && Legal(s, m, key) && ImagedIfAcked(s, key, id)
    requires AgreeingStep(s, Perform(s, m, resolve), id)
    ensures ImagedIfAcked(Perform(s, m, resolve), key, id)
  {
    hide Exact, DigestAgrees, OnceInv, TaskOk, Take, Look, Write, Ack, Reserved;
    if !s.missing && !AckedAt(s.w.db, key, id) {
      NewlyAcked(s, m, resolve, key, id);
    } else if !s.missing && StaysAcked(m, key) {
      MoveExactIff(s, m, resolve, key, id);
    }
  }

  /** Over every schedule, a target is acknowledged only with images of all its events in the ledger, unless an upgrade
      while it was acknowledged disagreed with the ledger. */
  lemma {:induction false} ImagesAlongRuns(s: System, moves: seq<Move>, resolve: TargetId -> Resolution,
                                           key: LocationKey, id: TargetId)
    requires SystemInv(s, key) && AllLegal(s, moves, resolve, key) && CanonicalResolver(resolve)
    requires ImagedIfAcked(s, key, id) && AgreeingRun(s, moves, resolve, id)
    ensures ImagedIfAcked(PerformAll(s, moves, resolve), key, id)
    decreases |moves|
  {
    hide Perform, SystemInv, Legal, CanonicalResolver, ImagedIfAcked, AgreeingStep;
    if moves != [] {
      MoveKeepsOnce(s, moves[0], resolve, key);
      ImagedMove(s, moves[0], resolve, key, id);
      ImagesAlongRuns(Perform(s, moves[0], resolve), moves[1..], resolve, key, id);
    }
  }

  // ---------------------------------------------------------------- readiness

  ghost predicate AllAdmissible(s: System, moves: seq<Move>, resolve: TargetId -> Resolution)
    decreases |moves|
  {
    moves != [] ==> (moves[0].DbMove? ==> Admissible(s.w.db, moves[0].op))
                    && AllAdmissible(Perform(s, moves[0], resolve), moves[1..], resolve)
  }

  lemma MoveKeepsInv(s: System, m: Move, resolve: TargetId -> Resolution)
    requires Inv(s.w.db) && (m.DbMove? ==> Admissible(s.w.db, m.op))
    ensures Inv(Perform(s, m, resolve).w.db)
  {
    hide Inv, Enqueue, Acknowledge, Take, Step, Admissible;
    match m
    case DbMove(op) => StepKeepsInv(s.w.db, op);
    case DrainStep =>
      match s.task {
        case Between(rest) =>
          TakeIsEnqueue(s, resolve);
          if Take(s, resolve).w.db != s.w.db {
            EnqueueKeepsInv(s.w.db, resolve(rest[0].id).target);
          }
        case Reading(_, id, _, canonical, observed) => AcknowledgeKeepsInv(s.w.db, id, observed, canonical);
        case _ =>
      }
    case _ =>
  }

  lemma {:induction false} InvAlongSchedules(s: System, moves: seq<Move>, resolve: TargetId -> Resolution)
    requires Inv(s.w.db) && AllAdmissible(s, moves, resolve)
    ensures Inv(PerformAll(s, moves, resolve).w.db)
    decreases |moves|
  {
    hide Perform, Inv, Admissible;
    if moves != [] {
      MoveKeepsInv(s, moves[0], resolve);
      InvAlongSchedules(Perform(s, moves[0], resolve), moves[1..], resolve);
    }
  }

  /** A ready row has its file in place and every target of the location acknowledged, with all its events in the
      ledger; and a target no upgrade of which disagreed has images of them all there. */
  lemma ReadyMeansProjected(s: System, moves: seq<Move>, resolve: TargetId -> Resolution, key: LocationKey,
                            id: TargetId)
    requires SystemInv(s, key) && AllLegal(s, moves, resolve, key) && CanonicalResolver(resolve)
    requires Inv(s.w.db) && AllAdmissible(s, moves, resolve)
    ensures var s' := PerformAll(s, moves, resolve);
            key in s'.w.db.rows && s'.w.db.rows[key].state == Ready && id in s'.w.db.outbox && id.location == key ==>
              && !s'.missing && AckedAt(s'.w.db, key, id)
              && Projected(id.kind, s'.w.ledger, s'.w.db.outbox[id].payload.digest)
              && (ImagedIfAcked(s, key, id) && AgreeingRun(s, moves, resolve, id) ==> Exact(s', id))
  {
    hide PerformAll, AllLegal, CanonicalResolver, AllAdmissible, AgreeingRun, Projected, AllImaged, TaskOk, AtMostOnce;
    ExactlyOnceProjection(s, moves, resolve, key);
    InvAlongSchedules(s, moves, resolve);
    if ImagedIfAcked(s, key, id) && AgreeingRun(s, moves, resolve, id) {
      ImagesAlongRuns(s, moves, resolve, key, id);
    }
  }

  // ---------------------------------------------------------------- an upgrade that disagrees

  const CALL: Payload := map["toolUseId" := Str("u"), "stepId" := Str("s"), "name" := Str("n"), "args" := Obj(map[]),
                             "turnId" := Str("t")]

  /** The call as it was recorded when it was made, as the old row has it, and as canonical History has it now. */
  const LIVE_CALL: EventRecord := EventRecord("tool_call", Some(2), CALL["requestId" := Str("r1")], false)
  const OLD_CALL: EventInput := EventInput("tool_call", None, CALL)
  const NEW_CALL: EventInput := EventInput("tool_call", Some(2), CALL["requestId" := Str("r2")])

  const CALL_ID: string := "tool_call:u"
  const REATTRIBUTED: Target := Target(TargetId(PLACE, "event", "tool-call:u"), "session", "first", 0, [NEW_CALL],
                                       [CALL_ID])
  const COMMITTED_CALL: Payload := map["toolUseId" := Str("u"), "name" := Str("n"), "args" := Obj(map[]),
                                       "requestId" := Str("r2")]
  const RESPONSE_SIDECAR: Payload :=
    map["location" := Obj(map["workDir" := Str("work"), "sessionId" := Str("session"), "createdAt" := Num(0)]),
        "stepId" := Str("s"), "toolCalls" := Arr([Obj(COMMITTED_CALL)])]
  const RESPONSE: Canonical := Canonical(1, "model-response-committed", "t",
                                         Obj(map["sessionLedger" := Obj(RESPONSE_SIDECAR)]))
  const CALL_ROW: OutboxRow := OutboxRow("session", "first", 1, 0, EncodeLegacy([EventObject(OLD_CALL)], [CALL_ID]),
                                         Acked)
  const CHECKING: Row := LegacyRow("first").(state := Checking, checkToken := Some(0))
  const CALL_DB: Db := Db(map[PLACE := CHECKING], map[REATTRIBUTED.id := CALL_ROW],
                          map[HistoryKey("event", "session") := RESPONSE])
  const CALL_WORLD: World := World(CALL_DB, [LIVE_CALL])

  lemma CallRowDecodes()
    ensures Decode(CALL_ROW.payload) == Ok(LegacyPayload([EventObject(OLD_CALL)], [CALL_ID]))
    ensures CALL_ROW.payload.digest == DigestOf([OLD_CALL], [CALL_ID])
    ensures CALL_ROW.payload.digest != DigestOf(REATTRIBUTED.events, REATTRIBUTED.ids)
  {
    assert [CALL_ID][0] == CALL_ID && |CALL_ID| > 0;
    DecodeRoundTrip(CALL_ROW.payload, [], [EventObject(OLD_CALL)], [CALL_ID]);
    assert EventObjects(REATTRIBUTED.events)[0] == EventObject(NEW_CALL);
    assert "schemaVersion" in EventObject(NEW_CALL) && "schemaVersion" !in EventObject(OLD_CALL);
    assert [EventObject(OLD_CALL)][0] == EventObject(OLD_CALL);
    assert EventObjects([OLD_CALL]) == [EventObject(OLD_CALL)];
  }

  lemma CallsNest()
    ensures CALL["requestId" := Str("r1")] - ATTRIBUTION == CALL && CALL["requestId" := Str("r2")] - ATTRIBUTION == CALL
    ensures CALL - ATTRIBUTION == CALL
    ensures AttributionCompatible(LIVE_CALL.payload, OLD_CALL.payload)
    ensures AttributionCompatible(OLD_CALL.payload, NEW_CALL.payload)
    ensures !AttributionCompatible(LIVE_CALL.payload, NEW_CALL.payload)
    ensures LIVE_CALL.payload != NEW_CALL.payload
  {
    assert "requestId" in ATTRIBUTION;
    assert !AttributionFieldCompatible("requestId", LIVE_CALL.payload, NEW_CALL.payload);
    assert "r1"[1] == '1' && "r2"[1] == '2';
  }

  lemma LiveCallFillsSlot()
    ensures SlotFilled("tool-call:u", [LIVE_CALL], OLD_CALL)
  {
    assert Wanted("tool-call:u", OLD_CALL) == Some(CallSlot(Some(Str("u"))));
    assert EventSlot([LIVE_CALL][0]) == Some(CallSlot(Some(Str("u"))));
  }

  lemma HeldOfImage(kind: string, e: EventRecord, x: EventInput, id: string)
    requires Image(kind, e, x, id)
    ensures Held(kind, e, x, id)
  {
  }

  lemma LiveCallIsImage()
    ensures Image("tool-call:u", LIVE_CALL, OLD_CALL, CALL_ID)
    ensures IsHeld("tool-call:u", [LIVE_CALL], OLD_CALL, CALL_ID)
  {
    CallsNest();
    hide AttributionCompatible;
    assert "tool-call:u"[..10] == "tool-call:" && "tool-call:"[5] == 'c' && "tool-result"[..10][5] == 'r';
    assert "tool_call" + ":" + "u" == CALL_ID;
    assert Image("tool-call:u", LIVE_CALL, OLD_CALL, CALL_ID);
    LiveCallFillsSlot();
    hide Image, SlotFilled;
    assert LIVE_CALL in [LIVE_CALL] && Held("tool-call:u", LIVE_CALL, OLD_CALL, CALL_ID) by {
      HeldOfImage("tool-call:u", LIVE_CALL, OLD_CALL, CALL_ID);
    }
  }

  lemma CallWorldOk()
    ensures OnceInv(CALL_WORLD, PLACE) && Inv(CALL_DB)
    ensures AllImaged(REATTRIBUTED.id.kind, CALL_WORLD.ledger, CALL_ROW.payload.digest)
  {
    CallRowDecodes();
    LiveCallIsImage();
    hide Image, IsHeld, Decode, DigestOf;
    DigestHeld("tool-call:u", [LIVE_CALL], [OLD_CALL], [CALL_ID]);
    assert Imaged("tool-call:u", [LIVE_CALL], OLD_CALL, CALL_ID);
    DigestImaged("tool-call:u", [LIVE_CALL], [OLD_CALL], [CALL_ID]);
    assert [LIVE_CALL][1..] == [];
  }

  lemma ResponseNamesPlace()
    ensures SidecarLocation(RESPONSE_SIDECAR) == Some(PLACE)
  {
    assert "work"[0] == 'w' && "session"[0] == 's';
  }

  lemma ResponseHasCall()
    ensures CallsFor([Obj(COMMITTED_CALL)], "u") == [COMMITTED_CALL]
  {
    assert [Obj(COMMITTED_CALL)][1..] == [];
  }

  lemma RequestAdded()
    ensures AddedAttribution(OLD_CALL.payload, NEW_CALL.payload) == {"requestId"}
  {
    assert "requestId" in ATTRIBUTION;
  }

  lemma ReattributionPermitted()
    ensures UpgradePermitted(REATTRIBUTED, [EventObject(OLD_CALL)], [CALL_ID], RESPONSE)
  {
    TypedEventOfObject(OLD_CALL);
    CallsNest();
    ResponseNamesPlace();
    ResponseHasCall();
    RequestAdded();
    hide TypedEvent, AttributionCompatible, SidecarLocation, CallsFor, AddedAttribution, EventObject;
    assert ToolCallKind("u") == "tool-call:u" && "tool_call:" + "u" == CALL_ID;
    assert AttributionEnrichment(REATTRIBUTED, [EventObject(OLD_CALL)], [CALL_ID], RESPONSE);
  }

  lemma ReattributionEnqueued()
    ensures Enqueue(CALL_DB, REATTRIBUTED).Ok?
    ensures var db' := Enqueue(CALL_DB, REATTRIBUTED).value;
            && db'.outbox == map[REATTRIBUTED.id := CALL_ROW.(payload := Encode([NEW_CALL], [CALL_ID]))]
            && db'.rows == CALL_DB.rows
  {
    CallRowDecodes();
    ReattributionPermitted();
    hide Decode, UpgradePermitted, DigestOf;
    assert [CALL_ID][0] == CALL_ID && |CALL_ID| > 0;
  }

  /** It happens: a call recorded under one request, an old row without a request, and a canonical response that names
      another one. The invariants hold, the enqueue of the baseline upgrades the acknowledged row, the check completes,
      and the row is ready although no event of the ledger matches the material the target now stands for. */
  lemma LateAttribution()
    ensures OnceInv(CALL_WORLD, PLACE) && Inv(CALL_DB) && AckedAt(CALL_DB, PLACE, REATTRIBUTED.id)
    ensures AllImaged(REATTRIBUTED.id.kind, [LIVE_CALL], CALL_ROW.payload.digest)
    ensures var ops := [EnqueueTarget(REATTRIBUTED), OnRow(PLACE, CompleteCheck(0, Proof("w", 1)))];
            var db' := Run(CALL_DB, ops);
            && AdmissibleRun(CALL_DB, ops)
            && PLACE in db'.rows && db'.rows[PLACE].state == Ready && AckedAt(db', PLACE, REATTRIBUTED.id)
            && db'.outbox[REATTRIBUTED.id].payload.digest == DigestOf([NEW_CALL], [CALL_ID])
    ensures !ProjectionEventMatches(REATTRIBUTED.id.kind, NEW_CALL, ObservedInput(LIVE_CALL))
    ensures !Agrees([LIVE_CALL], NEW_CALL)
  {
    CallWorldOk();
    CallDisagrees();
    hide DigestOf, OnceInv, AllImaged, Inv, Agrees, ProjectionEventMatches, Run, Step, Admissible, Decode;
    CheckCompletes();
  }

  lemma CallDisagrees()
    ensures !ProjectionEventMatches(REATTRIBUTED.id.kind, NEW_CALL, ObservedInput(LIVE_CALL))
    ensures !Agrees([LIVE_CALL], NEW_CALL)
  {
    CallsNest();
    assert "tool-call:u"[..10] == "tool-call:" && "tool-call:"[5] == 'c' && "tool-result"[..10][5] == 'r';
    assert !AttributionAgrees(LIVE_CALL.payload, NEW_CALL.payload) by {
      assert "requestId" in ATTRIBUTION && "r1"[1] == '1' && "r2"[1] == '2';
    }
    SlotMember([LIVE_CALL], LIVE_CALL, CallSlot(Some(Str("u"))));
  }

  lemma CheckCompletes()
    ensures var ops := [EnqueueTarget(REATTRIBUTED), OnRow(PLACE, CompleteCheck(0, Proof("w", 1)))];
            var db' := Run(CALL_DB, ops);
            && AdmissibleRun(CALL_DB, ops)
            && PLACE in db'.rows && db'.rows[PLACE].state == Ready && AckedAt(db', PLACE, REATTRIBUTED.id)
            && db'.outbox[REATTRIBUTED.id].payload.digest == DigestOf([NEW_CALL], [CALL_ID])
  {
    ReattributionEnqueued();
    hide Enqueue, DigestOf, Run, AdmissibleRun;
    RunTwo(CALL_DB, EnqueueTarget(REATTRIBUTED), OnRow(PLACE, CompleteCheck(0, Proof("w", 1))));
    var db := Step(CALL_DB, EnqueueTarget(REATTRIBUTED));
    assert !HasPending(db.outbox, PLACE);
    assert |"w"| > 0;
  }

  lemma RunTwo(db: Db, a: Op, b: Op)
    ensures Run(db, [a, b]) == Step(Step(db, a), b)
    ensures AdmissibleRun(db, [a, b]) <==> Admissible(db, a) && Admissible(Step(db, a), b)
  {
    hide Step, Admissible;
    var next := Step(db, a);
    assert [a, b][1..] == [b] && [b][1..] == [];
    assert Run(Step(next, b), []) == Step(next, b);
    assert AdmissibleRun(Step(next, b), []);
    assert AdmissibleRun(next, [b]) <==> Admissible(next, b);
  }
}
