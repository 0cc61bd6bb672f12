/** What holds over every run of the readiness and outbox tables. */
module LedgerRuns {
  import opened Json
  import opened Readiness
  import opened Outbox
  import opened LedgerStore

  // ---------------------------------------------------------------- invariants of every reachable state

  lemma PendingAfterUpdate(outbox: map<TargetId, OutboxRow>, id: TargetId, row: OutboxRow, key: LocationKey)
    ensures key != id.location ==> HasPending(outbox[id := row], key) == HasPending(outbox, key)
    ensures row.status == Pending ==> HasPending(outbox[id := row], id.location)
    ensures id in outbox && row.status == outbox[id].status ==>
        HasPending(outbox[id := row], key) == HasPending(outbox, key)
    ensures row.status == Acked && !HasPending(outbox, key) ==> !HasPending(outbox[id := row], key)
    ensures row.status == Acked && HasPending(outbox[id := row], key) ==> HasPending(outbox, key)
  {
  }

  lemma PendingAfterReset(outbox: map<TargetId, OutboxRow>, key: LocationKey, other: LocationKey)
    ensures other != key ==> HasPending(ResetOutbox(outbox, key), other) == HasPending(outbox, other)
    ensures HasPending(outbox, other) ==> HasPending(ResetOutbox(outbox, key), other)
  {
  }

  lemma StepKeepsInv(db: Db, op: Op)
    requires Inv(db) && Admissible(db, op)
    ensures Inv(Step(db, op))
  {
    match op
    case OnRow(key, rowOp) =>
      if key in db.rows {
        UpdateKeepsRowInv(rowOp, db.rows[key], HasPending(db.outbox, key));
      }
    case EnqueueTarget(t) =>
      if Enqueue(db, t).Ok? {
        EnqueueKeepsInv(db, t);
      }
    case AckTarget(id, observed, canonical) => AcknowledgeKeepsInv(db, id, observed, canonical);
    case ResetForRebuild(key) =>
      forall other | other in db.rows ensures RowInv(db.rows[other], HasPending(ResetOutbox(db.outbox, key), other)) {
        PendingAfterReset(db.outbox, key, other);
      }
    case InsertLegacy(_, _) => FreshRowInv(db, op);
    case InsertNew(_, _, _) => FreshRowInv(db, op);
    case CommitHistory(_, _) =>
  }

  lemma FreshRowInv(db: Db, op: Op)
    requires Inv(db) && Admissible(db, op) && (op.InsertLegacy? || op.InsertNew?)
    ensures Inv(Step(db, op))
  {
  }

  lemma EnqueueKeepsInv(db: Db, t: Target)
    requires Inv(db) && Enqueue(db, t).Ok?
    ensures Inv(Enqueue(db, t).value)
  {
    var db' := Enqueue(db, t).value;
    var row := db'.outbox[t.id];
    assert db'.outbox == db.outbox[t.id := row];
    assert t.id in db.outbox ==> row.status == db.outbox[t.id].status;
    forall key | key in db'.rows ensures RowInv(db'.rows[key], HasPending(db'.outbox, key)) {
      PendingAfterUpdate(db.outbox, t.id, row, key);
      if key == t.id.location && row.status == Pending {
        UpdateKeepsRowInv(EnqueuedPending, db.rows[key], true);
      }
    }
  }

  lemma AcknowledgeKeepsInv(db: Db, id: TargetId, observed: Expectation, canonical: Option<Expectation>)
    requires Inv(db)
    ensures Inv(Acknowledge(db, id, observed, canonical).0)
  {
    var db' := Acknowledge(db, id, observed, canonical).0;
    if db' != db {
      var row := db'.outbox[id];
      assert db'.outbox == db.outbox[id := row];
      assert HasPending(db.outbox, id.location);
      forall key | key in db'.rows ensures RowInv(db'.rows[key], HasPending(db'.outbox, key)) {
        PendingAfterUpdate(db.outbox, id, row, key);
        if key == id.location && !HasPending(db'.outbox, key) {
          UpdateKeepsRowInv(AckedLast, db.rows[key], false);
        }
      }
    }
  }

  /** Ready rows have nothing pending, dirty rows something, a token is held exactly while checking, a retry scope
      exactly while blocked: in every state any interleaving of the application's steps can reach. */
  lemma {:induction false} InvAlongRuns(db: Db, ops: seq<Op>)
    requires Inv(db) && AdmissibleRun(db, ops)
    ensures Inv(Run(db, ops))
    decreases |ops|
  {
    if ops != [] {
      StepKeepsInv(db, ops[0]);
      InvAlongRuns(Step(db, ops[0]), ops[1..]);
    }
  }

  /** From an empty database no run makes the gate throw, and the gate opens only with nothing pending. */
  lemma GateNeverFails(ops: seq<Op>, key: LocationKey)
    requires AdmissibleRun(EMPTY, ops)
    ensures var db := Run(EMPTY, ops);
            key in db.rows ==>
              && DecideGate(db.rows[key]).Ok?
              && (DecideGate(db.rows[key]) == Ok(AllowReady) ==> !HasPending(db.outbox, key))
  {
    InvAlongRuns(EMPTY, ops);
    var db := Run(EMPTY, ops);
    if key in db.rows {
      GateIsTotalOnReachableRows(db.rows[key], HasPending(db.outbox, key));
    }
  }

  /** Why a rebuild may not re-open targets at a ready row: it breaks the invariant exactly when the location has a
      target. */
  lemma ResetAtReady(db: Db, key: LocationKey)
    requires Inv(db) && key in db.rows && db.rows[key].state == Ready
    ensures Inv(Step(db, ResetForRebuild(key))) <==> forall id | id in db.outbox :: id.location != key
  {
    var reset := ResetOutbox(db.outbox, key);
    if id :| id in db.outbox && id.location == key {
      assert id in reset && reset[id].status == Pending;
      assert HasPending(reset, key);
    } else {
      assert reset == db.outbox;
    }
  }

  /** The single-row update a step amounts to at `key`. */
  function Effect(db: Db, op: Op, key: LocationKey): Option<RowOp> {
    match op
    case OnRow(k, rowOp) => if k == key then Some(rowOp) else None
    case EnqueueTarget(t) => if EnqueuesPending(db, t, key) then Some(EnqueuedPending) else None
    case AckTarget(id, observed, canonical) => if AcksLast(db, id, observed, canonical, key) then Some(AckedLast)
        else None
    case _ => None
  }

  /** The target is accepted at this location and is pending afterwards. */
  predicate EnqueuesPending(db: Db, t: Target, key: LocationKey) {
    t.id.location == key && Enqueue(db, t).Ok? && Enqueue(db, t).value.outbox[t.id].status == Pending
  }

  predicate AcksLast(db: Db, id: TargetId, observed: Expectation, canonical: Option<Expectation>, key: LocationKey) {
    && id.location == key && id in db.outbox && Covers(id, db.outbox[id], observed, canonical)
        && db.outbox[id].status == Pending
    && !HasPending(db.outbox[id := db.outbox[id].(status := Acked)], key)
  }

  function AfterEffect(effect: Option<RowOp>, row: Row, pending: bool): Row {
    if effect.Some? then Apply(effect.value, row, pending) else row
  }

  lemma StepEffect(db: Db, op: Op, key: LocationKey)
    requires key in db.rows
    ensures key in Step(db, op).rows
    ensures Step(db, op).rows[key] == AfterEffect(Effect(db, op, key), db.rows[key], HasPending(db.outbox, key))
  {
    hide Reconciled, Covers, ValidExpectation, Decode, DigestOf;
    match op
    case OnRow(k, rowOp) =>
    case EnqueueTarget(t) =>
      if Enqueue(db, t).Ok? {
      }
    case AckTarget(id, observed, canonical) =>
    case _ =>
  }

  predicate SameProvenance(r: Row, r': Row) {
    r.origin == r'.origin && r.bootstrapId == r'.bootstrapId && r.sessionGeneration == r'.sessionGeneration
  }

  lemma EffectPersists(effect: Option<RowOp>, row: Row, pending: bool)
    ensures row.owner <= AfterEffect(effect, row, pending).owner
        && SameProvenance(row, AfterEffect(effect, row, pending))
  {
  }

  /** No row is ever removed, its provenance is fixed, and its reconciled owner generation never decreases. */
  lemma {:induction false} RowsPersist(db: Db, ops: seq<Op>, key: LocationKey)
    requires key in db.rows
    ensures key in Run(db, ops).rows
    ensures db.rows[key].owner <= Run(db, ops).rows[key].owner && SameProvenance(db.rows[key], Run(db, ops).rows[key])
    decreases |ops|
  {
    if ops != [] {
      StepEffect(db, ops[0], key);
      EffectPersists(Effect(db, ops[0], key), db.rows[key], HasPending(db.outbox, key));
      RowsPersist(Step(db, ops[0]), ops[1..], key);
    }
  }

  // ---------------------------------------------------------------- check token

  ghost predicate HoldsToken(db: Db, key: LocationKey, t: Token) {
    key in db.rows && db.rows[key].state == Checking && db.rows[key].checkToken == Some(t)
  }

  predicate Mints(op: Op, t: Token) {
    op.OnRow? && op.op.BeginCheck? && op.op.minted == t
  }

  /** The steps that take a running check away: a new or still pending target, a block, a recovery, its own
      completion. */
  predicate Disturbs(db: Db, op: Op, key: LocationKey, t: Token) {
    match op
    case OnRow(k, rowOp) =>
      && k == key && key in db.rows
      && (match rowOp
          case CompleteCheck(token, proof) => token == t && ValidProof(proof)
          case RecoverCheck => true
          case Block(_, _) => true
          case BlockMissing => db.rows[key].origin == Legacy
          case EnqueuedPending => true
          case _ => false)
    case EnqueueTarget(target) => EnqueuesPending(db, target, key)
    case _ => false
  }

  /** No step of the run disturbs the check held at `key`. */
  predicate Undisturbed(db: Db, ops: seq<Op>, key: LocationKey, t: Token)
    decreases |ops|
  {
    ops != [] ==> !Disturbs(db, ops[0], key, t) && Undisturbed(Step(db, ops[0]), ops[1..], key, t)
  }

  predicate EffectDisturbs(effect: Option<RowOp>, origin: Origin, t: Token) {
    effect.Some? && match effect.value
                    case CompleteCheck(token, proof) => token == t && ValidProof(proof)
                    case RecoverCheck => true
                    case Block(_, _) => true
                    case BlockMissing => origin == Legacy
                    case EnqueuedPending => true
                    case _ => false
  }

  lemma EffectOnToken(effect: Option<RowOp>, row: Row, pending: bool, t: Token)
    requires RowInv(row, pending) && effect != Some(BeginCheck(t))
    ensures var row' := AfterEffect(effect, row, pending);
            row'.state == Checking && row'.checkToken == Some(t) <==>
            row.state == Checking && row.checkToken == Some(t) && !EffectDisturbs(effect, row.origin, t)
  {
  }

  /** A step disturbs the check exactly when the row update it amounts to does. */
  lemma DisturbsByEffect(db: Db, op: Op, key: LocationKey, t: Token)
    requires key in db.rows
    ensures Disturbs(db, op, key, t) <==> EffectDisturbs(Effect(db, op, key), db.rows[key].origin, t)
    ensures Effect(db, op, key) == Some(BeginCheck(t)) ==> Mints(op, t)
  {
    hide EnqueuesPending, AcksLast;
  }

  lemma TokenStep(db: Db, op: Op, key: LocationKey, t: Token)
    requires Inv(db) && !Mints(op, t) && key in db.rows
    ensures key in Step(db, op).rows
    ensures HoldsToken(Step(db, op), key, t) <==> HoldsToken(db, key, t) && !Disturbs(db, op, key, t)
  {
    hide Step, Disturbs, EffectDisturbs, Effect, Mints, AfterEffect, HasPending, RowInv;
    StepEffect(db, op, key);
    DisturbsByEffect(db, op, key, t);
    EffectOnToken(Effect(db, op, key), db.rows[key], HasPending(db.outbox, key), t);
  }

  /** The token stays valid exactly as long as nothing disturbs the check; once lost it never comes back. */
  lemma {:induction false} TokenAlongRuns(db: Db, ops: seq<Op>, key: LocationKey, t: Token)
    requires Inv(db) && AdmissibleRun(db, ops) && key in db.rows
    requires forall i | 0 <= i < |ops| :: !Mints(ops[i], t)
    ensures HoldsToken(Run(db, ops), key, t) <==> HoldsToken(db, key, t) && Undisturbed(db, ops, key, t)
    decreases |ops|
  {
    if ops != [] {
      TokenStep(db, ops[0], key, t);
      StepKeepsInv(db, ops[0]);
      var next := Step(db, ops[0]);
      assert forall i | 0 <= i < |ops| - 1 :: ops[1..][i] == ops[i + 1];
      TokenAlongRuns(next, ops[1..], key, t);
    }
  }

  /** A completion succeeds exactly when no new or pending target, block, recovery or earlier completion came since the
      token was minted; a stale one changes nothing at all. */
  lemma CheckTokenSafety(db: Db, minted: Db, ops: seq<Op>, key: LocationKey, t: Token, proof: Proof)
    requires Inv(db) && key in db.rows && Enabled(BeginCheck(t), db.rows[key], HasPending(db.outbox, key))
    requires minted == Step(db, OnRow(key, BeginCheck(t)))
    requires AdmissibleRun(minted, ops)
    requires forall i | 0 <= i < |ops| :: !Mints(ops[i], t)
    requires ValidProof(proof)
    ensures var before := Run(minted, ops);
            && key in before.rows
            && (Enabled(CompleteCheck(t, proof), before.rows[key], HasPending(before.outbox, key)) <==>
                Undisturbed(minted, ops, key, t))
            && (!Undisturbed(minted, ops, key, t) ==> Step(before, OnRow(key, CompleteCheck(t, proof))) == before)
            && (Undisturbed(minted, ops, key, t) ==>
                  Step(before, OnRow(key, CompleteCheck(t, proof))).rows[key].state == if HasPending(before.outbox, key)
                      then Dirty else Ready)
  {
    StepKeepsInv(db, OnRow(key, BeginCheck(t)));
    assert HoldsToken(minted, key, t);
    TokenAlongRuns(minted, ops, key, t);
    RowsPersist(minted, ops, key);
    CompletionOutcome(Run(minted, ops), key, t, proof);
  }

  lemma CompletionOutcome(db: Db, key: LocationKey, t: Token, proof: Proof)
    requires key in db.rows && ValidProof(proof)
    ensures Enabled(CompleteCheck(t, proof), db.rows[key], HasPending(db.outbox, key)) <==> HoldsToken(db, key, t)
    ensures !HoldsToken(db, key, t) ==> Step(db, OnRow(key, CompleteCheck(t, proof))) == db
    ensures HoldsToken(db, key, t) ==>
              Step(db, OnRow(key, CompleteCheck(t, proof))).rows[key].state == if HasPending(db.outbox, key) then Dirty
                  else Ready
  {
  }

  /** A rival check cannot start while a token is held: it first needs one of the disturbing steps. */
  lemma NoRivalWhileHeld(db: Db, key: LocationKey, t: Token, rival: Token)
    requires Inv(db) && HoldsToken(db, key, t)
    ensures Step(db, OnRow(key, BeginCheck(rival))) == db
  {
  }

  // ---------------------------------------------------------------- frozen payloads

  predicate IsCanonicalV1(row: OutboxRow) {
    row.payload == StoredPayload(Parsed(MARKER), Parsed(MARKER), row.payload.digest) && row.payload.digest.Sha256?
  }

  /** Everything about a stored target except its payload and status. */
  predicate SameIdentity(a: OutboxRow, b: OutboxRow) {
    a.sessionId == b.sessionId && a.sessionGeneration == b.sessionGeneration && a.sequence == b.sequence
        && a.order == b.order
  }

  /** Number of steps of the run that change the stored payload of a target. */
  function PayloadChanges(db: Db, ops: seq<Op>, id: TargetId): nat
    decreases |ops|
  {
    if ops == [] || id !in db.outbox then 0
    else
      var next := Step(db, ops[0]);
      (if id in next.outbox && next.outbox[id].payload != db.outbox[id].payload then 1 else 0)
          + PayloadChanges(next, ops[1..], id)
  }

  /** The only step that rewrites a payload replaces a legacy one by the canonical form of a permitted upgrade. */
  lemma PayloadStep(db: Db, op: Op, id: TargetId)
    requires id in db.outbox
    ensures id in Step(db, op).outbox && SameIdentity(db.outbox[id], Step(db, op).outbox[id])
    ensures var row, row' := db.outbox[id], Step(db, op).outbox[id];
            row'.payload != row.payload ==>
              && op.EnqueueTarget? && op.target.id == id
              && Decode(row.payload).Ok? && Decode(row.payload).value.LegacyPayload?
              && (var key := HistoryKey(id.canonicalEventId, op.target.sessionId);
                  && key in db.history
                  && UpgradePermitted(op.target, Decode(row.payload).value.events, Decode(row.payload).value.ids,
                                      db.history[key]))
              && row'.payload == Encode(op.target.events, op.target.ids)
  {
    hide Decode, Encode, UpgradePermitted, DigestOf, HasPending, Covers, ValidExpectation;
  }

  /** A target keeps its identity for ever; its payload changes at most once, and never once it is canonical-v1. */
  lemma {:induction false} PayloadFrozen(db: Db, ops: seq<Op>, id: TargetId)
    requires id in db.outbox
    ensures id in Run(db, ops).outbox && SameIdentity(db.outbox[id], Run(db, ops).outbox[id])
    ensures PayloadChanges(db, ops, id) <= (if IsCanonicalV1(db.outbox[id]) then 0 else 1)
    ensures IsCanonicalV1(db.outbox[id]) ==> Run(db, ops).outbox[id].payload == db.outbox[id].payload
    ensures Run(db, ops).outbox[id].payload != db.outbox[id].payload ==> IsCanonicalV1(Run(db, ops).outbox[id])
    decreases |ops|
  {
    if ops != [] {
      PayloadStep(db, ops[0], id);
      PayloadFrozen(Step(db, ops[0]), ops[1..], id);
    }
  }

  /** A committed History event is never replaced, so what a target is resolved against is fixed too. */
  lemma {:induction false} HistoryFrozen(db: Db, ops: seq<Op>, key: HistoryKey)
    requires key in db.history
    ensures key in Run(db, ops).history && Run(db, ops).history[key] == db.history[key]
    decreases |ops|
  {
    if ops != [] {
      assert key in Step(db, ops[0]).history && Step(db, ops[0]).history[key] == db.history[key];
      HistoryFrozen(Step(db, ops[0]), ops[1..], key);
    }
  }

  lemma DecodableStep(db: Db, op: Op, id: TargetId)
    requires AllDecodable(db) && id in Step(db, op).outbox
    ensures Decode(Step(db, op).outbox[id].payload).Ok?
  {
    hide UpgradePermitted, HasPending, Covers, ValidExpectation;
    if id in db.outbox {
      PayloadStep(db, op, id);
    }
  }

  /** Every payload the application itself stores decodes; only an imported row can be undecodable. */
  predicate AllDecodable(db: Db) {
    forall id | id in db.outbox :: Decode(db.outbox[id].payload).Ok?
  }

  lemma {:induction false} DecodableAlongRuns(db: Db, ops: seq<Op>)
    requires AllDecodable(db)
    ensures AllDecodable(Run(db, ops))
    decreases |ops|
  {
    if ops != [] {
      var next := Step(db, ops[0]);
      forall id | id in next.outbox ensures Decode(next.outbox[id].payload).Ok? {
        DecodableStep(db, ops[0], id);
      }
      hide Step;
      DecodableAlongRuns(next, ops[1..]);
    }
  }
}
