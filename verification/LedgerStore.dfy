/** The readiness and outbox tables as one mutable store; every method is one statement or one transaction
    (electron/sessionLedgerReadiness.ts, electron/sessionLedgerOutbox.ts). */
module LedgerStore {
  import opened Json
  import opened Readiness
  import opened Outbox

  /** One atomic step of any actor. */
  datatype Op =
    | OnRow(key: LocationKey, op: RowOp)
    | InsertLegacy(key: LocationKey, sessionGeneration: string)
    | InsertNew(key: LocationKey, sessionGeneration: string, bootstrapId: string)
    | CommitHistory(event: HistoryKey, canonical: Canonical)
    | EnqueueTarget(target: Target)
    | AckTarget(id: TargetId, observed: Expectation, canonicalTarget: Option<Expectation>)
    | ResetForRebuild(key: LocationKey)

  function ResetOutbox(outbox: map<TargetId, OutboxRow>, key: LocationKey): map<TargetId, OutboxRow> {
    map id | id in outbox :: if id.location == key then outbox[id].(status := Pending) else outbox[id]
  }

  function Step(db: Db, op: Op): Db {
    match op
    case OnRow(key, rowOp) => db.(rows := SetRow(db.rows, key, rowOp, HasPending(db.outbox, key)))
    case InsertLegacy(key, generation) => if key in db.rows then db
        else db.(rows := db.rows[key := LegacyRow(generation)])
    case InsertNew(key, generation, id) => if key in db.rows then db
        else db.(rows := db.rows[key := NewRow(generation, id)])
    case CommitHistory(event, canonical) => if event in db.history then db
        else db.(history := db.history[event := canonical])
    case EnqueueTarget(target) => var r := Enqueue(db, target); if r.Ok? then r.value else db
    case AckTarget(id, observed, canonical) => Acknowledge(db, id, observed, canonical).0
    case ResetForRebuild(key) => db.(outbox := ResetOutbox(db.outbox, key))
  }

  function Run(db: Db, ops: seq<Op>): Db
    decreases |ops|
  {
    if ops == [] then db else Run(Step(db, ops[0]), ops[1..])
  }

  /** Steps the application can issue: the two outbox-owned row updates come only from the outbox, a bootstrap id is not
      blank, and a rebuild re-opens targets only while the readiness row is not ready (it holds the check at that
      time). */
  predicate Admissible(db: Db, op: Op) {
    match op
    case OnRow(_, rowOp) => rowOp != EnqueuedPending && rowOp != AckedLast
    case InsertNew(_, _, id) => id != ""
    case ResetForRebuild(key) => key in db.rows ==> db.rows[key].state != Ready
    case _ => true
  }

  predicate AdmissibleRun(db: Db, ops: seq<Op>)
    decreases |ops|
  {
    ops != [] ==> Admissible(db, ops[0]) && AdmissibleRun(Step(db, ops[0]), ops[1..])
  }

  ghost predicate Inv(db: Db) {
    && (forall key | key in db.rows :: RowInv(db.rows[key], HasPending(db.outbox, key)))
    && (forall id | id in db.outbox :: id.location in db.rows)
  }

  const EMPTY: Db := Db(map[], map[], map[])

  class Store {
    var rows: map<LocationKey, Row>
    var outbox: map<TargetId, OutboxRow>
    var history: map<HistoryKey, Canonical>

    function Contents(): Db
      reads this
    {
      Db(rows, outbox, history)
    }

    constructor ()
      ensures Contents() == EMPTY
    {
      rows, outbox, history := map[], map[], map[];
    }

    method EnsureLegacyLedgerReadiness(key: LocationKey, sessionGeneration: string) returns (row: Result<Row, string>)
      modifies this
      ensures Contents() == Step(old(Contents()), InsertLegacy(key, sessionGeneration))
      ensures key in rows
      ensures row == if rows[key].sessionGeneration == sessionGeneration then Ok(rows[key])
          else Err("SESSION_LEDGER_LOCATION_IDENTITY_CONFLICT")
    {
      if key !in rows {
        rows := rows[key := LegacyRow(sessionGeneration)];
      }
      if rows[key].sessionGeneration != sessionGeneration {
        return Err("SESSION_LEDGER_LOCATION_IDENTITY_CONFLICT");
      }
      return Ok(rows[key]);
    }

    method BeginBootstrap(key: LocationKey, bootstrapId: string) returns (changed: bool)
      modifies this
      ensures Contents() == Step(old(Contents()), OnRow(key, RowOp.BeginBootstrap(bootstrapId)))
      ensures changed <==>
          key in old(rows) && Enabled(RowOp.BeginBootstrap(bootstrapId), old(rows)[key], HasPending(outbox, key))
    {
      changed := key in rows && rows[key].origin == NewLocation && rows[key].state == Uninitialized
          && rows[key].bootstrapId == Some(bootstrapId);
      if changed {
        rows := rows[key := rows[key].(state := Initializing)];
      }
    }

    method CompleteBootstrap(key: LocationKey, bootstrapId: string, proof: Proof) returns (changed: bool)
      modifies this
      ensures Contents() == Step(old(Contents()), OnRow(key, RowOp.CompleteBootstrap(bootstrapId, proof)))
      ensures changed <==>
          key in old(rows) && Enabled(RowOp.CompleteBootstrap(bootstrapId, proof), old(rows)[key],
                                      HasPending(outbox, key))
    {
      if !ValidProof(proof) {
        return false;
      }
      changed := key in rows && rows[key].origin == NewLocation && rows[key].state == Initializing
          && rows[key].bootstrapId == Some(bootstrapId);
      if changed {
        var state := if HasPending(outbox, key) then Dirty else Ready;
        rows := rows[key := rows[key].(state := state, watermark := Some(proof.watermark),
                                       ledgerGeneration := proof.generation)];
      }
    }

    method BeginCheck(key: LocationKey, minted: Token) returns (token: Option<Token>)
      modifies this
      ensures Contents() == Step(old(Contents()), OnRow(key, RowOp.BeginCheck(minted)))
      ensures token.Some? <==>
          key in old(rows) && Enabled(RowOp.BeginCheck(minted), old(rows)[key], HasPending(outbox, key))
      ensures token.Some? ==> token == Some(minted)
    {
      if key in rows && (rows[key].state == Unknown || rows[key].state == Dirty) {
        rows := rows[key := rows[key].(state := Checking, checkToken := Some(minted))];
        return Some(minted);
      }
      return None;
    }

    method CompleteCheck(key: LocationKey, token: Token, proof: Proof) returns (changed: bool)
      modifies this
      ensures Contents() == Step(old(Contents()), OnRow(key, RowOp.CompleteCheck(token, proof)))
      ensures changed <==>
          key in old(rows) && Enabled(RowOp.CompleteCheck(token, proof), old(rows)[key], HasPending(outbox, key))
    {
      if !ValidProof(proof) {
        return false;
      }
      changed := key in rows && rows[key].state == Checking && rows[key].checkToken == Some(token);
      if changed {
        var state := if HasPending(outbox, key) then Dirty else Ready;
        rows := rows[key := rows[key].(state := state, checkToken := None, retryScope := None, failureClass := None,
                                        watermark := Some(proof.watermark), ledgerGeneration := proof.generation)];
      }
    }

    method RecoverInterruptedCheck(key: LocationKey) returns (changed: bool)
      modifies this
      ensures Contents() == Step(old(Contents()), OnRow(key, RecoverCheck))
      ensures changed <==> key in old(rows) && Enabled(RecoverCheck, old(rows)[key], HasPending(outbox, key))
    {
      changed := key in rows && rows[key].state == Checking;
      if changed {
        rows := rows[key := rows[key].(state := Unknown, checkToken := None)];
      }
    }

    method AdvanceOwner(key: LocationKey, generation: int) returns (changed: bool)
      modifies this
      ensures Contents() == Step(old(Contents()), OnRow(key, RowOp.AdvanceOwner(generation)))
      ensures changed <==>
          key in old(rows) && Enabled(RowOp.AdvanceOwner(generation), old(rows)[key], HasPending(outbox, key))
    {
      changed := key in rows && rows[key].owner < generation;
      if changed {
        rows := rows[key := rows[key].(owner := generation)];
      }
    }

    method MarkBlocked(key: LocationKey, scope: Scope, failureClass: string) returns (changed: Result<bool, string>)
      modifies this
      ensures !ValidFailureClass(failureClass) ==> changed.Err? && Contents() == old(Contents())
      ensures ValidFailureClass(failureClass) ==>
                && Contents() == Step(old(Contents()), OnRow(key, Block(scope, failureClass)))
                && changed == Ok(key in old(rows) && Enabled(Block(scope, failureClass), old(rows)[key],
                      HasPending(outbox, key)))
    {
      if !ValidFailureClass(failureClass) {
        return Err("SESSION_LEDGER_FAILURE_CLASS_INVALID");
      }
      if key in rows && rows[key].state != Blocked {
        rows := rows[key := rows[key].(state := Blocked, checkToken := None, retryScope := Some(scope),
                                       failureClass := Some(failureClass))];
        return Ok(true);
      }
      return Ok(false);
    }

    method MarkMissingLegacyBlocked(key: LocationKey) returns (changed: bool)
      modifies this
      ensures Contents() == Step(old(Contents()), OnRow(key, BlockMissing))
      ensures changed <==> key in old(rows) && Enabled(BlockMissing, old(rows)[key], HasPending(outbox, key))
    {
      changed := key in rows && rows[key].origin == Legacy && rows[key].state != Blocked;
      if changed {
        rows := rows[key := rows[key].(state := Blocked, checkToken := None, retryScope := Some(Baseline),
                                       failureClass := Some("ledger_missing"))];
      }
    }

    method ReopenBlocked(key: LocationKey) returns (changed: bool)
      modifies this
      ensures Contents() == Step(old(Contents()), OnRow(key, Reopen))
      ensures changed <==> key in old(rows) && Enabled(Reopen, old(rows)[key], HasPending(outbox, key))
    {
      changed := key in rows && rows[key].state == Blocked;
      if changed {
        rows := rows[key := rows[key].(state := Unknown, retryScope := None, failureClass := None)];
      }
    }

    method InvalidateProof(key: LocationKey) returns (changed: bool)
      modifies this
      ensures Contents() == Step(old(Contents()), OnRow(key, Invalidate))
      ensures changed <==> key in old(rows) && Enabled(Invalidate, old(rows)[key], HasPending(outbox, key))
    {
      changed := key in rows && rows[key].state == Ready;
      if changed {
        rows := rows[key := rows[key].(state := Unknown, ledgerGeneration := rows[key].ledgerGeneration + 1,
                                       checkToken := None)];
      }
    }

    method RefreshReadyProof(key: LocationKey, proof: Proof) returns (changed: bool)
      modifies this
      ensures Contents() == Step(old(Contents()), OnRow(key, RefreshProof(proof)))
      ensures changed <==> key in old(rows) && Enabled(RefreshProof(proof), old(rows)[key], HasPending(outbox, key))
    {
      changed := key in rows && rows[key].state == Ready && !HasPending(outbox, key);
      if changed {
        rows := rows[key := rows[key].(watermark := Some(proof.watermark), ledgerGeneration := proof.generation)];
      }
    }

    /** The one-query admission. */
    method ReadUsableAdmission(key: LocationKey, sessionGeneration: string, processGeneration: int)
        returns (row: Option<Row>)
      ensures row.Some? <==> Admitted(Contents(), key, sessionGeneration, processGeneration)
      ensures row.Some? ==> row.value == rows[key]
    {
      if key !in rows || rows[key].sessionGeneration != sessionGeneration || rows[key].state != Ready
         || HasPending(outbox, key) || rows[key].owner < processGeneration {
        return None;
      }
      return Some(rows[key]);
    }

    method EnqueueInTransaction(t: Target) returns (r: Result<TargetId, EnqueueError>)
      modifies this
      ensures Contents() == Step(old(Contents()), EnqueueTarget(t))
      ensures r.Ok? <==> Enqueue(old(Contents()), t).Ok?
      ensures r.Ok? ==> r.value == t.id && t.id in outbox
      ensures r.Err? ==> Contents() == old(Contents()) && r.error == Enqueue(old(Contents()), t).error
    {
      hide UpgradePermitted, Decode, DigestOf, ValidExpectation, Acknowledge, HasPending;
      if !ValidExpectation(|t.events|, t.ids) {
        return Err(TargetInvalid);
      }
      if t.id.location !in rows || t.id.location.sessionId != t.sessionId
          || rows[t.id.location].sessionGeneration != t.sessionGeneration {
        return Err(LocationMismatch);
      }
      var event := HistoryKey(t.id.canonicalEventId, t.sessionId);
      if event !in history {
        return Err(CanonicalMissing);
      }
      var digest := DigestOf(t.events, t.ids);
      if t.id in outbox {
        var existing := outbox[t.id];
        if existing.sessionId != t.sessionId || existing.sessionGeneration != t.sessionGeneration {
          return Err(TargetConflict);
        }
        var previous := Decode(existing.payload);
        if previous.Err? {
          return Err(TargetConflict);
        }
        if previous.value.CanonicalV1? {
          if previous.value.digest != digest {
            return Err(TargetConflict);
          }
        } else if existing.payload.digest != digest {
          if !UpgradePermitted(t, previous.value.events, previous.value.ids, history[event]) {
            return Err(TargetConflict);
          }
          outbox := outbox[t.id := existing.(payload := Encode(t.events, t.ids))];
        }
      } else {
        outbox := outbox[t.id := OutboxRow(t.sessionId, t.sessionGeneration, history[event].sequence, t.order,
                                           Encode(t.events, t.ids), Pending)];
      }
      assert t.id in old(outbox) && outbox == old(outbox) ==> old(outbox)[t.id := old(outbox)[t.id]] == outbox;
      if outbox[t.id].status == Pending {
        var state := rows[t.id.location].state;
        if state == Unknown || state == Checking || state == Ready || state == Dirty {
          rows := rows[t.id.location := rows[t.id.location].(state := Dirty, checkToken := None)];
        }
      }
      return Ok(t.id);
    }

    method AcknowledgeTarget(id: TargetId, observed: Expectation, canonical: Option<Expectation>) returns (ok: bool)
      modifies this
      ensures Contents() == Step(old(Contents()), AckTarget(id, observed, canonical))
      ensures ok == Acknowledge(old(Contents()), id, observed, canonical).1
    {
      hide Obligation, ProjectionEventsMatch, Enqueue;
      if id !in outbox {
        return false;
      }
      var row := outbox[id];
      var obligation := Obligation(row, canonical);
      if obligation.None? || obligation.value.ids != observed.ids
          || !ProjectionEventsMatch(id.kind, obligation.value.events, observed.events) {
        return false;
      }
      if row.status == Acked {
        return true;
      }
      outbox := outbox[id := row.(status := Acked)];
      if !HasPending(outbox, id.location) && id.location in rows && rows[id.location].state == Dirty {
        rows := rows[id.location := rows[id.location].(state := Unknown)];
      }
      return true;
    }

    /** Before a rebuild every obligation of the location becomes pending again. */
    method ReopenAllTargets(key: LocationKey)
      modifies this
      ensures Contents() == Step(old(Contents()), ResetForRebuild(key))
    {
      outbox := map id | id in outbox :: if id.location == key then outbox[id].(status := Pending) else outbox[id];
    }
  }

  /** What the one-query admission requires of the store. */
  predicate Admitted(db: Db, key: LocationKey, sessionGeneration: string, processGeneration: int) {
    && key in db.rows
    && db.rows[key].sessionGeneration == sessionGeneration
    && db.rows[key].state == Ready
    && !HasPending(db.outbox, key)
    && db.rows[key].owner >= processGeneration
  }
}
