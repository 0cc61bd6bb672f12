/** The readiness row of one ledger location and its guarded updates (electron/sessionLedgerReadiness.ts). */
module Readiness {
  import opened Json

  /** Identity of a ledger location. The durable key is a digest of these three values, taken to be injective. */
  datatype LocationKey = LocationKey(workDir: string, sessionId: string, createdAt: int)

  datatype State = Uninitialized | Initializing | Unknown | Checking | Ready | Dirty | Blocked

  datatype Origin = NewLocation | Legacy

  datatype Scope = Baseline | TargetScope

  /** A freshly minted random identifier. */
  type Token = nat

  datatype Proof = Proof(watermark: string, generation: int)

  datatype Row = Row(
    sessionGeneration: string,
    origin: Origin,
    state: State,
    bootstrapId: Option<string>,
    ledgerGeneration: int,
    watermark: Option<string>,
    canonicalReadVersion: Option<int>,
    checkToken: Option<Token>,
    owner: int,
    retryScope: Option<Scope>,
    failureClass: Option<string>)

  const MAX_SAFE_INTEGER: int := 0x1F_FFFF_FFFF_FFFF

  predicate ValidProof(proof: Proof) {
    0 <= proof.generation <= MAX_SAFE_INTEGER && proof.watermark != ""
  }

  /** A lower-case letter followed by at most 63 lower-case letters, digits or underscores. */
  predicate ValidFailureClass(s: string) {
    && 1 <= |s| <= 64
    && 'a' <= s[0] <= 'z'
    && (forall i | 1 <= i < |s| :: 'a' <= s[i] <= 'z' || '0' <= s[i] <= '9' || s[i] == '_')
  }

  /** The single-row updates. `EnqueuedPending` and `AckedLast` are issued by the outbox. */
  datatype RowOp =
    | BeginBootstrap(id: string)
    | CompleteBootstrap(id: string, bootstrapProof: Proof)
    | BeginCheck(minted: Token)
    | CompleteCheck(token: Token, proof: Proof)
    | RecoverCheck
    | AdvanceOwner(generation: int)
    | Block(scope: Scope, failureClass: string)
    | BlockMissing
    | Reopen
    | Invalidate
    | RefreshProof(refreshed: Proof)
    | MarkMerged(mergedGeneration: string)
    | EnqueuedPending
    | AckedLast

  /** The WHERE clause of the update: whether it changes the row. */
  predicate Enabled(op: RowOp, row: Row, pending: bool) {
    match op
    case BeginBootstrap(id) => row.origin == NewLocation && row.state == Uninitialized && row.bootstrapId == Some(id)
    case CompleteBootstrap(id, proof) =>
      ValidProof(proof) && row.origin == NewLocation && row.state == Initializing && row.bootstrapId == Some(id)
    case BeginCheck(_) => row.state == Unknown || row.state == Dirty
    case CompleteCheck(token, proof) => ValidProof(proof) && row.state == Checking && row.checkToken == Some(token)
    case RecoverCheck => row.state == Checking
    case AdvanceOwner(generation) => row.owner < generation
    case Block(_, _) => row.state != Blocked
    case BlockMissing => row.origin == Legacy && row.state != Blocked
    case Reopen => row.state == Blocked
    case Invalidate => row.state == Ready
    case RefreshProof(_) => row.state == Ready && !pending
    case MarkMerged(generation) => row.origin == Legacy && row.state == Ready && row.sessionGeneration == generation
        && !pending
    case EnqueuedPending => row.state == Unknown || row.state == Checking || row.state == Ready || row.state == Dirty
    case AckedLast => row.state == Dirty
  }

  /** The SET clause, applied when the update is enabled. */
  function Updated(op: RowOp, row: Row, pending: bool): Row {
    match op
    case BeginBootstrap(_) => row.(state := Initializing)
    case CompleteBootstrap(_, proof) =>
      row.(state := if pending then Dirty else Ready, watermark := Some(proof.watermark),
           ledgerGeneration := proof.generation)
    case BeginCheck(token) => row.(state := Checking, checkToken := Some(token))
    case CompleteCheck(_, proof) =>
      row.(state := if pending then Dirty else Ready, checkToken := None, retryScope := None, failureClass := None,
           watermark := Some(proof.watermark), ledgerGeneration := proof.generation)
    case RecoverCheck => row.(state := Unknown, checkToken := None)
    case AdvanceOwner(generation) => row.(owner := generation)
    case Block(scope, failureClass) =>
      row.(state := Blocked, checkToken := None, retryScope := Some(scope), failureClass := Some(failureClass))
    case BlockMissing =>
      row.(state := Blocked, checkToken := None, retryScope := Some(Baseline), failureClass := Some("ledger_missing"))
    case Reopen => row.(state := Unknown, retryScope := None, failureClass := None)
    case Invalidate => row.(state := Unknown, ledgerGeneration := row.ledgerGeneration + 1, checkToken := None)
    case RefreshProof(proof) => row.(watermark := Some(proof.watermark), ledgerGeneration := proof.generation)
    case MarkMerged(_) => row.(canonicalReadVersion := Some(1))
    case EnqueuedPending => row.(state := Dirty, checkToken := None)
    case AckedLast => row.(state := Unknown)
  }

  function Apply(op: RowOp, row: Row, pending: bool): Row {
    if Enabled(op, row, pending) then Updated(op, row, pending) else row
  }

  function NewRow(sessionGeneration: string, bootstrapId: string): Row {
    Row(sessionGeneration, NewLocation, Uninitialized, Some(bootstrapId), 0, None, Some(1), None, 0, None, None)
  }

  function LegacyRow(sessionGeneration: string): Row {
    Row(sessionGeneration, Legacy, Unknown, None, 0, None, None, None, 0, None, None)
  }

  /** What every reachable row satisfies, given whether its location has a pending target. */
  predicate RowInv(row: Row, pending: bool) {
    && (row.state == Ready ==> !pending)
    && (row.state == Dirty ==> pending)
    && (row.checkToken.Some? <==> row.state == Checking)
    && (row.retryScope.Some? <==> row.state == Blocked)
    && (row.failureClass.Some? <==> row.state == Blocked)
    && (row.origin == NewLocation <==> row.bootstrapId.Some?)
    && (row.bootstrapId.Some? ==> row.bootstrapId.value != "")
    && (row.state == Uninitialized || row.state == Initializing ==> row.origin == NewLocation)
  }

  // ---------------------------------------------------------------- gate

  datatype Gate =
    | BootstrapGate(bootstrapId: string)
    | CheckBaseline
    | ResumeBootstrap(bootstrapId: string)
    | RecoverCheckGate
    | AllowReady
    | RetryBlocked(scope: Scope)

  predicate HasProvenance(row: Row) {
    row.origin == NewLocation && row.bootstrapId.Some? && row.bootstrapId.value != ""
  }

  function DecideGate(row: Row): Result<Gate, string> {
    match row.state
    case Uninitialized => if HasProvenance(row) then Ok(BootstrapGate(row.bootstrapId.value))
        else Err("SESSION_LEDGER_BOOTSTRAP_PROVENANCE_INVALID")
    case Initializing => if HasProvenance(row) then Ok(ResumeBootstrap(row.bootstrapId.value))
        else Err("SESSION_LEDGER_BOOTSTRAP_PROVENANCE_INVALID")
    case Unknown => Ok(CheckBaseline)
    case Checking => Ok(RecoverCheckGate)
    case Ready => Ok(AllowReady)
    case Dirty => Ok(CheckBaseline)
    case Blocked => Ok(RetryBlocked(if row.retryScope.Some? then row.retryScope.value else Baseline))
  }

  /** A well-formed row never trips the provenance errors, the default retry scope is never needed,
      and the gate lets work through exactly on a ready row, which then has nothing pending. */
  lemma GateIsTotalOnReachableRows(row: Row, pending: bool)
    requires RowInv(row, pending)
    ensures DecideGate(row).Ok?
    ensures DecideGate(row) == Ok(AllowReady) <==> row.state == Ready
    ensures DecideGate(row) == Ok(AllowReady) ==> !pending
    ensures row.state == Blocked ==> DecideGate(row) == Ok(RetryBlocked(row.retryScope.value))
  {
  }

  /** The gate refuses exactly a bootstrap of a row that does not say where it comes from. */
  lemma GateRefusesIff(row: Row)
    ensures DecideGate(row).Err? <==>
            && (row.state == Uninitialized || row.state == Initializing)
            && (row.origin == Legacy || row.bootstrapId.None? || row.bootstrapId.value == "")
    ensures DecideGate(row).Err? ==> DecideGate(row).error == "SESSION_LEDGER_BOOTSTRAP_PROVENANCE_INVALID"
  {
  }

  /** A row that has just been inserted proves nothing and was reconciled with no owner; only the history of a new
      location counts as merged. */
  lemma FreshRows(sessionGeneration: string, bootstrapId: string)
    ensures forall row | row == NewRow(sessionGeneration, bootstrapId) || row == LegacyRow(sessionGeneration) ::
              && row.sessionGeneration == sessionGeneration && row.state != Ready && row.owner == 0
              && row.watermark.None? && row.ledgerGeneration == 0
    ensures NewRow(sessionGeneration, bootstrapId).canonicalReadVersion == Some(1)
    ensures LegacyRow(sessionGeneration).canonicalReadVersion.None?
    ensures NewRow(sessionGeneration, bootstrapId).bootstrapId == Some(bootstrapId)
  {
  }

  /** Every update keeps the row invariant; the outbox issues its two under the stated conditions. */
  lemma UpdateKeepsRowInv(op: RowOp, row: Row, pending: bool)
    requires RowInv(row, pending) || (op == AckedLast && !pending && RowInv(row, true))
        || (op == EnqueuedPending && RowInv(row, false))
    requires op == EnqueuedPending ==> pending
    requires op == AckedLast ==> !pending
    ensures RowInv(Apply(op, row, pending), pending)
  {
  }

  // ---------------------------------------------------------------- what moves a row

  /** A watermark, and a generation that a double holds exactly with all its neighbours: below two to the 53rd. */
  predicate Meaningful(proof: Proof) {
    proof.watermark != "" && 0 <= proof.generation < 0x20_0000_0000_0000
  }

  /** A row becomes ready exactly by a valid proof for the bootstrap it is in, or for the check whose token it holds,
      with nothing pending. */
  lemma BecomesReadyIff(op: RowOp, row: Row, pending: bool)
    requires RowInv(row, pending) && row.state != Ready
    ensures Apply(op, row, pending).state == Ready <==>
            && !pending
            && ((op.CompleteBootstrap? && row.state == Initializing && row.bootstrapId == Some(op.id)
                 && Meaningful(op.bootstrapProof))
                || (op.CompleteCheck? && row.checkToken == Some(op.token) && Meaningful(op.proof)))
  {
  }

  /** A bootstrap begins exactly with the identifier its row was made with, and once. */
  lemma BootstrapIff(op: RowOp, row: Row, pending: bool)
    requires RowInv(row, pending) && row.state != Initializing
    ensures Apply(op, row, pending).state == Initializing <==>
            op.BeginBootstrap? && row.state == Uninitialized && row.bootstrapId == Some(op.id)
  {
  }

  /** A ready row stops being ready exactly when it is blocked, loses its proof or gets a pending target. */
  lemma LeavesReadyIff(op: RowOp, row: Row, pending: bool)
    requires row.state == Ready
    ensures Apply(op, row, pending).state != Ready <==>
            op.Block? || op == Invalidate || op == EnqueuedPending || (op == BlockMissing && row.origin == Legacy)
  {
  }

  /** A row gets under check exactly when a check begins on an unknown or dirty row, with the token that was minted. The
      check ends exactly by its own token with a valid proof, and otherwise by recovery, a block or a new target. */
  lemma CheckingIff(op: RowOp, row: Row, pending: bool)
    requires RowInv(row, pending)
    ensures var row' := Apply(op, row, pending);
            && (row.state != Checking ==>
                  (row'.state == Checking <==> op.BeginCheck? && (row.state == Unknown || row.state == Dirty)))
            && (row.state != Checking && row'.state == Checking ==> row'.checkToken == Some(op.minted))
            && (row.state == Checking ==>
                  (row'.state != Checking <==>
                     || (op.CompleteCheck? && row.checkToken == Some(op.token) && Meaningful(op.proof))
                     || op == RecoverCheck || op.Block? || op == EnqueuedPending
                     || (op == BlockMissing && row.origin == Legacy)))
            && (row.state == Checking == row'.state ==> row'.checkToken == row.checkToken)
  {
  }

  /** A row becomes blocked exactly by a block, or when the file of a legacy location is missing, with the scope and the
      class of the one that blocked it first; only a reopening ends it. */
  lemma BlockedIff(op: RowOp, row: Row, pending: bool)
    requires RowInv(row, pending)
    ensures var row' := Apply(op, row, pending);
            && (row.state != Blocked ==>
                  (row'.state == Blocked <==> op.Block? || (op == BlockMissing && row.origin == Legacy)))
            && (row.state != Blocked && row'.state == Blocked ==>
                  && row'.retryScope == Some(if op.Block? then op.scope else Baseline)
                  && row'.failureClass == Some(if op.Block? then op.failureClass else "ledger_missing"))
            && (row.state == Blocked ==> (row'.state != Blocked <==> op == Reopen))
            && (row.state == Blocked && op == Reopen ==> row'.state == Unknown)
            && (row.state == Blocked == row'.state ==>
                  row'.retryScope == row.retryScope && row'.failureClass == row.failureClass)
  {
  }

  /** Whose proof a row carries: that of the bootstrap or the check that was completed last, or of the last refreshing
      while it was ready with nothing pending. Otherwise its watermark stays, and its ledger generation but for a loss
      of the proof. */
  lemma ProofMovesBy(op: RowOp, row: Row, pending: bool)
    requires RowInv(row, pending)
    ensures var row' := Apply(op, row, pending);
            if op.CompleteBootstrap? && row.state == Initializing && row.bootstrapId == Some(op.id)
               && Meaningful(op.bootstrapProof)
              then Some(op.bootstrapProof) == ProofOf(row')
            else if op.CompleteCheck? && row.checkToken == Some(op.token) && Meaningful(op.proof)
              then Some(op.proof) == ProofOf(row')
            else if op.RefreshProof? && row.state == Ready then Some(op.refreshed) == ProofOf(row')
            else
              && row'.watermark == row.watermark
              && (row'.ledgerGeneration != row.ledgerGeneration <==> op == Invalidate && row.state == Ready)
  {
  }

  function ProofOf(row: Row): Option<Proof> {
    if row.watermark.None? then None else Some(Proof(row.watermark.value, row.ledgerGeneration))
  }

  /** Session, origin and bootstrap never change; the read version changes exactly when a ready legacy row of this
      session with nothing pending is merged. */
  lemma IdentityStays(op: RowOp, row: Row, pending: bool)
    ensures var row' := Apply(op, row, pending);
            && row'.sessionGeneration == row.sessionGeneration && row'.origin == row.origin
            && row'.bootstrapId == row.bootstrapId
            && row'.canonicalReadVersion ==
               if op == MarkMerged(row.sessionGeneration) && row.origin == Legacy && row.state == Ready && !pending
                 then Some(1) else row.canonicalReadVersion
  {
  }

  /** Losing its proof takes a ready row to unknown under the next ledger generation, so a proof that is still on its
      way is of an older one; no other row changes. */
  lemma InvalidationMovesOn(row: Row, pending: bool)
    ensures var row' := Apply(Invalidate, row, pending);
            && (row.state == Ready ==>
                  && row'.state == Unknown && row'.ledgerGeneration == row.ledgerGeneration + 1 && row'.checkToken.None?
                  && row'.watermark == row.watermark && row'.owner == row.owner)
            && (row.state != Ready ==> row' == row)
  {
  }

  /** The reconciled owner generation never goes back: it is the greatest that was reconciled. */
  lemma OwnerNeverDecreases(op: RowOp, row: Row, pending: bool)
    ensures row.owner <= Apply(op, row, pending).owner
    ensures Apply(op, row, pending).owner ==
            if op.AdvanceOwner? && row.owner < op.generation then op.generation else row.owner
  {
  }
}
