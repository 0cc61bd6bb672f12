/** What a ready answer of the lifecycle driver rests on, and what a failing call leads to
    (electron/sessionLedgerLifecycle.ts). */
module LifecycleProof {
  import opened Json
  import opened Readiness
  import opened Outbox
  import opened LedgerStore
  import opened LedgerRuns
  import opened Lifecycle
  import opened LifecycleExhaustion

  // ---------------------------------------------------------------- rows

  predicate NotReady(db: Db, key: LocationKey) {
    key in db.rows && db.rows[key].state != Ready
  }

  /** The call succeeded with a valid proof, and the ready row carries exactly this proof. */
  predicate Rests(row: Row, reply: Reply) {
    && reply.failure.None? && ValidProof(reply.proof)
    && row.watermark == Some(reply.proof.watermark) && row.ledgerGeneration == reply.proof.generation
  }

  /** If the row is ready, it is so by this call. */
  predicate ReadyOnlyBy(db: Db, key: LocationKey, reply: Reply) {
    key in db.rows && (db.rows[key].state == Ready ==> Rests(db.rows[key], reply))
  }

  lemma OwnUpdate(db: Db, key: LocationKey, op: RowOp)
    requires key in db.rows
    ensures key in Own(db, key, op).rows && Own(db, key, op).outbox == db.outbox
    ensures Own(db, key, op).rows[key] == Apply(op, db.rows[key], HasPending(db.outbox, key))
  {
    hide Enabled, Updated, HasPending;
  }

  /** Nobody else makes the row ready while the lock is held. */
  lemma {:induction false} OthersNotReady(db: Db, ops: seq<Op>, key: LocationKey)
    requires NotReady(db, key)
    ensures NotReady(Others(db, ops, key, true), key)
    decreases |ops|
  {
    hide Step, Admissible, NeedsLock, AfterEffect, Effect, HasPending;
    if ops != [] {
      if Admissible(db, ops[0]) && !NeedsLock(ops[0], key) {
        StepEffect(db, ops[0], key);
        LockedEffect(db, ops[0], key);
        OthersNotReady(Step(db, ops[0]), ops[1..], key);
      } else {
        OthersNotReady(db, ops[1..], key);
      }
    }
  }

  lemma OwnNotReady(db: Db, key: LocationKey, op: RowOp)
    requires NotReady(db, key) && !op.CompleteCheck? && !op.CompleteBootstrap?
    ensures NotReady(Own(db, key, op), key)
  {
    OwnUpdate(db, key, op);
    hide HasPending, Own;
  }

  lemma CompletedRests(db: Db, key: LocationKey, reply: Reply, minted: Token)
    requires NotReady(db, key) && reply.failure.None?
    ensures ReadyOnlyBy(CompletedWith(db, key, reply.proof, minted).0, key, reply)
  {
    hide Own, HasPending;
    OwnUpdate(db, key, RowOp.BeginCheck(minted));
    OwnNotReady(db, key, RowOp.BeginCheck(minted));
    var after := RowAt(db, key);
    var claimed := if after.state == Unknown then Own(db, key, RowOp.BeginCheck(minted)) else db;
    var token := if after.state == Unknown then Some(minted)
        else if after.state == Checking then after.checkToken else None;
    if token.Some? {
      OwnUpdate(claimed, key, RowOp.CompleteCheck(token.value, reply.proof));
    }
  }

  lemma RebuiltRests(db: Db, key: LocationKey, reply: Reply, first: Token, second: Token)
    requires NotReady(db, key)
    ensures ReadyOnlyBy(MismatchRebuilt(db, key, reply, first, second), key, reply)
  {
    hide Own, Others, CompletedWith, HasPending;
    var reopened := Own(db, key, Reopen);
    OwnNotReady(db, key, Reopen);
    var claimed := Own(reopened, key, RowOp.BeginCheck(first));
    OwnNotReady(reopened, key, RowOp.BeginCheck(first));
    var worked := Others(claimed, reply.env, key, true);
    OthersNotReady(claimed, reply.env, key);
    OwnNotReady(worked, key, RowOp.Block(Baseline, "physical_mismatch_rebuild_failed"));
    if reply.failure.None? {
      CompletedRests(worked, key, reply, second);
      OwnUpdate(CompletedWith(worked, key, reply.proof, second).0, key,
                RowOp.Block(Baseline, "physical_mismatch_rebuild_failed"));
    }
  }

  lemma BootstrappedRests(db: Db, key: LocationKey, id: string, reply: Reply)
    requires NotReady(db, key)
    ensures ReadyOnlyBy(Bootstrapped(db, key, id, reply), key, reply)
  {
    hide Own, Others, HasPending;
    var begun := Own(db, key, RowOp.BeginBootstrap(id));
    OwnNotReady(db, key, RowOp.BeginBootstrap(id));
    var worked := Others(begun, reply.env, key, true);
    OthersNotReady(begun, reply.env, key);
    OwnNotReady(worked, key, RowOp.Block(Baseline, "bootstrap_failed"));
    OwnUpdate(worked, key, RowOp.CompleteBootstrap(id, reply.proof));
  }

  lemma BaselineRests(db: Db, req: Request, probe: Reply, work: Reply, quarantine: Reply, first: Token, second: Token)
    requires NotReady(db, req.key)
    ensures ReadyOnlyBy(BaselineAttempted(db, req, probe, work, quarantine, first, second).0, req.key, work)
  {
    hide Own, Others, CompletedWith, ClaimedToken, FailureClassOf, HasPending;
    var key := req.key;
    var probed := Others(db, probe.env, key, true);
    OthersNotReady(db, probe.env, key);
    OwnNotReady(probed, key, BlockMissing);
    var claimed := Own(probed, key, RowOp.BeginCheck(first));
    OwnNotReady(probed, key, RowOp.BeginCheck(first));
    var worked := Others(claimed, work.env, key, true);
    OthersNotReady(claimed, work.env, key);
    OthersNotReady(worked, quarantine.env, key);
    if work.failure.None? {
      CompletedRests(worked, key, work, second);
    } else {
      var blocking := RowOp.Block(Baseline, FailureClassOf(req, work, quarantine));
      OwnNotReady(worked, key, blocking);
      OwnNotReady(Others(worked, quarantine.env, key, true), key, blocking);
    }
  }

  // ---------------------------------------------------------------- one round

  /** A blocked row is worked on only when a retry is asked for and its file is known to mismatch. */
  predicate RebuildsMismatch(row: Row, req: Request) {
    && row.state == Blocked && req.retryBlocked == Some(true)
    && row.failureClass == Some("physical_proof_mismatch") && req.deps.rebuildMismatch
  }

  /** The look for the file goes through, and a file is there or may be rebuilt. */
  predicate FileFoundOrRebuilt(row: Row, req: Request, probe: Reply) {
    probe.failure.None? && (row.origin == Legacy ==> probe.present || req.deps.rebuildMissing)
  }

  /** The round awaits a rebuild, a bootstrap or a baseline. */
  predicate AwaitsWork(db: Db, req: Request, probe: Reply) {
    && req.key in db.rows
    && var row := db.rows[req.key];
    match row.state
    case Ready => false
    case Blocked => RebuildsMismatch(row, req)
    case Uninitialized => HasProvenance(row)
    case Initializing => HasProvenance(row)
    case _ => FileFoundOrRebuilt(row, req, probe)
              && ClaimedToken(Others(db, probe.env, req.key, true), req.key, 0).Some?
  }

  /** The tables after the call a round awaits, whichever it is. */
  function Worked(db: Db, req: Request, probe: Reply, work: Reply, quarantine: Reply, first: Token, second: Token): Db
    requires req.key in db.rows
  {
    var row := db.rows[req.key];
    match row.state
    case Blocked => MismatchRebuilt(db, req.key, work, first, second)
    case Uninitialized => Bootstrapped(db, req.key, if row.bootstrapId.Some? then row.bootstrapId.value else "", work)
    case Initializing => Bootstrapped(db, req.key, if row.bootstrapId.Some? then row.bootstrapId.value else "", work)
    case _ => BaselineAttempted(db, req, probe, work, quarantine, first, second).0
  }

  /** A round of a row that is not ready ends the loop, or goes through its work. */
  lemma RoundWorks(db: Db, req: Request, probe: Reply, work: Reply, quarantine: Reply, first: Token, second: Token)
    requires NotReady(db, req.key)
    ensures var (next, stop) := Attempted(db, req, probe, work, quarantine, first, second);
            && (AwaitsWork(db, req, probe) ==>
                  && next == Worked(db, req, probe, work, quarantine, first, second)
                  && stop == if RowAt(next, req.key).state == Blocked then Some(BlockedResult(RowAt(next, req.key)))
                      else None)
            && (!AwaitsWork(db, req, probe) ==> stop.Some? && !stop.value.ReadyResult?)
  {
    hide MismatchRebuilt, Bootstrapped, BaselineAttempted, Others, ClaimedToken;
    var state := db.rows[req.key].state;
    if state == Unknown || state == Dirty || state == Checking {
      BaselineStops(db, req, probe, work, quarantine, first, second);
    }
  }

  lemma BaselineStops(db: Db, req: Request, probe: Reply, work: Reply, quarantine: Reply, first: Token, second: Token)
    requires NotReady(db, req.key)
    requires var state := db.rows[req.key].state; state == Unknown || state == Dirty || state == Checking
    ensures var stop := BaselineAttempted(db, req, probe, work, quarantine, first, second).1;
            && (stop.None? <==> AwaitsWork(db, req, probe))
            && (stop.Some? ==> !stop.value.ReadyResult?)
  {
    hide Own, Others, CompletedWith, FailureClassOf, HasPending;
  }

  /** A round makes the row ready only by work it awaited, that succeeded, and whose proof the row then carries. */
  lemma RoundRests(db: Db, req: Request, probe: Reply, work: Reply, quarantine: Reply, first: Token, second: Token)
    requires NotReady(db, req.key)
    requires var (next, stop) := Attempted(db, req, probe, work, quarantine, first, second);
             stop.None? && RowAt(next, req.key).state == Ready
    ensures var next := Attempted(db, req, probe, work, quarantine, first, second).0;
            req.key in next.rows && Rests(next.rows[req.key], work) && AwaitsWork(db, req, probe)
  {
    hide Attempted, MismatchRebuilt, Bootstrapped, BaselineAttempted, Rests, AwaitsWork;
    RoundWorks(db, req, probe, work, quarantine, first, second);
    var row := db.rows[req.key];
    RebuiltRests(db, req.key, work, first, second);
    BaselineRests(db, req, probe, work, quarantine, first, second);
    BootstrappedRests(db, req.key, if row.bootstrapId.Some? then row.bootstrapId.value else "", work);
  }

  // ---------------------------------------------------------------- the whole driver

  lemma OwnerNotReady(db: Db, req: Request, reply: Reply)
    requires NotReady(db, req.key)
    ensures NotReady(OwnerReconciled(db, req, reply).0, req.key)
    ensures OwnerReconciled(db, req, reply).1.Some? ==> OwnerReconciled(db, req, reply).1.value.BlockedResult?
  {
    hide Own, Others;
    var key := req.key;
    OthersNotReady(db, reply.env, key);
    var asked := Others(db, reply.env, key, true);
    OwnNotReady(asked, key, BlockMissing);
    OwnNotReady(asked, key, RowOp.Block(Baseline, "owner_reconciliation_failed"));
    OwnNotReady(asked, key, RowOp.AdvanceOwner(req.processGeneration));
    OwnNotReady(db, key, RowOp.AdvanceOwner(req.processGeneration));
  }

  /** Before the loop only the rebuild of a mismatching file can make the row ready. */
  lemma UnblockedRests(db: Db, req: Request, reply: Reply, first: Token, second: Token)
    requires NotReady(db, req.key)
    ensures var (open, stop) := Unblocked(db, req, reply, first, second);
            && req.key in open.rows
            && (stop.Some? ==> stop.value.BlockedResult?)
            && (stop.None? && open.rows[req.key].state == Ready ==>
                  Rests(open.rows[req.key], reply) && RebuildsMismatch(db.rows[req.key], req))
  {
    hide Own, MismatchRebuilt, Rests;
    var key, row := req.key, db.rows[req.key];
    RebuiltRests(db, key, reply, first, second);
    var mismatch := row.state == Blocked && row.failureClass == Some("physical_proof_mismatch");
    var rebuilt := if mismatch then MismatchRebuilt(db, key, reply, first, second) else db;
    OwnUpdate(rebuilt, key, Reopen);
    var reopened := if row.state == Blocked then Own(rebuilt, key, Reopen) else rebuilt;
    OwnUpdate(reopened, key, RecoverCheck);
  }

  /** The call whose proof a ready answer rests on: the rebuild before the loop, or the work of a round that was
      reached. */
  ghost predicate RestsOnCall(start: Db, req: Request, reply: nat -> Reply, mint: nat -> Token, row: Row, i: nat) {
    && Rests(row, reply(i))
    && Entered(start, req, reply, mint).Some?
    && var open := Entered(start, req, reply, mint).value;
    || (i == 2 && RebuildsMismatch(RowAt(OwnerReconciled(start, req, reply(1)).0, req.key), req))
    || (exists n: nat :: n < ATTEMPTS && i == 11 + 3 * n && After(open, req, reply, mint, n).Some?
          && AwaitsWork(After(open, req, reply, mint, n).value, req, reply(10 + 3 * n)))
  }

  lemma LoopRests(open: Db, req: Request, reply: nat -> Reply, mint: nat -> Token) returns (n: nat)
    requires req.key in open.rows && Looped(open, req, reply, mint, 0).1.ReadyResult?
    ensures n < ATTEMPTS && After(open, req, reply, mint, n).Some?
    ensures n == 0 ==>
              Looped(open, req, reply, mint, 0).1.row == open.rows[req.key] && open.rows[req.key].state == Ready
    ensures n > 0 ==>
              && Rests(Looped(open, req, reply, mint, 0).1.row, reply(11 + 3 * (n - 1)))
              && After(open, req, reply, mint, n - 1).Some?
              && AwaitsWork(After(open, req, reply, mint, n - 1).value, req, reply(10 + 3 * (n - 1)))
  {
    hide NthAttempt, Looped, After, Exhausted, Rests, AwaitsWork;
    LoopEnds(open, req, reply, mint);
    var (end, r) := Looped(open, req, reply, mint, 0);
    n :| 0 <= n < ATTEMPTS && AnswersAt(open, req, reply, mint, n, (end, r));
    var now := After(open, req, reply, mint, n).value;
    AfterPresent(open, req, reply, mint, n, false);
    AttemptPresent(now, req, reply, mint, n, false);
    if n == 0 {
      AfterNone(open, req, reply, mint);
    } else {
      AfterOne(open, req, reply, mint, n);
      var before := After(open, req, reply, mint, n - 1).value;
      AfterPresent(open, req, reply, mint, n - 1, false);
      AttemptPresent(before, req, reply, mint, n - 1, false);
      NthRests(before, req, reply, mint, n - 1);
    }
  }

  lemma NthRests(db: Db, req: Request, reply: nat -> Reply, mint: nat -> Token, n: nat)
    requires NotReady(db, req.key)
    requires NthAttempt(db, req, reply, mint, n).1.None?
    requires RowAt(NthAttempt(db, req, reply, mint, n).0, req.key).state == Ready
    ensures Rests(RowAt(NthAttempt(db, req, reply, mint, n).0, req.key), reply(11 + 3 * n))
    ensures AwaitsWork(db, req, reply(10 + 3 * n))
  {
    hide Attempted, Rests, AwaitsWork;
    RoundRests(db, req, reply(10 + 3 * n), reply(11 + 3 * n), reply(12 + 3 * n), mint(10 + 2 * n), mint(11 + 2 * n));
  }

  lemma AfterNone(db: Db, req: Request, reply: nat -> Reply, mint: nat -> Token)
    ensures After(db, req, reply, mint, 0) == Some(db)
  {
  }

  lemma AfterOne(db: Db, req: Request, reply: nat -> Reply, mint: nat -> Token, n: nat)
    requires 0 < n <= ATTEMPTS && After(db, req, reply, mint, n).Some?
    ensures After(db, req, reply, mint, n - 1).Some?
    ensures NthAttempt(After(db, req, reply, mint, n - 1).value, req, reply, mint, n - 1)
        == (After(db, req, reply, mint, n).value, None)
  {
    hide NthAttempt;
  }

  /** A driver that starts on a row that is not ready answers ready only when some call it awaited, a rebuild, a
      bootstrap or a baseline, came back without failure and with a valid proof, and the row it answers with carries
      exactly this proof. */
  lemma ReadyRestsOnProof(db: Db, req: Request, reply: nat -> Reply, mint: nat -> Token) returns (i: nat)
    requires NotReady(db, req.key) && LifecycleOf(db, req, reply, mint).1.ReadyResult?
    ensures RestsOnCall(db, req, reply, mint, LifecycleOf(db, req, reply, mint).1.row, i)
  {
    hide OwnerReconciled, Unblocked, Looped, After, Rests, AwaitsWork, RebuildsMismatch;
    OwnerNotReady(db, req, reply(1));
    var owned := OwnerReconciled(db, req, reply(1)).0;
    UnblockedRests(owned, req, reply(2), mint(0), mint(1));
    var open := Unblocked(owned, req, reply(2), mint(0), mint(1)).0;
    var n := LoopRests(open, req, reply, mint);
    i := if n == 0 then 2 else 11 + 3 * (n - 1);
    assert n > 0 ==> n - 1 < ATTEMPTS;
  }

  // ---------------------------------------------------------------- failing calls

  /** No step of another actor blocks the row. */
  predicate BlocksNot(ops: seq<Op>, key: LocationKey) {
    forall i | 0 <= i < |ops| :: !(ops[i].OnRow? && ops[i].key == key && (ops[i].op.Block? || ops[i].op.BlockMissing?))
  }

  lemma {:induction false} OthersBlockNot(db: Db, ops: seq<Op>, key: LocationKey)
    requires key in db.rows
    ensures key in Others(db, ops, key, true).rows
    ensures BlocksNot(ops, key) && db.rows[key].state != Blocked ==>
              Others(db, ops, key, true).rows[key].state != Blocked
    ensures Others(db, ops, key, true).rows[key].origin == db.rows[key].origin
    decreases |ops|
  {
    hide Step, Admissible, NeedsLock, HasPending, EnqueuesPending, AcksLast;
    if ops != [] {
      assert BlocksNot(ops, key) ==> BlocksNot(ops[1..], key);
      if Admissible(db, ops[0]) && !NeedsLock(ops[0], key) {
        StepEffect(db, ops[0], key);
        EffectPersists(Effect(db, ops[0], key), db.rows[key], HasPending(db.outbox, key));
        OthersBlockNot(Step(db, ops[0]), ops[1..], key);
      } else {
        OthersBlockNot(db, ops[1..], key);
      }
    }
  }

  /** The row is blocked for a baseline retry, under the given class. */
  predicate BlockedFor(row: Row, failureClass: string) {
    row.state == Blocked && row.retryScope == Some(Baseline) && row.failureClass == Some(failureClass)
        && row.checkToken.None?
  }

  lemma OwnBlocks(db: Db, key: LocationKey, failureClass: string)
    requires key in db.rows
    ensures var db' := Own(db, key, RowOp.Block(Baseline, failureClass));
            && key in db'.rows && db'.rows[key].state == Blocked
            && (db.rows[key].state != Blocked ==> BlockedFor(db'.rows[key], failureClass))
  {
    hide Own, HasPending;
    OwnUpdate(db, key, RowOp.Block(Baseline, failureClass));
  }

  lemma OwnKeepsOpen(db: Db, key: LocationKey, op: RowOp)
    requires key in db.rows && (op == Reopen || op.BeginCheck? || op.BeginBootstrap?)
    ensures key in Own(db, key, op).rows
    ensures db.rows[key].state != Blocked || op == Reopen ==> Own(db, key, op).rows[key].state != Blocked
  {
    OwnUpdate(db, key, op);
    hide Own, HasPending;
  }

  lemma FailedRebuildBlocks(db: Db, key: LocationKey, work: Reply, first: Token, second: Token)
    requires key in db.rows && db.rows[key].state == Blocked && work.failure.Some?
    ensures var next := MismatchRebuilt(db, key, work, first, second);
            && key in next.rows && next.rows[key].state == Blocked
            && (BlocksNot(work.env, key) ==> BlockedFor(next.rows[key], "physical_mismatch_rebuild_failed"))
  {
    hide Own, Others, HasPending, BlocksNot, CompletedWith;
    var reopened := Own(db, key, Reopen);
    OwnUpdate(db, key, Reopen);
    var claimed := Own(reopened, key, RowOp.BeginCheck(first));
    OwnKeepsOpen(reopened, key, RowOp.BeginCheck(first));
    OthersBlockNot(claimed, work.env, key);
    OwnBlocks(Others(claimed, work.env, key, true), key, "physical_mismatch_rebuild_failed");
  }

  lemma FailedBootstrapBlocks(db: Db, key: LocationKey, id: string, work: Reply)
    requires key in db.rows && db.rows[key].state != Blocked && work.failure.Some?
    ensures var next := Bootstrapped(db, key, id, work);
            && key in next.rows && next.rows[key].state == Blocked
            && (BlocksNot(work.env, key) ==> BlockedFor(next.rows[key], "bootstrap_failed"))
  {
    hide Own, Others, HasPending, BlocksNot;
    var begun := Own(db, key, RowOp.BeginBootstrap(id));
    OwnKeepsOpen(db, key, RowOp.BeginBootstrap(id));
    OthersBlockNot(begun, work.env, key);
    OwnBlocks(Others(begun, work.env, key, true), key, "bootstrap_failed");
  }

  /** The class a failing baseline is blocked under. */
  predicate BaselineClass(failureClass: string, failure: string, quarantines: bool, quarantined: bool) {
    && (failure == "SESSION_LEDGER_PROJECTION_SOURCE_MISSING" ==> failureClass == "source_missing")
    && (failure == "SESSION_LEDGER_BASELINE_DEGRADED" && quarantines && quarantined ==>
          failureClass == "ledger_degraded_quarantined")
    && (failure == "SESSION_LEDGER_BASELINE_DEGRADED" && quarantines && !quarantined ==>
          failureClass == "ledger_quarantine_failed")
    && (failure == "SESSION_LEDGER_PROJECTION_SOURCE_MISSING"
        || (failure == "SESSION_LEDGER_BASELINE_DEGRADED" && quarantines) || failureClass == "baseline_failed")
  }

  lemma FailedBaselineBlocks(db: Db, req: Request, probe: Reply, work: Reply, quarantine: Reply, first: Token,
                             second: Token)
    requires NotReady(db, req.key) && db.rows[req.key].state in {Unknown, Dirty, Checking}
    requires AwaitsWork(db, req, probe) && work.failure.Some?
    ensures var next := BaselineAttempted(db, req, probe, work, quarantine, first, second).0;
            && req.key in next.rows && next.rows[req.key].state == Blocked
            && (BlocksNot(work.env, req.key) && BlocksNot(quarantine.env, req.key) ==>
                  next.rows[req.key].failureClass.Some?
                  && BaselineClass(next.rows[req.key].failureClass.value, work.failure.value, req.deps.quarantine,
                                   quarantine.failure.None?)
                  && BlockedFor(next.rows[req.key], next.rows[req.key].failureClass.value))
  {
    hide Own, Others, HasPending, BlocksNot, CompletedWith;
    var key := req.key;
    var probed := Others(db, probe.env, key, true);
    OthersBlockNot(db, probe.env, key);
    var claimed := Own(probed, key, RowOp.BeginCheck(first));
    OwnKeepsOpen(probed, key, RowOp.BeginCheck(first));
    var worked := Others(claimed, work.env, key, true);
    OthersBlockNot(claimed, work.env, key);
    OthersBlockNot(worked, quarantine.env, key);
    var failureClass := FailureClassOf(req, work, quarantine);
    assert "SESSION_LEDGER_PROJECTION_SOURCE_MISSING"[15] != "SESSION_LEDGER_BASELINE_DEGRADED"[15];
    OwnBlocks(worked, key, failureClass);
    OwnBlocks(Others(worked, quarantine.env, key, true), key, failureClass);
  }

  /** The classes a failing call is blocked under, by what was awaited. */
  predicate ClassFits(row: Row, failureClass: string, req: Request, failure: string, quarantined: bool) {
    match row.state
    case Blocked => failureClass == "physical_mismatch_rebuild_failed"
    case Uninitialized => failureClass == "bootstrap_failed"
    case Initializing => failureClass == "bootstrap_failed"
    case _ => BaselineClass(failureClass, failure, req.deps.quarantine, quarantined)
  }

  /** A round whose awaited work fails answers blocked: for a baseline retry, under the class of the failure, unless
      another actor blocked the row meanwhile. */
  lemma FailedWorkBlocks(db: Db, req: Request, probe: Reply, work: Reply, quarantine: Reply, first: Token,
                         second: Token)
    requires AwaitsWork(db, req, probe) && work.failure.Some?
    ensures var (next, stop) := Attempted(db, req, probe, work, quarantine, first, second);
            && req.key in next.rows && next.rows[req.key].state == Blocked
            && stop == Some(BlockedResult(next.rows[req.key]))
            && (BlocksNot(work.env, req.key) && BlocksNot(quarantine.env, req.key) ==>
                  && next.rows[req.key].failureClass.Some?
                  && BlockedFor(next.rows[req.key], next.rows[req.key].failureClass.value)
                  && ClassFits(db.rows[req.key], next.rows[req.key].failureClass.value, req, work.failure.value,
                               quarantine.failure.None?))
  {
    RoundWorks(db, req, probe, work, quarantine, first, second);
    var key, row := req.key, db.rows[req.key];
    hide Attempted, MismatchRebuilt, Bootstrapped, BaselineAttempted, BlocksNot, BaselineClass;
    match row.state {
      case Blocked => FailedRebuildBlocks(db, key, work, first, second);
      case Uninitialized => FailedBootstrapBlocks(db, key, row.bootstrapId.value, work);
      case Initializing => FailedBootstrapBlocks(db, key, row.bootstrapId.value, work);
      case _ => FailedBaselineBlocks(db, req, probe, work, quarantine, first, second);
    }
  }

  /** The owner fence asks the dependency that reconciles a previous owner. */
  predicate AsksOwner(row: Row, req: Request) {
    && row.owner < req.processGeneration && req.deps.reconcile && (row.owner > 0 || row.origin == Legacy)
    && !(row.origin == NewLocation && HasProvenance(row) && row.state in {Uninitialized, Initializing})
    && !(row.origin == Legacy && row.state == Blocked && row.failureClass == Some("ledger_missing")
         && req.retryBlocked == Some(true) && req.deps.rebuildMissing)
  }

  /** When the fence cannot reconcile the previous owner, the driver answers blocked and does not advance the owner: as
      missing when a legacy file is gone, otherwise as a failed reconciliation. */
  lemma FailedReconciliationBlocks(db: Db, req: Request, reply: nat -> Reply, mint: nat -> Token)
    requires req.key in db.rows && AsksOwner(db.rows[req.key], req) && reply(1).failure.Some?
    ensures var (end, r) := LifecycleOf(db, req, reply, mint);
            && req.key in end.rows && r == BlockedResult(end.rows[req.key])
            && (BlocksNot(reply(1).env, req.key) && db.rows[req.key].state != Blocked ==>
                  (if reply(1).failure.value != "SESSION_LEDGER_BASELINE_FILE_MISSING"
                   then BlockedFor(end.rows[req.key], "owner_reconciliation_failed")
                   else if db.rows[req.key].origin == Legacy then BlockedFor(end.rows[req.key], "ledger_missing")
                   else end.rows[req.key].state != Blocked))
  {
    hide Others, Own, Unblocked, Looped, BlocksNot, HasPending;
    var key := req.key;
    var asked := Others(db, reply(1).env, key, true);
    OthersBlockNot(db, reply(1).env, key);
    OwnUpdate(asked, key, BlockMissing);
    OwnBlocks(asked, key, "owner_reconciliation_failed");
  }

  /** When the fence has nobody to ask, it goes on whatever that call would have given. */
  lemma UnaskedOwnerGoesOn(db: Db, req: Request, a: Reply, b: Reply)
    requires req.key in db.rows && !AsksOwner(db.rows[req.key], req)
    ensures OwnerReconciled(db, req, a) == OwnerReconciled(db, req, b) && OwnerReconciled(db, req, a).1.None?
  {
    hide Others, Own;
  }

  /** When the rebuild of a mismatching file fails before the loop, the driver answers blocked and does not go on. */
  lemma FailedFirstRebuildBlocks(db: Db, req: Request, reply: nat -> Reply, mint: nat -> Token)
    requires req.key in db.rows && db.rows[req.key].owner >= req.processGeneration
    requires RebuildsMismatch(db.rows[req.key], req) && reply(2).failure.Some?
    ensures var (end, r) := LifecycleOf(db, req, reply, mint);
            && req.key in end.rows && r == BlockedResult(end.rows[req.key]) && r.row.state == Blocked
            && (BlocksNot(reply(2).env, req.key) ==> BlockedFor(r.row, "physical_mismatch_rebuild_failed"))
  {
    hide MismatchRebuilt, Own, Others, Looped, BlocksNot;
    FailedRebuildBlocks(db, req.key, reply(2), mint(0), mint(1));
  }

  /** The damaged file is quarantined only after a failure that says so, and only when that dependency is installed. */
  lemma QuarantineOnlyWhenDegraded(db: Db, req: Request, probe: Reply, work: Reply, a: Reply, b: Reply, first: Token,
                                   second: Token)
    requires work.failure == Some("SESSION_LEDGER_BASELINE_DEGRADED") ==> !req.deps.quarantine
    ensures BaselineAttempted(db, req, probe, work, a, first, second)
        == BaselineAttempted(db, req, probe, work, b, first, second)
  {
    hide Others, Own, CompletedWith;
  }

  /** What another actor commits while a damaged file is quarantined is in the tables afterwards. */
  lemma QuarantineIsAwaited(db: Db, req: Request, probe: Reply, work: Reply, quarantine: Reply, first: Token,
                            second: Token, event: HistoryKey, canonical: Canonical)
    requires AwaitsWork(db, req, probe) && db.rows[req.key].state in {Unknown, Dirty, Checking}
    requires work.failure == Some("SESSION_LEDGER_BASELINE_DEGRADED") && req.deps.quarantine
    requires quarantine.env == [CommitHistory(event, canonical)]
    ensures event in BaselineAttempted(db, req, probe, work, quarantine, first, second).0.history
  {
    hide CompletedWith, FailureClassOf, Admissible, NeedsLock;
    var probed := Others(db, probe.env, req.key, true);
    var worked := Others(Own(probed, req.key, RowOp.BeginCheck(first)), work.env, req.key, true);
    CommitNeedsNoLock(worked, event, canonical, req.key);
    hide Others;
  }

  lemma CommitNeedsNoLock(db: Db, event: HistoryKey, canonical: Canonical, key: LocationKey)
    ensures event in Others(db, [CommitHistory(event, canonical)], key, true).history
  {
    var ops := [CommitHistory(event, canonical)];
    assert ops[1..] == [];
    assert Others(Step(db, ops[0]), [], key, true) == Step(db, ops[0]);
  }

  // ---------------------------------------------------------------- when nothing is in the way

  /** Every call succeeds with a valid proof, and nobody else moves. */
  ghost predicate Calm(reply: nat -> Reply) {
    forall i: nat :: reply(i).env == [] && reply(i).failure.None? && ValidProof(reply(i).proof)
  }

  /** A blocked row needs a retry, and one whose file mismatches the means to rebuild it; a legacy location without a
      file needs the means to rebuild that. */
  predicate CanBecomeReady(row: Row, req: Request, present: bool) {
    var mismatch := row.state == Blocked && row.failureClass == Some("physical_proof_mismatch");
    && (row.state == Blocked ==> req.retryBlocked == Some(true) && (mismatch ==> req.deps.rebuildMismatch))
    && (row.state in {Unknown, Dirty, Checking} || (row.state == Blocked && !mismatch) ==>
          row.origin == Legacy ==> present || req.deps.rebuildMissing)
  }

  lemma CalmCompletes(db: Db, key: LocationKey, reply: Reply, minted: Token)
    requires key in db.rows && RowInv(db.rows[key], false) && !HasPending(db.outbox, key)
    requires db.rows[key].state in {Unknown, Checking} && ValidProof(reply.proof)
    ensures var next := CompletedWith(db, key, reply.proof, minted);
            && key in next.0.rows && next.0.rows[key].state == Ready && next.1 == Some(true)
            && next.0.rows[key].owner == db.rows[key].owner
  {
    hide Own, HasPending;
    OwnUpdate(db, key, RowOp.BeginCheck(minted));
    var claimed := if db.rows[key].state == Unknown then Own(db, key, RowOp.BeginCheck(minted)) else db;
    OwnUpdate(claimed, key, RowOp.CompleteCheck(claimed.rows[key].checkToken.value, reply.proof));
  }

  lemma CalmRebuilds(db: Db, key: LocationKey, reply: Reply, first: Token, second: Token)
    requires key in db.rows && RowInv(db.rows[key], false) && !HasPending(db.outbox, key)
    requires db.rows[key].state == Blocked && reply.env == [] && reply.failure.None? && ValidProof(reply.proof)
    ensures var next := MismatchRebuilt(db, key, reply, first, second);
            key in next.rows && next.rows[key].state == Ready
  {
    hide Own, HasPending, CompletedWith;
    var reopened := Own(db, key, Reopen);
    OwnUpdate(db, key, Reopen);
    OwnUpdate(reopened, key, RowOp.BeginCheck(first));
    CalmCompletes(Own(reopened, key, RowOp.BeginCheck(first)), key, reply, second);
  }

  lemma CalmBootstraps(db: Db, key: LocationKey, reply: Reply)
    requires key in db.rows && RowInv(db.rows[key], false) && !HasPending(db.outbox, key)
    requires db.rows[key].state in {Uninitialized, Initializing}
    requires reply.env == [] && reply.failure.None? && ValidProof(reply.proof)
    ensures db.rows[key].bootstrapId.Some?
    ensures var next := Bootstrapped(db, key, db.rows[key].bootstrapId.value, reply);
            key in next.rows && next.rows[key].state == Ready
  {
    hide Own, HasPending;
    var id := db.rows[key].bootstrapId.value;
    OwnUpdate(db, key, RowOp.BeginBootstrap(id));
    OwnUpdate(Own(db, key, RowOp.BeginBootstrap(id)), key, RowOp.CompleteBootstrap(id, reply.proof));
  }

  lemma CalmBaseline(db: Db, req: Request, probe: Reply, work: Reply, quarantine: Reply, first: Token, second: Token)
    requires req.key in db.rows && RowInv(db.rows[req.key], false) && !HasPending(db.outbox, req.key)
    requires db.rows[req.key].state == Unknown
    requires probe.env == [] && probe.failure.None?
    requires work.env == [] && work.failure.None? && ValidProof(work.proof)
    ensures var (next, stop) := BaselineAttempted(db, req, probe, work, quarantine, first, second);
            if db.rows[req.key].origin == Legacy ==> probe.present || req.deps.rebuildMissing
            then stop.None? && req.key in next.rows && next.rows[req.key].state == Ready
            else stop.Some? && stop.value.BlockedResult?
  {
    hide Own, HasPending, CompletedWith;
    OwnUpdate(db, req.key, RowOp.BeginCheck(first));
    if db.rows[req.key].origin == Legacy ==> probe.present || req.deps.rebuildMissing {
      CalmCompletes(Own(db, req.key, RowOp.BeginCheck(first)), req.key, work, second);
    }
  }

  /** The loop on a row that is not blocked, nothing being in the way. */
  lemma CalmLoop(db: Db, req: Request, reply: nat -> Reply, mint: nat -> Token)
    requires req.key in db.rows && RowInv(db.rows[req.key], false) && !HasPending(db.outbox, req.key)
    requires db.rows[req.key].state !in {Blocked, Checking, Dirty} && Calm(reply)
    ensures Looped(db, req, reply, mint, 0).1.ReadyResult? <==>
            (db.rows[req.key].state == Unknown && db.rows[req.key].origin == Legacy ==>
               reply(10).present || req.deps.rebuildMissing)
  {
    hide Looped, MismatchRebuilt, Bootstrapped, BaselineAttempted, HasPending;
    var state := db.rows[req.key].state;
    var (next, stop) := NthAttempt(db, req, reply, mint, 0);
    LoopedStep(db, req, reply, mint, 0);
    assert reply(10).env == [] && reply(11).env == [];
    if state == Unknown {
      CalmBaseline(db, req, reply(10), reply(11), reply(12), mint(10), mint(11));
    } else if state != Ready {
      CalmBootstraps(db, req.key, reply(11));
    }
    if stop.None? {
      LoopedStep(next, req, reply, mint, 1);
    }
  }

  lemma CalmOwner(db: Db, req: Request, reply: Reply)
    requires req.key in db.rows && RowInv(db.rows[req.key], false) && reply.env == [] && reply.failure.None?
    ensures var (owned, stop) := OwnerReconciled(db, req, reply);
            && stop.None? && req.key in owned.rows && owned.outbox == db.outbox
            && owned.rows[req.key] == db.rows[req.key].(owner := owned.rows[req.key].owner)
  {
    hide Own, HasPending;
    OwnUpdate(db, req.key, RowOp.AdvanceOwner(req.processGeneration));
  }

  lemma CalmUnblocks(db: Db, req: Request, reply: Reply, first: Token, second: Token)
    requires req.key in db.rows && RowInv(db.rows[req.key], false) && !HasPending(db.outbox, req.key)
    requires reply.env == [] && reply.failure.None? && ValidProof(reply.proof)
    ensures var (open, stop) := Unblocked(db, req, reply, first, second);
            var row := db.rows[req.key];
            var mismatch := row.state == Blocked && row.failureClass == Some("physical_proof_mismatch");
            && (stop.None? <==> (row.state == Blocked ==>
                  req.retryBlocked == Some(true) && (mismatch ==> req.deps.rebuildMismatch)))
            && (stop.Some? ==> stop.value.BlockedResult?)
            && (stop.None? ==>
                  && req.key in open.rows
                  && open.rows[req.key].state == (if mismatch then Ready
                       else if row.state in {Blocked, Checking} then Unknown else row.state))
            && (stop.None? && !mismatch ==>
                  && open.outbox == db.outbox && RowInv(open.rows[req.key], false)
                  && open.rows[req.key].origin == row.origin)
  {
    hide Own, HasPending, MismatchRebuilt;
    var key, row := req.key, db.rows[req.key];
    OwnUpdate(db, key, Reopen);
    OwnUpdate(db, key, RecoverCheck);
    OwnUpdate(Own(db, key, Reopen), key, RecoverCheck);
    if row.state == Blocked {
      CalmRebuilds(db, key, reply, first, second);
      OwnUpdate(MismatchRebuilt(db, key, reply, first, second), key, Reopen);
    }
  }

  /** With nothing pending, nobody else about and every call succeeding, the driver answers ready exactly for the rows
      that may become ready. */
  lemma CalmRunIsReadyIff(db: Db, req: Request, reply: nat -> Reply, mint: nat -> Token)
    requires req.key in db.rows && RowInv(db.rows[req.key], false) && !HasPending(db.outbox, req.key) && Calm(reply)
    ensures LifecycleOf(db, req, reply, mint).1.ReadyResult? <==>
            CanBecomeReady(db.rows[req.key], req, reply(10).present)
  {
    hide OwnerReconciled, Unblocked, Looped, HasPending;
    assert reply(1).env == [] && reply(2).env == [];
    CalmOwner(db, req, reply(1));
    var owned := OwnerReconciled(db, req, reply(1)).0;
    CalmUnblocks(owned, req, reply(2), mint(0), mint(1));
    var (open, stop) := Unblocked(owned, req, reply(2), mint(0), mint(1));
    if stop.None? {
      if open.rows[req.key].state == Ready {
        ReadyRowLoops(open, req, reply, mint);
      } else {
        CalmLoop(open, req, reply, mint);
      }
    }
  }

  lemma ReadyRowLoops(db: Db, req: Request, reply: nat -> Reply, mint: nat -> Token)
    requires req.key in db.rows && db.rows[req.key].state == Ready
    ensures Looped(db, req, reply, mint, 0).1.ReadyResult?
  {
    LoopedStep(db, req, reply, mint, 0);
    hide Looped, MismatchRebuilt, Bootstrapped, BaselineAttempted;
  }
}
