/** The lifecycle driver over one location and the one-query admission in front of it
    (electron/sessionLedgerLifecycle.ts). */
module Lifecycle {
  import opened Json
  import opened Readiness
  import opened Outbox
  import opened LedgerStore
  import opened LedgerRuns

  /** Which optional dependencies are installed. */
  datatype Deps = Deps(rebuildMissing: bool, rebuildMismatch: bool, quarantine: bool, reconcile: bool)

  /** One awaited dependency call: what other actors do to the tables meanwhile, and what the call gives. */
  datatype Reply = Reply(env: seq<Op>, failure: Option<string>, proof: Proof, present: bool)

  datatype Outcome = ReadyResult(row: Row) | BlockedResult(row: Row) | Threw(message: string)

  datatype Request = Request(
    key: LocationKey, sessionGeneration: string, processGeneration: int, retryBlocked: Option<bool>, deps: Deps)

  // ---------------------------------------------------------------- other actors

  /** Readiness steps that are only taken while holding the lifecycle lock of the location. */
  predicate NeedsLock(op: Op, key: LocationKey) {
    && op.OnRow? && op.key == key
    && (op.op.BeginBootstrap? || op.op.CompleteBootstrap? || op.op.BeginCheck? || op.op.CompleteCheck?
        || op.op.RecoverCheck? || op.op.Reopen? || op.op.AdvanceOwner?)
  }

  /** Other actors take admissible steps in the given order; one that is not possible in its state does not happen. */
  function Others(db: Db, ops: seq<Op>, key: LocationKey, locked: bool): Db
    decreases |ops|
  {
    if ops == [] then db
    else if Admissible(db, ops[0]) && !(locked && NeedsLock(ops[0], key))
         then Others(Step(db, ops[0]), ops[1..], key, locked)
    else Others(db, ops[1..], key, locked)
  }

  /** While the lock is held, nobody else makes the row ready, moves its owner or changes where it came from. */
  predicate LockedChange(row: Row, row': Row) {
    && (row'.state == Ready ==> row.state == Ready)
    && row'.owner == row.owner
    && SameProvenance(row, row')
  }

  lemma {:induction false} OthersKeep(db: Db, ops: seq<Op>, key: LocationKey, locked: bool)
    requires Inv(db) && key in db.rows
    ensures var db' := Others(db, ops, key, locked);
            && Inv(db') && key in db'.rows && SameProvenance(db.rows[key], db'.rows[key])
            && (locked ==> LockedChange(db.rows[key], db'.rows[key]))
    decreases |ops|
  {
    hide Step, Inv;
    if ops != [] {
      if Admissible(db, ops[0]) && !(locked && NeedsLock(ops[0], key)) {
        StepKeepsInv(db, ops[0]);
        StepEffect(db, ops[0], key);
        EffectPersists(Effect(db, ops[0], key), db.rows[key], HasPending(db.outbox, key));
        if locked {
          LockedEffect(db, ops[0], key);
        }
        OthersKeep(Step(db, ops[0]), ops[1..], key, locked);
      } else {
        OthersKeep(db, ops[1..], key, locked);
      }
    }
  }

  lemma LockedEffect(db: Db, op: Op, key: LocationKey)
    requires key in db.rows && !NeedsLock(op, key)
    ensures LockedChange(db.rows[key], AfterEffect(Effect(db, op, key), db.rows[key], HasPending(db.outbox, key)))
  {
    hide EnqueuesPending, AcksLast;
  }

  method Await(store: Store, ops: seq<Op>, key: LocationKey, locked: bool)
    requires Inv(store.Contents()) && key in store.rows
    modifies store
    ensures Inv(store.Contents()) && key in store.rows && SameProvenance(old(store.rows[key]), store.rows[key])
    ensures locked ==> LockedChange(old(store.rows[key]), store.rows[key])
    ensures store.Contents() == Others(old(store.Contents()), ops, key, locked)
    ensures ops == [] ==> store.Contents() == old(store.Contents())
  {
    OthersKeep(store.Contents(), ops, key, locked);
    var db := Others(store.Contents(), ops, key, locked);
    store.rows, store.outbox, store.history := db.rows, db.outbox, db.history;
  }

  /** A step of the driver itself keeps the invariant and the row. */
  lemma OwnStep(db: Db, key: LocationKey, op: RowOp)
    requires Inv(db) && key in db.rows && op != EnqueuedPending && op != AckedLast
    ensures var db' := Step(db, OnRow(key, op));
            && Inv(db') && key in db'.rows && db'.outbox == db.outbox
            && db'.rows[key] == Apply(op, db.rows[key], HasPending(db.outbox, key))
  {
    StepKeepsInv(db, OnRow(key, op));
  }

  lemma FirstFailureClassesValid()
    ensures ValidFailureClass("physical_mismatch_rebuild_failed") && ValidFailureClass("owner_reconciliation_failed")
    ensures ValidFailureClass("source_missing") && ValidFailureClass("baseline_failed")
  {
  }

  lemma SecondFailureClassesValid()
    ensures ValidFailureClass("ledger_degraded_quarantined") && ValidFailureClass("ledger_quarantine_failed")
    ensures ValidFailureClass("bootstrap_failed") && ValidFailureClass("state_transition_exhausted")
  {
  }

  /** The failure classes the driver writes are well formed. */
  lemma FailureClassesValid()
    ensures ValidFailureClass("physical_mismatch_rebuild_failed") && ValidFailureClass("owner_reconciliation_failed")
    ensures ValidFailureClass("source_missing") && ValidFailureClass("baseline_failed")
    ensures ValidFailureClass("ledger_degraded_quarantined") && ValidFailureClass("ledger_quarantine_failed")
    ensures ValidFailureClass("bootstrap_failed") && ValidFailureClass("state_transition_exhausted")
  {
    hide ValidFailureClass;
    FirstFailureClassesValid();
    SecondFailureClassesValid();
  }

  lemma ReadyHasNothingPending(db: Db, key: LocationKey)
    requires Inv(db) && key in db.rows
    ensures db.rows[key].state == Ready ==> !HasPending(db.outbox, key)
  {
  }

  lemma RowInvOf(db: Db, key: LocationKey)
    requires Inv(db) && key in db.rows
    ensures RowInv(db.rows[key], HasPending(db.outbox, key))
  {
  }

  // ---------------------------------------------------------------- the driver on values

  predicate CredentialedBootstrap(row: Row) {
    row.origin == NewLocation && row.bootstrapId.Some? && row.bootstrapId.value != ""
        && (row.state == Uninitialized || row.state == Initializing)
  }

  function RowAt(db: Db, key: LocationKey): Row {
    if key in db.rows then db.rows[key] else LegacyRow("")
  }

  /** One row update of the driver itself. */
  function Own(db: Db, key: LocationKey, op: RowOp): Db {
    Step(db, OnRow(key, op))
  }

  /** The first token, when the row is in a state a check can begin in. */
  function ClaimedToken(db: Db, key: LocationKey, minted: Token): Option<Token> {
    if RowAt(db, key).state == Unknown || RowAt(db, key).state == Dirty then Some(minted) else None
  }

  /** After the work: claim again when it dropped the check, and complete with the proof. */
  function CompletedWith(db: Db, key: LocationKey, proof: Proof, minted: Token): (Db, Option<bool>) {
    var after := RowAt(db, key);
    var claimed := if after.state == Unknown then Own(db, key, RowOp.BeginCheck(minted)) else db;
    var token := if after.state == Unknown then Some(minted)
        else if after.state == Checking then after.checkToken else None;
    if token.None? then (claimed, None)
    else
      (Own(claimed, key, RowOp.CompleteCheck(token.value, proof)),
       Some(Enabled(RowOp.CompleteCheck(token.value, proof), RowAt(claimed, key), HasPending(claimed.outbox, key))))
  }

  function MismatchRebuilt(db: Db, key: LocationKey, reply: Reply, first: Token, second: Token): Db {
    var reopened := Own(db, key, Reopen);
    var claimed := Own(reopened, key, RowOp.BeginCheck(first));
    if ClaimedToken(reopened, key, first).None? then claimed
    else
      var worked := Others(claimed, reply.env, key, true);
      if reply.failure.Some? then Own(worked, key, RowOp.Block(Baseline, "physical_mismatch_rebuild_failed"))
      else
        var (completed, done) := CompletedWith(worked, key, reply.proof, second);
        if done == Some(false) then Own(completed, key, RowOp.Block(Baseline, "physical_mismatch_rebuild_failed"))
            else completed
  }

  function OwnerReconciled(db: Db, req: Request, reply: Reply): (Db, Option<Outcome>) {
    var current := RowAt(db, req.key);
    if current.owner >= req.processGeneration then (db, None)
    else
      var canRebuildMissing :=
        req.retryBlocked == Some(true) && current.origin == Legacy && current.state == Blocked
        && current.failureClass == Some("ledger_missing") && req.deps.rebuildMissing;
      var asks := !CredentialedBootstrap(current) && !canRebuildMissing && req.deps.reconcile
          && (current.owner > 0 || current.origin == Legacy);
      var asked := if asks then Others(db, reply.env, req.key, true) else db;
      if asks && reply.failure.Some? then
        var blocked :=
          if reply.failure.value == "SESSION_LEDGER_BASELINE_FILE_MISSING" then Own(asked, req.key, BlockMissing)
          else Own(asked, req.key, RowOp.Block(Baseline, "owner_reconciliation_failed"));
        (blocked, Some(BlockedResult(RowAt(blocked, req.key))))
      else (Own(asked, req.key, RowOp.AdvanceOwner(req.processGeneration)), None)
  }

  function Bootstrapped(db: Db, key: LocationKey, bootstrapId: string, reply: Reply): Db {
    var worked := Others(Own(db, key, RowOp.BeginBootstrap(bootstrapId)), reply.env, key, true);
    if reply.failure.Some? then Own(worked, key, RowOp.Block(Baseline, "bootstrap_failed"))
    else Own(worked, key, RowOp.CompleteBootstrap(bootstrapId, reply.proof))
  }

  function FailureClassOf(req: Request, work: Reply, quarantine: Reply): string
    requires work.failure.Some?
  {
    if work.failure.value == "SESSION_LEDGER_BASELINE_DEGRADED" && req.deps.quarantine then
      if quarantine.failure.None? then "ledger_degraded_quarantined" else "ledger_quarantine_failed"
    else if work.failure.value == "SESSION_LEDGER_PROJECTION_SOURCE_MISSING" then "source_missing"
         else "baseline_failed"
  }

  function BaselineAttempted(db: Db, req: Request, probe: Reply, work: Reply, quarantine: Reply, first: Token,
                             second: Token): (Db, Option<Outcome>) {
    var probed := Others(db, probe.env, req.key, true);
    if probe.failure.Some? then (probed, Some(Threw(probe.failure.value)))
    else if RowAt(db, req.key).origin == Legacy && !probe.present && !req.deps.rebuildMissing then
      var blocked := Own(probed, req.key, BlockMissing);
      (blocked, Some(BlockedResult(RowAt(blocked, req.key))))
    else
      var claimed := Own(probed, req.key, RowOp.BeginCheck(first));
      var worked := Others(claimed, work.env, req.key, true);
      if ClaimedToken(probed, req.key, first).None? then (claimed, Some(BlockedResult(RowAt(claimed, req.key))))
      else if work.failure.None? then (CompletedWith(worked, req.key, work.proof, second).0, None)
      else
        var asks := work.failure.value == "SESSION_LEDGER_BASELINE_DEGRADED" && req.deps.quarantine;
        var asked := if asks then Others(worked, quarantine.env, req.key, true) else worked;
        (Own(asked, req.key, RowOp.Block(Baseline, FailureClassOf(req, work, quarantine))), None)
  }

  function Unblocked(db: Db, req: Request, reply: Reply, first: Token, second: Token): (Db, Option<Outcome>) {
    var current := RowAt(db, req.key);
    var mismatch := current.failureClass == Some("physical_proof_mismatch");
    if current.state == Blocked && (req.retryBlocked != Some(true) || (mismatch && !req.deps.rebuildMismatch))
        then (db, Some(BlockedResult(current)))
    else
      var rebuilt := if current.state == Blocked && mismatch then MismatchRebuilt(db, req.key, reply, first, second)
          else db;
      if current.state == Blocked && mismatch && RowAt(rebuilt, req.key).state == Blocked
      then (rebuilt, Some(BlockedResult(RowAt(rebuilt, req.key))))
      else
        var reopened := if current.state == Blocked then Own(rebuilt, req.key, Reopen) else rebuilt;
        (if RowAt(reopened, req.key).state == Checking then Own(reopened, req.key, RecoverCheck) else reopened, None)
  }

  function Attempted(db: Db, req: Request, probe: Reply, work: Reply, quarantine: Reply, first: Token,
                     second: Token): (Db, Option<Outcome>) {
    var current := RowAt(db, req.key);
    var gate := DecideGate(current);
    if gate.Err? then (db, Some(Threw(gate.error)))
    else if gate.value.AllowReady? then (db, Some(ReadyResult(current)))
    else if gate.value.RetryBlocked?
            && (req.retryBlocked != Some(true) || current.failureClass != Some("physical_proof_mismatch")
                || !req.deps.rebuildMismatch)
    then (db, Some(BlockedResult(current)))
    else
      var (next, stop) :=
        if gate.value.RetryBlocked? then (MismatchRebuilt(db, req.key, work, first, second), None)
        else if gate.value.BootstrapGate? then (Bootstrapped(db, req.key, gate.value.bootstrapId, work), None)
        else if gate.value.ResumeBootstrap? then (Bootstrapped(db, req.key, gate.value.bootstrapId, work), None)
        else BaselineAttempted(db, req, probe, work, quarantine, first, second);
      if stop.Some? then (next, stop)
      else if RowAt(next, req.key).state == Blocked then (next, Some(BlockedResult(RowAt(next, req.key))))
      else (next, None)
  }

  const ATTEMPTS: nat := 5

  /** The i-th attempt with the replies and tokens it gets. */
  function NthAttempt(db: Db, req: Request, reply: nat -> Reply, mint: nat -> Token, i: nat): (Db, Option<Outcome>) {
    Attempted(db, req, reply(10 + 3 * i), reply(11 + 3 * i), reply(12 + 3 * i), mint(10 + 2 * i), mint(11 + 2 * i))
  }

  /** What the driver does when all attempts are used up. */
  function Exhausted(db: Db, key: LocationKey): Db {
    Own(db, key, RowOp.Block(if RowAt(db, key).watermark.Some? then TargetScope
                             else Baseline, "state_transition_exhausted"))
  }

  function Looped(db: Db, req: Request, reply: nat -> Reply, mint: nat -> Token, i: nat): (Db, Outcome)
    requires i <= ATTEMPTS
    decreases ATTEMPTS - i
  {
    if i == ATTEMPTS then (Exhausted(db, req.key), BlockedResult(RowAt(Exhausted(db, req.key), req.key)))
    else
      var (next, stop) := NthAttempt(db, req, reply, mint, i);
      if stop.Some? then (next, stop.value) else Looped(next, req, reply, mint, i + 1)
  }

  /** The part of `ensureSessionLedgerReady` under the lock. */
  function LifecycleOf(db: Db, req: Request, reply: nat -> Reply, mint: nat -> Token): (Db, Outcome) {
    var (owned, refused) := OwnerReconciled(db, req, reply(1));
    if refused.Some? then (owned, refused.value)
    else
      var (open, blocked) := Unblocked(owned, req, reply(2), mint(0), mint(1));
      if blocked.Some? then (open, blocked.value) else Looped(open, req, reply, mint, 0)
  }

  // ---------------------------------------------------------------- the driver in place

  /** What every await and every own step of the driver leaves true. */
  ghost predicate Driving(store: Store, key: LocationKey)
    reads store
  {
    Inv(store.Contents()) && key in store.rows
  }

  /** The driver's updates of the row leave its owner and its provenance alone. */
  predicate Kept(row: Row, row': Row) {
    row'.owner == row.owner && SameProvenance(row, row')
  }

  method Block(store: Store, key: LocationKey, scope: Scope, failureClass: string)
    requires Driving(store, key) && ValidFailureClass(failureClass)
    modifies store
    ensures Driving(store, key) && Kept(old(store.rows[key]), store.rows[key])
    ensures store.rows[key].state == Blocked
    ensures store.Contents() == Own(old(store.Contents()), key, RowOp.Block(scope, failureClass))
  {
    OwnStep(store.Contents(), key, RowOp.Block(scope, failureClass));
    var _ := store.MarkBlocked(key, scope, failureClass);
  }

  method BlockAsMissing(store: Store, key: LocationKey)
    requires Driving(store, key)
    modifies store
    ensures Driving(store, key) && Kept(old(store.rows[key]), store.rows[key])
    ensures store.rows[key].state == if old(store.rows[key]).origin == Legacy then Blocked
        else old(store.rows[key]).state
    ensures store.Contents() == Own(old(store.Contents()), key, BlockMissing)
  {
    OwnStep(store.Contents(), key, BlockMissing);
    var _ := store.MarkMissingLegacyBlocked(key);
  }

  method ReopenRow(store: Store, key: LocationKey)
    requires Driving(store, key)
    modifies store
    ensures Driving(store, key) && Kept(old(store.rows[key]), store.rows[key])
    ensures store.rows[key].state != Blocked && (old(store.rows[key]).state != Blocked ==>
                                                 store.rows[key] == old(store.rows[key]))
    ensures store.Contents() == Own(old(store.Contents()), key, Reopen)
  {
    OwnStep(store.Contents(), key, Reopen);
    var _ := store.ReopenBlocked(key);
  }

  method RecoverRow(store: Store, key: LocationKey)
    requires Driving(store, key)
    modifies store
    ensures Driving(store, key) && Kept(old(store.rows[key]), store.rows[key])
    ensures store.rows[key].state == if old(store.rows[key]).state == Checking then Unknown
        else old(store.rows[key]).state
    ensures store.Contents() == Own(old(store.Contents()), key, RecoverCheck)
  {
    OwnStep(store.Contents(), key, RecoverCheck);
    var _ := store.RecoverInterruptedCheck(key);
  }

  method Advance(store: Store, key: LocationKey, generation: int)
    requires Driving(store, key)
    modifies store
    ensures Driving(store, key) && SameProvenance(old(store.rows[key]), store.rows[key])
        && store.rows[key].owner >= generation
    ensures store.Contents() == Own(old(store.Contents()), key, RowOp.AdvanceOwner(generation))
  {
    OwnStep(store.Contents(), key, RowOp.AdvanceOwner(generation));
    var _ := store.AdvanceOwner(key, generation);
  }

  method Claim(store: Store, key: LocationKey, minted: Token) returns (token: Option<Token>)
    requires Driving(store, key)
    modifies store
    ensures Driving(store, key) && Kept(old(store.rows[key]), store.rows[key])
    ensures token == if old(store.rows[key]).state == Unknown || old(store.rows[key]).state == Dirty then Some(minted)
        else None
    ensures token.None? ==> store.rows[key] == old(store.rows[key])
    ensures store.rows[key].state == Ready ==> old(store.rows[key]).state == Ready
    ensures store.Contents() == Own(old(store.Contents()), key, RowOp.BeginCheck(minted))
    ensures token == ClaimedToken(old(store.Contents()), key, minted)
  {
    OwnStep(store.Contents(), key, RowOp.BeginCheck(minted));
    token := store.BeginCheck(key, minted);
  }

  method Complete(store: Store, key: LocationKey, token: Token, proof: Proof) returns (changed: bool)
    requires Driving(store, key)
    modifies store
    ensures Driving(store, key) && Kept(old(store.rows[key]), store.rows[key])
    ensures store.Contents() == Own(old(store.Contents()), key, RowOp.CompleteCheck(token, proof))
    ensures changed == Enabled(RowOp.CompleteCheck(token, proof), old(store.rows[key]),
                               HasPending(old(store.outbox), key))
  {
    OwnStep(store.Contents(), key, RowOp.CompleteCheck(token, proof));
    changed := store.CompleteCheck(key, token, proof);
  }

  /** Claims the check again when the work in between dropped it, and completes it with the proof obtained. */
  method CompleteWith(store: Store, key: LocationKey, proof: Proof, minted: Token) returns (done: Option<bool>)
    requires Driving(store, key)
    modifies store
    ensures Driving(store, key) && store.rows[key].owner == old(store.rows[key].owner)
    ensures SameProvenance(old(store.rows[key]), store.rows[key])
    ensures (store.Contents(), done) == CompletedWith(old(store.Contents()), key, proof, minted)
  {
    hide Step, Inv;
    var after := store.rows[key];
    var token: Option<Token> := None;
    if after.state == Unknown {
      token := Claim(store, key, minted);
    } else if after.state == Checking {
      token := after.checkToken;
    }
    if token.None? {
      return None;
    }
    var changed := Complete(store, key, token.value, proof);
    return Some(changed);
  }

  /** Quarantine of the mismatching file and rebuild from canonical History. */
  method RebuildMismatch(store: Store, key: LocationKey, reply: Reply, first: Token, second: Token)
    requires Driving(store, key)
    modifies store
    ensures Driving(store, key) && store.rows[key].owner == old(store.rows[key].owner)
    ensures SameProvenance(old(store.rows[key]), store.rows[key])
    ensures store.Contents() == MismatchRebuilt(old(store.Contents()), key, reply, first, second)
  {
    hide Step, Inv, ValidFailureClass;
    FailureClassesValid();
    ReopenRow(store, key);
    var token := Claim(store, key, first);
    if token.None? {
      return;
    }
    Await(store, reply.env, key, true);
    if reply.failure.Some? {
      Block(store, key, Baseline, "physical_mismatch_rebuild_failed");
      return;
    }
    var done := CompleteWith(store, key, reply.proof, second);
    if done == Some(false) {
      Block(store, key, Baseline, "physical_mismatch_rebuild_failed");
    }
  }

  /** The owner fence at the head of the driver; None when the driver goes on. */
  method ReconcileOwner(store: Store, req: Request, reply: Reply) returns (stop: Option<Outcome>)
    requires Driving(store, req.key)
    modifies store
    ensures Driving(store, req.key) && SameProvenance(old(store.rows[req.key]), store.rows[req.key])
    ensures stop.None? ==> store.rows[req.key].owner >= req.processGeneration
    ensures stop.Some? ==> stop.value == BlockedResult(store.rows[req.key])
                           && store.rows[req.key].owner < req.processGeneration
    ensures old(store.rows[req.key]).owner >= req.processGeneration ==>
        stop.None? && store.Contents() == old(store.Contents())
    ensures (store.Contents(), stop) == OwnerReconciled(old(store.Contents()), req, reply)
  {
    hide Step, Inv, ValidFailureClass;
    FailureClassesValid();
    var key := req.key;
    var current := store.rows[key];
    var resume := CredentialedBootstrap(current);
    if current.owner >= req.processGeneration {
      return None;
    }
    var canRebuildMissing := req.retryBlocked == Some(true) && current.origin == Legacy && current.state == Blocked
                             && current.failureClass == Some("ledger_missing") && req.deps.rebuildMissing;
    if !resume && !canRebuildMissing && req.deps.reconcile && (current.owner > 0 || current.origin == Legacy) {
      Await(store, reply.env, key, true);
      if reply.failure.Some? {
        if reply.failure.value == "SESSION_LEDGER_BASELINE_FILE_MISSING" {
          BlockAsMissing(store, key);
        } else {
          Block(store, key, Baseline, "owner_reconciliation_failed");
        }
        return Some(BlockedResult(store.rows[key]));
      }
    }
    Advance(store, key, req.processGeneration);
    return None;
  }

  /** One baseline attempt of the loop. None when the loop goes on. */
  method BaselineAttempt(store: Store, req: Request, current: Row, probe: Reply, work: Reply, quarantine: Reply,
                         first: Token, second: Token)
    returns (stop: Option<Outcome>)
    requires Driving(store, req.key) && current == store.rows[req.key] && current.state != Ready
    modifies store
    ensures Driving(store, req.key) && Kept(old(store.rows[req.key]), store.rows[req.key])
    ensures stop.Some? && !stop.value.Threw? ==> stop.value == BlockedResult(store.rows[req.key])
                                                 && store.rows[req.key].state != Ready
    ensures (store.Contents(), stop) == BaselineAttempted(old(store.Contents()), req, probe, work, quarantine, first,
          second)
  {
    hide Step, Inv, ValidFailureClass;
    FailureClassesValid();
    var key := req.key;
    Await(store, probe.env, key, true);
    if probe.failure.Some? {
      return Some(Threw(probe.failure.value));
    }
    var rebuildMissing := !probe.present && req.deps.rebuildMissing
        && (current.origin == Legacy || req.retryBlocked == Some(true));
    if current.origin == Legacy && !probe.present && !req.deps.rebuildMissing {
      BlockAsMissing(store, key);
      return Some(BlockedResult(store.rows[key]));
    }
    var token := Claim(store, key, first);
    if token.None? {
      return Some(BlockedResult(store.rows[key]));
    }
    // The rebuild of a missing ledger and the ordinary baseline differ only in what the call does.
    Await(store, work.env, key, true);
    if work.failure.None? {
      var _ := CompleteWith(store, key, work.proof, second);
      return None;
    }
    var failureClass := if work.failure.value == "SESSION_LEDGER_PROJECTION_SOURCE_MISSING" then "source_missing"
        else "baseline_failed";
    if work.failure.value == "SESSION_LEDGER_BASELINE_DEGRADED" && req.deps.quarantine {
      Await(store, quarantine.env, key, true);
      failureClass := if quarantine.failure.None? then "ledger_degraded_quarantined" else "ledger_quarantine_failed";
    }
    Block(store, key, Baseline, failureClass);
    return None;
  }

  /** Creation of the empty ledger of a new location. */
  method Bootstrap(store: Store, key: LocationKey, bootstrapId: string, reply: Reply)
    requires Driving(store, key)
    modifies store
    ensures Driving(store, key) && store.rows[key].owner == old(store.rows[key].owner)
    ensures SameProvenance(old(store.rows[key]), store.rows[key])
    ensures store.Contents() == Bootstrapped(old(store.Contents()), key, bootstrapId, reply)
  {
    hide Step, Inv, ValidFailureClass;
    FailureClassesValid();
    OwnStep(store.Contents(), key, RowOp.BeginBootstrap(bootstrapId));
    var _ := store.BeginBootstrap(key, bootstrapId);
    Await(store, reply.env, key, true);
    if reply.failure.Some? {
      Block(store, key, Baseline, "bootstrap_failed");
    } else {
      OwnStep(store.Contents(), key, RowOp.CompleteBootstrap(bootstrapId, reply.proof));
      var _ := store.CompleteBootstrap(key, bootstrapId, reply.proof);
    }
  }

  /** What is done about a blocked or interrupted row before the first attempt. */
  method Unblock(store: Store, req: Request, reply: Reply, first: Token, second: Token) returns (stop: Option<Outcome>)
    requires Driving(store, req.key)
    modifies store
    ensures Driving(store, req.key) && Kept(old(store.rows[req.key]), store.rows[req.key])
    ensures stop.Some? ==> stop.value == BlockedResult(store.rows[req.key]) && store.rows[req.key].state == Blocked
    ensures stop.None? ==> store.rows[req.key].state != Checking
    ensures old(store.rows[req.key]).state == Blocked && req.retryBlocked != Some(true) ==>
        stop.Some? && store.Contents() == old(store.Contents())
    ensures old(store.rows[req.key]).state == Ready ==> stop.None? && store.Contents() == old(store.Contents())
    ensures (store.Contents(), stop) == Unblocked(old(store.Contents()), req, reply, first, second)
  {
    hide Step, Inv, ValidFailureClass;
    var key := req.key;
    var current := store.rows[key];
    if current.state == Blocked {
      if req.retryBlocked != Some(true) {
        return Some(BlockedResult(current));
      }
      if current.failureClass == Some("physical_proof_mismatch") {
        if !req.deps.rebuildMismatch {
          return Some(BlockedResult(current));
        }
        RebuildMismatch(store, key, reply, first, second);
        current := store.rows[key];
        if current.state == Blocked {
          return Some(BlockedResult(current));
        }
      }
      ReopenRow(store, key);
    }
    if store.rows[key].state == Checking {
      RecoverRow(store, key);
    }
    return None;
  }

  /** One round of the loop: the gate's decision about the current row, carried out. None when the loop goes on. */
  method Attempt(store: Store, req: Request, probe: Reply, work: Reply, quarantine: Reply, first: Token, second: Token)
    returns (stop: Option<Outcome>)
    requires Driving(store, req.key)
    modifies store
    ensures Driving(store, req.key) && Kept(old(store.rows[req.key]), store.rows[req.key])
    ensures stop.Some? && stop.value.ReadyResult? ==>
              old(store.rows[req.key]).state == Ready && stop.value.row == store.rows[req.key]
                  && store.Contents() == old(store.Contents())
    ensures stop.Some? && stop.value.BlockedResult? ==>
        stop.value.row == store.rows[req.key] && store.rows[req.key].state != Ready
    ensures old(store.rows[req.key]).state == Ready ==> stop.Some? && stop.value.ReadyResult?
    ensures (store.Contents(), stop) == Attempted(old(store.Contents()), req, probe, work, quarantine, first, second)
  {
    hide Step, Inv, ValidFailureClass, RowInv;
    var key := req.key;
    var current := store.rows[key];
    RowInvOf(store.Contents(), key);
    GateIsTotalOnReachableRows(current, HasPending(store.outbox, key));
    match DecideGate(current).value {
      case AllowReady =>
        return Some(ReadyResult(current));
      case RetryBlocked(_) =>
        if req.retryBlocked != Some(true) || current.failureClass != Some("physical_proof_mismatch")
            || !req.deps.rebuildMismatch {
          return Some(BlockedResult(current));
        }
        RebuildMismatch(store, key, work, first, second);
      case BootstrapGate(id) => Bootstrap(store, key, id, work);
      case ResumeBootstrap(id) => Bootstrap(store, key, id, work);
      case _ =>
        stop := BaselineAttempt(store, req, current, probe, work, quarantine, first, second);
        if stop.Some? {
          return stop;
        }
    }
    if store.rows[key].state == Blocked {
      return Some(BlockedResult(store.rows[key]));
    }
    return None;
  }

  lemma LoopedStep(db: Db, req: Request, reply: nat -> Reply, mint: nat -> Token, i: nat)
    requires i < ATTEMPTS
    ensures var (next, stop) := NthAttempt(db, req, reply, mint, i);
            Looped(db, req, reply, mint, i) == if stop.Some? then (next, stop.value)
                else Looped(next, req, reply, mint, i + 1)
  {
    hide NthAttempt, Exhausted;
  }

  lemma LoopedEnd(db: Db, req: Request, reply: nat -> Reply, mint: nat -> Token)
    ensures Looped(db, req, reply, mint, ATTEMPTS)
        == (Exhausted(db, req.key), BlockedResult(RowAt(Exhausted(db, req.key), req.key)))
  {
    hide NthAttempt, Exhausted;
  }

  /** One attempt with the replies and tokens of its turn. */
  method TakeAttempt(store: Store, req: Request, reply: nat -> Reply, mint: nat -> Token, i: nat)
      returns (stop: Option<Outcome>)
    requires Driving(store, req.key)
    modifies store
    ensures Driving(store, req.key) && Kept(old(store.rows[req.key]), store.rows[req.key])
    ensures stop.Some? && stop.value.ReadyResult? ==>
              old(store.rows[req.key]).state == Ready && stop.value.row == store.rows[req.key]
                  && store.Contents() == old(store.Contents())
    ensures stop.Some? && stop.value.BlockedResult? ==>
        stop.value.row == store.rows[req.key] && store.rows[req.key].state != Ready
    ensures old(store.rows[req.key]).state == Ready ==> stop.Some? && stop.value.ReadyResult?
    ensures (store.Contents(), stop) == NthAttempt(old(store.Contents()), req, reply, mint, i)
  {
    hide Attempted, Inv;
    stop := Attempt(store, req, reply(10 + 3 * i), reply(11 + 3 * i), reply(12 + 3 * i), mint(10 + 2 * i),
                    mint(11 + 2 * i));
  }

  /** Blocks the row when all attempts are used up. */
  method Exhaust(store: Store, key: LocationKey) returns (r: Outcome)
    requires Driving(store, key)
    modifies store
    ensures Driving(store, key) && Kept(old(store.rows[key]), store.rows[key])
    ensures store.Contents() == Exhausted(old(store.Contents()), key)
    ensures r == BlockedResult(store.rows[key]) && store.rows[key].state == Blocked
  {
    hide Step, Inv, ValidFailureClass;
    FailureClassesValid();
    Block(store, key, if store.rows[key].watermark.Some? then TargetScope else Baseline, "state_transition_exhausted");
    return BlockedResult(store.rows[key]);
  }

  /** The bounded loop. */
  method RunAttempts(store: Store, req: Request, reply: nat -> Reply, mint: nat -> Token) returns (r: Outcome)
    requires Driving(store, req.key)
    modifies store
    ensures Driving(store, req.key) && Kept(old(store.rows[req.key]), store.rows[req.key])
    ensures (store.Contents(), r) == Looped(old(store.Contents()), req, reply, mint, 0)
    ensures r.ReadyResult? ==> r.row == store.rows[req.key] && store.rows[req.key].state == Ready
    ensures r.BlockedResult? ==> r.row == store.rows[req.key] && store.rows[req.key].state != Ready
    ensures old(store.rows[req.key]).state == Ready ==> r.ReadyResult? && store.Contents() == old(store.Contents())
  {
    hide Inv, NthAttempt, Exhausted, Looped;
    var key := req.key;
    ghost var all := Looped(store.Contents(), req, reply, mint, 0);
    var attempt: nat := 0;
    while attempt < ATTEMPTS
      invariant attempt <= ATTEMPTS
      invariant Driving(store, key) && Kept(old(store.rows[key]), store.rows[key])
      invariant old(store.rows[key]).state == Ready ==> attempt == 0 && store.Contents() == old(store.Contents())
      invariant all == Looped(store.Contents(), req, reply, mint, attempt)
      decreases ATTEMPTS - attempt
    {
      LoopedStep(store.Contents(), req, reply, mint, attempt);
      var stop := TakeAttempt(store, req, reply, mint, attempt);
      if stop.Some? {
        return stop.value;
      }
      attempt := attempt + 1;
    }
    LoopedEnd(store.Contents(), req, reply, mint);
    r := Exhaust(store, key);
  }

  /** The part of the driver that runs under the lifecycle lock. `reply(i)` and `mint(i)` are the i-th awaited call and
      token. */
  method RunLifecycle(store: Store, req: Request, reply: nat -> Reply, mint: nat -> Token) returns (r: Outcome)
    requires Driving(store, req.key) && store.rows[req.key].sessionGeneration == req.sessionGeneration
    modifies store
    ensures Driving(store, req.key)
    ensures (store.Contents(), r) == LifecycleOf(old(store.Contents()), req, reply, mint)
    ensures r.ReadyResult? ==>
              Admitted(store.Contents(), req.key, req.sessionGeneration, req.processGeneration)
                  && r.row == store.rows[req.key]
    ensures r.BlockedResult? ==>
              !Admitted(store.Contents(), req.key, req.sessionGeneration, req.processGeneration)
                  && r.row == store.rows[req.key]
    ensures Admitted(old(store.Contents()), req.key, req.sessionGeneration, req.processGeneration) ==>
              r == ReadyResult(old(store.rows[req.key])) && store.Contents() == old(store.Contents())
  {
    hide Step, Inv, ValidFailureClass, RowInv, OwnerReconciled, Unblocked, Looped, HasPending;
    var stop := ReconcileOwner(store, req, reply(1));
    if stop.Some? {
      return stop.value;
    }
    stop := Unblock(store, req, reply(2), mint(0), mint(1));
    if stop.Some? {
      return stop.value;
    }
    r := RunAttempts(store, req, reply, mint);
    ReadyHasNothingPending(store.Contents(), req.key);
  }

  /** `ensureSessionLedgerReady`: the slow path. While it waits for the writers and the lock, `reply(0)` happens. */
  method EnsureReady(store: Store, req: Request, reply: nat -> Reply, mint: nat -> Token) returns (r: Outcome)
    requires Inv(store.Contents())
    modifies store
    ensures Inv(store.Contents())
    ensures r.ReadyResult? ==> Admitted(store.Contents(), req.key, req.sessionGeneration, req.processGeneration)
                               && r.row == store.rows[req.key]
    ensures r.BlockedResult? ==> !Admitted(store.Contents(), req.key, req.sessionGeneration, req.processGeneration)
    ensures reply(0).env == []
            && Admitted(old(store.Contents()), req.key, req.sessionGeneration, req.processGeneration) ==>
              r == ReadyResult(old(store.rows[req.key])) && store.Contents() == old(store.Contents())
  {
    StepKeepsInv(store.Contents(), InsertLegacy(req.key, req.sessionGeneration));
    var readiness := store.EnsureLegacyLedgerReadiness(req.key, req.sessionGeneration);
    if readiness.Err? {
      return Threw(readiness.error);
    }
    var initial := store.rows[req.key];
    if req.retryBlocked == Some(false) && initial.state == Blocked && !CredentialedBootstrap(initial) {
      return BlockedResult(initial);
    }
    Await(store, reply(0).env, req.key, false);
    r := RunLifecycle(store, req, reply, mint);
  }

  /** `ensureSessionLedgerAdmission`: the fast path answers exactly as the slow path would, without touching the
      tables. */
  method EnsureAdmission(store: Store, req: Request, reply: nat -> Reply, mint: nat -> Token) returns (r: Outcome)
    requires Inv(store.Contents())
    modifies store
    ensures Inv(store.Contents())
    ensures r.ReadyResult? ==> Admitted(store.Contents(), req.key, req.sessionGeneration, req.processGeneration)
                               && r.row == store.rows[req.key]
    ensures r.BlockedResult? ==> !Admitted(store.Contents(), req.key, req.sessionGeneration, req.processGeneration)
    ensures Admitted(old(store.Contents()), req.key, req.sessionGeneration, req.processGeneration) ==>
              r == ReadyResult(old(store.rows[req.key])) && store.Contents() == old(store.Contents())
  {
    var admission := store.ReadUsableAdmission(req.key, req.sessionGeneration, req.processGeneration);
    if admission.Some? {
      return ReadyResult(admission.value);
    }
    r := EnsureReady(store, req, reply, mint);
  }
}
