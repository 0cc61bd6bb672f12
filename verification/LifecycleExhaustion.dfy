/** How the bounded loop of the lifecycle driver ends (electron/sessionLedgerLifecycle.ts): which attempt answers, when
    the attempts are used up, and that a row which becomes ready in the last attempt is blocked all the same. */
module LifecycleExhaustion {
  import opened Json
  import opened Readiness
  import opened Outbox
  import opened LedgerStore
  import opened LedgerRuns
  import opened Lifecycle

  const EXHAUSTED: string := "state_transition_exhausted"

  /** The tables after n attempts; None when one of them answered. */
  function After(db: Db, req: Request, reply: nat -> Reply, mint: nat -> Token, n: nat): Option<Db>
    requires n <= ATTEMPTS
  {
    if n == 0 then Some(db)
    else
      var before := After(db, req, reply, mint, n - 1);
      if before.None? || NthAttempt(before.value, req, reply, mint, n - 1).1.Some? then None
      else Some(NthAttempt(before.value, req, reply, mint, n - 1).0)
  }

  /** Attempt n is reached and answers with this result. */
  predicate AnswersAt(db: Db, req: Request, reply: nat -> Reply, mint: nat -> Token, n: nat, result: (Db, Outcome))
    requires n < ATTEMPTS
  {
    && After(db, req, reply, mint, n).Some?
    && NthAttempt(After(db, req, reply, mint, n).value, req, reply, mint, n) == (result.0, Some(result.1))
  }

  lemma {:induction false} LoopedAfter(db: Db, req: Request, reply: nat -> Reply, mint: nat -> Token, n: nat)
    requires n <= ATTEMPTS && After(db, req, reply, mint, n).Some?
    ensures Looped(db, req, reply, mint, 0) == Looped(After(db, req, reply, mint, n).value, req, reply, mint, n)
  {
    hide NthAttempt, Looped;
    if n > 0 {
      LoopedAfter(db, req, reply, mint, n - 1);
      LoopedStep(After(db, req, reply, mint, n - 1).value, req, reply, mint, n - 1);
    }
  }

  /** The result of the loop is that of the only attempt that answers. */
  lemma AnswerIsResult(db: Db, req: Request, reply: nat -> Reply, mint: nat -> Token, n: nat, result: (Db, Outcome))
    requires n < ATTEMPTS && AnswersAt(db, req, reply, mint, n, result)
    ensures Looped(db, req, reply, mint, 0) == result
  {
    hide NthAttempt, Looped, After;
    LoopedAfter(db, req, reply, mint, n);
    LoopedStep(After(db, req, reply, mint, n).value, req, reply, mint, n);
  }

  /** An attempt that did not answer has an attempt before it that did, or is the first one. */
  lemma {:induction false} SomeAttemptAnswers(db: Db, req: Request, reply: nat -> Reply, mint: nat -> Token, n: nat)
      returns (k: nat)
    requires n <= ATTEMPTS && After(db, req, reply, mint, n).None?
    ensures k < n && AnswersAt(db, req, reply, mint, k, Looped(db, req, reply, mint, 0))
  {
    hide NthAttempt, Looped;
    var before := After(db, req, reply, mint, n - 1);
    if before.None? {
      k := SomeAttemptAnswers(db, req, reply, mint, n - 1);
    } else {
      k := n - 1;
      var (next, stop) := NthAttempt(before.value, req, reply, mint, k);
      AnswerIsResult(db, req, reply, mint, k, (next, stop.value));
    }
  }

  // ---------------------------------------------------------------- rows over an attempt

  /** The row exists, and when `watched` it is not blocked as exhausted. */
  predicate Present(db: Db, key: LocationKey, watched: bool) {
    key in db.rows && (watched ==> db.rows[key].failureClass != Some(EXHAUSTED))
  }

  /** Only the driver itself blocks a row as exhausted. */
  predicate Blameless(ops: seq<Op>) {
    forall i | 0 <= i < |ops| :: ops[i].OnRow? ==> !(ops[i].op.Block? && ops[i].op.failureClass == EXHAUSTED)
  }

  predicate BlamelessReply(reply: Reply) {
    Blameless(reply.env)
  }

  lemma StepPresent(db: Db, op: Op, key: LocationKey, watched: bool)
    requires Present(db, key, watched) && (watched ==> Blameless([op]))
    ensures Present(Step(db, op), key, watched)
  {
    assert watched && op.OnRow? ==> [op][0] == op;
    StepEffect(db, op, key);
    hide Step, HasPending, EnqueuesPending, AcksLast;
  }

  lemma OwnPresent(db: Db, key: LocationKey, op: RowOp, watched: bool)
    requires Present(db, key, watched) && (op.Block? ==> op.failureClass != EXHAUSTED)
    ensures Present(Own(db, key, op), key, watched)
  {
    hide Step;
    StepPresent(db, OnRow(key, op), key, watched);
  }

  lemma {:induction false} OthersPresent(db: Db, ops: seq<Op>, key: LocationKey, locked: bool, watched: bool)
    requires Present(db, key, watched) && (watched ==> Blameless(ops))
    ensures Present(Others(db, ops, key, locked), key, watched)
    decreases |ops|
  {
    hide Step, Present, Admissible, NeedsLock;
    if ops != [] {
      assert watched ==> Blameless([ops[0]]);
      assert watched ==> Blameless(ops[1..]);
      if Admissible(db, ops[0]) && !(locked && NeedsLock(ops[0], key)) {
        StepPresent(db, ops[0], key, watched);
        OthersPresent(Step(db, ops[0]), ops[1..], key, locked, watched);
      } else {
        OthersPresent(db, ops[1..], key, locked, watched);
      }
    }
  }

  lemma CompletedPresent(db: Db, key: LocationKey, proof: Proof, minted: Token, watched: bool)
    requires Present(db, key, watched)
    ensures Present(CompletedWith(db, key, proof, minted).0, key, watched)
  {
    hide Present, Own, Enabled, HasPending;
    var after := RowAt(db, key);
    var claimed := if after.state == Unknown then Own(db, key, RowOp.BeginCheck(minted)) else db;
    OwnPresent(db, key, RowOp.BeginCheck(minted), watched);
    var token := if after.state == Unknown then Some(minted)
        else if after.state == Checking then after.checkToken else None;
    if token.Some? {
      OwnPresent(claimed, key, RowOp.CompleteCheck(token.value, proof), watched);
    }
  }

  lemma RebuiltPresent(db: Db, key: LocationKey, reply: Reply, first: Token, second: Token, watched: bool)
    requires Present(db, key, watched) && (watched ==> BlamelessReply(reply))
    ensures Present(MismatchRebuilt(db, key, reply, first, second), key, watched)
  {
    hide Present, Own, Others, CompletedWith, ClaimedToken;
    var reopened := Own(db, key, Reopen);
    OwnPresent(db, key, Reopen, watched);
    var claimed := Own(reopened, key, RowOp.BeginCheck(first));
    OwnPresent(reopened, key, RowOp.BeginCheck(first), watched);
    var worked := Others(claimed, reply.env, key, true);
    OthersPresent(claimed, reply.env, key, true, watched);
    var completed := CompletedWith(worked, key, reply.proof, second).0;
    CompletedPresent(worked, key, reply.proof, second, watched);
    assert "physical_mismatch_rebuild_failed"[0] != EXHAUSTED[0];
    OwnPresent(worked, key, RowOp.Block(Baseline, "physical_mismatch_rebuild_failed"), watched);
    OwnPresent(completed, key, RowOp.Block(Baseline, "physical_mismatch_rebuild_failed"), watched);
  }

  lemma BootstrappedPresent(db: Db, key: LocationKey, id: string, reply: Reply, watched: bool)
    requires Present(db, key, watched) && (watched ==> BlamelessReply(reply))
    ensures Present(Bootstrapped(db, key, id, reply), key, watched)
  {
    hide Present, Own, Others;
    var begun := Own(db, key, RowOp.BeginBootstrap(id));
    OwnPresent(db, key, RowOp.BeginBootstrap(id), watched);
    var worked := Others(begun, reply.env, key, true);
    OthersPresent(begun, reply.env, key, true, watched);
    assert "bootstrap_failed"[0] != EXHAUSTED[0];
    OwnPresent(worked, key, RowOp.Block(Baseline, "bootstrap_failed"), watched);
    OwnPresent(worked, key, RowOp.CompleteBootstrap(id, reply.proof), watched);
  }

  lemma OtherClass(req: Request, work: Reply, quarantine: Reply)
    requires work.failure.Some?
    ensures FailureClassOf(req, work, quarantine) != EXHAUSTED
  {
    assert "source_missing"[1] != EXHAUSTED[1];
    assert "baseline_failed"[0] != EXHAUSTED[0];
    assert "ledger_degraded_quarantined"[0] != EXHAUSTED[0];
    assert "ledger_quarantine_failed"[0] != EXHAUSTED[0];
  }

  lemma BaselinePresent(db: Db, req: Request, probe: Reply, work: Reply, quarantine: Reply, first: Token, second: Token,
                        watched: bool)
    requires Present(db, req.key, watched)
    requires watched ==> BlamelessReply(probe) && BlamelessReply(work) && BlamelessReply(quarantine)
    ensures Present(BaselineAttempted(db, req, probe, work, quarantine, first, second).0, req.key, watched)
  {
    hide Present, Own, Others, CompletedWith, ClaimedToken, FailureClassOf;
    var key := req.key;
    var probed := Others(db, probe.env, key, true);
    OthersPresent(db, probe.env, key, true, watched);
    OwnPresent(probed, key, BlockMissing, watched);
    var claimed := Own(probed, key, RowOp.BeginCheck(first));
    OwnPresent(probed, key, RowOp.BeginCheck(first), watched);
    var worked := Others(claimed, work.env, key, true);
    OthersPresent(claimed, work.env, key, true, watched);
    CompletedPresent(worked, key, work.proof, second, watched);
    OthersPresent(worked, quarantine.env, key, true, watched);
    if work.failure.Some? {
      OtherClass(req, work, quarantine);
      OwnPresent(worked, key, RowOp.Block(Baseline, FailureClassOf(req, work, quarantine)), watched);
      OwnPresent(Others(worked, quarantine.env, key, true), key,
                 RowOp.Block(Baseline, FailureClassOf(req, work, quarantine)), watched);
    }
  }

  lemma BaselineAnswer(db: Db, req: Request, probe: Reply, work: Reply, quarantine: Reply, first: Token, second: Token)
    ensures var (next, stop) := BaselineAttempted(db, req, probe, work, quarantine, first, second);
            stop.Some? ==> stop.value.Threw? || stop.value == BlockedResult(RowAt(next, req.key))
  {
    hide Own, Others, CompletedWith, ClaimedToken, FailureClassOf;
  }

  /** The blamelessness of the three calls of one attempt. */
  predicate BlamelessTurn(reply: nat -> Reply, n: nat) {
    BlamelessReply(reply(10 + 3 * n)) && BlamelessReply(reply(11 + 3 * n)) && BlamelessReply(reply(12 + 3 * n))
  }

  /** One attempt keeps the row; an answer is the row as it then is, and an attempt without one leaves it not
      blocked. */
  lemma AttemptPresent(db: Db, req: Request, reply: nat -> Reply, mint: nat -> Token, n: nat, watched: bool)
    requires Present(db, req.key, watched) && (watched ==> BlamelessTurn(reply, n))
    ensures var (next, stop) := NthAttempt(db, req, reply, mint, n);
            && Present(next, req.key, watched)
            && (stop.Some? && stop.value.BlockedResult? ==> stop.value.row == RowAt(next, req.key))
            && (stop.Some? && stop.value.ReadyResult? ==> stop.value.row == RowAt(next, req.key) && next == db)
            && (stop.None? ==> RowAt(next, req.key).state != Blocked)
            && (RowAt(db, req.key).state == Ready ==> stop == Some(ReadyResult(RowAt(db, req.key))))
            && (stop.Some? && stop.value.ReadyResult? ==> RowAt(db, req.key).state == Ready)
  {
    hide Present, BlamelessReply, MismatchRebuilt, Bootstrapped, BaselineAttempted;
    var key, current := req.key, RowAt(db, req.key);
    var gate := DecideGate(current);
    var probe, work, quarantine := reply(10 + 3 * n), reply(11 + 3 * n), reply(12 + 3 * n);
    RebuiltPresent(db, key, work, mint(10 + 2 * n), mint(11 + 2 * n), watched);
    BaselinePresent(db, req, probe, work, quarantine, mint(10 + 2 * n), mint(11 + 2 * n), watched);
    BaselineAnswer(db, req, probe, work, quarantine, mint(10 + 2 * n), mint(11 + 2 * n));
    if gate.Ok? && gate.value.BootstrapGate? {
      BootstrappedPresent(db, key, gate.value.bootstrapId, work, watched);
    } else if gate.Ok? && gate.value.ResumeBootstrap? {
      BootstrappedPresent(db, key, gate.value.bootstrapId, work, watched);
    }
  }

  lemma {:induction false} AfterPresent(db: Db, req: Request, reply: nat -> Reply, mint: nat -> Token, n: nat,
                                        watched: bool)
    requires n <= ATTEMPTS && Present(db, req.key, watched) && After(db, req, reply, mint, n).Some?
    requires watched ==> forall i | 0 <= i < n :: BlamelessTurn(reply, i)
    ensures Present(After(db, req, reply, mint, n).value, req.key, watched)
    ensures n > 0 ==> RowAt(After(db, req, reply, mint, n).value, req.key).state != Blocked
  {
    hide Present, BlamelessTurn, NthAttempt;
    if n > 0 {
      AfterPresent(db, req, reply, mint, n - 1, watched);
      AttemptPresent(After(db, req, reply, mint, n - 1).value, req, reply, mint, n - 1, watched);
    }
  }

  // ---------------------------------------------------------------- the end of the loop

  /** What `Exhausted` leaves of a row that is not blocked. */
  lemma ExhaustedRow(db: Db, key: LocationKey)
    requires key in db.rows && db.rows[key].state != Blocked
    ensures key in Exhausted(db, key).rows
    ensures Exhausted(db, key).rows[key]
            == db.rows[key].(state := Blocked, checkToken := None, failureClass := Some(EXHAUSTED),
                             retryScope := Some(if db.rows[key].watermark.Some? then TargetScope else Baseline))
  {
    hide HasPending;
  }

  /** The loop either gives the answer of the one attempt that answers, or, when none of the five does, blocks the row
      as exhausted. */
  lemma LoopEnds(db: Db, req: Request, reply: nat -> Reply, mint: nat -> Token)
    requires req.key in db.rows
    ensures var (end, r) := Looped(db, req, reply, mint, 0);
            var last := After(db, req, reply, mint, ATTEMPTS);
            if last.Some?
            then req.key in last.value.rows && end == Exhausted(last.value, req.key) && req.key in end.rows
                 && r == BlockedResult(end.rows[req.key]) && r.row.state == Blocked
                     && r.row.failureClass == Some(EXHAUSTED)
            else exists n | 0 <= n < ATTEMPTS :: AnswersAt(db, req, reply, mint, n, (end, r))
  {
    hide NthAttempt, Looped, Exhausted, After;
    if After(db, req, reply, mint, ATTEMPTS).Some? {
      var last := After(db, req, reply, mint, ATTEMPTS).value;
      AfterPresent(db, req, reply, mint, ATTEMPTS, false);
      LoopedAfter(db, req, reply, mint, ATTEMPTS);
      LoopedEnd(last, req, reply, mint);
      ExhaustedRow(last, req.key);
    } else {
      var n := SomeAttemptAnswers(db, req, reply, mint, ATTEMPTS);
    }
  }

  /** When nobody but the driver blocks as exhausted, the result says so exactly when none of the five attempts
      answered. */
  lemma ExhaustedIffNoneAnswered(db: Db, req: Request, reply: nat -> Reply, mint: nat -> Token)
    requires Present(db, req.key, true) && forall i | 0 <= i < ATTEMPTS :: BlamelessTurn(reply, i)
    ensures var r := Looped(db, req, reply, mint, 0).1;
            r.BlockedResult? && r.row.failureClass == Some(EXHAUSTED) <==> After(db, req, reply, mint, ATTEMPTS).Some?
  {
    hide NthAttempt, Looped, Exhausted, After, BlamelessTurn;
    LoopEnds(db, req, reply, mint);
    if After(db, req, reply, mint, ATTEMPTS).None? {
      var n := SomeAttemptAnswers(db, req, reply, mint, ATTEMPTS);
      AfterPresent(db, req, reply, mint, n, true);
      AttemptPresent(After(db, req, reply, mint, n).value, req, reply, mint, n, true);
    }
  }

  /** A row that is ready after n attempts is what the loop returns if and only if an attempt is left to look at it. */
  lemma ReadyRowIsReturnedIff(db: Db, req: Request, reply: nat -> Reply, mint: nat -> Token, n: nat)
    requires n <= ATTEMPTS && req.key in db.rows && After(db, req, reply, mint, n).Some?
    requires RowAt(After(db, req, reply, mint, n).value, req.key).state == Ready
    ensures var (end, r) := Looped(db, req, reply, mint, 0);
            var last := After(db, req, reply, mint, n).value;
            && req.key in last.rows
            && (r.ReadyResult? <==> n < ATTEMPTS)
            && (n < ATTEMPTS ==> r == ReadyResult(last.rows[req.key]) && end == last)
            && (n == ATTEMPTS ==> r.BlockedResult? && r.row.state == Blocked && r.row.failureClass == Some(EXHAUSTED))
  {
    hide NthAttempt, Looped, Exhausted, After;
    var now := After(db, req, reply, mint, n).value;
    AfterPresent(db, req, reply, mint, n, false);
    if n < ATTEMPTS {
      AttemptPresent(now, req, reply, mint, n, false);
      var (next, stop) := NthAttempt(now, req, reply, mint, n);
      AnswerIsResult(db, req, reply, mint, n, (next, stop.value));
    } else {
      LoopEnds(db, req, reply, mint);
    }
  }

  // ---------------------------------------------------------------- the whole driver

  /** The tables the loop starts from; None when the driver answers before it. */
  function Entered(db: Db, req: Request, reply: nat -> Reply, mint: nat -> Token): Option<Db> {
    var (owned, refused) := OwnerReconciled(db, req, reply(1));
    if refused.Some? then None
    else
      var (open, blocked) := Unblocked(owned, req, reply(2), mint(0), mint(1));
      if blocked.Some? then None else Some(open)
  }

  /** For the whole driver: a row that is ready after n attempts is returned as ready if and only if n < 5, and after
      the fifth it is blocked instead. */
  lemma DriverReturnsReadyIff(db: Db, req: Request, reply: nat -> Reply, mint: nat -> Token, n: nat)
    requires Entered(db, req, reply, mint).Some? && req.key in Entered(db, req, reply, mint).value.rows
    requires n <= ATTEMPTS && After(Entered(db, req, reply, mint).value, req, reply, mint, n).Some?
    requires RowAt(After(Entered(db, req, reply, mint).value, req, reply, mint, n).value, req.key).state == Ready
    ensures var (end, r) := LifecycleOf(db, req, reply, mint);
            var last := After(Entered(db, req, reply, mint).value, req, reply, mint, n).value;
            && req.key in last.rows
            && (r.ReadyResult? <==> n < ATTEMPTS)
            && (n < ATTEMPTS ==> r == ReadyResult(last.rows[req.key]) && end == last)
            && (n == ATTEMPTS ==> r.BlockedResult? && r.row.state == Blocked && r.row.failureClass == Some(EXHAUSTED))
  {
    hide OwnerReconciled, Unblocked, Looped, After;
    ReadyRowIsReturnedIff(Entered(db, req, reply, mint).value, req, reply, mint, n);
  }

  // ---------------------------------------------------------------- ready in the last attempt

  /** An accepted target arrives while the baseline runs: the check loses its token, the row is dirty, and the loop goes
      on. */
  lemma DisturbedAttempt(db: Db, req: Request, reply: nat -> Reply, mint: nat -> Token, n: nat, t: Target)
    requires req.key in db.rows && (db.rows[req.key].state == Unknown || db.rows[req.key].state == Dirty)
    requires reply(10 + 3 * n).env == [] && reply(10 + 3 * n).failure.None? && reply(10 + 3 * n).present
    requires reply(11 + 3 * n).env == [EnqueueTarget(t)] && reply(11 + 3 * n).failure.None? && t.id.location == req.key
    requires var claimed := Own(db, req.key, RowOp.BeginCheck(mint(10 + 2 * n)));
             Enqueue(claimed, t).Ok? && Enqueue(claimed, t).value.outbox[t.id].status == Pending
    ensures var claimed := Own(db, req.key, RowOp.BeginCheck(mint(10 + 2 * n)));
            NthAttempt(db, req, reply, mint, n) == (Enqueue(claimed, t).value, None)
  {
    hide HasPending, Reconciled, ValidExpectation, DigestOf, Encode;
    var claimed := Own(db, req.key, RowOp.BeginCheck(mint(10 + 2 * n)));
    OneStep(claimed, EnqueueTarget(t), req.key);
    assert Others(db, reply(10 + 3 * n).env, req.key, true) == db;
    assert Others(claimed, reply(11 + 3 * n).env, req.key, true) == Enqueue(claimed, t).value;
    assert RowAt(Enqueue(claimed, t).value, req.key).state == Dirty;
  }

  lemma OneStep(db: Db, op: Op, key: LocationKey)
    requires Admissible(db, op) && !NeedsLock(op, key)
    ensures Others(db, [op], key, true) == Step(db, op)
  {
    hide Step, Admissible, NeedsLock;
    assert Others(Step(db, op), [op][1..], key, true) == Step(db, op);
  }

  const KEY: LocationKey := LocationKey("work", "session", 0)
  const USED: Payload := map["requestId" := Str("r"), "usage" := Obj(map[])]
  const SIDECAR: Payload :=
    map["location" := Obj(map["workDir" := Str("work"), "sessionId" := Str("session"), "createdAt" := Num(0)]),
        "requestUsage" := Obj(USED)]

  /** The History event of a model request, and the target that the application stages for its usage. */
  const HISTORY: map<HistoryKey, Canonical> :=
    map[HistoryKey("event", "session") :=
          Canonical(1, "provider-attempt-result", "t", Obj(map["sessionLedger" := Obj(SIDECAR)]))]
  const USAGE: EventInput := EventInput("request_usage", None, USED)
  const TARGET: Target := Target(TargetId(KEY, "event", "request-usage"), "session", "first", 0, [USAGE],
                                 ["request_usage:r"])
  const UNKNOWN: Row := LegacyRow("first").(owner := 1)
  const STORED: OutboxRow := OutboxRow("session", "first", 1, 0, Encode([USAGE], ["request_usage:r"]), Pending)

  /** Before the first attempt, after each of the first four, and after the fifth. */
  const FIRST: Db := Db(map[KEY := UNKNOWN], map[], HISTORY)
  const MIDDLE: Db := Db(map[KEY := UNKNOWN.(state := Dirty)], map[TARGET.id := STORED], HISTORY)
  const LAST: Db :=
    Db(map[KEY := UNKNOWN.(state := Ready, watermark := Some("w"), ledgerGeneration := 1)],
       map[TARGET.id := STORED.(status := Acked)], HISTORY)

  const WITNESS: Request := Request(KEY, "first", 1, None, Deps(false, false, false, false))
  const SEEN: Expectation := Expectation([USAGE], ["request_usage:r"])

  /** The target is enqueued during each of the first four baselines and acknowledged during the fifth. */
  function WitnessReply(i: nat): Reply {
    var ops := if i == 11 || i == 14 || i == 17 || i == 20 then [EnqueueTarget(TARGET)]
               else if i == 23 then [AckTarget(TARGET.id, SEEN, Some(SEEN))] else [];
    Reply(ops, None, Proof("w", 1), true)
  }

  lemma FirstDisturbed(mint: nat -> Token)
    ensures NthAttempt(FIRST, WITNESS, WitnessReply, mint, 0) == (MIDDLE, None)
  {
    hide NthAttempt, Encode, HasPending;
    var claimed := Own(FIRST, KEY, RowOp.BeginCheck(mint(10)));
    assert claimed.rows == map[KEY := UNKNOWN.(state := Checking, checkToken := Some(mint(10)))];
    assert SEEN.ids[0] != "";
    assert Enqueue(claimed, TARGET).Ok?;
    assert Enqueue(claimed, TARGET).value == MIDDLE;
    DisturbedAttempt(FIRST, WITNESS, WitnessReply, mint, 0, TARGET);
  }

  lemma StoredReconciles()
    ensures Reconciled(STORED, TARGET, HISTORY[HistoryKey("event", "session")]) == Ok(STORED)
  {
  }

  lemma LaterEnqueued(token: Token)
    ensures Enqueue(MIDDLE.(rows := map[KEY := UNKNOWN.(state := Checking, checkToken := Some(token))]), TARGET)
        == Ok(MIDDLE)
  {
    StoredReconciles();
    hide HasPending, Reconciled, Encode, DigestOf;
    var claimed := MIDDLE.(rows := map[KEY := UNKNOWN.(state := Checking, checkToken := Some(token))]);
    assert SEEN.ids[0] != "";
    assert claimed.outbox[TARGET.id := STORED] == MIDDLE.outbox;
    assert SetRow(claimed.rows, KEY, EnqueuedPending, true) == MIDDLE.rows;
  }

  lemma LaterDisturbed(mint: nat -> Token, n: nat)
    requires 1 <= n < 4
    ensures NthAttempt(MIDDLE, WITNESS, WitnessReply, mint, n) == (MIDDLE, None)
  {
    hide NthAttempt, HasPending, Enqueue, Encode;
    var claimed := Own(MIDDLE, KEY, RowOp.BeginCheck(mint(10 + 2 * n)));
    assert claimed.rows == map[KEY := UNKNOWN.(state := Checking, checkToken := Some(mint(10 + 2 * n)))];
    LaterEnqueued(mint(10 + 2 * n));
    DisturbedAttempt(MIDDLE, WITNESS, WitnessReply, mint, n, TARGET);
  }

  lemma SeenCovers()
    ensures Covers(TARGET.id, STORED, SEEN, Some(SEEN))
  {
    assert SEEN.ids[0] != "";
    assert TARGET.id.kind[0] == 'r' && TARGET.id.kind[..10][0] == 'r' && "tool-call:"[0] == 't'
        && "tool-result"[0] == 't' && "invocation-terminal"[0] == 'i';
    assert ProjectionEventMatches(TARGET.id.kind, USAGE, USAGE);
  }

  lemma NothingPendingLast()
    ensures !HasPending(LAST.outbox, KEY) && MIDDLE.outbox[TARGET.id := STORED.(status := Acked)] == LAST.outbox
  {
    hide Encode;
  }

  lemma FifthAcknowledges(claimed: Db)
    requires claimed.outbox == MIDDLE.outbox && KEY in claimed.rows && claimed.rows[KEY].state == Checking
    ensures Others(claimed, [AckTarget(TARGET.id, SEEN, Some(SEEN))], KEY, true) == claimed.(outbox := LAST.outbox)
  {
    SeenCovers();
    NothingPendingLast();
    hide Covers, HasPending, Encode, Enqueue, Updated, Others;
    OneStep(claimed, AckTarget(TARGET.id, SEEN, Some(SEEN)), KEY);
    assert claimed.rows[KEY := claimed.rows[KEY]] == claimed.rows;
  }

  /** A baseline whose check still has its token completes it with the proof, and the loop goes on to look at the
      row. */
  lemma CompletingAttempt(db: Db, req: Request, reply: nat -> Reply, mint: nat -> Token, n: nat, worked: Db,
                          token: Token)
    requires req.key in db.rows && (db.rows[req.key].state == Unknown || db.rows[req.key].state == Dirty)
    requires reply(10 + 3 * n).env == [] && reply(10 + 3 * n).failure.None? && reply(10 + 3 * n).present
    requires reply(11 + 3 * n).failure.None?
    requires Others(Own(db, req.key, RowOp.BeginCheck(mint(10 + 2 * n))), reply(11 + 3 * n).env, req.key, true)
        == worked
    requires RowAt(worked, req.key).state == Checking && RowAt(worked, req.key).checkToken == Some(token)
    ensures var completed := Own(worked, req.key, RowOp.CompleteCheck(token, reply(11 + 3 * n).proof));
            RowAt(completed, req.key).state != Blocked ==> NthAttempt(db, req, reply, mint, n) == (completed, None)
  {
    hide Own, Enabled, HasPending;
    assert Others(db, reply(10 + 3 * n).env, req.key, true) == db;
  }

  lemma FifthCompletes(mint: nat -> Token)
    ensures NthAttempt(MIDDLE, WITNESS, WitnessReply, mint, 4) == (LAST, None)
  {
    hide NthAttempt, HasPending, Encode, Acknowledge, Enqueue;
    var claimed := Own(MIDDLE, KEY, RowOp.BeginCheck(mint(18)));
    assert claimed.rows == map[KEY := UNKNOWN.(state := Checking, checkToken := Some(mint(18)))];
    var acked := claimed.(outbox := LAST.outbox);
    FifthAcknowledges(claimed);
    NothingPendingLast();
    var completed := Own(acked, KEY, RowOp.CompleteCheck(mint(18), Proof("w", 1)));
    assert completed.rows[KEY] == LAST.rows[KEY];
    assert completed == LAST;
    CompletingAttempt(MIDDLE, WITNESS, WitnessReply, mint, 4, acked, mint(18));
  }

  lemma WitnessEnters(mint: nat -> Token)
    ensures Inv(FIRST) && Entered(FIRST, WITNESS, WitnessReply, mint) == Some(FIRST)
  {
  }

  /** The first four baselines each lose their token to an arriving target and the fifth completes: the ledger is ready
      and admissible, nothing is pending, and the driver blocks the row and reports exhaustion. */
  lemma ReadyInTheFifthAttempt(mint: nat -> Token)
    ensures Inv(FIRST) && Entered(FIRST, WITNESS, WitnessReply, mint) == Some(FIRST)
    ensures After(FIRST, WITNESS, WitnessReply, mint, ATTEMPTS) == Some(LAST)
    ensures Admitted(LAST, KEY, "first", 1) && LAST.rows[KEY].state == Ready
    ensures var r := LifecycleOf(FIRST, WITNESS, WitnessReply, mint).1;
            r.BlockedResult? && r.row.state == Blocked && r.row.failureClass == Some(EXHAUSTED)
  {
    WitnessEnters(mint);
    hide NthAttempt, Entered, LifecycleOf, Encode, HasPending;
    FirstDisturbed(mint);
    assert After(FIRST, WITNESS, WitnessReply, mint, 0) == Some(FIRST);
    assert After(FIRST, WITNESS, WitnessReply, mint, 1) == Some(MIDDLE);
    LaterDisturbed(mint, 1);
    assert After(FIRST, WITNESS, WitnessReply, mint, 2) == Some(MIDDLE);
    LaterDisturbed(mint, 2);
    assert After(FIRST, WITNESS, WitnessReply, mint, 3) == Some(MIDDLE);
    LaterDisturbed(mint, 3);
    assert After(FIRST, WITNESS, WitnessReply, mint, 4) == Some(MIDDLE);
    FifthCompletes(mint);
    NothingPendingLast();
    DriverReturnsReadyIff(FIRST, WITNESS, WitnessReply, mint, ATTEMPTS);
  }
}
