/** With which outcome a confirmation is answered, over every run (electron/toolConfirmRegistry.ts). */
module ConfirmOutcomes {
  import opened ConfirmRegistry

  /** The promise of the waiter is resolved, or about to be, with this outcome. */
  predicate Given(s: State, id: nat, outcome: Outcome) {
    (id, outcome) in s.resolved || (id, outcome) in s.immediates
  }

  /** The kinds of step that answer with this outcome. */
  predicate Answers(op: Op, outcome: Outcome) {
    match outcome
    case Approved => op.Submit? && op.approved
    case Rejected => op.Submit? && !op.approved
    case TimedOut => op.Fire? || op.Reserve?
    case Cancelled => op.Cancel? || op.CancelReserved? || op.CheckCommit? || op.CancelMany?
  }

  /** The step names this key. */
  predicate Names(op: Op, key: string) {
    match op
    case Submit(r, t, session, _) => ConfirmKey(r, t, session) == key
    case Cancel(r, t, session) => ConfirmKey(r, t, session) == key
    case Reserve(r, t, session) => ConfirmKey(r, t, session) == key
    case CheckCommit(r, t, session) => ConfirmKey(r, t, session) == key
    case CancelReserved(r, t, session) => ConfirmKey(r, t, session) == key
    case _ => false
  }

  /** When a step other than a bulk cancellation takes the waiter of this key out. */
  predicate Removes(s: State, op: Op, key: string)
    requires key in s.pending
  {
    var w := s.pending[key];
    match op
    case Submit(_, _, _, _) => Names(op, key)
    case Cancel(_, _, _) => Names(op, key)
    case Reserve(_, _, _) => Names(op, key) && w.status == Waiting && w.deadline <= s.now
    case CheckCommit(_, _, _) => Names(op, key) && w.status == Committing && w.deadline <= s.now
    case CancelReserved(_, _, _) => Names(op, key) && w.status == Committing
    case Fire(id) => id == w.timer && w.deadline <= s.now
    case _ => false
  }

  /** Which steps take a waiter out: a response and a cancellation always, a reservation at the deadline, a commit check
      past the deadline and a reserved cancellation when it is reserved, and its own timer from the deadline on. */
  lemma RemovedIff(s: State, op: Op, key: string)
    requires Inv(s) && key in s.pending && !op.CancelMany?
    ensures key !in Step(s, op).pending <==> Removes(s, op, key)
  {
    hide ConfirmKey, SettledOnce;
    if op.Fire? && op.timer in s.timers {
      FireSettlesItsOwner(s, op.timer);
    }
  }

  lemma Appended(a: seq<(nat, Outcome)>, b: seq<(nat, Outcome)>, x: (nat, Outcome))
    ensures x in a + b <==> x in a || x in b
  {
  }

  /** What a step of one waiter adds. */
  lemma AnswersAdded(s: State, op: Op) returns (added: seq<(nat, Outcome)>)
    requires Inv(s) && !op.CancelMany? && !op.RunImmediate?
    ensures forall x | x in added :: Answers(op, x.1)
    ensures Step(s, op).resolved == s.resolved + if op.Submit? then [] else added
    ensures Step(s, op).immediates == s.immediates + if op.Submit? then added else []
  {
    hide ConfirmKey, SettledOnce;
    if op.Fire? && op.timer in s.timers {
      FireSettlesItsOwner(s, op.timer);
    }
    var s' := Step(s, op);
    added := if op.Submit? then s'.immediates[|s.immediates|..] else s'.resolved[|s.resolved|..];
  }

  /** A step keeps every answer, and what it adds is of its kind. */
  lemma StepAnswers(s: State, op: Op, id: nat, outcome: Outcome)
    requires Inv(s)
    ensures Given(s, id, outcome) ==> Given(Step(s, op), id, outcome)
    ensures Given(Step(s, op), id, outcome) ==> Given(s, id, outcome) || Answers(op, outcome)
  {
    hide ConfirmKey, Inv, CancelEach, Register;
    var s' := Step(s, op);
    match op {
      case CancelMany(filter, keys) =>
        CancelEachRemoves(s, filter, keys);
        if (id, outcome) in s'.resolved && (id, outcome) !in s.resolved {
          var i :| 0 <= i < |s'.resolved| && s'.resolved[i] == (id, outcome);
          assert i >= |s.resolved|;
        }
      case RunImmediate =>
        if s.immediates != [] {
          assert s.immediates == [s.immediates[0]] + s.immediates[1..];
          Appended([s.immediates[0]], s.immediates[1..], (id, outcome));
        }
      case _ =>
        var added := AnswersAdded(s, op);
        hide Step;
        Appended(s.resolved, if op.Submit? then [] else added, (id, outcome));
        Appended(s.immediates, if op.Submit? then added else [], (id, outcome));
    }
  }

  lemma GivenIsSettled(s: State, id: nat, outcome: Outcome)
    requires Given(s, id, outcome)
    ensures Settled(s, id)
  {
    if i :| 0 <= i < |s.resolved| && s.resolved[i] == (id, outcome) {
      assert s.resolved[i].0 == id;
    } else {
      var i :| 0 <= i < |s.immediates| && s.immediates[i] == (id, outcome);
      assert s.immediates[i].0 == id;
    }
  }

  lemma SettledIsGiven(s: State, id: nat) returns (outcome: Outcome)
    requires Settled(s, id)
    ensures Given(s, id, outcome)
  {
    if i :| 0 <= i < |s.resolved| && s.resolved[i].0 == id {
      outcome := s.resolved[i].1;
    } else {
      var i :| 0 <= i < |s.immediates| && s.immediates[i].0 == id;
      outcome := s.immediates[i].1;
    }
  }

  /** A promise has one answer. */
  lemma OneAnswer(s: State, id: nat, a: Outcome, b: Outcome)
    requires Inv(s) && Given(s, id, a) && Given(s, id, b)
    ensures a == b
  {
    hide TimersOk, Complete;
  }

  /** The step takes the waiter out of the registry. */
  predicate Leaves(s: State, op: Op, id: nat) {
    exists key | key in s.pending :: s.pending[key].id == id && key !in Step(s, op).pending
  }

  /** A promise gets this answer at a step exactly when the step takes its waiter out and is of the kind that gives
      it. */
  lemma AnsweredIff(s: State, op: Op, id: nat, outcome: Outcome)
    requires Inv(s)
    ensures Given(Step(s, op), id, outcome) <==>
            Given(s, id, outcome) || (Leaves(s, op, id) && Answers(op, outcome))
  {
    hide Step, Inv, Given, Settled;
    var s' := Step(s, op);
    StepKeeps(s, op);
    StepAnswers(s, op, id, outcome);
    if Leaves(s, op, id) && Answers(op, outcome) {
      var key :| key in s.pending && s.pending[key].id == id && key !in s'.pending;
      LeavingIsSettling(s, op, key);
      var given := SettledIsGiven(s', id);
      StepAnswers(s, op, id, given);
      if Given(s, id, given) {
        GivenIsSettled(s, id, given);
        WaitingIsUnsettled(s, key);
      }
    }
    if Given(s', id, outcome) && !Given(s, id, outcome) {
      GivenIsSettled(s', id, outcome);
      if Settled(s, id) {
        var before := SettledIsGiven(s, id);
        StepAnswers(s, op, id, before);
        OneAnswer(s', id, before, outcome);
      }
      var key := NewlySettledWaited(s, op, id);
      LeavingIsSettling(s, op, key);
    }
  }

  lemma WaitingIsUnsettled(s: State, key: string)
    requires Inv(s) && key in s.pending
    ensures !Settled(s, s.pending[key].id)
  {
  }

  lemma NewlySettledWaited(s: State, op: Op, id: nat) returns (key: string)
    requires Inv(s) && Inv(Step(s, op)) && Settled(Step(s, op), id) && !Settled(s, id)
    requires exists outcome :: Answers(op, outcome)
    ensures key in s.pending && s.pending[key].id == id
  {
    SettledBelow(Step(s, op), id);
    AnswersRegisterNobody(s, op);
    hide Step, TimersOk, Unique;
    assert Waits(s, id);
    key :| key in s.pending && s.pending[key].id == id;
  }

  lemma SettledBelow(s: State, id: nat)
    requires Inv(s) && Settled(s, id)
    ensures id < s.nextWaiter
  {
    hide TimersOk, Complete;
  }

  lemma AnswersRegisterNobody(s: State, op: Op)
    requires exists outcome :: Answers(op, outcome)
    ensures Step(s, op).nextWaiter == s.nextWaiter
  {
    hide ConfirmKey, CancelEach;
    if op.CancelMany? {
      CancelEachCounts(s, op.filter, op.keys);
    }
  }

  /** Some step of the run takes the waiter out and gives this answer. */
  predicate AnsweredIn(s: State, ops: seq<Op>, id: nat, outcome: Outcome)
    decreases |ops|
  {
    ops != [] && ((Leaves(s, ops[0], id) && Answers(ops[0], outcome))
                  || AnsweredIn(Step(s, ops[0]), ops[1..], id, outcome))
  }

  /** Over every run a confirmation that was open is answered with an outcome exactly when the step that took its
      waiter out was of the kind of that outcome: approved or rejected by a response, timed out by its timer or by a
      reservation at the deadline, cancelled by a cancellation. */
  lemma {:induction false} AnsweredAlongRuns(s: State, ops: seq<Op>, id: nat, outcome: Outcome)
    requires Inv(s)
    ensures Given(Run(s, ops), id, outcome) <==> Given(s, id, outcome) || AnsweredIn(s, ops, id, outcome)
    decreases |ops|
  {
    hide Step, Inv, Given, Leaves, Answers;
    if ops != [] {
      AnsweredIff(s, ops[0], id, outcome);
      StepKeeps(s, ops[0]);
      AnsweredAlongRuns(Step(s, ops[0]), ops[1..], id, outcome);
    }
  }

  /** A waiter that is approved or rejected was so by a response to its own key. */
  lemma ResponseNamesItsWaiter(s: State, op: Op, key: string)
    requires Inv(s) && key in s.pending && key !in Step(s, op).pending
    requires Answers(op, Approved) || Answers(op, Rejected)
    ensures ConfirmKey(op.requestId, op.toolUseId, op.sessionId) == key
    ensures Given(Step(s, op), s.pending[key].id, if op.approved then Approved else Rejected)
    ensures !Given(Step(s, op), s.pending[key].id, if op.approved then Rejected else Approved)
  {
    RemovedIff(s, op, key);
    hide Step, Inv, ConfirmKey;
    assert Leaves(s, op, s.pending[key].id);
    AnsweredIff(s, op, s.pending[key].id, Approved);
    AnsweredIff(s, op, s.pending[key].id, Rejected);
    StepKeeps(s, op);
    if Given(s, s.pending[key].id, if op.approved then Rejected else Approved) {
      GivenIsSettled(s, s.pending[key].id, if op.approved then Rejected else Approved);
      WaitingIsUnsettled(s, key);
    }
  }
}
