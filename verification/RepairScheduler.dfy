/** The coalescing retry scheduler for ledger repairs (electron/sessionLedgerRepairScheduler.ts). */
module RepairScheduler {
  import opened Json

  type Key = nat

  /** An entry of the pending map; `id` is its identity. */
  datatype Entry = Entry(id: nat, retireSink: bool, attempt: nat, generation: Option<nat>, timer: Option<nat>,
                         running: bool, requestedAgain: bool)

  /** A repair that has been started and has not come back. */
  datatype InFlight = InFlight(key: Key, entry: nat, retireSink: bool)

  datatype Delays = Delays(initial: nat, max: nat)

  datatype State = State(
    pending: map<Key, Entry>,
    inFlight: map<nat, InFlight>,
    stopped: bool,
    nextEntry: nat,
    nextRun: nat)

  datatype Ask = Ask(retireSink: bool, generation: Option<nat>)

  datatype RepairResult = Recovered | Failed | Skipped

  /** `callback` is a request for the same location made by the attempt callback itself. */
  datatype Op =
    | Request(key: Key, ask: Ask)
    | TimerFires(key: Key)
    | RepairReturns(run: nat, result: RepairResult, callback: Option<Ask>)
    | Stop

  function Pow2(n: nat): nat {
    if n == 0 then 1 else 2 * Pow2(n - 1)
  }

  function Min(a: nat, b: nat): nat {
    if a < b then a else b
  }

  /** The delay after the `attempt`-th failure. */
  function Backoff(d: Delays, attempt: nat): nat
    requires attempt > 0
  {
    Min(d.max, d.initial * Pow2(Min(attempt - 1, 30)))
  }

  // ---------------------------------------------------------------- steps

  /** The synchronous part of `run`. */
  function StartRun(s: State, key: Key): State
    requires key in s.pending
  {
    var entry := s.pending[key];
    if s.stopped || entry.running then s
    else s.(pending := s.pending[key := entry.(running := true, retireSink := false)],
            inFlight := s.inFlight[s.nextRun := InFlight(key, entry.id, entry.retireSink)], nextRun := s.nextRun + 1)
  }

  function Merged(entry: Entry, ask: Ask): Entry {
    var newGeneration := ask.generation.Some? && ask.generation != entry.generation;
    entry.(retireSink := entry.retireSink || ask.retireSink,
           requestedAgain := entry.requestedAgain || (entry.running && (ask.retireSink || newGeneration)),
           generation := if newGeneration then ask.generation else entry.generation)
  }

  function Asked(s: State, key: Key, ask: Ask): State {
    if s.stopped then s
    else if key !in s.pending then
      StartRun(s.(pending := s.pending[key := Entry(s.nextEntry, ask.retireSink, 0, ask.generation, None, false,
                                                    false)], nextEntry := s.nextEntry + 1), key)
    else
      var merged := Merged(s.pending[key], ask);
      var kept := s.(pending := s.pending[key := merged]);
      if merged.running || merged.timer.Some? then kept else StartRun(kept, key)
  }

  function CalledBack(s: State, key: Key, callback: Option<Ask>): State {
    if callback.Some? then Asked(s, key, callback.value) else s
  }

  /** `schedule` */
  function Scheduled(s: State, key: Key, delay: nat): State {
    if s.stopped || key !in s.pending || s.pending[key].running || s.pending[key].timer.Some? then s
    else s.(pending := s.pending[key := s.pending[key].(timer := Some(delay))])
  }

  /** The rest of `run`, after the repair has come back. */
  function Returned(s: State, d: Delays, run: nat, result: RepairResult, callback: Option<Ask>): State
    requires run in s.inFlight
  {
    var key := s.inFlight[run].key;
    var back := s.(inFlight := s.inFlight - {run});
    if key !in s.pending || s.pending[key].id != s.inFlight[run].entry then back
    else
      var idle := back.(pending := s.pending[key := s.pending[key].(running := false)]);
      if s.stopped then idle
      else match result
        case Skipped =>
          var called := CalledBack(idle, key, callback);
          called.(pending := called.pending - {key})
        case Recovered =>
          if s.pending[key].requestedAgain
              then StartRun(idle.(pending := idle.pending[key := idle.pending[key].(requestedAgain := false)]), key)
          else
            var called := CalledBack(idle, key, callback);
            called.(pending := called.pending - {key})
        case Failed =>
          var attempt := s.pending[key].attempt + 1;
          var counted :=
              idle.(pending := idle.pending[key := idle.pending[key].(requestedAgain := false, attempt := attempt)]);
          Scheduled(CalledBack(counted, key, callback), key, Backoff(d, attempt))
  }

  predicate Possible(s: State, op: Op) {
    match op
    case TimerFires(key) => key in s.pending && s.pending[key].timer.Some?
    case RepairReturns(run, _, _) => run in s.inFlight
    case _ => true
  }

  function Step(s: State, d: Delays, op: Op): State {
    if !Possible(s, op) then s
    else match op
      case Request(key, ask) => Asked(s, key, ask)
      case TimerFires(key) => StartRun(s.(pending := s.pending[key := s.pending[key].(timer := None)]), key)
      case RepairReturns(run, result, callback) => Returned(s, d, run, result, callback)
      case Stop => if s.stopped then s else s.(stopped := true, pending := map[])
  }

  function Run(s: State, d: Delays, ops: seq<Op>): State
    decreases |ops|
  {
    if ops == [] then s else Run(Step(s, d, ops[0]), d, ops[1..])
  }

  const IDLE: State := State(map[], map[], false, 0, 0)

  // ---------------------------------------------------------------- the invariant

  predicate Repairing(inFlight: map<nat, InFlight>, key: Key, entry: nat) {
    exists run :: run in inFlight && inFlight[run].key == key && inFlight[run].entry == entry
  }

  lemma RepairingKept(before: map<nat, InFlight>, after: map<nat, InFlight>, key: Key, entry: nat)
    requires Repairing(before, key, entry) && forall run | run in before && before[run].key == key ::
        run in after && after[run] == before[run]
    ensures Repairing(after, key, entry)
  {
  }

  /** Every pending location is either running, with exactly one repair in flight, or has exactly one timer. */
  predicate Inv(s: State) {
    && (forall key | key in s.pending ::
          && s.pending[key].running != s.pending[key].timer.Some?
          && s.pending[key].id < s.nextEntry
          && (s.pending[key].requestedAgain ==> s.pending[key].running)
          && (s.pending[key].running ==> Repairing(s.inFlight, key, s.pending[key].id)))
    && (forall run | run in s.inFlight :: run < s.nextRun && s.inFlight[run].entry < s.nextEntry)
    && (forall a, b | a in s.inFlight && b in s.inFlight && s.inFlight[a].key == s.inFlight[b].key :: a == b)
    && (!s.stopped ==> forall run | run in s.inFlight ::
          s.inFlight[run].key in s.pending && s.pending[s.inFlight[run].key].id == s.inFlight[run].entry
              && s.pending[s.inFlight[run].key].running)
    && (s.stopped ==> s.pending == map[])
  }

  /** The attempt callback asks for no repair of the location while its entry is about to be dropped: it is not called
      after a stop or before another run that was asked for, and a failure keeps the entry. */
  predicate Quiet(s: State, op: Op) {
    op.RepairReturns? && op.run in s.inFlight && op.callback.Some? ==>
      s.stopped || op.result == Failed || (op.result == Recovered && Again(s, op.run))
  }

  predicate Again(s: State, run: nat)
    requires run in s.inFlight
  {
    s.inFlight[run].key in s.pending && s.pending[s.inFlight[run].key].requestedAgain
  }

  predicate QuietRun(s: State, d: Delays, ops: seq<Op>)
    decreases |ops|
  {
    ops != [] ==> Quiet(s, ops[0]) && QuietRun(Step(s, d, ops[0]), d, ops[1..])
  }

  lemma StartRepairs(s: State, key: Key, entry: Entry)
    requires Inv(s) && !s.stopped && !entry.running
    ensures var s' := StartRun(s.(pending := s.pending[key := entry]), key);
            forall k | k in s'.pending && s'.pending[k].running :: Repairing(s'.inFlight, k, s'.pending[k].id)
  {
    var s' := StartRun(s.(pending := s.pending[key := entry]), key);
    assert s.nextRun in s'.inFlight && s'.inFlight[s.nextRun] == InFlight(key, entry.id, entry.retireSink);
    forall k | k in s'.pending && s'.pending[k].running
      ensures Repairing(s'.inFlight, k, s'.pending[k].id)
    {
      if k == key {
        assert Repairing(s'.inFlight, key, entry.id);
      } else {
        RepairingKept(s.inFlight, s'.inFlight, k, s.pending[k].id);
      }
    }
  }

  lemma StartKeeps(s: State, key: Key, entry: Entry)
    requires Inv(s) && !s.stopped && (forall run | run in s.inFlight :: s.inFlight[run].key != key)
    requires !entry.running && entry.timer.None? && entry.id < s.nextEntry && !entry.requestedAgain
    ensures Inv(StartRun(s.(pending := s.pending[key := entry]), key))
  {
    StartRepairs(s, key, entry);
    hide Repairing;
  }

  /** A location without a repair in flight. */
  lemma NotRunning(s: State, key: Key)
    requires Inv(s) && !s.stopped && (key in s.pending ==> !s.pending[key].running)
    ensures forall run | run in s.inFlight :: s.inFlight[run].key != key
  {
  }

  lemma AskedKeeps(s: State, key: Key, ask: Ask)
    requires Inv(s)
    ensures Inv(Asked(s, key, ask))
  {
    if !s.stopped {
      if key !in s.pending {
        NotRunning(s, key);
        StartKeeps(s.(nextEntry := s.nextEntry + 1), key,
                   Entry(s.nextEntry, ask.retireSink, 0, ask.generation, None, false, false));
      } else {
        MergedKeeps(s, key, ask);
      }
    }
  }

  lemma MergedKeeps(s: State, key: Key, ask: Ask)
    requires Inv(s) && key in s.pending && !s.stopped
    ensures Inv(s.(pending := s.pending[key := Merged(s.pending[key], ask)]))
    ensures Asked(s, key, ask) == s.(pending := s.pending[key := Merged(s.pending[key], ask)])
  {
    hide Repairing;
  }

  lemma FiresKeeps(s: State, key: Key)
    requires Inv(s) && key in s.pending && s.pending[key].timer.Some?
    ensures Inv(StartRun(s.(pending := s.pending[key := s.pending[key].(timer := None)]), key))
  {
    NotRunning(s, key);
    StartKeeps(s, key, s.pending[key].(timer := None));
  }

  /** The entry goes, or gets a timer. */
  lemma DroppedKeeps(s: State, run: nat)
    requires Inv(s) && !s.stopped && run in s.inFlight
    ensures Inv(s.(inFlight := s.inFlight - {run}, pending := s.pending - {s.inFlight[run].key}))
  {
    var s' := s.(inFlight := s.inFlight - {run}, pending := s.pending - {s.inFlight[run].key});
    forall k | k in s'.pending && s'.pending[k].running
      ensures Repairing(s'.inFlight, k, s'.pending[k].id)
    {
      RepairingKept(s.inFlight, s'.inFlight, k, s.pending[k].id);
    }
    hide Repairing;
  }

  lemma TimedKeeps(s: State, key: Key, entry: Entry)
    requires Inv(s) && !s.stopped && key !in s.pending && (forall run | run in s.inFlight :: s.inFlight[run].key != key)
    requires !entry.running && entry.timer.Some? && !entry.requestedAgain && entry.id < s.nextEntry
    ensures Inv(s.(pending := s.pending[key := entry]))
  {
  }

  lemma StoppedReturnKeeps(s: State, d: Delays, run: nat, result: RepairResult, callback: Option<Ask>)
    requires Inv(s) && run in s.inFlight && s.stopped
    ensures Inv(Returned(s, d, run, result, callback))
  {
  }

  /** The state without the entry and without its repair. */
  function Dropped(s: State, run: nat): State
    requires run in s.inFlight
  {
    s.(inFlight := s.inFlight - {run}, pending := s.pending - {s.inFlight[run].key})
  }

  lemma AgainKeeps(s: State, d: Delays, run: nat, callback: Option<Ask>)
    requires Inv(s) && !s.stopped && run in s.inFlight && s.pending[s.inFlight[run].key].requestedAgain
    ensures Inv(Returned(s, d, run, Recovered, callback))
  {
    var key := s.inFlight[run].key;
    var again := s.pending[key].(running := false, requestedAgain := false);
    DroppedKeeps(s, run);
    assert forall r | r in Dropped(s, run).inFlight :: Dropped(s, run).inFlight[r].key != key;
    StartKeeps(Dropped(s, run), key, again);
    hide Inv;
    var idle := s.pending[key := s.pending[key].(running := false)];
    assert idle[key := idle[key].(requestedAgain := false)] == Dropped(s, run).pending[key := again];
  }

  function Counted(entry: Entry): Entry {
    entry.(running := false, requestedAgain := false, attempt := entry.attempt + 1)
  }

  lemma FailedWithTimer(s: State, d: Delays, run: nat)
    requires run in s.inFlight && !s.stopped
    requires var key := s.inFlight[run].key; key in s.pending && s.pending[key].id == s.inFlight[run].entry
                                             && s.pending[key].timer.None?
    ensures var key := s.inFlight[run].key;
            var entry := Counted(s.pending[key]);
            var dropped := Dropped(s, run);
            Returned(s, d, run, Failed, None)
                == dropped.(pending := dropped.pending[key := entry.(timer := Some(Backoff(d, entry.attempt)))])
  {
  }

  lemma FailedWithRequest(s: State, d: Delays, run: nat, ask: Ask)
    requires run in s.inFlight && !s.stopped
    requires var key := s.inFlight[run].key; key in s.pending && s.pending[key].id == s.inFlight[run].entry
                                             && s.pending[key].timer.None?
    ensures var key := s.inFlight[run].key;
            var dropped := Dropped(s, run);
            Returned(s, d, run, Failed, Some(ask))
                == StartRun(dropped.(pending := dropped.pending[key := Merged(Counted(s.pending[key]), ask)]), key)
  {
    hide Backoff;
  }

  lemma FailedKeeps(s: State, d: Delays, run: nat, callback: Option<Ask>)
    requires Inv(s) && !s.stopped && run in s.inFlight
    ensures Inv(Returned(s, d, run, Failed, callback))
  {
    hide Returned, StartRun;
    var key := s.inFlight[run].key;
    var entry := Counted(s.pending[key]);
    DroppedKeeps(s, run);
    assert forall r | r in Dropped(s, run).inFlight :: Dropped(s, run).inFlight[r].key != key;
    if callback.None? {
      FailedWithTimer(s, d, run);
      TimedKeeps(Dropped(s, run), key, entry.(timer := Some(Backoff(d, entry.attempt))));
    } else {
      FailedWithRequest(s, d, run, callback.value);
      StartKeeps(Dropped(s, run), key, Merged(entry, callback.value));
    }
  }

  lemma ReturnedKeeps(s: State, d: Delays, run: nat, result: RepairResult, callback: Option<Ask>)
    requires Inv(s) && run in s.inFlight && Quiet(s, RepairReturns(run, result, callback))
    ensures Inv(Returned(s, d, run, result, callback))
  {
    if s.stopped {
      StoppedReturnKeeps(s, d, run, result, callback);
    } else if result == Failed {
      FailedKeeps(s, d, run, callback);
    } else if result == Recovered && s.pending[s.inFlight[run].key].requestedAgain {
      AgainKeeps(s, d, run, callback);
    } else {
      DroppedKeeps(s, run);
      var key := s.inFlight[run].key;
      assert s.pending[key := s.pending[key].(running := false)] - {key} == Dropped(s, run).pending;
    }
  }

  lemma StepKeeps(s: State, d: Delays, op: Op)
    requires Inv(s) && Quiet(s, op)
    ensures Inv(Step(s, d, op))
  {
    hide Asked, StartRun, Returned;
    if Possible(s, op) {
      match op {
        case Request(key, ask) => AskedKeeps(s, key, ask);
        case TimerFires(key) => FiresKeeps(s, key);
        case RepairReturns(run, result, callback) => ReturnedKeeps(s, d, run, result, callback);
        case Stop =>
      }
    }
  }

  /** Over all runs: a pending location is running or has one timer, never both, and at most one repair of it is in
      flight. */
  lemma {:induction false} InvAlongRuns(s: State, d: Delays, ops: seq<Op>)
    requires Inv(s) && QuietRun(s, d, ops)
    ensures Inv(Run(s, d, ops))
    decreases |ops|
  {
    hide Step, Inv;
    if ops != [] {
      StepKeeps(s, d, ops[0]);
      InvAlongRuns(Step(s, d, ops[0]), d, ops[1..]);
    }
  }

  // ---------------------------------------------------------------- no lost wake-up

  /** Asks for a retirement or names a new generation. */
  predicate Urgent(entry: Entry, ask: Ask) {
    ask.retireSink || (ask.generation.Some? && ask.generation != entry.generation)
  }

  /** The steps between a request and the return of the repair that was running keep the wish for another run. */
  lemma WishIsKept(s: State, d: Delays, op: Op, key: Key)
    requires Inv(s) && Quiet(s, op) && key in s.pending && s.pending[key].requestedAgain
    requires op != Stop && !(op.RepairReturns? && op.run in s.inFlight && s.inFlight[op.run].key == key)
    ensures key in Step(s, d, op).pending && Step(s, d, op).pending[key].requestedAgain
            && Step(s, d, op).pending[key].id == s.pending[key].id
                && (s.pending[key].retireSink ==> Step(s, d, op).pending[key].retireSink)
  {
  }

  /** A request during a run is recorded when it is urgent. */
  lemma UrgentRequestIsRecorded(s: State, d: Delays, key: Key, ask: Ask)
    requires Inv(s) && key in s.pending && s.pending[key].running
    ensures var s' := Step(s, d, Request(key, ask));
            && key in s'.pending && s'.inFlight == s.inFlight
            && (s'.pending[key].requestedAgain <==> s.pending[key].requestedAgain || Urgent(s.pending[key], ask))
            && (ask.retireSink ==> s'.pending[key].retireSink)
  {
  }

  /** A repair that comes back recovered is followed at once by another run exactly when one was asked for meanwhile,
      and that run carries the retirement asked for; a failed one always leaves a timer, whose firing starts the next
      run. */
  lemma AnotherRunFollows(s: State, d: Delays, run: nat)
    requires Inv(s) && !s.stopped && run in s.inFlight
    ensures var key := s.inFlight[run].key;
            var recovered := Step(s, d, RepairReturns(run, Recovered, None));
            && (key in recovered.pending <==> s.pending[key].requestedAgain)
            && (key in recovered.pending ==>
                  recovered.pending[key].running && recovered.inFlight[s.nextRun]
                      == InFlight(key, s.pending[key].id, s.pending[key].retireSink))
    ensures var key := s.inFlight[run].key;
            var failed := Step(s, d, RepairReturns(run, Failed, None));
            && key in failed.pending && failed.pending[key].attempt == s.pending[key].attempt + 1
            && failed.pending[key].timer == Some(Backoff(d, s.pending[key].attempt + 1))
            && Step(failed, d, TimerFires(key)).inFlight
                == failed.inFlight[s.nextRun := InFlight(key, s.pending[key].id, s.pending[key].retireSink)]
  {
    var key := s.inFlight[run].key;
    var failed := Step(s, d, RepairReturns(run, Failed, None));
    assert failed.pending[key] == s.pending[key].(running := false, requestedAgain := false,
                                                  attempt := s.pending[key].attempt + 1,
                                                   timer := Some(Backoff(d, s.pending[key].attempt + 1)));
  }

  /** The steps of a run neither stop the scheduler nor bring back the repair of the location. */
  predicate StillOut(s: State, d: Delays, ops: seq<Op>, key: Key)
    decreases |ops|
  {
    ops != [] ==>
      && ops[0] != Stop
      && !(ops[0].RepairReturns? && ops[0].run in s.inFlight && s.inFlight[ops[0].run].key == key)
      && StillOut(Step(s, d, ops[0]), d, ops[1..], key)
  }

  lemma {:induction false} WishAlongRuns(s: State, d: Delays, ops: seq<Op>, key: Key)
    requires Inv(s) && QuietRun(s, d, ops) && key in s.pending && s.pending[key].requestedAgain
        && StillOut(s, d, ops, key)
    ensures var s' := Run(s, d, ops);
            && Inv(s') && key in s'.pending && s'.pending[key].requestedAgain && s'.pending[key].id == s.pending[key].id
            && (s.pending[key].retireSink ==> s'.pending[key].retireSink)
    decreases |ops|
  {
    hide Step, Inv;
    if ops != [] {
      WishIsKept(s, d, ops[0], key);
      StepKeeps(s, d, ops[0]);
      WishAlongRuns(Step(s, d, ops[0]), d, ops[1..], key);
    }
  }

  /** An urgent request during a repair, and whatever happens until that repair comes back. */
  predicate AskedDuring(s: State, d: Delays, key: Key, ask: Ask, ops: seq<Op>, run: nat) {
    && key in s.pending && s.pending[key].running && Urgent(s.pending[key], ask)
    && var asked := Step(s, d, Request(key, ask));
    && QuietRun(asked, d, ops) && StillOut(asked, d, ops, key)
    && run in Run(asked, d, ops).inFlight && Run(asked, d, ops).inFlight[run].key == key
  }

  lemma WishArrives(s: State, d: Delays, key: Key, ask: Ask, ops: seq<Op>, run: nat)
    requires Inv(s) && AskedDuring(s, d, key, ask, ops, run)
    ensures var before := Run(Step(s, d, Request(key, ask)), d, ops);
            && Inv(before) && !before.stopped && key in before.pending && before.pending[key].requestedAgain
            && (ask.retireSink ==> before.pending[key].retireSink)
  {
    hide Inv, Run, Asked, StillOut, QuietRun;
    var asked := Step(s, d, Request(key, ask));
    StepKeeps(s, d, Request(key, ask));
    UrgentRequestIsRecorded(s, d, key, ask);
    WishAlongRuns(asked, d, ops, key);
    NotStoppedWhilePending(Run(asked, d, ops), key);
  }

  /** No lost wake-up: after an urgent request during a repair, and whatever else happens until that repair comes back,
      its recovery is followed at once by another run, which retires the sink if the request asked for it. */
  lemma UrgentRequestIsServed(s: State, d: Delays, key: Key, ask: Ask, ops: seq<Op>, run: nat)
    requires Inv(s) && AskedDuring(s, d, key, ask, ops, run)
    ensures var before := Run(Step(s, d, Request(key, ask)), d, ops);
            var after := Step(before, d, RepairReturns(run, Recovered, None));
            && key in after.pending && after.pending[key].running
            && before.nextRun in after.inFlight && after.inFlight[before.nextRun].key == key
            && (ask.retireSink ==> after.inFlight[before.nextRun].retireSink)
  {
    hide Inv, Run, Asked, StillOut, QuietRun;
    WishArrives(s, d, key, ask, ops, run);
    AnotherRunFollows(Run(Step(s, d, Request(key, ask)), d, ops), d, run);
  }

  /** The steps of a run neither stop the scheduler nor let the timer of the location fire. */
  predicate StillWaiting(s: State, d: Delays, ops: seq<Op>, key: Key)
    decreases |ops|
  {
    ops != [] ==> ops[0] != Stop && ops[0] != TimerFires(key) && StillWaiting(Step(s, d, ops[0]), d, ops[1..], key)
  }

  /** A timer stays until it fires, and so does the wish for a retirement. */
  lemma TimerIsKept(s: State, d: Delays, op: Op, key: Key)
    requires Inv(s) && Quiet(s, op) && key in s.pending && s.pending[key].timer.Some? && op != Stop
        && op != TimerFires(key)
    ensures var s' := Step(s, d, op);
            && key in s'.pending && s'.pending[key].timer == s.pending[key].timer
            && (s.pending[key].retireSink ==> s'.pending[key].retireSink)
  {
    hide Backoff;
  }

  lemma {:induction false} TimerAlongRuns(s: State, d: Delays, ops: seq<Op>, key: Key)
    requires Inv(s) && QuietRun(s, d, ops) && StillWaiting(s, d, ops, key) && key in s.pending
        && s.pending[key].timer.Some?
    ensures var s' := Run(s, d, ops);
            && Inv(s') && key in s'.pending && s'.pending[key].timer == s.pending[key].timer
            && (s.pending[key].retireSink ==> s'.pending[key].retireSink)
    decreases |ops|
  {
    hide Step, Inv;
    if ops != [] {
      TimerIsKept(s, d, ops[0], key);
      StepKeeps(s, d, ops[0]);
      TimerAlongRuns(Step(s, d, ops[0]), d, ops[1..], key);
    }
  }

  /** The same when the repair fails: its timer stays whatever happens, and when it fires the next run starts and
      retires the sink if the request asked for it. */
  lemma UrgentRequestSurvivesFailure(s: State, d: Delays, key: Key, ask: Ask, ops: seq<Op>, run: nat, later: seq<Op>)
    requires Inv(s) && AskedDuring(s, d, key, ask, ops, run)
    requires var failed := Step(Run(Step(s, d, Request(key, ask)), d, ops), d, RepairReturns(run, Failed, None));
             QuietRun(failed, d, later) && StillWaiting(failed, d, later, key)
    ensures var failed := Step(Run(Step(s, d, Request(key, ask)), d, ops), d, RepairReturns(run, Failed, None));
            var waiting := Run(failed, d, later);
            var fired := Step(waiting, d, TimerFires(key));
            && key in waiting.pending && waiting.pending[key].timer.Some?
            && key in fired.pending && fired.pending[key].running
            && waiting.nextRun in fired.inFlight && fired.inFlight[waiting.nextRun].key == key
            && (ask.retireSink ==> fired.inFlight[waiting.nextRun].retireSink)
  {
    hide Run, Asked, StillOut, QuietRun, StillWaiting, AskedDuring;
    WishArrives(s, d, key, ask, ops, run);
    var before := Run(Step(s, d, Request(key, ask)), d, ops);
    FailureLeavesTimer(s, d, key, ask, ops, run, before);
    var failed := Step(before, d, RepairReturns(run, Failed, None));
    TimerAlongRuns(failed, d, later, key);
    NotStoppedWhilePending(Run(failed, d, later), key);
  }

  lemma FailureLeavesTimer(s: State, d: Delays, key: Key, ask: Ask, ops: seq<Op>, run: nat, before: State)
    requires AskedDuring(s, d, key, ask, ops, run) && before == Run(Step(s, d, Request(key, ask)), d, ops)
    requires Inv(before) && !before.stopped && key in before.pending
    ensures var failed := Step(before, d, RepairReturns(run, Failed, None));
            && Inv(failed) && key in failed.pending && failed.pending[key].timer.Some?
            && failed.pending[key].retireSink == before.pending[key].retireSink
  {
    hide Run, Asked, StillOut, QuietRun;
    StepKeeps(before, d, RepairReturns(run, Failed, None));
    AnotherRunFollows(before, d, run);
  }

  /** Some step asks for a retirement at the location. */
  predicate AsksToRetire(ops: seq<Op>, key: Key) {
    ops != [] && ((ops[0].Request? && ops[0].key == key && ops[0].ask.retireSink) || AsksToRetire(ops[1..], key))
  }

  /** While a repair is out, its location is to be retired again exactly when a request for that came. */
  lemma FlagWhileOut(s: State, d: Delays, op: Op, key: Key, run: nat)
    requires Inv(s) && Quiet(s, op) && run in s.inFlight && s.inFlight[run].key == key && !s.stopped
    requires op != Stop && !(op.RepairReturns? && op.run in s.inFlight && s.inFlight[op.run].key == key)
    ensures var s' := Step(s, d, op);
            && !s'.stopped && key in s.pending && key in s'.pending
            && run in s'.inFlight && s'.inFlight[run] == s.inFlight[run]
            && (s'.pending[key].retireSink <==> s.pending[key].retireSink || AsksToRetire([op], key))
  {
    hide Repairing, Backoff;
    assert [op][1..] == [];
  }

  lemma {:induction false} FlagAlongRepair(s: State, d: Delays, ops: seq<Op>, key: Key, run: nat)
    requires Inv(s) && QuietRun(s, d, ops) && StillOut(s, d, ops, key)
    requires run in s.inFlight && s.inFlight[run].key == key && !s.stopped
    ensures var s' := Run(s, d, ops);
            && Inv(s') && !s'.stopped && key in s.pending && key in s'.pending
            && run in s'.inFlight && s'.inFlight[run] == s.inFlight[run]
            && (s'.pending[key].retireSink <==> s.pending[key].retireSink || AsksToRetire(ops, key))
    decreases |ops|
  {
    if ops == [] {
      hide Repairing;
    } else {
      hide Step, Inv;
      FlagWhileOut(s, d, ops[0], key, run);
      StepKeeps(s, d, ops[0]);
      assert [ops[0]][1..] == [];
      FlagAlongRepair(Step(s, d, ops[0]), d, ops[1..], key, run);
    }
  }

  lemma FlagWhileWaiting(s: State, d: Delays, op: Op, key: Key)
    requires Inv(s) && Quiet(s, op) && key in s.pending && s.pending[key].timer.Some? && op != Stop
        && op != TimerFires(key)
    ensures var s' := Step(s, d, op);
            && key in s'.pending && s'.pending[key].timer.Some?
            && (s'.pending[key].retireSink <==> s.pending[key].retireSink || AsksToRetire([op], key))
  {
    hide Repairing, Backoff;
    assert [op][1..] == [];
  }

  lemma {:induction false} FlagAlongWait(s: State, d: Delays, ops: seq<Op>, key: Key)
    requires Inv(s) && QuietRun(s, d, ops) && StillWaiting(s, d, ops, key) && key in s.pending
        && s.pending[key].timer.Some?
    ensures var s' := Run(s, d, ops);
            && Inv(s') && key in s'.pending && s'.pending[key].timer.Some?
            && (s'.pending[key].retireSink <==> s.pending[key].retireSink || AsksToRetire(ops, key))
    decreases |ops|
  {
    hide Step, Inv;
    if ops != [] {
      FlagWhileWaiting(s, d, ops[0], key);
      StepKeeps(s, d, ops[0]);
      assert [ops[0]][1..] == [];
      FlagAlongWait(Step(s, d, ops[0]), d, ops[1..], key);
    }
  }

  /** A repair comes back failed after `ops`, and its timer fires after `later`. */
  predicate FailsAndWaits(s: State, d: Delays, key: Key, run: nat, ops: seq<Op>, later: seq<Op>) {
    && run in s.inFlight && s.inFlight[run].key == key && !s.stopped
    && QuietRun(s, d, ops) && StillOut(s, d, ops, key)
    && var failed := Step(Run(s, d, ops), d, RepairReturns(run, Failed, None));
    && QuietRun(failed, d, later) && StillWaiting(failed, d, later, key)
  }

  /** A run takes the retirement off its entry before the repair, so the retry after a failure retires exactly when a
      retirement is still noted or was asked for since; that the failed run was to retire does not count. */
  lemma RetryRetiresIff(s: State, d: Delays, key: Key, run: nat, ops: seq<Op>, later: seq<Op>)
    requires Inv(s) && FailsAndWaits(s, d, key, run, ops, later)
    ensures key in s.pending
    ensures var waiting := Run(Step(Run(s, d, ops), d, RepairReturns(run, Failed, None)), d, later);
            var fired := Step(waiting, d, TimerFires(key));
            && waiting.nextRun in fired.inFlight && fired.inFlight[waiting.nextRun].key == key
            && (fired.inFlight[waiting.nextRun].retireSink
                <==> s.pending[key].retireSink || AsksToRetire(ops, key) || AsksToRetire(later, key))
  {
    FlagAlongRepair(s, d, ops, key, run);
    var before := Run(s, d, ops);
    AnotherRunFollows(before, d, run);
    StepKeeps(before, d, RepairReturns(run, Failed, None));
    var failed := Step(before, d, RepairReturns(run, Failed, None));
    assert failed.pending[key].retireSink == before.pending[key].retireSink;
    hide Run, StillOut, QuietRun, StillWaiting, AsksToRetire;
    FlagAlongWait(failed, d, later, key);
    NotStoppedWhilePending(Run(failed, d, later), key);
  }

  /** A retirement whose repair fails is lost, unless it is asked for again before the retry. */
  lemma FailedRetirementIsLost(s: State, d: Delays, key: Key, generation: Option<nat>, ops: seq<Op>, later: seq<Op>)
    requires Inv(s) && !s.stopped && key !in s.pending
    requires FailsAndWaits(Step(s, d, Request(key, Ask(true, generation))), d, key, s.nextRun, ops, later)
    requires !AsksToRetire(ops, key) && !AsksToRetire(later, key)
    ensures var start := Step(s, d, Request(key, Ask(true, generation)));
            var waiting := Run(Step(Run(start, d, ops), d, RepairReturns(s.nextRun, Failed, None)), d, later);
            var fired := Step(waiting, d, TimerFires(key));
            && s.nextRun in start.inFlight && start.inFlight[s.nextRun].retireSink
            && waiting.nextRun in fired.inFlight && fired.inFlight[waiting.nextRun].key == key
            && !fired.inFlight[waiting.nextRun].retireSink
  {
    hide Run, FailsAndWaits, AsksToRetire;
    StepKeeps(s, d, Request(key, Ask(true, generation)));
    RetryRetiresIff(Step(s, d, Request(key, Ask(true, generation))), d, key, s.nextRun, ops, later);
  }

  /** When the repair is skipped the wish is dropped with the entry: nothing runs and nothing is pending for it. */
  lemma SkippedDropsTheWish(s: State, d: Delays, key: Key, ask: Ask, ops: seq<Op>, run: nat)
    requires Inv(s) && AskedDuring(s, d, key, ask, ops, run)
    ensures var after := Step(Run(Step(s, d, Request(key, ask)), d, ops), d, RepairReturns(run, Skipped, None));
            key !in after.pending && forall r | r in after.inFlight :: after.inFlight[r].key != key
  {
    hide Run, Asked, StillOut, QuietRun;
    WishArrives(s, d, key, ask, ops, run);
    hide Repairing;
  }

  lemma NotStoppedWhilePending(s: State, key: Key)
    requires Inv(s) && key in s.pending
    ensures !s.stopped
  {
  }

  /** A request wakes the location up: afterwards it is running or has a timer, unless the scheduler has stopped. */
  lemma RequestWakes(s: State, d: Delays, key: Key, ask: Ask)
    requires Inv(s) && !s.stopped
    ensures var s' := Step(s, d, Request(key, ask));
            && key in s'.pending && (s'.pending[key].running || s'.pending[key].timer.Some?)
            && (key !in s.pending ==>
                s'.inFlight == s.inFlight[s.nextRun := InFlight(key, s.nextEntry, ask.retireSink)])
  {
  }

  /** A request is kept with everything it asks for: the location retires its sink if any unserved request says so, and
      carries the generation of the latest request that names one. */
  lemma RequestIsKept(s: State, d: Delays, key: Key, ask: Ask)
    requires Inv(s) && !s.stopped
    ensures var s' := Step(s, d, Request(key, ask));
            var before := if key in s.pending then Some(s.pending[key]) else None;
            && key in s'.pending
            && s'.pending[key].generation ==
               (if ask.generation.None? && before.Some? then before.value.generation else ask.generation)
            && (before.Some? ==>
                  && s'.pending[key].id == before.value.id && s'.pending[key].attempt == before.value.attempt
                  && s'.pending[key].timer == before.value.timer
                  && s'.pending[key].retireSink == (before.value.retireSink || ask.retireSink))
            && forall other | other != key ::
                 (other in s'.pending <==> other in s.pending)
                 && (other in s.pending ==> s'.pending[other] == s.pending[other])
  {
  }

  /** A stop drops every location, and afterwards no repair starts any more. */
  lemma StopIsFinal(s: State, d: Delays, ops: seq<Op>)
    requires Inv(s) && QuietRun(Step(s, d, Stop), d, ops)
    ensures var s' := Run(Step(s, d, Stop), d, ops);
            s'.stopped && s'.pending == map[] && s'.nextRun == s.nextRun
  {
    StepKeeps(s, d, Stop);
    NothingStartsAfterStop(Step(s, d, Stop), d, ops);
  }

  /** After a stop no repair starts any more. */
  lemma {:induction false} NothingStartsAfterStop(s: State, d: Delays, ops: seq<Op>)
    requires Inv(s) && s.stopped && QuietRun(s, d, ops)
    ensures Run(s, d, ops).stopped && Run(s, d, ops).pending == map[] && Run(s, d, ops).nextRun == s.nextRun
    decreases |ops|
  {
    if ops != [] {
      StepKeeps(s, d, ops[0]);
      NothingStartsAfterStop(Step(s, d, ops[0]), d, ops[1..]);
    }
  }

  lemma {:induction false} Pow2Grows(a: nat, b: nat)
    requires a <= b
    ensures 0 < Pow2(a) <= Pow2(b)
    decreases b
  {
    if a < b {
      Pow2Grows(a, b - 1);
    } else if a > 0 {
      Pow2Grows(a - 1, b - 1);
    }
  }

  /** The waiting time grows with the number of failures, never passes the maximum, and never falls below the initial
      delay. */
  lemma BackoffIsMonotone(d: Delays, a: nat, b: nat)
    requires 0 < a <= b && d.initial <= d.max
    ensures d.initial <= Backoff(d, a) <= Backoff(d, b) <= d.max
  {
    var x, y := Min(a - 1, 30), Min(b - 1, 30);
    Pow2Grows(x, y);
    hide Pow2;
    ProductGrows(d.initial, 1, Pow2(x));
    ProductGrows(d.initial, Pow2(x), Pow2(y));
  }

  /** The delay starts at the initial one and doubles with every failure until the maximum; from the thirty-first
      failure on it stays. */
  lemma BackoffDoubles(d: Delays, attempt: nat)
    requires attempt > 0
    ensures Backoff(d, 1) == if d.initial < d.max then d.initial else d.max
    ensures attempt <= 30 ==>
        Backoff(d, attempt + 1) == if 2 * Backoff(d, attempt) < d.max then 2 * Backoff(d, attempt) else d.max
    ensures attempt > 30 ==> Backoff(d, attempt + 1) == Backoff(d, attempt)
  {
    assert Pow2(0) == 1;
    if attempt <= 30 {
      assert Pow2(attempt) == 2 * Pow2(attempt - 1);
      DoubleProduct(d.initial, Pow2(attempt - 1));
    }
  }

  lemma DoubleProduct(a: nat, b: nat)
    ensures a * (2 * b) == 2 * (a * b)
  {
  }

  lemma ProductGrows(factor: nat, a: nat, b: nat)
    requires a <= b
    ensures factor * a <= factor * b
  {
  }

  /** A request that the callback makes for a location about to be dropped starts a repair nobody waits for, and the
      next request puts a second one beside it. */
  lemma CallbackRequestIsLost(s: State, d: Delays, run: nat, result: RepairResult, ask: Ask, next: Ask)
    requires Inv(s) && run in s.inFlight && !Quiet(s, RepairReturns(run, result, Some(ask)))
    ensures var key := s.inFlight[run].key;
            var returned := Step(s, d, RepairReturns(run, result, Some(ask)));
            var asked := Step(returned, d, Request(key, next));
            && key !in returned.pending && s.nextRun in returned.inFlight && returned.inFlight[s.nextRun].key == key
            && Step(returned, d, RepairReturns(s.nextRun, Failed, None)).pending == returned.pending
            && s.nextRun in asked.inFlight && s.nextRun + 1 in asked.inFlight
            && asked.inFlight[s.nextRun].key == key && asked.inFlight[s.nextRun + 1].key == key
  {
  }

  /** The condition on the callback is exact: a step keeps the invariant if and only if it meets it. */
  lemma StepKeepsIffQuiet(s: State, d: Delays, op: Op)
    requires Inv(s)
    ensures Inv(Step(s, d, op)) <==> Quiet(s, op)
  {
    hide Step;
    if Quiet(s, op) {
      StepKeeps(s, d, op);
    } else {
      CallbackRequestIsLost(s, d, op.run, op.result, op.callback.value, op.callback.value);
      StaysRunning(s, d, op);
    }
  }

  lemma StaysRunning(s: State, d: Delays, op: Op)
    requires Inv(s) && !Quiet(s, op)
    ensures !Step(s, d, op).stopped
  {
  }

  // ---------------------------------------------------------------- the closure's state

  class Scheduler {
    const delays: Delays
    var pending: map<Key, Entry>
    var inFlight: map<nat, InFlight>
    var stopped: bool
    var nextEntry: nat
    var nextRun: nat

    function Contents(): State
      reads this
    {
      State(pending, inFlight, stopped, nextEntry, nextRun)
    }

    constructor (delays: Delays)
      ensures Contents() == IDLE && Inv(Contents())
    {
      this.delays := delays;
      pending, inFlight, stopped, nextEntry, nextRun := map[], map[], false, 0, 0;
    }

    method StartRepair(key: Key)
      requires key in pending
      modifies this
      ensures Contents() == StartRun(old(Contents()), key)
    {
      var entry := pending[key];
      if stopped || entry.running {
        return;
      }
      inFlight := inFlight[nextRun := InFlight(key, entry.id, entry.retireSink)];
      nextRun := nextRun + 1;
      pending := pending[key := entry.(running := true, retireSink := false)];
    }

    method AskRepair(key: Key, ask: Ask)
      modifies this
      ensures Contents() == Asked(old(Contents()), key, ask)
    {
      hide StartRun;
      if stopped {
        return;
      }
      if key !in pending {
        pending := pending[key := Entry(nextEntry, ask.retireSink, 0, ask.generation, None, false, false)];
        nextEntry := nextEntry + 1;
        StartRepair(key);
        return;
      }
      var entry := pending[key];
      if ask.retireSink {
        entry := entry.(retireSink := true, requestedAgain := entry.requestedAgain || entry.running);
      }
      if ask.generation.Some? && ask.generation != entry.generation {
        entry := entry.(requestedAgain := entry.requestedAgain || entry.running, generation := ask.generation);
      }
      pending := pending[key := entry];
      assert entry == Merged(old(pending)[key], ask);
      if !entry.running && entry.timer.None? {
        StartRepair(key);
      }
    }

    method Schedule(key: Key, delay: nat)
      modifies this
      ensures Contents() == Scheduled(old(Contents()), key, delay)
    {
      if !stopped && key in pending && !pending[key].running && pending[key].timer.None? {
        pending := pending[key := pending[key].(timer := Some(delay))];
      }
    }

    method Request(key: Key, ask: Ask)
      requires Inv(Contents())
      modifies this
      ensures Inv(Contents()) && Contents() == Step(old(Contents()), delays, Op.Request(key, ask))
    {
      StepKeeps(Contents(), delays, Op.Request(key, ask));
      hide Inv, Asked;
      AskRepair(key, ask);
    }

    method TimerFires(key: Key)
      requires Inv(Contents()) && key in pending && pending[key].timer.Some?
      modifies this
      ensures Inv(Contents()) && Contents() == Step(old(Contents()), delays, Op.TimerFires(key))
    {
      StepKeeps(Contents(), delays, Op.TimerFires(key));
      hide Inv, StartRun;
      pending := pending[key := pending[key].(timer := None)];
      StartRepair(key);
    }

    method RepairReturns(run: nat, result: RepairResult, callback: Option<Ask>)
      requires Inv(Contents()) && run in inFlight && Quiet(Contents(), Op.RepairReturns(run, result, callback))
      modifies this
      ensures Inv(Contents()) && Contents() == Step(old(Contents()), delays, Op.RepairReturns(run, result, callback))
    {
      hide Inv, StartRun, Asked, Backoff;
      StepKeeps(Contents(), delays, Op.RepairReturns(run, result, callback));
      Return(run, result, callback);
    }

    /** What `run` does when the repair has come back. */
    method Return(run: nat, result: RepairResult, callback: Option<Ask>)
      requires run in inFlight
      modifies this
      ensures Contents() == Returned(old(Contents()), delays, run, result, callback)
    {
      hide StartRun, Asked, Backoff, Scheduled;
      var key, id := inFlight[run].key, inFlight[run].entry;
      inFlight := inFlight - {run};
      if key !in pending || pending[key].id != id {
        return;
      }
      pending := pending[key := pending[key].(running := false)];
      if stopped {
        return;
      }
      if result == Recovered && pending[key].requestedAgain {
        pending := pending[key := pending[key].(requestedAgain := false)];
        StartRepair(key);
        return;
      }
      if result == Failed {
        var attempt := pending[key].attempt + 1;
        pending := pending[key := pending[key].(requestedAgain := false, attempt := attempt)];
        if callback.Some? {
          AskRepair(key, callback.value);
        }
        Schedule(key, Backoff(delays, attempt));
        return;
      }
      if callback.Some? {
        AskRepair(key, callback.value);
      }
      pending := pending - {key};
    }

    method Stop()
      requires Inv(Contents())
      modifies this
      ensures Inv(Contents()) && Contents() == Step(old(Contents()), delays, Op.Stop)
      ensures stopped && pending == map[]
    {
      StepKeeps(Contents(), delays, Op.Stop);
      if !stopped {
        stopped, pending := true, map[];
      }
    }
  }
}
