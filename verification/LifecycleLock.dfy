/** The re-entrant FIFO lock per ledger location, the commit chain beside it, and ordered multi-lock
    (electron/sessionLedgerLifecycle.ts, electron/sessionEvents.ts). */
module LifecycleLock {
  import opened Json

  /** A location key. Only its order is used; `sort()` orders the hexadecimal digests. */
  type Key = nat

  type Task = nat

  /** A map entry: the turns taken on its promise chain, how many are released, and whether the next one has started. */
  datatype Entry = Entry(key: Key, users: nat, turns: seq<Task>, released: nat, granted: bool)

  /** One turn that a task has: the lock it holds and where it got it. */
  datatype Grip = Grip(key: Key, entry: nat, ticket: nat)

  datatype Wait = OnLock(key: Key, entry: nat, ticket: nat) | OnChain(key: Key, ahead: nat)

  datatype State = State(
    current: map<Key, nat>,
    entries: seq<Entry>,
    held: map<Task, seq<Grip>>,
    waits: map<Task, Wait>,
    /** Jobs of the commit chain of each location, the running one first. */
    chain: map<Key, seq<Task>>,
    // Arrivals and grants at each location, kept only to speak about order.
    requests: map<Key, seq<Task>>,
    grants: map<Key, seq<Task>>)

  datatype Op =
    | Request(task: Task, key: Key)
    | Grant(task: Task)
    | Release(task: Task)
    /** `enqueueCommit` of a commit, a drain or a retirement: by a timer, or by a task that awaits the result. */
    | Submit(job: Task, key: Key, caller: Option<Task>)
    | Flush(task: Task, key: Key)
    | Resume(task: Task)
    | Finish(job: Task, key: Key)

  function At<T>(m: map<Key, seq<T>>, key: Key): seq<T> {
    if key in m then m[key] else []
  }

  function Grips(s: State, task: Task): seq<Grip> {
    if task in s.held then s.held[task] else []
  }

  /** `isSessionLedgerLifecycleLockHeld` in the task's own context. */
  predicate Holds(s: State, task: Task, key: Key) {
    HasKey(Grips(s, task), key)
  }

  predicate HasKey(grips: seq<Grip>, key: Key) {
    exists i | 0 <= i < |grips| :: grips[i].key == key
  }

  /** Runs now: it waits for nothing, and if it is a job of a chain it is the head. */
  predicate Runs(s: State, task: Task) {
    && task !in s.waits
    && (forall key | key in s.chain && task in s.chain[key] :: s.chain[key][0] == task)
  }

  // ---------------------------------------------------------------- steps

  /** The synchronous part of `withSessionLedgerLifecycleLock`, up to the first await. */
  function Turned(s: State, task: Task, key: Key): State
    requires key in s.current ==> s.current[key] < |s.entries|
  {
    var e := if key in s.current then s.current[key] else |s.entries|;
    var entries := if key in s.current then s.entries else s.entries + [Entry(key, 0, [], 0, false)];
    var entry := entries[e];
    s.(current := s.current[key := e],
       entries := entries[e := entry.(users := entry.users + 1, turns := entry.turns + [task])],
       waits := s.waits[task := OnLock(key, e, |entry.turns|)],
       requests := s.requests[key := At(s.requests, key) + [task]])
  }

  /** `await previous` resolves. */
  function Start(s: State, task: Task): State
    requires task in s.waits && s.waits[task].OnLock? && s.waits[task].entry < |s.entries|
  {
    var w := s.waits[task];
    s.(waits := s.waits - {task},
       entries := s.entries[w.entry := s.entries[w.entry].(granted := true)],
       held := s.held[task := Grips(s, task) + [Grip(w.key, w.entry, w.ticket)]],
       grants := s.grants[w.key := At(s.grants, w.key) + [task]])
  }

  /** The finally block: release the turn, drop the entry when nobody uses it any more. */
  function Leave(s: State, task: Task): State
    requires Grips(s, task) != [] && Grips(s, task)[|Grips(s, task)| - 1].entry < |s.entries|
    requires s.entries[Grips(s, task)[|Grips(s, task)| - 1].entry].users > 0
  {
    var n := |Grips(s, task)| - 1;
    var grip := Grips(s, task)[n];
    var entry := s.entries[grip.entry];
    var left := entry.(users := entry.users - 1, released := entry.released + 1, granted := false);
    s.(held := s.held[task := Grips(s, task)[..n]],
       entries := s.entries[grip.entry := left],
       current := if left.users == 0 && grip.key in s.current && s.current[grip.key] == grip.entry
           then s.current - {grip.key} else s.current)
  }

  /** Whether the step can be taken. A waiting turn starts when all earlier turns are released; a flush waits for the
      chain, and a submission is queued and awaited, only when the caller does not hold the lock; a job ends with its
      locks released. */
  predicate Possible(s: State, op: Op) {
    match op
    case Request(task, key) => Runs(s, task) && (key in s.current ==> s.current[key] < |s.entries|)
    case Grant(task) =>
      && task in s.waits && s.waits[task].OnLock? && s.waits[task].entry < |s.entries|
      && s.entries[s.waits[task].entry].released == s.waits[task].ticket
    case Release(task) =>
      && Runs(s, task) && Grips(s, task) != [] && Grips(s, task)[|Grips(s, task)| - 1].entry < |s.entries|
      && s.entries[Grips(s, task)[|Grips(s, task)| - 1].entry].users > 0
    case Submit(job, key, caller) =>
      && job !in s.waits && Grips(s, job) == [] && (forall k | k in s.chain :: job !in s.chain[k])
      && (caller.Some? ==> caller.value != job && Runs(s, caller.value))
    case Flush(task, _) => Runs(s, task)
    case Resume(task) => task in s.waits && s.waits[task].OnChain? && s.waits[task].ahead == 0
    case Finish(job, key) => Runs(s, job) && Grips(s, job) == [] && At(s.chain, key) != [] && At(s.chain, key)[0] == job
  }

  /** A job ends; everybody who waits for that chain waits for one job less. */
  function Advanced(waits: map<Task, Wait>, key: Key): map<Task, Wait> {
    map t | t in waits ::
      if waits[t].OnChain? && waits[t].key == key && waits[t].ahead > 0 then waits[t].(ahead := waits[t].ahead - 1)
          else waits[t]
  }

  /** The job is appended; who awaits it waits for everything in the chain up to and including it. */
  function Submitted(s: State, job: Task, key: Key, caller: Option<Task>): State {
    s.(chain := s.chain[key := At(s.chain, key) + [job]],
       waits := if caller.Some? then s.waits[caller.value := OnChain(key, |At(s.chain, key)| + 1)] else s.waits)
  }

  function Step(s: State, op: Op): State {
    if !Possible(s, op) then s
    else match op
      case Request(task, key) => if Holds(s, task, key) then s else Turned(s, task, key)
      case Grant(task) => Start(s, task)
      case Release(task) => Leave(s, task)
      case Submit(job, key, caller) => if caller.Some? && Holds(s, caller.value, key) then s
          else Submitted(s, job, key, caller)
      case Flush(task, key) =>
        if Holds(s, task, key) then s else s.(waits := s.waits[task := OnChain(key, |At(s.chain, key)|)])
      case Resume(task) => s.(waits := s.waits - {task})
      case Finish(job, key) => s.(chain := s.chain[key := At(s.chain, key)[1..]], waits := Advanced(s.waits, key))
  }

  function Run(s: State, ops: seq<Op>): State
    decreases |ops|
  {
    if ops == [] then s else Run(Step(s, ops[0]), ops[1..])
  }

  /** Asking again for a lock that the task holds, whichever of its acquisitions that was, goes on at once and changes
      nothing; asking for any other waits for a turn behind everybody who asked before. */
  lemma ReentryIff(s: State, task: Task, key: Key)
    requires Possible(s, Request(task, key))
    ensures var s' := Step(s, Request(task, key));
            && ((exists grip :: grip in Grips(s, task) && grip.key == key) ==> s' == s)
            && ((forall grip | grip in Grips(s, task) :: grip.key != key) ==>
                  && task in s'.waits && s'.waits[task].OnLock? && s'.waits[task].key == key
                  && s'.waits[task].entry < |s'.entries|
                  && s'.entries[s'.waits[task].entry].turns[s'.waits[task].ticket..] == [task])
  {
    var grips := Grips(s, task);
    if grip :| grip in grips && grip.key == key {
      var i :| 0 <= i < |grips| && grips[i] == grip;
      assert HasKey(grips, key);
    }
    if forall grip | grip in grips :: grip.key != key {
      assert forall i | 0 <= i < |grips| :: grips[i] in grips;
    }
  }

  const IDLE: State := State(map[], [], map[], map[], map[], map[], map[])

  // ---------------------------------------------------------------- the lock

  ghost predicate EntriesOk(s: State) {
    && (forall e | 0 <= e < |s.entries| ::
          var entry := s.entries[e];
          && entry.released <= |entry.turns| && entry.users == |entry.turns| - entry.released
          && (entry.granted ==> entry.users > 0)
          && (entry.users > 0 ==> entry.key in s.current && s.current[entry.key] == e))
    && (forall key | key in s.current :: s.current[key] < |s.entries| && s.entries[s.current[key]].key == key
                                         && s.entries[s.current[key]].users > 0)
  }

  ghost predicate GripsOk(s: State) {
    && (forall t, i | t in s.held && 0 <= i < |s.held[t]| ::
          var g := s.held[t][i];
          && g.entry < |s.entries| && s.entries[g.entry].key == g.key && s.entries[g.entry].granted
          && g.ticket == s.entries[g.entry].released && g.ticket < |s.entries[g.entry].turns|
              && s.entries[g.entry].turns[g.ticket] == t)
    && (forall t, i, j | t in s.held && 0 <= i < j < |s.held[t]| :: s.held[t][i].key != s.held[t][j].key)
  }

  ghost predicate WaitsOk(s: State) {
    forall t | t in s.waits && s.waits[t].OnLock? ::
      var w := s.waits[t];
      && w.entry < |s.entries| && s.entries[w.entry].key == w.key
      && Next(s.entries[w.entry]) <= w.ticket < |s.entries[w.entry].turns|
      && s.entries[w.entry].turns[w.ticket] == t
  }

  predicate Awaited(s: State, e: nat, n: nat)
    requires e < |s.entries| && n < |s.entries[e].turns|
  {
    s.entries[e].turns[n] in s.waits && s.waits[s.entries[e].turns[n]] == OnLock(s.entries[e].key, e, n)
  }

  predicate Gripped(s: State, e: nat)
    requires e < |s.entries| && s.entries[e].released < |s.entries[e].turns|
  {
    Grip(s.entries[e].key, e, s.entries[e].released) in Grips(s, s.entries[e].turns[s.entries[e].released])
  }

  function Next(entry: Entry): nat {
    entry.released + if entry.granted then 1 else 0
  }

  /** Every turn in use belongs to a task that waits for it or holds it. */
  ghost predicate TurnsOk(s: State) {
    && (forall e, n | 0 <= e < |s.entries| && Next(s.entries[e]) <= n < |s.entries[e].turns| :: Awaited(s, e, n))
    && (forall e | 0 <= e < |s.entries| && s.entries[e].granted ::
        s.entries[e].released < |s.entries[e].turns| && Gripped(s, e))
  }

  /** Those who asked at a location and have not got their turn yet. */
  function Unserved(s: State, key: Key): seq<Task> {
    if key in s.current && s.current[key] < |s.entries| then
      var entry := s.entries[s.current[key]];
      if Next(entry) <= |entry.turns| then entry.turns[Next(entry)..] else []
    else []
  }

  predicate Served(s: State, key: Key) {
    At(s.requests, key) == At(s.grants, key) + Unserved(s, key)
  }

  ghost predicate Fifo(s: State) {
    forall key: Key :: Served(s, key)
  }

  ghost predicate LockInv(s: State) {
    EntriesOk(s) && GripsOk(s) && WaitsOk(s) && TurnsOk(s) && Fifo(s)
  }

  lemma TakeTurnEntries(s: State, task: Task, key: Key)
    requires Possible(s, Request(task, key)) && !Holds(s, task, key) && EntriesOk(s) && GripsOk(s) && WaitsOk(s)
    ensures EntriesOk(Turned(s, task, key))
  {
    hide Runs, Holds, GripsOk, WaitsOk;
  }

  lemma TakeTurnGrips(s: State, task: Task, key: Key)
    requires Possible(s, Request(task, key)) && !Holds(s, task, key) && EntriesOk(s) && GripsOk(s) && WaitsOk(s)
    ensures GripsOk(Turned(s, task, key))
  {
  }

  lemma TakeTurnWaits(s: State, task: Task, key: Key)
    requires Possible(s, Request(task, key)) && !Holds(s, task, key) && EntriesOk(s) && GripsOk(s) && WaitsOk(s)
    ensures WaitsOk(Turned(s, task, key))
  {
  }

  lemma TakeTurnTurns(s: State, task: Task, key: Key)
    requires Possible(s, Request(task, key)) && !Holds(s, task, key) && EntriesOk(s) && TurnsOk(s)
    ensures TurnsOk(Turned(s, task, key))
  {
    var s' := Turned(s, task, key);
    forall e, n | 0 <= e < |s'.entries| && Next(s'.entries[e]) <= n < |s'.entries[e].turns|
      ensures Awaited(s', e, n)
    {
      if e < |s.entries| && n < |s.entries[e].turns| {
        assert Awaited(s, e, n);
      }
    }
    forall e | 0 <= e < |s'.entries| && s'.entries[e].granted
      ensures s'.entries[e].released < |s'.entries[e].turns| && Gripped(s', e)
    {
      assert e < |s.entries| && s.entries[e].granted ==> Gripped(s, e);
    }
  }

  lemma TurnAdded(s: State, task: Task, key: Key)
    requires Possible(s, Request(task, key)) && EntriesOk(s)
    ensures Unserved(Turned(s, task, key), key) == Unserved(s, key) + [task]
  {
    hide Runs;
    if key in s.current {
      var entry := s.entries[s.current[key]];
      assert (entry.turns + [task])[Next(entry)..] == entry.turns[Next(entry)..] + [task];
    } else {
      assert ([] + [task])[0..] == [task];
    }
  }

  lemma TurnElsewhere(s: State, task: Task, key: Key, k: Key)
    requires Possible(s, Request(task, key)) && EntriesOk(s) && k != key
    ensures Unserved(Turned(s, task, key), k) == Unserved(s, k)
  {
    hide Runs;
    var e := if key in s.current then s.current[key] else |s.entries|;
    assert k in s.current ==> s.current[k] != e;
  }

  lemma TakeTurnFifo(s: State, task: Task, key: Key, k: Key)
    requires Possible(s, Request(task, key)) && EntriesOk(s) && Served(s, k)
    ensures Served(Turned(s, task, key), k)
  {
    hide EntriesOk, Unserved, Runs;
    if k == key {
      TurnAdded(s, task, key);
      assert At(s.grants, k) + (Unserved(s, k) + [task]) == (At(s.grants, k) + Unserved(s, k)) + [task];
    } else {
      TurnElsewhere(s, task, key, k);
    }
  }

  lemma TakeTurnKeeps(s: State, task: Task, key: Key)
    requires Possible(s, Request(task, key)) && !Holds(s, task, key) && LockInv(s)
    ensures LockInv(Turned(s, task, key))
  {
    hide EntriesOk, GripsOk, WaitsOk, TurnsOk, Served, Turned;
    TakeTurnEntries(s, task, key);
    TakeTurnGrips(s, task, key);
    TakeTurnWaits(s, task, key);
    TakeTurnTurns(s, task, key);
    forall k: Key
      ensures Served(Turned(s, task, key), k)
    {
      TakeTurnFifo(s, task, key, k);
    }
  }

  lemma StartEntries(s: State, task: Task)
    requires Possible(s, Grant(task)) && EntriesOk(s) && GripsOk(s) && WaitsOk(s)
    ensures EntriesOk(Start(s, task))
  {
  }

  /** Nobody holds the lock that is granted next. */
  lemma NobodyHolds(s: State, task: Task)
    requires Possible(s, Grant(task)) && EntriesOk(s) && GripsOk(s) && WaitsOk(s)
    ensures var w := s.waits[task];
            && !s.entries[w.entry].granted && s.entries[w.entry].key == w.key
            && s.entries[w.entry].released == w.ticket < |s.entries[w.entry].turns|
            && s.entries[w.entry].turns[w.ticket] == task
            && (forall t, i | t in s.held && 0 <= i < |s.held[t]| ::
                  s.held[t][i].entry != w.entry && s.held[t][i].key != w.key)
  {
  }

  lemma StartGrips(s: State, task: Task)
    requires Possible(s, Grant(task)) && EntriesOk(s) && GripsOk(s) && WaitsOk(s)
    ensures GripsOk(Start(s, task))
  {
    NobodyHolds(s, task);
    hide EntriesOk, WaitsOk, Next;
  }

  lemma StartWaits(s: State, task: Task)
    requires Possible(s, Grant(task)) && EntriesOk(s) && GripsOk(s) && WaitsOk(s)
    ensures WaitsOk(Start(s, task))
  {
  }

  lemma StartTurns(s: State, task: Task)
    requires Possible(s, Grant(task)) && EntriesOk(s) && GripsOk(s) && WaitsOk(s) && TurnsOk(s)
    ensures TurnsOk(Start(s, task))
  {
    var s' := Start(s, task);
    forall e, n | 0 <= e < |s'.entries| && Next(s'.entries[e]) <= n < |s'.entries[e].turns|
      ensures Awaited(s', e, n)
    {
      if e < |s.entries| && n < |s.entries[e].turns| {
        assert Awaited(s, e, n);
      }
    }
    forall e | 0 <= e < |s'.entries| && s'.entries[e].granted
      ensures s'.entries[e].released < |s'.entries[e].turns| && Gripped(s', e)
    {
      assert e < |s.entries| && s.entries[e].granted ==> Gripped(s, e);
    }
  }

  lemma TurnServed(s: State, task: Task)
    requires Possible(s, Grant(task)) && EntriesOk(s) && WaitsOk(s)
    ensures Unserved(s, s.waits[task].key) == [task] + Unserved(Start(s, task), s.waits[task].key)
  {
    var w := s.waits[task];
    var entry := s.entries[w.entry];
    assert !entry.granted && s.current[w.key] == w.entry;
    assert entry.turns[w.ticket..] == [entry.turns[w.ticket]] + entry.turns[w.ticket + 1..];
  }

  lemma StartElsewhere(s: State, task: Task, k: Key)
    requires Possible(s, Grant(task)) && EntriesOk(s) && WaitsOk(s) && k != s.waits[task].key
    ensures Unserved(Start(s, task), k) == Unserved(s, k)
  {
    assert k in s.current ==> s.current[k] != s.waits[task].entry;
  }

  lemma StartFifo(s: State, task: Task, k: Key)
    requires Possible(s, Grant(task)) && EntriesOk(s) && WaitsOk(s) && Served(s, k)
    ensures Served(Start(s, task), k)
  {
    hide EntriesOk, WaitsOk, Unserved, Next;
    if k == s.waits[task].key {
      TurnServed(s, task);
      var rest := Unserved(Start(s, task), k);
      assert At(s.grants, k) + ([task] + rest) == (At(s.grants, k) + [task]) + rest;
    } else {
      StartElsewhere(s, task, k);
    }
  }

  lemma StartKeeps(s: State, task: Task)
    requires Possible(s, Grant(task)) && LockInv(s)
    ensures LockInv(Start(s, task))
  {
    hide EntriesOk, GripsOk, WaitsOk, TurnsOk, Served, Start;
    StartEntries(s, task);
    StartGrips(s, task);
    StartWaits(s, task);
    StartTurns(s, task);
    forall k: Key
      ensures Served(Start(s, task), k)
    {
      StartFifo(s, task, k);
    }
  }

  lemma LeaveEntries(s: State, task: Task)
    requires Possible(s, Release(task)) && EntriesOk(s) && GripsOk(s) && WaitsOk(s)
    ensures EntriesOk(Leave(s, task))
  {
  }

  lemma LeaveGrips(s: State, task: Task)
    requires Possible(s, Release(task)) && EntriesOk(s) && GripsOk(s) && WaitsOk(s)
    ensures GripsOk(Leave(s, task))
  {
  }

  lemma LeaveWaits(s: State, task: Task)
    requires Possible(s, Release(task)) && EntriesOk(s) && GripsOk(s) && WaitsOk(s)
    ensures WaitsOk(Leave(s, task))
  {
  }

  lemma LeaveTurns(s: State, task: Task)
    requires Possible(s, Release(task)) && EntriesOk(s) && GripsOk(s) && WaitsOk(s) && TurnsOk(s)
    ensures TurnsOk(Leave(s, task))
  {
    hide EntriesOk, GripsOk, WaitsOk, Runs, Leave, Awaited, Gripped;
    var s' := Leave(s, task);
    LeaveEntryShape(s, task);
    forall e, n | 0 <= e < |s'.entries| && Next(s'.entries[e]) <= n < |s'.entries[e].turns|
      ensures Awaited(s', e, n)
    {
      LeaveAwaited(s, task, e, n);
    }
    forall e | 0 <= e < |s'.entries| && s'.entries[e].granted
      ensures s'.entries[e].released < |s'.entries[e].turns| && Gripped(s', e)
    {
      LeaveGripped(s, task, e);
    }
  }

  /** Leaving keeps the turns of every entry and what comes next in it; only the left entry is no longer granted. */
  lemma LeaveEntryShape(s: State, task: Task)
    requires Possible(s, Release(task)) && GripsOk(s)
    ensures var s' := Leave(s, task);
            var left := Grips(s, task)[|Grips(s, task)| - 1].entry;
            && s'.waits == s.waits && |s'.entries| == |s.entries|
            && (forall e | 0 <= e < |s.entries| ::
                s'.entries[e].turns == s.entries[e].turns && s'.entries[e].key == s.entries[e].key
                                                   && Next(s'.entries[e]) == Next(s.entries[e]))
            && (forall e | 0 <= e < |s.entries| && e != left :: s'.entries[e] == s.entries[e])
            && !s'.entries[left].granted
  {
  }

  lemma LeaveAwaited(s: State, task: Task, e: nat, n: nat)
    requires Possible(s, Release(task)) && GripsOk(s) && TurnsOk(s)
    requires e < |s.entries| && Next(s.entries[e]) <= n < |s.entries[e].turns|
    ensures var s' := Leave(s, task);
            e < |s'.entries| && n < |s'.entries[e].turns| && Awaited(s', e, n)
  {
    hide GripsOk, Runs, Leave;
    LeaveEntryShape(s, task);
    assert Awaited(s, e, n);
  }

  /** A task that leaves keeps every grip but the last. */
  lemma LeaveKeepsGrip(s: State, task: Task, who: Task, grip: Grip)
    requires Possible(s, Release(task)) && grip in Grips(s, who)
    requires grip.entry != Grips(s, task)[|Grips(s, task)| - 1].entry
    ensures grip in Grips(Leave(s, task), who)
  {
    hide Runs;
    var i: nat :| i < |Grips(s, who)| && Grips(s, who)[i] == grip;
    if who == task {
      assert Grips(Leave(s, task), task) == Grips(s, task)[..|Grips(s, task)| - 1];
      assert Grips(Leave(s, task), task)[i] == grip;
    }
  }

  lemma LeaveGripped(s: State, task: Task, e: nat)
    requires Possible(s, Release(task)) && GripsOk(s) && TurnsOk(s)
    requires e < |s.entries| && Leave(s, task).entries[e].granted
    ensures var s' := Leave(s, task);
            e < |s'.entries| && s'.entries[e].released < |s'.entries[e].turns| && Gripped(s', e)
  {
    hide GripsOk, Awaited, Runs, Leave, Grips;
    LeaveEntryShape(s, task);
    assert Gripped(s, e);
    var entry := s.entries[e];
    LeaveKeepsGrip(s, task, entry.turns[entry.released], Grip(entry.key, e, entry.released));
  }

  lemma LeaveFifo(s: State, task: Task, k: Key)
    requires Possible(s, Release(task)) && EntriesOk(s) && GripsOk(s) && Served(s, k)
    ensures Served(Leave(s, task), k)
  {
    var s' := Leave(s, task);
    var grip := Grips(s, task)[|Grips(s, task)| - 1];
    if k == grip.key {
      assert s.current[k] == grip.entry;
      assert Unserved(s', k) == Unserved(s, k);
    } else {
      assert k in s.current ==> s.current[k] != grip.entry;
      assert Unserved(s', k) == Unserved(s, k);
    }
  }

  lemma LeaveKeeps(s: State, task: Task)
    requires Possible(s, Release(task)) && LockInv(s)
    ensures LockInv(Leave(s, task))
  {
    hide EntriesOk, GripsOk, WaitsOk, TurnsOk, Served, Leave;
    LeaveEntries(s, task);
    LeaveGrips(s, task);
    LeaveWaits(s, task);
    LeaveTurns(s, task);
    forall k: Key
      ensures Served(Leave(s, task), k)
    {
      LeaveFifo(s, task, k);
    }
  }

  lemma StepKeepsLock(s: State, op: Op)
    requires LockInv(s)
    ensures LockInv(Step(s, op))
  {
    hide Turned, Start, Leave, EntriesOk, GripsOk, WaitsOk, TurnsOk, Fifo;
    if Possible(s, op) {
      match op {
        case Request(task, key) =>
          if !Holds(s, task, key) {
            TakeTurnKeeps(s, task, key);
          }
        case Grant(task) => StartKeeps(s, task);
        case Release(task) => LeaveKeeps(s, task);
        case _ => SameLock(s, Step(s, op));
      }
    }
  }

  /** The chain does not touch the lock. */
  lemma SameLock(s: State, s': State)
    requires LockInv(s)
    requires s' == s.(waits := s'.waits, chain := s'.chain)
    requires forall t | t in s'.waits && s'.waits[t].OnLock? :: t in s.waits && s.waits[t] == s'.waits[t]
    requires forall t | t in s.waits && s.waits[t].OnLock? :: t in s'.waits && s.waits[t] == s'.waits[t]
    ensures LockInv(s')
  {
    assert EntriesOk(s') && GripsOk(s') && WaitsOk(s');
    forall e, n | 0 <= e < |s'.entries| && Next(s'.entries[e]) <= n < |s'.entries[e].turns|
      ensures Awaited(s', e, n)
    {
      assert Awaited(s, e, n);
    }
    forall e | 0 <= e < |s'.entries| && s'.entries[e].granted
      ensures s'.entries[e].released < |s'.entries[e].turns| && Gripped(s', e)
    {
      assert Gripped(s, e);
    }
    forall k: Key
      ensures Served(s', k)
    {
      assert Served(s, k);
    }
  }

  /** At most one task holds the lock of a location, even while entries are deleted and created again. */
  lemma MutualExclusion(s: State, a: Task, b: Task, key: Key)
    requires LockInv(s) && Holds(s, a, key) && Holds(s, b, key)
    ensures a == b
  {
  }

  /** In every run the locks of a location are granted in exactly the order they were asked for. */
  lemma {:induction false} LockAlongRuns(s: State, ops: seq<Op>)
    requires LockInv(s)
    ensures LockInv(Run(s, ops))
    ensures forall key: Key :: At(Run(s, ops).grants, key) <= At(Run(s, ops).requests, key)
    decreases |ops|
  {
    hide Step, EntriesOk, GripsOk, WaitsOk, TurnsOk;
    if ops == [] {
      forall key: Key
        ensures At(s.grants, key) <= At(s.requests, key)
      {
        assert Served(s, key);
      }
    } else {
      StepKeepsLock(s, ops[0]);
      LockAlongRuns(Step(s, ops[0]), ops[1..]);
    }
  }

  /** Nobody who waits for a commit chain holds the lock of its location. */
  predicate NoHolderWaits(s: State) {
    forall t | t in s.waits && s.waits[t].OnChain? :: !Holds(s, t, s.waits[t].key)
  }

  lemma StepKeepsNoHolderWaits(s: State, op: Op)
    requires NoHolderWaits(s)
    ensures NoHolderWaits(Step(s, op))
  {
    hide HasKey;
    if Possible(s, op) {
      match op
      case Release(task) => PopKeepsOut(s, task);
      case _ =>
    }
  }

  lemma PopKeepsOut(s: State, task: Task)
    requires Possible(s, Release(task))
    ensures forall key: Key | !Holds(s, task, key) :: !Holds(Leave(s, task), task, key)
  {
  }

  /** In every run, whatever the order of requests, no task that holds the lock of a location waits for the commit chain
      of that location, be it by a flush, a commit, a drain or a retirement. */
  lemma {:induction false} HolderNeverWaitsOnItsChain(ops: seq<Op>)
    ensures NoHolderWaits(Run(IDLE, ops))
  {
    NoHolderWaitsAlongRuns(IDLE, ops);
  }

  lemma {:induction false} NoHolderWaitsAlongRuns(s: State, ops: seq<Op>)
    requires NoHolderWaits(s)
    ensures NoHolderWaits(Run(s, ops))
    decreases |ops|
  {
    hide Step, NoHolderWaits;
    if ops != [] {
      StepKeepsNoHolderWaits(s, ops[0]);
      NoHolderWaitsAlongRuns(Step(s, ops[0]), ops[1..]);
    }
  }

  // ---------------------------------------------------------------- progress

  /** A task asks only for locations above all it holds, as `withSessionLedgerLifecycleLocks` does from an empty held
      set, and the jobs of a location's chain start with the lock of that location. */
  predicate Sorted(s: State, op: Op) {
    match op
    case Request(task, key) => Holds(s, task, key)
        || (AllBelow(Grips(s, task), key) && forall k | k in s.chain && task in s.chain[k] :: k <= key)
    case Flush(task, key) => SortedWait(s, task, key)
    case Submit(_, key, caller) => caller.Some? ==> SortedWait(s, caller.value, key)
    case _ => true
  }

  predicate SortedWait(s: State, task: Task, key: Key) {
    Holds(s, task, key) || (AllBelow(Grips(s, task), key) && forall k | k in s.chain && task in s.chain[k] :: k < key)
  }

  predicate AllBelow(grips: seq<Grip>, key: Key) {
    forall i | 0 <= i < |grips| :: grips[i].key < key
  }

  predicate SortedRun(s: State, ops: seq<Op>)
    decreases |ops|
  {
    ops != [] ==> Sorted(s, ops[0]) && SortedRun(Step(s, ops[0]), ops[1..])
  }

  /** What a task waits for lies above what it holds. */
  predicate WaitsAbove(s: State) {
    forall t | t in s.waits :: AllBelow(Grips(s, t), s.waits[t].key)
  }

  /** A job of a chain that is not the head holds and awaits nothing. */
  predicate QueuedIdle(s: State) {
    forall key, n | key in s.chain && 0 < n < |s.chain[key]| ::
      s.chain[key][n] !in s.waits && Grips(s, s.chain[key][n]) == []
  }

  /** A job is queued once. */
  ghost predicate QueuedOnce(s: State) {
    forall key, key', n, n' |
      key in s.chain && key' in s.chain && 0 <= n < |s.chain[key]| && 0 <= n' < |s.chain[key']|
      && s.chain[key][n] == s.chain[key'][n'] :: key == key' && n == n'
  }

  /** Who waits for a chain waits for jobs that are there. */
  predicate AheadThere(s: State) {
    forall t | t in s.waits && s.waits[t].OnChain? :: s.waits[t].ahead <= |At(s.chain, s.waits[t].key)|
  }

  /** A job waits for the lock of its own location or for something above it. */
  predicate JobsAbove(s: State) {
    forall t, key | t in s.waits && key in s.chain && t in s.chain[key] ::
      if s.waits[t].OnLock? then key <= s.waits[t].key else key < s.waits[t].key
  }

  ghost predicate RankInv(s: State) {
    WaitsAbove(s) && QueuedIdle(s) && QueuedOnce(s) && AheadThere(s) && JobsAbove(s)
  }

  lemma RequestKeepsRank(s: State, task: Task, key: Key)
    requires LockInv(s) && RankInv(s) && Sorted(s, Request(task, key)) && Possible(s, Request(task, key))
    ensures RankInv(Step(s, Request(task, key)))
  {
    hide EntriesOk, TurnsOk, Fifo, WaitsOk, GripsOk;
    var s' := Step(s, Request(task, key));
    forall t | t in s'.waits
      ensures AllBelow(Grips(s', t), s'.waits[t].key)
    {
      if t in s.waits {
        assert AllBelow(Grips(s, t), s.waits[t].key);
      }
    }
  }

  lemma GrantKeepsRank(s: State, task: Task)
    requires LockInv(s) && RankInv(s) && Sorted(s, Grant(task)) && Possible(s, Grant(task))
    ensures RankInv(Step(s, Grant(task)))
  {
    hide EntriesOk, TurnsOk, Fifo;
  }

  lemma ReleaseKeepsRank(s: State, task: Task)
    requires LockInv(s) && RankInv(s) && Sorted(s, Release(task)) && Possible(s, Release(task))
    ensures RankInv(Step(s, Release(task)))
  {
    hide EntriesOk, GripsOk, WaitsOk, TurnsOk, Fifo;
  }

  lemma QueueKeepsRank(s: State, job: Task, key: Key)
    requires RankInv(s) && Possible(s, Submit(job, key, None))
    ensures RankInv(Submitted(s, job, key, None))
  {
    hide Runs;
    var s' := Submitted(s, job, key, None);
    assert s'.waits == s.waits && s'.held == s.held;
    assert forall k, n | k in s'.chain && 0 <= n < |s'.chain[k]| ::
        if k == key && n == |At(s.chain, key)| then s'.chain[k][n] == job
        else k in s.chain && n < |s.chain[k]| && s'.chain[k][n] == s.chain[k][n];
  }

  lemma FlushKeepsRank(s: State, task: Task, key: Key)
    requires RankInv(s) && Sorted(s, Flush(task, key)) && Possible(s, Flush(task, key))
    ensures RankInv(Step(s, Flush(task, key)))
  {
    var s' := Step(s, Flush(task, key));
    forall t | t in s'.waits
      ensures AllBelow(Grips(s', t), s'.waits[t].key)
    {
      if t in s.waits {
        assert AllBelow(Grips(s, t), s.waits[t].key);
      }
    }
  }

  /** To submit and await is to submit and then to wait for the chain. */
  lemma SubmitIsQueueAndFlush(s: State, job: Task, key: Key, task: Task)
    requires Possible(s, Submit(job, key, Some(task))) && !Holds(s, task, key)
    ensures var queued := Submitted(s, job, key, None);
            && Possible(queued, Flush(task, key)) && (Sorted(s, Submit(job, key, Some(task))) ==>
                                                      Sorted(queued, Flush(task, key)))
            && Submitted(s, job, key, Some(task)) == Step(queued, Flush(task, key))
  {
    hide HasKey, AllBelow;
    var queued := Submitted(s, job, key, None);
    assert forall k | k in queued.chain && task in queued.chain[k] ::
        k in s.chain && task in s.chain[k] && queued.chain[k][0] == s.chain[k][0];
  }

  lemma SubmitKeepsRank(s: State, job: Task, key: Key, caller: Option<Task>)
    requires RankInv(s) && Sorted(s, Submit(job, key, caller)) && Possible(s, Submit(job, key, caller))
    ensures RankInv(Step(s, Submit(job, key, caller)))
  {
    hide RankInv, Submitted, Sorted, Runs;
    if caller.None? || !Holds(s, caller.value, key) {
      QueueKeepsRank(s, job, key);
      if caller.Some? {
        SubmitIsQueueAndFlush(s, job, key, caller.value);
        FlushKeepsRank(Submitted(s, job, key, None), caller.value, key);
      }
    }
  }

  lemma ResumeKeepsRank(s: State, task: Task)
    requires LockInv(s) && RankInv(s) && Sorted(s, Resume(task)) && Possible(s, Resume(task))
    ensures RankInv(Step(s, Resume(task)))
  {
  }

  /** What a finished job changes: it leaves its chain, and those who wait for the chain wait for one job less. */
  lemma FinishShape(s: State, job: Task, key: Key)
    requires Possible(s, Finish(job, key))
    ensures var s' := Step(s, Finish(job, key));
            && s'.held == s.held && key in s.chain && s.chain[key] != []
                && s'.chain == s.chain[key := s.chain[key][1..]]
            && s'.waits.Keys == s.waits.Keys
            && (forall t | t in s.waits :: s'.waits[t].key == s.waits[t].key
                                           && s'.waits[t].OnLock? == s.waits[t].OnLock?)
            && (forall t | t in s.waits && s.waits[t].OnChain? ::
                  s'.waits[t].ahead == Less(s.waits[t].ahead, s.waits[t].key == key))
  {
    hide Runs, Grips;
  }

  function Less(n: nat, less: bool): nat {
    if less && n > 0 then n - 1 else n
  }

  /** The chain without its first job, and waits that differ only in what they still count. */
  predicate Finished(s: State, s': State, key: Key) {
    && s'.held == s.held && key in s.chain && s.chain[key] != [] && s'.chain == s.chain[key := s.chain[key][1..]]
    && s'.waits.Keys == s.waits.Keys
    && (forall t | t in s.waits :: s'.waits[t].key == s.waits[t].key && s'.waits[t].OnLock? == s.waits[t].OnLock?)
    && (forall t | t in s.waits && s.waits[t].OnChain? ::
          s'.waits[t].ahead == Less(s.waits[t].ahead, s.waits[t].key == key))
  }

  lemma FinishedWaits(s: State, s': State, key: Key)
    requires Finished(s, s', key) && WaitsAbove(s) && AheadThere(s)
    ensures WaitsAbove(s') && AheadThere(s')
  {
    assert forall t :: Grips(s', t) == Grips(s, t);
    hide AllBelow, Grips;
  }

  lemma FinishedJobs(s: State, s': State, key: Key)
    requires Finished(s, s', key) && QueuedIdle(s) && QueuedOnce(s)
    ensures QueuedIdle(s') && QueuedOnce(s')
  {
    assert forall t :: Grips(s', t) == Grips(s, t);
    hide Grips;
    assert forall k, n | k in s'.chain && 0 <= n < |s'.chain[k]| ::
        s'.chain[k][n] == s.chain[k][n + if k == key then 1 else 0];
  }

  lemma FinishedAbove(s: State, s': State, key: Key)
    requires Finished(s, s', key) && JobsAbove(s)
    ensures JobsAbove(s')
  {
    assert forall t, k | k in s'.chain && t in s'.chain[k] :: t in s.chain[k];
  }

  lemma FinishKeepsRank(s: State, job: Task, key: Key)
    requires RankInv(s) && Possible(s, Finish(job, key))
    ensures RankInv(Step(s, Finish(job, key)))
  {
    FinishShape(s, job, key);
    var s' := Step(s, Finish(job, key));
    assert Finished(s, s', key);
    hide Step, Possible, WaitsAbove, QueuedIdle, QueuedOnce, AheadThere, JobsAbove, Finished;
    FinishedWaits(s, s', key);
    FinishedJobs(s, s', key);
    FinishedAbove(s, s', key);
  }

  lemma StepKeepsRank(s: State, op: Op)
    requires LockInv(s) && RankInv(s) && Sorted(s, op)
    ensures RankInv(Step(s, op))
  {
    hide LockInv, RankInv, Sorted;
    if Possible(s, op) {
      match op {
        case Request(task, key) => RequestKeepsRank(s, task, key);
        case Grant(task) => GrantKeepsRank(s, task);
        case Release(task) => ReleaseKeepsRank(s, task);
        case Submit(job, key, caller) => SubmitKeepsRank(s, job, key, caller);
        case Flush(task, key) => FlushKeepsRank(s, task, key);
        case Resume(task) => ResumeKeepsRank(s, task);
        case Finish(job, key) => FinishKeepsRank(s, job, key);
      }
    }
  }

  /** Something can move: a waiting task can go on, or a task that is not waiting holds a lock or heads a chain. */
  ghost predicate CanMove(s: State) {
    exists t: Task ::
      || Possible(s, Grant(t)) || Possible(s, Resume(t))
      || (Runs(s, t) && (Grips(s, t) != [] || exists key | key in s.chain ::
                         s.chain[key] != [] && s.chain[key][0] == t))
  }

  lemma {:induction false} HighestWait(s: State, tasks: set<Task>) returns (top: Task)
    requires tasks <= s.waits.Keys && tasks != {}
    ensures top in tasks && forall t | t in tasks :: s.waits[t].key <= s.waits[top].key
    decreases |tasks|
  {
    var t :| t in tasks;
    if tasks == {t} {
      top := t;
    } else {
      var rest := HighestWait(s, tasks - {t});
      top := if s.waits[t].key <= s.waits[rest].key then rest else t;
    }
  }

  lemma AboveGrips(s: State, task: Task, i: nat)
    requires RankInv(s) && task in s.waits && i < |Grips(s, task)|
    ensures Grips(s, task)[i].key < s.waits[task].key
  {
  }

  lemma LockHolderMoves(s: State, t: Task)
    requires LockInv(s) && RankInv(s) && t in s.waits && s.waits[t].OnLock?
    requires forall u | u in s.waits :: s.waits[u].key <= s.waits[t].key
    ensures CanMove(s)
  {
    var w := s.waits[t];
    var entry := s.entries[w.entry];
    var first := entry.turns[entry.released];
    if entry.granted {
      assert Gripped(s, w.entry);
      var i: nat :| i < |s.held[first]| && s.held[first][i] == Grip(entry.key, w.entry, entry.released);
      assert first !in s.waits by {
        if first in s.waits {
          AboveGrips(s, first, i);
        }
      }
      assert Runs(s, first);
    } else {
      assert Awaited(s, w.entry, entry.released);
      assert Possible(s, Grant(first));
    }
  }

  /** With requests in sorted order no wait is for ever: whenever some task waits, something can move. */
  lemma NoDeadlock(s: State)
    requires LockInv(s) && RankInv(s) && s.waits != map[]
    ensures CanMove(s)
  {
    var any :| any in s.waits;
    var top := HighestWait(s, s.waits.Keys);
    var w := s.waits[top];
    if w.OnLock? {
      LockHolderMoves(s, top);
    } else if w.ahead == 0 {
      assert Possible(s, Resume(top));
    } else {
      var job := s.chain[w.key][0];
      if job !in s.waits {
        assert Runs(s, job);
      } else {
        // The job waits for its own location's lock: nothing above that location is waited for.
        LockHolderMoves(s, job);
      }
    }
  }

  lemma {:induction false} RankAlongRuns(s: State, ops: seq<Op>)
    requires LockInv(s) && RankInv(s) && SortedRun(s, ops)
    ensures LockInv(Run(s, ops)) && RankInv(Run(s, ops))
    decreases |ops|
  {
    hide Step, LockInv, RankInv;
    if ops != [] {
      StepKeepsLock(s, ops[0]);
      StepKeepsRank(s, ops[0]);
      RankAlongRuns(Step(s, ops[0]), ops[1..]);
    }
  }

  /** From an idle start, every interleaving of tasks that ask in sorted order can go on. */
  lemma SortedRunsNeverDeadlock(ops: seq<Op>)
    requires SortedRun(IDLE, ops) && Run(IDLE, ops).waits != map[]
    ensures CanMove(Run(IDLE, ops))
  {
    hide Run, SortedRun;
    assert LockInv(IDLE) && RankInv(IDLE);
    RankAlongRuns(IDLE, ops);
    NoDeadlock(Run(IDLE, ops));
  }

  /** The i-th nested acquisition of `withSessionLedgerLifecycleLocks` over sorted distinct keys asks in sorted
      order. */
  lemma NestedAcquisitionIsSorted(s: State, task: Task, keys: seq<Key>, i: nat)
    requires i < |keys| && (forall a, b | 0 <= a < b < |keys| :: keys[a] < keys[b])
    requires |Grips(s, task)| == i && (forall a | 0 <= a < i :: Grips(s, task)[a].key == keys[a])
    requires forall k | k in s.chain :: task !in s.chain[k]
    ensures Sorted(s, Request(task, keys[i]))
  {
  }

  /** Each of two tasks holds one location. */
  function BothHold(low: Key, high: Key): State {
    State(map[low := 0, high := 1], [Entry(low, 1, [0], 0, true), Entry(high, 1, [1], 0, true)],
          map[0 := [Grip(low, 0, 0)], 1 := [Grip(high, 1, 0)]], map[], map[],
          map[low := [0], high := [1]], map[low := [0], high := [1]])
  }

  lemma ReachBothHold(low: Key, high: Key)
    requires low < high
    ensures Step(Step(Step(Step(IDLE, Request(0, low)), Grant(0)), Request(1, high)), Grant(1)) == BothHold(low, high)
  {
    hide Run;
    var s1 := Step(IDLE, Request(0, low));
    assert s1 == State(map[low := 0], [Entry(low, 1, [0], 0, false)], map[], map[0 := OnLock(low, 0, 0)], map[],
                       map[low := [0]], map[]) by {
      assert s1.entries[0].turns == [0] && s1.requests[low] == [0];
    }
    var s2 := Step(s1, Grant(0));
    assert s2 == State(map[low := 0], [Entry(low, 1, [0], 0, true)], map[0 := [Grip(low, 0, 0)]], map[], map[],
                       map[low := [0]], map[low := [0]]) by {
      assert s2.held[0] == [Grip(low, 0, 0)] && s2.grants[low] == [0];
    }
    var s3 := Step(s2, Request(1, high));
    assert s3.entries == [Entry(low, 1, [0], 0, true), Entry(high, 1, [1], 0, false)]
        && s3.waits == map[1 := OnLock(high, 1, 0)] by {
      assert s3.entries[1].turns == [1];
    }
    assert s3.requests == map[low := [0], high := [1]] by {
      assert s3.requests[high] == [1];
    }
    var s4 := Step(s3, Grant(1));
    assert s4.held == map[0 := [Grip(low, 0, 0)], 1 := [Grip(high, 1, 0)]] by {
      assert s4.held[1] == [Grip(high, 1, 0)];
    }
    assert s4.grants == map[low := [0], high := [1]] by {
      assert s4.grants[high] == [1];
    }
  }

  lemma CrossRequestsBlock(low: Key, high: Key)
    requires low < high
    ensures var s := Step(Step(BothHold(low, high), Request(0, high)), Request(1, low));
            s.waits == map[0 := OnLock(high, 1, 1), 1 := OnLock(low, 0, 1)] && !CanMove(s)
  {
    var s4 := BothHold(low, high);
    assert !Holds(s4, 0, high) && !Holds(s4, 1, low);
    var s5 := Step(s4, Request(0, high));
    assert s5.entries == [Entry(low, 1, [0], 0, true), Entry(high, 2, [1, 0], 0, true)] by {
      assert s5.entries[1].turns == [1, 0];
    }
    assert !Holds(s5, 1, low);
    var s6 := Step(s5, Request(1, low));
    assert s6.entries == [Entry(low, 2, [0, 1], 0, true), Entry(high, 2, [1, 0], 0, true)] by {
      assert s6.entries[0].turns == [0, 1];
    }
    assert s6.chain == map[] && s6.held == s4.held;
  }

  /** Nested writer drains take their locks in file path order, not in key order: two nested acquisitions in opposite
      orders block each other for ever. */
  lemma OppositeOrdersDeadlock(low: Key, high: Key)
    requires low < high
    ensures var s :=
        Run(IDLE, [Request(0, low), Grant(0), Request(1, high), Grant(1), Request(0, high), Request(1, low)]);
            s.waits == map[0 := OnLock(high, 1, 1), 1 := OnLock(low, 0, 1)] && !CanMove(s)
  {
    hide Run, Step, CanMove;
    ReachBothHold(low, high);
    CrossRequestsBlock(low, high);
    RunSix(IDLE, Request(0, low), Grant(0), Request(1, high), Grant(1), Request(0, high), Request(1, low));
  }

  lemma RunStep(s: State, op: Op, rest: seq<Op>)
    ensures Run(s, [op] + rest) == Run(Step(s, op), rest)
  {
  }

  lemma RunSix(s: State, a: Op, b: Op, c: Op, d: Op, e: Op, f: Op)
    ensures Run(s, [a, b, c, d, e, f]) == Step(Step(Step(Step(Step(Step(s, a), b), c), d), e), f)
  {
    hide Step;
    assert [a, b, c, d, e, f] == [a] + ([b] + ([c] + ([d] + ([e] + ([f] + [])))));
    RunStep(s, a, [b] + ([c] + ([d] + ([e] + ([f] + [])))));
    var s1 := Step(s, a);
    RunStep(s1, b, [c] + ([d] + ([e] + ([f] + []))));
    RunStep(Step(s1, b), c, [d] + ([e] + ([f] + [])));
    var s3 := Step(Step(s1, b), c);
    RunStep(s3, d, [e] + ([f] + []));
    RunStep(Step(s3, d), e, [f] + []);
    RunStep(Step(Step(s3, d), e), f, []);
  }

  // ---------------------------------------------------------------- the table

  /** The module's map of lock entries together with the contexts of the tasks. */
  class LockTable {
    var current: map<Key, nat>
    var entries: seq<Entry>
    var held: map<Task, seq<Grip>>
    var waits: map<Task, Wait>
    var chain: map<Key, seq<Task>>
    ghost var requests: map<Key, seq<Task>>
    ghost var grants: map<Key, seq<Task>>

    ghost function Contents(): State
      reads this
    {
      State(current, entries, held, waits, chain, requests, grants)
    }

    constructor ()
      ensures Contents() == IDLE && LockInv(Contents())
    {
      current, entries, held, waits, chain := map[], [], map[], map[], map[];
      requests, grants := map[], map[];
    }

    /** `withSessionLedgerLifecycleLock` up to its await: true when the caller already holds the lock. */
    method Enter(task: Task, key: Key) returns (reentered: bool)
      requires LockInv(Contents()) && Possible(Contents(), Request(task, key))
      modifies this
      ensures LockInv(Contents()) && Contents() == Step(old(Contents()), Request(task, key))
      ensures reentered <==> Holds(old(Contents()), task, key)
    {
      hide LockInv, Runs;
      StepKeepsLock(Contents(), Request(task, key));
      reentered := HasKey(if task in held then held[task] else [], key);
      if !reentered {
        TakeTurn(task, key);
      }
    }

    method TakeTurn(task: Task, key: Key)
      requires key in current ==> current[key] < |entries|
      modifies this
      ensures Contents() == Turned(old(Contents()), task, key)
    {
      if key !in current {
        entries := entries + [Entry(key, 0, [], 0, false)];
        current := current[key := |entries| - 1];
      }
      var e := current[key];
      assert current == old(current)[key := e];
      var entry := entries[e];
      waits := waits[task := OnLock(key, e, |entry.turns|)];
      entries := entries[e := entry.(users := entry.users + 1, turns := entry.turns + [task])];
      requests := requests[key := At(requests, key) + [task]];
    }

    method Start(task: Task)
      requires LockInv(Contents()) && Possible(Contents(), Grant(task))
      modifies this
      ensures LockInv(Contents()) && Contents() == Step(old(Contents()), Grant(task))
    {
      hide LockInv;
      StepKeepsLock(Contents(), Grant(task));
      var w := waits[task];
      waits := waits - {task};
      entries := entries[w.entry := entries[w.entry].(granted := true)];
      held := held[task := (if task in held then held[task] else []) + [Grip(w.key, w.entry, w.ticket)]];
      grants := grants[w.key := At(grants, w.key) + [task]];
    }

    method Leave(task: Task)
      requires LockInv(Contents()) && Possible(Contents(), Release(task))
      modifies this
      ensures LockInv(Contents()) && Contents() == Step(old(Contents()), Release(task))
    {
      hide LockInv;
      StepKeepsLock(Contents(), Release(task));
      var mine := held[task];
      var grip := mine[|mine| - 1];
      held := held[task := mine[..|mine| - 1]];
      var entry := entries[grip.entry];
      entries := entries[grip.entry := entry.(users := entry.users - 1, released := entry.released + 1,
                                              granted := false)];
      if entry.users == 1 && grip.key in current && current[grip.key] == grip.entry {
        current := current - {grip.key};
      }
    }
  }
}
