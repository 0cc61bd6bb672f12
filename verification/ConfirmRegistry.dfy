/** The registry of tool confirmations that wait for an answer (electron/toolConfirmRegistry.ts). */
module ConfirmRegistry {
  import opened Json

  datatype Status = Waiting | Committing

  datatype Outcome = Approved | Rejected | TimedOut | Cancelled

  /** A waiter object; `id` is its identity. */
  datatype Waiter = Waiter(
    id: nat,
    requestId: string,
    toolUseId: string,
    sessionId: Option<string>,
    toolName: Option<string>,
    lane: Option<string>,
    timer: nat,
    deadline: int,
    generation: int,
    revision: int,
    status: Status)

  /** Which of the three callbacks a timer has: armed at registration, by a reservation, or by a restore. */
  datatype Callback = First | Reserved | Restored

  /** An armed timer with what its callback remembers: the key, and the waiter that armed it. */
  datatype Timer = Timer(callback: Callback, key: string, owner: nat, at: int)

  /** `immediates` are resolutions put off to the next turn of the event loop; `resolved` the promises resolved so
      far. */
  datatype State = State(
    pending: map<string, Waiter>,
    timers: map<nat, Timer>,
    immediates: seq<(nat, Outcome)>,
    resolved: seq<(nat, Outcome)>,
    nextWaiter: nat,
    nextTimer: nat,
    nextGeneration: int,
    now: int)

  datatype Scope = Scope(toolName: string, lane: string, sessionId: Option<string>, generation: Option<int>,
                         revision: Option<int>)

  datatype Filter = ForTool(lane: string, toolName: string) | ForRequest(requestId: string) | Everything

  datatype Op =
    | Wait(requestId: string, toolUseId: string, scope: Option<Scope>, timeout: nat)
    | Submit(requestId: string, toolUseId: string, sessionId: Option<string>, approved: bool)
    | Cancel(requestId: string, toolUseId: string, sessionId: Option<string>)
    | Reserve(requestId: string, toolUseId: string, sessionId: Option<string>)
    | CheckCommit(requestId: string, toolUseId: string, sessionId: Option<string>)
    | CancelReserved(requestId: string, toolUseId: string, sessionId: Option<string>)
    | Restore(requestId: string, toolUseId: string, sessionId: Option<string>)
    | CancelMany(filter: Filter, keys: seq<string>)
    | Fire(timer: nat)
    | RunImmediate
    | Tick(later: nat)

  const NUL: char := '\0'

  function ConfirmKey(requestId: string, toolUseId: string, sessionId: Option<string>): string {
    if sessionId.None? then requestId + [NUL] + toolUseId else requestId + [NUL] + toolUseId + [NUL] + sessionId.value
  }

  /** The key a waiter's own fields spell. */
  function OwnKey(w: Waiter): string {
    ConfirmKey(w.requestId, w.toolUseId, w.sessionId)
  }

  // ---------------------------------------------------------------- steps

  /** Takes a waiter out: its timer is cleared, its promise resolved. */
  function Settle(s: State, key: string, outcome: Outcome): State
    requires key in s.pending
  {
    s.(pending := s.pending - {key}, timers := s.timers - {s.pending[key].timer},
       resolved := s.resolved + [(s.pending[key].id, outcome)])
  }

  function SettleReserved(s: State, key: string, outcome: Outcome): State {
    if key in s.pending && s.pending[key].status == Committing then Settle(s, key, outcome) else s
  }

  function Register(s: State, key: string, requestId: string, toolUseId: string, scope: Option<Scope>,
                    timeout: nat): State {
    var generation := if scope.Some? && scope.value.generation.Some? then scope.value.generation.value
        else s.nextGeneration + 1;
    var drawn := !(scope.Some? && scope.value.generation.Some?);
    var session := if scope.Some? && scope.value.sessionId.Some? && scope.value.sessionId.value != ""
        then scope.value.sessionId else None;
    var waiter := Waiter(s.nextWaiter, requestId, toolUseId, session,
                         if scope.Some? then Some(scope.value.toolName) else None,
                         if scope.Some? then Some(scope.value.lane) else None,
                         s.nextTimer, s.now + timeout, generation,
                         if scope.Some? && scope.value.revision.Some? then scope.value.revision.value else 1, Waiting);
    s.(pending := s.pending[key := waiter],
       timers := s.timers[s.nextTimer := Timer(First, key, s.nextWaiter, s.now + timeout)],
       nextWaiter := s.nextWaiter + 1, nextTimer := s.nextTimer + 1,
       nextGeneration := if drawn then s.nextGeneration + 1 else s.nextGeneration)
  }

  /** The waiter's timer is replaced by one for the time that is left. */
  function Rearm(s: State, key: string, waiter: Waiter): State
    requires key in s.pending
  {
    s.(pending := s.pending[key := waiter.(timer := s.nextTimer)],
       timers := (s.timers - {s.pending[key].timer})[
                   s.nextTimer := Timer(if waiter.status == Committing then Reserved else Restored,
                                        key, waiter.id, waiter.deadline)],
       nextTimer := s.nextTimer + 1)
  }

  function ReserveAt(s: State, key: string): State {
    if key !in s.pending || s.pending[key].status == Committing then s
    else if s.pending[key].deadline <= s.now then Settle(s, key, TimedOut)
    else Rearm(s, key, s.pending[key].(status := Committing))
  }

  function RestoreAt(s: State, key: string): State {
    if key !in s.pending || s.pending[key].status != Committing || s.now >= s.pending[key].deadline then s
    else Rearm(s, key, s.pending[key].(status := Waiting, revision := s.pending[key].revision + 1))
  }

  function CancelAt(s: State, key: string): State {
    if key !in s.pending then s else Settle(s, key, Cancelled)
  }

  function SubmitAt(s: State, key: string, approved: bool): State {
    if key !in s.pending then s
    else s.(pending := s.pending - {key}, timers := s.timers - {s.pending[key].timer},
            immediates := s.immediates + [(s.pending[key].id, if approved then Approved else Rejected)])
  }

  predicate Selected(filter: Filter, key: string, w: Waiter) {
    match filter
    case ForTool(lane, toolName) => w.lane == Some(lane) && w.toolName == Some(toolName)
    case ForRequest(requestId) => requestId + [NUL] <= key
    case Everything => true
  }

  /** One turn of the bulk loops: a committing waiter is cancelled through the key its own fields spell. */
  function CancelOne(s: State, filter: Filter, key: string): State {
    if key !in s.pending || !Selected(filter, key, s.pending[key]) then s
    else if s.pending[key].status == Committing then SettleReserved(s, OwnKey(s.pending[key]), Cancelled)
    else Settle(s, key, Cancelled)
  }

  /** The loop over the map in insertion order, `keys`; entries deleted on the way are not visited. */
  function CancelEach(s: State, filter: Filter, keys: seq<string>): State
    decreases |keys|
  {
    if keys == [] then s else CancelEach(CancelOne(s, filter, keys[0]), filter, keys[1..])
  }

  /** The first callback leaves a committing waiter to the reservation's way of expiring; a restored one deletes the key
      and resolves its own waiter without looking. */
  function FireTimer(s: State, id: nat): State
    requires id in s.timers
  {
    var timer := s.timers[id];
    var fired := s.(timers := s.timers - {id});
    var committing := timer.key in s.pending && s.pending[timer.key].status == Committing;
    if timer.callback == Reserved || (timer.callback == First && committing)
        then SettleReserved(fired, timer.key, TimedOut)
    else fired.(pending := s.pending - {timer.key}, resolved := s.resolved + [(timer.owner, TimedOut)])
  }

  predicate Possible(s: State, op: Op) {
    match op
    case Fire(id) => id in s.timers && s.timers[id].at <= s.now
    case RunImmediate => s.immediates != []
    case _ => true
  }

  function Step(s: State, op: Op): State {
    if !Possible(s, op) then s
    else match op
      case Wait(r, t, scope, timeout) =>
        var key := ConfirmKey(r, t, if scope.Some? then scope.value.sessionId else None);
        if key in s.pending then s else Register(s, key, r, t, scope, timeout)
      case Submit(r, t, session, approved) => SubmitAt(s, ConfirmKey(r, t, session), approved)
      case Cancel(r, t, session) => CancelAt(s, ConfirmKey(r, t, session))
      case Reserve(r, t, session) => ReserveAt(s, ConfirmKey(r, t, session))
      case CheckCommit(r, t, session) =>
        var key := ConfirmKey(r, t, session);
        if key in s.pending && s.pending[key].status == Committing && s.now >= s.pending[key].deadline
        then SettleReserved(s, key, Cancelled) else s
      case CancelReserved(r, t, session) => SettleReserved(s, ConfirmKey(r, t, session), Cancelled)
      case Restore(r, t, session) => RestoreAt(s, ConfirmKey(r, t, session))
      case CancelMany(filter, keys) => CancelEach(s, filter, keys)
      case Fire(id) => FireTimer(s, id)
      case RunImmediate => s.(immediates := s.immediates[1..], resolved := s.resolved + [s.immediates[0]])
      case Tick(later) => s.(now := s.now + later)
  }

  function Run(s: State, ops: seq<Op>): State
    decreases |ops|
  {
    if ops == [] then s else Run(Step(s, ops[0]), ops[1..])
  }

  const EMPTY: State := State(map[], map[], [], [], 0, 0, 0, 0)

  // ---------------------------------------------------------------- the invariant

  predicate Recorded(resolved: seq<(nat, Outcome)>, immediates: seq<(nat, Outcome)>, id: nat) {
    (exists i | 0 <= i < |resolved| :: resolved[i].0 == id)
        || (exists i | 0 <= i < |immediates| :: immediates[i].0 == id)
  }

  predicate Settled(s: State, id: nat) {
    Recorded(s.resolved, s.immediates, id)
  }

  predicate Waits(s: State, id: nat) {
    exists key | key in s.pending :: s.pending[key].id == id
  }

  predicate ArmedFor(timer: Timer, key: string, w: Waiter) {
    timer.key == key && timer.owner == w.id && timer.at == w.deadline
        && (timer.callback == Reserved <==> w.status == Committing)
  }

  /** Every registered waiter has its own armed timer, for its deadline and for nobody else; there are no other
      timers. */
  predicate TimersOk(s: State) {
    && (forall key | key in s.pending ::
          && s.pending[key].timer in s.timers && s.pending[key].timer < s.nextTimer
          && ArmedFor(s.timers[s.pending[key].timer], key, s.pending[key]))
    && (forall id | id in s.timers :: id < s.nextTimer && s.timers[id].key in s.pending
                                      && s.pending[s.timers[id].key].timer == id)
  }

  /** Distinct waiters, each promise resolved at most once and never while its waiter is registered. */
  predicate Unique(s: State) {
    && (forall k, k' | k in s.pending && k' in s.pending && s.pending[k].id == s.pending[k'].id :: k == k')
    && (forall k | k in s.pending :: s.pending[k].id < s.nextWaiter && !Settled(s, s.pending[k].id))
    && (forall i, j | 0 <= i < j < |s.resolved| :: s.resolved[i].0 != s.resolved[j].0)
    && (forall i, j | 0 <= i < j < |s.immediates| :: s.immediates[i].0 != s.immediates[j].0)
    && (forall i, j | 0 <= i < |s.resolved| && 0 <= j < |s.immediates| :: s.resolved[i].0 != s.immediates[j].0)
    && (forall i | 0 <= i < |s.resolved| :: s.resolved[i].0 < s.nextWaiter)
    && (forall i | 0 <= i < |s.immediates| :: s.immediates[i].0 < s.nextWaiter)
  }

  /** No waiter is forgotten. */
  predicate Complete(s: State) {
    forall id: nat | id < s.nextWaiter :: Waits(s, id) || Settled(s, id)
  }

  predicate SettledOnce(s: State) {
    Unique(s) && Complete(s)
  }

  predicate Inv(s: State) {
    TimersOk(s) && SettledOnce(s)
  }

  /** A waiter and its timer go together. */
  lemma TimersRemoved(s: State, key: string, s': State)
    requires TimersOk(s) && key in s.pending && s'.nextTimer == s.nextTimer
    requires s'.pending == s.pending - {key} && s'.timers == s.timers - {s.pending[key].timer}
    ensures TimersOk(s')
  {
  }

  lemma TimersAdded(s: State, key: string, waiter: Waiter, timer: Timer, s': State)
    requires TimersOk(s) && key !in s.pending && waiter.timer == s.nextTimer && s'.nextTimer == s.nextTimer + 1
    requires s'.pending == s.pending[key := waiter] && s'.timers == s.timers[s.nextTimer := timer]
        && ArmedFor(timer, key, waiter)
    ensures TimersOk(s')
  {
  }

  lemma SettleKeeps(s: State, key: string, outcome: Outcome)
    requires Inv(s) && key in s.pending
    ensures Inv(Settle(s, key, outcome))
  {
    TimersRemoved(s, key, Settle(s, key, outcome));
    hide TimersOk;
    SettleOnce(s, key, outcome);
  }

  lemma SettleOnce(s: State, key: string, outcome: Outcome)
    requires SettledOnce(s) && key in s.pending
    ensures SettledOnce(Settle(s, key, outcome))
  {
    var s' := Settle(s, key, outcome);
    var id := s.pending[key].id;
    assert s'.resolved[|s.resolved|].0 == id;
    assert forall i | 0 <= i < |s.resolved| :: s'.resolved[i] == s.resolved[i];
    assert Unique(s') by {
      hide Complete;
      NotSettled(s, key);
    }
    hide Unique;
    StillComplete(s, key, s');
  }

  lemma NotSettled(s: State, key: string)
    requires Unique(s) && key in s.pending
    ensures forall i | 0 <= i < |s.resolved| :: s.resolved[i].0 != s.pending[key].id
    ensures forall i | 0 <= i < |s.immediates| :: s.immediates[i].0 != s.pending[key].id
  {
  }

  lemma StillComplete(s: State, key: string, s': State)
    requires Complete(s) && key in s.pending && s'.pending == s.pending - {key} && s'.nextWaiter == s.nextWaiter
    requires s.resolved <= s'.resolved && s.immediates <= s'.immediates && Settled(s', s.pending[key].id)
    ensures Complete(s')
  {
    forall other: nat | other < s'.nextWaiter
      ensures Waits(s', other) || Settled(s', other)
    {
      if Waits(s, other) && other != s.pending[key].id {
        var k :| k in s.pending && s.pending[k].id == other;
        assert k in s'.pending;
      } else if Settled(s, other) {
        SettledGrows(s, s', other);
      }
    }
  }

  lemma SettledGrows(s: State, s': State, id: nat)
    requires s.resolved <= s'.resolved && s.immediates <= s'.immediates && Settled(s, id)
    ensures Settled(s', id)
  {
  }

  lemma SubmitKeeps(s: State, key: string, approved: bool)
    requires Inv(s) && key in s.pending
    ensures Inv(SubmitAt(s, key, approved))
  {
    TimersRemoved(s, key, SubmitAt(s, key, approved));
    hide TimersOk;
    SubmitOnce(s, key, approved);
  }

  lemma SubmitOnce(s: State, key: string, approved: bool)
    requires SettledOnce(s) && key in s.pending
    ensures SettledOnce(SubmitAt(s, key, approved))
  {
    var s' := SubmitAt(s, key, approved);
    var id := s.pending[key].id;
    assert s'.immediates[|s.immediates|].0 == id;
    assert forall i | 0 <= i < |s.immediates| :: s'.immediates[i] == s.immediates[i];
    assert Unique(s') by {
      hide Complete;
      NotSettled(s, key);
    }
    hide Unique;
    StillComplete(s, key, s');
  }

  lemma TimersReplaced(s: State, key: string, waiter: Waiter)
    requires TimersOk(s) && key in s.pending && waiter.id == s.pending[key].id
        && waiter.deadline == s.pending[key].deadline
    ensures TimersOk(Rearm(s, key, waiter))
  {
  }

  lemma RearmKeeps(s: State, key: string, waiter: Waiter)
    requires Inv(s) && key in s.pending && waiter.id == s.pending[key].id && waiter.deadline == s.pending[key].deadline
    ensures Inv(Rearm(s, key, waiter))
  {
    hide TimersOk, SettledOnce;
    TimersReplaced(s, key, waiter);
    SameIdentities(s, Rearm(s, key, waiter));
  }

  lemma SameIdentities(s: State, s': State)
    requires SettledOnce(s) && s'.resolved == s.resolved && s'.immediates == s.immediates
        && s'.nextWaiter == s.nextWaiter
    requires s'.pending.Keys == s.pending.Keys && forall k | k in s.pending :: s'.pending[k].id == s.pending[k].id
    ensures SettledOnce(s')
  {
    hide Recorded;
    assert forall k | k in s'.pending :: k in s.pending;
    assert Unique(s');
    forall id: nat | id < s'.nextWaiter
      ensures Waits(s', id) || Settled(s', id)
    {
      if Waits(s, id) {
        var k :| k in s.pending && s.pending[k].id == id;
        assert k in s'.pending && s'.pending[k].id == id;
      }
    }
  }

  lemma RegisterKeeps(s: State, key: string, r: string, t: string, scope: Option<Scope>, timeout: nat)
    requires Inv(s) && key !in s.pending
    ensures Inv(Register(s, key, r, t, scope, timeout))
  {
    var s' := Register(s, key, r, t, scope, timeout);
    TimersAdded(s, key, s'.pending[key], s'.timers[s.nextTimer], s');
    hide TimersOk;
    RegisterOnce(s, key, s');
  }

  lemma RegisterOnce(s: State, key: string, s': State)
    requires SettledOnce(s) && key !in s.pending && key in s'.pending && s'.pending[key].id == s.nextWaiter
    requires s'.pending == s.pending[key := s'.pending[key]] && s'.nextWaiter == s.nextWaiter + 1
    requires s'.resolved == s.resolved && s'.immediates == s.immediates
    ensures SettledOnce(s')
  {
    assert !Settled(s, s.nextWaiter);
    forall id: nat | id < s'.nextWaiter
      ensures Waits(s', id) || Settled(s', id)
    {
      if id == s.nextWaiter {
        assert key in s'.pending;
      } else if Waits(s, id) {
        var k :| k in s.pending && s.pending[k].id == id;
        assert k in s'.pending && s'.pending[k].id == id;
      }
    }
  }

  lemma ImmediateKeeps(s: State)
    requires Inv(s) && s.immediates != []
    ensures Inv(Step(s, RunImmediate))
  {
    var s' := Step(s, RunImmediate);
    assert TimersOk(s');
    assert forall i | 0 <= i < |s.resolved| :: s'.resolved[i] == s.resolved[i];
    assert s'.resolved[|s.resolved|] == s.immediates[0];
    assert forall i | 0 <= i < |s'.immediates| :: s'.immediates[i] == s.immediates[i + 1];
    forall id: nat
      ensures Settled(s', id) <==> Settled(s, id)
    {
      if i :| 0 <= i < |s.resolved| && s.resolved[i].0 == id {
        assert s'.resolved[i].0 == id;
      } else if i :| 0 <= i < |s.immediates| && s.immediates[i].0 == id {
        assert if i == 0 then s'.resolved[|s.resolved|].0 == id else s'.immediates[i - 1].0 == id;
      }
    }
    assert forall id :: Waits(s', id) <==> Waits(s, id);
  }

  /** A timer that fires settles exactly the waiter that armed it, which is still registered and past its deadline. */
  lemma FireSettlesItsOwner(s: State, id: nat)
    requires Inv(s) && id in s.timers
    ensures var timer := s.timers[id];
            && timer.key in s.pending && s.pending[timer.key].id == timer.owner
                && s.pending[timer.key].deadline == timer.at
            && FireTimer(s, id) == Settle(s, timer.key, TimedOut)
  {
  }

  lemma {:induction false} CancelEachKeeps(s: State, filter: Filter, keys: seq<string>)
    requires Inv(s)
    ensures Inv(CancelEach(s, filter, keys))
    decreases |keys|
  {
    hide Inv, Settle, Selected;
    if keys != [] {
      CancelOneKeeps(s, filter, keys[0]);
      CancelEachKeeps(CancelOne(s, filter, keys[0]), filter, keys[1..]);
    }
  }

  lemma CancelOneKeeps(s: State, filter: Filter, key: string)
    requires Inv(s)
    ensures Inv(CancelOne(s, filter, key))
  {
    hide Inv, Settle, Selected;
    if key in s.pending {
      SettleKeeps(s, key, Cancelled);
      if OwnKey(s.pending[key]) in s.pending {
        SettleKeeps(s, OwnKey(s.pending[key]), Cancelled);
      }
    }
  }

  lemma StepKeeps(s: State, op: Op)
    requires Inv(s)
    ensures Inv(Step(s, op))
  {
    hide Inv, Settle, Rearm, Register, SubmitAt, CancelEach, FireTimer, ConfirmKey;
    if Possible(s, op) {
      match op {
        case Wait(r, t, scope, timeout) =>
          var key := ConfirmKey(r, t, if scope.Some? then scope.value.sessionId else None);
          if key !in s.pending {
            RegisterKeeps(s, key, r, t, scope, timeout);
          }
        case Submit(r, t, session, approved) => SubmitStep(s, ConfirmKey(r, t, session), approved);
        case Cancel(r, t, session) => AnySettleKeeps(s, ConfirmKey(r, t, session));
        case Reserve(r, t, session) => AnySettleKeeps(s, ConfirmKey(r, t, session));
        case CheckCommit(r, t, session) => AnySettleKeeps(s, ConfirmKey(r, t, session));
        case CancelReserved(r, t, session) => AnySettleKeeps(s, ConfirmKey(r, t, session));
        case Restore(r, t, session) => AnySettleKeeps(s, ConfirmKey(r, t, session));
        case CancelMany(filter, keys) => CancelEachKeeps(s, filter, keys);
        case Fire(id) =>
          FireSettlesItsOwner(s, id);
          SettleKeeps(s, s.timers[id].key, TimedOut);
        case RunImmediate => ImmediateKeeps(s);
        case Tick(later) => TickKeeps(s, later);
      }
    }
  }

  lemma TickKeeps(s: State, later: nat)
    requires Inv(s)
    ensures Inv(s.(now := s.now + later))
  {
    var s' := s.(now := s.now + later);
    assert forall id :: Waits(s', id) <==> Waits(s, id);
    assert forall id :: Settled(s', id) <==> Settled(s, id);
  }

  lemma SubmitStep(s: State, key: string, approved: bool)
    requires Inv(s)
    ensures Inv(SubmitAt(s, key, approved))
  {
    if key in s.pending {
      SubmitKeeps(s, key, approved);
    }
  }

  lemma AnySettleKeeps(s: State, key: string)
    requires Inv(s)
    ensures Inv(CancelAt(s, key)) && Inv(ReserveAt(s, key)) && Inv(RestoreAt(s, key))
        && Inv(SettleReserved(s, key, Cancelled))
  {
    hide Inv, Settle, Rearm;
    if key in s.pending {
      var w := s.pending[key];
      SettleKeeps(s, key, Cancelled);
      SettleKeeps(s, key, TimedOut);
      RearmKeeps(s, key, w.(status := Committing));
      RearmKeeps(s, key, w.(status := Waiting, revision := w.revision + 1));
    }
  }

  /** In every run each waiter is resolved at most once, by the step that takes it out of the registry; while it is
      there it has exactly one armed timer, for its deadline. */
  lemma {:induction false} InvAlongRuns(s: State, ops: seq<Op>)
    requires Inv(s)
    ensures Inv(Run(s, ops))
    decreases |ops|
  {
    hide Step, Inv;
    if ops != [] {
      StepKeeps(s, ops[0]);
      InvAlongRuns(Step(s, ops[0]), ops[1..]);
    }
  }

  // ---------------------------------------------------------------- one waiter over time

  /** A reservation or a restore of this key that goes through. */
  predicate Restores(s: State, op: Op, key: string) {
    op.Restore? && ConfirmKey(op.requestId, op.toolUseId, op.sessionId) == key
    && key in s.pending && s.pending[key].status == Committing && s.now < s.pending[key].deadline
  }

  /** The same request with the same deadline; the revision counts the restores. */
  predicate SameWait(w: Waiter, w': Waiter, restored: bool) {
    && w'.id == w.id && w'.deadline == w.deadline && w'.generation == w.generation
    && w'.requestId == w.requestId && w'.toolUseId == w.toolUseId && w'.sessionId == w.sessionId
    && w'.revision == w.revision + if restored then 1 else 0
  }

  /** A key keeps its waiter until that waiter is settled: the bulk loops only remove. */
  lemma {:induction false} CancelEachRemoves(s: State, filter: Filter, keys: seq<string>)
    ensures var s' := CancelEach(s, filter, keys);
            && (forall key | key in s'.pending :: key in s.pending && s'.pending[key] == s.pending[key])
            && s'.now == s.now && s.resolved <= s'.resolved && s'.immediates == s.immediates
            && (forall i | |s.resolved| <= i < |s'.resolved| :: s'.resolved[i].1 == Cancelled)
    decreases |keys|
  {
    hide Selected, ConfirmKey;
    if keys != [] {
      var next := CancelOne(s, filter, keys[0]);
      CancelEachRemoves(next, filter, keys[1..]);
      var s' := CancelEach(s, filter, keys);
      assert forall i | |s.resolved| <= i < |next.resolved| :: s'.resolved[i] == next.resolved[i];
    }
  }

  /** Over any step, a waiter that stays keeps its identity, its deadline and its generation, and its revision grows by
      one exactly when it is restored. */
  lemma WaiterKept(s: State, op: Op, key: string)
    requires Inv(s) && key in s.pending && key in Step(s, op).pending
    ensures SameWait(s.pending[key], Step(s, op).pending[key], Restores(s, op, key))
  {
    hide Inv, ConfirmKey, CancelEach;
    if Possible(s, op) {
      match op {
        case CancelMany(filter, keys) => CancelEachRemoves(s, filter, keys);
        case Fire(id) => FireSettlesItsOwner(s, id);
        case _ =>
      }
    }
  }

  /** The promise is resolved or queued exactly when the waiter leaves the registry. */
  lemma LeavingIsSettling(s: State, op: Op, key: string)
    requires Inv(s) && key in s.pending
    ensures Settled(Step(s, op), s.pending[key].id) <==> key !in Step(s, op).pending
  {
    hide TimersOk, Step;
    StepKeeps(s, op);
    var s' := Step(s, op);
    var id := s.pending[key].id;
    StepMonotone(s, op, key);
    if key in s'.pending {
      WaiterKept(s, op, key);
    } else {
      assert !Waits(s', id);
    }
  }

  lemma StepMonotone(s: State, op: Op, key: string)
    requires Inv(s) && key in s.pending
    ensures Step(s, op).nextWaiter >= s.nextWaiter
    ensures key !in Step(s, op).pending ==> !Waits(Step(s, op), s.pending[key].id)
    ensures s.pending[key].id < s.nextWaiter
  {
    hide ConfirmKey, CancelEach, TimersOk;
    hide SettledOnce;
    Distinct(s, key);
    if Possible(s, op) {
      match op {
        case CancelMany(filter, keys) =>
          CancelEachRemoves(s, filter, keys);
          CancelEachCounts(s, filter, keys);
        case Fire(id) => FireSettlesItsOwner(s, id);
        case _ =>
      }
    }
  }

  lemma Distinct(s: State, key: string)
    requires Inv(s) && key in s.pending
    ensures s.pending[key].id < s.nextWaiter && forall k | k in s.pending && s.pending[k].id == s.pending[key].id ::
        k == key
  {
  }

  lemma {:induction false} CancelEachCounts(s: State, filter: Filter, keys: seq<string>)
    ensures CancelEach(s, filter, keys).nextWaiter == s.nextWaiter
    decreases |keys|
  {
    hide Selected, ConfirmKey;
    if keys != [] {
      CancelEachCounts(CancelOne(s, filter, keys[0]), filter, keys[1..]);
    }
  }

  /** Time-outs are neither early nor lost: a step that times a waiter out comes at its deadline or later, and from its
      deadline on the waiter's own timer can fire. */
  lemma TimeoutsAreOnTime(s: State, op: Op, key: string)
    requires Inv(s) && key in s.pending
    ensures (s.pending[key].id, TimedOut) in Step(s, op).resolved ==> s.pending[key].deadline <= s.now
    ensures s.pending[key].deadline <= s.now ==>
              && Possible(s, Fire(s.pending[key].timer))
              && Step(s, Fire(s.pending[key].timer)) == Settle(s, key, TimedOut)
  {
    NotYetResolved(s, key);
    FireSettlesItsOwner(s, s.pending[key].timer);
    hide SettledOnce, ConfirmKey, CancelEach;
    if Possible(s, op) {
      match op {
        case CancelMany(filter, keys) => NoTimeoutInBulk(s, filter, keys, s.pending[key].id);
        case Fire(id) =>
          FireSettlesItsOwner(s, id);
          Distinct(s, key);
        case Reserve(_, _, _) => Distinct(s, key);
        case RunImmediate =>
        case _ =>
      }
    }
  }

  lemma NoTimeoutInBulk(s: State, filter: Filter, keys: seq<string>, id: nat)
    ensures (id, TimedOut) in CancelEach(s, filter, keys).resolved ==> (id, TimedOut) in s.resolved
  {
    hide CancelEach;
    CancelEachRemoves(s, filter, keys);
    var s' := CancelEach(s, filter, keys);
    if (id, TimedOut) in s'.resolved {
      var i :| 0 <= i < |s'.resolved| && s'.resolved[i] == (id, TimedOut);
      assert i < |s.resolved| ==> s'.resolved[i] == s.resolved[i];
    }
  }

  lemma NotYetResolved(s: State, key: string)
    requires Inv(s) && key in s.pending
    ensures forall o :: (s.pending[key].id, o) !in s.resolved && (s.pending[key].id, o) !in s.immediates
  {
  }

  // ---------------------------------------------------------------- keys

  predicate NulFree(s: string) {
    NUL !in s
  }

  /** Identifiers without the separator never share a key by accident. */
  lemma KeysAreInjective(r: string, t: string, session: Option<string>, r': string, t': string,
                         session': Option<string>)
    requires NulFree(r) && NulFree(t) && NulFree(r') && NulFree(t')
    requires ConfirmKey(r, t, session) == ConfirmKey(r', t', session')
    ensures r == r' && t == t' && session == session'
  {
    var tail := if session.None? then t else t + [NUL] + session.value;
    var tail' := if session'.None? then t' else t' + [NUL] + session'.value;
    assert ConfirmKey(r, t, session) == r + [NUL] + tail && ConfirmKey(r', t', session') == r' + [NUL] + tail';
    SplitAtNul(r, tail, r', tail');
    assert session.Some? ==> tail[|t|] == NUL;
    assert session'.Some? ==> tail'[|t'|] == NUL;
    assert session.Some? <==> session'.Some?;
    if session.Some? {
      SplitAtNul(t, session.value, t', session'.value);
    }
  }

  lemma SplitAtNul(a: string, b: string, a': string, b': string)
    requires NulFree(a) && NulFree(a') && a + [NUL] + b == a' + [NUL] + b'
    ensures a == a' && b == b'
  {
    var whole, whole' := a + [NUL] + b, a' + [NUL] + b';
    assert whole[|a|] == NUL && whole'[|a'|] == NUL;
    assert forall i | 0 <= i < |a| :: whole[i] == a[i] != NUL;
    assert forall i | 0 <= i < |a'| :: whole'[i] == a'[i] != NUL;
    assert |a| == |a'|;
    assert whole[..|a|] == a && whole'[..|a|] == a';
    assert whole[|a| + 1..] == b && whole'[|a| + 1..] == b';
  }

  /** The keys with the prefix of a request are those of its waiters. */
  lemma RequestPrefix(requestId: string, r: string, t: string, session: Option<string>)
    requires NulFree(requestId) && NulFree(r)
    ensures requestId + [NUL] <= ConfirmKey(r, t, session) <==> r == requestId
  {
    var tail := if session.None? then t else t + [NUL] + session.value;
    var key := ConfirmKey(r, t, session);
    assert key == r + [NUL] + tail;
    if requestId + [NUL] <= key {
      var rest := key[|requestId| + 1..];
      assert key == requestId + [NUL] + rest;
      SplitAtNul(r, tail, requestId, rest);
    }
  }

  // ---------------------------------------------------------------- bulk cancellation

  /** A waiter registered under an empty session id forgets it: its own fields spell another key. */
  predicate Misaddressed(s: State, key: string)
    requires key in s.pending
  {
    s.pending[key].status == Committing && OwnKey(s.pending[key]) != key
  }

  /** How a waiter's key and fields belong together. */
  predicate Named(s: State) {
    forall key | key in s.pending ::
      var w := s.pending[key];
      && NulFree(w.requestId) && NulFree(w.toolUseId)
      && (w.sessionId.Some? ==> w.sessionId.value != "")
      && (key == OwnKey(w) || (w.sessionId.None? && key == ConfirmKey(w.requestId, w.toolUseId, Some(""))))
  }

  lemma OwnKeysNameNoMisaddressed(s: State, key: string, other: string)
    requires Named(s) && key in s.pending && other in s.pending && OwnKey(s.pending[key]) == other
    ensures OwnKey(s.pending[other]) == other
  {
    var w, w' := s.pending[key], s.pending[other];
    if other != OwnKey(w') {
      KeysAreInjective(w.requestId, w.toolUseId, w.sessionId, w'.requestId, w'.toolUseId, Some(""));
    }
  }

  lemma CancelOneShrinks(s: State, filter: Filter, key: string)
    ensures forall k | k in CancelOne(s, filter, key).pending ::
        k in s.pending && CancelOne(s, filter, key).pending[k] == s.pending[k]
  {
    hide Selected, ConfirmKey;
  }

  /** The waiter is selected and can be reached. */
  predicate Hit(s: State, filter: Filter, key: string)
    requires key in s.pending
  {
    Selected(filter, key, s.pending[key]) && !Misaddressed(s, key)
  }

  /** The selected waiter at `k` is misaddressed, and what its fields spell is the reserved waiter at `key`. */
  predicate ByProxy(s: State, filter: Filter, k: string, key: string) {
    && k in s.pending && Selected(filter, k, s.pending[k]) && Misaddressed(s, k) && OwnKey(s.pending[k]) == key
    && key in s.pending && s.pending[key].status == Committing
  }

  /** One turn removes what it hits, or what its misaddressed waiter spells, and nothing else. */
  lemma CancelOneIff(s: State, filter: Filter, visited: string, key: string)
    requires key in s.pending
    ensures key !in CancelOne(s, filter, visited).pending <==>
        (key == visited && Hit(s, filter, key)) || ByProxy(s, filter, visited, key)
  {
    hide ConfirmKey, Selected;
  }

  /** A misaddressed waiter is never removed by a bulk loop. */
  lemma MisaddressedStays(s: State, filter: Filter, visited: string, key: string)
    requires Named(s) && key in s.pending && Misaddressed(s, key)
    ensures key in CancelOne(s, filter, visited).pending
  {
    CancelOneIff(s, filter, visited, key);
    if ByProxy(s, filter, visited, key) {
      OwnKeysNameNoMisaddressed(s, visited, key);
    }
  }

  lemma ProxyStays(s: State, filter: Filter, visited: string, k: string, key: string)
    requires Named(s) && key in CancelOne(s, filter, visited).pending
    ensures ByProxy(CancelOne(s, filter, visited), filter, k, key) <==> ByProxy(s, filter, k, key)
  {
    hide ConfirmKey, Selected, Named, CancelOne;
    CancelOneShrinks(s, filter, visited);
    if k in s.pending && Misaddressed(s, k) {
      MisaddressedStays(s, filter, visited, k);
    }
  }

  /** What a bulk loop over `keys` removes: the selected waiters it can reach, and every reserved waiter that a selected
      misaddressed one spells, whether it is selected itself or not. What stays is unchanged. */
  lemma {:induction false} CancelEachIff(s: State, filter: Filter, keys: seq<string>, key: string)
    requires Named(s) && key in s.pending
    ensures var s' := CancelEach(s, filter, keys);
            && (key !in s'.pending <==> (key in keys && Hit(s, filter, key))
                                        || exists k | k in keys :: ByProxy(s, filter, k, key))
            && (key in s'.pending ==> s'.pending[key] == s.pending[key])
    decreases |keys|
  {
    hide Named, ConfirmKey, Selected, CancelOne, ByProxy, Hit;
    CancelEachRemoves(s, filter, keys);
    if keys != [] {
      var next := CancelOne(s, filter, keys[0]);
      CancelOneShrinks(s, filter, keys[0]);
      CancelOneIff(s, filter, keys[0], key);
      assert keys == [keys[0]] + keys[1..];
      if key in next.pending {
        NamedShrinks(s, next);
        CancelEachIff(next, filter, keys[1..], key);
        HitStays(s, next, filter, key);
        forall k ensures ByProxy(next, filter, k, key) <==> ByProxy(s, filter, k, key) {
          ProxyStays(s, filter, keys[0], k, key);
        }
      } else {
        CancelEachRemoves(next, filter, keys[1..]);
      }
    }
  }

  lemma HitStays(s: State, s': State, filter: Filter, key: string)
    requires key in s.pending && key in s'.pending && s'.pending[key] == s.pending[key]
    ensures Hit(s', filter, key) <==> Hit(s, filter, key)
  {
    hide ConfirmKey, Selected;
  }

  /** Cancelling a request removes exactly the waiters of that request, but for the misaddressed ones, which it never
      removes. */
  lemma CancelRequestRemoves(s: State, requestId: string, keys: seq<string>, key: string)
    requires Named(s) && NulFree(requestId) && (forall k | k in s.pending :: k in keys) && key in s.pending
    ensures key !in CancelEach(s, ForRequest(requestId), keys).pending <==>
        s.pending[key].requestId == requestId && !Misaddressed(s, key)
  {
    hide CancelEach;
    var filter := ForRequest(requestId);
    CancelEachIff(s, filter, keys, key);
    SelectedByRequest(s, requestId, key);
    if k :| k in keys && ByProxy(s, filter, k, key) {
      SelectedByRequest(s, requestId, k);
      OwnKeysNameNoMisaddressed(s, k, key);
      SameRequest(s, k, key);
    }
  }

  lemma SelectedByRequest(s: State, requestId: string, key: string)
    requires Named(s) && NulFree(requestId) && key in s.pending
    ensures Selected(ForRequest(requestId), key, s.pending[key]) <==> s.pending[key].requestId == requestId
  {
    var w := s.pending[key];
    RequestPrefix(requestId, w.requestId, w.toolUseId, w.sessionId);
    RequestPrefix(requestId, w.requestId, w.toolUseId, Some(""));
  }

  lemma SameRequest(s: State, k: string, key: string)
    requires Named(s) && k in s.pending && key in s.pending && OwnKey(s.pending[k]) == key
    ensures s.pending[key].requestId == s.pending[k].requestId
  {
    var w, w' := s.pending[k], s.pending[key];
    if key == OwnKey(w') {
      KeysAreInjective(w.requestId, w.toolUseId, w.sessionId, w'.requestId, w'.toolUseId, w'.sessionId);
    } else {
      KeysAreInjective(w.requestId, w.toolUseId, w.sessionId, w'.requestId, w'.toolUseId, Some(""));
    }
  }

  /** Cancelling a tool of a lane can settle a waiter of another tool: the reserved waiter without a session whose
      request and tool use a reserved waiter of that tool shares under an empty session id, and no other. That one
      itself stays. */
  lemma CancelToolSettlesAnother(s: State, lane: string, toolName: string, keys: seq<string>, key: string)
    requires Named(s) && (forall k | k in s.pending :: k in keys) && key in s.pending
    requires !Selected(ForTool(lane, toolName), key, s.pending[key])
    ensures var other := ConfirmKey(s.pending[key].requestId, s.pending[key].toolUseId, Some(""));
            var s' := CancelEach(s, ForTool(lane, toolName), keys);
            && (key !in s'.pending <==>
                  && s.pending[key].status == Committing && key == OwnKey(s.pending[key])
                      && s.pending[key].sessionId.None?
                  && other in s.pending && s.pending[other].status == Committing
                  && s.pending[other].lane == Some(lane) && s.pending[other].toolName == Some(toolName))
            && (key !in s'.pending ==> other in s'.pending)
  {
    hide CancelEach;
    var filter := ForTool(lane, toolName);
    var w := s.pending[key];
    var other := ConfirmKey(w.requestId, w.toolUseId, Some(""));
    CancelEachIff(s, filter, keys, key);
    if k :| k in keys && ByProxy(s, filter, k, key) {
      OwnKeysNameNoMisaddressed(s, k, key);
      var u := s.pending[k];
      KeysAreInjective(u.requestId, u.toolUseId, u.sessionId, w.requestId, w.toolUseId, w.sessionId);
      CancelEachIff(s, filter, keys, k);
      MisaddressedLeft(s, filter, keys, k);
    }
    if other in s.pending && s.pending[other].status == Committing && key == OwnKey(w) && w.sessionId.None? {
      OtherSpellsKey(s, key, other);
    }
  }

  function Pair(waiter: Waiter, key: string, other: Waiter, otherKey: string): State {
    State(map[key := waiter, otherKey := other], map[2 := Timer(Reserved, key, 0, 9),
                                                     3 := Timer(Reserved, otherKey, 1, 9)], [], [], 2, 4, 2, 0)
  }

  /** It happens: two tools of one tool use, one registered under an empty session id, both reserved; cancelling the one
      settles the other. */
  lemma CancelToolWitness()
    ensures var bare, blank := ConfirmKey("r", "t", None), ConfirmKey("r", "t", Some(""));
            var s := Run(EMPTY, [Wait("r", "t", Some(Scope("edit", "lane", None, None, None)), 9),
                                 Wait("r", "t", Some(Scope("shell", "lane", Some(""), None, None)), 9),
                                 Reserve("r", "t", None), Reserve("r", "t", Some(""))]);
            var s' := CancelEach(s, ForTool("lane", "shell"), [bare, blank]);
            && bare in s.pending && s.pending[bare].toolName == Some("edit")
            && bare !in s'.pending && blank in s'.pending && s'.resolved == [(0, Cancelled)]
  {
    KeyLengths("r", "t");
    var bare, blank := ConfirmKey("r", "t", None), ConfirmKey("r", "t", Some(""));
    hide ConfirmKey, Run;
    var edit := Waiter(0, "r", "t", None, Some("edit"), Some("lane"), 0, 9, 1, 1, Waiting);
    var shell := Waiter(1, "r", "t", None, Some("shell"), Some("lane"), 1, 9, 2, 1, Waiting);
    var s1 := Step(EMPTY, Wait("r", "t", Some(Scope("edit", "lane", None, None, None)), 9));
    assert s1 == State(map[bare := edit], map[0 := Timer(First, bare, 0, 9)], [], [], 1, 1, 1, 0);
    var s2 := Step(s1, Wait("r", "t", Some(Scope("shell", "lane", Some(""), None, None)), 9));
    assert s2 == State(map[bare := edit, blank := shell],
                       map[0 := Timer(First, bare, 0, 9), 1 := Timer(First, blank, 1, 9)], [], [], 2, 2, 2, 0);
    var s3 := Step(s2, Reserve("r", "t", None));
    var held := edit.(status := Committing, timer := 2);
    assert s3 == State(map[bare := held, blank := shell],
                       map[1 := Timer(First, blank, 1, 9), 2 := Timer(Reserved, bare, 0, 9)], [], [], 2, 3, 2, 0);
    var s4 := Step(s3, Reserve("r", "t", Some("")));
    assert s4 == Pair(held, bare, shell.(status := Committing, timer := 3), blank);
    FourSteps(EMPTY, Wait("r", "t", Some(Scope("edit", "lane", None, None, None)), 9),
              Wait("r", "t", Some(Scope("shell", "lane", Some(""), None, None)), 9), Reserve("r", "t", None),
                  Reserve("r", "t", Some("")));
    assert [bare, blank][1..] == [blank] && [blank][1..] == [];
    assert "edit"[0] != "shell"[0];
    assert CancelOne(s4, ForTool("lane", "shell"), bare) == s4;
    var s5 := CancelOne(s4, ForTool("lane", "shell"), blank);
    assert s5 == Settle(s4, bare, Cancelled);
    assert CancelEach(s5, ForTool("lane", "shell"), []) == s5;
  }

  lemma FourSteps(s: State, a: Op, b: Op, c: Op, d: Op)
    ensures Run(s, [a, b, c, d]) == Step(Step(Step(Step(s, a), b), c), d)
  {
    hide Step;
    assert [a, b, c, d][1..] == [b, c, d] && [b, c, d][1..] == [c, d] && [c, d][1..] == [d] && [d][1..] == [];
    assert Run(s, [a, b, c, d]) == Run(Step(s, a), [b, c, d]);
    assert Run(Step(s, a), [b, c, d]) == Run(Step(Step(s, a), b), [c, d]);
    assert Run(Step(Step(s, a), b), [c, d]) == Run(Step(Step(Step(s, a), b), c), [d]);
    assert Run(Step(Step(Step(s, a), b), c), [d]) == Run(Step(Step(Step(Step(s, a), b), c), d), []);
  }

  lemma MisaddressedLeft(s: State, filter: Filter, keys: seq<string>, k: string)
    requires Named(s) && k in s.pending && Misaddressed(s, k)
    ensures k in CancelEach(s, filter, keys).pending
  {
    hide CancelEach;
    CancelEachIff(s, filter, keys, k);
    if j :| j in keys && ByProxy(s, filter, j, k) {
      OwnKeysNameNoMisaddressed(s, j, k);
    }
  }

  lemma OtherSpellsKey(s: State, key: string, other: string)
    requires Named(s) && key in s.pending && other in s.pending && s.pending[key].sessionId.None?
        && key == OwnKey(s.pending[key])
    requires other == ConfirmKey(s.pending[key].requestId, s.pending[key].toolUseId, Some(""))
    ensures OwnKey(s.pending[other]) == key && OwnKey(s.pending[other]) != other
  {
    var w, u := s.pending[key], s.pending[other];
    if other == OwnKey(u) {
      KeysAreInjective(w.requestId, w.toolUseId, Some(""), u.requestId, u.toolUseId, u.sessionId);
    } else {
      KeysAreInjective(w.requestId, w.toolUseId, Some(""), u.requestId, u.toolUseId, Some(""));
      KeyLengths(w.requestId, w.toolUseId);
    }
  }

  lemma KeyLengths(r: string, t: string)
    ensures |ConfirmKey(r, t, Some(""))| == |ConfirmKey(r, t, None)| + 1
  {
  }

  lemma NamedShrinks(s: State, s': State)
    requires Named(s) && forall k | k in s'.pending :: k in s.pending && s'.pending[k] == s.pending[k]
    ensures Named(s')
  {
    hide ConfirmKey;
  }

  /** Cancelling everything empties the registry if and only if no reserved waiter was registered under an empty session
      id; such a waiter is left behind. */
  lemma CancelAllEmptiesIff(s: State, keys: seq<string>)
    requires Named(s) && forall key | key in s.pending :: key in keys
    ensures CancelEach(s, Everything, keys).pending == map[] <==>
              forall key | key in s.pending ::
                  !(s.pending[key].status == Committing
                    && key == ConfirmKey(s.pending[key].requestId, s.pending[key].toolUseId, Some("")))
  {
    var s' := CancelEach(s, Everything, keys);
    CancelEachRemoves(s, Everything, keys);
    forall key | key in s.pending
      ensures key in s'.pending <==> Misaddressed(s, key)
    {
      CancelEachIff(s, Everything, keys, key);
      if k :| k in keys && ByProxy(s, Everything, k, key) {
        OwnKeysNameNoMisaddressed(s, k, key);
      }
    }
    forall key | key in s.pending
      ensures Misaddressed(s, key) <==>
                s.pending[key].status == Committing
                    && key == ConfirmKey(s.pending[key].requestId, s.pending[key].toolUseId, Some(""))
    {
      var w := s.pending[key];
      if key == ConfirmKey(w.requestId, w.toolUseId, Some("")) && OwnKey(w) == key {
        KeysAreInjective(w.requestId, w.toolUseId, w.sessionId, w.requestId, w.toolUseId, Some(""));
      }
    }
    assert s'.pending == map[] <==> forall key | key in s.pending :: !Misaddressed(s, key);
  }

  /** The comment on reservation promises that a concurrent response cannot consume a reserved item; the code lets
      it. */
  lemma ReservationDoesNotExcludeAResponse(s: State, r: string, t: string, session: Option<string>, approved: bool)
    requires var key := ConfirmKey(r, t, session);
        key in s.pending && s.pending[key].status == Waiting && s.now < s.pending[key].deadline
    ensures var key := ConfirmKey(r, t, session);
            var reserved := Step(s, Reserve(r, t, session));
            var answered := Step(reserved, Submit(r, t, session, approved));
            && reserved.pending[key].status == Committing
            && key !in answered.pending
            && answered.immediates == s.immediates + [(s.pending[key].id, if approved then Approved else Rejected)]
            && Step(answered, CheckCommit(r, t, session)) == answered
  {
    hide ConfirmKey;
  }

  /** Identifiers without the separator keep keys and fields together. */
  lemma NamedStep(s: State, op: Op)
    requires Named(s) && Inv(s)
    requires op.Wait? ==> NulFree(op.requestId) && NulFree(op.toolUseId)
    ensures Named(Step(s, op))
  {
    hide ConfirmKey, CancelEach, Inv;
    if Possible(s, op) {
      match op {
        case Wait(r, t, scope, timeout) => NamedRegister(s, r, t, scope, timeout);
        case CancelMany(filter, keys) =>
          CancelEachRemoves(s, filter, keys);
          NamedShrinks(s, CancelEach(s, filter, keys));
        case Fire(id) => FireSettlesItsOwner(s, id);
        case _ =>
      }
    }
  }

  lemma NamedRegister(s: State, r: string, t: string, scope: Option<Scope>, timeout: nat)
    requires Named(s) && NulFree(r) && NulFree(t)
    ensures Named(Step(s, Wait(r, t, scope, timeout)))
  {
    hide ConfirmKey;
  }

  // ---------------------------------------------------------------- the module's maps

  class Registry {
    var pending: map<string, Waiter>
    var timers: map<nat, Timer>
    var immediates: seq<(nat, Outcome)>
    ghost var resolved: seq<(nat, Outcome)>
    var nextWaiter: nat
    var nextTimer: nat
    var nextGeneration: int
    var now: int

    ghost function Contents(): State
      reads this
    {
      State(pending, timers, immediates, resolved, nextWaiter, nextTimer, nextGeneration, now)
    }

    constructor ()
      ensures Contents() == EMPTY && Inv(Contents())
    {
      pending, timers, immediates, resolved := map[], map[], [], [];
      nextWaiter, nextTimer, nextGeneration, now := 0, 0, 0, 0;
    }

    method WaitForToolConfirm(requestId: string, toolUseId: string, scope: Option<Scope>, timeout: nat)
        returns (waiter: nat)
      requires Inv(Contents())
      modifies this
      ensures Inv(Contents()) && Contents() == Step(old(Contents()), Wait(requestId, toolUseId, scope, timeout))
      ensures Waits(Contents(), waiter)
    {
      hide Inv, ConfirmKey, Register;
      StepKeeps(Contents(), Wait(requestId, toolUseId, scope, timeout));
      var key := ConfirmKey(requestId, toolUseId, if scope.Some? then scope.value.sessionId else None);
      if key in pending {
        return pending[key].id;
      }
      RegisterWaiter(key, requestId, toolUseId, scope, timeout);
      waiter := pending[key].id;
    }

    method RegisterWaiter(key: string, requestId: string, toolUseId: string, scope: Option<Scope>, timeout: nat)
      modifies this
      ensures Contents() == Register(old(Contents()), key, requestId, toolUseId, scope, timeout) && key in pending
    {
      var session := if scope.Some? && scope.value.sessionId.Some? && scope.value.sessionId.value != ""
          then scope.value.sessionId else None;
      var toolName := if scope.Some? then Some(scope.value.toolName) else None;
      var lane := if scope.Some? then Some(scope.value.lane) else None;
      var revision := if scope.Some? && scope.value.revision.Some? then scope.value.revision.value else 1;
      var generation := nextGeneration + 1;
      if scope.Some? && scope.value.generation.Some? {
        generation := scope.value.generation.value;
      } else {
        nextGeneration := nextGeneration + 1;
      }
      var waiter := Waiter(nextWaiter, requestId, toolUseId, session, toolName, lane, nextTimer, now + timeout,
                           generation, revision, Waiting);
      pending := pending[key := waiter];
      timers := timers[nextTimer := Timer(First, key, nextWaiter, now + timeout)];
      nextWaiter, nextTimer := nextWaiter + 1, nextTimer + 1;
    }

    method SettleWaiter(key: string, outcome: Outcome)
      requires key in pending
      modifies this
      ensures Contents() == Settle(old(Contents()), key, outcome)
    {
      timers := timers - {pending[key].timer};
      resolved := resolved + [(pending[key].id, outcome)];
      pending := pending - {key};
    }

    method SubmitResponse(requestId: string, toolUseId: string, sessionId: Option<string>, approved: bool)
        returns (accepted: bool)
      requires Inv(Contents())
      modifies this
      ensures Inv(Contents()) && Contents() == Step(old(Contents()), Submit(requestId, toolUseId, sessionId, approved))
      ensures accepted <==> ConfirmKey(requestId, toolUseId, sessionId) in old(pending)
    {
      hide Inv, ConfirmKey;
      StepKeeps(Contents(), Submit(requestId, toolUseId, sessionId, approved));
      var key := ConfirmKey(requestId, toolUseId, sessionId);
      accepted := key in pending;
      if accepted {
        timers := timers - {pending[key].timer};
        immediates := immediates + [(pending[key].id, if approved then Approved else Rejected)];
        pending := pending - {key};
      }
    }

    method CancelConfirm(requestId: string, toolUseId: string, sessionId: Option<string>) returns (cancelled: bool)
      requires Inv(Contents())
      modifies this
      ensures Inv(Contents()) && Contents() == Step(old(Contents()), Cancel(requestId, toolUseId, sessionId))
      ensures cancelled <==> ConfirmKey(requestId, toolUseId, sessionId) in old(pending)
    {
      hide Inv, ConfirmKey;
      StepKeeps(Contents(), Cancel(requestId, toolUseId, sessionId));
      var key := ConfirmKey(requestId, toolUseId, sessionId);
      cancelled := key in pending;
      if cancelled {
        SettleWaiter(key, Cancelled);
      }
    }

    method ReserveResponse(requestId: string, toolUseId: string, sessionId: Option<string>) returns (reserved: bool)
      requires Inv(Contents())
      modifies this
      ensures Inv(Contents()) && Contents() == Step(old(Contents()), Reserve(requestId, toolUseId, sessionId))
      ensures var key := ConfirmKey(requestId, toolUseId, sessionId);
              reserved <==> key in old(pending) && old(pending)[key].status == Waiting
                            && now < old(pending)[key].deadline
    {
      hide Inv, ConfirmKey;
      StepKeeps(Contents(), Reserve(requestId, toolUseId, sessionId));
      var key := ConfirmKey(requestId, toolUseId, sessionId);
      if key !in pending || pending[key].status == Committing {
        return false;
      }
      if pending[key].deadline - now <= 0 {
        SettleWaiter(key, TimedOut);
        return false;
      }
      RearmTimer(key, pending[key].(status := Committing));
      return true;
    }

    method RestoreReserved(requestId: string, toolUseId: string, sessionId: Option<string>) returns (restored: bool)
      requires Inv(Contents())
      modifies this
      ensures Inv(Contents()) && Contents() == Step(old(Contents()), Restore(requestId, toolUseId, sessionId))
      ensures restored <==>
          Restores(old(Contents()), Restore(requestId, toolUseId, sessionId),
                   ConfirmKey(requestId, toolUseId, sessionId))
    {
      hide Inv, ConfirmKey;
      StepKeeps(Contents(), Restore(requestId, toolUseId, sessionId));
      var key := ConfirmKey(requestId, toolUseId, sessionId);
      if key !in pending || pending[key].status != Committing || now >= pending[key].deadline {
        return false;
      }
      RearmTimer(key, pending[key].(status := Waiting, revision := pending[key].revision + 1));
      return true;
    }

    method RearmTimer(key: string, waiter: Waiter)
      requires key in pending
      modifies this
      ensures Contents() == Rearm(old(Contents()), key, waiter)
    {
      var others: map<nat, Timer> := timers - {pending[key].timer};
      timers := others[nextTimer := Timer(if waiter.status == Committing then Reserved
                                          else Restored, key, waiter.id, waiter.deadline)];
      pending := pending[key := waiter.(timer := nextTimer)];
      nextTimer := nextTimer + 1;
    }

    method FireTimeout(id: nat)
      requires Inv(Contents()) && id in timers && timers[id].at <= now
      modifies this
      ensures Inv(Contents()) && Contents() == Step(old(Contents()), Fire(id))
    {
      StepKeeps(Contents(), Fire(id));
      FireSettlesItsOwner(Contents(), id);
      hide Inv;
      SettleWaiter(timers[id].key, TimedOut);
    }

    /** The three bulk cancellations. */
    method CancelSelected(filter: Filter, keys: seq<string>)
      requires Inv(Contents())
      modifies this
      ensures Inv(Contents()) && Contents() == Step(old(Contents()), CancelMany(filter, keys))
    {
      StepKeeps(Contents(), CancelMany(filter, keys));
      hide Inv, Selected, ConfirmKey;
      var i := 0;
      while i < |keys|
        invariant 0 <= i <= |keys| && CancelEach(Contents(), filter, keys[i..])
            == CancelEach(old(Contents()), filter, keys)
      {
        assert keys[i..][1..] == keys[i + 1..];
        var key := keys[i];
        if key in pending && Selected(filter, key, pending[key]) {
          if pending[key].status == Waiting {
            SettleWaiter(key, Cancelled);
          } else {
            var own := OwnKey(pending[key]);
            if own in pending && pending[own].status == Committing {
              SettleWaiter(own, Cancelled);
            }
          }
        }
        i := i + 1;
      }
      assert keys[i..] == [];
    }
  }
}
