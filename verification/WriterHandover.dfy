/** Successive writers over one file: the registry admits one at a time, and sequence numbers stay unique across them
    exactly as long as nobody who holds the lock closes a writer past a queued commit that will still be written
    (electron/sessionEvents.ts). */
module WriterHandover {
  import opened Json
  import opened Writer

  datatype System = System(file: seq<Event>, writers: seq<Writer>, registered: Option<nat>)

  datatype Move = Create(options: Options) | Act(id: nat, op: Op)

  /** Steps taken while holding the lifecycle lock of the location. */
  predicate Locked(op: Op) {
    match op
    case AppendChunk(_, held) => held
    case AppendNow(_, held) => held
    case Flush(held) => held
    case Retire(held) => held
    case CloseBegin(held) => held
    case Enter => true
    case _ => false
  }

  /** Nobody has an append in flight, and for `Enter` nobody drains: the lock is free, or held by the caller itself. */
  predicate LockAllows(system: System, op: Op) {
    && (Locked(op) ==> forall i | 0 <= i < |system.writers| :: system.writers[i].entry.None?)
    && (op == Enter ==> forall i | 0 <= i < |system.writers| :: !system.writers[i].draining)
  }

  function Apply(system: System, move: Move): System {
    match move
    case Create(options) =>
      if system.registered.Some? then system
      else System(system.file, system.writers + [NewWriter(options)], Some(|system.writers|))
    case Act(i, op) =>
      if i >= |system.writers| || !LockAllows(system, op) then system
      else
        var after := Step(World(system.file, system.writers[i]), op);
        System(after.file, system.writers[i := after.writer],
               if system.registered == Some(i) && (after.writer.fence.retired || after.writer.fence.closed) then None
                   else system.registered)
  }

  function Run(system: System, moves: seq<Move>): System
    decreases |moves|
  {
    if moves == [] then system else Run(Apply(system, moves[0]), moves[1..])
  }

  predicate NoCommits(queue: seq<Task>, from: nat) {
    forall k | from <= k < |queue| :: !queue[k].Commit?
  }

  /** The tasks of the chain that still find the writer in service: those before the first retirement. */
  function InService(queue: seq<Task>): (served: seq<Task>)
    ensures served <= queue
  {
    if queue == [] || queue[0].RetireTask? then [] else [queue[0]] + InService(queue[1..])
  }

  /** Some commit of the chain will still be written: the writer has not failed, and no retirement is queued ahead of
      it. */
  predicate WillWrite(w: Writer) {
    !w.failure.failed && !NoCommits(InService(w.queue), 0)
  }

  /** A lock holder closes a writer only when nothing that is queued will still be written. */
  predicate CleanClose(w: Writer, op: Op) {
    op == CloseBegin(true) ==> !WillWrite(w)
  }

  predicate CleanMove(system: System, move: Move) {
    move.Act? && move.id < |system.writers| ==> CleanClose(system.writers[move.id], move.op)
  }

  predicate CleanRun(system: System, moves: seq<Move>)
    decreases |moves|
  {
    moves != [] ==> CleanMove(system, moves[0]) && CleanRun(Apply(system, moves[0]), moves[1..])
  }

  // ---------------------------------------------------------------- one writer

  lemma {:induction false} InServiceAppend(queue: seq<Task>, task: Task)
    ensures InService(queue + [task]) == InService(queue)
                                         + if InService(queue) == queue && !task.RetireTask? then [task] else []
  {
    if queue == [] {
      assert [task][1..] == [];
    } else {
      assert (queue + [task])[1..] == queue[1..] + [task];
      InServiceAppend(queue[1..], task);
    }
  }

  /** Everything a running `close` does not wait for is not a commit, or will not be written. */
  predicate Closing(w: Writer) {
    && (w.ahead.Some? ==>
          && w.fence.closing && w.buffer.chunks == []
          && (w.ahead.value == 0 ==> !(w.entry.Some? && w.fromQueue))
          && (w.failure.failed || NoCommits(InService(w.queue), Minus(w.ahead.value, if Waits(w) then 1 else 0))))
    && (w.fence.closed ==> w.ahead == Some(0))
    && (w.entry.Some? ==> !w.failure.failed && w.initialized && !(w.fromQueue && w.draining))
    && (w.failure.failed ==> w.buffer.chunks == [])
    && (w.fence.retired ==> w.failure.failed)
    && NoEmptyCommit(w.queue)
  }

  predicate NoEmptyCommit(queue: seq<Task>) {
    forall k | 0 <= k < |queue| && queue[k].Commit? :: queue[k].batch.inputs != []
  }

  /** What one step can do to the file and to the counter. */
  predicate Effect(world: World, op: Op, after: World) {
    var w, w' := world.writer, after.writer;
    && Closing(w')
    && (w.failure.failed ==> w'.failure.failed) && (w.fence.closed ==> w'.fence.closed)
    && (w'.draining && !w.draining ==> op == Enter)
    && (if w.entry.Some? && op == Settle(true) then
          && after.file == world.file + Numbered(w.seqNo, w.entry.value.inputs)
          && w'.seqNo == w.seqNo + |w.entry.value.inputs| && w'.entry.None? && w'.initialized
        else
          && after.file == world.file
          && (w'.initialized && !w.initialized ==>
              Locked(op) && w'.seqNo == LastSeq(world.file) && !w.fence.closed && !w.failure.failed)
          && (w.initialized ==> w'.initialized && w'.seqNo == w.seqNo)
          && (w'.entry.Some? && w.entry.None? ==> Locked(op) && !w.fence.closed && !w.failure.failed))
  }

  lemma FlushEffect(world: World, held: bool)
    requires var w := world.writer; Closing(w.(fence := w.fence.(closing := false))) && w.ahead.None?
                                    && (held ==> w.entry.None?)
    ensures var after := FlushPending(world, held);
            && after.file == world.file && after.writer.fence == world.writer.fence
                && after.writer.ahead == world.writer.ahead
            && after.writer.draining == world.writer.draining && after.writer.buffer.chunks == []
            && (held ==> after.writer.queue == world.writer.queue
                         && !(after.writer.entry.Some? && after.writer.fromQueue))
            && (!held ==> after.writer.entry == world.writer.entry && after.writer.fromQueue == world.writer.fromQueue)
            && (after.writer.entry.Some? ==>
                  !after.writer.failure.failed && after.writer.initialized
                      && !(after.writer.fromQueue && after.writer.draining))
            && (world.writer.failure.failed ==> after.writer.failure.failed)
            && (if after.writer.initialized && !world.writer.initialized
                then held && !world.writer.failure.failed && after.writer.seqNo == LastSeq(world.file)
                else after.writer.initialized == world.writer.initialized && after.writer.seqNo == world.writer.seqNo)
            && (after.writer.entry.Some? && world.writer.entry.None? ==> held && !world.writer.failure.failed)
  {
    hide LastSeq, SumBytes;
  }

  lemma CloseEffect(world: World, held: bool)
    requires Closing(world.writer) && CleanClose(world.writer, CloseBegin(held)) && (held ==> world.writer.entry.None?)
    ensures Effect(world, CloseBegin(held), BeginClosing(world, held))
  {
    hide LastSeq, SumBytes, Numbered;
    var w := world.writer;
    if w.ahead.None? {
      hide FlushPending;
      FlushEffect(world.(writer := w.(fence := w.fence.(closing := true))), held);
    }
  }

  lemma AppendEffect(world: World, op: Op)
    requires Closing(world.writer) && (op.AppendChunk? || op.AppendNow? || op.Flush?)
    ensures Effect(world, op, Step(world, op))
  {
    if op.Flush? {
      FlushOpEffect(world, op);
    } else {
      hide LastSeq, SumBytes, Numbered, EnterHead;
    }
  }

  lemma FlushOpEffect(world: World, op: Op)
    requires Closing(world.writer) && op.Flush?
    ensures Effect(world, op, Step(world, op))
  {
    hide LastSeq, SumBytes, Numbered;
  }

  lemma EnterCommitEffect(world: World)
    requires Closing(world.writer) && Possible(world.writer, Enter) && world.writer.queue[0].Commit?
    ensures Effect(world, Enter, EnterHead(world))
  {
    hide LastSeq, SumBytes, Numbered;
    var after := EnterHead(world);
    assert Closing(after.writer);
  }

  lemma EnterEffect(world: World)
    requires Closing(world.writer) && Possible(world.writer, Enter)
    ensures Effect(world, Enter, EnterHead(world))
  {
    hide LastSeq, SumBytes, Numbered, Begun;
    if world.writer.queue[0].Commit? {
      EnterCommitEffect(world);
    } else {
      var after := EnterHead(world);
      assert Closing(after.writer);
    }
  }

  lemma SettleEffect(world: World, ok: bool)
    requires Closing(world.writer) && world.writer.entry.Some?
    ensures Effect(world, Settle(ok), SettleEntry(world, ok))
  {
    hide LastSeq, SumBytes, Numbered;
  }

  lemma DrainEffect(world: World, held: bool)
    requires Closing(world.writer)
    ensures Effect(world, Drain(held), Step(world, Drain(held)))
  {
    hide LastSeq, SumBytes, Numbered;
    InServiceAppend(world.writer.queue, DrainTask);
    hide InService;
  }

  lemma RetireEffect(world: World, held: bool)
    requires Closing(world.writer) && (held ==> world.writer.entry.None?)
    ensures Effect(world, Retire(held), BeginRetiring(world, held))
  {
    hide LastSeq, SumBytes, Numbered;
    InServiceAppend(world.writer.queue, RetireTask);
    hide InService;
  }

  lemma FlagEffect(world: World, op: Op)
    requires Closing(world.writer) && (op.CloseEnd? || op.BeginShutdown? || op.DrainDone?)
    ensures Effect(world, op, Step(world, op))
  {
    hide LastSeq, SumBytes, Numbered, InService;
  }

  lemma NoEffect(world: World, op: Op)
    requires Closing(world.writer) && !Possible(world.writer, op)
    ensures Effect(world, op, Step(world, op))
  {
    hide LastSeq, SumBytes, Numbered, InService;
  }

  lemma StepEffect(world: World, op: Op)
    requires Closing(world.writer) && CleanClose(world.writer, op)
    ensures Effect(world, op, Step(world, op))
  {
    if !Possible(world.writer, op) {
      NoEffect(world, op);
      return;
    }
    hide Closing, Effect, EnterHead, SettleEntry, BeginClosing, BeginRetiring, CleanClose;
    match op {
      case AppendChunk(_, _) => AppendEffect(world, op);
      case AppendNow(_, _) => AppendEffect(world, op);
      case Flush(_) => AppendEffect(world, op);
      case Drain(held) => DrainEffect(world, held);
      case Retire(held) => RetireEffect(world, held);
      case CloseBegin(held) => CloseEffect(world, held);
      case Enter => EnterEffect(world);
      case Settle(ok) => SettleEffect(world, ok);
      case _ => FlagEffect(world, op);
    }
  }

  // ---------------------------------------------------------------- all writers

  predicate Increasing(file: seq<Event>) {
    forall i, j | 0 <= i < j < |file| :: file[i].seqNo < file[j].seqNo
  }

  /** May still append with the counter it has. */
  predicate Live(w: Writer) {
    !w.failure.failed && w.initialized && (w.fence.closed ==> w.entry.Some?)
  }

  predicate Inv(system: System) {
    && Increasing(system.file)
    && (forall i | 0 <= i < |system.writers| :: Closing(system.writers[i]))
    && (system.registered.Some? ==> system.registered.value < |system.writers|)
    && (forall i | 0 <= i < |system.writers| && system.registered != Some(i) ::
        system.writers[i].failure.failed || system.writers[i].fence.closed)
    && (forall i | 0 <= i < |system.writers| && Live(system.writers[i]) ::
        system.writers[i].seqNo == LastSeq(system.file))
    && (forall i, j | 0 <= i < j < |system.writers| :: !(Live(system.writers[i]) && Live(system.writers[j])))
    && (forall i, j | 0 <= i < j < |system.writers| :: !(system.writers[i].draining && system.writers[j].draining))
  }

  /** The numbering goes on from the greatest number in the file, in whatever order the records stand, and starts at
      1. */
  lemma {:induction false} LastSeqIsMax(file: seq<Event>)
    ensures forall i | 0 <= i < |file| :: file[i].seqNo <= LastSeq(file)
    ensures LastSeq(file) == 0 || exists i | 0 <= i < |file| :: file[i].seqNo == LastSeq(file)
  {
    if file != [] {
      var shorter := file[..|file| - 1];
      LastSeqIsMax(shorter);
      assert file[|file| - 1].seqNo <= LastSeq(file);
      if i :| 0 <= i < |shorter| && shorter[i].seqNo == LastSeq(shorter) {
        assert file[i].seqNo == LastSeq(shorter);
      }
    }
  }

  lemma {:induction false} NumberedExtends(file: seq<Event>, inputs: seq<Input>)
    requires Increasing(file)
    ensures Increasing(file + Numbered(LastSeq(file), inputs))
    ensures LastSeq(file + Numbered(LastSeq(file), inputs)) == LastSeq(file) + |inputs|
    decreases |inputs|
  {
    LastSeqIsMax(file);
    var last := LastSeq(file);
    if inputs == [] {
      assert file + Numbered(last, inputs) == file;
    } else {
      var n := |inputs| - 1;
      NumberedExtends(file, inputs[..n]);
      var grown := file + Numbered(last, inputs);
      assert grown[..|grown| - 1] == file + Numbered(last, inputs[..n]);
      assert grown[|grown| - 1].seqNo == last + |inputs|;
    }
  }

  lemma CreateKeeps(system: System, options: Options)
    requires Inv(system)
    ensures Inv(Apply(system, Create(options)))
  {
    hide Numbered, LastSeq;
  }

  /** One step of one writer keeps the numbers increasing, and its own counter right. */
  lemma ActNumbers(system: System, i: nat, op: Op)
    requires Inv(system) && CleanMove(system, Act(i, op)) && i < |system.writers| && LockAllows(system, op)
    ensures var world := World(system.file, system.writers[i]);
            var after := Step(world, op);
            && Effect(world, op, after) && Increasing(after.file)
            && (Live(after.writer) ==> after.writer.seqNo == LastSeq(after.file))
            && (after.file != system.file ==> Live(world.writer))
            && (Live(after.writer) && !Live(world.writer) ==>
                  && system.registered == Some(i)
                  && (forall k | 0 <= k < |system.writers| :: system.writers[k].entry.None?))
  {
    hide Numbered, LastSeq, Step, InService, NoCommits, NoEmptyCommit, WillWrite;
    var world := World(system.file, system.writers[i]);
    StepEffect(world, op);
    if world.writer.entry.Some? && op == Settle(true) {
      NumberedExtends(system.file, world.writer.entry.value.inputs);
    }
  }

  lemma ActKeeps(system: System, i: nat, op: Op)
    requires Inv(system) && CleanMove(system, Act(i, op))
    ensures Inv(Apply(system, Act(i, op)))
  {
    if i >= |system.writers| || !LockAllows(system, op) {
      return;
    }
    ActNumbers(system, i, op);
    hide Numbered, LastSeq, Step, InService, NoCommits, NoEmptyCommit, WillWrite, Increasing;
    var after := Step(World(system.file, system.writers[i]), op);
    var system' := Apply(system, Act(i, op));
    assert forall k | 0 <= k < |system.writers| && k != i :: system'.writers[k] == system.writers[k];
    assert forall k | 0 <= k < |system'.writers| && system'.registered != Some(k) ::
        system'.writers[k].failure.failed || system'.writers[k].fence.closed;
  }

  /** Over every run of writers that come and go, the sequence numbers in the file strictly increase, provided that a
      lock holder closes a writer only when nothing that is queued will still be written. */
  lemma {:induction false} NumbersStayUnique(system: System, moves: seq<Move>)
    requires Inv(system) && CleanRun(system, moves)
    ensures Inv(Run(system, moves)) && Increasing(Run(system, moves).file)
    decreases |moves|
  {
    hide Apply;
    if moves != [] {
      match moves[0] {
        case Create(options) => CreateKeeps(system, options);
        case Act(i, op) => ActKeeps(system, i, op);
      }
      NumbersStayUnique(Apply(system, moves[0]), moves[1..]);
    }
  }

  // ---------------------------------------------------------------- the condition is needed

  lemma {:induction false} RunConcat(system: System, a: seq<Move>, b: seq<Move>)
    ensures Run(system, a + b) == Run(Run(system, a), b)
    decreases |a|
  {
    hide Apply;
    if a == [] {
      assert [] + b == b;
    } else {
      assert (a + b)[1..] == a[1..] + b;
      RunConcat(Apply(system, a[0]), a[1..], b);
    }
  }

  lemma RunOne(system: System, m: Move)
    ensures Run(system, [m]) == Apply(system, m)
  {
    hide Apply;
    assert [m][1..] == [];
  }

  lemma RunThree(system: System, a: Move, b: Move, c: Move)
    ensures Run(system, [a, b, c]) == Apply(Apply(Apply(system, a), b), c)
  {
    hide Apply, Run;
    assert [a, b, c] == [a] + ([b] + [c]);
    RunConcat(system, [a], [b] + [c]);
    RunConcat(Apply(system, a), [b], [c]);
    RunOne(system, a);
    RunOne(Apply(system, a), b);
    RunOne(Apply(Apply(system, a), b), c);
  }

  /** The lock is free. */
  predicate Quiet(system: System) {
    forall k | 0 <= k < |system.writers| :: system.writers[k].entry.None? && !system.writers[k].draining
  }

  /** The number a writer gives next. */
  function NextSeq(w: Writer, file: seq<Event>): nat {
    if w.initialized then w.seqNo else LastSeq(file)
  }

  /** Same system but for writer i and the file. */
  predicate OnlyWriter(system: System, after: System, i: nat) {
    && i < |system.writers| && |after.writers| == |system.writers|
    && (forall k | 0 <= k < |system.writers| && k != i :: after.writers[k] == system.writers[k])
  }

  /** No step of a run closes a writer under the lock. */
  predicate NoEarlyClose(moves: seq<Move>) {
    forall m | m in moves :: !(m.Act? && m.op == CloseBegin(true))
  }

  /** An open writer with nothing in memory. */
  predicate Idle(w: Writer) {
    Open(w) && !w.failure.failed && w.queue == [] && w.buffer.chunks == [] && w.ahead.None?
  }

  /** Writer `id` has one new input in flight and nothing else to do. */
  predicate InFlightAlone(system: System, s2: System, id: nat)
    requires id < |system.writers|
  {
    && OnlyWriter(system, s2, id) && s2.file == system.file
    && var w := s2.writers[id];
    && Open(w) && !w.failure.failed && w.queue == [] && w.buffer.chunks == [] && w.ahead.None? && !w.draining
    && w.initialized && w.seqNo == NextSeq(system.writers[id], system.file)
    && w.entry.Some? && |w.entry.value.inputs| == 1
  }

  lemma AppendEnters(system: System, id: nat)
    requires id < |system.writers| && Idle(system.writers[id]) && Quiet(system)
    ensures InFlightAlone(system, Apply(Apply(system, Act(id, AppendNow([1], false))), Act(id, Enter)), id)
  {
    hide LastSeq, SumBytes;
    var batch := Batch([] + Fresh(system.writers[id].acceptedCount, [1]), 0, SumBytes([]));
    var s1 := Apply(system, Act(id, AppendNow([1], false)));
    assert s1.writers[id].queue == [Commit(batch)];
    assert Apply(s1, Act(id, Enter)).writers[id].entry == Some(batch);
  }

  lemma AppendSettles(system: System, s2: System, id: nat)
    requires id < |system.writers| && Quiet(system) && InFlightAlone(system, s2, id)
    ensures var after, seqNo := Apply(s2, Act(id, Settle(true))), NextSeq(system.writers[id], system.file);
            && OnlyWriter(system, after, id) && Quiet(after) && Idle(after.writers[id])
            && after.writers[id].initialized && after.writers[id].seqNo == seqNo + 1
            && |after.file| == |system.file| + 1 && after.file[..|system.file|] == system.file
            && after.file[|system.file|].seqNo == seqNo + 1
  {
    hide LastSeq, SumBytes, NextSeq;
  }

  /** A free lock and one append of an idle writer. */
  lemma OneAppend(system: System, id: nat) returns (moves: seq<Move>)
    requires id < |system.writers| && Idle(system.writers[id]) && Quiet(system)
    ensures NoEarlyClose(moves)
    ensures var after, seqNo := Run(system, moves), NextSeq(system.writers[id], system.file);
            && OnlyWriter(system, after, id) && Quiet(after) && Idle(after.writers[id])
            && after.writers[id].initialized && after.writers[id].seqNo == seqNo + 1
            && |after.file| == |system.file| + 1 && after.file[..|system.file|] == system.file
            && after.file[|system.file|].seqNo == seqNo + 1
  {
    hide LastSeq, SumBytes, Run;
    hide Apply, Quiet, Idle, InFlightAlone, NextSeq;
    moves := [Act(id, AppendNow([1], false)), Act(id, Enter), Act(id, Settle(true))];
    AppendEnters(system, id);
    AppendSettles(system, Apply(Apply(system, moves[0]), moves[1]), id);
    RunThree(system, moves[0], moves[1], moves[2]);
  }

  /** The chain of a closed writer goes on until its first commit is written. */
  lemma {:induction false} ChainGoesOn(system: System, i: nat) returns (moves: seq<Move>, inputs: seq<Input>)
    requires i < |system.writers| && Quiet(system) && WillWrite(system.writers[i])
        && NoEmptyCommit(system.writers[i].queue)
    ensures NoEarlyClose(moves) && inputs != []
    ensures var after := Run(system, moves);
            && OnlyWriter(system, after, i) && Quiet(after)
            && after.file == system.file + Numbered(NextSeq(system.writers[i], system.file), inputs)
    decreases |system.writers[i].queue|
  {
    hide LastSeq, SumBytes, Numbered, Run, NoCommits, InService;
    var w := system.writers[i];
    ServiceHead(w.queue);
    var entered := Apply(system, Act(i, Enter));
    RunOne(system, Act(i, Enter));
    if w.queue[0].Commit? {
      inputs := w.queue[0].batch.inputs;
      moves := [Act(i, Enter)] + [Act(i, Settle(true))];
      assert entered.writers[i].entry == Some(w.queue[0].batch);
      RunConcat(system, [Act(i, Enter)], [Act(i, Settle(true))]);
      RunOne(entered, Act(i, Settle(true)));
    } else {
      var done := Apply(entered, Act(i, DrainDone));
      assert done.writers[i] == TaskDone(w.(queue := w.queue[1..], draining := false));
      assert NextSeq(done.writers[i], done.file) == NextSeq(w, system.file);
      hide Apply;
      var rest;
      rest, inputs := ChainGoesOn(done, i);
      moves := [Act(i, Enter)] + ([Act(i, DrainDone)] + rest);
      RunConcat(system, [Act(i, Enter)], [Act(i, DrainDone)] + rest);
      RunConcat(entered, [Act(i, DrainDone)], rest);
      RunOne(entered, Act(i, DrainDone));
    }
  }

  /** The first task of a chain that will still write. */
  lemma ServiceHead(queue: seq<Task>)
    requires !NoCommits(InService(queue), 0)
    ensures queue != [] && !queue[0].RetireTask?
    ensures !queue[0].Commit? ==> !NoCommits(InService(queue[1..]), 0)
  {
    if queue != [] && !queue[0].RetireTask? && !queue[0].Commit? {
      var served := InService(queue);
      var k :| 0 <= k < |served| && served[k].Commit?;
      assert InService(queue[1..])[k - 1] == served[k];
    }
  }

  /** Closing under the lock, with the flush of the buffer by the holder itself: the writer is unregistered with its
      queue left. */
  lemma EarlyClose(system: System, i: nat) returns (moves: seq<Move>)
    requires Inv(system) && i < |system.writers| && WillWrite(system.writers[i]) && LockAllows(system, CloseBegin(true))
    ensures NoEarlyClose(moves)
    ensures var closed, w := Run(Apply(system, Act(i, CloseBegin(true))), moves), system.writers[i];
            && OnlyWriter(system, closed, i) && closed.registered == None && Increasing(closed.file)
            && var w' := closed.writers[i];
               && w'.queue == w.queue && !w'.failure.failed && w'.entry.None? && w'.draining == w.draining
               && (w'.initialized ==> w'.seqNo == LastSeq(closed.file))
  {
    hide LastSeq, SumBytes, Numbered, Run, InService, NoCommits;
    var w := system.writers[i];
    StillOpen(system, i);
    var begun := Apply(system, Act(i, CloseBegin(true)));
    var settled := begun;
    moves := [];
    RunNone(begun);
    if w.buffer.chunks != [] {
      var seqNo := NextSeq(w, system.file);
      var batch := Batch(w.buffer.chunks + [], |w.buffer.chunks|, SumBytes(w.buffer.chunks));
      assert begun.writers[i].entry == Some(batch) && begun.writers[i].seqNo == seqNo;
      NumberedExtends(system.file, batch.inputs);
      settled := Apply(begun, Act(i, Settle(true)));
      assert settled.file == system.file + Numbered(seqNo, batch.inputs);
      moves := [Act(i, Settle(true))];
      RunOne(begun, Act(i, Settle(true)));
    }
    RunConcat(begun, moves, [Act(i, CloseEnd)]);
    RunOne(settled, Act(i, CloseEnd));
    moves := moves + [Act(i, CloseEnd)];
  }

  lemma RunNone(system: System)
    ensures Run(system, []) == system
  {
  }

  /** A writer that will still write is the registered one and is not closed. */
  lemma StillOpen(system: System, i: nat)
    requires Inv(system) && i < |system.writers| && WillWrite(system.writers[i])
    ensures system.registered == Some(i) && !system.writers[i].fence.closed && !system.writers[i].fence.retired
    ensures system.writers[i].initialized ==> system.writers[i].seqNo == LastSeq(system.file)
  {
    hide LastSeq, InService;
  }

  /** The lock is released by whoever drains. */
  lemma Release(system: System) returns (moves: seq<Move>)
    requires forall k | 0 <= k < |system.writers| :: system.writers[k].entry.None?
    requires forall j, k | 0 <= j < k < |system.writers| :: !(system.writers[j].draining && system.writers[k].draining)
    ensures NoEarlyClose(moves)
    ensures var after := Run(system, moves);
            && Quiet(after) && after.file == system.file && |after.writers| == |system.writers|
            && (forall k | 0 <= k < |system.writers| ::
                  after.writers[k] == if system.writers[k].draining then TaskDone(system.writers[k].(draining := false))
                      else system.writers[k])
  {
    hide Run;
    moves := [];
    RunNone(system);
    if d :| 0 <= d < |system.writers| && system.writers[d].draining {
      moves := [Act(d, DrainDone)];
      RunOne(system, Act(d, DrainDone));
    }
  }

  function Replaced(closed: System, options: Options): System {
    System(closed.file, closed.writers + [NewWriter(options)], Some(|closed.writers|))
  }

  /** The number of the next writer's first event meets that of the late commit, or its second one does. */
  lemma Collide(file0: seq<Event>, file1: seq<Event>, file2: seq<Event>, file3: seq<Event>, w: Writer,
                inputs: seq<Input>)
    requires inputs != [] && (w.initialized ==> w.seqNo == LastSeq(file0))
    requires |file1| == |file0| + 1 && file1[..|file0|] == file0 && file1[|file0|].seqNo == LastSeq(file0) + 1
    requires file2 == file1 + Numbered(NextSeq(w, file1), inputs)
    requires |file3| == |file2| + 1 && file3[..|file2|] == file2 && file3[|file2|].seqNo == LastSeq(file0) + 2
    ensures !Increasing(file3)
  {
    var n := |file0|;
    assert LastSeq(file1) == LastSeq(file0) + 1;
    assert file3[n] == file2[n] == file1[n];
    assert file3[n + 1] == file2[n + 1] == Numbered(NextSeq(w, file1), inputs)[0];
  }

  lemma Entries(system: System, i: nat, closed: System, options: Options)
    requires Inv(system) && LockAllows(system, CloseBegin(true)) && OnlyWriter(system, closed, i)
    requires closed.writers[i].entry.None? && closed.writers[i].draining == system.writers[i].draining
    ensures var created := Replaced(closed, options);
            && (forall k | 0 <= k < |created.writers| :: created.writers[k].entry.None?)
            && (forall j, k | 0 <= j < k < |created.writers| ::
                !(created.writers[j].draining && created.writers[k].draining))
    ensures NoEmptyCommit(system.writers[i].queue)
  {
    hide LastSeq, InService, NoCommits;
  }

  lemma CreateReplaces(closed: System, options: Options)
    requires closed.registered.None?
    ensures Run(closed, [Create(options)]) == Replaced(closed, options)
  {
    hide Run;
    RunOne(closed, Create(options));
  }

  /** Whenever a lock holder closes a writer that will still write something queued, the file is handed over too early:
      some continuation, without another such close, gives one number to two events. */
  lemma CloseUnderLockDuplicates(system: System, i: nat, options: Options) returns (moves: seq<Move>)
    requires Inv(system) && i < |system.writers| && LockAllows(system, CloseBegin(true)) && WillWrite(system.writers[i])
    ensures NoEarlyClose(moves) && !Increasing(Run(Apply(system, Act(i, CloseBegin(true))), moves).file)
  {
    hide LastSeq, SumBytes, Run, Apply, Inv, InService, NoCommits, LockAllows, Increasing, Numbered;
    var next := |system.writers|;
    var begun := Apply(system, Act(i, CloseBegin(true)));
    var closing := EarlyClose(system, i);
    var closed := Run(begun, closing);
    CreateReplaces(closed, options);
    var created := Replaced(closed, options);
    Entries(system, i, closed, options);
    var releasing := Release(created);
    var free := Run(created, releasing);
    var first := OneAppend(free, next);
    var one := Run(free, first);
    var late, inputs := ChainGoesOn(one, i);
    var two := Run(one, late);
    var second := OneAppend(two, next);
    var rest := first + (late + second);
    moves := closing + ([Create(options)] + (releasing + rest));
    RunConcat(begun, closing, [Create(options)] + (releasing + rest));
    RunConcat(closed, [Create(options)], releasing + rest);
    RunConcat(created, releasing, rest);
    RunConcat(free, first, late + second);
    RunConcat(one, late, second);
    Collide(free.file, one.file, two.file, Run(two, second).file, one.writers[i], inputs);
  }

  lemma {:induction false} NoEarlyCloseIsClean(system: System, moves: seq<Move>)
    requires NoEarlyClose(moves)
    ensures CleanRun(system, moves)
    decreases |moves|
  {
    hide Apply, WillWrite;
    if moves != [] {
      NoEarlyCloseIsClean(Apply(system, moves[0]), moves[1..]);
    }
  }

  ghost predicate SafeFrom(system: System) {
    forall moves | CleanRun(system, moves) :: Increasing(Run(system, moves).file)
  }

  /** Closing a writer under the lock is safe for every continuation exactly when nothing that is queued will still be
      written. */
  lemma CloseUnderLockIsSafeIff(system: System, i: nat)
    requires Inv(system) && i < |system.writers| && LockAllows(system, CloseBegin(true))
    ensures SafeFrom(Apply(system, Act(i, CloseBegin(true)))) <==> !WillWrite(system.writers[i])
  {
    hide Run, Apply, Inv, LockAllows, WillWrite, CleanRun, Increasing;
    var after := Apply(system, Act(i, CloseBegin(true)));
    if WillWrite(system.writers[i]) {
      var moves := CloseUnderLockDuplicates(system, i, system.writers[i].options);
      NoEarlyCloseIsClean(after, moves);
    } else {
      ActKeeps(system, i, CloseBegin(true));
      forall moves | CleanRun(after, moves) ensures Increasing(Run(after, moves).file) {
        NumbersStayUnique(after, moves);
      }
    }
  }
}
