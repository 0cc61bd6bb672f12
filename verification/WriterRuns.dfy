/** What every run of one writer keeps: nothing is lost silently, the file holds a numbered prefix, memory stays
    bounded. */
module WriterRuns {
  import opened Json
  import opened Writer

  function TaskInputs(task: Task): seq<Input> {
    if task.Commit? then task.batch.inputs else []
  }

  function QueuedInputs(queue: seq<Task>): seq<Input> {
    if queue == [] then [] else TaskInputs(queue[0]) + QueuedInputs(queue[1..])
  }

  function EntryInputs(w: Writer): seq<Input> {
    if w.entry.Some? then w.entry.value.inputs else []
  }

  function TaskCount(task: Task): nat {
    if task.Commit? then task.batch.chunkCount else 0
  }

  function TaskBytes(task: Task): nat {
    if task.Commit? then task.batch.chunkBytes else 0
  }

  function QueuedCount(queue: seq<Task>): nat {
    if queue == [] then 0 else TaskCount(queue[0]) + QueuedCount(queue[1..])
  }

  function QueuedBytes(queue: seq<Task>): nat {
    if queue == [] then 0 else TaskBytes(queue[0]) + QueuedBytes(queue[1..])
  }

  // ---------------------------------------------------------------- invariants

  ghost predicate Basic(w: Writer) {
    && w.acceptedCount == |w.history.accepted|
    && (forall i | 0 <= i < |w.history.accepted| :: w.history.accepted[i].tag == i)
    && w.failure.lostEvents == |w.history.lost|
    && w.failure.lostBytes == SumBytes(w.history.lost)
    && (w.entry.Some? ==> !w.failure.failed && w.initialized)
    && (w.failure.failed ==> w.buffer.chunks == [])
    && (!w.failure.failed ==> w.history.lost == [])
    && (w.fence.retired ==> w.failure.failed)
  }

  /** Every accepted input is in exactly one place; `hand` is on its way from one to the next. */
  ghost predicate Conserved(w: Writer, hand: seq<Input>) {
    multiset(w.history.accepted)
    == multiset(w.history.committed) + multiset(w.history.lost) + multiset(EntryInputs(w))
        + multiset(QueuedInputs(w.queue))
       + multiset(w.buffer.chunks) + multiset(hand)
  }

  /** The counters are the chunks in memory, and never pass the hard limits; `count`, `bytes` are on their way. */
  ghost predicate Counted(w: Writer, count: nat, bytes: nat) {
    && w.buffer.count <= w.options.hardPendingEvents && w.buffer.bytes <= w.options.hardPendingBytes
    && (!w.failure.failed ==>
          && w.buffer.count == |w.buffer.chunks| + (if w.entry.Some? then w.entry.value.chunkCount else 0)
              + QueuedCount(w.queue) + count
          && w.buffer.bytes == SumBytes(w.buffer.chunks) + (if w.entry.Some? then w.entry.value.chunkBytes else 0)
              + QueuedBytes(w.queue) + bytes)
  }

  /** The file is what was there before, followed by the committed inputs with consecutive numbers. */
  ghost predicate FileIs(world: World, base: seq<Event>) {
    && world.file == base + Numbered(LastSeq(base), world.writer.history.committed)
    && (if world.writer.initialized then world.writer.seqNo == LastSeq(base) + |world.writer.history.committed|
        else world.writer.history.committed == [])
  }

  ghost predicate Inv(world: World, base: seq<Event>) {
    Basic(world.writer) && Conserved(world.writer, []) && Counted(world.writer, 0, 0) && FileIs(world, base)
  }

  /** The order of acceptance: `hand` goes before the queue, `late` after the buffer. */
  ghost predicate Ordered(w: Writer, hand: seq<Input>, late: seq<Input>) {
    if w.failure.failed then w.history.committed <= w.history.accepted
    else w.history.accepted == w.history.committed + EntryInputs(w) + hand + QueuedInputs(w.queue) + w.buffer.chunks
         + late
  }

  predicate Reenters(op: Op) {
    match op
    case AppendChunk(_, held) => held
    case AppendNow(_, held) => held
    case Flush(held) => held
    case CloseBegin(held) => held
    case _ => false
  }

  /** A lock holder appends only while no commit is queued. */
  predicate NoOvertaking(w: Writer, op: Op) {
    Reenters(op) ==> QueuedInputs(w.queue) == []
  }

  predicate NoOvertakingRun(world: World, ops: seq<Op>)
    decreases |ops|
  {
    ops != [] ==> NoOvertaking(world.writer, ops[0]) && NoOvertakingRun(Step(world, ops[0]), ops[1..])
  }

  // ---------------------------------------------------------------- sums

  lemma {:induction false} QueuedAppend(queue: seq<Task>, task: Task)
    ensures QueuedInputs(queue + [task]) == QueuedInputs(queue) + TaskInputs(task)
    ensures QueuedCount(queue + [task]) == QueuedCount(queue) + TaskCount(task)
    ensures QueuedBytes(queue + [task]) == QueuedBytes(queue) + TaskBytes(task)
  {
    if queue == [] {
      assert queue + [task] == [task];
    } else {
      QueuedAppend(queue[1..], task);
      assert (queue + [task])[1..] == queue[1..] + [task];
    }
  }

  lemma {:induction false} SumBytesAppend(a: seq<Input>, b: seq<Input>)
    ensures SumBytes(a + b) == SumBytes(a) + SumBytes(b)
  {
    if b == [] {
      assert a + b == a;
    } else {
      assert (a + b)[..|a + b| - 1] == a + b[..|b| - 1];
      SumBytesAppend(a, b[..|b| - 1]);
    }
  }

  lemma NumberedAppend(last: nat, a: seq<Input>, b: seq<Input>)
    ensures Numbered(last, a + b) == Numbered(last, a) + Numbered(last + |a|, b)
  {
  }

  // ---------------------------------------------------------------- parts of a step

  /** Flags, waiting counts and the lock do not touch the inputs. */
  lemma FlagsKeep(world: World, base: seq<Event>, w': Writer)
    requires Inv(world, base)
    requires w' == world.writer.(fence := w'.fence, draining := w'.draining, ahead := w'.ahead,
                                 fromQueue := w'.fromQueue)
    requires w'.fence.retired == world.writer.fence.retired
    ensures Inv(world.(writer := w'), base)
  {
  }

  lemma TaskQueued(world: World, base: seq<Event>, task: Task)
    requires Inv(world, base) && !task.Commit?
    ensures Inv(world.(writer := world.writer.(queue := world.writer.queue + [task])), base)
  {
    hide Numbered, LastSeq, SumBytes, QueuedInputs, QueuedCount, QueuedBytes;
    QueuedAppend(world.writer.queue, task);
    var queued := world.writer.(queue := world.writer.queue + [task]);
    assert Basic(queued);
    assert Conserved(queued, []);
  }

  lemma LoseKeeps(world: World, base: seq<Event>, batch: Batch)
    requires Basic(world.writer) && world.writer.entry.None? && Conserved(world.writer, batch.inputs)
        && FileIs(world, base)
    ensures Inv(world.(writer := Lose(world.writer, batch)), base)
  {
    hide Numbered, LastSeq, QueuedInputs, QueuedCount, QueuedBytes, SumBytes;
    SumBytesAppend(world.writer.history.lost, batch.inputs + world.writer.buffer.chunks);
    var after := world.(writer := Lose(world.writer, batch));
    assert Basic(after.writer);
    assert Conserved(after.writer, []);
  }

  lemma StartKeeps(world: World, base: seq<Event>, batch: Batch, fromQueue: bool)
    requires Basic(world.writer) && world.writer.entry.None? && Conserved(world.writer, batch.inputs)
        && FileIs(world, base)
    requires Counted(world.writer, batch.chunkCount, batch.chunkBytes) && !world.writer.failure.failed
    ensures Inv(Begun(world, batch, fromQueue), base)
  {
    hide SumBytes, QueuedInputs, QueuedCount, QueuedBytes;
    assert !world.writer.initialized ==> world.file == base;
    var after := Begun(world, batch, fromQueue);
    assert FileIs(after, base);
    hide Numbered, LastSeq;
    assert Basic(after.writer);
    assert Conserved(after.writer, []);
    assert Counted(after.writer, 0, 0);
  }

  lemma BegunKeeps(world: World, base: seq<Event>, batch: Batch, fromQueue: bool)
    requires Basic(world.writer) && world.writer.entry.None? && Conserved(world.writer, batch.inputs)
        && FileIs(world, base)
    requires Counted(world.writer, batch.chunkCount, batch.chunkBytes)
    ensures Inv(Begun(world, batch, fromQueue), base)
  {
    if world.writer.failure.failed {
      hide Inv, Basic, Conserved, Counted, FileIs, Lose;
      LoseKeeps(world, base, batch);
      var w := Lose(world.writer, batch);
      FlagsKeep(world.(writer := w), base, TaskDone(w));
    } else {
      StartKeeps(world, base, batch, fromQueue);
    }
  }

  /** The buffer followed by `extra` leaves the buffer as one batch. */
  lemma Taken(w: Writer, extra: seq<Input>)
    requires Basic(w) && Conserved(w, extra) && Counted(w, 0, 0)
    ensures var taken := w.(buffer := w.buffer.(chunks := []));
            && Basic(taken) && Conserved(taken, w.buffer.chunks + extra)
            && Counted(taken, |w.buffer.chunks|, SumBytes(w.buffer.chunks))
  {
  }

  lemma BatchQueued(w: Writer, batch: Batch)
    requires Basic(w) && Conserved(w, batch.inputs) && Counted(w, batch.chunkCount, batch.chunkBytes)
    ensures var queued := w.(queue := w.queue + [Commit(batch)]);
            Basic(queued) && Conserved(queued, []) && Counted(queued, 0, 0)
  {
    hide Numbered, LastSeq, SumBytes, QueuedInputs, QueuedCount, QueuedBytes;
    QueuedAppend(w.queue, Commit(batch));
    var queued := w.(queue := w.queue + [Commit(batch)]);
    assert Basic(queued);
    assert Conserved(queued, []);
  }

  lemma SubmitKeeps(world: World, base: seq<Event>, extra: seq<Input>, held: bool)
    requires Basic(world.writer) && Conserved(world.writer, extra) && Counted(world.writer, 0, 0) && FileIs(world, base)
    requires held ==> world.writer.entry.None?
    ensures Inv(Submit(world, extra, held), base)
  {
    hide Numbered, SumBytes, LastSeq, Basic, Conserved, Counted, Begun;
    var w := world.writer;
    Taken(w, extra);
    var taken := w.(buffer := w.buffer.(chunks := []));
    var batch := Batch(w.buffer.chunks + extra, |w.buffer.chunks|, SumBytes(w.buffer.chunks));
    if held {
      BegunKeeps(world.(writer := taken), base, batch, false);
    } else {
      BatchQueued(taken, batch);
    }
  }

  lemma FlushKeeps(world: World, base: seq<Event>, held: bool)
    requires Inv(world, base) && (held ==> world.writer.entry.None?)
    ensures Inv(FlushPending(world, held), base)
  {
    hide Submit, Basic, Counted, FileIs;
    if world.writer.buffer.chunks != [] {
      SubmitKeeps(world, base, [], held);
    }
  }

  function WithChunk(w: Writer, input: Input): Writer {
    w.(acceptedCount := w.acceptedCount + 1, history := w.history.(accepted := w.history.accepted + [input]),
       buffer := Buffer(w.buffer.chunks + [input], w.buffer.count + 1, w.buffer.bytes + input.bytes))
  }

  lemma ChunkAdded(world: World, base: seq<Event>, bytes: nat)
    requires Inv(world, base) && !world.writer.failure.failed
    requires world.writer.buffer.count + 1 <= world.writer.options.hardPendingEvents
    requires world.writer.buffer.bytes + bytes <= world.writer.options.hardPendingBytes
    ensures Inv(world.(writer := WithChunk(world.writer, Input(world.writer.acceptedCount, bytes))), base)
  {
    hide Numbered, LastSeq, SumBytes, QueuedInputs, QueuedCount, QueuedBytes;
    var w := world.writer;
    var input := Input(w.acceptedCount, bytes);
    SumBytesAppend(w.buffer.chunks, [input]);
    OneSum(input);
    var added := WithChunk(w, input);
    assert Counted(added, 0, 0);
    assert Basic(added);
    hide Basic, Counted;
    assert Conserved(added, []);
  }

  lemma OneSum(input: Input)
    ensures SumBytes([input]) == input.bytes
  {
  }

  lemma AcceptChunkKeeps(world: World, base: seq<Event>, bytes: nat, held: bool)
    requires Inv(world, base) && (held ==> world.writer.entry.None?)
    ensures Inv(AcceptChunk(world, bytes, held), base)
  {
    hide FlushPending, Inv;
    if AcceptChunk(world, bytes, held) != world {
      ChunkAdded(world, base, bytes);
      FlushKeeps(world.(writer := WithChunk(world.writer, Input(world.writer.acceptedCount, bytes))), base, held);
    }
  }

  lemma AcceptNowKeeps(world: World, base: seq<Event>, sizes: seq<nat>, held: bool)
    requires Inv(world, base) && (held ==> world.writer.entry.None?)
    ensures Inv(AcceptNow(world, sizes, held), base)
  {
    hide Submit, Numbered, LastSeq, SumBytes, QueuedInputs, QueuedCount, QueuedBytes;
    var w := world.writer;
    var inputs := Fresh(w.acceptedCount, sizes);
    SubmitKeeps(world.(writer := w.(acceptedCount := w.acceptedCount + |sizes|,
                                    history := w.history.(accepted := w.history.accepted + inputs))),
                base, inputs, held);
  }

  lemma RetireNowKeeps(world: World, base: seq<Event>)
    requires Inv(world, base) && world.writer.entry.None?
    ensures Inv(world.(writer := RetireNow(world.writer)), base)
  {
    hide Numbered, LastSeq, SumBytes, QueuedInputs, QueuedCount, QueuedBytes;
    SumBytesAppend(world.writer.history.lost, world.writer.buffer.chunks);
    if !world.writer.fence.retired {
      var after := RetireNow(world.writer);
      assert Basic(after);
      assert Conserved(after, []);
      assert FileIs(world.(writer := after), base);
    }
  }

  lemma HeadTaken(w: Writer)
    requires Basic(w) && Conserved(w, []) && Counted(w, 0, 0) && w.queue != []
    ensures var rest := w.(queue := w.queue[1..]);
            && Basic(rest) && Conserved(rest, TaskInputs(w.queue[0]))
            && Counted(rest, TaskCount(w.queue[0]), TaskBytes(w.queue[0]))
  {
  }

  lemma EnterKeeps(world: World, base: seq<Event>)
    requires Inv(world, base) && world.writer.entry.None? && world.writer.queue != []
    ensures Inv(EnterHead(world), base)
  {
    hide Basic, Conserved, Counted, RetireNow, Begun, LastSeq, Numbered;
    var w := world.writer.(queue := world.writer.queue[1..]);
    HeadTaken(world.writer);
    match world.writer.queue[0] {
      case Commit(batch) => BegunKeeps(world.(writer := w), base, batch, true);
      case RetireTask =>
        RetireNowKeeps(world.(writer := w), base);
        FlagsKeep(world.(writer := RetireNow(w)), base, TaskDone(RetireNow(w)));
      case DrainTask => FlagsKeep(world.(writer := w), base, w.(draining := true));
    }
  }

  lemma CommittedKeeps(world: World, base: seq<Event>)
    requires Inv(world, base) && world.writer.entry.Some?
    ensures Inv(SettleEntry(world.(writer := world.writer.(fromQueue := false)), true), base)
  {
    hide LastSeq, SumBytes, QueuedInputs, QueuedCount, QueuedBytes;
    var w := world.writer;
    NumberedAppend(LastSeq(base), w.history.committed, w.entry.value.inputs);
    var after := SettleEntry(world.(writer := w.(fromQueue := false)), true);
    assert FileIs(after, base);
    hide Numbered;
    assert Basic(after.writer);
    assert Conserved(after.writer, []);
    assert Counted(after.writer, 0, 0);
  }

  lemma LostKeeps(world: World, base: seq<Event>)
    requires Inv(world, base) && world.writer.entry.Some?
    ensures Inv(SettleEntry(world.(writer := world.writer.(fromQueue := false)), false), base)
  {
    hide LastSeq, SumBytes, Lose, Numbered, QueuedInputs, QueuedCount, QueuedBytes;
    LoseKeeps(world.(writer := world.writer.(entry := None, fromQueue := false)), base, world.writer.entry.value);
  }

  lemma SettleKeeps(world: World, base: seq<Event>, ok: bool)
    requires Inv(world, base) && world.writer.entry.Some?
    ensures Inv(SettleEntry(world, ok), base)
  {
    hide Inv, Numbered, SumBytes;
    if ok {
      CommittedKeeps(world, base);
    } else {
      LostKeeps(world, base);
    }
    var plain := SettleEntry(world.(writer := world.writer.(fromQueue := false)), ok);
    FlagsKeep(plain, base, SettleEntry(world, ok).writer);
  }

  // ---------------------------------------------------------------- all runs

  lemma StepKeeps(world: World, base: seq<Event>, op: Op)
    requires Inv(world, base)
    ensures Inv(Step(world, op), base)
  {
    hide Inv, AcceptChunk, AcceptNow, FlushPending, EnterHead, SettleEntry, RetireNow;
    var w := world.writer;
    if Possible(w, op) {
      match op {
        case AppendChunk(bytes, held) => AcceptChunkKeeps(world, base, bytes, held);
        case AppendNow(sizes, held) => AcceptNowKeeps(world, base, sizes, held);
        case Flush(held) => FlushKeeps(world, base, held);
        case Drain(_) => TaskQueued(world, base, DrainTask);
        case Retire(held) =>
          var fenced := world.(writer := w.(fence := w.fence.(retiring := true)));
          FlagsKeep(world, base, fenced.writer);
          if held {
            RetireNowKeeps(fenced, base);
          } else {
            TaskQueued(fenced, base, RetireTask);
          }
        case CloseBegin(held) =>
          if !w.fence.closed {
            var fenced := world.(writer := w.(fence := w.fence.(closing := true)));
            FlagsKeep(world, base, fenced.writer);
            FlushKeeps(fenced, base, held);
            FlagsKeep(FlushPending(fenced, held), base, BeginClosing(world, held).writer);
          }
        case CloseEnd => FlagsKeep(world, base, Step(world, op).writer);
        case BeginShutdown => FlagsKeep(world, base, Step(world, op).writer);
        case Enter => EnterKeeps(world, base);
        case Settle(ok) => SettleKeeps(world, base, ok);
        case DrainDone => FlagsKeep(world, base, Step(world, op).writer);
      }
    }
  }

  /** Conservation, numbering and the memory bound, over every run of one writer, whatever the lock holders do. */
  lemma {:induction false} InvAlongRuns(world: World, base: seq<Event>, ops: seq<Op>)
    requires Inv(world, base)
    ensures Inv(Run(world, ops), base)
    decreases |ops|
  {
    hide Step, Inv;
    if ops != [] {
      StepKeeps(world, base, ops[0]);
      InvAlongRuns(Step(world, ops[0]), base, ops[1..]);
    }
  }

  /** The same from the moment the writer is constructed over an existing file. */
  lemma NothingIsLostSilently(options: Options, base: seq<Event>, ops: seq<Op>)
    ensures Inv(Run(World(base, NewWriter(options)), ops), base)
  {
    assert Numbered(LastSeq(base), []) == [];
    assert Inv(World(base, NewWriter(options)), base);
    InvAlongRuns(World(base, NewWriter(options)), base, ops);
  }

  /** Fail-stop: after a failed append or a retirement nothing is accepted and nothing reaches the file. */
  lemma {:induction false} FailStop(world: World, base: seq<Event>, ops: seq<Op>)
    requires Inv(world, base) && world.writer.failure.failed
    ensures var after := Run(world, ops);
            && after.file == world.file && after.writer.failure.failed
            && after.writer.history.accepted == world.writer.history.accepted
            && after.writer.history.committed == world.writer.history.committed
    decreases |ops|
  {
    if ops != [] {
      hide Inv, Run;
      FailStopStep(world, base, ops[0]);
      StepKeeps(world, base, ops[0]);
      FailStop(Step(world, ops[0]), base, ops[1..]);
      RunStep(world, ops);
    }
  }

  lemma RunStep(world: World, ops: seq<Op>)
    requires ops != []
    ensures Run(world, ops) == Run(Step(world, ops[0]), ops[1..])
  {
  }

  lemma FailStopStep(world: World, base: seq<Event>, op: Op)
    requires Inv(world, base) && world.writer.failure.failed
    ensures var after := Step(world, op);
            && after.file == world.file && after.writer.failure.failed
            && after.writer.history.accepted == world.writer.history.accepted
            && after.writer.history.committed == world.writer.history.committed
  {
    hide Conserved, Counted, FileIs, SumBytes, LastSeq, Numbered;
  }

  // ---------------------------------------------------------------- order of acceptance

  /** The part of the invariant the order needs. */
  ghost predicate Sound(w: Writer) {
    && (w.entry.Some? ==> !w.failure.failed)
    && (w.failure.failed ==> w.buffer.chunks == [])
  }

  lemma OrderBegun(world: World, batch: Batch, fromQueue: bool)
    requires world.writer.entry.None? && Ordered(world.writer, batch.inputs, [])
    ensures Ordered(Begun(world, batch, fromQueue).writer, [], [])
  {
    hide SumBytes, LastSeq, QueuedInputs;
  }

  lemma OrderSubmit(world: World, extra: seq<Input>, held: bool)
    requires Sound(world.writer) && Ordered(world.writer, [], extra) && !world.writer.failure.failed
    requires held ==> world.writer.entry.None? && QueuedInputs(world.writer.queue) == []
    ensures Ordered(Submit(world, extra, held).writer, [], [])
  {
    hide SumBytes, LastSeq, QueuedInputs, Begun;
    var w := world.writer;
    var batch := Batch(w.buffer.chunks + extra, |w.buffer.chunks|, SumBytes(w.buffer.chunks));
    if held {
      OrderBegun(world.(writer := w.(buffer := w.buffer.(chunks := []))), batch, false);
    } else {
      QueuedAppend(w.queue, Commit(batch));
    }
  }

  lemma OrderFlush(world: World, held: bool)
    requires Sound(world.writer) && Ordered(world.writer, [], [])
    requires held ==> world.writer.entry.None? && QueuedInputs(world.writer.queue) == []
    ensures Ordered(FlushPending(world, held).writer, [], [])
  {
    hide Submit;
    if world.writer.buffer.chunks != [] {
      OrderSubmit(world, [], held);
    }
  }

  lemma OrderChunk(world: World, bytes: nat, held: bool)
    requires Sound(world.writer) && Ordered(world.writer, [], [])
    requires held ==> world.writer.entry.None? && QueuedInputs(world.writer.queue) == []
    ensures Ordered(AcceptChunk(world, bytes, held).writer, [], [])
  {
    hide FlushPending, QueuedInputs;
    if AcceptChunk(world, bytes, held) != world {
      OrderFlush(world.(writer := WithChunk(world.writer, Input(world.writer.acceptedCount, bytes))), held);
    }
  }

  lemma OrderNow(world: World, sizes: seq<nat>, held: bool)
    requires Sound(world.writer) && Ordered(world.writer, [], [])
    requires held ==> world.writer.entry.None? && QueuedInputs(world.writer.queue) == []
    ensures Ordered(AcceptNow(world, sizes, held).writer, [], [])
  {
    hide Submit, QueuedInputs;
    var w := world.writer;
    if AcceptNow(world, sizes, held) != world {
      var inputs := Fresh(w.acceptedCount, sizes);
      OrderSubmit(world.(writer := w.(acceptedCount := w.acceptedCount + |sizes|,
                                      history := w.history.(accepted := w.history.accepted + inputs))),
                  inputs, held);
    }
  }

  lemma OrderPopped(w: Writer)
    requires Sound(w) && Ordered(w, [], []) && w.entry.None? && w.queue != []
    ensures Ordered(w.(queue := w.queue[1..]), TaskInputs(w.queue[0]), [])
  {
  }

  lemma OrderRetire(w: Writer)
    requires w.entry.None? && Ordered(w, [], [])
    ensures Ordered(TaskDone(RetireNow(w)), [], [])
  {
    hide QueuedInputs, SumBytes;
  }

  lemma OrderEnter(world: World)
    requires Sound(world.writer) && Ordered(world.writer, [], []) && world.writer.entry.None?
        && world.writer.queue != []
    ensures Ordered(EnterHead(world).writer, [], [])
  {
    hide Begun, SumBytes, QueuedInputs, RetireNow, TaskDone;
    OrderPopped(world.writer);
    var w := world.writer.(queue := world.writer.queue[1..]);
    match world.writer.queue[0] {
      case Commit(batch) => OrderBegun(world.(writer := w), batch, true);
      case RetireTask => OrderRetire(w);
      case DrainTask =>
    }
  }

  lemma OrderSettle(world: World, ok: bool)
    requires Sound(world.writer) && Ordered(world.writer, [], []) && world.writer.entry.Some?
    ensures Ordered(SettleEntry(world, ok).writer, [], [])
  {
    hide SumBytes, Numbered, QueuedInputs;
  }

  lemma OrderQueued(w: Writer, w': Writer, task: Task)
    requires Ordered(w, [], []) && !task.Commit?
    requires w' == w.(queue := w.queue + [task], fence := w'.fence)
    ensures Ordered(w', [], [])
  {
    QueuedAppend(w.queue, task);
    hide QueuedInputs;
  }

  /** Flags and waiting counts do not touch the order. */
  lemma OrderFlags(w: Writer, w': Writer)
    requires Ordered(w, [], [])
    requires w' == w.(fence := w'.fence, draining := w'.draining, ahead := w'.ahead)
    ensures Ordered(w', [], [])
  {
    hide QueuedInputs;
  }

  lemma OrderRetiring(world: World, held: bool)
    requires Ordered(world.writer, [], []) && (held ==> world.writer.entry.None?)
    ensures Ordered(BeginRetiring(world, held).writer, [], [])
  {
    hide RetireNow, Ordered;
    var w := world.writer;
    if !w.fence.retired {
      var fenced := w.(fence := w.fence.(retiring := true));
      OrderFlags(w, fenced);
      if held {
        OrderRetire(fenced);
        OrderFlags(TaskDone(RetireNow(fenced)), RetireNow(fenced));
      } else {
        OrderQueued(w, fenced.(queue := w.queue + [RetireTask]), RetireTask);
      }
    }
  }

  lemma OrderClosing(world: World, held: bool)
    requires Sound(world.writer) && Ordered(world.writer, [], [])
    requires held ==> world.writer.entry.None? && QueuedInputs(world.writer.queue) == []
    ensures Ordered(BeginClosing(world, held).writer, [], [])
  {
    hide FlushPending, Ordered, QueuedInputs;
    var w := world.writer;
    if !w.fence.closed {
      var fenced := w.(fence := w.fence.(closing := true));
      OrderFlags(w, fenced);
      OrderFlush(world.(writer := fenced), held);
      OrderFlags(FlushPending(world.(writer := fenced), held).writer, BeginClosing(world, held).writer);
    }
  }

  lemma OrderStep(world: World, op: Op)
    requires Sound(world.writer) && Ordered(world.writer, [], []) && NoOvertaking(world.writer, op)
    ensures Ordered(Step(world, op).writer, [], [])
  {
    hide AcceptChunk, AcceptNow, FlushPending, EnterHead, SettleEntry, BeginRetiring, BeginClosing, TaskDone,
        QueuedInputs, Ordered;
    var w := world.writer;
    if Possible(w, op) {
      match op {
        case AppendChunk(bytes, held) => OrderChunk(world, bytes, held);
        case AppendNow(sizes, held) => OrderNow(world, sizes, held);
        case Flush(held) => OrderFlush(world, held);
        case Drain(held) =>
          if !held {
            OrderQueued(w, w.(queue := w.queue + [DrainTask]), DrainTask);
          }
        case Retire(held) => OrderRetiring(world, held);
        case CloseBegin(held) => OrderClosing(world, held);
        case Enter => OrderEnter(world);
        case Settle(ok) => OrderSettle(world, ok);
        case DrainDone => OrderDone(w);
        case _ => OrderFlags(w, Step(world, op).writer);
      }
    }
  }

  lemma OrderDone(w: Writer)
    requires Ordered(w, [], [])
    ensures Ordered(TaskDone(w.(draining := false)), [], [])
  {
    hide QueuedInputs;
  }

  /** While lock holders append only when no commit is queued, the file follows the order of acceptance. */
  lemma {:induction false} OrderAlongRuns(world: World, base: seq<Event>, ops: seq<Op>)
    requires Inv(world, base) && Ordered(world.writer, [], []) && NoOvertakingRun(world, ops)
    ensures Ordered(Run(world, ops).writer, [], [])
    decreases |ops|
  {
    hide Step, Ordered;
    if ops != [] {
      OrderStep(world, ops[0]);
      StepKeeps(world, base, ops[0]);
      OrderAlongRuns(Step(world, ops[0]), base, ops[1..]);
    }
  }

  /** An append is never in the file before everything accepted earlier, and the file is the base followed by a
      prefix. */
  lemma CommittedMeansAllEarlier(options: Options, base: seq<Event>, ops: seq<Op>, later: Input, earlier: Input)
    requires NoOvertakingRun(World(base, NewWriter(options)), ops)
    requires var history := Run(World(base, NewWriter(options)), ops).writer.history;
             later in history.committed && earlier in history.accepted && earlier.tag <= later.tag
    ensures var after := Run(World(base, NewWriter(options)), ops);
            && earlier in after.writer.history.committed
            && after.writer.history.committed <= after.writer.history.accepted
            && after.file == base + Numbered(LastSeq(base),
                                             after.writer.history.accepted[..|after.writer.history.committed|])
  {
    hide Run, NoOvertakingRun;
    NothingIsLostSilently(options, base, []);
    NothingIsLostSilently(options, base, ops);
    EmptyRun(World(base, NewWriter(options)));
    assert Ordered(NewWriter(options), [], []);
    OrderAlongRuns(World(base, NewWriter(options)), base, ops);
    var history := Run(World(base, NewWriter(options)), ops).writer.history;
    assert history.committed <= history.accepted;
    assert history.accepted[..|history.committed|] == history.committed;
    var i :| 0 <= i < |history.committed| && history.committed[i] == later;
    var j :| 0 <= j < |history.accepted| && history.accepted[j] == earlier;
    assert history.accepted[i].tag == i;
    assert history.committed[j] == earlier;
  }

  lemma EmptyRun(world: World)
    ensures Run(world, []) == world
  {
  }

  /** What a lock holder's append does to the order: it is kept exactly when no commit is queued. */
  lemma HolderOvertakesIffCommitsAreQueued(world: World, base: seq<Event>, sizes: seq<nat>)
    requires Inv(world, base) && Ordered(world.writer, [], [])
    requires Open(world.writer) && !world.writer.failure.failed && world.writer.entry.None? && sizes != []
    ensures var after := Step(Step(world, AppendNow(sizes, true)), Settle(true)).writer.history;
            after.committed <= after.accepted <==> QueuedInputs(world.writer.queue) == []
  {
    hide Conserved, Counted, FileIs, QueuedInputs, SumBytes, LastSeq, Numbered;
    var w := world.writer;
    var mine := w.buffer.chunks + Fresh(w.acceptedCount, sizes);
    var after := Step(Step(world, AppendNow(sizes, true)), Settle(true)).writer.history;
    var queued := QueuedInputs(w.queue);
    assert after.committed == w.history.committed + mine;
    assert after.accepted == w.history.committed + queued + mine;
    if queued != [] {
      var n := |w.history.committed|;
      assert after.accepted[n] == queued[0] == w.history.accepted[n];
      assert after.accepted[n + |queued|] == mine[0] == after.committed[n];
      assert mine[0].tag == n + |queued| by {
        if w.buffer.chunks != [] {
          assert w.history.accepted[n + |queued|] == mine[0];
        }
      }
    }
  }
}
