/** What a writer does for its callers: which inputs it accepts, where they go, and that a flush, a retirement and a
    close come to their end (electron/sessionEvents.ts). */
module WriterService {
  import opened Json
  import opened Writer
  import opened WriterRuns

  // ---------------------------------------------------------------- acceptance

  /** Neither retiring nor closing, and no append has failed. */
  predicate Accepting(w: Writer) {
    !w.fence.retiring && !w.fence.retired && !w.fence.closing && !w.fence.closed && !w.failure.failed
  }

  /** One more chunk of this size stays within the hard limits. */
  predicate Fits(w: Writer, bytes: nat) {
    w.buffer.count + 1 <= w.options.hardPendingEvents && w.buffer.bytes + bytes <= w.options.hardPendingBytes
  }

  /** With one more chunk of this size the batch limits are reached. */
  predicate Fills(w: Writer, bytes: nat) {
    |w.buffer.chunks| + 1 >= w.options.maxBatchEvents || w.buffer.bytes + bytes >= w.options.maxBatchBytes
  }

  /** Everything in `inputs` is on its way: in a commit behind everything queued before, or in flight for a lock
      holder. */
  predicate Submitted(w: Writer, w': Writer, inputs: seq<Input>, held: bool) {
    && w'.buffer.chunks == []
    && (held ==> w'.queue == w.queue && w'.entry.Some? && w'.entry.value.inputs == inputs)
    && (!held ==>
          && w'.entry == w.entry && |w'.queue| == |w.queue| + 1 && w'.queue[..|w.queue|] == w.queue
          && w'.queue[|w.queue|].Commit? && w'.queue[|w.queue|].batch.inputs == inputs)
  }

  /** A chunk is accepted exactly when the writer is open and healthy and the chunk fits. It is buffered behind the
      others, and when a batch limit is reached all of them are submitted; a refused chunk changes nothing. */
  lemma ChunkAcceptedIff(world: World, bytes: nat, held: bool)
    requires Possible(world.writer, AppendChunk(bytes, held))
    ensures var w, after := world.writer, Step(world, AppendChunk(bytes, held));
            var input := Input(w.acceptedCount, bytes);
            && after.file == world.file
            && (!(Accepting(w) && Fits(w, bytes)) ==> after == world)
            && (Accepting(w) && Fits(w, bytes) ==>
                  && after.writer.acceptedCount == w.acceptedCount + 1
                  && after.writer.history.accepted == w.history.accepted + [input]
                  && after.writer.buffer.count == w.buffer.count + 1
                  && after.writer.buffer.bytes == w.buffer.bytes + bytes
                  && (if Fills(w, bytes) then Submitted(w, after.writer, w.buffer.chunks + [input], held)
                      else after.writer.buffer.chunks == w.buffer.chunks + [input]
                           && after.writer.queue == w.queue && after.writer.entry == w.entry))
  {
    hide SumBytes, LastSeq;
  }

  /** The inputs of a critical append or a batch are accepted exactly when there are some and the writer is open and
      healthy; they are submitted at once, behind everything buffered before them. */
  lemma NowAcceptedIff(world: World, sizes: seq<nat>, held: bool)
    requires Possible(world.writer, AppendNow(sizes, held))
    ensures var w, after := world.writer, Step(world, AppendNow(sizes, held));
            && after.file == world.file
            && (!(Accepting(w) && sizes != []) ==> after == world)
            && (Accepting(w) && sizes != [] ==>
                  && after.writer.acceptedCount == w.acceptedCount + |sizes|
                  && |after.writer.history.accepted| == |w.history.accepted| + |sizes|
                  && after.writer.history.accepted[..|w.history.accepted|] == w.history.accepted
                  && var inputs := after.writer.history.accepted[|w.history.accepted|..];
                  && (forall i | 0 <= i < |sizes| :: inputs[i] == Input(w.acceptedCount + i, sizes[i]))
                  && Submitted(w, after.writer, w.buffer.chunks + inputs, held))
  {
    hide SumBytes, LastSeq;
    var w, after := world.writer, Step(world, AppendNow(sizes, held));
    if Accepting(w) && sizes != [] {
      var inputs := Fresh(w.acceptedCount, sizes);
      assert after.writer.history.accepted == w.history.accepted + inputs;
      assert after.writer.history.accepted[|w.history.accepted|..] == inputs;
    }
  }

  /** A flush submits what is buffered, if anything, and nothing else. */
  lemma FlushSubmits(world: World, held: bool)
    requires Possible(world.writer, Flush(held)) && !world.writer.failure.failed
    ensures var w, after := world.writer, Step(world, Flush(held));
            && after.file == world.file && after.writer.history == w.history
            && (if w.buffer.chunks == [] then after == world
                else Submitted(w, after.writer, w.buffer.chunks, held))
  {
    hide SumBytes, LastSeq;
  }

  // ---------------------------------------------------------------- the chain goes on

  /** The next step of the chain when every append succeeds and every drain ends. */
  function Next(w: Writer): Option<Op> {
    if w.entry.Some? then Some(Settle(true))
    else if w.draining then Some(DrainDone)
    else if w.queue != [] then Some(Enter)
    else None
  }

  /** Steps the chain still has to take. */
  function Todo(w: Writer): nat {
    2 * |w.queue| + (if w.entry.Some? then 1 else 0) + (if w.draining then 1 else 0)
  }

  /** The chain run to its end. */
  function Served(world: World): World
    decreases Todo(world.writer)
  {
    var next := Next(world.writer);
    if next.None? then world
    else
      ServingAdvances(world);
      Served(Step(world, next.value))
  }

  lemma ServingAdvances(world: World)
    requires Next(world.writer).Some?
    ensures Possible(world.writer, Next(world.writer).value)
    ensures Todo(Step(world, Next(world.writer).value).writer) < Todo(world.writer)
  {
    hide SumBytes, LastSeq, Numbered;
  }

  predicate NoRetirement(queue: seq<Task>) {
    forall i | 0 <= i < |queue| :: !queue[i].RetireTask?
  }

  lemma ServingKeepsHealth(world: World)
    requires Next(world.writer).Some? && !world.writer.failure.failed && NoRetirement(world.writer.queue)
    ensures var w' := Step(world, Next(world.writer).value).writer;
            && !w'.failure.failed && NoRetirement(w'.queue) && w'.buffer.chunks == world.writer.buffer.chunks
            && w'.history.accepted == world.writer.history.accepted
  {
    hide SumBytes, LastSeq, Numbered;
  }

  /** When every append of the chain succeeds, it ends with everything it held written. */
  lemma {:induction false} ChainWritesAll(world: World, base: seq<Event>)
    requires Inv(world, base) && !world.writer.failure.failed && NoRetirement(world.writer.queue)
    ensures var end := Served(world);
            && Inv(end, base) && !end.writer.failure.failed && end.writer.queue == [] && end.writer.entry.None?
            && end.writer.history.accepted == world.writer.history.accepted
            && end.writer.buffer.chunks == world.writer.buffer.chunks
    decreases Todo(world.writer)
  {
    hide Inv, Step, NoRetirement;
    if Next(world.writer).Some? {
      var op := Next(world.writer).value;
      ServingAdvances(world);
      ServingKeepsHealth(world);
      StepKeeps(world, base, op);
      ChainWritesAll(Step(world, op), base);
    }
  }

  /** The barrier is reached: after a flush, the chain ends with every accepted input in the file, each once, behind
      what the file held before, and nothing pending. */
  lemma FlushWritesAll(world: World, base: seq<Event>)
    requires Inv(world, base) && !world.writer.failure.failed && NoRetirement(world.writer.queue)
    ensures var end := Served(Step(world, Flush(false)));
            && multiset(end.writer.history.committed) == multiset(world.writer.history.accepted)
            && end.file == base + Numbered(LastSeq(base), end.writer.history.committed)
            && end.writer.buffer.count == 0 && end.writer.buffer.bytes == 0
  {
    hide Served;
    FlushSubmits(world, false);
    StepKeeps(world, base, Flush(false));
    var flushed := Step(world, Flush(false));
    FlushedHealthy(world);
    hide Step;
    ChainWritesAll(flushed, base);
    Emptied(Served(flushed), base);
  }

  lemma FlushedHealthy(world: World)
    requires !world.writer.failure.failed && NoRetirement(world.writer.queue)
    ensures var w' := Step(world, Flush(false)).writer;
            !w'.failure.failed && NoRetirement(w'.queue) && w'.buffer.chunks == []
  {
    hide SumBytes, LastSeq;
  }

  lemma Emptied(world: World, base: seq<Event>)
    requires Inv(world, base) && !world.writer.failure.failed
    requires world.writer.queue == [] && world.writer.entry.None? && world.writer.buffer.chunks == []
    ensures multiset(world.writer.history.committed) == multiset(world.writer.history.accepted)
    ensures world.file == base + Numbered(LastSeq(base), world.writer.history.committed)
    ensures world.writer.buffer.count == 0 && world.writer.buffer.bytes == 0
  {
  }

  // ---------------------------------------------------------------- retirement and close

  predicate Retiring(w: Writer) {
    w.fence.retired || (w.fence.retiring && exists i | 0 <= i < |w.queue| :: w.queue[i].RetireTask?)
  }

  lemma RetiringStays(world: World)
    requires Next(world.writer).Some? && Retiring(world.writer)
    ensures Retiring(Step(world, Next(world.writer).value).writer)
  {
    hide SumBytes, LastSeq, Numbered;
    var w := world.writer;
    if Next(w) == Some(Enter) && !w.fence.retired {
      var i :| 0 <= i < |w.queue| && w.queue[i].RetireTask?;
      if i > 0 {
        assert w.queue[1..][i - 1].RetireTask?;
      }
    }
  }

  lemma {:induction false} ServedRetires(world: World)
    requires Retiring(world.writer)
    ensures Served(world).writer.fence.retired && Next(Served(world).writer).None?
    decreases Todo(world.writer)
  {
    hide Step;
    if Next(world.writer).Some? {
      ServingAdvances(world);
      RetiringStays(world);
      ServedRetires(Step(world, Next(world.writer).value));
    }
  }

  /** A retirement refuses everything from its first moment on, and once the chain has ended the writer is retired; a
      lock holder retires it at once. */
  lemma RetirementComes(world: World, held: bool)
    requires Possible(world.writer, Retire(held)) && (world.writer.fence.retired ==> world.writer.failure.failed)
    ensures !Accepting(Step(world, Retire(held)).writer)
    ensures held ==> Step(world, Retire(held)).writer.fence.retired
    ensures Served(Step(world, Retire(held))).writer.fence.retired
  {
    hide Served, SumBytes, LastSeq;
    var w, w' := world.writer, Step(world, Retire(held)).writer;
    if !held && !w.fence.retired {
      assert w'.queue[|w.queue|] == RetireTask;
    }
    ServedRetires(Step(world, Retire(held)));
  }

  /** How many tasks a running close waits for covers at most what the chain still has to do. */
  predicate Awaited(w: Writer) {
    w.ahead.Some? && w.ahead.value <= |w.queue| + if Waits(w) then 1 else 0
  }

  lemma AwaitedStays(world: World)
    requires Next(world.writer).Some? && Awaited(world.writer) && !(world.writer.entry.Some? && world.writer.fromQueue
                                                                    && world.writer.draining)
    ensures var w' := Step(world, Next(world.writer).value).writer;
            Awaited(w') && !(w'.entry.Some? && w'.fromQueue && w'.draining)
  {
    hide SumBytes, LastSeq, Numbered;
  }

  lemma {:induction false} ServedCloses(world: World)
    requires Awaited(world.writer)
    requires !(world.writer.entry.Some? && world.writer.fromQueue && world.writer.draining)
    ensures Served(world).writer.ahead == Some(0)
    decreases Todo(world.writer)
  {
    hide Step;
    if Next(world.writer).Some? {
      ServingAdvances(world);
      AwaitedStays(world);
      ServedCloses(Step(world, Next(world.writer).value));
    }
  }

  /** A close refuses everything from its first moment on, and once the chain has ended it can end too. */
  lemma CloseComes(world: World, held: bool)
    requires Possible(world.writer, CloseBegin(held)) && !world.writer.fence.closed
    requires !(world.writer.entry.Some? && world.writer.fromQueue && world.writer.draining)
    ensures !Accepting(Step(world, CloseBegin(held)).writer)
    ensures Served(Step(world, CloseBegin(held))).writer.ahead == Some(0)
  {
    hide Served, SumBytes, LastSeq;
    ServedCloses(Step(world, CloseBegin(held)));
  }
}
