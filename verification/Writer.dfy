/** The single writer of one event file: buffered chunks, the commit queue, fail-stop, retire and close
    (electron/sessionEvents.ts). A method is one uninterrupted stretch of the event loop. */
module Writer {
  import opened Json

  datatype Options = Options(hardPendingEvents: nat, hardPendingBytes: nat, maxBatchEvents: nat, maxBatchBytes: nat)

  /** An input object; `tag` is its identity, the position at which this writer accepted it. */
  datatype Input = Input(tag: nat, bytes: nat)

  datatype Event = Event(seqNo: nat, input: Input)

  /** The first `chunkCount` inputs come from the chunk buffer. */
  datatype Batch = Batch(inputs: seq<Input>, chunkCount: nat, chunkBytes: nat)

  datatype Task = Commit(batch: Batch) | RetireTask | DrainTask

  /** `pendingChunks`; the two counters also cover the chunks already on their way to the file. */
  datatype Buffer = Buffer(chunks: seq<Input>, count: nat, bytes: nat)

  datatype Failure = Failure(failed: bool, lostEvents: nat, lostBytes: nat)

  datatype Fence = Fence(retiring: bool, retired: bool, closing: bool, closed: bool)

  datatype Writer = Writer(
    options: Options,
    seqNo: nat,
    initialized: bool,
    buffer: Buffer,
    /** Tasks of the promise chain that have not got the lifecycle lock yet. */
    queue: seq<Task>,
    /** The task at the head of the chain is a lifecycle drain and holds the lock. */
    draining: bool,
    /** The batch whose append is in flight under the lock, and whether it came through the chain. */
    entry: Option<Batch>,
    fromQueue: bool,
    failure: Failure,
    fence: Fence,
    /** How many tasks of the chain a running `close` still waits for, the one that ends first when there are
        several. */
    ahead: Option<nat>,
    acceptedCount: nat,
    history: History)

  /** What happened to the inputs, kept only to speak about it. */
  datatype History = History(accepted: seq<Input>, committed: seq<Input>, lost: seq<Input>)

  datatype World = World(file: seq<Event>, writer: Writer)

  /** `held` says that the caller holds the lifecycle lock of the location. */
  datatype Op =
    | AppendChunk(bytes: nat, held: bool)
    | AppendNow(sizes: seq<nat>, held: bool)
    | Flush(held: bool)
    | Drain(held: bool)
    | Retire(held: bool)
    | CloseBegin(held: bool)
    | CloseEnd
    | BeginShutdown
    | Enter
    | Settle(ok: bool)
    | DrainDone

  function SumBytes(inputs: seq<Input>): nat {
    if inputs == [] then 0 else SumBytes(inputs[..|inputs| - 1]) + inputs[|inputs| - 1].bytes
  }

  function Max(a: nat, b: nat): nat {
    if a < b then b else a
  }

  function Min(a: nat, b: nat): nat {
    if a < b then a else b
  }

  /** The highest sequence number in the file, 0 for an empty one. */
  function LastSeq(file: seq<Event>): nat {
    if file == [] then 0 else Max(LastSeq(file[..|file| - 1]), file[|file| - 1].seqNo)
  }

  function Numbered(last: nat, inputs: seq<Input>): (events: seq<Event>)
    ensures |events| == |inputs|
  {
    seq(|inputs|, i requires 0 <= i < |inputs| => Event(last + i + 1, inputs[i]))
  }

  /** New inputs of the given sizes, continuing the identities. */
  function Fresh(from: nat, sizes: seq<nat>): (inputs: seq<Input>)
    ensures |inputs| == |sizes|
  {
    seq(|sizes|, i requires 0 <= i < |sizes| => Input(from + i, sizes[i]))
  }

  const OPEN := Fence(false, false, false, false)

  predicate Open(w: Writer) {
    w.fence == OPEN
  }

  function Minus(a: nat, b: nat): nat {
    if a < b then 0 else a - b
  }

  // ---------------------------------------------------------------- steps

  /** A task of the chain ends. */
  function TaskDone(w: Writer): Writer {
    w.(ahead := if w.ahead.Some? then Some(Minus(w.ahead.value, 1)) else None)
  }

  /** Fail-stop: the batch and the chunk buffer are lost together. */
  function Lose(w: Writer, batch: Batch): Writer {
    var gone := batch.inputs + w.buffer.chunks;
    w.(history := w.history.(lost := w.history.lost + gone),
       failure := Failure(true, w.failure.lostEvents + |gone|, w.failure.lostBytes + SumBytes(gone)),
       buffer := Buffer([], 0, 0))
  }

  /** A batch gets the lock: it is lost when the writer has failed, otherwise its append starts. */
  function Begun(world: World, batch: Batch, fromQueue: bool): World {
    var w := world.writer;
    if w.failure.failed then world.(writer := if fromQueue then TaskDone(Lose(w, batch)) else Lose(w, batch))
    else world.(writer := w.(seqNo := if w.initialized then w.seqNo else LastSeq(world.file), initialized := true,
                             entry := Some(batch), fromQueue := fromQueue))
  }

  /** `enqueueCommit` of the chunk buffer followed by `extra`: through the chain, or at once for a lock holder. */
  function Submit(world: World, extra: seq<Input>, held: bool): World {
    var w := world.writer;
    var batch := Batch(w.buffer.chunks + extra, |w.buffer.chunks|, SumBytes(w.buffer.chunks));
    var taken := w.(buffer := w.buffer.(chunks := []));
    if held then Begun(world.(writer := taken), batch, false)
    else world.(writer := taken.(queue := w.queue + [Commit(batch)]))
  }

  function FlushPending(world: World, held: bool): World {
    if world.writer.buffer.chunks == [] then world else Submit(world, [], held)
  }

  /** The retirement itself, under the lock. */
  function RetireNow(w: Writer): Writer {
    if w.fence.retired then w
    else w.(fence := w.fence.(retired := true), history := w.history.(lost := w.history.lost + w.buffer.chunks),
            failure := Failure(true, w.failure.lostEvents + |w.buffer.chunks|,
                               w.failure.lostBytes + SumBytes(w.buffer.chunks)),
            buffer := w.buffer.(chunks := []))
  }

  function SettleEntry(world: World, ok: bool): World
    requires world.writer.entry.Some?
  {
    var w := world.writer;
    var batch := w.entry.value;
    var settled :=
      if ok then
        w.(entry := None, seqNo := w.seqNo + |batch.inputs|,
           history := w.history.(committed := w.history.committed + batch.inputs),
           buffer := w.buffer.(count := Minus(w.buffer.count, batch.chunkCount),
                               bytes := Minus(w.buffer.bytes, batch.chunkBytes)))
      else Lose(w.(entry := None), batch);
    World(if ok then world.file + Numbered(w.seqNo, batch.inputs) else world.file,
          if w.fromQueue then TaskDone(settled) else settled)
  }

  predicate Waits(w: Writer) {
    w.draining || (w.entry.Some? && w.fromQueue)
  }

  /** A lock holder's own commits do not overlap, and the chain enters the lock one task at a time. */
  predicate Possible(w: Writer, op: Op) {
    match op
    case AppendChunk(_, held) => held ==> w.entry.None?
    case AppendNow(_, held) => held ==> w.entry.None?
    case Flush(held) => held ==> w.entry.None?
    case Drain(_) => true
    case Retire(held) => held ==> w.entry.None?
    case CloseBegin(held) => held ==> w.entry.None?
    case CloseEnd => w.ahead == Some(0) && !w.fence.closed
    case BeginShutdown => true
    case Enter => w.entry.None? && !w.draining && w.queue != []
    case Settle(_) => w.entry.Some?
    case DrainDone => w.draining && w.entry.None?
  }

  function AcceptChunk(world: World, bytes: nat, held: bool): World {
    var w := world.writer;
    if !Open(w) || w.failure.failed || w.buffer.count + 1 > w.options.hardPendingEvents
       || w.buffer.bytes + bytes > w.options.hardPendingBytes then world
    else
      var input := Input(w.acceptedCount, bytes);
      var added := w.(acceptedCount := w.acceptedCount + 1,
                      history := w.history.(accepted := w.history.accepted + [input]),
                      buffer := Buffer(w.buffer.chunks + [input], w.buffer.count + 1, w.buffer.bytes + bytes));
      if |added.buffer.chunks| >= w.options.maxBatchEvents || added.buffer.bytes >= w.options.maxBatchBytes
      then FlushPending(world.(writer := added), held) else world.(writer := added)
  }

  function AcceptNow(world: World, sizes: seq<nat>, held: bool): World {
    var w := world.writer;
    if sizes == [] || !Open(w) || w.failure.failed then world
    else
      var inputs := Fresh(w.acceptedCount, sizes);
      Submit(world.(writer := w.(acceptedCount := w.acceptedCount + |sizes|,
                                 history := w.history.(accepted := w.history.accepted + inputs))), inputs, held)
  }

  function EnterHead(world: World): World
    requires world.writer.queue != []
  {
    var w := world.writer.(queue := world.writer.queue[1..]);
    match world.writer.queue[0]
    case Commit(batch) => Begun(world.(writer := w), batch, true)
    case RetireTask => world.(writer := TaskDone(RetireNow(w)))
    case DrainTask => world.(writer := w.(draining := true))
  }

  function BeginClosing(world: World, held: bool): World {
    var w := world.writer;
    if w.fence.closed then world
    else
      var flushed := FlushPending(world.(writer := w.(fence := w.fence.(closing := true))), held);
      var tasks := if held then 0 else |flushed.writer.queue| + if Waits(flushed.writer) then 1 else 0;
      var before := flushed.writer.ahead;
      flushed.(writer := flushed.writer.(ahead := Some(if before.Some? then Min(before.value, tasks) else tasks)))
  }

  function BeginRetiring(world: World, held: bool): World {
    var w := world.writer;
    if w.fence.retired then world
    else if held then world.(writer := RetireNow(w.(fence := w.fence.(retiring := true))))
    else world.(writer := w.(fence := w.fence.(retiring := true), queue := w.queue + [RetireTask]))
  }

  function Step(world: World, op: Op): World {
    var w := world.writer;
    if !Possible(w, op) then world
    else match op
      case AppendChunk(bytes, held) => AcceptChunk(world, bytes, held)
      case AppendNow(sizes, held) => AcceptNow(world, sizes, held)
      case Flush(held) => FlushPending(world, held)
      case Drain(held) => if held then world else world.(writer := w.(queue := w.queue + [DrainTask]))
      case Retire(held) => BeginRetiring(world, held)
      case CloseBegin(held) => BeginClosing(world, held)
      case CloseEnd => world.(writer := w.(fence := w.fence.(closed := true)))
      case BeginShutdown => world.(writer := w.(fence := w.fence.(closing := true)))
      case Enter => EnterHead(world)
      case Settle(ok) => SettleEntry(world, ok)
      case DrainDone => world.(writer := TaskDone(w.(draining := false)))
  }

  function Run(world: World, ops: seq<Op>): World
    decreases |ops|
  {
    if ops == [] then world else Run(Step(world, ops[0]), ops[1..])
  }

  function NewWriter(options: Options): Writer {
    Writer(options, 0, false, Buffer([], 0, 0), [], false, None, false, Failure(false, 0, 0), OPEN, None, 0,
           History([], [], []))
  }

  // ---------------------------------------------------------------- the object

  class EventFile {
    var events: seq<Event>
  }

  class SessionEventWriter {
    const options: Options
    const file: EventFile
    var seqNo: nat
    var initialized: bool
    var buffer: Buffer
    var queue: seq<Task>
    var draining: bool
    var entry: Option<Batch>
    var fromQueue: bool
    var failure: Failure
    var fence: Fence
    var ahead: Option<nat>
    var acceptedCount: nat
    ghost var history: History

    ghost function State(): World
      reads this, file
    {
      World(file.events,
            Writer(options, seqNo, initialized, buffer, queue, draining, entry, fromQueue, failure, fence, ahead,
                   acceptedCount, history))
    }

    constructor (options: Options, file: EventFile)
      ensures this.file == file && State() == World(file.events, NewWriter(options))
    {
      this.options, this.file := options, file;
      seqNo, initialized, buffer := 0, false, Buffer([], 0, 0);
      queue, draining, entry, fromQueue := [], false, None, false;
      failure, fence, ahead := Failure(false, 0, 0), OPEN, None;
      acceptedCount, history := 0, History([], [], []);
    }

    method BytesOf(inputs: seq<Input>) returns (total: nat)
      ensures total == SumBytes(inputs)
    {
      total := 0;
      for i := 0 to |inputs|
        invariant total == SumBytes(inputs[..i])
      {
        assert inputs[..i + 1][..i] == inputs[..i];
        total := total + inputs[i].bytes;
      }
      assert inputs[..|inputs|] == inputs;
    }

    method TakePendingChunks() returns (batch: Batch)
      modifies this
      ensures State() == old(State().(writer := State().writer.(buffer := State().writer.buffer.(chunks := []))))
      ensures batch == Batch(old(buffer.chunks), |old(buffer.chunks)|, SumBytes(old(buffer.chunks)))
    {
      var bytes := BytesOf(buffer.chunks);
      batch := Batch(buffer.chunks, |buffer.chunks|, bytes);
      buffer := buffer.(chunks := []);
    }

    method FailStop(batch: Batch)
      modifies this
      ensures State() == old(State().(writer := Lose(State().writer, batch)))
    {
      hide SumBytes;
      var gone := batch.inputs + buffer.chunks;
      var bytes := BytesOf(gone);
      failure := Failure(true, failure.lostEvents + |gone|, failure.lostBytes + bytes);
      history := history.(lost := history.lost + gone);
      buffer := Buffer([], 0, 0);
    }

    method FinishTask()
      modifies this
      ensures State() == old(State().(writer := TaskDone(State().writer)))
    {
      if ahead.Some? && ahead.value > 0 {
        ahead := Some(ahead.value - 1);
      }
    }

    /** `initialize`: the sequence counter continues from the highest number in the file. */
    method EnsureInitialized()
      modifies this
      ensures State()
          == old(State().(writer := State().writer.(seqNo := if initialized then seqNo
                                                    else LastSeq(file.events), initialized := true)))
    {
      if initialized {
        return;
      }
      var highest: nat := 0;
      for i := 0 to |file.events|
        invariant highest == LastSeq(file.events[..i])
        invariant State() == old(State())
      {
        assert file.events[..i + 1][..i] == file.events[..i];
        highest := Max(highest, file.events[i].seqNo);
      }
      assert file.events[..|file.events|] == file.events;
      seqNo, initialized := highest, true;
    }

    method BeginCommit(batch: Batch, fromQueue: bool)
      modifies this
      ensures State() == Begun(old(State()), batch, fromQueue)
    {
      if failure.failed {
        FailStop(batch);
        if fromQueue {
          FinishTask();
        }
        return;
      }
      EnsureInitialized();
      entry, this.fromQueue := Some(batch), fromQueue;
    }

    method EnqueueCommit(batch: Batch, held: bool)
      modifies this
      ensures held ==> State() == Begun(old(State()), batch, false)
      ensures !held ==>
          State() == old(State().(writer := State().writer.(queue := State().writer.queue + [Commit(batch)])))
    {
      if held {
        BeginCommit(batch, false);
      } else {
        queue := queue + [Commit(batch)];
      }
    }

    method FlushPendingChunks(held: bool)
      modifies this
      ensures State() == FlushPending(old(State()), held)
    {
      if buffer.chunks != [] {
        var batch := TakePendingChunks();
        assert batch.inputs == old(buffer.chunks) + [];
        EnqueueCommit(batch, held);
      }
    }

    method AppendChunk(bytes: nat, held: bool) returns (accepting: bool)
      requires Possible(State().writer, Op.AppendChunk(bytes, held))
      modifies this
      ensures State() == Step(old(State()), Op.AppendChunk(bytes, held))
      ensures accepting <==> old(fence == OPEN && !failure.failed && buffer.count + 1 <= options.hardPendingEvents
                                 && buffer.bytes + bytes <= options.hardPendingBytes)
      ensures acceptedCount == old(acceptedCount) + if accepting then 1 else 0
    {
      hide SumBytes, LastSeq;
      if fence != OPEN || failure.failed || buffer.count + 1 > options.hardPendingEvents
          || buffer.bytes + bytes > options.hardPendingBytes {
        return false;
      }
      var input := Input(acceptedCount, bytes);
      buffer := Buffer(buffer.chunks + [input], buffer.count + 1, buffer.bytes + bytes);
      acceptedCount, history := acceptedCount + 1, history.(accepted := history.accepted + [input]);
      if |buffer.chunks| >= options.maxBatchEvents || buffer.bytes >= options.maxBatchBytes {
        FlushPendingChunks(held);
      }
      return true;
    }

    /** `appendCritical` for one input, `appendBatch` for several: a barrier behind everything buffered before. */
    method AppendNow(sizes: seq<nat>, held: bool) returns (accepting: bool)
      requires Possible(State().writer, Op.AppendNow(sizes, held))
      modifies this
      ensures State() == Step(old(State()), Op.AppendNow(sizes, held))
      ensures accepting <==> old(sizes != [] && fence == OPEN && !failure.failed)
      ensures acceptedCount == old(acceptedCount) + if accepting then |sizes| else 0
    {
      if sizes == [] || fence != OPEN || failure.failed {
        return false;
      }
      var inputs := Fresh(acceptedCount, sizes);
      acceptedCount, history := acceptedCount + |sizes|, history.(accepted := history.accepted + inputs);
      var earlier := TakePendingChunks();
      EnqueueCommit(Batch(earlier.inputs + inputs, |earlier.inputs|, earlier.chunkBytes), held);
      return true;
    }

    /** `flush`, the flush timer, `waitForCapacity` and `drainAcceptedCommits`. */
    method Flush(held: bool)
      requires Possible(State().writer, Op.Flush(held))
      modifies this
      ensures State() == Step(old(State()), Op.Flush(held))
    {
      FlushPendingChunks(held);
    }

    method WithLifecycleDrain(held: bool)
      modifies this
      ensures State() == Step(old(State()), Op.Drain(held))
    {
      if !held {
        queue := queue + [DrainTask];
      }
    }

    method RetireUnderLock()
      modifies this
      ensures State() == old(State().(writer := RetireNow(State().writer)))
    {
      hide SumBytes;
      if !fence.retired {
        var pending := TakePendingChunks();
        fence := fence.(retired := true);
        failure := Failure(true, failure.lostEvents + |pending.inputs|, failure.lostBytes + pending.chunkBytes);
        history := history.(lost := history.lost + pending.inputs);
      }
    }

    method Retire(held: bool)
      requires Possible(State().writer, Op.Retire(held))
      modifies this
      ensures State() == Step(old(State()), Op.Retire(held))
    {
      if fence.retired {
        return;
      }
      fence := fence.(retiring := true);
      if held {
        RetireUnderLock();
      } else {
        queue := queue + [RetireTask];
      }
    }

    method CloseBegin(held: bool)
      requires Possible(State().writer, Op.CloseBegin(held))
      modifies this
      ensures State() == Step(old(State()), Op.CloseBegin(held))
    {
      hide SumBytes, LastSeq, FlushPending;
      if fence.closed {
        return;
      }
      fence := fence.(closing := true);
      FlushPendingChunks(held);
      var tasks := if held then 0 else |queue| + if draining || (entry.Some? && fromQueue) then 1 else 0;
      ahead := Some(if ahead.Some? then Min(ahead.value, tasks) else tasks);
    }

    method CloseEnd()
      requires Possible(State().writer, Op.CloseEnd)
      modifies this
      ensures State() == Step(old(State()), Op.CloseEnd)
    {
      fence := fence.(closed := true);
    }

    method BeginShutdown()
      modifies this
      ensures State() == Step(old(State()), Op.BeginShutdown)
    {
      fence := fence.(closing := true);
    }

    /** The head of the chain gets the lifecycle lock. */
    method EnterHead()
      requires Possible(State().writer, Op.Enter)
      modifies this
      ensures State() == Step(old(State()), Op.Enter)
    {
      var task := queue[0];
      queue := queue[1..];
      match task {
        case Commit(batch) => BeginCommit(batch, true);
        case RetireTask =>
          RetireUnderLock();
          FinishTask();
        case DrainTask => draining := true;
      }
    }

    /** The append in flight succeeds or fails as a whole. */
    method Settle(ok: bool)
      requires Possible(State().writer, Op.Settle(ok))
      modifies this, file
      ensures State() == Step(old(State()), Op.Settle(ok))
    {
      hide SumBytes, Numbered, Lose, TaskDone;
      var batch := entry.value;
      var chained := fromQueue;
      entry := None;
      if ok {
        file.events := file.events + Numbered(seqNo, batch.inputs);
        seqNo := seqNo + |batch.inputs|;
        buffer := buffer.(count := Minus(buffer.count, batch.chunkCount),
                          bytes := Minus(buffer.bytes, batch.chunkBytes));
        history := history.(committed := history.committed + batch.inputs);
      } else {
        FailStop(batch);
      }
      if chained {
        FinishTask();
      }
    }

    method DrainDone()
      requires Possible(State().writer, Op.DrainDone)
      modifies this
      ensures State() == Step(old(State()), Op.DrainDone)
    {
      draining := false;
      FinishTask();
    }
  }
}
