/** The three-event compaction transaction and the fold that replays it (electron/sessionEvents.ts,
    src/shared/compactionEvents.ts). */
module CompactionTransaction {
  import opened Json

  datatype Kind = Start | Summary | End | OtherKind

  /** `supported` is false for an event of an unknown or newer schema. */
  datatype Event = Event(seqNo: nat, kind: Kind, payload: Payload, supported: bool)

  type Log = seq<Event>

  /** The digest of a candidate; any function. */
  type Hash = Json -> string

  // ---------------------------------------------------------------- JavaScript comparisons

  /** `===` on values that were parsed separately: objects and arrays are never the same. */
  predicate StrictlyEqual(a: Option<Json>, b: Option<Json>) {
    a == b && (a.Some? ==> !a.value.Obj? && !a.value.Arr?)
  }

  predicate NullOrAbsent(v: Option<Json>) {
    v.None? || v.value.Null?
  }

  // ---------------------------------------------------------------- the fold

  datatype Committed = Committed(start: Event, summary: Event, end: Event)

  datatype Replay = Replay(starts: map<string, Event>, summaries: map<string, Event>, committed: map<string, Committed>)

  predicate ValidShadowRanges(payload: Payload) {
    var ranges := Field(payload, "shadowedRanges");
    NullOrAbsent(ranges)
    || (ranges.value.Arr?
        && forall i | 0 <= i < |ranges.value.items| ::
             var range := ranges.value.items[i];
             range.Obj? && StringField(range.fields, "start").Some? && StringField(range.fields, "end").Some?)
  }

  predicate HashMatches(summary: Payload, hash: Hash) {
    "candidate" in summary ==> Field(summary, "summaryHash") == Some(Str(hash(summary["candidate"])))
  }

  predicate Agree(a: Option<string>, b: Option<string>) {
    a.None? || b.None? || a == b
  }

  function OrElse(a: Option<string>, b: Option<string>): Option<string> {
    if a.Some? then a else b
  }

  predicate WindowsMatch(start: Payload, summary: Payload, end: Payload) {
    var startWindow := StringField(start, "windowId");
    var summaryWindow := StringField(summary, "windowId");
    var endWindow := StringField(end, "windowId");
    var inputWindow := OrElse(StringField(summary, "inputWindowId"), startWindow);
    var outputWindow := OrElse(StringField(summary, "outputWindowId"), OrElse(endWindow, summaryWindow));
    Agree(inputWindow, startWindow) && Agree(outputWindow, endWindow) && Agree(summaryWindow, startWindow)
  }

  /** Whether an end event commits the start and summary recorded for its identifier. */
  predicate Commits(start: Event, summary: Event, end: Event, hash: Hash) {
    && HashMatches(summary.payload, hash)
    && ValidShadowRanges(summary.payload)
    && WindowsMatch(start.payload, summary.payload, end.payload)
    && Field(end.payload, "startSeq") == Some(Num(start.seqNo))
    && Field(end.payload, "summarySeq") == Some(Num(summary.seqNo))
    && StrictlyEqual(Field(end.payload, "inputSurfaceFingerprint"), Field(start.payload, "inputSurfaceFingerprint"))
    && StrictlyEqual(Field(end.payload, "outputSurfaceFingerprint"), Field(summary.payload, "outputSurfaceFingerprint"))
    && StrictlyEqual(Field(end.payload, "summaryHash"), Field(summary.payload, "summaryHash"))
  }

  function FoldStep(r: Replay, event: Event, hash: Hash): Replay {
    var field := StringField(event.payload, "compactionId");
    if !event.supported || field.None? || field.value == "" then r
    else
      var id := field.value;
      match event.kind
      case Start => if id in r.starts then r else r.(starts := r.starts[id := event])
      case Summary => if id !in r.starts || id in r.summaries then r else r.(summaries := r.summaries[id := event])
      case OtherKind => r
      case End =>
        if Field(event.payload, "status") != Some(Str("committed")) || id in r.committed then r
        else if id in r.starts && id in r.summaries && Commits(r.starts[id], r.summaries[id], event, hash)
        then r.(committed := r.committed[id := Committed(r.starts[id], r.summaries[id], event)])
        else r
  }

  const NOTHING: Replay := Replay(map[], map[], map[])

  function Fold(log: Log, hash: Hash): Replay {
    if log == [] then NOTHING else FoldStep(Fold(log[..|log| - 1], hash), log[|log| - 1], hash)
  }

  /** `foldCompactionEvents` over a log in order; the list of rejections is not kept. */
  method FoldCompactionEvents(log: Log, hash: Hash) returns (r: Replay)
    ensures r == Fold(log, hash)
  {
    var starts, summaries, committed := map[], map[], map[];
    for i := 0 to |log|
      invariant Replay(starts, summaries, committed) == Fold(log[..i], hash)
    {
      assert log[..i + 1][..i] == log[..i];
      var event := log[i];
      var field := StringField(event.payload, "compactionId");
      if event.supported && event.kind != OtherKind && field.Some? && field.value != "" {
        var id := field.value;
        if event.kind == Start {
          if id !in starts {
            starts := starts[id := event];
          }
        } else if event.kind == Summary {
          if id in starts && id !in summaries {
            summaries := summaries[id := event];
          }
        } else if Field(event.payload, "status") == Some(Str("committed")) && id !in committed
                  && id in starts && id in summaries && Commits(starts[id], summaries[id], event, hash) {
          committed := committed[id := Committed(starts[id], summaries[id], event)];
        }
      }
    }
    assert log[..|log|] == log;
    r := Replay(starts, summaries, committed);
  }

  // ---------------------------------------------------------------- the transaction

  predicate IsCandidate(event: Event, id: string) {
    event.kind != OtherKind && Field(event.payload, "compactionId") == Some(Str(id))
  }

  function Candidates(log: Log, id: string): Log {
    if log == [] then []
    else Candidates(log[..|log| - 1], id) + if IsCandidate(log[|log| - 1], id) then [log[|log| - 1]] else []
  }

  function OfKind(events: Log, kind: Kind): Log {
    if events == [] then []
    else (if events[0].kind == kind then [events[0]] else []) + OfKind(events[1..], kind)
  }

  function CommittedEnds(events: Log): Log {
    if events == [] then []
    else (if events[0].kind == End && Field(events[0].payload, "status") == Some(Str("committed")) then [events[0]]
          else []) + CommittedEnds(events[1..])
  }

  function LastSeq(log: Log): nat {
    if log == [] then 0 else log[|log| - 1].seqNo
  }

  function Append(log: Log, kind: Kind, payload: Payload): Log {
    log + [Event(LastSeq(log) + 1, kind, payload, true)]
  }

  function AppendAll(log: Log, inputs: seq<(Kind, Payload)>): Log
    decreases |inputs|
  {
    if inputs == [] then log else AppendAll(Append(log, inputs[0].0, inputs[0].1), inputs[1..])
  }

  function PutField(p: Payload, key: string, value: Option<Json>): Payload {
    if value.Some? then p[key := value.value] else p
  }

  /** A field that is copied only when it is a string. */
  function StringOnly(value: Option<Json>): Option<Json> {
    if value.Some? && value.value.Str? then value else None
  }

  function EndPayload(start: Payload, summary: Payload, startSeq: nat, summarySeq: nat): Payload {
    var output := Field(summary, "outputWindowId");
    var window := if NullOrAbsent(output) then Field(start, "windowId") else output;
    var p0 := PutField(map[], "compactionId", Field(summary, "compactionId"));
    var p1 := PutField(p0, "windowId", StringOnly(window));
    var p2 := PutField(p1, "inputWindowId", StringOnly(Field(summary, "inputWindowId")));
    var p3 := PutField(p2, "outputWindowId", StringOnly(output));
    var p4 := PutField(p3, "turnId", StringOnly(Field(start, "turnId")));
    var p5 := p4["status" := Str("committed")]["startSeq" := Num(startSeq)]["summarySeq" := Num(summarySeq)];
    var p6 := PutField(p5, "inputSurfaceFingerprint", Field(start, "inputSurfaceFingerprint"));
    var p7 := PutField(p6, "outputSurfaceFingerprint", Field(summary, "outputSurfaceFingerprint"));
    PutField(p7, "summaryHash", Field(summary, "summaryHash"))
  }

  datatype Failure = IdentityMismatch | Unsupported | ConflictingStart | ConflictingSummary | InvalidExisting
      | DuplicatePrefix | InvalidOrder

  datatype Outcome = Done(end: Event) | Failed(failure: Failure) | Crashed

  datatype Result = Result(log: Log, outcome: Outcome)

  /** What other writers append while the k-th append of this transaction is awaited. */
  type Others = nat -> seq<(Kind, Payload)>

  function AppendEnd(log: Log, start: Payload, summary: Payload, startSeq: nat, summarySeq: nat, others: Others,
                     budget: nat): Result {
    var before := AppendAll(log, others(2));
    if budget == 0 then Result(before, Crashed)
    else
      var after := Append(before, End, EndPayload(start, summary, startSeq, summarySeq));
      Result(after, Done(after[|after| - 1]))
  }

  function AppendSummary(log: Log, start: Payload, summary: Payload, startSeq: nat, others: Others,
                         budget: nat): Result {
    var before := AppendAll(log, others(1));
    if budget == 0 then Result(before, Crashed)
    else
      var after := Append(before, Summary, summary);
      AppendEnd(after, start, summary, startSeq, LastSeq(after), others, budget - 1)
  }

  function AppendTransaction(log: Log, start: Payload, summary: Payload, others: Others, budget: nat): Result {
    var before := AppendAll(log, others(0));
    if budget == 0 then Result(before, Crashed)
    else
      var after := Append(before, Start, start);
      AppendSummary(after, start, summary, LastSeq(after), others, budget - 1)
  }

  /** `ensureCompactionTransaction`, dying after `budget` appends of its own. */
  function Ensured(log: Log, start: Payload, summary: Payload, hash: Hash, others: Others, budget: nat): Result {
    var id := StringField(summary, "compactionId");
    if id.None? || id.value == "" || Field(start, "compactionId") != Some(Str(id.value))
        then Result(log, Failed(IdentityMismatch))
    else
      var mine := Candidates(log, id.value);
      var starts := OfKind(mine, Start);
      var summaries := OfKind(mine, Summary);
      var ends := CommittedEnds(mine);
      if exists i | 0 <= i < |mine| :: !mine[i].supported then Result(log, Failed(Unsupported))
      else if starts != [] && starts[0].payload != start then Result(log, Failed(ConflictingStart))
      else if summaries != [] && summaries[0].payload != summary then Result(log, Failed(ConflictingSummary))
      else if ends != [] then
        Result(log, if id.value in Fold(log, hash).committed then Done(ends[0]) else Failed(InvalidExisting))
      else if starts == [] then AppendTransaction(log, start, summary, others, budget)
      else if |starts| > 1 || |summaries| > 1 then Result(log, Failed(DuplicatePrefix))
      else if summaries != [] && summaries[0].seqNo <= starts[0].seqNo then Result(log, Failed(InvalidOrder))
      else if summaries == [] then AppendSummary(log, start, summary, starts[0].seqNo, others, budget)
      else AppendEnd(log, start, summary, starts[0].seqNo, summaries[0].seqNo, others, budget)
  }

  /** The event file seen through its sink. */
  class Sink {
    var log: Log

    method AppendCritical(kind: Kind, payload: Payload) returns (event: Event)
      modifies this
      ensures log == Append(old(log), kind, payload) && event == log[|log| - 1]
    {
      event := Event(LastSeq(log) + 1, kind, payload, true);
      log := log + [event];
    }

    /** Other tasks run while an append is awaited. */
    method AwaitOthers(inputs: seq<(Kind, Payload)>)
      modifies this
      ensures log == AppendAll(old(log), inputs)
    {
      var i := 0;
      while i < |inputs|
        invariant 0 <= i <= |inputs| && AppendAll(log, inputs[i..]) == AppendAll(old(log), inputs)
      {
        assert inputs[i..][1..] == inputs[i + 1..];
        var _ := AppendCritical(inputs[i].0, inputs[i].1);
        i := i + 1;
      }
    }

    method AppendCompactionEnd(start: Payload, summary: Payload, startSeq: nat, summarySeq: nat, others: Others,
                               budget: nat) returns (outcome: Outcome)
      modifies this
      ensures Result(log, outcome) == AppendEnd(old(log), start, summary, startSeq, summarySeq, others, budget)
    {
      AwaitOthers(others(2));
      if budget == 0 {
        return Crashed;
      }
      var end := AppendCritical(End, EndPayload(start, summary, startSeq, summarySeq));
      return Done(end);
    }

    method EnsureCompactionTransaction(start: Payload, summary: Payload, hash: Hash, others: Others, budget: nat)
        returns (outcome: Outcome)
      modifies this
      ensures Result(log, outcome) == Ensured(old(log), start, summary, hash, others, budget)
    {
      hide Candidates, OfKind, CommittedEnds, EndPayload, AppendAll;
      var id := StringField(summary, "compactionId");
      if id.None? || id.value == "" || Field(start, "compactionId") != Some(Str(id.value)) {
        return Failed(IdentityMismatch);
      }
      var mine := Candidates(log, id.value);
      var starts, summaries, ends := OfKind(mine, Start), OfKind(mine, Summary), CommittedEnds(mine);
      if exists i | 0 <= i < |mine| :: !mine[i].supported {
        return Failed(Unsupported);
      }
      if starts != [] && starts[0].payload != start {
        return Failed(ConflictingStart);
      }
      if summaries != [] && summaries[0].payload != summary {
        return Failed(ConflictingSummary);
      }
      if ends != [] {
        var replay := FoldCompactionEvents(log, hash);
        return if id.value in replay.committed then Done(ends[0]) else Failed(InvalidExisting);
      }
      if starts != [] && (|starts| > 1 || |summaries| > 1) {
        return Failed(DuplicatePrefix);
      }
      if starts != [] && summaries != [] && summaries[0].seqNo <= starts[0].seqNo {
        return Failed(InvalidOrder);
      }
      var left := budget;
      var startSeq, summarySeq: nat := 0, 0;
      if starts == [] {
        AwaitOthers(others(0));
        if left == 0 {
          return Crashed;
        }
        var event := AppendCritical(Start, start);
        startSeq, left := event.seqNo, left - 1;
      } else {
        startSeq := starts[0].seqNo;
      }
      if starts == [] || summaries == [] {
        AwaitOthers(others(1));
        if left == 0 {
          return Crashed;
        }
        var event := AppendCritical(Summary, summary);
        summarySeq, left := event.seqNo, left - 1;
      } else {
        summarySeq := summaries[0].seqNo;
      }
      outcome := AppendCompactionEnd(start, summary, startSeq, summarySeq, others, left);
    }
  }

  // ---------------------------------------------------------------- states of a transaction

  /** The first `n` events of the transaction, in order, are the only candidates in the log. */
  predicate HasPrefix(log: Log, start: Payload, summary: Payload, n: nat) {
    && n <= 3
    && var id := StringField(summary, "compactionId");
    && id.Some? && id.value != "" && Field(start, "compactionId") == Some(Str(id.value))
    && var mine := Candidates(log, id.value);
    && |mine| == n
    && (forall i | 0 <= i < n :: mine[i].supported)
    && (n > 0 ==> mine[0].kind == Start && mine[0].payload == start)
    && (n > 1 ==> mine[1].kind == Summary && mine[1].payload == summary && mine[0].seqNo < mine[1].seqNo)
    && (n > 2 ==> mine[2].kind == End && mine[2].payload == EndPayload(start, summary, mine[0].seqNo, mine[1].seqNo)
                  && mine[1].seqNo < mine[2].seqNo)
  }

  predicate Increasing(log: Log) {
    forall i, j | 0 <= i < j < |log| :: log[i].seqNo < log[j].seqNo
  }

  /** The other writers append no event of this transaction. */
  predicate Foreign(others: Others, id: string) {
    forall k, i | 0 <= k < 3 && 0 <= i < |others(k)| ::
        others(k)[i].0 == OtherKind || Field(others(k)[i].1, "compactionId") != Some(Str(id))
  }

  // ---------------------------------------------------------------- the log grows

  lemma CandidatesAppend(log: Log, event: Event, id: string)
    ensures Candidates(log + [event], id) == Candidates(log, id) + if IsCandidate(event, id) then [event] else []
  {
  }

  lemma {:induction false} AppendAllGrows(log: Log, inputs: seq<(Kind, Payload)>, id: string)
    requires Increasing(log)
    requires forall i | 0 <= i < |inputs| :: inputs[i].0 == OtherKind
                                             || Field(inputs[i].1, "compactionId") != Some(Str(id))
    ensures Increasing(AppendAll(log, inputs)) && log <= AppendAll(log, inputs)
    ensures Candidates(AppendAll(log, inputs), id) == Candidates(log, id)
    ensures LastSeq(log) <= LastSeq(AppendAll(log, inputs))
    decreases |inputs|
  {
    if inputs != [] {
      var next := Append(log, inputs[0].0, inputs[0].1);
      CandidatesAppend(log, next[|log|], id);
      assert forall i | 0 <= i < |inputs[1..]| :: inputs[1..][i] == inputs[i + 1];
      AppendAllGrows(next, inputs[1..], id);
    }
  }

  lemma {:induction false} CandidatesAreFromLog(log: Log, id: string)
    requires Increasing(log)
    ensures forall i | 0 <= i < |Candidates(log, id)| ::
        Candidates(log, id)[i] in log && Candidates(log, id)[i].seqNo <= LastSeq(log)
    ensures forall i | 0 <= i < |Candidates(log, id)| :: IsCandidate(Candidates(log, id)[i], id)
  {
    if log != [] {
      var shorter := log[..|log| - 1];
      CandidatesAreFromLog(shorter, id);
      assert LastSeq(shorter) <= LastSeq(log);
    }
  }

  /** What appending the next event of the transaction does to the candidates. */
  lemma AppendMine(log: Log, kind: Kind, payload: Payload, others: seq<(Kind, Payload)>, id: string)
    requires Increasing(log) && kind != OtherKind && Field(payload, "compactionId") == Some(Str(id))
    requires forall i | 0 <= i < |others| :: others[i].0 == OtherKind
                                             || Field(others[i].1, "compactionId") != Some(Str(id))
    ensures var before := AppendAll(log, others);
            var after := Append(before, kind, payload);
            && Increasing(before) && log <= before && Candidates(before, id) == Candidates(log, id)
            && Increasing(after) && log <= after
            && Candidates(after, id) == Candidates(log, id) + [after[|after| - 1]]
            && LastSeq(after) == after[|after| - 1].seqNo
            && (forall i | 0 <= i < |Candidates(log, id)| :: Candidates(log, id)[i].seqNo < LastSeq(after))
  {
    hide AppendAll, Candidates;
    AppendAllGrows(log, others, id);
    var before := AppendAll(log, others);
    CandidatesAppend(before, Append(before, kind, payload)[|before|], id);
    CandidatesAreFromLog(log, id);
  }

  /** How far a call gets from a prefix of length `n`: one event for each append it is left to do, and no event of any
      other writer is touched. */
  ghost predicate Resumed(log: Log, r: Result, start: Payload, summary: Payload, n: nat, budget: nat) {
    && Increasing(r.log) && log <= r.log
    && n <= 3
    && HasPrefix(r.log, start, summary, if n + budget < 3 then n + budget else 3)
    && (if n + budget < 3 then r.outcome == Crashed
        else r.outcome.Done? && r.outcome.end == Candidates(r.log, StringField(summary, "compactionId").value)[2])
  }

  lemma EndHasId(start: Payload, summary: Payload, startSeq: nat, summarySeq: nat)
    ensures Field(EndPayload(start, summary, startSeq, summarySeq), "compactionId") == Field(summary, "compactionId")
  {
  }

  lemma EndResumes(log: Log, start: Payload, summary: Payload, others: Others, budget: nat)
    requires Increasing(log) && HasPrefix(log, start, summary, 2)
        && Foreign(others, StringField(summary, "compactionId").value)
    ensures var id := StringField(summary, "compactionId").value;
            var mine := Candidates(log, id);
            Resumed(log, AppendEnd(log, start, summary, mine[0].seqNo, mine[1].seqNo, others, budget), start, summary,
                    2, budget)
  {
    hide EndPayload, AppendAll, Candidates;
    var id := StringField(summary, "compactionId").value;
    var mine := Candidates(log, id);
    var end := EndPayload(start, summary, mine[0].seqNo, mine[1].seqNo);
    EndHasId(start, summary, mine[0].seqNo, mine[1].seqNo);
    AppendMine(log, End, end, others(2), id);
    var after := Append(AppendAll(log, others(2)), End, end);
    assert Candidates(after, id) == [mine[0], mine[1], after[|after| - 1]];
  }

  lemma SummaryResumes(log: Log, start: Payload, summary: Payload, others: Others, budget: nat)
    requires Increasing(log) && HasPrefix(log, start, summary, 1)
        && Foreign(others, StringField(summary, "compactionId").value)
    ensures var mine := Candidates(log, StringField(summary, "compactionId").value);
            Resumed(log, AppendSummary(log, start, summary, mine[0].seqNo, others, budget), start, summary, 1, budget)
  {
    hide EndPayload, AppendEnd, AppendAll, Candidates;
    var id := StringField(summary, "compactionId").value;
    var mine := Candidates(log, id);
    AppendMine(log, Summary, summary, others(1), id);
    if budget > 0 {
      var after := Append(AppendAll(log, others(1)), Summary, summary);
      assert Candidates(after, id) == [mine[0], after[|after| - 1]];
      EndResumes(after, start, summary, others, budget - 1);
    }
  }

  lemma StartResumes(log: Log, start: Payload, summary: Payload, others: Others, budget: nat)
    requires Increasing(log) && HasPrefix(log, start, summary, 0)
        && Foreign(others, StringField(summary, "compactionId").value)
    ensures Resumed(log, AppendTransaction(log, start, summary, others, budget), start, summary, 0, budget)
  {
    hide EndPayload, AppendSummary, AppendEnd, AppendAll, Candidates;
    var id := StringField(summary, "compactionId").value;
    AppendMine(log, Start, start, others(0), id);
    if budget > 0 {
      var after := Append(AppendAll(log, others(0)), Start, start);
      assert Candidates(after, id) == [after[|after| - 1]];
      SummaryResumes(after, start, summary, others, budget - 1);
    }
  }

  lemma PrefixKinds(log: Log, start: Payload, summary: Payload, n: nat)
    requires HasPrefix(log, start, summary, n)
    ensures var mine := Candidates(log, StringField(summary, "compactionId").value);
            && OfKind(mine, Start) == (if n > 0 then [mine[0]] else [])
            && OfKind(mine, Summary) == (if n > 1 then [mine[1]] else [])
            && CommittedEnds(mine) == (if n > 2 then [mine[2]] else [])
  {
    hide EndPayload, Candidates;
    var mine := Candidates(log, StringField(summary, "compactionId").value);
    if n > 0 {
      assert mine == [mine[0]] + mine[1..];
      KindsCons(mine[0], mine[1..]);
    }
    if n > 1 {
      assert mine[1..] == [mine[1]] + mine[2..];
      KindsCons(mine[1], mine[2..]);
    }
    if n > 2 {
      StatusCommitted(start, summary, mine[0].seqNo, mine[1].seqNo);
      assert mine[2..] == [mine[2]] + mine[3..];
      KindsCons(mine[2], mine[3..]);
    }
    assert mine[n..] == [];
  }

  lemma KindsCons(event: Event, rest: Log)
    ensures forall kind :: OfKind([event] + rest, kind) == (if event.kind == kind then [event] else [])
                           + OfKind(rest, kind)
    ensures CommittedEnds([event] + rest)
            == (if event.kind == End && Field(event.payload, "status") == Some(Str("committed")) then [event] else [])
                + CommittedEnds(rest)
  {
  }

  lemma StatusCommitted(start: Payload, summary: Payload, startSeq: nat, summarySeq: nat)
    ensures Field(EndPayload(start, summary, startSeq, summarySeq), "status") == Some(Str("committed"))
  {
  }

  /** From any prefix of the transaction, interleaved with anything else, a call appends exactly the missing events, in
      order, and an end that points at the start and the summary; cut off early it leaves a longer prefix. */
  lemma EnsureResumes(log: Log, start: Payload, summary: Payload, n: nat, hash: Hash, others: Others, budget: nat)
    requires Increasing(log) && n < 3 && HasPrefix(log, start, summary, n)
        && Foreign(others, StringField(summary, "compactionId").value)
    ensures Resumed(log, Ensured(log, start, summary, hash, others, budget), start, summary, n, budget)
  {
    hide EndPayload, AppendTransaction, AppendSummary, AppendEnd, Candidates, OfKind, CommittedEnds, Fold, Resumed;
    PrefixKinds(log, start, summary, n);
    if n == 0 {
      StartResumes(log, start, summary, others, budget);
    } else if n == 1 {
      SummaryResumes(log, start, summary, others, budget);
    } else {
      EndResumes(log, start, summary, others, budget);
    }
  }

  // ---------------------------------------------------------------- the second call

  /** The replay's entries for one identifier. */
  predicate SameEntry(a: Replay, b: Replay, id: string) {
    && (id in a.starts <==> id in b.starts) && (id in a.starts ==> a.starts[id] == b.starts[id])
    && (id in a.summaries <==> id in b.summaries) && (id in a.summaries ==> a.summaries[id] == b.summaries[id])
    && (id in a.committed <==> id in b.committed) && (id in a.committed ==> a.committed[id] == b.committed[id])
  }

  lemma StepIsLocal(a: Replay, b: Replay, event: Event, id: string, hash: Hash)
    requires SameEntry(a, b, id) && IsCandidate(event, id)
    ensures SameEntry(FoldStep(a, event, hash), FoldStep(b, event, hash), id)
  {
    hide Commits;
  }

  lemma OtherStepIsForeign(a: Replay, event: Event, id: string, hash: Hash)
    requires !IsCandidate(event, id)
    ensures SameEntry(FoldStep(a, event, hash), a, id)
  {
  }

  /** What the fold makes of one transaction depends only on the events of that transaction. */
  lemma {:induction false} FoldIsLocal(log: Log, id: string, hash: Hash)
    ensures SameEntry(Fold(log, hash), Fold(Candidates(log, id), hash), id)
  {
    hide FoldStep;
    if log != [] {
      var shorter := log[..|log| - 1];
      var event := log[|log| - 1];
      FoldIsLocal(shorter, id, hash);
      if IsCandidate(event, id) {
        StepIsLocal(Fold(shorter, hash), Fold(Candidates(shorter, id), hash), event, id, hash);
        FoldAppend(Candidates(shorter, id), event, hash);
      } else {
        OtherStepIsForeign(Fold(shorter, hash), event, id, hash);
        assert Candidates(log, id) == Candidates(shorter, id);
      }
    }
  }

  lemma FoldAppend(log: Log, event: Event, hash: Hash)
    ensures Fold(log + [event], hash) == FoldStep(Fold(log, hash), event, hash)
  {
  }

  lemma FoldTriple(start: Event, summary: Event, end: Event, id: string, hash: Hash)
    requires id != "" && start.supported && summary.supported && end.supported
    requires start.kind == Start && summary.kind == Summary && end.kind == End
    requires IsCandidate(start, id) && IsCandidate(summary, id) && IsCandidate(end, id)
    requires Field(end.payload, "status") == Some(Str("committed"))
    ensures var committed := Fold([start, summary, end], hash).committed;
            && (id in committed <==> Commits(start, summary, end, hash))
            && (id in committed ==> committed[id] == Committed(start, summary, end))
  {
    hide Commits;
    FoldAppend([], start, hash);
    assert [] + [start] == [start];
    FoldAppend([start], summary, hash);
    assert [start] + [summary] == [start, summary];
    FoldAppend([start, summary], end, hash);
    assert [start, summary] + [end] == [start, summary, end];
  }

  predicate Comparable(v: Option<Json>) {
    v.Some? ==> !v.value.Obj? && !v.value.Arr?
  }

  /** What the fold asks of the payloads a caller passes in: the summary hash is that of the candidate, the shadow
      ranges are ranges, the windows of the summary are the start's, and the compared fields are not objects. */
  predicate Acceptable(start: Payload, summary: Payload, hash: Hash) {
    && HashMatches(summary, hash)
    && ValidShadowRanges(summary)
    && Agree(StringField(summary, "inputWindowId"), StringField(start, "windowId"))
    && Agree(StringField(summary, "windowId"), StringField(start, "windowId"))
    && Comparable(Field(start, "inputSurfaceFingerprint"))
    && Comparable(Field(summary, "outputSurfaceFingerprint"))
    && Comparable(Field(summary, "summaryHash"))
  }

  lemma EndReferences(start: Payload, summary: Payload, startSeq: nat, summarySeq: nat)
    ensures var end := EndPayload(start, summary, startSeq, summarySeq);
            && Field(end, "startSeq") == Some(Num(startSeq)) && Field(end, "summarySeq") == Some(Num(summarySeq))
            && Field(end, "status") == Some(Str("committed"))
  {
  }

  lemma EndFingerprints(start: Payload, summary: Payload, startSeq: nat, summarySeq: nat)
    ensures var end := EndPayload(start, summary, startSeq, summarySeq);
            && Field(end, "inputSurfaceFingerprint") == Field(start, "inputSurfaceFingerprint")
            && Field(end, "outputSurfaceFingerprint") == Field(summary, "outputSurfaceFingerprint")
  {
  }

  lemma EndHash(start: Payload, summary: Payload, startSeq: nat, summarySeq: nat)
    ensures Field(EndPayload(start, summary, startSeq, summarySeq), "summaryHash") == Field(summary, "summaryHash")
  {
  }

  lemma EndWindow(start: Payload, summary: Payload, startSeq: nat, summarySeq: nat)
    ensures Field(EndPayload(start, summary, startSeq, summarySeq), "windowId")
            == StringOnly(if NullOrAbsent(Field(summary, "outputWindowId")) then Field(start, "windowId")
                          else Field(summary, "outputWindowId"))
  {
  }

  /** A field of the end that is copied when it is a string. */
  predicate CopiedString(end: Payload, key: string, source: Payload) {
    if StringField(source, key).Some? then Field(end, key) == Field(source, key) else key !in end
  }

  /** The end names the windows its summary was made from and for, and the turn of its start, as far as they are
      strings. */
  lemma EndWindowsAndTurn(start: Payload, summary: Payload, startSeq: nat, summarySeq: nat)
    ensures var end := EndPayload(start, summary, startSeq, summarySeq);
            && CopiedString(end, "inputWindowId", summary) && CopiedString(end, "outputWindowId", summary)
            && CopiedString(end, "turnId", start)
  {
    EndInputWindow(start, summary, startSeq, summarySeq);
    EndOutputWindow(start, summary, startSeq, summarySeq);
    EndTurn(start, summary, startSeq, summarySeq);
    hide EndPayload, CopiedString;
  }

  lemma EndInputWindow(start: Payload, summary: Payload, startSeq: nat, summarySeq: nat)
    ensures CopiedString(EndPayload(start, summary, startSeq, summarySeq), "inputWindowId", summary)
  {
  }

  lemma EndOutputWindow(start: Payload, summary: Payload, startSeq: nat, summarySeq: nat)
    ensures CopiedString(EndPayload(start, summary, startSeq, summarySeq), "outputWindowId", summary)
  {
  }

  lemma EndTurn(start: Payload, summary: Payload, startSeq: nat, summarySeq: nat)
    ensures CopiedString(EndPayload(start, summary, startSeq, summarySeq), "turnId", start)
  {
  }

  lemma EndHasNoOtherField(start: Payload, summary: Payload, startSeq: nat, summarySeq: nat)
    ensures EndPayload(start, summary, startSeq, summarySeq).Keys
        <= {"compactionId", "windowId", "inputWindowId", "outputWindowId", "turnId", "status", "startSeq", "summarySeq",
            "inputSurfaceFingerprint", "outputSurfaceFingerprint", "summaryHash"}
  {
  }

  lemma EndFields(start: Payload, summary: Payload, startSeq: nat, summarySeq: nat)
    ensures var end := EndPayload(start, summary, startSeq, summarySeq);
            && Field(end, "startSeq") == Some(Num(startSeq)) && Field(end, "summarySeq") == Some(Num(summarySeq))
            && Field(end, "status") == Some(Str("committed"))
            && Field(end, "inputSurfaceFingerprint") == Field(start, "inputSurfaceFingerprint")
            && Field(end, "outputSurfaceFingerprint") == Field(summary, "outputSurfaceFingerprint")
            && Field(end, "summaryHash") == Field(summary, "summaryHash")
            && Field(end, "windowId") == StringOnly(if NullOrAbsent(Field(summary, "outputWindowId"))
                                                    then Field(start, "windowId") else Field(summary, "outputWindowId"))
  {
    hide EndPayload;
    EndReferences(start, summary, startSeq, summarySeq);
    EndFingerprints(start, summary, startSeq, summarySeq);
    EndHash(start, summary, startSeq, summarySeq);
    EndWindow(start, summary, startSeq, summarySeq);
  }

  /** The end that the transaction writes commits it exactly when the caller's payloads are acceptable. */
  lemma EndCommitsIff(start: Event, summary: Event, end: Event, hash: Hash)
    requires end.payload == EndPayload(start.payload, summary.payload, start.seqNo, summary.seqNo)
    ensures Commits(start, summary, end, hash) <==> Acceptable(start.payload, summary.payload, hash)
  {
    hide HashMatches, ValidShadowRanges, EndPayload;
    EndFields(start.payload, summary.payload, start.seqNo, summary.seqNo);
  }

  /** After a completed transaction a further call never appends anything. It gives the end event back exactly when the
      payloads are acceptable to the fold; otherwise the written transaction is refused, now and in every later call. */
  lemma SecondCall(log: Log, start: Payload, summary: Payload, hash: Hash, others: Others, budget: nat)
    requires HasPrefix(log, start, summary, 3)
    ensures Ensured(log, start, summary, hash, others, budget)
            == Result(log, if Acceptable(start, summary, hash)
                      then Done(Candidates(log, StringField(summary, "compactionId").value)[2])
                           else Failed(InvalidExisting))
  {
    hide EndPayload, Candidates, OfKind, CommittedEnds, Fold, Commits, Acceptable, AppendTransaction, AppendSummary,
        AppendEnd;
    var id := StringField(summary, "compactionId").value;
    PrefixKinds(log, start, summary, 3);
    CommittedIff(log, start, summary, hash);
  }

  lemma CommittedIff(log: Log, start: Payload, summary: Payload, hash: Hash)
    requires HasPrefix(log, start, summary, 3)
    ensures var id := StringField(summary, "compactionId").value;
            var mine := Candidates(log, id);
            && (id in Fold(log, hash).committed <==> Acceptable(start, summary, hash))
            && (id in Fold(log, hash).committed ==>
                Fold(log, hash).committed[id] == Committed(mine[0], mine[1], mine[2]))
  {
    hide EndPayload, OfKind, CommittedEnds, Fold, Commits, Acceptable;
    var id := StringField(summary, "compactionId").value;
    var mine := Candidates(log, id);
    FoldIsLocal(log, id, hash);
    assert mine == [mine[0], mine[1], mine[2]];
    AllCandidates(log, id);
    EndFields(start, summary, mine[0].seqNo, mine[1].seqNo);
    FoldTriple(mine[0], mine[1], mine[2], id, hash);
    EndCommitsIff(mine[0], mine[1], mine[2], hash);
  }

  lemma {:induction false} AllCandidates(log: Log, id: string)
    ensures forall i | 0 <= i < |Candidates(log, id)| :: IsCandidate(Candidates(log, id)[i], id)
  {
    if log != [] {
      AllCandidates(log[..|log| - 1], id);
    }
  }

  // ---------------------------------------------------------------- all runs

  datatype Attempt = Attempt(others: Others, budget: nat, between: seq<(Kind, Payload)>)

  /** A series of calls, each possibly cut off, with other events appended between them. */
  function Attempts(log: Log, start: Payload, summary: Payload, hash: Hash, attempts: seq<Attempt>): Log
    decreases |attempts|
  {
    if attempts == [] then log
    else
      var a := attempts[0];
      Attempts(AppendAll(Ensured(log, start, summary, hash, a.others, a.budget).log, a.between), start, summary, hash,
               attempts[1..])
  }

  predicate AllForeign(attempts: seq<Attempt>, id: string) {
    forall k | 0 <= k < |attempts| ::
      && Foreign(attempts[k].others, id)
      && forall i | 0 <= i < |attempts[k].between| ::
           attempts[k].between[i].0 == OtherKind || Field(attempts[k].between[i].1, "compactionId") != Some(Str(id))
  }

  function Budget(attempts: seq<Attempt>): nat {
    if attempts == [] then 0 else attempts[0].budget + Budget(attempts[1..])
  }

  lemma PrefixSurvives(log: Log, start: Payload, summary: Payload, n: nat, inputs: seq<(Kind, Payload)>)
    requires Increasing(log) && HasPrefix(log, start, summary, n)
    requires forall i | 0 <= i < |inputs| :: inputs[i].0 == OtherKind
                                             || Field(inputs[i].1,
                                                      "compactionId") != Some(Str(StringField(summary,
                                                            "compactionId").value))
    ensures Increasing(AppendAll(log, inputs)) && HasPrefix(AppendAll(log, inputs), start, summary, n)
        && log <= AppendAll(log, inputs)
  {
    hide AppendAll, Candidates, EndPayload;
    AppendAllGrows(log, inputs, StringField(summary, "compactionId").value);
  }

  /** Whatever the crash points, the log holds as much of the transaction as was appended, once and in order, and never
      more than three events of it; nothing that was in the log is changed. */
  lemma {:induction false} TransactionAlongRuns(log: Log, start: Payload, summary: Payload, n: nat, hash: Hash,
                                                attempts: seq<Attempt>)
    requires Increasing(log) && HasPrefix(log, start, summary, n)
        && AllForeign(attempts, StringField(summary, "compactionId").value)
    ensures var after := Attempts(log, start, summary, hash, attempts);
            Increasing(after) && log <= after
            && HasPrefix(after, start, summary, if n + Budget(attempts) < 3 then n + Budget(attempts) else 3)
    decreases |attempts|
  {
    hide HasPrefix, Ensured, AppendAll;
    PrefixBound(log, start, summary, n);
    if attempts != [] {
      var a := attempts[0];
      var r := Ensured(log, start, summary, hash, a.others, a.budget);
      var n' := if n + a.budget < 3 then n + a.budget else 3;
      if n < 3 {
        EnsureResumes(log, start, summary, n, hash, a.others, a.budget);
      } else {
        SecondCall(log, start, summary, hash, a.others, a.budget);
      }
      PrefixSurvives(r.log, start, summary, n', a.between);
      TransactionAlongRuns(AppendAll(r.log, a.between), start, summary, n', hash, attempts[1..]);
    }
  }

  lemma PrefixBound(log: Log, start: Payload, summary: Payload, n: nat)
    requires HasPrefix(log, start, summary, n)
    ensures n <= 3 && StringField(summary, "compactionId").Some?
  {
  }
}
