/** Compaction of a session's model context: which messages a checkpoint may replace, and what is left
    (electron/sessionContextCompaction.ts, src/shared/turnBoundaryCompaction.ts, src/shared/compactionActions.ts,
    src/shared/surfaceReplay.ts). */
module ContextCompaction {
  import opened Json

  /** A message of the replay surface with its surface identity and its token estimate. */
  datatype Item = Item(id: string, tokens: nat, required: bool)

  datatype Range = Range(start: string, end: string)

  /** What asking for the summary gives. */
  datatype Summary = Threw | Incomplete | Complete

  /** Token estimates of the three checkpoint texts, and how the summary came back. */
  datatype Checkpoint = Checkpoint(id: string, planningTokens: nat, minimumTokens: nat, tokens: nat, summary: Summary)

  /** What reading the current context gives: an error, a surface other than the replayed one, or that surface. */
  datatype Read = Unreadable | Changed | Current

  datatype Outcome = NoOp | Uncompressible | Failed | Stale | Cancelled | AlreadyCommitted
      | ToCommit(output: seq<Item>, ranges: seq<Range>)

  function Total(items: seq<Item>): nat {
    if items == [] then 0 else Total(items[..|items| - 1]) + items[|items| - 1].tokens
  }

  predicate DistinctIds(items: seq<Item>) {
    forall i, j | 0 <= i < j < |items| :: items[i].id != items[j].id
  }

  /** `findIndex` */
  function FindIndex(items: seq<Item>, id: string): (k: int)
    ensures -1 <= k < |items|
    ensures k >= 0 ==> items[k].id == id && forall j | 0 <= j < k :: items[j].id != id
    ensures k < 0 ==> forall j | 0 <= j < |items| :: items[j].id != id
  {
    if items == [] then -1
    else
      var earlier := FindIndex(items[..|items| - 1], id);
      if earlier >= 0 then earlier else if items[|items| - 1].id == id then |items| - 1 else -1
  }

  function StartOf(items: seq<Item>, r: Range): int {
    FindIndex(items, r.start)
  }

  function EndOf(items: seq<Item>, r: Range): int {
    FindIndex(items, r.end)
  }

  /** The messages whose identity lies in one of the ranges. */
  predicate Shadowed(items: seq<Item>, ranges: seq<Range>, id: string) {
    exists i | 0 <= i < |ranges| :: InRange(items, ranges[i], id)
  }

  predicate InRange(items: seq<Item>, r: Range, id: string) {
    var start, end := StartOf(items, r), EndOf(items, r);
    0 <= start <= end && exists k | start <= k <= end :: items[k].id == id
  }

  function Kept(items: seq<Item>, all: seq<Item>, ranges: seq<Range>): seq<Item> {
    if items == [] then []
    else Kept(items[..|items| - 1], all, ranges) + if Shadowed(all, ranges, items[|items| - 1].id) then []
         else [items[|items| - 1]]
  }

  function Gone(items: seq<Item>, all: seq<Item>, ranges: seq<Range>): seq<Item> {
    if items == [] then []
    else Gone(items[..|items| - 1], all, ranges) + if Shadowed(all, ranges, items[|items| - 1].id)
         then [items[|items| - 1]] else []
  }

  // ---------------------------------------------------------------- the planned ranges

  function Optional(items: seq<Item>): seq<Item> {
    if items == [] then [] else Optional(items[..|items| - 1]) + if items[|items| - 1].required then []
                                else [items[|items| - 1]]
  }

  /** `summarizeSurface`: all optional messages but the last, when the checkpoint is worth less than they are. */
  function Old(items: seq<Item>): seq<Item> {
    var optional := Optional(items);
    if optional == [] then [] else optional[..|optional| - 1]
  }

  predicate Summarizes(items: seq<Item>, planningTokens: nat) {
    Old(items) != [] && planningTokens < Total(Old(items))
  }

  /** The messages that are not retained, in order. */
  function Removed(items: seq<Item>, retained: set<string>): seq<Item> {
    if items == [] then [] else Removed(items[..|items| - 1], retained) + if items[|items| - 1].id in retained then []
                                else [items[|items| - 1]]
  }

  function AddToRanges(all: seq<Item>, ranges: seq<Range>, item: Item): seq<Range> {
    if ranges != [] && FindIndex(all, item.id) == FindIndex(all, ranges[|ranges| - 1].end) + 1
    then ranges[..|ranges| - 1] + [Range(ranges[|ranges| - 1].start, item.id)]
    else ranges + [Range(item.id, item.id)]
  }

  function RangesOf(all: seq<Item>, removed: seq<Item>): seq<Range> {
    if removed == [] then [] else AddToRanges(all, RangesOf(all, removed[..|removed| - 1]), removed[|removed| - 1])
  }

  lemma RemovedUpTo(items: seq<Item>, retained: set<string>, i: nat)
    requires i < |items|
    ensures Removed(items[..i + 1], retained)
            == Removed(items[..i], retained) + if items[i].id in retained then [] else [items[i]]
  {
    assert items[..i + 1][..i] == items[..i];
  }

  lemma RangesUpTo(all: seq<Item>, removed: seq<Item>, i: nat)
    requires i < |removed|
    ensures RangesOf(all, removed[..i + 1]) == AddToRanges(all, RangesOf(all, removed[..i]), removed[i])
  {
    hide AddToRanges;
    assert removed[..i + 1][..i] == removed[..i];
  }

  /** `computeShadowedRanges` */
  method ComputeShadowedRanges(before: seq<Item>, retained: set<string>) returns (ranges: seq<Range>)
    ensures ranges == RangesOf(before, Removed(before, retained))
  {
    NoneRemoved(before, retained);
    hide Removed, RangesOf, FindIndex;
    var removed: seq<Item> := [];
    for i := 0 to |before|
      invariant removed == Removed(before[..i], retained)
    {
      RemovedUpTo(before, retained, i);
      if before[i].id !in retained {
        removed := removed + [before[i]];
      }
    }
    assert before[..|before|] == before && removed[..0] == [];
    ranges := [];
    for i := 0 to |removed|
      invariant ranges == RangesOf(before, removed[..i])
    {
      RangesUpTo(before, removed, i);
      var item := removed[i];
      if ranges != [] && FindIndex(before, item.id) == FindIndex(before, ranges[|ranges| - 1].end) + 1 {
        ranges := ranges[..|ranges| - 1] + [Range(ranges[|ranges| - 1].start, item.id)];
      } else {
        ranges := ranges + [Range(item.id, item.id)];
      }
    }
    assert removed[..|removed|] == removed;
  }

  lemma NoneRemoved(items: seq<Item>, retained: set<string>)
    ensures Removed(items[..0], retained) == [] && RangesOf(items, []) == []
  {
  }

  function Ids(items: seq<Item>): set<string> {
    set i | 0 <= i < |items| :: items[i].id
  }

  /** What the summary leaves on the surface: the checkpoint and everything that is not old. */
  function Retained(items: seq<Item>, checkpointId: string): set<string> {
    {checkpointId} + (set i | 0 <= i < |items| && items[i] !in Old(items) :: items[i].id)
  }

  /** The ranges of the planner's record. */
  function PlannedRanges(items: seq<Item>, checkpoint: Checkpoint): seq<Range> {
    if Summarizes(items, checkpoint.planningTokens) then RangesOf(items, Removed(items, Retained(items, checkpoint.id)))
        else []
  }

  function RequiredTokens(items: seq<Item>): nat {
    if items == [] then 0
    else RequiredTokens(items[..|items| - 1]) + if items[|items| - 1].required then items[|items| - 1].tokens else 0
  }

  function Max(a: nat, b: nat): nat {
    if a < b then b else a
  }

  /** `planUserCompactionSurface`: the adaptive planner with the one rule for a user's request. It gives up when the
      required messages alone exceed the budget, and otherwise runs the summary action once, unless the surface has no
      tokens. */
  method PlanUserCompaction(items: seq<Item>, checkpoint: Checkpoint, budget: nat) returns (record: Option<seq<Range>>)
    ensures record == if RequiredTokens(items) > Max(1, budget) then None else Some(PlannedRanges(items, checkpoint))
  {
    var surface, required := 0, 0;
    for i := 0 to |items|
      invariant surface == Total(items[..i]) && required == RequiredTokens(items[..i])
    {
      assert items[..i + 1][..i] == items[..i];
      surface := surface + items[i].tokens;
      required := required + if items[i].required then items[i].tokens else 0;
    }
    assert items[..|items|] == items;
    if required > Max(1, budget) {
      return None;
    }
    if surface == 0 {
      NothingToSummarize(items, checkpoint.planningTokens);
      return Some([]);
    }
    if Old(items) == [] || checkpoint.planningTokens >= Total(Old(items)) {
      return Some([]);
    }
    var ranges := ComputeShadowedRanges(items, Retained(items, checkpoint.id));
    return Some(ranges);
  }

  lemma {:induction false} OptionalTokens(items: seq<Item>)
    ensures Total(Optional(items)) <= Total(items)
  {
    if items != [] {
      OptionalTokens(items[..|items| - 1]);
      TotalAppend(Optional(items[..|items| - 1]), items[|items| - 1]);
    }
  }

  /** A surface without tokens has no old messages worth a checkpoint. */
  lemma NothingToSummarize(items: seq<Item>, planningTokens: nat)
    requires Total(items) == 0
    ensures !Summarizes(items, planningTokens)
  {
    OptionalTokens(items);
    var optional := Optional(items);
    if optional != [] {
      assert Total(optional) == Total(optional[..|optional| - 1]) + optional[|optional| - 1].tokens;
    }
  }

  // ---------------------------------------------------------------- the ranges of a repair

  /** In bounds, behind the range before, and free of required messages. */
  predicate RangeFits(items: seq<Item>, ranges: seq<Range>, i: nat)
    requires i < |ranges|
  {
    var start, end := StartOf(items, ranges[i]), EndOf(items, ranges[i]);
    && 0 <= start <= end
    && (i > 0 ==> EndOf(items, ranges[i - 1]) < start)
    && (forall k | start <= k <= end :: !items[k].required)
  }

  /** The verification loop over the lost ranges of a replayed window. */
  method VerifyRanges(items: seq<Item>, ranges: seq<Range>) returns (verified: Option<seq<Range>>)
    ensures verified == if forall i | 0 <= i < |ranges| :: RangeFits(items, ranges, i) then Some(ranges) else None
  {
    var kept: seq<Range> := [];
    for i := 0 to |ranges|
      invariant kept == ranges[..i] && forall j | 0 <= j < i :: RangeFits(items, ranges, j)
    {
      var start, end := FindIndex(items, ranges[i].start), FindIndex(items, ranges[i].end);
      var bad := start < 0 || end < start || (kept != [] && start <= FindIndex(items, kept[|kept| - 1].end));
      if !bad {
        bad := exists k | start <= k <= end :: items[k].required;
      }
      assert bad <==> !RangeFits(items, ranges, i);
      if bad {
        return None;
      }
      kept := kept + [Range(ranges[i].start, ranges[i].end)];
    }
    assert ranges[..|ranges|] == ranges;
    return Some(kept);
  }

  // ---------------------------------------------------------------- the compaction

  datatype Input = Input(
    items: seq<Item>,
    read: Read,
    budget: nat,
    checkpoint: Checkpoint,
    /** The lost ranges of a repair that replays the original window. */
    replayOriginal: Option<seq<Range>>,
    /** A transaction with the id of this repair is already committed, and whether it is of the same repair. */
    prior: Option<bool>,
    /** The first of the points 0 to 4 at which the abort signal is seen set; it stays set. */
    abortedAt: Option<nat>)

  predicate Aborted(input: Input, point: nat) {
    input.abortedAt.Some? && input.abortedAt.value <= point
  }

  function ShadowRanges(input: Input): Option<seq<Range>> {
    if input.replayOriginal.None? then Some(PlannedRanges(input.items, input.checkpoint))
    else if forall i | 0 <= i < |input.replayOriginal.value| :: RangeFits(input.items, input.replayOriginal.value, i)
                                                                then input.replayOriginal
    else None
  }

  function CheckpointItem(checkpoint: Checkpoint): Item {
    Item(checkpoint.id, checkpoint.tokens, false)
  }

  /** From the summary on. */
  function Summarized(input: Input, ranges: seq<Range>): Outcome {
    var shadowed := Total(Gone(input.items, input.items, ranges));
    var kept := Kept(input.items, input.items, ranges);
    if input.checkpoint.minimumTokens >= shadowed then NoOp
    else if Aborted(input, 2) then Cancelled
    else if Aborted(input, 3) then Cancelled
    else if input.checkpoint.summary != Complete then Failed
    else if input.checkpoint.tokens >= shadowed then NoOp
    else if input.checkpoint.tokens + Total(kept) > input.budget then Uncompressible
    else if Aborted(input, 4) then Cancelled
    else ToCommit([CheckpointItem(input.checkpoint)] + kept, ranges)
  }

  /** `compactSessionContext` up to the commit. */
  function Compacted(input: Input): Outcome {
    if Aborted(input, 0) then Cancelled
    else if input.prior.Some? then if input.prior.value then AlreadyCommitted else Failed
    else if input.read == Unreadable then if Aborted(input, 1) then Cancelled else Failed
    else if input.read == Changed then Stale
    else if |input.items| < 3 then NoOp
    else if RequiredTokens(input.items) > Max(1, input.budget) then Uncompressible
    else
      var ranges := ShadowRanges(input);
      if ranges.None? then Failed else if ranges.value == [] then NoOp else Summarized(input, ranges.value)
  }

  /** What the caller may commit: the checkpoint in front of the kept messages, fewer tokens than before and no more
      than the budget, and every required message. */
  ghost predicate Sound(input: Input, output: seq<Item>, ranges: seq<Range>) {
    && output == [CheckpointItem(input.checkpoint)] + Kept(input.items, input.items, ranges)
    && Total(output) < Total(input.items) && Total(output) <= input.budget
    && (DistinctIds(input.items) ==> forall k | 0 <= k < |input.items| && input.items[k].required ::
                                     input.items[k] in output)
  }

  method CompactSessionContext(input: Input) returns (outcome: Outcome)
    ensures outcome == Compacted(input)
    ensures outcome.ToCommit? ==> Sound(input, outcome.output, outcome.ranges) && input.checkpoint.summary == Complete
                                  && !Aborted(input, 4)
    ensures outcome == Cancelled ==> Aborted(input, 4)
    ensures Aborted(input, 0) ==> outcome == Cancelled
  {
    hide Shadowed, RangesOf, Removed, Old, Total, Kept, Gone, RequiredTokens, PlannedRanges, Sound, RangeFits;
    OutcomeIsSound(input);
    if Aborted(input, 0) {
      return Cancelled;
    }
    if input.prior.Some? {
      return if input.prior.value then AlreadyCommitted else Failed;
    }
    if input.read == Unreadable {
      return if Aborted(input, 1) then Cancelled else Failed;
    }
    if input.read == Changed {
      return Stale;
    }
    if |input.items| < 3 {
      return NoOp;
    }
    var record := PlanUserCompaction(input.items, input.checkpoint, input.budget);
    if record.None? {
      return Uncompressible;
    }
    if input.replayOriginal.Some? {
      record := VerifyRanges(input.items, input.replayOriginal.value);
      if record.None? {
        return Failed;
      }
    }
    if record.value == [] {
      return NoOp;
    }
    outcome := SummarizeAndCheck(input, record.value);
  }

  method SummarizeAndCheck(input: Input, ranges: seq<Range>) returns (outcome: Outcome)
    ensures outcome == Summarized(input, ranges)
  {
    hide Shadowed, Total, Kept, Gone;
    var shadowed := Total(Gone(input.items, input.items, ranges));
    if input.checkpoint.minimumTokens >= shadowed {
      return NoOp;
    }
    if Aborted(input, 2) {
      return Cancelled;
    }
    if input.checkpoint.summary == Threw {
      return if Aborted(input, 3) then Cancelled else Failed;
    }
    if Aborted(input, 3) {
      return Cancelled;
    }
    if input.checkpoint.summary == Incomplete {
      return Failed;
    }
    if input.checkpoint.tokens >= shadowed {
      return NoOp;
    }
    var kept := Kept(input.items, input.items, ranges);
    if input.checkpoint.tokens + Total(kept) > input.budget {
      return Uncompressible;
    }
    if Aborted(input, 4) {
      return Cancelled;
    }
    return ToCommit([CheckpointItem(input.checkpoint)] + kept, ranges);
  }

  // ---------------------------------------------------------------- tokens and order

  lemma {:induction false} TokensSplit(items: seq<Item>, all: seq<Item>, ranges: seq<Range>)
    ensures Total(Kept(items, all, ranges)) + Total(Gone(items, all, ranges)) == Total(items)
  {
    hide Shadowed;
    if items != [] {
      var shorter, last := items[..|items| - 1], items[|items| - 1];
      TokensSplit(shorter, all, ranges);
      TotalAppend(Kept(shorter, all, ranges), last);
      TotalAppend(Gone(shorter, all, ranges), last);
    }
  }

  lemma TotalAppend(items: seq<Item>, item: Item)
    ensures Total(items + [item]) == Total(items) + item.tokens
    ensures items + [] == items
  {
  }

  lemma {:induction false} TotalPrepend(item: Item, items: seq<Item>)
    ensures Total([item] + items) == item.tokens + Total(items)
  {
    if items == [] {
      assert [item] + items == [item];
      assert [item][..0] == [];
    } else {
      var shorter := items[..|items| - 1];
      TotalPrepend(item, shorter);
      assert ([item] + items)[..|items|] == [item] + shorter;
    }
  }

  /** An output that reaches the commit is the checkpoint followed by the messages outside the ranges; it has strictly
      fewer tokens than the input, and no more than the budget. */
  lemma ShrinksWithinBudget(input: Input)
    requires Compacted(input).ToCommit?
    ensures var r := Compacted(input);
            && r.output == [CheckpointItem(input.checkpoint)] + Kept(input.items, input.items, r.ranges)
            && Total(r.output) < Total(input.items)
            && Total(r.output) <= input.budget
  {
    hide Shadowed, Kept, Gone, Total;
    var r := Compacted(input);
    TokensSplit(input.items, input.items, r.ranges);
    TotalPrepend(CheckpointItem(input.checkpoint), Kept(input.items, input.items, r.ranges));
  }

  lemma IndexOf(items: seq<Item>, k: nat)
    requires DistinctIds(items) && k < |items|
    ensures FindIndex(items, items[k].id) == k
  {
  }

  lemma KeptUpTo(items: seq<Item>, ranges: seq<Range>, n: nat)
    requires 0 < n <= |items|
    ensures Kept(items[..n], items, ranges)
            == Kept(items[..n - 1], items, ranges)
               + if Shadowed(items, ranges, items[n - 1].id) then [] else [items[n - 1]]
  {
    hide Shadowed;
    assert items[..n][..n - 1] == items[..n - 1];
  }

  /** What is kept of a shorter prefix stands before the next message. */
  lemma KeptBefore(items: seq<Item>, x: Item, n: nat)
    requires DistinctIds(items) && 0 < n <= |items| && x in items[..n - 1]
    ensures FindIndex(items, x.id) < n - 1 && x != items[n - 1] && x in items[..n]
  {
    hide FindIndex;
    var k :| 0 <= k < n - 1 && items[..n - 1][k] == x;
    IndexOf(items, k);
    assert items[..n][k] == x;
  }

  lemma KeptNothing(items: seq<Item>, ranges: seq<Range>)
    ensures Kept(items[..0], items, ranges) == []
  {
  }

  /** The kept messages are exactly those outside the ranges, in their original order. */
  lemma {:induction false} KeptInOrder(items: seq<Item>, ranges: seq<Range>, n: nat)
    requires DistinctIds(items) && n <= |items|
    ensures var kept := Kept(items[..n], items, ranges);
            && (forall k | 0 <= k < n :: items[k] in kept <==> !Shadowed(items, ranges, items[k].id))
            && (forall i | 0 <= i < |kept| :: kept[i] in items[..n])
            && (forall i, j | 0 <= i < j < |kept| :: FindIndex(items, kept[i].id) < FindIndex(items, kept[j].id))
    decreases n
  {
    hide Shadowed, FindIndex, Kept, DistinctIds;
    if n == 0 {
      KeptNothing(items, ranges);
    } else {
      var kept := Kept(items[..n - 1], items, ranges);
      var now := Kept(items[..n], items, ranges);
      KeptInOrder(items, ranges, n - 1);
      KeptUpTo(items, ranges, n);
      IndexOf(items, n - 1);
      forall i | 0 <= i < |kept|
        ensures FindIndex(items, kept[i].id) < n - 1 && kept[i] != items[n - 1] && kept[i] in items[..n]
      {
        KeptBefore(items, kept[i], n);
      }
      assert items[..n][n - 1] == items[n - 1];
      forall k | 0 <= k < n
        ensures items[k] in now <==> !Shadowed(items, ranges, items[k].id)
      {
        IndexOf(items, k);
        assert k < n - 1 ==> items[k] != items[n - 1];
      }
      forall i, j | 0 <= i < j < |now|
        ensures FindIndex(items, now[i].id) < FindIndex(items, now[j].id)
      {
        assert now[i] == kept[i];
      }
    }
  }

  // ---------------------------------------------------------------- what the ranges cover

  /** A range as the interval of positions it names. */
  datatype Span = Span(first: int, last: int)

  function SpanOf(items: seq<Item>, r: Range): Span {
    Span(StartOf(items, r), EndOf(items, r))
  }

  function Spans(items: seq<Item>, ranges: seq<Range>): (spans: seq<Span>)
    ensures |spans| == |ranges|
  {
    seq(|ranges|, i requires 0 <= i < |ranges| => SpanOf(items, ranges[i]))
  }

  /** Increasing intervals whose union is exactly the messages of the first `n` that are not retained. */
  predicate Covers(items: seq<Item>, spans: seq<Span>, retained: set<string>, n: nat)
    requires n <= |items|
  {
    && (forall i | 0 <= i < |spans| :: 0 <= spans[i].first <= spans[i].last < n)
    && (forall i, k | 0 <= i < |spans| && spans[i].first <= k <= spans[i].last :: items[k].id !in retained)
    && (forall i, j | 0 <= i < j < |spans| :: spans[i].last < spans[j].first)
    && (forall k | 0 <= k < n && items[k].id !in retained :: InSome(spans, k))
  }

  predicate InSome(spans: seq<Span>, k: int) {
    exists i | 0 <= i < |spans| :: spans[i].first <= k <= spans[i].last
  }

  lemma KeepsSome(spans: seq<Span>, longer: seq<Span>, k: int)
    requires InSome(spans, k) && |spans| <= |longer|
    requires forall i | 0 <= i < |spans| :: longer[i].first == spans[i].first && spans[i].last <= longer[i].last
    ensures InSome(longer, k)
  {
  }

  lemma AddSpan(items: seq<Item>, spans: seq<Span>, retained: set<string>, n: nat)
    requires n < |items| && Covers(items, spans, retained, n) && items[n].id !in retained
    ensures Covers(items, spans + [Span(n, n)], retained, n + 1)
  {
    var longer := spans + [Span(n, n)];
    assert longer[|spans|] == Span(n, n);
    assert forall i | 0 <= i < |spans| :: longer[i] == spans[i];
    forall k | 0 <= k < n + 1 && items[k].id !in retained
      ensures InSome(longer, k)
    {
      if k < n {
        KeepsSome(spans, longer, k);
      }
    }
    hide InSome;
  }

  lemma GrowSpan(items: seq<Item>, spans: seq<Span>, retained: set<string>, n: nat)
    requires n < |items| && Covers(items, spans, retained, n) && items[n].id !in retained && spans != []
        && spans[|spans| - 1].last == n - 1
    ensures Covers(items, spans[..|spans| - 1] + [Span(spans[|spans| - 1].first, n)], retained, n + 1)
  {
    var last := |spans| - 1;
    var longer := spans[..last] + [Span(spans[last].first, n)];
    assert longer[last] == Span(spans[last].first, n);
    assert forall i | 0 <= i < last :: longer[i] == spans[i];
    forall k | 0 <= k < n + 1 && items[k].id !in retained
      ensures InSome(longer, k)
    {
      if k < n {
        KeepsSome(spans, longer, k);
      } else {
        assert longer[last].first <= k <= longer[last].last;
      }
    }
    hide InSome;
  }

  lemma ExtendCovers(items: seq<Item>, ranges: seq<Range>, retained: set<string>, n: nat)
    requires DistinctIds(items) && n < |items| && Covers(items, Spans(items, ranges), retained, n)
        && items[n].id !in retained
    ensures Covers(items, Spans(items, AddToRanges(items, ranges, items[n])), retained, n + 1)
  {
    hide FindIndex, Covers;
    IndexOf(items, n);
    var spans := Spans(items, ranges);
    var longer := Spans(items, AddToRanges(items, ranges, items[n]));
    if ranges != [] && EndOf(items, ranges[|ranges| - 1]) == n - 1 {
      GrowSpan(items, spans, retained, n);
      assert longer == spans[..|spans| - 1] + [Span(spans[|spans| - 1].first, n)];
    } else {
      AddSpan(items, spans, retained, n);
      assert longer == spans + [Span(n, n)];
    }
  }

  lemma RemovedStep(items: seq<Item>, retained: set<string>, n: nat)
    requires 0 < n <= |items|
    ensures var before, now := Removed(items[..n - 1], retained), Removed(items[..n], retained);
            && (items[n - 1].id in retained ==> now == before)
            && (items[n - 1].id !in retained ==> RangesOf(items, now)
                                                 == AddToRanges(items, RangesOf(items, before), items[n - 1]))
  {
    hide AddToRanges;
    var before := Removed(items[..n - 1], retained);
    assert items[..n][..n - 1] == items[..n - 1];
    assert (before + [items[n - 1]])[..|before|] == before;
  }

  lemma {:induction false} RangesCover(items: seq<Item>, retained: set<string>, n: nat)
    requires DistinctIds(items) && n <= |items|
    ensures Covers(items, Spans(items, RangesOf(items, Removed(items[..n], retained))), retained, n)
    decreases n
  {
    if n > 0 {
      hide AddToRanges, FindIndex, Covers, Spans, DistinctIds, RangesOf, Removed;
      var before := RangesOf(items, Removed(items[..n - 1], retained));
      RangesCover(items, retained, n - 1);
      RemovedStep(items, retained, n);
      if items[n - 1].id !in retained {
        ExtendCovers(items, before, retained, n - 1);
      } else {
        StillCovers(items, Spans(items, before), retained, n - 1);
      }
    }
  }

  lemma StillCovers(items: seq<Item>, spans: seq<Span>, retained: set<string>, n: nat)
    requires n < |items| && Covers(items, spans, retained, n) && items[n].id in retained
    ensures Covers(items, spans, retained, n + 1)
  {
  }

  lemma CoveredIsShadowed(items: seq<Item>, ranges: seq<Range>, k: nat)
    requires k < |items| && InSome(Spans(items, ranges), k) && forall i | 0 <= i < |ranges| ::
        Spans(items, ranges)[i].first >= 0
    ensures Shadowed(items, ranges, items[k].id)
  {
  }

  lemma ShadowedIsCovered(items: seq<Item>, ranges: seq<Range>, k: nat)
    requires DistinctIds(items) && k < |items| && Shadowed(items, ranges, items[k].id)
    ensures InSome(Spans(items, ranges), k)
  {
    hide FindIndex;
    var spans := Spans(items, ranges);
    var i :| 0 <= i < |ranges| && InRange(items, ranges[i], items[k].id);
    assert spans[i] == SpanOf(items, ranges[i]);
    assert spans[i].first <= k <= spans[i].last;
  }

  lemma CoverMeansShadowed(items: seq<Item>, ranges: seq<Range>, retained: set<string>, k: nat)
    requires DistinctIds(items) && k < |items| && Covers(items, Spans(items, ranges), retained, |items|)
    ensures Shadowed(items, ranges, items[k].id) <==> items[k].id !in retained
  {
    hide FindIndex, Shadowed, Spans;
    if Shadowed(items, ranges, items[k].id) {
      ShadowedIsCovered(items, ranges, k);
    } else if items[k].id !in retained {
      CoveredIsShadowed(items, ranges, k);
    }
  }

  lemma {:induction false} OptionalElements(items: seq<Item>)
    ensures forall x | x in Optional(items) :: x in items && !x.required
  {
    if items != [] {
      OptionalElements(items[..|items| - 1]);
    }
  }

  /** The planner shadows exactly the old messages: every optional message but the last one. */
  lemma PlanShadowsOldMessages(items: seq<Item>, checkpoint: Checkpoint, k: nat)
    requires DistinctIds(items) && k < |items| && Summarizes(items, checkpoint.planningTokens)
        && checkpoint.id !in Ids(items)
    ensures var ranges := PlannedRanges(items, checkpoint);
            Shadowed(items, ranges, items[k].id) <==> items[k] in Old(items)
  {
    hide RangesOf, Removed, Old, Covers, Shadowed;
    var retained := Retained(items, checkpoint.id);
    assert items[..|items|] == items;
    RangesCover(items, retained, |items|);
    CoverMeansShadowed(items, RangesOf(items, Removed(items, retained)), retained, k);
    assert items[k].id in Ids(items);
    assert items[k].id in retained <==> items[k] !in Old(items) by {
      if items[k].id in retained {
        var j :| 0 <= j < |items| && items[j] !in Old(items) && items[j].id == items[k].id;
        assert j == k;
      }
    }
  }

  lemma PlanKeepsRequired(items: seq<Item>, checkpoint: Checkpoint, k: nat)
    requires DistinctIds(items) && k < |items| && items[k].required
    ensures !Shadowed(items, PlannedRanges(items, checkpoint), items[k].id)
  {
    hide RangesOf, Removed, Covers;
    if Summarizes(items, checkpoint.planningTokens) {
      var retained := Retained(items, checkpoint.id);
      assert items[..|items|] == items;
      RangesCover(items, retained, |items|);
      CoverMeansShadowed(items, RangesOf(items, Removed(items, retained)), retained, k);
      OptionalElements(items);
      assert items[k] !in Old(items);
    }
  }

  lemma RepairKeepsRequired(items: seq<Item>, ranges: seq<Range>, k: nat)
    requires DistinctIds(items) && k < |items| && items[k].required && forall i | 0 <= i < |ranges| ::
        RangeFits(items, ranges, i)
    ensures !Shadowed(items, ranges, items[k].id)
  {
    hide FindIndex;
    forall i | 0 <= i < |ranges|
      ensures !InRange(items, ranges[i], items[k].id)
    {
      assert RangeFits(items, ranges, i);
      assert forall j | 0 <= j < |items| && j != k :: items[j].id != items[k].id;
    }
  }

  /** Every required message survives every compaction, planned or replayed. */
  lemma RequiredMessagesSurvive(input: Input, k: nat)
    requires DistinctIds(input.items) && Compacted(input).ToCommit? && k < |input.items| && input.items[k].required
    ensures input.items[k] in Compacted(input).output
  {
    hide RangesOf, Removed, Old, Shadowed, Total, Gone, Kept, PlannedRanges, RangeFits;
    var ranges := Compacted(input).ranges;
    if input.replayOriginal.None? {
      PlanKeepsRequired(input.items, input.checkpoint, k);
    } else {
      RepairKeepsRequired(input.items, ranges, k);
    }
    assert input.items[..|input.items|] == input.items;
    KeptInOrder(input.items, ranges, |input.items|);
    assert input.items[k] in Kept(input.items, input.items, ranges);
  }

  lemma OutcomeIsSound(input: Input)
    ensures var r := Compacted(input); r.ToCommit? ==> Sound(input, r.output, r.ranges)
  {
    hide Compacted, Kept, Total;
    var r := Compacted(input);
    if r.ToCommit? {
      ShrinksWithinBudget(input);
      if DistinctIds(input.items) {
        forall k | 0 <= k < |input.items| && input.items[k].required ensures input.items[k] in r.output {
          RequiredMessagesSurvive(input, k);
        }
      }
    }
  }

  lemma {:induction false} FittingRangesIncrease(items: seq<Item>, ranges: seq<Range>, i: nat, j: nat)
    requires i < j < |ranges| && forall m | 0 <= m < |ranges| :: RangeFits(items, ranges, m)
    ensures EndOf(items, ranges[i]) < StartOf(items, ranges[j])
    decreases j - i
  {
    hide FindIndex;
    assert RangeFits(items, ranges, j);
    if i < j - 1 {
      FittingRangesIncrease(items, ranges, i, j - 1);
      assert RangeFits(items, ranges, j - 1);
    }
  }

  /** A replayed original window is compacted only if every lost range lies inside the surface, holds no required
      message, and comes behind all ranges before it; otherwise the repair fails. */
  lemma ReplayedRangesAreSound(input: Input)
    requires input.replayOriginal.Some? && input.read == Current && |input.items| >= 3 && input.prior.None?
        && !Aborted(input, 0)
    requires RequiredTokens(input.items) <= Max(1, input.budget)
    ensures var ranges := input.replayOriginal.value;
            && (Compacted(input).ToCommit? ==> Compacted(input).ranges == ranges)
            && (Compacted(input) != Failed ==> forall i, j | 0 <= i < j < |ranges| ::
                  0 <= StartOf(input.items, ranges[i]) <= EndOf(input.items, ranges[i]) < StartOf(input.items,
                        ranges[j]) < |input.items|)
            && ((exists i | 0 <= i < |ranges| :: !RangeFits(input.items, ranges, i)) ==> Compacted(input) == Failed)
  {
    hide FindIndex, Total, Kept, Gone, Shadowed, RangeFits;
    var ranges := input.replayOriginal.value;
    var fits := forall i | 0 <= i < |ranges| :: RangeFits(input.items, ranges, i);
    if fits {
      forall i, j | 0 <= i < j < |ranges|
        ensures 0 <= StartOf(input.items, ranges[i]) <= EndOf(input.items, ranges[i]) < StartOf(input.items,
              ranges[j]) < |input.items|
      {
        FittingRangesIncrease(input.items, ranges, i, j);
        FitsInside(input.items, ranges, i);
        FitsInside(input.items, ranges, j);
      }
    } else {
      assert ShadowRanges(input).None?;
    }
  }

  lemma FitsInside(items: seq<Item>, ranges: seq<Range>, i: nat)
    requires i < |ranges| && RangeFits(items, ranges, i)
    ensures 0 <= StartOf(items, ranges[i]) <= EndOf(items, ranges[i]) < |items|
  {
  }
}
