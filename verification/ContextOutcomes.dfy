/** With what a context compaction ends, for every input (electron/sessionContextCompaction.ts,
    src/shared/turnBoundaryCompaction.ts, src/shared/compactionActions.ts). */
module ContextOutcomes {
  import opened Json
  import opened ContextCompaction

  // ---------------------------------------------------------------- tokens

  /** Every message is required or optional. */
  lemma {:induction false} RequiredAndOptional(items: seq<Item>)
    ensures RequiredTokens(items) + Total(Optional(items)) == Total(items)
  {
    if items != [] {
      RequiredAndOptional(items[..|items| - 1]);
      TotalAppend(Optional(items[..|items| - 1]), items[|items| - 1]);
    }
  }

  /** The tokens of the messages in the ranges. */
  function Worth(items: seq<Item>, ranges: seq<Range>): int {
    Total(items) - Total(Kept(items, items, ranges))
  }

  lemma GoneIsWorth(items: seq<Item>, ranges: seq<Range>)
    ensures Total(Gone(items, items, ranges)) == Worth(items, ranges)
  {
    TokensSplit(items, items, ranges);
  }

  // ---------------------------------------------------------------- ranges

  predicate Names(items: seq<Item>, r: Range, span: Span) {
    0 <= span.first <= span.last < |items| && items[span.first].id == r.start && items[span.last].id == r.end
  }

  /** The i-th range names a stretch of the surface behind the one before, without a required message. */
  predicate Stretch(items: seq<Item>, ranges: seq<Range>, spans: seq<Span>, i: nat)
    requires i < |ranges| == |spans|
  {
    && Names(items, ranges[i], spans[i])
    && (i > 0 ==> spans[i - 1].last < spans[i].first)
    && (forall k | spans[i].first <= k <= spans[i].last :: !items[k].required)
  }

  predicate Stretches(items: seq<Item>, ranges: seq<Range>, spans: seq<Span>) {
    |spans| == |ranges| && forall i | 0 <= i < |ranges| :: Stretch(items, ranges, spans, i)
  }

  predicate AllFit(items: seq<Item>, ranges: seq<Range>) {
    forall i | 0 <= i < |ranges| :: RangeFits(items, ranges, i)
  }

  lemma NamesIff(items: seq<Item>, r: Range, span: Span)
    requires DistinctIds(items)
    ensures Names(items, r, span) <==> span == SpanOf(items, r) && 0 <= span.first <= span.last
  {
    hide FindIndex;
    if Names(items, r, span) {
      IndexOf(items, span.first);
      IndexOf(items, span.last);
    }
  }

  lemma FitsIff(items: seq<Item>, ranges: seq<Range>, spans: seq<Span>, i: nat)
    requires DistinctIds(items) && i < |ranges| == |spans|
    requires i > 0 ==> spans[i - 1] == SpanOf(items, ranges[i - 1])
    ensures Stretch(items, ranges, spans, i) <==> RangeFits(items, ranges, i) && spans[i] == SpanOf(items, ranges[i])
  {
    hide FindIndex, DistinctIds;
    NamesIff(items, ranges[i], spans[i]);
  }

  /** The lost ranges of a replayed window are accepted exactly when they name such stretches. */
  lemma RangesFitIff(items: seq<Item>, ranges: seq<Range>)
    requires DistinctIds(items)
    ensures AllFit(items, ranges) <==> exists spans :: Stretches(items, ranges, spans)
  {
    hide Stretch, RangeFits, DistinctIds, Names;
    if AllFit(items, ranges) {
      var spans := Spans(items, ranges);
      forall i | 0 <= i < |ranges| ensures Stretch(items, ranges, spans, i) {
        FitsIff(items, ranges, spans, i);
      }
      assert Stretches(items, ranges, spans);
    }
    if spans :| Stretches(items, ranges, spans) {
      forall i | 0 <= i < |ranges| ensures RangeFits(items, ranges, i) {
        StretchNames(items, ranges, spans, i);
        if i > 0 {
          StretchNames(items, ranges, spans, i - 1);
        }
        FitsIff(items, ranges, spans, i);
      }
    }
  }

  lemma StretchNames(items: seq<Item>, ranges: seq<Range>, spans: seq<Span>, i: nat)
    requires DistinctIds(items) && i < |ranges| == |spans| && Stretch(items, ranges, spans, i)
    ensures spans[i] == SpanOf(items, ranges[i])
  {
    NamesIff(items, ranges[i], spans[i]);
  }

  /** The optional messages but the last, which a plan would replace. */
  function Replaceable(items: seq<Item>): seq<Item> {
    var optional := Optional(items);
    optional[..if optional == [] then 0 else |optional| - 1]
  }

  /** There is a plan exactly when at least two messages are optional and the checkpoint is planned for less than all of
      them but the last. */
  lemma PlansIff(items: seq<Item>, checkpoint: Checkpoint)
    requires DistinctIds(items) && checkpoint.id !in Ids(items)
    ensures PlannedRanges(items, checkpoint) != [] <==>
            |Optional(items)| >= 2 && checkpoint.planningTokens < Total(Replaceable(items))
  {
    assert Replaceable(items) == Old(items);
    if Summarizes(items, checkpoint.planningTokens) {
      OptionalElements(items);
      assert Old(items)[0] in Optional(items);
      var k :| 0 <= k < |items| && items[k] == Old(items)[0];
      PlanShadowsOldMessages(items, checkpoint, k);
      assert items[k] in Old(items);
      hide RangesOf, Removed, Optional, FindIndex;
    }
  }

  // ---------------------------------------------------------------- outcomes

  /** The signal is not set up to this point. */
  predicate Unsignalled(input: Input, point: nat) {
    input.abortedAt.Some? ==> point < input.abortedAt.value
  }

  /** A compaction of this surface is looked at. */
  predicate Considered(input: Input) {
    Unsignalled(input, 0) && input.prior.None? && input.read == Current && |input.items| >= 3
  }

  /** The required messages alone do not exceed the budget; a budget below one counts as one. */
  predicate Feasible(input: Input) {
    RequiredTokens(input.items) <= 1 || RequiredTokens(input.items) <= input.budget
  }

  /** What is to be replaced: what the repair lost, or what is planned. */
  ghost predicate Chosen(input: Input, ranges: seq<Range>) {
    && ranges != []
    && match input.replayOriginal
       case Some(lost) => ranges == lost && exists spans :: Stretches(input.items, lost, spans)
       case None =>
         && ranges == PlannedRanges(input.items, input.checkpoint)
         && |Optional(input.items)| >= 2
         && input.checkpoint.planningTokens < Total(Replaceable(input.items))
  }

  /** A summary is asked for: even the smallest checkpoint would be worth less than what it replaces. */
  ghost predicate Asks(input: Input, ranges: seq<Range>) {
    && Considered(input) && Feasible(input) && Chosen(input, ranges)
    && input.checkpoint.minimumTokens < Worth(input.items, ranges)
  }

  /** A whole summary came back in time. */
  ghost predicate Answered(input: Input, ranges: seq<Range>) {
    Asks(input, ranges) && Unsignalled(input, 3) && input.checkpoint.summary == Complete
  }

  predicate Smaller(input: Input, ranges: seq<Range>) {
    input.checkpoint.tokens < Worth(input.items, ranges)
  }

  predicate WithinBudget(input: Input, ranges: seq<Range>) {
    input.checkpoint.tokens + Total(input.items) - Worth(input.items, ranges) <= input.budget
  }

  ghost predicate AsksSome(input: Input) {
    exists ranges :: Asks(input, ranges)
  }

  /** A whole summary came back in time that makes the surface smaller, and brings it within the budget or not. */
  ghost predicate Offers(input: Input, within: bool) {
    exists ranges :: Offer(input, ranges, within)
  }

  ghost predicate Offer(input: Input, ranges: seq<Range>, within: bool) {
    Answered(input, ranges) && Smaller(input, ranges) && WithinBudget(input, ranges) == within
  }

  /** There is something to replace, but the smallest or the real checkpoint is worth no less. */
  ghost predicate NotWorthIt(input: Input) {
    exists ranges | Chosen(input, ranges) :: NoGain(input, ranges)
  }

  ghost predicate NoGain(input: Input, ranges: seq<Range>) {
    || input.checkpoint.minimumTokens >= Worth(input.items, ranges)
    || (Answered(input, ranges) && !Smaller(input, ranges))
  }

  ghost predicate NothingPlanned(input: Input) {
    input.replayOriginal.None? && forall ranges :: !Chosen(input, ranges)
  }

  ghost predicate NoStretches(input: Input) {
    input.replayOriginal.Some? && forall spans :: !Stretches(input.items, input.replayOriginal.value, spans)
  }

  ghost predicate Distinct(input: Input) {
    DistinctIds(input.items) && input.checkpoint.id !in Ids(input.items)
  }

  lemma ChosenIs(input: Input, ranges: seq<Range>)
    requires Distinct(input)
    ensures Chosen(input, ranges) <==> ShadowRanges(input) == Some(ranges) && ranges != []
  {
    hide PlannedRanges, Optional, Replaceable, DistinctIds, Ids, RangeFits, Stretches;
    PlansIff(input.items, input.checkpoint);
    if input.replayOriginal.Some? {
      RangesFitIff(input.items, input.replayOriginal.value);
    }
  }

  /** It reaches the commit, with these ranges, exactly when a whole summary came back in time that makes the surface
      smaller and brings it within the budget, and the signal is still not set. */
  lemma CommitsIff(input: Input, ranges: seq<Range>)
    requires Distinct(input)
    ensures Compacted(input).ToCommit? && Compacted(input).ranges == ranges <==>
            Answered(input, ranges) && Smaller(input, ranges) && WithinBudget(input, ranges) && Unsignalled(input, 4)
    ensures Compacted(input).ToCommit? ==>
              [Item(input.checkpoint.id, input.checkpoint.tokens, false)] <= Compacted(input).output
  {
    hide Chosen, Distinct, ShadowRanges, Total, Kept, Gone, RequiredTokens;
    ChosenIs(input, ranges);
    GoneIsWorth(input.items, ranges);
  }

  lemma SummaryCancelled(input: Input, ranges: seq<Range>)
    requires Chosen(input, ranges) && Considered(input) && Feasible(input)
    ensures Summarized(input, ranges) == Cancelled <==>
            || (!Unsignalled(input, 3) && Asks(input, ranges))
            || (!Unsignalled(input, 4) && Offer(input, ranges, true))
  {
    hide Chosen, Total, Kept, Gone, RequiredTokens;
    GoneIsWorth(input.items, ranges);
  }

  lemma CancelledBefore(input: Input)
    ensures var ranges := ShadowRanges(input);
            if Considered(input) && Feasible(input) && ranges.Some? && ranges.value != []
              then Compacted(input) == Summarized(input, ranges.value)
            else Compacted(input) == Cancelled <==>
                 !Unsignalled(input, 0)
                 || (!Unsignalled(input, 1) && input.prior.None? && input.read == Unreadable)
  {
    hide ShadowRanges, RequiredTokens, Summarized;
  }

  /** It is cancelled exactly when the signal is set at the beginning, at an error of reading the context, when the
      summary is asked for or comes back, or before the commit. */
  lemma CancelledIff(input: Input)
    requires Distinct(input)
    ensures Compacted(input) == Cancelled <==>
            || !Unsignalled(input, 0)
            || (!Unsignalled(input, 1) && input.prior.None? && input.read == Unreadable)
            || (!Unsignalled(input, 3) && AsksSome(input))
            || (!Unsignalled(input, 4) && Offers(input, true))
  {
    var choice := Choice(input);
    CancelledBefore(input);
    if choice.Some? && Considered(input) && Feasible(input) {
      SummaryCancelled(input, choice.value);
    }
    hide Chosen, Distinct, RequiredTokens, AsksSome, Offers, Summarized, Compacted, Worth, Smaller, WithinBudget,
        ShadowRanges;
  }

  /** There is nothing to do exactly when there are too few messages, nothing is lost or planned, or the checkpoint is
      worth no less than what it would replace. */
  lemma NoOpIff(input: Input)
    requires Distinct(input)
    ensures Compacted(input) == NoOp <==>
            && Unsignalled(input, 0) && input.prior.None? && input.read == Current
            && (|input.items| < 3
                || (Feasible(input)
                    && (input.replayOriginal == Some([]) || NothingPlanned(input) || NotWorthIt(input))))
  {
    var _ := Choice(input);
    hide Chosen, Distinct, Total, Kept, Gone, RequiredTokens, RangeFits, PlannedRanges, NotWorthIt, NothingPlanned;
  }

  lemma SummaryTooLong(input: Input, ranges: seq<Range>)
    requires Chosen(input, ranges) && Considered(input) && Feasible(input)
    ensures Summarized(input, ranges) == Uncompressible <==> Offer(input, ranges, false)
  {
    hide Chosen, Total, Kept, Gone, RequiredTokens;
    GoneIsWorth(input.items, ranges);
  }

  /** It is given up as incompressible exactly when the required messages alone, or the checkpoint with what is kept,
      exceed the budget. */
  lemma UncompressibleIff(input: Input)
    requires Distinct(input)
    ensures Compacted(input) == Uncompressible <==>
            Considered(input) && (!Feasible(input) || Offers(input, false))
  {
    var choice := Choice(input);
    if choice.Some? && Considered(input) && Feasible(input) {
      SummaryTooLong(input, choice.value);
    }
    hide Chosen, Distinct, ShadowRanges, RequiredTokens, Offers, Summarized, Worth, Smaller, WithinBudget;
  }

  /** It fails exactly when another repair is committed under its name, the context cannot be read, the lost ranges
      are not stretches without required messages, or asking for the summary gives none that is whole. */
  lemma FailedIff(input: Input)
    requires Distinct(input)
    ensures Compacted(input) == Failed <==>
            && Unsignalled(input, 0)
            && (input.prior == Some(false)
                || (input.prior.None? && input.read == Unreadable && Unsignalled(input, 1))
                || (Considered(input) && Feasible(input) && NoStretches(input))
                || (input.checkpoint.summary != Complete && Unsignalled(input, 3) && AsksSome(input)))
  {
    var _ := Choice(input);
    hide Chosen, Distinct, Stretches, Total, Kept, Gone, RequiredTokens, RangeFits, PlannedRanges, AsksSome,
        NoStretches;
  }

  /** At most one choice, the one the code makes, and everything is about that one. */
  lemma Choice(input: Input) returns (choice: Option<seq<Range>>)
    requires Distinct(input)
    ensures choice == if ShadowRanges(input) == Some([]) then None else ShadowRanges(input)
    ensures choice.Some? ==> Chosen(input, choice.value)
                             && Total(Gone(input.items, input.items, choice.value)) == Worth(input.items, choice.value)
    ensures AsksSome(input) <==> choice.Some? && Asks(input, choice.value)
    ensures forall within :: Offers(input, within) <==> choice.Some? && Offer(input, choice.value, within)
    ensures NotWorthIt(input) <==> choice.Some? && NoGain(input, choice.value)
    ensures NothingPlanned(input) <==> input.replayOriginal.None? && choice.None?
    ensures NoStretches(input) <==> input.replayOriginal.Some? && ShadowRanges(input).None?
  {
    choice := if ShadowRanges(input) == Some([]) then None else ShadowRanges(input);
    forall ranges ensures Chosen(input, ranges) <==> choice == Some(ranges) {
      ChosenIs(input, ranges);
    }
    if choice.Some? {
      GoneIsWorth(input.items, choice.value);
    }
    if input.replayOriginal.Some? {
      RangesFitIff(input.items, input.replayOriginal.value);
    }
    hide Chosen, Worth, Gone, Total, Smaller, WithinBudget, Stretches, NoGain, RangeFits, PlannedRanges;
  }
}
