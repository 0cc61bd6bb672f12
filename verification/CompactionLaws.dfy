/** When a compaction is committed, when a call refuses, and how its events are numbered
    (src/shared/compactionEvents.ts, electron/sessionEvents.ts). */
module CompactionLaws {
  import opened Json
  import opened CompactionTransaction

  // ---------------------------------------------------------------- what the fold commits

  /** Shadow ranges are absent, or a list of records that name their start and their end. */
  predicate RangesInOrder(summary: Payload) {
    "shadowedRanges" in summary && summary["shadowedRanges"] != Null ==>
      && summary["shadowedRanges"].Arr?
      && forall range | range in summary["shadowedRanges"].items ::
           range.Obj? && StringField(range.fields, "start").Some? && StringField(range.fields, "end").Some?
  }

  /** A summary that carries its candidate carries the digest of that candidate. */
  predicate DigestInOrder(summary: Payload, hash: Hash) {
    "candidate" in summary ==>
        "summaryHash" in summary && summary["summaryHash"] == Str(hash(summary["candidate"]))
  }

  /** Both name the window under these keys, and not the same one. */
  predicate Contradict(a: Payload, k: string, b: Payload, l: string) {
    StringField(a, k).Some? && StringField(b, l).Some? && a[k] != b[l]
  }

  /** The window a summary was made from is the start's, the one it was made for the end's, and its own the start's, as
      far as they are named. */
  predicate WindowsInOrder(start: Payload, summary: Payload, end: Payload) {
    && !Contradict(summary, "inputWindowId", start, "windowId")
    && !Contradict(summary, "outputWindowId", end, "windowId")
    && !Contradict(summary, "windowId", start, "windowId")
  }

  /** The field is there on both sides with the same value that is no record and no list, or on neither. */
  predicate SamePlain(a: Payload, b: Payload, key: string) {
    if key in a then key in b && a[key] == b[key] && !a[key].Obj? && !a[key].Arr? else key !in b
  }

  /** An end commits its transaction exactly when digest, ranges and windows are in order, it points at the start and
      the summary, and repeats their fingerprints and digest. */
  lemma CommitsIff(start: Event, summary: Event, end: Event, hash: Hash)
    ensures Commits(start, summary, end, hash) <==>
            && DigestInOrder(summary.payload, hash) && RangesInOrder(summary.payload)
            && WindowsInOrder(start.payload, summary.payload, end.payload)
            && Field(end.payload, "startSeq") == Some(Num(start.seqNo))
            && Field(end.payload, "summarySeq") == Some(Num(summary.seqNo))
            && SamePlain(end.payload, start.payload, "inputSurfaceFingerprint")
            && SamePlain(end.payload, summary.payload, "outputSurfaceFingerprint")
            && SamePlain(end.payload, summary.payload, "summaryHash")
  {
    RangesIff(summary.payload);
    WindowsIff(start.payload, summary.payload, end.payload);
    hide ValidShadowRanges, RangesInOrder, WindowsMatch, WindowsInOrder;
    assert HashMatches(summary.payload, hash) <==> DigestInOrder(summary.payload, hash);
  }

  lemma RangesIff(summary: Payload)
    ensures ValidShadowRanges(summary) <==> RangesInOrder(summary)
  {
  }

  lemma WindowsIff(start: Payload, summary: Payload, end: Payload)
    ensures WindowsMatch(start, summary, end) <==> WindowsInOrder(start, summary, end)
  {
  }

  // ---------------------------------------------------------------- what is in the log

  predicate IsOf(log: Log, id: string, kind: Kind, i: nat) {
    i < |log| && IsCandidate(log[i], id) && log[i].kind == kind
  }

  /** The first event of the kind in the transaction. */
  predicate FirstOf(log: Log, id: string, kind: Kind, i: nat) {
    IsOf(log, id, kind, i) && forall j | 0 <= j < i :: !IsOf(log, id, kind, j)
  }

  /** The transaction has an event of the kind. */
  ghost predicate Has(log: Log, id: string, kind: Kind) {
    exists i: nat :: IsOf(log, id, kind, i)
  }

  /** The transaction has more than one. */
  predicate Doubled(log: Log, id: string, kind: Kind) {
    exists i, j | 0 <= i < j < |log| :: IsOf(log, id, kind, i) && IsOf(log, id, kind, j)
  }

  /** An end of the transaction that says it is committed. */
  predicate IsEnd(log: Log, id: string, i: nat) {
    IsOf(log, id, End, i) && Field(log[i].payload, "status") == Some(Str("committed"))
  }

  ghost predicate Ended(log: Log, id: string) {
    exists i: nat :: IsEnd(log, id, i)
  }

  predicate FirstEnd(log: Log, id: string, i: nat) {
    IsEnd(log, id, i) && forall j | 0 <= j < i :: !IsEnd(log, id, j)
  }

  lemma {:induction false} OfKindAppend(events: Log, e: Event, kind: Kind)
    ensures OfKind(events + [e], kind) == OfKind(events, kind) + (if e.kind == kind then [e] else [])
  {
    if events != [] {
      assert (events + [e])[1..] == events[1..] + [e];
      OfKindAppend(events[1..], e, kind);
    } else {
      assert [e][1..] == [];
    }
  }

  lemma {:induction false} CommittedEndsAppend(events: Log, e: Event)
    ensures CommittedEnds(events + [e]) == CommittedEnds(events)
            + (if e.kind == End && Field(e.payload, "status") == Some(Str("committed")) then [e] else [])
  {
    if events != [] {
      assert (events + [e])[1..] == events[1..] + [e];
      CommittedEndsAppend(events[1..], e);
    } else {
      assert [e][1..] == [];
    }
  }

  /** The log without its last event. */
  function Shorter(log: Log): Log
    requires log != []
  {
    log[..|log| - 1]
  }

  lemma OfGrows(log: Log, id: string, kind: Kind)
    requires log != []
    ensures forall i: nat | i != |log| - 1 :: IsOf(log, id, kind, i) == IsOf(Shorter(log), id, kind, i)
    ensures forall i: nat | FirstOf(Shorter(log), id, kind, i) :: FirstOf(log, id, kind, i) && i < |log| - 1
    ensures (forall i: nat :: !IsOf(Shorter(log), id, kind, i)) && IsOf(log, id, kind, |log| - 1) ==>
        FirstOf(log, id, kind, |log| - 1)
  {
    hide IsCandidate;
    var shorter := Shorter(log);
    assert forall i: nat | i < |log| - 1 :: shorter[i] == log[i];
  }

  lemma CandidatesGrow(log: Log, id: string, kind: Kind)
    requires log != [] && kind != OtherKind
    ensures var e, before := log[|log| - 1], Candidates(Shorter(log), id);
            && OfKind(Candidates(log, id), kind)
               == OfKind(before, kind) + (if IsOf(log, id, kind, |log| - 1) then [e] else [])
            && CommittedEnds(Candidates(log, id))
               == CommittedEnds(before) + (if IsEnd(log, id, |log| - 1) then [e] else [])
  {
    var e, before := log[|log| - 1], Candidates(Shorter(log), id);
    OfKindAppend(before, e, kind);
    CommittedEndsAppend(before, e);
    assert Candidates(log, id) == before + (if IsCandidate(e, id) then [e] else []);
    hide Candidates, IsCandidate, OfKind, CommittedEnds;
    assert Candidates(log, id) == if IsCandidate(e, id) then before + [e] else before;
  }

  lemma {:induction false} KindsInLog(log: Log, id: string, kind: Kind)
    requires kind != OtherKind
    ensures var found := OfKind(Candidates(log, id), kind);
            && (found == [] <==> forall i: nat :: !IsOf(log, id, kind, i))
            && (found != [] ==> exists i: nat :: FirstOf(log, id, kind, i) && log[i] == found[0])
            && (|found| > 1 <==> Doubled(log, id, kind))
  {
    if log != [] {
      var n := |log| - 1;
      KindsInLog(Shorter(log), id, kind);
      OfGrows(log, id, kind);
      CandidatesGrow(log, id, kind);
      TwoGrow(log, id, kind);
      hide Candidates, OfKind, CommittedEnds, IsOf, FirstOf, Doubled;
      var before := OfKind(Candidates(Shorter(log), id), kind);
      if before != [] {
        var i: nat :| FirstOf(Shorter(log), id, kind, i) && Shorter(log)[i] == before[0];
        assert FirstOf(log, id, kind, i) && log[i] == before[0];
      } else if IsOf(log, id, kind, n) {
        assert FirstOf(log, id, kind, n);
      }
      LastIsOf(log, id, kind);
    }
  }

  lemma LastIsOf(log: Log, id: string, kind: Kind)
    requires log != []
    ensures (exists i: nat :: IsOf(log, id, kind, i)) <==>
            (exists i: nat :: IsOf(Shorter(log), id, kind, i)) || IsOf(log, id, kind, |log| - 1)
  {
    OfGrows(log, id, kind);
    hide FirstOf;
    if i: nat :| IsOf(Shorter(log), id, kind, i) {
      assert IsOf(log, id, kind, i);
    }
  }

  lemma TwoGrow(log: Log, id: string, kind: Kind)
    requires log != []
    ensures Doubled(log, id, kind) <==>
            || Doubled(Shorter(log), id, kind)
            || (IsOf(log, id, kind, |log| - 1) && exists i: nat :: IsOf(Shorter(log), id, kind, i))
  {
    var shorter, n := Shorter(log), |log| - 1;
    OfGrows(log, id, kind);
    assert forall i: nat | IsOf(shorter, id, kind, i) :: i < n;
    hide FirstOf, IsOf;
    if IsOf(log, id, kind, n) && exists i: nat :: IsOf(shorter, id, kind, i) {
      var i: nat :| IsOf(shorter, id, kind, i);
      assert IsOf(log, id, kind, i);
    }
    if Doubled(shorter, id, kind) {
      var i, j :| 0 <= i < j < |shorter| && IsOf(shorter, id, kind, i) && IsOf(shorter, id, kind, j);
      assert IsOf(log, id, kind, i) && IsOf(log, id, kind, j);
    }
    if Doubled(log, id, kind) {
      var i, j :| 0 <= i < j < |log| && IsOf(log, id, kind, i) && IsOf(log, id, kind, j);
      assert IsOf(shorter, id, kind, i);
    }
  }

  lemma EndGrows(log: Log, id: string)
    requires log != []
    ensures forall i: nat | i != |log| - 1 :: IsEnd(log, id, i) == IsEnd(Shorter(log), id, i)
    ensures forall i: nat | FirstEnd(Shorter(log), id, i) :: FirstEnd(log, id, i) && i < |log| - 1
    ensures (forall i: nat :: !IsEnd(Shorter(log), id, i)) && IsEnd(log, id, |log| - 1) ==>
        FirstEnd(log, id, |log| - 1)
  {
    hide IsCandidate;
    var shorter := Shorter(log);
    assert forall i: nat | i < |log| - 1 :: shorter[i] == log[i];
  }

  lemma {:induction false} EndsInLog(log: Log, id: string)
    ensures var found := CommittedEnds(Candidates(log, id));
            && (found == [] <==> forall i: nat :: !IsEnd(log, id, i))
            && (found != [] ==> exists i: nat :: FirstEnd(log, id, i) && log[i] == found[0])
  {
    if log != [] {
      var n := |log| - 1;
      EndsInLog(Shorter(log), id);
      EndGrows(log, id);
      CandidatesGrow(log, id, End);
      hide Candidates, OfKind, CommittedEnds, IsEnd, FirstEnd, IsOf;
      var before := CommittedEnds(Candidates(Shorter(log), id));
      if before != [] {
        var i: nat :| FirstEnd(Shorter(log), id, i) && Shorter(log)[i] == before[0];
        assert FirstEnd(log, id, i) && log[i] == before[0];
        FirstEndIs(log, id, i);
      } else if IsEnd(log, id, n) {
        assert FirstEnd(log, id, n);
      }
    }
  }

  lemma FirstEndIs(log: Log, id: string, i: nat)
    requires FirstEnd(log, id, i)
    ensures IsEnd(log, id, i)
  {
  }

  /** Something of the transaction that this program cannot interpret. */
  predicate Unreadable(log: Log, id: string) {
    exists e :: e in log && IsCandidate(e, id) && !e.supported
  }

  lemma {:induction false} UnsupportedInLog(log: Log, id: string)
    ensures (exists e :: e in Candidates(log, id) && !e.supported) <==> Unreadable(log, id)
  {
    if log != [] {
      var e := log[|log| - 1];
      UnsupportedInLog(Shorter(log), id);
      assert log == Shorter(log) + [e];
      assert Candidates(log, id) == Candidates(Shorter(log), id) + if IsCandidate(e, id) then [e] else [];
      hide Candidates, IsCandidate;
    }
  }

  lemma UnsupportedByIndex(events: Log)
    ensures (exists i | 0 <= i < |events| :: !events[i].supported) <==> exists e :: e in events && !e.supported
  {
    if i :| 0 <= i < |events| && !events[i].supported {
      assert events[i] in events;
    }
  }

  // ---------------------------------------------------------------- when a call refuses

  /** Start and summary carry the same identifier, a string that is not empty. */
  predicate SameIdentity(start: Payload, summary: Payload) {
    && StringField(summary, "compactionId").Some? && StringField(start, "compactionId").Some?
    && summary["compactionId"].s == start["compactionId"].s != ""
  }

  /** The first event of the kind in the log says something else. */
  ghost predicate Differs(log: Log, id: string, kind: Kind, payload: Payload) {
    exists i: nat :: FirstOf(log, id, kind, i) && log[i].payload != payload
  }

  /** Where in the log the first event of the kind is. */
  ghost function Place(log: Log, id: string, kind: Kind): (place: Option<nat>)
    ensures place.Some? ==> FirstOf(log, id, kind, place.value)
    ensures place.None? ==> forall i: nat :: !FirstOf(log, id, kind, i)
  {
    if i: nat :| FirstOf(log, id, kind, i) then Some(i) else None
  }

  lemma PlaceIs(log: Log, id: string, kind: Kind, i: nat)
    requires FirstOf(log, id, kind, i)
    ensures Place(log, id, kind) == Some(i)
  {
    var j := Place(log, id, kind).value;
    assert IsOf(log, id, kind, i) && IsOf(log, id, kind, j);
    assert !(i < j) && !(j < i);
  }

  /** The reason a call has to refuse; the earlier one counts. */
  ghost function Reason(log: Log, start: Payload, summary: Payload, hash: Hash): Option<Failure> {
    if !SameIdentity(start, summary) then Some(IdentityMismatch)
    else
      var id := summary["compactionId"].s;
      if Unreadable(log, id) then Some(Unsupported)
      else if Differs(log, id, Start, start) then Some(ConflictingStart)
      else if Differs(log, id, Summary, summary) then Some(ConflictingSummary)
      else if Ended(log, id) then
        (if id in Fold(log, hash).committed then None else Some(InvalidExisting))
      else if !Has(log, id, Start) then None
      else if Doubled(log, id, Start) || Doubled(log, id, Summary) then Some(DuplicatePrefix)
      else if Place(log, id, Start).Some? && Place(log, id, Summary).Some?
              && log[Place(log, id, Summary).value].seqNo <= log[Place(log, id, Start).value].seqNo
           then Some(InvalidOrder)
      else None
  }

  lemma FirstPayload(log: Log, id: string, kind: Kind, payload: Payload)
    requires kind != OtherKind
    ensures var found := OfKind(Candidates(log, id), kind);
            && (found != [] && found[0].payload != payload <==> Differs(log, id, kind, payload))
            && (found != [] <==> Place(log, id, kind).Some?)
            && (found != [] ==> log[Place(log, id, kind).value] == found[0])
  {
    KindsInLog(log, id, kind);
    hide OfKind, Candidates, IsOf;
    var found := OfKind(Candidates(log, id), kind);
    if found != [] {
      var i: nat :| FirstOf(log, id, kind, i) && log[i] == found[0];
      PlaceIs(log, id, kind, i);
    }
    if Differs(log, id, kind, payload) {
      var i: nat :| FirstOf(log, id, kind, i) && log[i].payload != payload;
      PlaceIs(log, id, kind, i);
      assert IsOf(log, id, kind, i);
    }
  }

  /** The reason by what the call looks up. */
  function Found(log: Log, start: Payload, summary: Payload, hash: Hash): Option<Failure>
    requires SameIdentity(start, summary)
  {
    var id := summary["compactionId"].s;
    var mine := Candidates(log, id);
    var starts, summaries := OfKind(mine, Start), OfKind(mine, Summary);
    if exists i | 0 <= i < |mine| :: !mine[i].supported then Some(Unsupported)
    else if starts != [] && starts[0].payload != start then Some(ConflictingStart)
    else if summaries != [] && summaries[0].payload != summary then Some(ConflictingSummary)
    else if CommittedEnds(mine) != [] then (if id in Fold(log, hash).committed then None else Some(InvalidExisting))
    else if starts == [] then None
    else if |starts| > 1 || |summaries| > 1 then Some(DuplicatePrefix)
    else if summaries != [] && summaries[0].seqNo <= starts[0].seqNo then Some(InvalidOrder)
    else None
  }

  lemma FoundIsReason(log: Log, start: Payload, summary: Payload, hash: Hash)
    requires SameIdentity(start, summary)
    ensures Found(log, start, summary, hash) == Reason(log, start, summary, hash)
  {
    Findings(log, summary["compactionId"].s, start, summary);
    hide Candidates, OfKind, CommittedEnds, Fold, Has, Ended, Doubled, Differs, Place, IsCandidate, Unreadable;
  }

  /** A call refuses exactly for one of these reasons, and then leaves the log alone: the payloads do not belong
      together, something of the transaction cannot be interpreted or says something else, its committed end is not
      one the replay accepts, or its prefix is doubled or out of order. */
  lemma RefusesIff(log: Log, start: Payload, summary: Payload, hash: Hash, others: Others, budget: nat)
    ensures var r := Ensured(log, start, summary, hash, others, budget);
            && (Reason(log, start, summary, hash).Some? ==>
                  r == Result(log, Failed(Reason(log, start, summary, hash).value)))
            && (Reason(log, start, summary, hash).None? ==> !r.outcome.Failed?)
  {
    AppendsDoNotFail(log, start, summary, others, budget);
    if SameIdentity(start, summary) {
      FoundIsReason(log, start, summary, hash);
      hide Reason, Candidates, OfKind, CommittedEnds, Fold, IsCandidate, AppendTransaction, AppendSummary, AppendEnd;
    }
  }

  lemma AppendsDoNotFail(log: Log, start: Payload, summary: Payload, others: Others, budget: nat)
    ensures !AppendTransaction(log, start, summary, others, budget).outcome.Failed?
    ensures forall startSeq: nat :: !AppendSummary(log, start, summary, startSeq, others, budget).outcome.Failed?
    ensures forall startSeq: nat, summarySeq: nat ::
              !AppendEnd(log, start, summary, startSeq, summarySeq, others, budget).outcome.Failed?
  {
    hide Append, AppendAll, LastSeq, EndPayload;
  }

  /** What the call looks up in the log. */
  lemma Findings(log: Log, id: string, start: Payload, summary: Payload)
    ensures var mine := Candidates(log, id);
            var starts, summaries := OfKind(mine, Start), OfKind(mine, Summary);
            && ((exists i | 0 <= i < |mine| :: !mine[i].supported) <==> Unreadable(log, id))
            && (starts != [] && starts[0].payload != start <==> Differs(log, id, Start, start))
            && (summaries != [] && summaries[0].payload != summary <==> Differs(log, id, Summary, summary))
            && (CommittedEnds(mine) != [] <==> Ended(log, id))
            && (starts != [] <==> Has(log, id, Start))
            && (|starts| > 1 <==> Doubled(log, id, Start)) && (|summaries| > 1 <==> Doubled(log, id, Summary))
            && (starts != [] <==> Place(log, id, Start).Some?)
            && (summaries != [] <==> Place(log, id, Summary).Some?)
            && (starts != [] ==> log[Place(log, id, Start).value] == starts[0])
            && (summaries != [] ==> log[Place(log, id, Summary).value] == summaries[0])
  {
    UnsupportedInLog(log, id);
    UnsupportedByIndex(Candidates(log, id));
    FirstPayload(log, id, Start, start);
    FirstPayload(log, id, Summary, summary);
    KindsInLog(log, id, Start);
    KindsInLog(log, id, Summary);
    EndsInLog(log, id);
    hide Candidates, OfKind, CommittedEnds, IsOf, Doubled, Differs, Place, IsEnd, Unreadable, IsCandidate;
  }

  // ---------------------------------------------------------------- numbers

  /** From `from` on every event carries the number after the one before it. */
  predicate NumberedFrom(log: Log, from: nat) {
    forall i | from <= i < |log| :: log[i].seqNo == if i == 0 then 1 else log[i - 1].seqNo + 1
  }

  lemma {:induction false} AppendAllNumbered(log: Log, inputs: seq<(Kind, Payload)>, from: nat)
    requires NumberedFrom(log, from)
    ensures NumberedFrom(AppendAll(log, inputs), from)
    decreases |inputs|
  {
    if inputs != [] {
      AppendNumbered(log, inputs[0].0, inputs[0].1, from);
      AppendAllNumbered(Append(log, inputs[0].0, inputs[0].1), inputs[1..], from);
    }
  }

  lemma AppendNumbered(log: Log, kind: Kind, payload: Payload, from: nat)
    requires NumberedFrom(log, from)
    ensures NumberedFrom(Append(log, kind, payload), from)
  {
  }

  /** Everything a call appends, and everything other writers append meanwhile, is numbered without a gap behind what
      was there. */
  lemma NumberedWithoutGap(log: Log, start: Payload, summary: Payload, hash: Hash, others: Others, budget: nat)
    ensures NumberedFrom(Ensured(log, start, summary, hash, others, budget).log, |log|)
  {
    hide Append, AppendAll, EndPayload, Candidates, OfKind, CommittedEnds, Fold, IsCandidate;
    forall l, k: nat | NumberedFrom(l, |log|) ensures NumberedFrom(AppendAll(l, others(k)), |log|) {
      AppendAllNumbered(l, others(k), |log|);
    }
    forall l, kind, payload | NumberedFrom(l, |log|) ensures NumberedFrom(Append(l, kind, payload), |log|) {
      AppendNumbered(l, kind, payload, |log|);
    }
    assert NumberedFrom(log, |log|);
  }
}
