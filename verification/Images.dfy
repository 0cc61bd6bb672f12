/** What it means that a ledger holds the events of a target, and what a permitted upgrade of the target makes of that
    (electron/sessionLedgerOutbox.ts, electron/runtime/sessionLedgerOutboxProjector.ts). */
module Images {
  import opened Json
  import opened EventSchema
  import opened ProjectionCompatibility
  import opened Outbox
  import opened Projector

  // ---------------------------------------------------------------- images of expected events

  /** The event is one its consumer takes, and the ledger holds the identity it stands for. */
  predicate SlotFilled(kind: string, ledger: seq<EventRecord>, x: EventInput) {
    ValidInput(kind, x) && Wanted(kind, x).Some? && InSlot(ledger, Wanted(kind, x).value) != []
  }

  /** The lookup takes the ledger event for `x`, and it carries the promised identity. */
  predicate Identified(e: EventRecord, x: EventInput, id: string) {
    SameProjectionIdentity(e, x) && IdentityText(e.typ, e.payload) == Some(id)
  }

  /** The ledger event is what an acknowledgement of `x` asks for. */
  predicate Image(kind: string, e: EventRecord, x: EventInput, id: string) {
    Identified(e, x, id) && ProjectionEventMatches(kind, x, ObservedInput(e))
  }

  /** The calls are equal but for the attribution fields. */
  predicate SameCall(kind: string, e: EventRecord, x: EventInput) {
    IsToolCallKind(kind) && x.typ == "tool_call" && e.payload - ATTRIBUTION == x.payload - ATTRIBUTION
  }

  /** An image, or for a tool call one that may differ in the attribution fields. */
  predicate Held(kind: string, e: EventRecord, x: EventInput, id: string) {
    Identified(e, x, id) && (ProjectionEventMatches(kind, x, ObservedInput(e)) || SameCall(kind, e, x))
  }

  ghost predicate Imaged(kind: string, ledger: seq<EventRecord>, x: EventInput, id: string) {
    exists e :: e in ledger && Image(kind, e, x, id)
  }

  ghost predicate IsHeld(kind: string, ledger: seq<EventRecord>, x: EventInput, id: string) {
    SlotFilled(kind, ledger, x) && exists e :: e in ledger && Held(kind, e, x, id)
  }

  /** The ledger holds every event the digest stands for. */
  ghost predicate Projected(kind: string, ledger: seq<EventRecord>, digest: Digest) {
    && digest.Sha256? && |digest.events| == |digest.ids|
    && forall i | 0 <= i < |digest.events| ::
         && TypedEvent(digest.events[i]).Some?
         && IsHeld(kind, ledger, TypedEvent(digest.events[i]).value, digest.ids[i])
  }

  /** Every event the digest stands for has an image in the ledger. */
  ghost predicate AllImaged(kind: string, ledger: seq<EventRecord>, digest: Digest) {
    && digest.Sha256? && |digest.events| == |digest.ids|
    && forall i | 0 <= i < |digest.events| ::
         && TypedEvent(digest.events[i]).Some?
         && Imaged(kind, ledger, TypedEvent(digest.events[i]).value, digest.ids[i])
  }

  lemma SlotFilledStays(kind: string, ledger: seq<EventRecord>, longer: seq<EventRecord>, x: EventInput)
    requires ledger <= longer && SlotFilled(kind, ledger, x)
    ensures SlotFilled(kind, longer, x)
  {
    SlotStaysOccupied(ledger, longer, Wanted(kind, x).value);
  }

  lemma ProjectedStays(kind: string, ledger: seq<EventRecord>, longer: seq<EventRecord>, digest: Digest)
    requires ledger <= longer && Projected(kind, ledger, digest)
    ensures Projected(kind, longer, digest)
  {
    hide SlotFilled, Held;
    forall i | 0 <= i < |digest.events|
      ensures IsHeld(kind, longer, TypedEvent(digest.events[i]).value, digest.ids[i])
    {
      var x := TypedEvent(digest.events[i]).value;
      assert IsHeld(kind, ledger, x, digest.ids[i]);
      SlotFilledStays(kind, ledger, longer, x);
    }
  }

  lemma AllImagedStays(kind: string, ledger: seq<EventRecord>, longer: seq<EventRecord>, digest: Digest)
    requires ledger <= longer && AllImaged(kind, ledger, digest)
    ensures AllImaged(kind, longer, digest)
  {
    hide Image;
  }

  // ---------------------------------------------------------------- upgrades

  /** What a permitted upgrade of one event keeps. */
  predicate Supersedes(kind: string, next: EventInput, prior: EventInput) {
    && prior.typ == next.typ && "toolUseId" in next.payload
    && PayloadsCompatible(prior.typ, prior.payload, next.payload)
    && ((IsToolCallKind(kind) && next.typ == "tool_call") || (kind == "tool-result" && next.typ == "tool_result"))
  }

  lemma PermittedSupersedes(t: Target, previous: seq<Payload>, previousIds: seq<string>, canonical: Canonical)
    requires UpgradePermitted(t, previous, previousIds, canonical)
    ensures |previous| == 1 && |t.events| == 1 && previousIds == t.ids && |t.ids| == 1
    ensures TypedEvent(previous[0]).Some? && Supersedes(t.id.kind, t.events[0], TypedEvent(previous[0]).value)
  {
    UpgradeKeepsMeaning(t, previous, previousIds, canonical);
    if AttributionEnrichment(t, previous, previousIds, canonical) {
      var toolUseId := StringField(t.events[0].payload, "toolUseId").value;
      assert ToolCallKind(toolUseId)[..10] == "tool-call:";
    }
  }

  lemma SupersededCall(kind: string, next: EventInput, prior: EventInput)
    requires Supersedes(kind, next, prior) && next.typ == "tool_call"
    ensures AttributionCompatible(prior.payload, next.payload) && IsToolCallKind(kind)
    ensures forall k | k !in ATTRIBUTION :: Field(prior.payload, k) == Field(next.payload, k)
  {
    assert "tool-result"[..10][5] == 'r' && "tool-call:"[5] == 'c';
    forall k | k !in ATTRIBUTION ensures Field(prior.payload, k) == Field(next.payload, k) {
      assert Field(prior.payload - ATTRIBUTION, k) == Field(next.payload - ATTRIBUTION, k);
    }
  }

  lemma SupersededResult(kind: string, next: EventInput, prior: EventInput)
    requires Supersedes(kind, next, prior) && next.typ == "tool_result"
    ensures kind == "tool-result" && !IsToolCallKind(kind)
    ensures forall k | k != "result" :: Field(prior.payload, k) == Field(next.payload, k)
  {
    assert "tool-result"[..10][5] == 'r' && "tool-call:"[5] == 'c';
    forall k | k != "result" ensures Field(prior.payload, k) == Field(next.payload, k) {
      assert ARTIFACT_PATH[0] == "result" && [k][0] == k;
      assert !([k] <= ARTIFACT_PATH) && !(ARTIFACT_PATH <= [k]);
      MatchedResultsAgree(prior.payload, next.payload, [k]);
      assert ReadPath(prior.payload, [k]) == Field(prior.payload, k);
      assert ReadPath(next.payload, [k]) == Field(next.payload, k);
    }
  }

  /** The consumer takes the upgraded event and looks for it in the same slot. */
  lemma UpgradeKeepsSlot(kind: string, ledger: seq<EventRecord>, next: EventInput, prior: EventInput)
    requires Supersedes(kind, next, prior) && SlotFilled(kind, ledger, prior)
    ensures SlotFilled(kind, ledger, next)
  {
    hide InSlot, PayloadsCompatible;
    if next.typ == "tool_call" {
      SupersededCall(kind, next, prior);
    } else {
      SupersededResult(kind, next, prior);
      ResultStaysRecord(kind, next, prior);
    }
    assert Field(prior.payload, "toolUseId") == Field(next.payload, "toolUseId");
    assert Field(prior.payload, "stepId") == Field(next.payload, "stepId");
    assert Field(prior.payload, "name") == Field(next.payload, "name");
  }

  lemma ResultStaysRecord(kind: string, next: EventInput, prior: EventInput)
    requires Supersedes(kind, next, prior) && next.typ == "tool_result" && IsRecord(Field(prior.payload, "result"))
    ensures IsRecord(Field(next.payload, "result"))
    ensures forall k | k != "data" ::
              Field(prior.payload["result"].fields, k) == Field(next.payload["result"].fields, k)
  {
    assert ARTIFACT_PATH[0] == "result" && ARTIFACT_PATH[1..][0] == "data";
  }

  /** Fields both calls have are equal. */
  predicate AttributionAgrees(actual: Payload, expected: Payload) {
    forall k | k in ATTRIBUTION && k in actual && k in expected :: actual[k] == expected[k]
  }

  /** An image of a call is one of its upgrade exactly when it agrees with the new attribution, and the new event has a
      schema version readers support. */
  lemma CallImageIff(kind: string, e: EventRecord, next: EventInput, prior: EventInput, id: string)
    requires Supersedes(kind, next, prior) && next.typ == "tool_call" && Image(kind, e, prior, id)
    ensures Identified(e, next, id) && SameCall(kind, e, next)
    ensures Image(kind, e, next, id) <==>
        Supported(RecordOf(next)) && AttributionAgrees(e.payload, next.payload)
  {
    hide IsToolCallKind, IdentityText;
    SupersededCall(kind, next, prior);
    CallOfImage(kind, e, prior, id);
    assert Field(e.payload - ATTRIBUTION, "toolUseId") == Field(prior.payload - ATTRIBUTION, "toolUseId");
    IdentityStays(e, next, prior);
    assert AttributionCompatible(e.payload, next.payload) <==> AttributionAgrees(e.payload, next.payload) by {
      AttributionThrough(e.payload, prior.payload, next.payload);
    }
  }

  lemma AttributionThrough(e: Payload, prior: Payload, next: Payload)
    requires AttributionCompatible(e, prior) && AttributionCompatible(prior, next)
    ensures AttributionCompatible(e, next) <==> AttributionAgrees(e, next)
  {
    if AttributionAgrees(e, next) {
      forall k | k in ATTRIBUTION ensures AttributionFieldCompatible(k, e, next) {
        assert AttributionFieldCompatible(k, e, prior) && AttributionFieldCompatible(k, prior, next);
      }
    }
    if AttributionCompatible(e, next) {
      forall k | k in ATTRIBUTION && k in e && k in next ensures e[k] == next[k] {
        assert AttributionFieldCompatible(k, e, next);
      }
    }
  }

  lemma CallOfImage(kind: string, e: EventRecord, x: EventInput, id: string)
    requires IsToolCallKind(kind) && x.typ == "tool_call" && Image(kind, e, x, id)
    ensures AttributionCompatible(e.payload, x.payload) && SameCall(kind, e, x) && e.typ == "tool_call"
    ensures Supported(RecordOf(ObservedInput(e)))
  {
    assert "tool-result"[..10][5] == 'r' && "tool-call:"[5] == 'c';
  }

  lemma IdentityStays(e: EventRecord, next: EventInput, prior: EventInput)
    requires SameProjectionIdentity(e, prior) && prior.typ == next.typ && "toolUseId" in e.payload
    requires Field(prior.payload, "toolUseId") == Field(next.payload, "toolUseId")
    ensures SameProjectionIdentity(e, next)
  {
  }

  /** Two calls that agree with a third outside the attribution fields agree there with each other. */
  lemma CallStays(kind: string, e: EventRecord, next: EventInput, prior: EventInput, id: string)
    requires Supersedes(kind, next, prior) && Identified(e, prior, id) && SameCall(kind, e, prior)
    ensures Identified(e, next, id) && SameCall(kind, e, next)
  {
    hide IsToolCallKind, IdentityText;
    SupersededCall(kind, next, prior);
    assert Field(e.payload - ATTRIBUTION, "toolUseId") == Field(prior.payload - ATTRIBUTION, "toolUseId");
    IdentityStays(e, next, prior);
  }

  /** An image of a result the consumer took is one of every permitted upgrade of it. */
  lemma ResultImageStays(kind: string, e: EventRecord, next: EventInput, prior: EventInput, id: string)
    requires Supersedes(kind, next, prior) && next.typ == "tool_result" && IsRecord(Field(prior.payload, "result"))
    requires Image(kind, e, prior, id)
    ensures Image(kind, e, next, id)
  {
    hide IdentityText;
    SupersededResult(kind, next, prior);
    AcceptedResultsAgreeOutsideResult(e.payload, prior.payload, "toolUseId");
    IdentityStays(e, next, prior);
    if prior.payload != next.payload {
      ResultStaysRecord(kind, next, prior);
      ImageThroughArtifact(e.payload, prior.payload, next.payload);
    }
  }

  /** A live result accepted for one without the artifact reference is accepted for the one that has it. */
  lemma ImageThroughArtifact(actual: Payload, prior: Payload, next: Payload)
    requires ToolResultCompatible(actual, prior) && ArtifactAdded(prior, next)
    requires IsRecord(Field(prior, "result")) && IsRecord(Field(next, "result"))
    requires forall k | k != "data" :: Field(prior["result"].fields, k) == Field(next["result"].fields, k)
    ensures ToolResultCompatible(actual, next)
  {
    hide ReadPath, PutPath;
    if "result" in actual && actual["result"].Obj? {
      var live, base, base' := actual["result"].fields, prior["result"].fields, next["result"].fields;
      forall k ensures IsLiveDiagnostic(k, live, base) == IsLiveDiagnostic(k, live, base') {
        assert k != "data" ==> Field(base, k) == Field(base', k);
      }
      assert WithoutLiveDiagnostics(live, base) == WithoutLiveDiagnostics(live, base');
    }
  }

  /** An upgrade keeps a held event held. */
  lemma UpgradeKeepsHeld(kind: string, ledger: seq<EventRecord>, next: EventInput, prior: EventInput, id: string)
    requires Supersedes(kind, next, prior) && IsHeld(kind, ledger, prior, id)
    ensures IsHeld(kind, ledger, next, id)
  {
    hide InSlot, ProjectionEventMatches, Identified, SameCall, Wanted, Supersedes;
    var e :| e in ledger && Held(kind, e, prior, id);
    UpgradeKeepsSlot(kind, ledger, next, prior);
    if SameCall(kind, e, prior) {
      CallStays(kind, e, next, prior, id);
    } else {
      SupersedesTool(kind, next, prior);
      if next.typ == "tool_call" {
        CallImageIff(kind, e, next, prior, id);
      } else {
        assert ValidInput(kind, prior) && prior.typ == "tool_result";
        ResultImageStays(kind, e, next, prior, id);
      }
    }
  }

  lemma SupersedesTool(kind: string, next: EventInput, prior: EventInput)
    requires Supersedes(kind, next, prior)
    ensures prior.typ == next.typ && (next.typ == "tool_call" || next.typ == "tool_result")
  {
  }

  lemma LegacyDigest(row: OutboxRow)
    requires Decode(row.payload).Ok? && Decode(row.payload).value.LegacyPayload?
    ensures row.payload.digest == Sha256(Decode(row.payload).value.events, Decode(row.payload).value.ids)
  {
  }

  lemma DigestHeld(kind: string, ledger: seq<EventRecord>, events: seq<EventInput>, ids: seq<string>)
    requires |events| == |ids| && forall i | 0 <= i < |events| :: IsHeld(kind, ledger, events[i], ids[i])
    ensures Projected(kind, ledger, DigestOf(events, ids))
  {
    hide IsHeld;
    forall i | 0 <= i < |events| ensures TypedEvent(EventObjects(events)[i]) == Some(events[i]) {
      TypedEventOfObject(events[i]);
    }
  }

  lemma DigestImaged(kind: string, ledger: seq<EventRecord>, events: seq<EventInput>, ids: seq<string>)
    requires |events| == |ids|
    ensures AllImaged(kind, ledger, DigestOf(events, ids)) <==>
        forall i | 0 <= i < |events| :: Imaged(kind, ledger, events[i], ids[i])
  {
    hide Imaged;
    forall i | 0 <= i < |events| ensures TypedEvent(EventObjects(events)[i]) == Some(events[i]) {
      TypedEventOfObject(events[i]);
    }
    if AllImaged(kind, ledger, DigestOf(events, ids)) {
      forall i | 0 <= i < |events| ensures Imaged(kind, ledger, events[i], ids[i]) {
        assert TypedEvent(DigestOf(events, ids).events[i]) == Some(events[i]);
      }
    }
  }

  /** Upgrading a projected row leaves it projected. */
  lemma UpgradeKeepsProjected(t: Target, row: OutboxRow, canonical: Canonical, ledger: seq<EventRecord>)
    requires Decode(row.payload).Ok? && Decode(row.payload).value.LegacyPayload?
    requires UpgradePermitted(t, Decode(row.payload).value.events, Decode(row.payload).value.ids, canonical)
    requires Projected(t.id.kind, ledger, row.payload.digest)
    ensures Projected(t.id.kind, ledger, DigestOf(t.events, t.ids))
  {
    hide UpgradePermitted, Decode, IsHeld, Supersedes;
    var previous := Decode(row.payload).value;
    LegacyDigest(row);
    PermittedSupersedes(t, previous.events, previous.ids, canonical);
    UpgradeKeepsHeld(t.id.kind, ledger, t.events[0], TypedEvent(previous.events[0]).value, t.ids[0]);
    DigestHeld(t.id.kind, ledger, t.events, t.ids);
  }

  /** The call of this tool use in the ledger, if there is one, agrees with the attribution of `next`; results always
      agree. */
  ghost predicate Agrees(ledger: seq<EventRecord>, next: EventInput) {
    next.typ == "tool_call" ==>
      && Supported(RecordOf(next))
      && forall e | e in InSlot(ledger, CallSlot(Field(next.payload, "toolUseId"))) ::
           AttributionAgrees(e.payload, next.payload)
  }

  lemma {:induction false} SlotMember(ledger: seq<EventRecord>, e: EventRecord, slot: Slot)
    requires e in ledger && EventSlot(e) == Some(slot)
    ensures e in InSlot(ledger, slot)
  {
    hide EventSlot;
    if e != ledger[0] {
      SlotMember(ledger[1..], e, slot);
    }
  }

  lemma AtMostOneIn(ledger: seq<EventRecord>, slot: Slot)
    requires AtMostOnce(ledger)
    ensures |InSlot(ledger, slot)| <= 1
  {
    hide InSlot;
  }

  /** With no identity twice in the ledger, the one event of a slot. */
  lemma OneInSlot(ledger: seq<EventRecord>, e: EventRecord, slot: Slot)
    requires AtMostOnce(ledger) && e in ledger && EventSlot(e) == Some(slot)
    ensures InSlot(ledger, slot) == [e]
  {
    hide EventSlot, InSlot, AtMostOnce;
    SlotMember(ledger, e, slot);
    AtMostOneIn(ledger, slot);
    assert InSlot(ledger, slot)[0] == e;
  }

  lemma CallInSlot(kind: string, e: EventRecord, x: EventInput, id: string)
    requires Identified(e, x, id) && SameCall(kind, e, x)
    ensures EventSlot(e) == Some(CallSlot(Field(x.payload, "toolUseId")))
  {
    hide IdentityText, IsToolCallKind;
    assert Field(e.payload - ATTRIBUTION, "toolUseId") == Field(x.payload - ATTRIBUTION, "toolUseId");
  }

  /** Upgrading a row whose event has an image leaves it an image exactly when the ledger agrees with the new event. */
  lemma UpgradeKeepsImageIff(kind: string, ledger: seq<EventRecord>, next: EventInput, prior: EventInput, id: string)
    requires AtMostOnce(ledger) && Supersedes(kind, next, prior) && ValidInput(kind, prior)
    requires Imaged(kind, ledger, prior, id)
    ensures Imaged(kind, ledger, next, id) <==> Agrees(ledger, next)
  {
    hide InSlot, ProjectionEventMatches, Identified, SameCall, Supersedes, AtMostOnce, AttributionAgrees, Supported;
    hide EventSlot;
    var e :| e in ledger && Image(kind, e, prior, id);
    SupersedesTool(kind, next, prior);
    if next.typ == "tool_call" {
      CallImageIff(kind, e, next, prior, id);
      CallInSlot(kind, e, next, id);
      var slot := CallSlot(Field(next.payload, "toolUseId"));
      OneInSlot(ledger, e, slot);
      if f :| f in ledger && Image(kind, f, next, id) {
        SupersededCall(kind, next, prior);
        CallOfImage(kind, f, next, id);
        CallInSlot(kind, f, next, id);
        OneInSlot(ledger, f, slot);
        assert [e][0] == [f][0];
      }
    } else {
      assert prior.typ == "tool_result";
      ResultImageStays(kind, e, next, prior, id);
    }
  }
}
