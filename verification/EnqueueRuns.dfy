/** What the outbox holds about canonical History: which targets are accepted, what a stored row records, and the
    order a drain follows (electron/sessionLedgerOutbox.ts). */
module EnqueueRuns {
  import opened Json
  import opened ProjectionCompatibility
  import opened Readiness
  import opened Outbox
  import opened LedgerStore
  import opened LedgerRuns
  import opened Drain

  // ---------------------------------------------------------------- one enqueue

  /** The History event a target names, for the session that owns it. */
  function EventOf(id: TargetId, sessionId: string): HistoryKey {
    HistoryKey(id.canonicalEventId, sessionId)
  }

  /** Material, location and History event of the target are in order. */
  predicate InOrder(db: Db, t: Target) {
    && |t.events| == |t.ids| > 0 && "" !in t.ids
    && t.id.location in db.rows && t.id.location.sessionId == t.sessionId
    && db.rows[t.id.location].sessionGeneration == t.sessionGeneration
    && EventOf(t.id, t.sessionId) in db.history
  }

  /** What is stored already stands for the same material, or for older material that History lets it replace. */
  predicate Agreeable(db: Db, t: Target)
    requires t.id in db.outbox && EventOf(t.id, t.sessionId) in db.history
  {
    var row := db.outbox[t.id];
    && row.sessionId == t.sessionId && row.sessionGeneration == t.sessionGeneration
    && Decode(row.payload).Ok?
    && (row.payload.digest == DigestOf(t.events, t.ids)
        || (Decode(row.payload).value.LegacyPayload?
            && UpgradePermitted(t, Decode(row.payload).value.events, Decode(row.payload).value.ids,
                                db.history[EventOf(t.id, t.sessionId)])))
  }

  /** A target is accepted exactly when it is in order and does not contradict what is stored; afterwards the row stands
      for its material. A new row records the session, the generation and the order of the target and the sequence of
      its History event, and is pending; of a stored one only the payload can change; no other row changes. */
  lemma EnqueueAcceptsIff(db: Db, t: Target)
    ensures Enqueue(db, t).Ok? <==> InOrder(db, t) && (t.id in db.outbox ==> Agreeable(db, t))
    ensures Enqueue(db, t).Ok? ==>
              var db' := Enqueue(db, t).value;
              && db'.outbox.Keys == db.outbox.Keys + {t.id} && db'.history == db.history
              && (forall id | id in db.outbox && id != t.id :: db'.outbox[id] == db.outbox[id])
              && var row := db'.outbox[t.id];
              && row.payload.digest == DigestOf(t.events, t.ids)
              && (t.id in db.outbox ==> row == db.outbox[t.id].(payload := row.payload))
              && (t.id !in db.outbox ==>
                    && row.sessionId == t.sessionId && row.sessionGeneration == t.sessionGeneration
                    && row.order == t.order && row.sequence == db.history[EventOf(t.id, t.sessionId)].sequence
                    && row.status == Pending)
  {
    hide UpgradePermitted, DigestOf;
    if t.id in db.outbox {
      CanonicalDigest(db.outbox[t.id]);
    }
    hide Decode;
    ValidExpectationIs(|t.events|, t.ids);
  }

  /** An accepted target that is still to be projected leaves its location dirty, and without a check token, unless the
      location is blocked or not bootstrapped yet; no other row of the readiness table changes. */
  lemma EnqueueMarksDirty(db: Db, t: Target)
    requires Enqueue(db, t).Ok?
    ensures var db' := Enqueue(db, t).value;
            var before := db.rows[t.id.location];
            && db'.rows.Keys == db.rows.Keys
            && (forall key | key in db.rows && key != t.id.location :: db'.rows[key] == db.rows[key])
            && db'.rows[t.id.location] ==
               if db'.outbox[t.id].status == Pending && before.state in {Unknown, Checking, Ready, Dirty}
                 then before.(state := Dirty, checkToken := None) else before
  {
    hide UpgradePermitted, DigestOf, Decode;
  }

  /** Which conflict a target that is not accepted is refused with; the earlier one counts. */
  lemma EnqueueErrors(db: Db, t: Target)
    requires Enqueue(db, t).Err?
    ensures Enqueue(db, t).error ==
            if !(|t.events| == |t.ids| > 0 && "" !in t.ids) then TargetInvalid
            else if !(&& t.id.location in db.rows && t.id.location.sessionId == t.sessionId
                      && db.rows[t.id.location].sessionGeneration == t.sessionGeneration) then LocationMismatch
            else if EventOf(t.id, t.sessionId) !in db.history then CanonicalMissing
            else TargetConflict
  {
    ValidExpectationIs(|t.events|, t.ids);
    hide UpgradePermitted, DigestOf, Decode;
  }

  /** A stored payload is of an encoding this program does not know exactly when it is well-formed, one of its two parts
      is a record, one names an encoding, and neither names the known one. */
  lemma UnsupportedEncodingIff(stored: StoredPayload)
    ensures Decode(stored) == Err(EncodingUnsupported) <==>
            && stored.digest.Sha256? && stored.eventsJson.Parsed? && stored.idsJson.Parsed?
            && var parts := [stored.eventsJson.json, stored.idsJson.json];
            && (exists i | 0 <= i < 2 :: parts[i].Obj?)
            && (exists i | 0 <= i < 2 :: parts[i].Obj? && "encoding" in parts[i].fields)
            && forall i | 0 <= i < 2 ::
                 parts[i].Obj? && "encoding" in parts[i].fields ==> parts[i].fields["encoding"] != Str("canonical-v1")
  {
    hide ObjectsOf, StringsOf;
    if stored.eventsJson.Parsed? && stored.idsJson.Parsed? {
      var parts := [stored.eventsJson.json, stored.idsJson.json];
      assert parts[0] == stored.eventsJson.json && parts[1] == stored.idsJson.json;
    }
  }

  lemma CanonicalDigest(row: OutboxRow)
    ensures Decode(row.payload).Ok? && Decode(row.payload).value.CanonicalV1? ==>
        Decode(row.payload).value.digest == row.payload.digest
  {
  }

  lemma ValidExpectationIs(eventCount: nat, ids: seq<string>)
    ensures ValidExpectation(eventCount, ids) <==> eventCount == |ids| > 0 && "" !in ids
  {
  }

  /** The one call of a committed model response with this tool use. */
  predicate OnlyCall(calls: seq<Json>, toolUseId: string, call: Payload) {
    exists i | 0 <= i < |calls| ::
      && calls[i] == Obj(call) && Field(call, "toolUseId") == Some(Str(toolUseId))
      && forall j | 0 <= j < |calls| && j != i ::
           !(calls[j].Obj? && Field(calls[j].fields, "toolUseId") == Some(Str(toolUseId)))
  }

  lemma {:induction false} CallsForNone(calls: seq<Json>, toolUseId: string)
    requires CallsFor(calls, toolUseId) == []
    ensures forall j | 0 <= j < |calls| ::
              !(calls[j].Obj? && Field(calls[j].fields, "toolUseId") == Some(Str(toolUseId)))
    decreases |calls|
  {
    if calls != [] {
      CallsForNone(calls[1..], toolUseId);
      assert forall j | 1 <= j < |calls| :: calls[j] == calls[1..][j - 1];
    }
  }

  lemma {:induction false} CallsForOne(calls: seq<Json>, toolUseId: string)
    requires |CallsFor(calls, toolUseId)| == 1
    ensures OnlyCall(calls, toolUseId, CallsFor(calls, toolUseId)[0])
    decreases |calls|
  {
    assert forall j | 1 <= j < |calls| :: calls[j] == calls[1..][j - 1];
    if calls[0].Obj? && StringField(calls[0].fields, "toolUseId") == Some(toolUseId) {
      CallsForNone(calls[1..], toolUseId);
      assert calls[0] == Obj(CallsFor(calls, toolUseId)[0]);
    } else {
      CallsForOne(calls[1..], toolUseId);
      var call := CallsFor(calls, toolUseId)[0];
      var i :| 0 <= i < |calls| - 1 && calls[1..][i] == Obj(call)
               && forall j | 0 <= j < |calls| - 1 && j != i ::
                    !(calls[1..][j].Obj? && Field(calls[1..][j].fields, "toolUseId") == Some(Str(toolUseId)));
      assert calls[i + 1] == Obj(call);
    }
  }

  /** The sidecar of the History event and the location it names. */
  predicate SidecarFor(canonical: Canonical, t: Target, sidecar: Payload) {
    && canonical.payload.Obj? && Field(canonical.payload.fields, "sessionLedger") == Some(Obj(sidecar))
    && SidecarLocation(sidecar) == Some(t.id.location) && t.id.location.sessionId == t.sessionId
  }

  /** The target has one event, and its only identity names the event's tool use. */
  predicate NamesToolUse(t: Target, prefix: string) {
    && |t.events| == 1 && Field(t.events[0].payload, "toolUseId").Some? && t.events[0].payload["toolUseId"].Str?
    && t.ids == [prefix + t.events[0].payload["toolUseId"].s]
  }

  /** The upgrade of a call takes everything it adds from History: its turn, its step, and its name, arguments and new
      attribution from the one call of the committed response with this tool use. */
  lemma CallUpgradeComesFromHistory(t: Target, previous: seq<Payload>, previousIds: seq<string>, canonical: Canonical)
      returns (sidecar: Payload, calls: seq<Json>, call: Payload)
    requires UpgradePermitted(t, previous, previousIds, canonical) && t.events[0].typ == "tool_call"
    ensures |previous| == 1 && TypedEvent(previous[0]).Some? && NamesToolUse(t, "tool_call:")
    ensures SidecarFor(canonical, t, sidecar) && canonical.kind == "model-response-committed"
    ensures Field(sidecar, "toolCalls") == Some(Arr(calls))
    ensures var prior, next := TypedEvent(previous[0]).value.payload, t.events[0].payload;
            && t.id.kind == "tool-call:" + next["toolUseId"].s
            && Field(next, "turnId") == Some(Str(canonical.turnId))
            && Field(next, "stepId") == Field(sidecar, "stepId") && Field(next, "stepId").Some?
            && OnlyCall(calls, next["toolUseId"].s, call)
            && Field(call, "name") == Field(next, "name") && Field(call, "args") == Field(next, "args")
            && forall k | k in ATTRIBUTION && k in next && next[k].Str? && k !in prior ::
                 Field(call, k) == Field(next, k)
  {
    hide SidecarLocation, PayloadsCompatible, EventMatches, TypedEvent;
    assert AttributionEnrichment(t, previous, previousIds, canonical);
    var prior, next := TypedEvent(previous[0]).value.payload, t.events[0].payload;
    sidecar := Sidecar(canonical.payload).value;
    var toolUseId := StringField(next, "toolUseId").value;
    calls := sidecar["toolCalls"].items;
    CallsForOne(calls, toolUseId);
    call := CallsFor(calls, toolUseId)[0];
    forall k | k in ATTRIBUTION && k in next && next[k].Str? && k !in prior ensures Field(call, k) == Field(next, k) {
      assert k in AddedAttribution(prior, next);
    }
  }

  /** The upgrade of a result takes its step and its result from the finished or not dispatched tool call. */
  lemma ResultUpgradeComesFromHistory(t: Target, previous: seq<Payload>, previousIds: seq<string>,
                                      canonical: Canonical) returns (sidecar: Payload)
    requires UpgradePermitted(t, previous, previousIds, canonical) && t.events[0].typ != "tool_call"
    ensures t.events[0].typ == "tool_result" && t.id.kind == "tool-result" && NamesToolUse(t, "tool_result:")
    ensures SidecarFor(canonical, t, sidecar)
    ensures canonical.kind in {"tool-call-finished", "tool-call-not-dispatched"}
    ensures Field(canonical.payload.fields, "toolCallId") == Field(t.events[0].payload, "toolUseId")
    ensures Field(sidecar, "stepId") == Field(t.events[0].payload, "stepId") && "stepId" in sidecar
    ensures Field(sidecar, "result") == Field(t.events[0].payload, "result")
  {
    hide SidecarLocation, PayloadsCompatible, EventMatches, TypedEvent;
    assert ResultSchemaUpgrade(t, previous, previousIds, canonical);
    sidecar := Sidecar(canonical.payload).value;
  }

  // ---------------------------------------------------------------- runs

  /** The row stands for a History event and carries its sequence, and the session generation of its location. */
  ghost predicate Recorded(db: Db, id: TargetId)
    requires id in db.outbox
  {
    var row := db.outbox[id];
    && id.location in db.rows && id.location.sessionId == row.sessionId
    && db.rows[id.location].sessionGeneration == row.sessionGeneration
    && EventOf(id, row.sessionId) in db.history && db.history[EventOf(id, row.sessionId)].sequence == row.sequence
  }

  ghost predicate AllRecorded(db: Db) {
    forall id | id in db.outbox :: Recorded(db, id)
  }

  lemma RowStays(db: Db, op: Op, key: LocationKey)
    requires key in db.rows
    ensures key in Step(db, op).rows && Step(db, op).rows[key].sessionGeneration == db.rows[key].sessionGeneration
  {
    hide Step, Effect, AfterEffect, HasPending;
    StepEffect(db, op, key);
    EffectPersists(Effect(db, op, key), db.rows[key], HasPending(db.outbox, key));
  }

  lemma HistoryStays(db: Db, op: Op, event: HistoryKey)
    requires event in db.history
    ensures event in Step(db, op).history && Step(db, op).history[event] == db.history[event]
  {
    hide Reconciled, Covers, HasPending, ValidExpectation;
  }

  /** Rows come into the outbox by an accepted enqueue only. */
  lemma NewRowIsEnqueued(db: Db, op: Op, id: TargetId)
    requires id in Step(db, op).outbox && id !in db.outbox
    ensures op.EnqueueTarget? && op.target.id == id && Enqueue(db, op.target).Ok?
    ensures Step(db, op) == Enqueue(db, op.target).value
  {
    hide Decode, DigestOf, UpgradePermitted, HasPending, Covers;
  }

  lemma RecordedStep(db: Db, op: Op, id: TargetId)
    requires AllRecorded(db) && id in Step(db, op).outbox
    ensures Recorded(Step(db, op), id)
  {
    hide Step, Enqueue;
    if id in db.outbox {
      var row := db.outbox[id];
      assert Recorded(db, id);
      PayloadStep(db, op, id);
      RowStays(db, op, id.location);
      HistoryStays(db, op, EventOf(id, row.sessionId));
    } else {
      NewRowIsEnqueued(db, op, id);
      EnqueueAcceptsIff(db, op.target);
      RowStays(db, op, id.location);
    }
  }

  /** Along every run from empty tables each row of the outbox has its History event, and carries the sequence of that
      event. */
  lemma {:induction false} RecordedAlongRuns(db: Db, ops: seq<Op>)
    requires AllRecorded(db)
    ensures AllRecorded(Run(db, ops))
    decreases |ops|
  {
    hide Step, Recorded;
    if ops != [] {
      var next := Step(db, ops[0]);
      forall id | id in next.outbox ensures Recorded(next, id) {
        RecordedStep(db, ops[0], id);
      }
      RecordedAlongRuns(next, ops[1..]);
    }
  }

  lemma RunsFromEmptyAreRecorded(ops: seq<Op>)
    ensures AllRecorded(Run(EMPTY, ops))
  {
    RecordedAlongRuns(EMPTY, ops);
  }

  /** Over a run, a row that was not there carries what the target that brought it in said, and the sequence its History
      event had then and has for ever. */
  lemma {:induction false} RowIsItsFirstTarget(db: Db, ops: seq<Op>, id: TargetId) returns (i: nat, t: Target)
    requires id !in db.outbox && id in Run(db, ops).outbox
    ensures i < |ops| && ops[i] == EnqueueTarget(t) && t.id == id
    ensures id !in Run(db, ops[..i]).outbox && Enqueue(Run(db, ops[..i]), t).Ok?
    ensures var row := Run(db, ops).outbox[id];
            && row.sessionId == t.sessionId && row.sessionGeneration == t.sessionGeneration && row.order == t.order
            && EventOf(id, t.sessionId) in Run(db, ops).history
            && row.sequence == Run(db, ops).history[EventOf(id, t.sessionId)].sequence
    decreases |ops|
  {
    hide Step, Enqueue;
    var next := Step(db, ops[0]);
    if id in next.outbox {
      i := 0;
      NewRowIsEnqueued(db, ops[0], id);
      t := ops[0].target;
      EnqueueAcceptsIff(db, t);
      PayloadFrozen(next, ops[1..], id);
      HistoryFrozen(next, ops[1..], EventOf(id, t.sessionId));
      assert ops[..0] == [];
    } else {
      i, t := RowIsItsFirstTarget(next, ops[1..], id);
      i := i + 1;
      assert ops[..i][0] == ops[0] && ops[..i][1..] == ops[1..][..i - 1];
    }
  }

  // ---------------------------------------------------------------- the order of a drain

  /** The sequence of the History event a row stands for. */
  function SequenceOf(db: Db, id: TargetId): int
    requires id in db.outbox && EventOf(id, db.outbox[id].sessionId) in db.history
  {
    db.history[EventOf(id, db.outbox[id].sessionId)].sequence
  }

  /** Earlier in canonical History, or of the same event and earlier in projection order. */
  ghost predicate Precedes(db: Db, a: TargetId, b: TargetId)
    requires AllRecorded(db) && a in db.outbox && b in db.outbox
  {
    assert Recorded(db, a) && Recorded(db, b);
    || SequenceOf(db, a) < SequenceOf(db, b)
    || (SequenceOf(db, a) == SequenceOf(db, b) && db.outbox[a].order < db.outbox[b].order)
  }

  /** The pending list follows canonical History. */
  lemma ListingFollowsHistory(db: Db, rank: TargetId -> int, key: LocationKey, ids: seq<TargetId>, i: nat, j: nat)
    requires AllRecorded(db) && IsListing(db.outbox, rank, key, ids) && i < |ids| && j < |ids|
    requires Precedes(db, ids[i], ids[j])
    ensures i < j
  {
    assert Recorded(db, ids[i]) && Recorded(db, ids[j]);
  }

  /** A drain never projects past History: with every source present, when it has acknowledged a pending target it has
      acknowledged every pending target before it in canonical History. */
  lemma DrainFollowsHistory(w: World, rank: TargetId -> int, key: LocationKey, ids: seq<TargetId>,
                            resolve: TargetId -> Resolution, steps: nat, a: TargetId, b: TargetId)
    requires AllRecorded(w.db) && Injective(rank) && IsListing(w.db.outbox, rank, key, ids)
    requires forall i | 0 <= i < |ids| :: resolve(ids[i]) != SourceMissing
    requires PendingAt(w.db.outbox, key, a) && PendingAt(w.db.outbox, key, b) && Precedes(w.db, a, b)
    ensures var outbox := DrainList(w, ids, resolve, steps).world.db.outbox;
            && a in outbox && b in outbox
            && (outbox[b].status == Acked ==> outbox[a].status == Acked)
  {
    hide DrainList, Precedes, Before;
    DrainAcksPrefix(w, rank, key, ids, resolve, steps);
    var n := DrainList(w, ids, resolve, steps).projected;
    if b in ids[..n] {
      assert a in ids;
      var i :| 0 <= i < |ids| && ids[i] == a;
      var j :| 0 <= j < n && ids[..n][j] == b;
      ListingFollowsHistory(w.db, rank, key, ids, i, j);
      assert ids[..n][i] == a;
    }
  }
}
