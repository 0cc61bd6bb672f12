/** What an acknowledged event and the event of the ledger have in common, field by field
    (electron/sessionLedgerOutbox.ts, electron/sessionLedgerProjectionCompatibility.ts). */
module AckedFields {
  import opened Json
  import opened EventSchema
  import opened ProjectionCompatibility
  import opened Outbox
  import opened Readiness
  import opened Projector
  import opened Images
  import opened Drain
  import opened ExactlyOnce
  import opened AckedTargets

  // ---------------------------------------------------------------- turn ends

  /** The fields a stored turn end may have on top of turn and reason. */
  const TERMINAL_EXTRAS: set<string> := {"error", "errorCode", "finalSurfaceSnapshot"}

  /** Same turn, same reason, and on top of them only the permitted fields, the two error fields being strings. */
  predicate SameTerminal(actual: Payload, expected: Payload) {
    && (forall k | k !in TERMINAL_EXTRAS && k in actual :: k == "turnId" || k == "reason")
    && (if "turnId" in expected then "turnId" in actual && actual["turnId"] == expected["turnId"]
        else "turnId" !in actual)
    && (if "reason" in expected then "reason" in actual && actual["reason"] == expected["reason"]
        else "reason" !in actual)
    && (forall k | k in {"error", "errorCode"} && k in actual :: actual[k].Str?)
  }

  /** A stored turn end is accepted for an expected one exactly when it has the same turn and the same reason and
      differs only by permitted fields. */
  lemma TerminalMatchesIff(actual: Payload, expected: Payload)
    ensures TerminalMatches(actual, expected) <==> SameTerminal(actual, expected)
  {
    assert "error" in {"error", "errorCode"} && "errorCode" in {"error", "errorCode"};
    assert forall k | k in TERMINAL_EXTRAS :: k in {"turnId", "reason", "error", "errorCode", "finalSurfaceSnapshot"};
    if SameTerminal(actual, expected) {
      forall k | k in actual ensures k in {"turnId", "reason", "error", "errorCode", "finalSurfaceSnapshot"} {
        assert k !in TERMINAL_EXTRAS ==> k == "turnId" || k == "reason";
      }
    }
    if TerminalMatches(actual, expected) {
      forall k | k !in TERMINAL_EXTRAS && k in actual ensures k == "turnId" || k == "reason" {
        assert k in {"turnId", "reason", "error", "errorCode", "finalSurfaceSnapshot"};
      }
    }
  }

  /** A consumer that reports a turn end as already there has found one of the same turn with the same reason. */
  lemma PresentTerminal(ledger: seq<EventRecord>, x: EventInput) returns (e: EventRecord)
    requires x.typ == "turn_end" && Ensure("invocation-terminal", ledger, x) == Present
    requires IsString(Field(x.payload, "turnId")) && IsString(Field(x.payload, "reason"))
    ensures e in ledger && e.typ == "turn_end"
    ensures Field(e.payload, "turnId") == Field(x.payload, "turnId")
    ensures Field(e.payload, "reason") == Field(x.payload, "reason")
    ensures forall k | k in e.payload :: k in {"turnId", "reason"} + TERMINAL_EXTRAS
  {
    e := PresentAccepted(ledger, x);
    TerminalMatchesIff(e.payload, ProjectedPayload("invocation-terminal", x));
    hide Ensure, TerminalMatches, EventSlot;
  }

  lemma PresentAccepted(ledger: seq<EventRecord>, x: EventInput) returns (e: EventRecord)
    requires x.typ == "turn_end" && Ensure("invocation-terminal", ledger, x) == Present
    ensures e in ledger && e.typ == "turn_end"
    ensures TerminalMatches(e.payload, ProjectedPayload("invocation-terminal", x))
  {
    hide TerminalMatches, ProjectedPayload, ValidInput, AnyUnsupported;
    e := InSlot(ledger, Wanted("invocation-terminal", x).value)[0];
  }

  // ---------------------------------------------------------------- tool results

  const DIAGNOSTICS: set<string> := {"executionOutcome", "executorEntry"}

  /** Two result records agree on a field, or it is a permitted diagnostic that only the live one has. */
  predicate SameResultField(k: string, live: Payload, base: Payload) {
    || Field(live, k) == Field(base, k)
    || (k == "executionOutcome" && k !in base && live[k] in {Str("succeeded"), Str("known-failure"),
                                                             Str("unknown-after-dispatch"), Str("not-dispatched")})
    || (k == "executorEntry" && k !in base && live[k] in {Str("not-entered"), Str("entered"), Str("unknown")})
  }

  /** Results agree outside `result`, and in it on every field but `data`, where only the artifact reference may be
      missing, and live diagnostics. */
  ghost predicate SameResult(actual: Payload, expected: Payload) {
    && (forall k | k != "result" :: Field(actual, k) == Field(expected, k))
    && (IsRecord(Field(expected, "result")) ==>
          && IsRecord(Field(actual, "result"))
          && var live, base := actual["result"].fields, expected["result"].fields;
          && (forall k | k != "data" :: SameResultField(k, live, base))
          && (Field(live, "data") == Field(base, "data") || DataWithoutArtifact(live, base)))
    && (!IsRecord(Field(expected, "result")) ==> Field(actual, "result") == Field(expected, "result"))
  }

  /** The expected data holds an artifact reference that the live one lacks. */
  ghost predicate DataWithoutArtifact(live: Payload, base: Payload) {
    && ReadPath(live, ["data", "rawArtifact", "artifactId"]).None?
    && ReadPath(base, ["data", "rawArtifact", "artifactId"]).Some?
    && forall q | |q| > 0 && q[0] == "data" && Unrelated(["data", "rawArtifact", "artifactId"], q) ::
         ReadPath(live, q) == ReadPath(base, q)
  }

  lemma CompatibleIsSame(actual: Payload, expected: Payload)
    requires ToolResultCompatible(actual, expected)
    ensures SameResult(actual, expected)
  {
    forall k | k != "result" ensures Field(actual, k) == Field(expected, k) {
      AcceptedResultsAgreeOutsideResult(actual, expected, k);
    }
    if IsRecord(Field(expected, "result")) {
      var live, base := actual["result"].fields, expected["result"].fields;
      var plain := WithoutLiveDiagnostics(live, base);
      PlainAgrees(actual["result" := Obj(plain)], expected);
      forall k | k != "data" ensures SameResultField(k, live, base) {
        assert Field(plain, k) == Field(base, k);
        assert AllowedDiagnostics("executionOutcome")
            == {"succeeded", "known-failure", "unknown-after-dispatch", "not-dispatched"};
      }
      PlainData(live, base);
    }
  }

  lemma PlainData(live: Payload, base: Payload)
    ensures Field(WithoutLiveDiagnostics(live, base), "data") == Field(live, "data")
    ensures forall q | |q| > 0 && q[0] == "data" :: ReadPath(WithoutLiveDiagnostics(live, base), q) == ReadPath(live, q)
  {
  }

  /** Compatible results, without diagnostics. */
  lemma PlainAgrees(actual: Payload, expected: Payload)
    requires PayloadsCompatible("tool_result", actual, expected)
    requires IsRecord(Field(actual, "result")) && IsRecord(Field(expected, "result"))
    ensures var live, base := actual["result"].fields, expected["result"].fields;
            && (forall k | k != "data" :: Field(live, k) == Field(base, k))
            && (Field(live, "data") == Field(base, "data") || DataWithoutArtifact(live, base))
  {
    if actual != expected {
      var live, base := actual["result"].fields, expected["result"].fields;
      var rest := ["data", "rawArtifact", "artifactId"];
      assert ARTIFACT_PATH[1..] == rest && ARTIFACT_PATH[0] == "result";
      var v := ReadPath(expected, ARTIFACT_PATH).value;
      assert PutPath(live, rest, v) == Some(base);
      forall k | k != "data" ensures Field(live, k) == Field(base, k) {
        assert rest[0] == "data";
      }
      forall q | |q| > 0 && q[0] == "data" && Unrelated(rest, q) ensures ReadPath(live, q) == ReadPath(base, q) {
        PutAgreesElsewhere(live, base, rest, v, q);
      }
    }
  }

  // ---------------------------------------------------------------- every kind of event

  /** What the ledger event has in common with the expected one, by its type. */
  ghost predicate SameFields(e: EventRecord, x: EventInput) {
    && e.typ == x.typ
    && (if x.typ == "tool_call" then forall k | k !in ATTRIBUTION :: Field(e.payload, k) == Field(x.payload, k)
        else if x.typ == "tool_result" then SameResult(e.payload, x.payload)
        else if x.typ == "turn_end" then SameTerminal(e.payload, x.payload)
        else e.payload == x.payload)
  }

  lemma HeldHasSameFields(kind: string, e: EventRecord, x: EventInput, id: string)
    requires Held(kind, e, x, id) && Dispatched(kind, x.typ)
    ensures SameFields(e, x)
  {
    hide IdentityText, ToolResultCompatible, TerminalMatches, SameResult, SameTerminal;
    KindIs(kind, x.typ);
    if x.typ == "tool_call" {
      if !SameCall(kind, e, x) {
        CallOfImage(kind, e, x, id);
      }
      forall k | k !in ATTRIBUTION ensures Field(e.payload, k) == Field(x.payload, k) {
        assert Field(e.payload - ATTRIBUTION, k) == Field(x.payload - ATTRIBUTION, k);
      }
    } else if x.typ == "tool_result" {
      CompatibleIsSame(e.payload, x.payload);
    } else if x.typ == "turn_end" {
      TerminalMatchesIff(e.payload, x.payload);
    }
  }

  lemma KindIs(kind: string, typ: string)
    requires Dispatched(kind, typ)
    ensures kind == "tool-result" <==> typ == "tool_result"
    ensures IsToolCallKind(kind) <==> typ == "tool_call"
    ensures typ == "turn_end" ==> kind == "invocation-terminal"
  {
    assert "tool-call:"[5] == 'c' && "tool-call:"[0] == 't';
    assert "tool-result"[..10][5] == 'r';
    assert "request-retry"[..10][0] == 'r' && "request-usage"[..10][0] == 'r'
        && "request-final-context"[..10][0] == 'r';
    assert "request-projection"[..10][0] == 'r' && "invocation-terminal"[..10][0] == 'i';
  }

  /** Over every schedule, the ledger holds for each expected event of an acknowledged target one with the same fields:
      for an invocation terminal a turn end of the same turn with the same reason. */
  lemma AckedFieldByField(s: System, moves: seq<Move>, resolve: TargetId -> Resolution, key: LocationKey,
                          id: TargetId, expected: Expectation, i: nat)
      returns (e: EventRecord)
    requires SystemInv(s, key) && AllLegal(s, moves, resolve, key) && CanonicalResolver(resolve)
    requires var s' := PerformAll(s, moves, resolve);
             && !s'.missing && AckedAt(s'.w.db, key, id)
             && s'.w.db.outbox[id].payload.digest == DigestOf(expected.events, expected.ids)
    requires i < |expected.events| && |expected.events| == |expected.ids|
        && Dispatched(id.kind, expected.events[i].typ)
    ensures e in PerformAll(s, moves, resolve).w.ledger && SameFields(e, expected.events[i])
    ensures IdentityText(e.typ, e.payload) == Some(expected.ids[i])
  {
    hide PerformAll, AllLegal, CanonicalResolver, TaskOk, AtMostOnce, SameFields, ProjectionEventMatches, SameCall;
    ExactlyOnceProjection(s, moves, resolve, key);
    var w, x := PerformAll(s, moves, resolve).w, expected.events[i];
    TypedEventOfObject(x);
    assert DigestOf(expected.events, expected.ids).events[i] == EventObject(x);
    assert IsHeld(id.kind, w.ledger, x, expected.ids[i]);
    e :| e in w.ledger && Held(id.kind, e, x, expected.ids[i]);
    HeldHasSameFields(id.kind, e, x, expected.ids[i]);
  }
}
