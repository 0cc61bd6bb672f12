/** How the projector looks an ensured event up again, and what its identity text names
    (electron/runtime/sessionLedgerOutboxProjector.ts). */
module ReadBack {
  import opened Json
  import opened EventSchema
  import opened ProjectionCompatibility
  import opened Outbox
  import opened Projector

  // ---------------------------------------------------------------- looking up

  const IDENTITY_FIELDS: seq<string> := ["toolUseId", "requestId", "turnId", "compactionId"]

  /** The i-th identity field is the first one the event has. */
  predicate FirstField(p: Payload, i: nat)
    requires i < 4
  {
    IDENTITY_FIELDS[i] in p && forall j | 0 <= j < i :: IDENTITY_FIELDS[j] !in p
  }

  /** The expected payload has the field with the same value; a request also counts its attempt, and a request context
      its stage. */
  predicate AgreesOn(p: Payload, x: EventInput, i: nat)
    requires i < 4 && IDENTITY_FIELDS[i] in p
  {
    && Field(x.payload, IDENTITY_FIELDS[i]) == Some(p[IDENTITY_FIELDS[i]])
    && (IDENTITY_FIELDS[i] == "requestId" ==>
          && Field(x.payload, "attempt") == Field(p, "attempt")
          && (x.typ == "request_context" ==> Field(x.payload, "projectionStage") == Field(p, "projectionStage")))
  }

  /** An event is taken for the expected one exactly when they have one type and agree on the first identity field the
      event has; an event without any is never taken. */
  lemma SameIdentityIff(e: EventRecord, x: EventInput)
    ensures SameProjectionIdentity(e, x) <==>
            e.typ == x.typ && exists i | 0 <= i < 4 :: FirstField(e.payload, i) && AgreesOn(e.payload, x, i)
  {
    var p := e.payload;
    FirstFieldIs(p);
    if SameProjectionIdentity(e, x) {
      var i := if "toolUseId" in p then 0 else if "requestId" in p then 1 else if "turnId" in p then 2 else 3;
      assert FirstField(p, i) && AgreesOn(p, x, i);
    }
  }

  lemma FirstFieldIs(p: Payload)
    ensures FirstField(p, 0) <==> "toolUseId" in p
    ensures FirstField(p, 1) <==> "requestId" in p && "toolUseId" !in p
    ensures FirstField(p, 2) <==> "turnId" in p && "requestId" !in p && "toolUseId" !in p
    ensures FirstField(p, 3) <==> "compactionId" in p && "turnId" !in p && "requestId" !in p && "toolUseId" !in p
  {
    var fields := IDENTITY_FIELDS;
    assert fields[0] == "toolUseId" && fields[1] == "requestId" && fields[2] == "turnId" && fields[3] == "compactionId";
  }

  /** A call that is read back may differ from the expected one in its attribution only, whatever the versions say. */
  lemma CallReadBackIff(kind: string, e: EventRecord, x: EventInput)
    requires IsToolCallKind(kind) && x.typ == "tool_call"
    ensures ObservedMatches(kind, e, x) <==> e.payload == x.payload || AttributionCompatible(e.payload, x.payload)
  {
    assert kind != "tool-result" by {
      assert |"tool-result"| >= 10 ==> "tool-result"[..10][5] == 'r' && "tool-call:"[5] == 'c';
    }
    hide ToolResultCompatible, ArtifactAdded, TerminalMatches;
  }

  /** What a request projection may ask for: a header and a context of the same attempt of the same request. */
  lemma RequestShapeIff(xs: seq<EventInput>)
    ensures ValidShape("request-projection", xs) <==>
            exists header, context ::
              && xs == [header, context] && header.typ == "request_header" && context.typ == "request_context"
              && forall k | k in {"requestId", "attempt"} :: Field(header.payload, k) == Field(context.payload, k)
  {
    if ValidShape("request-projection", xs) {
      assert xs == [xs[0], xs[1]];
    }
  }

  // ---------------------------------------------------------------- identity texts

  /** What a type is called in an identity: a final request context has a name of its own. */
  function Tag(typ: string, p: Payload): string {
    if typ == "request_context" && Field(p, "projectionStage") == Some(FINAL) then "request_context_final" else typ
  }

  /** The fields that name an event of the type. */
  function NamingFields(typ: string): seq<string> {
    if typ in {"tool_call", "tool_result"} then ["toolUseId"]
    else if typ in {"request_header", "request_context", "request_retry"} then ["requestId", "attempt"]
    else if typ == "request_usage" then ["requestId"]
    else if typ in {"turn_start", "turn_end"} then ["turnId"]
    else if typ in {"compaction_start", "compaction_summary"} then ["compactionId"]
    else []
  }

  function Names(typ: string, p: Payload): seq<string> {
    var fields := NamingFields(typ);
    seq(|fields|, i requires 0 <= i < |fields| => IdText(Field(p, fields[i])))
  }

  /** An attempt without the separator, as every number is. */
  predicate PlainAttempt(typ: string, p: Payload) {
    |NamingFields(typ)| == 2 ==> ':' !in Names(typ, p)[1]
  }

  lemma FirstSeparator(a: string, x: string, b: string, y: string)
    requires ':' !in a && ':' !in b && a + ":" + x == b + ":" + y
    ensures a == b && x == y
  {
    var s := a + ":" + x;
    assert s[|a|] == ':' && s[|b|] == ':';
    assert forall i | 0 <= i < |a| :: s[i] == a[i] && a[i] in a;
    assert forall i | 0 <= i < |b| :: s[i] == b[i] && b[i] in b;
    assert |a| == |b|;
    assert a == s[..|a|] && b == s[..|b|] && x == s[|a| + 1..] && y == s[|b| + 1..];
  }

  lemma LastSeparator(a: string, x: string, b: string, y: string)
    requires ':' !in x && ':' !in y && a + ":" + x == b + ":" + y
    ensures a == b && x == y
  {
    var s := a + ":" + x;
    assert s[|a|] == ':' && s[|b|] == ':';
    assert |a| == |b|;
    assert a == s[..|a|] && b == s[..|b|] && x == s[|a| + 1..] && y == s[|b| + 1..];
  }

  /** Behind the tag: one name, or two. */
  function Rest(names: seq<string>): string
    requires 1 <= |names| <= 2
  {
    if |names| == 1 then names[0] else names[0] + ":" + names[1]
  }

  lemma TextIs(typ: string, p: Payload)
    ensures IdentityText(typ, p).Some? <==> NamingFields(typ) != []
    ensures |NamingFields(typ)| <= 2
    ensures NamingFields(typ) != [] ==>
              && ':' !in Tag(typ, p)
              && IdentityText(typ, p) == Some(Tag(typ, p) + ":" + Rest(Names(typ, p)))
  {
    hide IdText;
    var fields, names, tag := NamingFields(typ), Names(typ, p), Tag(typ, p);
    assert "request_context_final:" == "request_context_final" + ":" && "request_usage:" == "request_usage" + ":";
    if |fields| == 2 {
      assert names[0] == IdText(Field(p, "requestId")) && names[1] == IdText(Field(p, "attempt"));
      assert tag + ":" + Rest(names) == tag + ":" + names[0] + ":" + names[1];
    } else if |fields| == 1 {
      assert Rest(names) == IdText(Field(p, fields[0]));
    }
  }

  lemma TagsKeepFields(t1: string, p1: Payload, t2: string, p2: Payload)
    requires Tag(t1, p1) == Tag(t2, p2) && NamingFields(t1) != [] && NamingFields(t2) != []
    ensures NamingFields(t1) == NamingFields(t2)
  {
  }

  /** Two events have one identity text exactly when they are of one kind, final contexts apart, and all their naming
      fields read the same: no two of these texts run into each other. */
  lemma SameTextIff(t1: string, p1: Payload, t2: string, p2: Payload)
    requires IdentityText(t1, p1).Some? && IdentityText(t2, p2).Some?
    requires PlainAttempt(t1, p1) && PlainAttempt(t2, p2)
    ensures IdentityText(t1, p1) == IdentityText(t2, p2) <==>
            Tag(t1, p1) == Tag(t2, p2) && Names(t1, p1) == Names(t2, p2)
  {
    TextIs(t1, p1);
    TextIs(t2, p2);
    var names1, names2 := Names(t1, p1), Names(t2, p2);
    hide IdText, IdentityText, Tag, Names, NamingFields;
    if IdentityText(t1, p1) == IdentityText(t2, p2) {
      NamesLength(t1, p1);
      NamesLength(t2, p2);
      FirstSeparator(Tag(t1, p1), Rest(names1), Tag(t2, p2), Rest(names2));
      TagsKeepFields(t1, p1, t2, p2);
      if |names1| == 2 {
        LastSeparator(names1[0], names1[1], names2[0], names2[1]);
      }
      assert names1 == names2;
    }
  }

  lemma NamesLength(typ: string, p: Payload)
    ensures |Names(typ, p)| == |NamingFields(typ)|
  {
  }

  /** A string names itself, a missing field reads as undefined, and a number never has the separator. */
  lemma {:induction false} TextOfNumber(n: int)
    ensures ':' !in IntText(n) && IntText(n) != ""
    decreases if n < 0 then 1 else 0, if n < 0 then -n else n
  {
    if n < 0 {
      TextOfNumber(-n);
    } else if n >= 10 {
      TextOfNumber(n / 10);
    }
  }

  lemma TextOfField(p: Payload, key: string)
    ensures key !in p ==> IdText(Field(p, key)) == "undefined"
    ensures key in p && p[key].Str? ==> IdText(Field(p, key)) == p[key].s
    ensures key in p && p[key].Num? ==> ':' !in IdText(Field(p, key))
  {
    if key in p && p[key].Num? {
      TextOfNumber(p[key].n);
    }
  }
}
