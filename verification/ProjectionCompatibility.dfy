/** When a stored event is an acceptable image of the canonical one
    (electron/sessionLedgerProjectionCompatibility.ts). */
module ProjectionCompatibility {
  import opened Json
  import opened EventSchema

  datatype Validity = AnyString | ArtifactReference

  datatype FieldRule = FieldRule(path: seq<string>, validity: Validity, allowActualOnly: bool)

  const ARTIFACT_PATH := ["result", "data", "rawArtifact", "artifactId"]

  const ATTRIBUTION: set<string> := {"requestId", "invocationRequestId", "lane"}

  /** The declared additive fields of each event type. */
  function Rules(typ: string): (rules: seq<FieldRule>)
    ensures forall i | 0 <= i < |rules| :: |rules[i].path| > 0
  {
    if typ == "tool_call" then
      [ FieldRule(["requestId"], AnyString, true),
        FieldRule(["invocationRequestId"], AnyString, true),
        FieldRule(["lane"], AnyString, true) ]
    else if typ == "tool_result" then
      [ FieldRule(ARTIFACT_PATH, ArtifactReference, false) ]
    else
      []
  }

  predicate IsHexDigit(c: char) {
    '0' <= c <= '9' || 'a' <= c <= 'f' || 'A' <= c <= 'F'
  }

  function ToLower(c: char): char {
    if 'A' <= c <= 'Z' then (c as int + 32) as char else c
  }

  /** `artifact-` in any letter case followed by exactly 64 hexadecimal digits. */
  predicate IsArtifactId(s: string) {
    && |s| == 73
    && (forall i | 0 <= i < 9 :: ToLower(s[i]) == "artifact-"[i])
    && (forall i | 9 <= i < 73 :: IsHexDigit(s[i]))
  }

  predicate IsValid(validity: Validity, value: Json) {
    value.Str? && (validity == ArtifactReference ==> IsArtifactId(value.s))
  }

  // ---------------------------------------------------------------- paths

  function ReadPath(root: Payload, path: seq<string>): Option<Json>
    decreases |path|
  {
    if path == [] then Some(Obj(root))
    else if path[0] !in root then None
    else if |path| == 1 then Some(root[path[0]])
    else if root[path[0]].Obj? then ReadPath(root[path[0]].fields, path[1..])
    else None
  }

  function DeletePath(root: Payload, path: seq<string>): Payload
    requires |path| > 0
    decreases |path|
  {
    if |path| == 1 then root - {path[0]}
    else if path[0] in root && root[path[0]].Obj? then
      root[path[0] := Obj(DeletePath(root[path[0]].fields, path[1..]))]
    else root
  }

  /** Drops the record at `parent` when it is empty and the other side has nothing there. */
  function PruneAt(root: Payload, counterpart: Payload, parent: seq<string>): Payload
    requires |parent| > 0
  {
    if ReadPath(root, parent) == Some(Obj(map[])) && ReadPath(counterpart, parent).None? then DeletePath(root, parent)
    else root
  }

  /** Prunes the ancestors of `path` of length `depth`, `depth - 1`, ..., 1, in this order. */
  function PruneFrom(root: Payload, counterpart: Payload, path: seq<string>, depth: nat): Payload
    requires depth <= |path|
    decreases depth
  {
    if depth == 0 then root
    else PruneFrom(PruneAt(root, counterpart, path[..depth]), counterpart, path, depth - 1)
  }

  function PruneEmptyParents(root: Payload, counterpart: Payload, path: seq<string>): Payload
    requires |path| > 0
  {
    PruneFrom(root, counterpart, path, |path| - 1)
  }

  method PruneEmptyParentsLoop(root: Payload, counterpart: Payload, path: seq<string>) returns (pruned: Payload)
    requires |path| > 0
    ensures pruned == PruneEmptyParents(root, counterpart, path)
  {
    pruned := root;
    var depth := |path| - 1;
    while depth > 0
      invariant 0 <= depth < |path|
      invariant PruneFrom(pruned, counterpart, path, depth) == PruneEmptyParents(root, counterpart, path)
    {
      var parent := path[..depth];
      if ReadPath(pruned, parent) == Some(Obj(map[])) && ReadPath(counterpart, parent).None? {
        pruned := DeletePath(pruned, parent);
      }
      depth := depth - 1;
    }
  }

  // ---------------------------------------------------------------- the matching loop

  /** Both payloads after every one-sided additive field was dropped; None when a field was refused. */
  datatype Folded = Refused | Folded(actual: Payload, expected: Payload, normalized: bool)

  function ApplyRules(rules: seq<FieldRule>, actual: Payload, expected: Payload, normalized: bool): Folded
    requires forall i | 0 <= i < |rules| :: |rules[i].path| > 0
  {
    if rules == [] then Folded(actual, expected, normalized)
    else
      var a := ReadPath(actual, rules[0].path);
      var e := ReadPath(expected, rules[0].path);
      if a.Some? == e.Some? then ApplyRules(rules[1..], actual, expected, normalized)
      else if a.Some? && !rules[0].allowActualOnly then Refused
      else if !IsValid(rules[0].validity, if a.Some? then a.value else e.value) then Refused
      else
        var actual' := PruneEmptyParents(DeletePath(actual, rules[0].path), DeletePath(expected, rules[0].path),
                                         rules[0].path);
        var expected' := PruneEmptyParents(DeletePath(expected, rules[0].path), actual', rules[0].path);
        ApplyRules(rules[1..], actual', expected', true)
  }

  /** The declarative reading of the relation, without any loop, deletion or pruning. */
  predicate PayloadsCompatible(typ: string, actual: Payload, expected: Payload) {
    || actual == expected
    || (typ == "tool_call" && AttributionCompatible(actual, expected))
    || (typ == "tool_result" && ArtifactAdded(actual, expected))
  }

  /** Equal outside the three attribution fields; a field both have is equal; a field one has is a string. */
  predicate AttributionCompatible(actual: Payload, expected: Payload) {
    && actual - ATTRIBUTION == expected - ATTRIBUTION
    && (forall k | k in ATTRIBUTION :: AttributionFieldCompatible(k, actual, expected))
  }

  predicate AttributionFieldCompatible(k: string, actual: Payload, expected: Payload) {
    && (k in actual && k in expected ==> actual[k] == expected[k])
    && (k in actual && k !in expected ==> actual[k].Str?)
    && (k !in actual && k in expected ==> expected[k].Str?)
  }

  /** `root` with `value` put at `path`, creating the records that are missing on the way. */
  function PutPath(root: Payload, path: seq<string>, value: Json): Option<Payload>
    requires |path| > 0
    decreases |path|
  {
    if |path| == 1 then Some(root[path[0] := value])
    else if path[0] in root && !root[path[0]].Obj? then None
    else
      var child := PutPath(Child(root, path[0]), path[1..], value);
      if child.None? then None else Some(root[path[0] := Obj(child.value)])
  }

  /** The record below `key`, empty when there is none. */
  function Child(root: Payload, key: string): Payload {
    if key in root && root[key].Obj? then root[key].fields else map[]
  }

  /** The expected record is the actual one with a well-formed artifact reference put at its declared place. */
  predicate ArtifactAdded(actual: Payload, expected: Payload) {
    && ReadPath(actual, ARTIFACT_PATH).None?
    && ReadPath(expected, ARTIFACT_PATH).Some?
    && IsValid(ArtifactReference, ReadPath(expected, ARTIFACT_PATH).value)
    && PutPath(actual, ARTIFACT_PATH, ReadPath(expected, ARTIFACT_PATH).value) == Some(expected)
  }

  /** The loop over the rule table decides exactly the declarative relation. */
  method PayloadsMatch(typ: string, actual: Payload, expected: Payload) returns (r: bool)
    ensures r <==> PayloadsCompatible(typ, actual, expected)
  {
    if actual == expected {
      return true;
    }
    var rules := Rules(typ);
    if |rules| == 0 {
      return false;
    }
    MatchCharacterised(typ, actual, expected);
    var compatibleActual, compatibleExpected := actual, expected;
    var normalized := false;
    var i := 0;
    while i < |rules|
      invariant 0 <= i <= |rules|
      invariant ApplyRules(rules[i..], compatibleActual, compatibleExpected, normalized)
          == ApplyRules(rules, actual, expected, false)
    {
      var rule := rules[i];
      assert rules[i..][1..] == rules[i + 1..];
      var actualValue := ReadPath(compatibleActual, rule.path);
      var expectedValue := ReadPath(compatibleExpected, rule.path);
      i := i + 1;
      if actualValue.Some? != expectedValue.Some? {
        if actualValue.Some? && !rule.allowActualOnly {
          return false;
        }
        var value := if actualValue.Some? then actualValue.value else expectedValue.value;
        if !IsValid(rule.validity, value) {
          return false;
        }
        compatibleActual := DeletePath(compatibleActual, rule.path);
        compatibleExpected := DeletePath(compatibleExpected, rule.path);
        compatibleActual := PruneEmptyParentsLoop(compatibleActual, compatibleExpected, rule.path);
        compatibleExpected := PruneEmptyParentsLoop(compatibleExpected, compatibleActual, rule.path);
        normalized := true;
      }
    }
    return normalized && compatibleActual == compatibleExpected;
  }

  predicate FoldedMatch(f: Folded) {
    f.Folded? && f.normalized && f.actual == f.expected
  }

  lemma MatchCharacterised(typ: string, actual: Payload, expected: Payload)
    requires actual != expected
    ensures FoldedMatch(ApplyRules(Rules(typ), actual, expected, false)) <==> PayloadsCompatible(typ, actual, expected)
  {
    if typ == "tool_call" {
      AttributionCharacterised(actual, expected);
    } else if typ == "tool_result" {
      ArtifactCharacterised(actual, expected);
    }
  }

  // ---------------------------------------------------------------- tool calls

  predicate OneSided(k: string, p: Payload, q: Payload) {
    (k in p) != (k in q)
  }

  /** A one-sided attribution field that is not a string makes the match fail at once. */
  predicate BadField(k: string, p: Payload, q: Payload) {
    (k in p && k !in q && !p[k].Str?) || (k !in p && k in q && !q[k].Str?)
  }

  /** `p` without the attribution fields among `ks` that only one of the two sides has. */
  function Shared(ks: set<string>, p: Payload, q: Payload): Payload {
    map k | k in p && (k in ks ==> k in q) :: p[k]
  }

  lemma AttributionStep(rules: seq<FieldRule>, k: string, ks: set<string>, actual: Payload, expected: Payload,
                        normalized: bool)
    requires |rules| > 0 && rules[0] == FieldRule([k], AnyString, true) && k !in ks
    requires forall i | 0 <= i < |rules| :: |rules[i].path| > 0
    ensures ApplyRules(rules, Shared(ks, actual, expected), Shared(ks, expected, actual), normalized) ==
            if BadField(k, actual, expected) then Refused
            else ApplyRules(rules[1..], Shared(ks + {k}, actual, expected), Shared(ks + {k}, expected, actual),
                            normalized || OneSided(k, actual, expected))
  {
    var a, e := Shared(ks, actual, expected), Shared(ks, expected, actual);
    assert (k in a) == (k in actual) && (k in e) == (k in expected);
    if OneSided(k, actual, expected) {
      assert a - {k} == Shared(ks + {k}, actual, expected);
      assert e - {k} == Shared(ks + {k}, expected, actual);
    } else {
      assert a == Shared(ks + {k}, actual, expected);
      assert e == Shared(ks + {k}, expected, actual);
    }
  }

  /** What the three attribution rules compute. */
  lemma AttributionFold(actual: Payload, expected: Payload)
    ensures ApplyRules(Rules("tool_call"), actual, expected, false) ==
            if exists k :: k in ATTRIBUTION && BadField(k, actual, expected) then Refused
            else Folded(Shared(ATTRIBUTION, actual, expected), Shared(ATTRIBUTION, expected, actual),
                        exists k :: k in ATTRIBUTION && OneSided(k, actual, expected))
  {
    var rules := Rules("tool_call");
    assert rules[1..][1..] == rules[2..] && rules[2..][1..] == [];
    var (k0, k1, k2) := ("requestId", "invocationRequestId", "lane");
    assert Shared({}, actual, expected) == actual && Shared({}, expected, actual) == expected;
    AttributionStep(rules, k0, {}, actual, expected, false);
    AttributionStep(rules[1..], k1, {} + {k0}, actual, expected, OneSided(k0, actual, expected));
    AttributionStep(rules[2..], k2, {} + {k0} + {k1}, actual, expected, OneSided(k0, actual, expected)
                    || OneSided(k1, actual, expected));
    assert {} + {k0} + {k1} + {k2} == ATTRIBUTION;
    assert k0 in ATTRIBUTION && k1 in ATTRIBUTION && k2 in ATTRIBUTION;
  }

  lemma AttributionCharacterised(actual: Payload, expected: Payload)
    requires actual != expected
    ensures FoldedMatch(ApplyRules(Rules("tool_call"), actual, expected, false)) <==>
        AttributionCompatible(actual, expected)
  {
    AttributionFold(actual, expected);
    if AttributionCompatible(actual, expected) {
      SomeFieldOneSided(actual, expected);
      forall k ensures k in ATTRIBUTION ==> !BadField(k, actual, expected) {
        assert k in ATTRIBUTION ==> AttributionFieldCompatible(k, actual, expected);
      }
      forall k ensures Field(Shared(ATTRIBUTION, actual, expected), k)
          == Field(Shared(ATTRIBUTION, expected, actual), k) {
        assert Field(actual - ATTRIBUTION, k) == Field(expected - ATTRIBUTION, k);
        assert k in ATTRIBUTION ==> AttributionFieldCompatible(k, actual, expected);
      }
      SameFields(Shared(ATTRIBUTION, actual, expected), Shared(ATTRIBUTION, expected, actual));
    }
    if FoldedMatch(ApplyRules(Rules("tool_call"), actual, expected, false)) {
      var shared := Shared(ATTRIBUTION, actual, expected);
      forall k ensures Field(actual - ATTRIBUTION, k) == Field(expected - ATTRIBUTION, k) {
        assert Field(shared, k) == Field(Shared(ATTRIBUTION, expected, actual), k);
      }
      SameFields(actual - ATTRIBUTION, expected - ATTRIBUTION);
      forall k | k in ATTRIBUTION ensures AttributionFieldCompatible(k, actual, expected) {
        assert !BadField(k, actual, expected);
        assert Field(shared, k) == Field(Shared(ATTRIBUTION, expected, actual), k);
      }
    }
  }

  lemma SameFields(p: Payload, q: Payload)
    requires forall k :: Field(p, k) == Field(q, k)
    ensures p == q
  {
    forall k ensures (k in p <==> k in q) && (k in p ==> p[k] == q[k]) {
      assert Field(p, k) == Field(q, k);
    }
  }

  lemma SomeFieldOneSided(actual: Payload, expected: Payload)
    requires actual != expected && AttributionCompatible(actual, expected)
    ensures exists k :: k in ATTRIBUTION && OneSided(k, actual, expected)
  {
    if forall k | k in ATTRIBUTION :: !OneSided(k, actual, expected) {
      forall k ensures Field(actual, k) == Field(expected, k) {
        assert Field(actual - ATTRIBUTION, k) == Field(expected - ATTRIBUTION, k);
        assert k in ATTRIBUTION ==> AttributionFieldCompatible(k, actual, expected) && !OneSided(k, actual, expected);
      }
      SameFields(actual, expected);
      assert false;
    }
  }

  // ---------------------------------------------------------------- tool results

  /** Pruning as one pass down the tree and back up. */
  function PruneRec(root: Payload, counterpart: Payload, path: seq<string>): Payload
    requires |path| > 0
    decreases |path|
  {
    if |path| == 1 || path[0] !in root || !root[path[0]].Obj? then root
    else
      var child := PruneRec(root[path[0]].fields, Child(counterpart, path[0]), path[1..]);
      if child == map[] && path[0] !in counterpart then root - {path[0]} else root[path[0] := Obj(child)]
  }

  lemma {:induction false} PruneFromIsRec(root: Payload, counterpart: Payload, path: seq<string>)
    requires |path| > 0
    ensures PruneEmptyParents(root, counterpart, path) == PruneRec(root, counterpart, path)
    decreases |path|
  {
    if |path| == 1 {
    } else if path[0] in root && root[path[0]].Obj? {
      PruneLift(root, counterpart, path, |path| - 2);
      PruneFromIsRec(root[path[0]].fields, Child(counterpart, path[0]), path[1..]);
    } else {
      PruneBlocked(root, counterpart, path, |path| - 1);
    }
  }

  /** Pruning below `path[0]` happens inside the child; then the child itself is considered. */
  lemma {:induction false} PruneLift(root: Payload, counterpart: Payload, path: seq<string>, depth: nat)
    requires |path| > 1 && depth < |path| - 1
    requires path[0] in root && root[path[0]].Obj?
    ensures PruneFrom(root, counterpart, path, depth + 1) ==
            PruneAt(root[path[0] := Obj(PruneFrom(root[path[0]].fields, Child(counterpart, path[0]), path[1..],
                                                  depth))], counterpart, [path[0]])
    decreases depth
  {
    var child, other := root[path[0]].fields, Child(counterpart, path[0]);
    if depth == 0 {
      assert path[..1] == [path[0]];
      assert root[path[0] := Obj(child)] == root;
    } else {
      var parent := path[..depth + 1];
      assert parent[0] == path[0] && parent[1..] == path[1..][..depth];
      var child' := PruneAt(child, other, path[1..][..depth]);
      assert ReadPath(root, parent) == ReadPath(child, parent[1..]);
      assert ReadPath(counterpart, parent).None? <==> ReadPath(other, parent[1..]).None?;
      var root' := root[path[0] := Obj(child')];
      assert PruneAt(root, counterpart, parent) == root' by {
        if child' == child {
          assert root' == root;
        }
      }
      PruneLift(root', counterpart, path, depth - 1);
      assert root'[path[0] := Obj(PruneFrom(child', other, path[1..], depth - 1))]
          == root[path[0] := Obj(PruneFrom(child', other, path[1..], depth - 1))];
    }
  }

  lemma {:induction false} PruneBlocked(root: Payload, counterpart: Payload, path: seq<string>, depth: nat)
    requires |path| > 1 && depth < |path|
    requires path[0] !in root || !root[path[0]].Obj?
    ensures PruneFrom(root, counterpart, path, depth) == root
    decreases depth
  {
    if depth > 0 {
      assert path[..depth][0] == path[0];
      assert PruneAt(root, counterpart, path[..depth]) == root;
      PruneBlocked(root, counterpart, path, depth - 1);
    }
  }

  /** Deleting and pruning a field undoes exactly the insertion of that field, for any path. */
  lemma {:induction false} PruneUndoesPut(a: Payload, e: Payload, path: seq<string>, v: Json)
    requires |path| > 0
    requires ReadPath(a, path).None? && ReadPath(e, path) == Some(v)
    ensures PruneRec(DeletePath(e, path), a, path) == a <==> PutPath(a, path, v) == Some(e)
    decreases |path|
  {
    var k := path[0];
    if |path| == 1 {
      if e - {k} == a {
        assert a[k := v] == e;
      }
    } else {
      var ac, ec := Child(a, k), e[k].fields;
      var deleted := DeletePath(e, path);
      assert deleted[k].fields == DeletePath(ec, path[1..]);
      PruneUndoesPut(ac, ec, path[1..], v);
      var child := PruneRec(DeletePath(ec, path[1..]), ac, path[1..]);
      if k in a && !a[k].Obj? {
      } else if k in a {
        if deleted[k := Obj(child)] == a {
          assert a[k := Obj(ec)] == e;
        }
        if PutPath(a, path, v) == Some(e) {
          assert e == a[k := Obj(ec)];
          assert deleted[k := Obj(child)] == a;
        }
      } else {
        if child == map[] && deleted - {k} == a {
          assert a[k := Obj(ec)] == e;
        }
        if PutPath(a, path, v) == Some(e) {
          assert e == a[k := Obj(ec)];
          assert deleted - {k} == a;
        }
      }
    }
  }

  /** A field that is not there is not deleted. */
  lemma {:induction false} DeleteAbsent(a: Payload, path: seq<string>)
    requires |path| > 0 && ReadPath(a, path).None?
    ensures DeletePath(a, path) == a
    decreases |path|
  {
    if |path| > 1 && path[0] in a && a[path[0]].Obj? {
      DeleteAbsent(a[path[0]].fields, path[1..]);
      assert a[path[0] := Obj(a[path[0]].fields)] == a;
    }
  }

  /** The side that lacks the field loses no ancestor: the other side still has every one of them. */
  lemma {:induction false} NothingToPrune(a: Payload, e: Payload, path: seq<string>)
    requires |path| > 0 && ReadPath(e, path).Some?
    ensures PruneRec(a, DeletePath(e, path), path) == a
    decreases |path|
  {
    if |path| > 1 && path[0] in a && a[path[0]].Obj? {
      NothingToPrune(a[path[0]].fields, e[path[0]].fields, path[1..]);
      assert a[path[0] := Obj(a[path[0]].fields)] == a;
    }
  }

  lemma ArtifactCharacterised(actual: Payload, expected: Payload)
    requires actual != expected
    ensures FoldedMatch(ApplyRules(Rules("tool_result"), actual, expected, false)) <==> ArtifactAdded(actual, expected)
  {
    var rules := Rules("tool_result");
    var p := rules[0].path;
    assert rules[1..] == [];
    var a, e := ReadPath(actual, p), ReadPath(expected, p);
    if a.None? && e.Some? {
      DeleteAbsent(actual, p);
      PruneFromIsRec(actual, DeletePath(expected, p), p);
      NothingToPrune(actual, expected, p);
      PruneFromIsRec(DeletePath(expected, p), actual, p);
      PruneUndoesPut(actual, expected, p, e.value);
    }
  }

  predicate Unrelated(p: seq<string>, q: seq<string>) {
    !(p <= q) && !(q <= p)
  }

  /** Inserting a field changes nothing outside its own path. */
  lemma {:induction false} PutAgreesElsewhere(a: Payload, e: Payload, p: seq<string>, v: Json, q: seq<string>)
    requires |p| > 0 && PutPath(a, p, v) == Some(e) && Unrelated(p, q)
    ensures ReadPath(a, q) == ReadPath(e, q)
    decreases |p|
  {
    if p[0] == q[0] {
      assert |p| > 1 && |q| > 1;
      assert p == [p[0]] + p[1..] && q == [q[0]] + q[1..];
      assert Unrelated(p[1..], q[1..]);
      PutAgreesElsewhere(Child(a, p[0]), e[p[0]].fields, p[1..], v, q[1..]);
      if p[0] !in a {
        AbsentEverywhere(q[1..]);
      }
    }
  }

  lemma AbsentEverywhere(q: seq<string>)
    requires |q| > 0
    ensures ReadPath(map[], q).None?
  {
  }

  /** Matched tool results agree on every path that is neither above nor below the artifact reference. */
  lemma MatchedResultsAgree(actual: Payload, expected: Payload, q: seq<string>)
    requires PayloadsCompatible("tool_result", actual, expected) && Unrelated(ARTIFACT_PATH, q)
    ensures ReadPath(actual, q) == ReadPath(expected, q)
  {
    if actual != expected {
      PutAgreesElsewhere(actual, expected, ARTIFACT_PATH, ReadPath(expected, ARTIFACT_PATH).value, q);
    }
  }

  // ---------------------------------------------------------------- events

  predicate SchemasCompatible(actual: EventRecord, expected: EventRecord) {
    Normal(actual).Some? && Normal(expected).Some? && actual.typ == expected.typ
  }

  /** `sessionEventProjectionMatches`. */
  predicate EventMatches(actual: EventRecord, expected: EventRecord) {
    SchemasCompatible(actual, expected) && PayloadsCompatible(actual.typ, actual.payload, expected.payload)
  }

  method SessionEventProjectionMatches(actual: EventRecord, expected: EventRecord) returns (r: bool)
    ensures r == EventMatches(actual, expected)
  {
    var a := NormalizeEventSchema(actual);
    var e := NormalizeEventSchema(expected);
    if a.None? || e.None? || a.value.typ != e.value.typ || a.value.version != e.value.version {
      return false;
    }
    r := PayloadsMatch(a.value.typ, a.value.payload, e.value.payload);
  }

  /** A record matches itself exactly when its schema is supported; unknown and future schemas match nothing. */
  lemma MatchIsReflexiveOnSupported(r: EventRecord, other: EventRecord)
    ensures EventMatches(r, r) <==> Supported(r)
    ensures !Supported(r) ==> !EventMatches(r, other) && !EventMatches(other, r)
  {
  }

  /** Not transitive: two calls attributed to different requests both match the unattributed call. */
  lemma MatchIsNotTransitive() returns (a: EventRecord, b: EventRecord, c: EventRecord)
    ensures EventMatches(a, b) && EventMatches(b, c) && !EventMatches(a, c)
  {
    var base: Payload := map["toolUseId" := Str("t")];
    a := EventRecord("tool_call", Some(2), base["requestId" := Str("r1")], false);
    b := EventRecord("tool_call", Some(1), base, false);
    c := EventRecord("tool_call", Some(2), base["requestId" := Str("r2")], false);
    assert a.payload - ATTRIBUTION == base && b.payload - ATTRIBUTION == base && c.payload - ATTRIBUTION == base;
    assert !AttributionFieldCompatible("requestId", a.payload, c.payload);
    assert "requestId" in ATTRIBUTION;
  }

  /** For tool calls the relation is symmetric; for tool results only the expected side may add the reference. */
  lemma DirectionOfMatch(a: Payload, b: Payload)
    ensures PayloadsCompatible("tool_call", a, b) ==> PayloadsCompatible("tool_call", b, a)
    ensures a != b && PayloadsCompatible("tool_result", a, b) ==> !PayloadsCompatible("tool_result", b, a)
  {
  }

  // ---------------------------------------------------------------- live diagnostics

  function AllowedDiagnostics(key: string): set<string> {
    if key == "executionOutcome" then {"succeeded", "known-failure", "unknown-after-dispatch", "not-dispatched"}
    else if key == "executorEntry" then {"not-entered", "entered", "unknown"}
    else {}
  }

  /** An execution diagnostic that only the live projection has. */
  predicate IsLiveDiagnostic(key: string, actual: Payload, expected: Payload) {
    key in actual && key !in expected && actual[key].Str? && actual[key].s in AllowedDiagnostics(key)
  }

  function WithoutLiveDiagnostics(actual: Payload, expected: Payload): Payload {
    map k | k in actual && !IsLiveDiagnostic(k, actual, expected) :: actual[k]
  }

  /** `toolResultProjectionPayloadMatches`. */
  predicate ToolResultCompatible(actual: Payload, expected: Payload) {
    if "result" in actual && actual["result"].Obj? && "result" in expected && expected["result"].Obj? then
      PayloadsCompatible("tool_result",
        actual["result" := Obj(WithoutLiveDiagnostics(actual["result"].fields, expected["result"].fields))], expected)
    else actual == expected
  }

  method ToolResultProjectionPayloadMatches(actual: Payload, expected: Payload) returns (r: bool)
    ensures r == ToolResultCompatible(actual, expected)
  {
    if !("result" in actual && actual["result"].Obj? && "result" in expected && expected["result"].Obj?) {
      return actual == expected;
    }
    var live, base := actual["result"].fields, expected["result"].fields;
    var keys := ["executionOutcome", "executorEntry"];
    var next := live;
    var i := 0;
    while i < |keys|
      invariant 0 <= i <= |keys|
      invariant next == map k | k in live && !(k in keys[..i] && IsLiveDiagnostic(k, live, base)) :: live[k]
    {
      assert keys[..i + 1] == keys[..i] + [keys[i]];
      if keys[i] !in base && keys[i] in next && next[keys[i]].Str? && next[keys[i]].s in AllowedDiagnostics(keys[i]) {
        next := next - {keys[i]};
      }
      i := i + 1;
    }
    assert keys[..2] == keys;
    assert forall k :: IsLiveDiagnostic(k, live, base) ==> k == keys[0] || k == keys[1];
    assert next == WithoutLiveDiagnostics(live, base);
    r := PayloadsMatch("tool_result", actual["result" := Obj(next)], expected);
  }

  /** A live result that only adds permitted diagnostics to the canonical one is accepted, and nothing else may
      change. */
  lemma LiveDiagnosticsAccepted(expected: Payload, extra: Payload)
    requires "result" in expected && expected["result"].Obj?
    requires forall k | k in extra :: k !in expected["result"].fields && extra[k].Str?
                                      && extra[k].s in AllowedDiagnostics(k)
    ensures ToolResultCompatible(expected["result" := Obj(expected["result"].fields + extra)], expected)
  {
    var base := expected["result"].fields;
    assert WithoutLiveDiagnostics(base + extra, base) == base;
    assert expected["result" := Obj(base + extra)]["result" := Obj(base)] == expected;
  }

  /** Outside `result`, an accepted live result equals the canonical one. */
  lemma AcceptedResultsAgreeOutsideResult(actual: Payload, expected: Payload, key: string)
    requires ToolResultCompatible(actual, expected) && key != "result"
    ensures Field(actual, key) == Field(expected, key)
  {
  }
}
