/** Closing what an interrupted run left open (electron/sessionEvents.ts): the whole-ledger repair, and the repair of
    one turn that can be cut off and run again. */
module Reconcile {
  import opened Json

  datatype Type = TurnStart | TurnEnd | StepStart | StepEnd | ToolCall | ToolResult | OtherType

  datatype Event = Event(seqNo: nat, typ: Type, payload: Payload, supported: bool)

  datatype Step = Step(turnId: string, stepId: string)

  // ---------------------------------------------------------------- String(value)

  function Digits(n: nat): string {
    if n < 10 then [('0' as int + n) as char] else Digits(n / 10) + [('0' as int + n % 10) as char]
  }

  /** `Array.prototype.join` leaves null elements out. */
  function Joined(items: seq<Json>): string
    decreases items
  {
    if items == [] then ""
    else
      var head := if items[0].Null? then "" else JsonString(items[0]);
      if |items| == 1 then head else head + "," + Joined(items[1..])
  }

  function JsonString(v: Json): string
    decreases v
  {
    match v
    case Null => "null"
    case Bool(b) => if b then "true" else "false"
    case Num(n) => if n < 0 then "-" + Digits(-n) else Digits(n)
    case Str(s) => s
    case Arr(items) => Joined(items)
    case Obj(_) => "[object Object]"
  }

  /** `String(payload.key)` */
  function Text(p: Payload, key: string): string {
    if key in p then JsonString(p[key]) else "undefined"
  }

  // ---------------------------------------------------------------- sets in insertion order

  function Add<T(==)>(s: seq<T>, x: T): seq<T> {
    if x in s then s else s + [x]
  }

  function Remove<T(==)>(s: seq<T>, x: T): seq<T> {
    if s == [] then [] else (if s[0] == x then [] else [s[0]]) + Remove(s[1..], x)
  }

  predicate NoDuplicates<T(==)>(s: seq<T>) {
    forall i, j | 0 <= i < j < |s| :: s[i] != s[j]
  }

  lemma {:induction false} RemoveElements<T>(s: seq<T>, x: T)
    ensures forall y :: y in Remove(s, x) <==> y in s && y != x
    ensures NoDuplicates(s) ==> NoDuplicates(Remove(s, x))
    ensures x !in s ==> Remove(s, x) == s
  {
    if s != [] {
      RemoveElements(s[1..], x);
      assert s == [s[0]] + s[1..];
      if NoDuplicates(s) {
        assert forall i | 0 < i < |s| :: s[i] != s[0];
        assert s[0] !in s[1..];
        assert forall i, j | 0 <= i < j < |s[1..]| :: s[1..][i] == s[i + 1] && s[1..][j] == s[j + 1];
      }
    }
  }

  // ---------------------------------------------------------------- what is open

  datatype Scan = Scan(turns: seq<string>, steps: seq<Step>, tools: seq<string>, results: seq<string>)

  function StepOf(p: Payload): Step {
    Step(Text(p, "turnId"), Text(p, "stepId"))
  }

  function ScanEvent(s: Scan, e: Event): Scan {
    if !e.supported then s
    else match e.typ
      case TurnStart => s.(turns := Add(s.turns, Text(e.payload, "turnId")))
      case TurnEnd => s.(turns := Remove(s.turns, Text(e.payload, "turnId")))
      case StepStart => s.(steps := Add(s.steps, StepOf(e.payload)))
      case StepEnd => s.(steps := Remove(s.steps, StepOf(e.payload)))
      case ToolCall => s.(tools := Add(s.tools, Text(e.payload, "toolUseId")))
      case ToolResult => s.(results := Add(s.results, Text(e.payload, "toolUseId")))
      case OtherType => s
  }

  const NOTHING: Scan := Scan([], [], [], [])

  function ScanAll(events: seq<Event>): Scan {
    if events == [] then NOTHING else ScanEvent(ScanAll(events[..|events| - 1]), events[|events| - 1])
  }

  /** Started, and not ended since. */
  predicate TurnOpen(events: seq<Event>, turnId: string) {
    exists i | 0 <= i < |events| :: IsTurn(events[i], TurnStart, turnId) && forall j | i < j < |events| ::
                                    !IsTurn(events[j], TurnEnd, turnId)
  }

  predicate IsTurn(e: Event, typ: Type, turnId: string) {
    e.supported && e.typ == typ && Text(e.payload, "turnId") == turnId
  }

  predicate StepOpen(events: seq<Event>, step: Step) {
    exists i | 0 <= i < |events| :: IsStep(events[i], StepStart, step) && forall j | i < j < |events| ::
                                    !IsStep(events[j], StepEnd, step)
  }

  predicate IsStep(e: Event, typ: Type, step: Step) {
    e.supported && e.typ == typ && StepOf(e.payload) == step
  }

  predicate IsTool(e: Event, typ: Type, toolUseId: string) {
    e.supported && e.typ == typ && Text(e.payload, "toolUseId") == toolUseId
  }

  predicate ToolOpen(events: seq<Event>, toolUseId: string) {
    && (exists i | 0 <= i < |events| :: IsTool(events[i], ToolCall, toolUseId))
    && (forall i | 0 <= i < |events| :: !IsTool(events[i], ToolResult, toolUseId))
  }

  // ---------------------------------------------------------------- the whole ledger

  function StepEndPayload(step: Step): Payload {
    map["turnId" := Str(step.turnId), "stepId" := Str(step.stepId), "reason" := Str("interrupted")]
  }

  const INTERRUPTED: Json := Obj(map["success" := Bool(false), "error" := Str("工具调用因应用退出中断")])

  function ToolResultPayload(toolUseId: string): Payload {
    map["toolUseId" := Str(toolUseId), "synthetic" := Bool(true), "result" := INTERRUPTED]
  }

  function TurnEndPayload(turnId: string): Payload {
    map["turnId" := Str(turnId), "reason" := Str("interrupted")]
  }

  function StepEnds(steps: seq<Step>, at: nat): (out: seq<Event>)
    ensures |out| == |steps|
  {
    seq(|steps|, i requires 0 <= i < |steps| => Event(at + i, StepEnd, StepEndPayload(steps[i]), true))
  }

  function Unanswered(tools: seq<string>, results: seq<string>): seq<string> {
    if tools == [] then []
    else (if tools[0] in results then [] else [tools[0]]) + Unanswered(tools[1..], results)
  }

  function ToolResults(tools: seq<string>, at: nat): (out: seq<Event>)
    ensures |out| == |tools|
  {
    seq(|tools|, i requires 0 <= i < |tools| => Event(at + i, ToolResult, ToolResultPayload(tools[i]), true))
  }

  function TurnEnds(turns: seq<string>, at: nat): (out: seq<Event>)
    ensures |out| == |turns|
  {
    seq(|turns|, i requires 0 <= i < |turns| => Event(at + i, TurnEnd, TurnEndPayload(turns[i]), true))
  }

  /** Steps, then tools, then turns, numbered on from `start`. */
  function Repairs(scan: Scan, start: nat): seq<Event> {
    var tools := Unanswered(scan.tools, scan.results);
    StepEnds(scan.steps, start) + ToolResults(tools, start + |scan.steps|)
        + TurnEnds(scan.turns, start + |scan.steps| + |tools|)
  }

  function MaxSeq(events: seq<Event>): nat {
    if events == [] then 0
    else
      var rest := MaxSeq(events[..|events| - 1]);
      if rest < events[|events| - 1].seqNo then events[|events| - 1].seqNo else rest
  }

  method ScanEvents(events: seq<Event>) returns (scan: Scan, highest: nat)
    ensures scan == ScanAll(events) && highest == MaxSeq(events)
  {
    hide Text, StepOf, Add, Remove;
    var turns, steps, tools, results := [], [], [], [];
    highest := 0;
    for i := 0 to |events|
      invariant Scan(turns, steps, tools, results) == ScanAll(events[..i]) && highest == MaxSeq(events[..i])
    {
      assert events[..i + 1][..i] == events[..i];
      var e := events[i];
      highest := if highest < e.seqNo then e.seqNo else highest;
      if e.supported {
        match e.typ {
          case TurnStart => turns := Add(turns, Text(e.payload, "turnId"));
          case TurnEnd => turns := Remove(turns, Text(e.payload, "turnId"));
          case StepStart => steps := Add(steps, StepOf(e.payload));
          case StepEnd => steps := Remove(steps, StepOf(e.payload));
          case ToolCall => tools := Add(tools, Text(e.payload, "toolUseId"));
          case ToolResult => results := Add(results, Text(e.payload, "toolUseId"));
          case OtherType =>
        }
      }
    }
    assert events[..|events|] == events;
    scan := Scan(turns, steps, tools, results);
  }

  method EndSteps(steps: seq<Step>, at: nat) returns (out: seq<Event>)
    ensures out == StepEnds(steps, at)
  {
    hide StepEndPayload;
    out := [];
    for i := 0 to |steps|
      invariant out == StepEnds(steps[..i], at)
    {
      out := out + [Event(at + i, StepEnd, StepEndPayload(steps[i]), true)];
    }
    assert steps[..|steps|] == steps;
  }

  method AnswerTools(tools: seq<string>, results: seq<string>, at: nat) returns (out: seq<Event>)
    ensures out == ToolResults(Unanswered(tools, results), at)
  {
    hide ToolResultPayload;
    out := [];
    ghost var missing := [];
    for i := 0 to |tools|
      invariant Unanswered(tools, results) == missing + Unanswered(tools[i..], results)
      invariant out == ToolResults(missing, at)
    {
      assert tools[i..][1..] == tools[i + 1..];
      if tools[i] !in results {
        out := out + [Event(at + |out|, ToolResult, ToolResultPayload(tools[i]), true)];
        missing := missing + [tools[i]];
      }
    }
    assert missing == Unanswered(tools, results);
  }

  method EndTurns(turns: seq<string>, at: nat) returns (out: seq<Event>)
    ensures out == TurnEnds(turns, at)
  {
    hide TurnEndPayload;
    out := [];
    for i := 0 to |turns|
      invariant out == TurnEnds(turns[..i], at)
    {
      out := out + [Event(at + i, TurnEnd, TurnEndPayload(turns[i]), true)];
    }
    assert turns[..|turns|] == turns;
  }

  /** `reconcileSessionEvents` */
  method ReconcileSessionEvents(events: seq<Event>) returns (out: seq<Event>)
    ensures out == Repairs(ScanAll(events), MaxSeq(events) + 1)
  {
    hide ScanAll, MaxSeq, StepEnds, ToolResults, TurnEnds, Unanswered;
    var scan, highest := ScanEvents(events);
    var steps := EndSteps(scan.steps, highest + 1);
    var tools := AnswerTools(scan.tools, scan.results, highest + 1 + |steps|);
    var turns := EndTurns(scan.turns, highest + 1 + |steps| + |tools|);
    out := steps + tools + turns;
  }

  // ---------------------------------------------------------------- the scan is what it should be

  lemma {:induction false} ScannedTurns(events: seq<Event>)
    ensures NoDuplicates(ScanAll(events).turns) && forall t :: t in ScanAll(events).turns <==> TurnOpen(events, t)
  {
    hide TurnOpen, IsTurn, Text;
    NothingOpen();
    if events != [] {
      var before := events[..|events| - 1];
      var e := events[|events| - 1];
      ScannedTurns(before);
      RemoveElements(ScanAll(before).turns, Text(e.payload, "turnId"));
      forall t
        ensures t in ScanAll(events).turns <==> TurnOpen(events, t)
      {
        TurnOpenStep(before, e, t);
        IsTurnOf(e, t);
        assert before + [e] == events;
      }
    }
  }

  lemma IsTurnOf(e: Event, t: string)
    ensures IsTurn(e, TurnStart, t) <==> e.supported && e.typ == TurnStart && Text(e.payload, "turnId") == t
    ensures IsTurn(e, TurnEnd, t) <==> e.supported && e.typ == TurnEnd && Text(e.payload, "turnId") == t
  {
  }

  lemma {:induction false} ScannedSteps(events: seq<Event>)
    ensures NoDuplicates(ScanAll(events).steps) && forall p :: p in ScanAll(events).steps <==> StepOpen(events, p)
  {
    hide StepOpen, IsStep, StepOf;
    NothingOpen();
    if events != [] {
      var before := events[..|events| - 1];
      var e := events[|events| - 1];
      ScannedSteps(before);
      RemoveElements(ScanAll(before).steps, StepOf(e.payload));
      forall p
        ensures p in ScanAll(events).steps <==> StepOpen(events, p)
      {
        StepOpenStep(before, e, p);
        IsStepOf(e, p);
        assert before + [e] == events;
      }
    }
  }

  lemma IsStepOf(e: Event, p: Step)
    ensures IsStep(e, StepStart, p) <==> e.supported && e.typ == StepStart && StepOf(e.payload) == p
    ensures IsStep(e, StepEnd, p) <==> e.supported && e.typ == StepEnd && StepOf(e.payload) == p
  {
  }

  predicate ToolSeen(events: seq<Event>, typ: Type, u: string) {
    exists i | 0 <= i < |events| :: IsTool(events[i], typ, u)
  }

  lemma {:induction false} ScannedTools(events: seq<Event>)
    ensures NoDuplicates(ScanAll(events).tools)
    ensures forall u :: u in ScanAll(events).tools <==> ToolSeen(events, ToolCall, u)
    ensures forall u :: u in ScanAll(events).results <==> ToolSeen(events, ToolResult, u)
  {
    hide ToolSeen, Text;
    NothingOpen();
    if events != [] {
      var before := events[..|events| - 1];
      var e := events[|events| - 1];
      ScannedTools(before);
      assert before + [e] == events;
      forall u
        ensures u in ScanAll(events).tools <==> ToolSeen(events, ToolCall, u)
        ensures u in ScanAll(events).results <==> ToolSeen(events, ToolResult, u)
      {
        ToolSeenStep(before, e, u, ToolCall);
        ToolSeenStep(before, e, u, ToolResult);
      }
    }
  }

  lemma NothingOpen()
    ensures (forall t :: !TurnOpen([], t)) && (forall p :: !StepOpen([], p)) && forall u, typ :: !ToolSeen([], typ, u)
  {
  }

  /** The scan computes what is open. */
  lemma ScanIsOpen(events: seq<Event>)
    ensures var s := ScanAll(events);
            && (forall t :: t in s.turns <==> TurnOpen(events, t))
            && (forall p :: p in s.steps <==> StepOpen(events, p))
            && (forall u :: u in Unanswered(s.tools, s.results) <==> ToolOpen(events, u))
            && NoDuplicates(s.turns) && NoDuplicates(s.steps) && NoDuplicates(Unanswered(s.tools, s.results))
  {
    hide TurnOpen, StepOpen, ScanAll;
    ScannedTurns(events);
    ScannedSteps(events);
    ScannedTools(events);
    UnansweredElements(ScanAll(events).tools, ScanAll(events).results);
    forall u
      ensures u in Unanswered(ScanAll(events).tools, ScanAll(events).results) <==> ToolOpen(events, u)
    {
      assert ToolOpen(events, u) <==> ToolSeen(events, ToolCall, u) && !ToolSeen(events, ToolResult, u);
    }
  }

  lemma TurnOpenStep(before: seq<Event>, e: Event, t: string)
    ensures TurnOpen(before + [e], t) <==> IsTurn(e, TurnStart, t) || (TurnOpen(before, t) && !IsTurn(e, TurnEnd, t))
  {
    var events := before + [e];
    assert forall i | 0 <= i < |before| :: events[i] == before[i];
    assert events[|before|] == e;
    if TurnOpen(before, t) && !IsTurn(e, TurnEnd, t) {
      var i :| 0 <= i < |before| && IsTurn(before[i], TurnStart, t) && forall j | i < j < |before| ::
          !IsTurn(before[j], TurnEnd, t);
      assert IsTurn(events[i], TurnStart, t) && forall j | i < j < |events| :: !IsTurn(events[j], TurnEnd, t);
    }
    if IsTurn(e, TurnStart, t) {
      assert IsTurn(events[|before|], TurnStart, t);
    }
  }

  lemma StepOpenStep(before: seq<Event>, e: Event, p: Step)
    ensures StepOpen(before + [e], p) <==> IsStep(e, StepStart, p) || (StepOpen(before, p) && !IsStep(e, StepEnd, p))
  {
    var events := before + [e];
    assert forall i | 0 <= i < |before| :: events[i] == before[i];
    assert events[|before|] == e;
    if StepOpen(before, p) && !IsStep(e, StepEnd, p) {
      var i :| 0 <= i < |before| && IsStep(before[i], StepStart, p) && forall j | i < j < |before| ::
          !IsStep(before[j], StepEnd, p);
      assert IsStep(events[i], StepStart, p) && forall j | i < j < |events| :: !IsStep(events[j], StepEnd, p);
    }
    if IsStep(e, StepStart, p) {
      assert IsStep(events[|before|], StepStart, p);
    }
  }

  lemma ToolSeenStep(before: seq<Event>, e: Event, u: string, typ: Type)
    ensures ToolSeen(before + [e], typ, u) <==> ToolSeen(before, typ, u) || IsTool(e, typ, u)
  {
    var events := before + [e];
    assert forall i | 0 <= i < |before| :: events[i] == before[i];
    assert events[|before|] == e;
  }

  lemma {:induction false} UnansweredElements(tools: seq<string>, results: seq<string>)
    ensures forall u :: u in Unanswered(tools, results) <==> u in tools && u !in results
    ensures NoDuplicates(tools) ==> NoDuplicates(Unanswered(tools, results))
  {
    if tools != [] {
      UnansweredElements(tools[1..], results);
      assert tools == [tools[0]] + tools[1..];
      if NoDuplicates(tools) {
        assert forall i | 0 < i < |tools| :: tools[i] != tools[0];
        assert tools[0] !in tools[1..];
        assert forall i, j | 0 <= i < j < |tools[1..]| ::
            tools[1..][i] == tools[i + 1] && tools[1..][j] == tools[j + 1];
      }
    }
  }

  // ---------------------------------------------------------------- closing everything

  lemma ScanAppend(events: seq<Event>, e: Event)
    ensures ScanAll(events + [e]) == ScanEvent(ScanAll(events), e)
  {
  }

  function ScanFrom(s: Scan, events: seq<Event>): Scan
    decreases |events|
  {
    if events == [] then s else ScanFrom(ScanEvent(s, events[0]), events[1..])
  }

  lemma {:induction false} ScanConcat(events: seq<Event>, more: seq<Event>)
    ensures ScanAll(events + more) == ScanFrom(ScanAll(events), more)
    decreases |more|
  {
    if more == [] {
      assert events + more == events;
    } else {
      ScanAppend(events, more[0]);
      assert events + more == (events + [more[0]]) + more[1..];
      ScanConcat(events + [more[0]], more[1..]);
    }
  }

  lemma {:induction false} ScanFromConcat(s: Scan, a: seq<Event>, b: seq<Event>)
    ensures ScanFrom(s, a + b) == ScanFrom(ScanFrom(s, a), b)
    decreases |a|
  {
    if a == [] {
      assert a + b == b;
    } else {
      assert (a + b)[1..] == a[1..] + b;
      ScanFromConcat(ScanEvent(s, a[0]), a[1..], b);
    }
  }

  lemma RemoveHead<T>(s: seq<T>)
    requires s != [] && NoDuplicates(s)
    ensures Remove(s, s[0]) == s[1..] && NoDuplicates(s[1..])
  {
    assert forall i | 0 < i < |s| :: s[i] != s[0];
    assert s[0] !in s[1..];
    RemoveElements(s[1..], s[0]);
    assert forall i, j | 0 <= i < j < |s[1..]| :: s[1..][i] == s[i + 1] && s[1..][j] == s[j + 1];
  }

  lemma {:induction false} StepsClose(s: Scan, at: nat)
    requires NoDuplicates(s.steps)
    ensures ScanFrom(s, StepEnds(s.steps, at)) == s.(steps := [])
    decreases |s.steps|
  {
    if s.steps != [] {
      var out := StepEnds(s.steps, at);
      RemoveHead(s.steps);
      var s' := s.(steps := s.steps[1..]);
      assert StepOf(out[0].payload) == s.steps[0];
      assert ScanEvent(s, out[0]) == s';
      assert out[1..] == StepEnds(s'.steps, at + 1);
      StepsClose(s', at + 1);
    }
  }

  lemma {:induction false} TurnsClose(s: Scan, at: nat)
    requires NoDuplicates(s.turns)
    ensures ScanFrom(s, TurnEnds(s.turns, at)) == s.(turns := [])
    decreases |s.turns|
  {
    if s.turns != [] {
      var out := TurnEnds(s.turns, at);
      RemoveHead(s.turns);
      var s' := s.(turns := s.turns[1..]);
      assert ScanEvent(s, out[0]) == s';
      assert out[1..] == TurnEnds(s'.turns, at + 1);
      TurnsClose(s', at + 1);
    }
  }

  lemma {:induction false} ToolsAnswered(s: Scan, tools: seq<string>, at: nat)
    ensures var s' := ScanFrom(s, ToolResults(tools, at));
            && s' == s.(results := s'.results)
            && (forall u :: u in s'.results <==> u in s.results || u in tools)
    decreases |tools|
  {
    if tools != [] {
      var out := ToolResults(tools, at);
      assert Text(out[0].payload, "toolUseId") == tools[0];
      assert out[1..] == ToolResults(tools[1..], at + 1);
      ToolsAnswered(ScanEvent(s, out[0]), tools[1..], at + 1);
      assert tools == [tools[0]] + tools[1..];
    }
  }

  lemma {:induction false} AllAnswered(tools: seq<string>, results: seq<string>)
    requires forall u | u in tools :: u in results
    ensures Unanswered(tools, results) == []
  {
    if tools != [] {
      AllAnswered(tools[1..], results);
    }
  }

  lemma RepairsScanned(events: seq<Event>, start: nat)
    ensures var s := ScanAll(events);
            var s' := ScanAll(events + Repairs(s, start));
            && s'.steps == [] && s'.turns == [] && s'.tools == s.tools
            && forall u | u in s.tools :: u in s'.results
  {
    hide ScanAll, TurnOpen, StepOpen, ToolOpen, StepEnds, ToolResults, TurnEnds, ScanFrom, Unanswered;
    var s := ScanAll(events);
    ScanIsOpen(events);
    var tools := Unanswered(s.tools, s.results);
    var steps := StepEnds(s.steps, start);
    var results := ToolResults(tools, start + |s.steps|);
    var turns := TurnEnds(s.turns, start + |s.steps| + |tools|);
    ScanConcat(events, steps + results + turns);
    ScanFromConcat(s, steps + results, turns);
    ScanFromConcat(s, steps, results);
    StepsClose(s, start);
    ToolsAnswered(s.(steps := []), tools, start + |s.steps|);
    var answered := ScanFrom(s.(steps := []), results);
    TurnsClose(answered, start + |s.steps| + |tools|);
    UnansweredElements(s.tools, s.results);
  }

  /** Reconciling is a fixpoint: with its repairs appended nothing is open any more, and a second pass repairs
      nothing. */
  lemma RepairsCloseEverything(events: seq<Event>, start: nat)
    ensures var after := events + Repairs(ScanAll(events), start);
            && Repairs(ScanAll(after), MaxSeq(after) + 1) == []
            && (forall t :: !TurnOpen(after, t)) && (forall p :: !StepOpen(after, p))
                && (forall u :: !ToolOpen(after, u))
  {
    hide ScanAll, TurnOpen, StepOpen, ToolOpen, MaxSeq, Unanswered;
    RepairsScanned(events, start);
    var after := events + Repairs(ScanAll(events), start);
    AllAnswered(ScanAll(after).tools, ScanAll(after).results);
    ScanIsOpen(after);
  }

  /** The repairs are one step end for each open step, then one result for each unanswered call, then one turn end for
      each open turn, each exactly once, and numbered without a gap from `start`. */
  lemma RepairsAreExact(events: seq<Event>, start: nat)
    ensures var out := Repairs(ScanAll(events), start);
            && (forall i | 0 <= i < |out| :: out[i].seqNo == start + i && out[i].supported)
            && (forall i, j | 0 <= i < j < |out| ::
                Phase(out[i].typ) <= Phase(out[j].typ) && !SameClosure(out[i], out[j]))
            && (forall i | 0 <= i < |out| :: Closes(events, out[i]))
            && (forall p | StepOpen(events, p) :: exists i | 0 <= i < |out| :: IsStep(out[i], StepEnd, p))
            && (forall u | ToolOpen(events, u) :: exists i | 0 <= i < |out| :: IsTool(out[i], ToolResult, u))
            && (forall t | TurnOpen(events, t) :: exists i | 0 <= i < |out| :: IsTurn(out[i], TurnEnd, t))
  {
    hide ScanAll, TurnOpen, StepOpen, ToolOpen, Unanswered;
    ScanIsOpen(events);
    var s := ScanAll(events);
    var tools := Unanswered(s.tools, s.results);
    RepairsByIndex(s, start);
    var out := Repairs(s, start);
    forall p | StepOpen(events, p)
      ensures exists i | 0 <= i < |out| :: IsStep(out[i], StepEnd, p)
    {
      var i :| 0 <= i < |s.steps| && s.steps[i] == p;
      assert IsStep(out[i], StepEnd, p);
    }
    forall u | ToolOpen(events, u)
      ensures exists i | 0 <= i < |out| :: IsTool(out[i], ToolResult, u)
    {
      var i :| 0 <= i < |tools| && tools[i] == u;
      assert IsTool(out[|s.steps| + i], ToolResult, u);
    }
    forall t | TurnOpen(events, t)
      ensures exists i | 0 <= i < |out| :: IsTurn(out[i], TurnEnd, t)
    {
      var i :| 0 <= i < |s.turns| && s.turns[i] == t;
      assert IsTurn(out[|s.steps| + |tools| + i], TurnEnd, t);
    }
  }

  function Phase(typ: Type): nat {
    if typ == StepEnd then 0 else if typ == ToolResult then 1 else 2
  }

  lemma {:induction false} MaxSeqIsMaximum(events: seq<Event>)
    ensures forall i | 0 <= i < |events| :: events[i].seqNo <= MaxSeq(events)
    ensures events != [] ==> exists i | 0 <= i < |events| :: events[i].seqNo == MaxSeq(events)
  {
    if events != [] {
      var shorter, last := events[..|events| - 1], |events| - 1;
      MaxSeqIsMaximum(shorter);
      if MaxSeq(shorter) < events[last].seqNo || shorter == [] {
        assert events[last].seqNo <= MaxSeq(events);
        if shorter == [] && events[last].seqNo == 0 {
          assert events[last].seqNo == MaxSeq(events);
        }
      } else {
        var i :| 0 <= i < |shorter| && shorter[i].seqNo == MaxSeq(shorter);
        assert events[i].seqNo == MaxSeq(events);
      }
    }
  }

  /** The repairs continue the numbering of the ledger: they are the next numbers above everything in it. */
  lemma RepairsContinueTheNumbering(events: seq<Event>)
    ensures var out := Repairs(ScanAll(events), MaxSeq(events) + 1);
            && (forall i, j | 0 <= i < |events| && 0 <= j < |out| :: events[i].seqNo < out[j].seqNo)
            && (forall j | 0 <= j < |out| :: out[j].seqNo == MaxSeq(events) + 1 + j)
  {
    MaxSeqIsMaximum(events);
    RepairsByIndex(ScanAll(events), MaxSeq(events) + 1);
  }

  /** Two events that close the same thing. */
  predicate SameClosure(a: Event, b: Event) {
    && a.typ == b.typ
    && (a.typ == StepEnd ==> StepOf(a.payload) == StepOf(b.payload))
    && (a.typ == ToolResult ==> Text(a.payload, "toolUseId") == Text(b.payload, "toolUseId"))
    && (a.typ == TurnEnd ==> Text(a.payload, "turnId") == Text(b.payload, "turnId"))
  }

  /** The event closes something that is open. */
  predicate Closes(events: seq<Event>, e: Event) {
    match e.typ
    case StepEnd => StepOpen(events, StepOf(e.payload))
    case ToolResult => ToolOpen(events, Text(e.payload, "toolUseId"))
    case TurnEnd => TurnOpen(events, Text(e.payload, "turnId"))
    case _ => false
  }

  lemma RepairsByIndex(s: Scan, start: nat)
    ensures var out := Repairs(s, start);
            var tools := Unanswered(s.tools, s.results);
            var n, m := |s.steps|, |s.steps| + |tools|;
            && |out| == m + |s.turns|
            && (forall i | 0 <= i < |out| :: out[i].seqNo == start + i && out[i].supported)
            && (forall i | 0 <= i < n :: out[i].typ == StepEnd && StepOf(out[i].payload) == s.steps[i])
            && (forall i | n <= i < m :: out[i].typ == ToolResult && Text(out[i].payload, "toolUseId") == tools[i - n])
            && (forall i | m <= i < |out| :: out[i].typ == TurnEnd && Text(out[i].payload, "turnId") == s.turns[i - m])
  {
    hide Unanswered;
  }
}
