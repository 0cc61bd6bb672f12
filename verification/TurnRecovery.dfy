/** Closing one interrupted turn under recovery identifiers, so that a repair that was cut off can be run again
    (electron/sessionEvents.ts). */
module TurnRecovery {
  import opened Json
  import opened Reconcile

  /** What a recovery identifier is the digest of, beside the location and the canonical terminal event. */
  datatype RecoveryKey = RecoveryKey(kind: string, identity: seq<string>)

  /** `tools` are the authorised tool uses in sorted order; `digest` is SHA-256 over the key, the location and the
      terminal event. */
  datatype Request = Request(turnId: string, terminal: string, tools: seq<string>, digest: RecoveryKey -> string)

  datatype Repair = Repair(typ: Type, payload: Payload)

  datatype Plan = Repairs(repairs: seq<Repair>) | Conflict

  ghost predicate Injective(digest: RecoveryKey -> string) {
    forall a, b :: digest(a) == digest(b) ==> a == b
  }

  function StepKey(step: Step): RecoveryKey {
    RecoveryKey("step_end", [step.turnId, step.stepId])
  }

  function ToolKey(toolUseId: string): RecoveryKey {
    RecoveryKey("tool_result", [toolUseId])
  }

  function TurnKey(turnId: string): RecoveryKey {
    RecoveryKey("turn_end", [turnId])
  }

  predicate HasRecoveryId(e: Event, id: string) {
    Field(e.payload, "recoveryId") == Some(Str(id))
  }

  /** The first event with the identifier. */
  function FindRecovery(events: seq<Event>, id: string): Option<Event> {
    if events == [] then None
    else
      var earlier := FindRecovery(events[..|events| - 1], id);
      if earlier.Some? then earlier else if HasRecoveryId(events[|events| - 1], id) then Some(events[|events| - 1])
                                         else None
  }

  /** The payload of the last supported event of a tool use. */
  function LastOf(events: seq<Event>, typ: Type, toolUseId: string): Option<Payload> {
    if events == [] then None
    else if IsTool(events[|events| - 1], typ, toolUseId) then Some(events[|events| - 1].payload)
    else LastOf(events[..|events| - 1], typ, toolUseId)
  }

  function StepExpected(req: Request, step: Step): Payload {
    map["turnId" := Str(step.turnId), "stepId" := Str(step.stepId), "reason" := Str("interrupted"),
        "recoveryId" := Str(req.digest(StepKey(step))), "canonicalTerminalEventId" := Str(req.terminal)]
  }

  /** `value ?? fallback` as a string. */
  function TextOr(p: Payload, key: string, fallback: string): string {
    if key in p && !p[key].Null? then JsonString(p[key]) else fallback
  }

  function ToolExpected(req: Request, toolUseId: string, call: Payload): Payload {
    map["toolUseId" := Str(toolUseId), "turnId" := Str(TextOr(call, "turnId", req.turnId)),
        "stepId" := Str(TextOr(call, "stepId", "")),
        "synthetic" := Bool(true), "interrupted" := Bool(true), "recoveryId" := Str(req.digest(ToolKey(toolUseId))),
        "canonicalTerminalEventId" := Str(req.terminal), "result" := INTERRUPTED]
  }

  function TurnExpected(req: Request): Payload {
    map["turnId" := Str(req.turnId), "reason" := Str("interrupted"),
        "recoveryId" := Str(req.digest(TurnKey(req.turnId))),
        "canonicalTerminalEventId" := Str(req.terminal)]
  }

  // ---------------------------------------------------------------- the plan

  /** One repair, unless the event is already there; an event with its identifier but another content is a conflict. */
  function Needed(events: seq<Event>, id: string, repair: Repair): Plan {
    var existing := FindRecovery(events, id);
    if existing.None? then Repairs([repair])
    else if existing.value.typ == repair.typ && existing.value.payload == repair.payload then Repairs([])
    else Conflict
  }

  function Then(first: Plan, second: Plan): Plan {
    if first.Conflict? || second.Conflict? then Conflict else Repairs(first.repairs + second.repairs)
  }

  function StepPlan(events: seq<Event>, req: Request, step: Step): Plan {
    if step.turnId != req.turnId then Repairs([])
    else Needed(events, req.digest(StepKey(step)), Repair(StepEnd, StepExpected(req, step)))
  }

  function StepsPlan(events: seq<Event>, req: Request, steps: seq<Step>): Plan {
    if steps == [] then Repairs([]) else Then(StepPlan(events, req, steps[0]), StepsPlan(events, req, steps[1..]))
  }

  function ToolPlan(events: seq<Event>, req: Request, toolUseId: string): Plan {
    var id := req.digest(ToolKey(toolUseId));
    var result := LastOf(events, ToolResult, toolUseId);
    var call := LastOf(events, ToolCall, toolUseId);
    if result.Some? then
      var prior := StringField(result.value, "recoveryId");
      if Field(result.value, "synthetic") == Some(Bool(true)) && prior.Some? && prior.value != id then Conflict
          else Repairs([])
    else if call.None? then Repairs([])
    else Needed(events, id, Repair(ToolResult, ToolExpected(req, toolUseId, call.value)))
  }

  function ToolsPlan(events: seq<Event>, req: Request, tools: seq<string>): Plan {
    if tools == [] then Repairs([]) else Then(ToolPlan(events, req, tools[0]), ToolsPlan(events, req, tools[1..]))
  }

  function TurnPlan(events: seq<Event>, req: Request): Plan {
    if req.turnId !in ScanAll(events).turns then Repairs([])
    else Needed(events, req.digest(TurnKey(req.turnId)), Repair(TurnEnd, TurnExpected(req)))
  }

  function PlanOf(events: seq<Event>, req: Request): Plan {
    Then(StepsPlan(events, req, ScanAll(events).steps), Then(ToolsPlan(events, req, req.tools), TurnPlan(events, req)))
  }

  function EventOf(repair: Repair, seqNo: nat): Event {
    Event(seqNo, repair.typ, repair.payload, true)
  }

  /** The repairs appended one after the other. */
  function Appended(events: seq<Event>, repairs: seq<Repair>): seq<Event>
    decreases |repairs|
  {
    if repairs == [] then events else Appended(events + [EventOf(repairs[0], MaxSeq(events) + 1)], repairs[1..])
  }

  function Min(a: nat, b: nat): nat {
    if a < b then a else b
  }

  /** `reconcileInterruptedSessionEventLedger`, dying after `budget` appends; a conflict appends nothing. */
  function Recovered(events: seq<Event>, req: Request, budget: nat): seq<Event> {
    var plan := PlanOf(events, req);
    if plan.Conflict? then events else Appended(events, plan.repairs[..Min(budget, |plan.repairs|)])
  }

  class Ledger {
    var events: seq<Event>

    method Recover(req: Request, budget: nat) returns (planned: Option<nat>)
      modifies this
      ensures events == Recovered(old(events), req, budget)
      ensures planned == if PlanOf(old(events), req).Conflict? then None else Some(|PlanOf(old(events), req).repairs|)
    {
      hide ScanAll, Needed, ToolPlan, TurnPlan, StepPlan, MaxSeq;
      var scan := ScanAll(events);
      ghost var stepsPlan, toolsPlan := StepsPlan(events, req, scan.steps), ToolsPlan(events, req, req.tools);
      var repairs: seq<Repair> := [];
      var i := 0;
      while i < |scan.steps|
        invariant 0 <= i <= |scan.steps| && stepsPlan == Then(Repairs(repairs), StepsPlan(events, req, scan.steps[i..]))
        invariant events == old(events)
      {
        var plan := StepPlan(events, req, scan.steps[i]);
        assert scan.steps[i..][1..] == scan.steps[i + 1..];
        if plan.Conflict? {
          return None;
        }
        ThenAssociates(Repairs(repairs), plan, StepsPlan(events, req, scan.steps[i + 1..]));
        repairs := repairs + plan.repairs;
        i := i + 1;
      }
      ghost var closing := repairs;
      assert scan.steps[i..] == [] && closing + [] == closing;
      assert stepsPlan == Repairs(closing);
      i := 0;
      while i < |req.tools|
        invariant 0 <= i <= |req.tools| && Then(Repairs(closing), toolsPlan)
            == Then(Repairs(repairs), ToolsPlan(events, req, req.tools[i..]))
        invariant events == old(events)
      {
        var plan := ToolPlan(events, req, req.tools[i]);
        assert req.tools[i..][1..] == req.tools[i + 1..];
        if plan.Conflict? {
          return None;
        }
        ThenAssociates(Repairs(repairs), plan, ToolsPlan(events, req, req.tools[i + 1..]));
        repairs := repairs + plan.repairs;
        i := i + 1;
      }
      assert req.tools[i..] == [] && repairs + [] == repairs;
      assert Then(stepsPlan, toolsPlan) == Repairs(repairs);
      ThenAssociates(stepsPlan, toolsPlan, TurnPlan(events, req));
      var last := TurnPlan(events, req);
      if last.Conflict? {
        return None;
      }
      repairs := repairs + last.repairs;
      AppendUpTo(repairs, budget);
      return Some(|repairs|);
    }

    method AppendUpTo(repairs: seq<Repair>, budget: nat)
      modifies this
      ensures events == Appended(old(events), repairs[..Min(budget, |repairs|)])
    {
      var n := Min(budget, |repairs|);
      var i := 0;
      while i < n
        invariant 0 <= i <= n && Appended(events, repairs[i..n]) == Appended(old(events), repairs[..n])
      {
        assert repairs[i..n][1..] == repairs[i + 1..n];
        events := events + [EventOf(repairs[i], MaxSeq(events) + 1)];
        i := i + 1;
      }
    }
  }

  lemma ThenAssociates(a: Plan, b: Plan, c: Plan)
    ensures Then(Then(a, b), c) == Then(a, Then(b, c))
  {
  }

  // ---------------------------------------------------------------- one repair

  lemma LastAppend(events: seq<Event>, e: Event, typ: Type, toolUseId: string)
    ensures LastOf(events + [e], typ, toolUseId) == if IsTool(e, typ, toolUseId) then Some(e.payload)
        else LastOf(events, typ, toolUseId)
  {
  }

  /** The event belongs to a repair under `key`. */
  predicate Under(e: Event, req: Request, key: RecoveryKey) {
    HasRecoveryId(e, req.digest(key))
  }

  lemma NeededSame(events: seq<Event>, e: Event, req: Request, key: RecoveryKey, other: RecoveryKey, repair: Repair)
    requires Injective(req.digest) && Under(e, req, key) && key != other
    ensures Needed(events + [e], req.digest(other), repair) == Needed(events, req.digest(other), repair)
  {
  }

  /** A repair event does not change what is planned for steps other than its own. */
  lemma {:induction false} StepsSame(events: seq<Event>, e: Event, req: Request, key: RecoveryKey, steps: seq<Step>)
    requires Injective(req.digest) && Under(e, req, key) && forall i | 0 <= i < |steps| :: StepKey(steps[i]) != key
    ensures StepsPlan(events + [e], req, steps) == StepsPlan(events, req, steps)
  {
    hide Needed, Injective, Under;
    if steps != [] {
      NeededSame(events, e, req, key, StepKey(steps[0]), Repair(StepEnd, StepExpected(req, steps[0])));
      StepsSame(events, e, req, key, steps[1..]);
    }
  }

  lemma {:induction false} ToolsSame(events: seq<Event>, e: Event, req: Request, key: RecoveryKey, tools: seq<string>)
    requires Injective(req.digest) && Under(e, req, key) && forall i | 0 <= i < |tools| :: ToolKey(tools[i]) != key
    requires forall i | 0 <= i < |tools| :: !IsTool(e, ToolCall, tools[i]) && !IsTool(e, ToolResult, tools[i])
    ensures ToolsPlan(events + [e], req, tools) == ToolsPlan(events, req, tools)
  {
    hide Needed, Injective, Under;
    if tools != [] {
      var call := LastOf(events, ToolCall, tools[0]);
      LastAppend(events, e, ToolCall, tools[0]);
      LastAppend(events, e, ToolResult, tools[0]);
      if call.Some? {
        NeededSame(events, e, req, key, ToolKey(tools[0]), Repair(ToolResult, ToolExpected(req, tools[0], call.value)));
      }
      ToolsSame(events, e, req, key, tools[1..]);
    }
  }

  lemma TurnSame(events: seq<Event>, e: Event, req: Request, key: RecoveryKey)
    requires Injective(req.digest) && Under(e, req, key) && key != TurnKey(req.turnId)
    requires e.typ != TurnStart && e.typ != TurnEnd
    ensures TurnPlan(events + [e], req) == TurnPlan(events, req)
  {
  }

  lemma UnderOwnKey(e: Event, req: Request, step: Step)
    requires e.payload == StepExpected(req, step)
    ensures Under(e, req, StepKey(step)) && StepOf(e.payload) == step
  {
  }

  lemma StepKeysDiffer(a: Step, b: Step)
    requires a != b
    ensures StepKey(a) != StepKey(b)
  {
    assert StepKey(a).identity[0] == a.turnId && StepKey(a).identity[1] == a.stepId;
    assert StepKey(b).identity[0] == b.turnId && StepKey(b).identity[1] == b.stepId;
  }

  /** The repair planned for one open step. */
  lemma StepRepair(events: seq<Event>, e: Event, req: Request, step: Step)
    requires StepPlan(events, req, step).Repairs? && StepPlan(events, req, step).repairs != []
    requires e == EventOf(StepPlan(events, req, step).repairs[0], e.seqNo)
    ensures |StepPlan(events, req, step).repairs| == 1 && e.typ == StepEnd && StepOf(e.payload) == step
        && step.turnId == req.turnId
    ensures Under(e, req, StepKey(step)) && FindRecovery(events, req.digest(StepKey(step))).None?
  {
    UnderOwnKey(e, req, step);
  }

  /** The first planned step repair, once appended, is the one that is no longer planned. */
  lemma {:induction false} StepsAdvance(events: seq<Event>, e: Event, req: Request, steps: seq<Step>)
    requires Injective(req.digest) && NoDuplicates(steps)
    requires var plan := StepsPlan(events, req, steps);
        plan.Repairs? && plan.repairs != [] && e == EventOf(plan.repairs[0], e.seqNo)
    ensures e.typ == StepEnd && StepOf(e.payload) in steps && StepOf(e.payload).turnId == req.turnId
    ensures Under(e, req, StepKey(StepOf(e.payload)))
        && FindRecovery(events, req.digest(StepKey(StepOf(e.payload)))).None?
    ensures StepsPlan(events + [e], req, Remove(steps, StepOf(e.payload)))
        == Repairs(StepsPlan(events, req, steps).repairs[1..])
  {
    hide Injective, Under, StepPlan, FindRecovery, StepOf, EventOf, StepKey, Remove;
    var step, rest := steps[0], steps[1..];
    RemoveHead(steps);
    assert forall i | 0 <= i < |rest| :: rest[i] == steps[i + 1] != step;
    if StepPlan(events, req, step).repairs != [] {
      StepRepair(events, e, req, step);
      forall i | 0 <= i < |rest| ensures StepKey(rest[i]) != StepKey(step) {
        StepKeysDiffer(rest[i], step);
      }
      StepsSame(events, e, req, StepKey(step), rest);
      assert (StepPlan(events, req, step).repairs + StepsPlan(events, req, rest).repairs)[1..]
          == StepsPlan(events, req, rest).repairs;
    } else {
      StepsAdvance(events, e, req, rest);
      StepKeysDiffer(step, StepOf(e.payload));
      StepPlanSame(events, e, req, StepKey(StepOf(e.payload)), step);
      RemoveBehind(steps, StepOf(e.payload));
      assert StepPlan(events, req, step).repairs + StepsPlan(events, req, rest).repairs
          == StepsPlan(events, req, rest).repairs;
      assert [] + StepsPlan(events, req, rest).repairs[1..] == StepsPlan(events, req, rest).repairs[1..];
    }
  }

  lemma StepPlanSame(events: seq<Event>, e: Event, req: Request, key: RecoveryKey, step: Step)
    requires Injective(req.digest) && Under(e, req, key) && StepKey(step) != key
    ensures StepPlan(events + [e], req, step) == StepPlan(events, req, step)
  {
    hide Injective, Under, Needed;
    NeededSame(events, e, req, key, StepKey(step), Repair(StepEnd, StepExpected(req, step)));
  }

  lemma RemoveBehind(steps: seq<Step>, p: Step)
    requires steps != [] && steps[0] != p
    ensures Remove(steps, p) == [steps[0]] + Remove(steps[1..], p)
  {
  }

  lemma UnderToolKey(e: Event, req: Request, toolUseId: string, call: Payload)
    requires e.payload == ToolExpected(req, toolUseId, call)
    ensures Under(e, req, ToolKey(toolUseId)) && Text(e.payload, "toolUseId") == toolUseId
    ensures Field(e.payload, "synthetic") == Some(Bool(true))
        && StringField(e.payload, "recoveryId") == Some(req.digest(ToolKey(toolUseId)))
  {
  }

  /** The result planned for one tool use, and that it is not planned again. */
  lemma ToolRepair(events: seq<Event>, e: Event, req: Request, tool: string)
    requires ToolPlan(events, req, tool).Repairs? && ToolPlan(events, req, tool).repairs != []
    requires e == EventOf(ToolPlan(events, req, tool).repairs[0], e.seqNo)
    ensures |ToolPlan(events, req, tool).repairs| == 1 && e.typ == ToolResult && Text(e.payload, "toolUseId") == tool
    ensures Under(e, req, ToolKey(tool)) && ToolPlan(events + [e], req, tool) == Repairs([])
  {
    hide FindRecovery, ToolExpected, LastOf, Text, TextOr;
    LastAppend(events, e, ToolResult, tool);
    UnderToolKey(e, req, tool, LastOf(events, ToolCall, tool).value);
  }

  lemma ToolPlanSame(events: seq<Event>, e: Event, req: Request, key: RecoveryKey, tool: string)
    requires Injective(req.digest) && Under(e, req, key) && ToolKey(tool) != key
    requires !IsTool(e, ToolCall, tool) && !IsTool(e, ToolResult, tool)
    ensures ToolPlan(events + [e], req, tool) == ToolPlan(events, req, tool)
  {
    hide Injective, Under, Needed, LastOf, ToolExpected, IsTool;
    LastAppend(events, e, ToolCall, tool);
    LastAppend(events, e, ToolResult, tool);
    var call := LastOf(events, ToolCall, tool);
    if call.Some? {
      NeededSame(events, e, req, key, ToolKey(tool), Repair(ToolResult, ToolExpected(req, tool, call.value)));
    }
  }

  lemma ToolKeysDiffer(a: string, b: string)
    requires a != b
    ensures ToolKey(a) != ToolKey(b)
  {
    assert ToolKey(a).identity[0] == a && ToolKey(b).identity[0] == b;
  }

  /** The same for the first planned tool result. */
  lemma {:induction false} ToolsAdvance(events: seq<Event>, e: Event, req: Request, tools: seq<string>)
    requires Injective(req.digest) && NoDuplicates(tools)
    requires var plan := ToolsPlan(events, req, tools);
        plan.Repairs? && plan.repairs != [] && e == EventOf(plan.repairs[0], e.seqNo)
    ensures e.typ == ToolResult && Text(e.payload, "toolUseId") in tools
        && Under(e, req, ToolKey(Text(e.payload, "toolUseId")))
    ensures ToolsPlan(events + [e], req, tools) == Repairs(ToolsPlan(events, req, tools).repairs[1..])
  {
    hide Injective, Under, ToolPlan, ToolKey, Text, EventOf;
    var tool, rest := tools[0], tools[1..];
    RemoveHead(tools);
    assert forall i | 0 <= i < |rest| :: rest[i] == tools[i + 1] != tool;
    if ToolPlan(events, req, tool).repairs != [] {
      ToolRepair(events, e, req, tool);
      forall i | 0 <= i < |rest| ensures ToolKey(rest[i]) != ToolKey(tool) {
        ToolKeysDiffer(rest[i], tool);
      }
      ToolsSame(events, e, req, ToolKey(tool), rest);
      assert (ToolPlan(events, req, tool).repairs + ToolsPlan(events, req, rest).repairs)[1..]
          == ToolsPlan(events, req, rest).repairs;
    } else {
      ToolsAdvance(events, e, req, rest);
      var answered := Text(e.payload, "toolUseId");
      ToolKeysDiffer(tool, answered);
      ToolPlanSame(events, e, req, ToolKey(answered), tool);
      assert ToolPlan(events, req, tool).repairs + ToolsPlan(events, req, rest).repairs
          == ToolsPlan(events, req, rest).repairs;
      assert [] + ToolsPlan(events, req, rest).repairs[1..] == ToolsPlan(events, req, rest).repairs[1..];
    }
  }

  lemma KindsDiffer(step: Step, tool: string, turn: string)
    ensures StepKey(step) != ToolKey(tool) && StepKey(step) != TurnKey(turn) && ToolKey(tool) != TurnKey(turn)
  {
  }

  /** Appending the first planned repair leaves exactly the others planned. */
  lemma PlanAdvances(events: seq<Event>, req: Request, at: nat)
    requires Injective(req.digest) && NoDuplicates(req.tools)
    requires PlanOf(events, req).Repairs? && PlanOf(events, req).repairs != []
    ensures PlanOf(events + [EventOf(PlanOf(events, req).repairs[0], at)], req)
        == Repairs(PlanOf(events, req).repairs[1..])
  {
    hide Injective, Under, StepsPlan, ToolsPlan, ToolPlan, TurnPlan, ScanAll;
    var steps := StepsPlan(events, req, ScanAll(events).steps);
    var tools := ToolsPlan(events, req, req.tools);
    var e := EventOf(PlanOf(events, req).repairs[0], at);
    ScannedSteps(events);
    ScanAppend(events, e);
    if steps.repairs != [] {
      StepsAdvance(events, e, req, ScanAll(events).steps);
      var key := StepKey(StepOf(e.payload));
      forall tool, turn
        ensures ToolKey(tool) != key && TurnKey(turn) != key
      {
        KindsDiffer(StepOf(e.payload), tool, turn);
      }
      ToolsSame(events, e, req, key, req.tools);
      TurnSame(events, e, req, key);
    } else if tools.repairs != [] {
      ToolsAdvance(events, e, req, req.tools);
      var key := ToolKey(Text(e.payload, "toolUseId"));
      forall step, turn
        ensures StepKey(step) != key && TurnKey(turn) != key
      {
        KindsDiffer(step, Text(e.payload, "toolUseId"), turn);
      }
      StepsSame(events, e, req, key, ScanAll(events).steps);
      TurnSame(events, e, req, key);
    } else {
      TurnAdvances(events, e, req);
      var key := TurnKey(req.turnId);
      forall step, tool
        ensures StepKey(step) != key && ToolKey(tool) != key
      {
        KindsDiffer(step, tool, req.turnId);
      }
      StepsSame(events, e, req, key, ScanAll(events).steps);
      ToolsSame(events, e, req, key, req.tools);
    }
  }

  lemma TurnAdvances(events: seq<Event>, e: Event, req: Request)
    requires TurnPlan(events, req).Repairs? && TurnPlan(events, req).repairs != []
        && e == EventOf(TurnPlan(events, req).repairs[0], e.seqNo)
    ensures e.typ == TurnEnd && Under(e, req, TurnKey(req.turnId)) && Text(e.payload, "turnId") == req.turnId
    ensures TurnPlan(events + [e], req) == Repairs([]) && |TurnPlan(events, req).repairs| == 1
  {
  }

  // ---------------------------------------------------------------- resuming

  lemma {:induction false} AppendedPlan(events: seq<Event>, req: Request, k: nat)
    requires Injective(req.digest) && NoDuplicates(req.tools)
    requires PlanOf(events, req).Repairs? && k <= |PlanOf(events, req).repairs|
    ensures PlanOf(Appended(events, PlanOf(events, req).repairs[..k]), req) == Repairs(PlanOf(events, req).repairs[k..])
    decreases k
  {
    hide PlanOf, Injective, MaxSeq;
    var repairs := PlanOf(events, req).repairs;
    if k > 0 {
      var next := events + [EventOf(repairs[0], MaxSeq(events) + 1)];
      PlanAdvances(events, req, MaxSeq(events) + 1);
      assert repairs[..k][1..] == repairs[1..][..k - 1] && repairs[1..][k - 1..] == repairs[k..];
      AppendedPlan(next, req, k - 1);
    } else {
      assert repairs[..0] == [] && repairs[0..] == repairs;
    }
  }

  lemma {:induction false} AppendedConcat(events: seq<Event>, a: seq<Repair>, b: seq<Repair>)
    ensures Appended(events, a + b) == Appended(Appended(events, a), b)
    decreases |a|
  {
    hide MaxSeq;
    if a == [] {
      assert a + b == b;
    } else {
      assert (a + b)[1..] == a[1..] + b;
      AppendedConcat(events + [EventOf(a[0], MaxSeq(events) + 1)], a[1..], b);
    }
  }

  /** Cut off after any number of appends, a second run appends exactly the missing repairs: the ledger ends up as if
      the first run had not been cut off, and a further run has nothing to do. */
  lemma RecoveryResumes(events: seq<Event>, req: Request, first: nat, second: nat)
    requires Injective(req.digest) && NoDuplicates(req.tools) && PlanOf(events, req).Repairs?
    ensures Recovered(Recovered(events, req, first), req, second) == Recovered(events, req, first + second)
    ensures first >= |PlanOf(events, req).repairs| ==> PlanOf(Recovered(events, req, first), req) == Repairs([])
  {
    hide PlanOf, Injective;
    var repairs := PlanOf(events, req).repairs;
    var k := Min(first, |repairs|);
    AppendedPlan(events, req, k);
    var m := Min(second, |repairs| - k);
    assert repairs[..k] + repairs[k..][..m] == repairs[..k + m];
    AppendedConcat(events, repairs[..k], repairs[k..][..m]);
    assert k + m == Min(first + second, |repairs|);
  }

  // ---------------------------------------------------------------- what is closed

  /** The planned step repairs are for the open steps of this turn that have no recovery event yet, and for no
      others. */
  lemma {:induction false} StepsPlanned(events: seq<Event>, req: Request, steps: seq<Step>)
    requires StepsPlan(events, req, steps).Repairs?
    ensures forall r | r in StepsPlan(events, req, steps).repairs :: r.typ == StepEnd
    ensures forall p :: (exists r :: r in StepsPlan(events, req, steps).repairs && StepOf(r.payload) == p)
                        <==> p in steps && p.turnId == req.turnId && FindRecovery(events, req.digest(StepKey(p))).None?
  {
    if steps != [] {
      StepsPlanned(events, req, steps[1..]);
      assert steps == [steps[0]] + steps[1..];
      var head := StepPlan(events, req, steps[0]);
      var rest := StepsPlan(events, req, steps[1..]).repairs;
      var all := StepsPlan(events, req, steps).repairs;
      assert all == head.repairs + rest;
      assert StepOf(StepExpected(req, steps[0])) == steps[0];
      forall p
        ensures (exists r :: r in all && StepOf(r.payload) == p)
                <==> p in steps && p.turnId == req.turnId && FindRecovery(events, req.digest(StepKey(p))).None?
      {
        if r :| r in rest && StepOf(r.payload) == p {
          assert r in all;
        }
        if head.repairs != [] && p == steps[0] {
          assert head.repairs[0] in all;
        }
      }
    }
  }

  lemma {:induction false} ToolsPlanned(events: seq<Event>, req: Request, tools: seq<string>)
    requires ToolsPlan(events, req, tools).Repairs?
    ensures forall r | r in ToolsPlan(events, req, tools).repairs ::
        r.typ == ToolResult && Text(r.payload, "toolUseId") in tools
  {
    if tools != [] {
      ToolsPlanned(events, req, tools[1..]);
    }
  }

  /** A result for this tool use is among the repairs. */
  predicate Answers(repairs: seq<Repair>, u: string) {
    exists i | 0 <= i < |repairs| :: repairs[i].typ == ToolResult && Text(repairs[i].payload, "toolUseId") == u
  }

  lemma {:induction false} LastOfSeen(events: seq<Event>, typ: Type, u: string)
    ensures LastOf(events, typ, u).Some? <==> ToolSeen(events, typ, u)
  {
    hide Text;
    if events != [] {
      var before, e := events[..|events| - 1], events[|events| - 1];
      LastOfSeen(before, typ, u);
      assert before + [e] == events;
      ToolSeenStep(before, e, u, typ);
    }
  }

  lemma ToolOpenSeen(events: seq<Event>, u: string)
    ensures ToolOpen(events, u) <==> ToolSeen(events, ToolCall, u) && !ToolSeen(events, ToolResult, u)
  {
    hide Text;
  }

  lemma AnswersConcat(a: seq<Repair>, b: seq<Repair>, u: string)
    ensures Answers(a + b, u) <==> Answers(a, u) || Answers(b, u)
  {
    hide Text;
    if Answers(a, u) {
      var i :| 0 <= i < |a| && a[i].typ == ToolResult && Text(a[i].payload, "toolUseId") == u;
      assert (a + b)[i] == a[i];
    }
    if Answers(b, u) {
      var i :| 0 <= i < |b| && b[i].typ == ToolResult && Text(b[i].payload, "toolUseId") == u;
      assert (a + b)[|a| + i] == b[i];
    }
  }

  /** One tool of the request is answered exactly when it is open and its recovery event is not in the ledger. */
  lemma ToolAnswered(events: seq<Event>, req: Request, tool: string, u: string)
    requires ToolPlan(events, req, tool).Repairs?
    ensures Answers(ToolPlan(events, req, tool).repairs, u)
            <==> u == tool && ToolOpen(events, u) && FindRecovery(events, req.digest(ToolKey(u))).None?
  {
    hide FindRecovery, ToolOpen;
    LastOfSeen(events, ToolCall, tool);
    LastOfSeen(events, ToolResult, tool);
    ToolOpenSeen(events, tool);
    var call := LastOf(events, ToolCall, tool);
    if call.Some? {
      var answer := ToolExpected(req, tool, call.value);
      assert Text(answer, "toolUseId") == tool;
      assert [Repair(ToolResult, answer)][0].payload == answer;
    }
  }

  /** The planned results are for the open tool uses of the request that have no recovery event yet, and for no
      others. */
  lemma {:induction false} ToolsAnswering(events: seq<Event>, req: Request, tools: seq<string>, u: string)
    requires ToolsPlan(events, req, tools).Repairs?
    ensures Answers(ToolsPlan(events, req, tools).repairs, u)
            <==> u in tools && ToolOpen(events, u) && FindRecovery(events, req.digest(ToolKey(u))).None?
  {
    hide ToolPlan, ToolOpen, FindRecovery, Answers, ToolKey;
    if tools == [] {
      assert !Answers([], u) by { NothingAnswers(u); }
    } else {
      ToolAnswered(events, req, tools[0], u);
      ToolsAnswering(events, req, tools[1..], u);
      AnswersConcat(ToolPlan(events, req, tools[0]).repairs, ToolsPlan(events, req, tools[1..]).repairs, u);
      assert tools == [tools[0]] + tools[1..];
    }
  }

  lemma NothingAnswers(u: string)
    ensures !Answers([], u)
  {
  }

  /** Appending step ends, tool results and turn ends answers the tool uses they name and no others. */
  lemma {:induction false} AppendedAnswers(events: seq<Event>, repairs: seq<Repair>, u: string)
    requires forall i | 0 <= i < |repairs| :: repairs[i].typ == StepEnd || repairs[i].typ == ToolResult
                                              || repairs[i].typ == TurnEnd
    ensures ToolOpen(Appended(events, repairs), u) <==> ToolOpen(events, u) && !Answers(repairs, u)
    decreases |repairs|
  {
    hide MaxSeq, Text, ToolOpen, ToolSeen;
    if repairs != [] {
      var e := EventOf(repairs[0], MaxSeq(events) + 1);
      AppendedAnswers(events + [e], repairs[1..], u);
      ToolSeenStep(events, e, u, ToolCall);
      ToolSeenStep(events, e, u, ToolResult);
      ToolOpenSeen(events, u);
      ToolOpenSeen(events + [e], u);
      assert repairs == [repairs[0]] + repairs[1..];
      AnswersConcat([repairs[0]], repairs[1..], u);
      assert Answers([repairs[0]], u) <==> IsTool(e, ToolResult, u) by {
        assert [repairs[0]][0] == repairs[0];
      }
    }
  }

  lemma NoResultsAmong(repairs: seq<Repair>, u: string)
    requires forall r | r in repairs :: r.typ != ToolResult
    ensures !Answers(repairs, u)
  {
  }

  predicate EndsStep(repairs: seq<Repair>, p: Step) {
    exists i | 0 <= i < |repairs| :: repairs[i].typ == StepEnd && StepOf(repairs[i].payload) == p
  }

  predicate EndsTurn(repairs: seq<Repair>, t: string) {
    exists i | 0 <= i < |repairs| :: repairs[i].typ == TurnEnd && Text(repairs[i].payload, "turnId") == t
  }

  /** Appending step ends, tool results and turn ends closes what they name and nothing else. */
  lemma {:induction false} AppendedCloses(events: seq<Event>, repairs: seq<Repair>)
    requires forall i | 0 <= i < |repairs| :: repairs[i].typ == StepEnd || repairs[i].typ == ToolResult
                                              || repairs[i].typ == TurnEnd
    ensures forall p :: p in ScanAll(Appended(events, repairs)).steps <==>
                        p in ScanAll(events).steps && !EndsStep(repairs, p)
    ensures forall t :: t in ScanAll(Appended(events, repairs)).turns <==>
                        t in ScanAll(events).turns && !EndsTurn(repairs, t)
    decreases |repairs|
  {
    hide ScanAll, MaxSeq, StepOf, Text;
    if repairs != [] {
      var e := EventOf(repairs[0], MaxSeq(events) + 1);
      ScanAppend(events, e);
      RemoveElements(ScanAll(events).steps, StepOf(e.payload));
      RemoveElements(ScanAll(events).turns, Text(e.payload, "turnId"));
      AppendedCloses(events + [e], repairs[1..]);
      forall p
        ensures EndsStep(repairs, p) <==> (repairs[0].typ == StepEnd && StepOf(repairs[0].payload) == p)
                                          || EndsStep(repairs[1..], p)
      {
        EndsStepHead(repairs, p);
      }
      forall t
        ensures EndsTurn(repairs, t) <==> (repairs[0].typ == TurnEnd && Text(repairs[0].payload, "turnId") == t)
                                          || EndsTurn(repairs[1..], t)
      {
        EndsTurnHead(repairs, t);
      }
    }
  }

  lemma EndsStepHead(repairs: seq<Repair>, p: Step)
    requires repairs != []
    ensures EndsStep(repairs, p) <==> (repairs[0].typ == StepEnd && StepOf(repairs[0].payload) == p)
                                      || EndsStep(repairs[1..], p)
  {
  }

  lemma EndsTurnHead(repairs: seq<Repair>, t: string)
    requires repairs != []
    ensures EndsTurn(repairs, t) <==> (repairs[0].typ == TurnEnd && Text(repairs[0].payload, "turnId") == t)
                                      || EndsTurn(repairs[1..], t)
  {
  }

  /** After an uninterrupted run a step of the turn stays open exactly when its recovery event was already in the
      ledger, that is, when it was started again after an earlier recovery; likewise the turn, and a tool use of the
      request. Other turns, their steps, and tool uses that are not of the request keep their state. */
  lemma OnlyThisTurnIsClosed(events: seq<Event>, req: Request, budget: nat)
    requires PlanOf(events, req).Repairs? && budget >= |PlanOf(events, req).repairs|
    ensures var after := Recovered(events, req, budget);
            && (forall p :: StepOpen(after, p) <==>
                  StepOpen(events, p) && (p.turnId == req.turnId ==>
                                          FindRecovery(events, req.digest(StepKey(p))).Some?))
            && (forall t :: TurnOpen(after, t) <==>
                  TurnOpen(events, t) && (t == req.turnId ==> FindRecovery(events, req.digest(TurnKey(t))).Some?))
            && (forall u :: ToolOpen(after, u) <==>
                  ToolOpen(events, u) && (u in req.tools ==> FindRecovery(events, req.digest(ToolKey(u))).Some?))
  {
    hide ScanAll, StepsPlan, ToolsPlan, ToolPlan, TurnPlan, StepOpen, TurnOpen, FindRecovery, Appended, EndsStep,
        EndsTurn, ToolOpen, Answers,
         StepKey, ToolKey, TurnKey, Text, StepOf;
    var steps := StepsPlan(events, req, ScanAll(events).steps).repairs;
    var tools := ToolsPlan(events, req, req.tools).repairs;
    var turns := TurnPlan(events, req).repairs;
    var all := PlanOf(events, req).repairs;
    assert all == steps + (tools + turns) && all[..|all|] == all;
    StepsPlanned(events, req, ScanAll(events).steps);
    ToolsPlanned(events, req, req.tools);
    TurnPlanned(events, req);
    AppendedCloses(events, all);
    ScannedSteps(events);
    ScannedTurns(events);
    var after := Recovered(events, req, budget);
    ScannedSteps(after);
    ScannedTurns(after);
    forall p
      ensures EndsStep(all, p) <==> exists r :: r in steps && StepOf(r.payload) == p
    {
      StepsAmong(steps, tools, turns, p);
    }
    forall t
      ensures EndsTurn(all, t) <==> turns != [] && t == req.turnId
    {
      TurnsAmong(steps, tools, turns, t);
    }
    forall u
      ensures ToolOpen(after, u) <==> ToolOpen(events, u)
                                      && (u in req.tools ==> FindRecovery(events, req.digest(ToolKey(u))).Some?)
    {
      AppendedAnswers(events, all, u);
      ToolsAnswering(events, req, req.tools, u);
      NoResultsAmong(steps, u);
      NoResultsAmong(turns, u);
      AnswersConcat(steps, tools + turns, u);
      AnswersConcat(tools, turns, u);
    }
  }

  lemma TurnPlanned(events: seq<Event>, req: Request)
    requires TurnPlan(events, req).Repairs?
    ensures var repairs := TurnPlan(events, req).repairs;
            && |repairs| <= 1 && (repairs != [] ==>
                                  repairs[0].typ == TurnEnd && Text(repairs[0].payload, "turnId") == req.turnId)
            && (repairs != [] <==> req.turnId in ScanAll(events).turns
                                   && FindRecovery(events, req.digest(TurnKey(req.turnId))).None?)
  {
    hide ScanAll;
  }

  lemma StepsAmong(steps: seq<Repair>, tools: seq<Repair>, turns: seq<Repair>, p: Step)
    requires (forall r | r in steps :: r.typ == StepEnd) && (forall r | r in tools :: r.typ == ToolResult)
        && (forall r | r in turns :: r.typ == TurnEnd)
    ensures EndsStep(steps + (tools + turns), p) <==> exists r :: r in steps && StepOf(r.payload) == p
  {
    var all := steps + (tools + turns);
    assert forall r | r in all :: r in steps || r in tools || r in turns;
    if r :| r in steps && StepOf(r.payload) == p {
      var i :| 0 <= i < |steps| && steps[i] == r;
      assert all[i] == r;
    }
    if EndsStep(all, p) {
      var i :| 0 <= i < |all| && all[i].typ == StepEnd && StepOf(all[i].payload) == p;
      assert all[i] in all;
    }
  }

  lemma TurnsAmong(steps: seq<Repair>, tools: seq<Repair>, turns: seq<Repair>, t: string)
    requires (forall r | r in steps :: r.typ == StepEnd) && (forall r | r in tools :: r.typ == ToolResult)
    requires |turns| <= 1 && (turns != [] ==> turns[0].typ == TurnEnd)
    ensures EndsTurn(steps + (tools + turns), t) <==> turns != [] && Text(turns[0].payload, "turnId") == t
  {
    hide Text;
    var all := steps + (tools + turns);
    assert forall r | r in all :: r in steps || r in tools || r in turns;
    if turns != [] && Text(turns[0].payload, "turnId") == t {
      assert all[|steps| + |tools|] == turns[0];
    }
    if EndsTurn(all, t) {
      var i :| 0 <= i < |all| && all[i].typ == TurnEnd && Text(all[i].payload, "turnId") == t;
      assert all[i] in all;
    }
  }
}
