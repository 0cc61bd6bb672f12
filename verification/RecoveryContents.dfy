/** What the repairs of an interrupted run say, and when a recovery refuses (electron/sessionEvents.ts). */
module RecoveryContents {
  import opened Json
  import opened Reconcile
  import opened TurnRecovery

  // ---------------------------------------------------------------- the whole ledger

  /** The result a tool call gets that was cut off. */
  predicate SaysInterrupted(p: Payload) {
    && Field(p, "synthetic") == Some(Bool(true))
    && Field(p, "result") == Some(Obj(map["success" := Bool(false), "error" := Str("工具调用因应用退出中断")]))
  }

  /** A repair of the whole ledger ends its step or turn as interrupted, or answers its call with a synthetic failure,
      and says nothing else. */
  predicate WholeRepair(e: Event) {
    && e.supported && e.typ in {StepEnd, ToolResult, TurnEnd}
    && (e.typ == StepEnd ==>
          e.payload.Keys == {"turnId", "stepId", "reason"} && Field(e.payload, "reason") == Some(Str("interrupted")))
    && (e.typ == ToolResult ==> e.payload.Keys == {"toolUseId", "synthetic", "result"} && SaysInterrupted(e.payload))
    && (e.typ == TurnEnd ==>
          e.payload.Keys == {"turnId", "reason"} && Field(e.payload, "reason") == Some(Str("interrupted")))
  }

  lemma WholeRepairsSay(events: seq<Event>, start: nat)
    ensures forall i | 0 <= i < |Reconcile.Repairs(ScanAll(events), start)| ::
              WholeRepair(Reconcile.Repairs(ScanAll(events), start)[i])
  {
    hide ScanAll, Unanswered;
    var s := ScanAll(events);
    RepairsByIndex(s, start);
    var out := Reconcile.Repairs(s, start);
    forall i | 0 <= i < |out| ensures WholeRepair(out[i]) {
    }
  }

  // ---------------------------------------------------------------- one turn

  /** The identifier of the recovery event, over the kind of the event and the identity of what it closes. */
  function RecoveryId(req: Request, kind: string, identity: seq<string>): Json {
    Str(req.digest(RecoveryKey(kind, identity)))
  }

  /** A recovery event names the terminal event of History it follows, and itself. */
  predicate Signed(p: Payload, req: Request, kind: string, identity: seq<string>) {
    && Field(p, "canonicalTerminalEventId") == Some(Str(req.terminal))
    && Field(p, "recoveryId") == Some(RecoveryId(req, kind, identity))
  }

  predicate SaysStepEnd(p: Payload, req: Request, step: Step) {
    && p.Keys == {"turnId", "stepId", "reason", "recoveryId", "canonicalTerminalEventId"}
    && Field(p, "turnId") == Some(Str(step.turnId)) && Field(p, "stepId") == Some(Str(step.stepId))
    && Field(p, "reason") == Some(Str("interrupted")) && Signed(p, req, "step_end", [step.turnId, step.stepId])
  }

  /** The turn and step are those of the call, the turn of the request and no step where the call names none. */
  predicate SaysToolResult(p: Payload, req: Request, tool: string, call: Payload) {
    && p.Keys == {"toolUseId", "turnId", "stepId", "synthetic", "interrupted", "recoveryId", "canonicalTerminalEventId",
                  "result"}
    && Field(p, "toolUseId") == Some(Str(tool)) && SaysInterrupted(p) && Field(p, "interrupted") == Some(Bool(true))
    && Field(p, "turnId") == Some(Str(if Named(call, "turnId") then JsonString(call["turnId"]) else req.turnId))
    && Field(p, "stepId") == Some(Str(if Named(call, "stepId") then JsonString(call["stepId"]) else ""))
    && Signed(p, req, "tool_result", [tool])
  }

  predicate Named(p: Payload, key: string) {
    key in p && p[key] != Null
  }

  predicate SaysTurnEnd(p: Payload, req: Request) {
    && p.Keys == {"turnId", "reason", "recoveryId", "canonicalTerminalEventId"}
    && Field(p, "turnId") == Some(Str(req.turnId)) && Field(p, "reason") == Some(Str("interrupted"))
    && Signed(p, req, "turn_end", [req.turnId])
  }

  /** What a planned repair closes and says. */
  ghost predicate TurnRepair(events: seq<Event>, req: Request, r: Repair) {
    match r.typ
    case StepEnd => exists step ::
      StepOpen(events, step) && step.turnId == req.turnId && SaysStepEnd(r.payload, req, step)
    case ToolResult => exists tool | tool in req.tools ::
                         && ToolOpen(events, tool) && LastOf(events, ToolCall, tool).Some?
                         && SaysToolResult(r.payload, req, tool, LastOf(events, ToolCall, tool).value)
    case TurnEnd => TurnOpen(events, req.turnId) && SaysTurnEnd(r.payload, req)
    case _ => false
  }

  lemma StepExpectedSays(req: Request, step: Step)
    ensures SaysStepEnd(StepExpected(req, step), req, step)
  {
  }

  lemma ToolExpectedSays(req: Request, tool: string, call: Payload)
    ensures SaysToolResult(ToolExpected(req, tool, call), req, tool, call)
  {
  }

  lemma TurnExpectedSays(req: Request)
    ensures SaysTurnEnd(TurnExpected(req), req)
  {
  }

  lemma {:induction false} StepsSay(events: seq<Event>, req: Request, steps: seq<Step>, r: Repair)
    requires forall i | 0 <= i < |steps| :: StepOpen(events, steps[i])
    requires StepsPlan(events, req, steps).Repairs? && r in StepsPlan(events, req, steps).repairs
    ensures r.typ == StepEnd && TurnRepair(events, req, r)
  {
    hide StepOpen, FindRecovery, SaysStepEnd;
    if r in StepPlan(events, req, steps[0]).repairs {
      StepExpectedSays(req, steps[0]);
    } else {
      StepsSay(events, req, steps[1..], r);
    }
  }

  lemma {:induction false} ToolsSay(events: seq<Event>, req: Request, tools: seq<string>, r: Repair)
    requires forall i | 0 <= i < |tools| :: tools[i] in req.tools
    requires ToolsPlan(events, req, tools).Repairs? && r in ToolsPlan(events, req, tools).repairs
    ensures r.typ == ToolResult && TurnRepair(events, req, r)
  {
    hide ToolOpen, FindRecovery, SaysToolResult, LastOf;
    var tool := tools[0];
    if r in ToolPlan(events, req, tool).repairs {
      ToolExpectedSays(req, tool, LastOf(events, ToolCall, tool).value);
      ToolOpenSeen(events, tool);
      LastOfSeen(events, ToolCall, tool);
      LastOfSeen(events, ToolResult, tool);
    } else {
      ToolsSay(events, req, tools[1..], r);
    }
  }

  /** Every planned repair closes something open, of this turn or an authorised call, as interrupted, and is signed with
      the terminal event of History and a recovery identifier of its own kind. */
  lemma RepairsSay(events: seq<Event>, req: Request, r: Repair)
    requires PlanOf(events, req).Repairs? && r in PlanOf(events, req).repairs
    ensures TurnRepair(events, req, r)
  {
    hide ScanAll, StepsPlan, ToolsPlan, StepOpen, ToolOpen, TurnOpen, FindRecovery;
    ScanIsOpen(events);
    var steps := ScanAll(events).steps;
    if r in StepsPlan(events, req, steps).repairs {
      StepsSay(events, req, steps, r);
    } else if r in ToolsPlan(events, req, req.tools).repairs {
      ToolsSay(events, req, req.tools, r);
    } else {
      TurnExpectedSays(req);
    }
  }

  // ---------------------------------------------------------------- when a recovery refuses

  /** The first event with this recovery identifier is another one. */
  predicate Forged(events: seq<Event>, id: string, repair: Repair) {
    exists i | 0 <= i < |events| ::
      && Field(events[i].payload, "recoveryId") == Some(Str(id))
      && (forall j | 0 <= j < i :: Field(events[j].payload, "recoveryId") != Some(Str(id)))
      && (events[i].typ != repair.typ || events[i].payload != repair.payload)
  }

  lemma {:induction false} FoundFirst(events: seq<Event>, id: string)
    ensures FindRecovery(events, id).None? <==>
            forall i | 0 <= i < |events| :: Field(events[i].payload, "recoveryId") != Some(Str(id))
    ensures FindRecovery(events, id).Some? ==>
              exists i | 0 <= i < |events| ::
                && events[i] == FindRecovery(events, id).value
                && Field(events[i].payload, "recoveryId") == Some(Str(id))
                && (forall j | 0 <= j < i :: Field(events[j].payload, "recoveryId") != Some(Str(id)))
  {
    if events != [] {
      var shorter := events[..|events| - 1];
      FoundFirst(shorter, id);
      assert forall i | 0 <= i < |shorter| :: shorter[i] == events[i];
    }
  }

  lemma NeededConflicts(events: seq<Event>, id: string, repair: Repair)
    ensures Needed(events, id, repair).Conflict? <==> Forged(events, id, repair)
  {
    FoundFirst(events, id);
    hide FindRecovery;
    if Forged(events, id, repair) {
      var i :| 0 <= i < |events| && Field(events[i].payload, "recoveryId") == Some(Str(id))
        && (forall j | 0 <= j < i :: Field(events[j].payload, "recoveryId") != Some(Str(id)))
        && (events[i].typ != repair.typ || events[i].payload != repair.payload);
      var k :| 0 <= k < |events| && events[k] == FindRecovery(events, id).value
        && Field(events[k].payload, "recoveryId") == Some(Str(id))
        && (forall j | 0 <= j < k :: Field(events[j].payload, "recoveryId") != Some(Str(id)));
      assert i == k;
    }
  }

  /** An authorised call was answered by another recovery, or its recovery identifier is taken. */
  predicate ToolConflicts(events: seq<Event>, req: Request, tool: string) {
    var id := req.digest(RecoveryKey("tool_result", [tool]));
    var result := LastOf(events, ToolResult, tool);
    var call := LastOf(events, ToolCall, tool);
    if result.Some? then
      Field(result.value, "synthetic") == Some(Bool(true)) && StringField(result.value, "recoveryId").Some?
      && result.value["recoveryId"] != Str(id)
    else call.Some? && Forged(events, id, Repair(ToolResult, ToolExpected(req, tool, call.value)))
  }

  /** Something of another recovery is in the ledger. */
  ghost predicate Conflicts(events: seq<Event>, req: Request) {
    || (exists step :: StepOpen(events, step) && step.turnId == req.turnId
          && Forged(events, req.digest(RecoveryKey("step_end", [step.turnId, step.stepId])),
                    Repair(StepEnd, StepExpected(req, step))))
    || (exists tool | tool in req.tools :: ToolConflicts(events, req, tool))
    || (TurnOpen(events, req.turnId)
        && Forged(events, req.digest(RecoveryKey("turn_end", [req.turnId])), Repair(TurnEnd, TurnExpected(req))))
  }

  lemma {:induction false} StepsConflict(events: seq<Event>, req: Request, steps: seq<Step>)
    ensures StepsPlan(events, req, steps).Conflict? <==>
            exists step | step in steps ::
              step.turnId == req.turnId
              && Forged(events, req.digest(RecoveryKey("step_end", [step.turnId, step.stepId])),
                        Repair(StepEnd, StepExpected(req, step)))
  {
    hide Forged, FindRecovery, StepExpected, Needed;
    if steps != [] {
      StepsConflict(events, req, steps[1..]);
      var step := steps[0];
      NeededConflicts(events, req.digest(StepKey(step)), Repair(StepEnd, StepExpected(req, step)));
      assert steps == [step] + steps[1..];
    }
  }

  lemma {:induction false} ToolsConflict(events: seq<Event>, req: Request, tools: seq<string>)
    ensures ToolsPlan(events, req, tools).Conflict? <==> exists tool | tool in tools :: ToolConflicts(events, req, tool)
  {
    hide Forged, FindRecovery, ToolExpected, LastOf;
    if tools != [] {
      ToolsConflict(events, req, tools[1..]);
      ToolPlanConflicts(events, req, tools[0]);
      hide ToolConflicts, ToolPlan;
      assert tools == [tools[0]] + tools[1..];
    }
  }

  lemma ToolPlanConflicts(events: seq<Event>, req: Request, tool: string)
    ensures ToolPlan(events, req, tool).Conflict? <==> ToolConflicts(events, req, tool)
  {
    hide Forged, Needed, ToolExpected, LastOf;
    if LastOf(events, ToolCall, tool).Some? {
      var call := LastOf(events, ToolCall, tool).value;
      NeededConflicts(events, req.digest(ToolKey(tool)), Repair(ToolResult, ToolExpected(req, tool, call)));
    }
  }

  /** A recovery refuses, and then appends nothing, exactly when an identifier it would use is taken by another event
      or an authorised call was already answered by another recovery. */
  lemma RefusesIff(events: seq<Event>, req: Request, budget: nat)
    ensures PlanOf(events, req).Conflict? <==> Conflicts(events, req)
    ensures Conflicts(events, req) ==> Recovered(events, req, budget) == events
  {
    hide ScanAll, StepsPlan, ToolsPlan, StepOpen, ToolOpen, TurnOpen, Forged, ToolConflicts, Needed, TurnExpected,
        StepExpected;
    ScanIsOpen(events);
    StepsConflict(events, req, ScanAll(events).steps);
    ToolsConflict(events, req, req.tools);
    NeededConflicts(events, req.digest(TurnKey(req.turnId)), Repair(TurnEnd, TurnExpected(req)));
  }

  // ---------------------------------------------------------------- String(value)

  /** What decimal digits mean. */
  function Meaning(digits: string): int {
    if digits == "" then 0 else 10 * Meaning(digits[..|digits| - 1]) + (digits[|digits| - 1] as int - '0' as int)
  }

  /** A number is written in decimal, without leading zeros. */
  lemma {:induction false} DigitsMeanTheNumber(n: nat)
    ensures Meaning(Digits(n)) == n && Digits(n) != ""
    ensures forall c | c in Digits(n) :: '0' <= c <= '9'
    ensures Digits(n)[0] == '0' ==> n == 0
  {
    if n < 10 {
      assert Meaning(Digits(n)[..0]) == 0;
    } else {
      DigitsMeanTheNumber(n / 10);
      assert Digits(n)[..|Digits(n)| - 1] == Digits(n / 10);
    }
  }

  /** The identifiers of the log are compared as text: different numbers never name the same item, but a number and its
      decimal string always do. */
  lemma NumbersAsText(m: int, n: int)
    ensures JsonString(Num(m)) == JsonString(Num(n)) <==> m == n
    ensures m >= 0 ==> JsonString(Str(Digits(m))) == JsonString(Num(m))
    ensures m < 0 ==> JsonString(Num(m)) == "-" + Digits(-m)
  {
    NumberText(m);
    NumberText(n);
    hide Digits, Meaning;
  }

  lemma NumberText(n: int)
    ensures n < 0 ==> JsonString(Num(n))[0] == '-' && Meaning(JsonString(Num(n))[1..]) == -n
    ensures n >= 0 ==> JsonString(Num(n))[0] != '-' && Meaning(JsonString(Num(n))) == n
  {
    DigitsMeanTheNumber(if n < 0 then -n else n);
    hide Digits, Meaning;
    if n < 0 {
      assert JsonString(Num(n)) == "-" + Digits(-n) && ("-" + Digits(-n))[1..] == Digits(-n);
    } else {
      assert Digits(n)[0] in Digits(n);
    }
  }

  /** The texts of the other values. */
  lemma OthersAsText(fields: Payload)
    ensures JsonString(Null) == "null" && JsonString(Bool(true)) == "true" && JsonString(Bool(false)) == "false"
    ensures JsonString(Obj(fields)) == "[object Object]" && JsonString(Arr([])) == ""
    ensures forall item: Json :: JsonString(Arr([item])) == if item.Null? then "" else JsonString(item)
    ensures forall item: Json, items: seq<Json> | items != [] ::
              JsonString(Arr([item] + items)) == JsonString(Arr([item])) + "," + JsonString(Arr(items))
  {
  }
}
