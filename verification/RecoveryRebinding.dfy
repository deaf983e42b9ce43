/** What `rebind_recovery_actions` guarantees, and exactly when it succeeds. */
module RecoveryRebinding {
  import opened Text
  import opened Json
  import opened Contracts
  import opened FlowPointers
  import FlowOutcome
  import opened RecoveryLifecycle
  import opened RecoveryPlan

  // ---------------------------------------------------------------- live contexts

  predicate IsBoundedContext(c: Context) {
    0 <= c.actionIndex <= MAX_ACTION_INDEX
    && RequiredText(Str(c.command), MAX_COMMAND_LENGTH).Some?
    && RequiredText(Str(c.areaName), 300).Some? && RequiredText(Str(c.itemName), 300).Some?
  }

  predicate AreSound(contexts: seq<Context>) {
    AreUnambiguous(contexts) && forall i | 0 <= i < |contexts| :: IsBoundedContext(contexts[i])
  }

  lemma AddActionSound(action: Json, area: string, item: string, found: seq<Context>)
    requires AreSound(found) && RequiredText(Str(area), 300).Some? && RequiredText(Str(item), 300).Some?
    ensures var more := AddAction(action, area, item, found);
      more.Some? ==> AreSound(more.value)
  {
  }

  lemma {:induction false} AddActionsSound(actions: seq<Json>, area: string, item: string, found: seq<Context>)
    requires AreSound(found) && RequiredText(Str(area), 300).Some? && RequiredText(Str(item), 300).Some?
    ensures var more := AddActions(actions, area, item, found);
      more.Some? ==> AreSound(more.value)
    decreases |actions|
  {
    hide AreSound, AddAction, RequiredText;
    if actions != [] && AddAction(actions[0], area, item, found).Some? {
      AddActionSound(actions[0], area, item, found);
      AddActionsSound(actions[1..], area, item, AddAction(actions[0], area, item, found).value);
    }
  }

  lemma {:induction false} AddItemsSound(items: seq<Json>, area: string, found: seq<Context>)
    requires AreSound(found) && RequiredText(Str(area), 300).Some?
    ensures var more := AddItems(items, area, found);
      more.Some? ==> AreSound(more.value)
    decreases |items|
  {
    hide AreSound, AddActions;
    if items != [] && AddItem(items[0], area, found).Some? {
      if items[0].Obj? && !IsDisabled(items[0].fields) {
        var name := RequiredText(Get(items[0].fields, "name"), 300);
        AddActionsSound(items[0].fields["actions"].items, area, name.value, found);
      }
      AddItemsSound(items[1..], area, AddItem(items[0], area, found).value);
    }
  }

  lemma {:induction false} AddAreasSound(areas: seq<Json>, found: seq<Context>)
    requires AreSound(found)
    ensures var more := AddAreas(areas, found);
      more.Some? ==> AreSound(more.value)
    decreases |areas|
  {
    hide AreSound, AddItems;
    if areas != [] && AddArea(areas[0], found).Some? {
      if areas[0].Obj? && !IsDisabled(areas[0].fields) {
        var name := RequiredText(Get(areas[0].fields, "name"), 300);
        AddItemsSound(areas[0].fields["items"].items, name.value, found);
      }
      AddAreasSound(areas[1..], AddArea(areas[0], found).value);
    }
  }

  /** Every accepted action tree is unambiguous and made of bounded, trimmed parts. */
  lemma FlowContextsSound(flow: map<string, Json>)
    requires FlowContexts(flow).Some?
    ensures AreSound(FlowContexts(flow).value)
  {
    AddAreasSound(flow["areas"].items, []);
  }

  /** So the look-up by index finds each action. */
  lemma {:induction false} ContextAtFinds(contexts: seq<Context>, i: nat)
    requires AreUnambiguous(contexts) && i < |contexts|
    ensures ContextAt(contexts, contexts[i].actionIndex) == Some(contexts[i])
    decreases i
  {
    if i > 0 {
      ContextAtFinds(contexts[1..], i - 1);
    }
  }

  lemma ContextAtSound(flow: map<string, Json>, index: int)
    requires FlowContexts(flow).Some? && ContextAt(FlowContexts(flow).value, index).Some?
    ensures IsBoundedContext(ContextAt(FlowContexts(flow).value, index).value)
  {
    hide FlowContexts, IsBoundedContext, ContextAt;
    FlowContextsSound(flow);
  }

  // ---------------------------------------------------------------- the payloads

  lemma PayloadParses(c: Context)
    requires IsBoundedContext(c)
    ensures ParseContext(ContextPayload(c)) == Some(c)
  {
    hide RequiredText;
    var fields := ContextPayload(c).fields;
    assert fields.Keys == {"actionIndex", "command", "areaName", "itemName"};
    assert Get(fields, "actionIndex") == Int(c.actionIndex) && Get(fields, "command") == Str(c.command);
    assert Get(fields, "areaName") == Str(c.areaName) && Get(fields, "itemName") == Str(c.itemName);
  }

  lemma ContinuationGets(arguments: map<string, Json>, current: Context, target: Context)
    ensures
      var fields := ContinuationFor(arguments, current, target).fields;
      ContinuationFor(arguments, current, target).Obj? && fields.Keys == {"expected_arguments", "current_action", "target_action"}
      && Get(fields, "expected_arguments") == Obj(arguments)
      && Get(fields, "current_action") == ContextPayload(current)
      && Get(fields, "target_action") == ContextPayload(target)
  {
    hide ContextPayload;
  }

  lemma WithFieldGets(fields: map<string, Json>, key: string, present: bool, value: Json)
    requires key !in fields
    ensures
      var after := WithField(fields, key, present, value);
      && (key in after <==> present) && (present ==> Get(after, key) == value)
      && (forall k | k != key :: (k in after <==> k in fields) && Get(after, k) == Get(fields, k))
      && after.Keys <= fields.Keys + {key}
  {
  }

  lemma StepArgumentGets(flowId: string, index: int, command: string, rewindSteps: int, mode: string)
    ensures
      var a := StepArguments(flowId, index, command, rewindSteps, mode);
      && a.Keys == {"mode", "rewind_steps", "current_action_index", "current_command", "flow_id"}
      && Get(a, "mode") == Str(mode) && Get(a, "rewind_steps") == Int(rewindSteps)
      && Get(a, "current_action_index") == Int(index) && Get(a, "current_command") == Str(command)
      && Get(a, "flow_id") == Str(flowId)
  {
  }

  /** Each guard field of the built arguments, by name. */
  lemma ArgumentGets(pointer: FlowPointer, index: int, command: string, rewindSteps: int, mode: string)
    ensures
      var a := ArgumentsFor(pointer, index, command, rewindSteps, mode);
      && a.Keys <= AllowedResumeArguments()
      && Get(a, "mode") == Str(mode) && Get(a, "rewind_steps") == Int(rewindSteps)
      && Get(a, "current_action_index") == Int(index) && Get(a, "current_command") == Str(command)
      && Get(a, "flow_id") == Str(pointer.flowId)
      && ("filename" in a <==> pointer.filename.Some?)
      && ("filename" in a ==> Get(a, "filename") == TextJson(pointer.filename))
      && ("fid" in a <==> pointer.fid.Some?)
      && ("fid" in a ==> Get(a, "fid") == TextJson(pointer.fid))
      && ("flow_commit" in a <==> HasCommit(pointer))
      && ("flow_commit" in a ==> Get(a, "flow_commit") == TextJson(pointer.flowCommit))
      && Get(a, "flow_commit") == TextJson(pointer.flowCommit)
  {
    hide WithField, StepArguments, TextJson, Get;
    StepArgumentGets(pointer.flowId, index, command, rewindSteps, mode);
    var step := StepArguments(pointer.flowId, index, command, rewindSteps, mode);
    WithFieldGets(step, "filename", pointer.filename.Some?, TextJson(pointer.filename));
    var named := WithField(step, "filename", pointer.filename.Some?, TextJson(pointer.filename));
    WithFieldGets(named, "fid", pointer.fid.Some?, TextJson(pointer.fid));
    var identified := WithField(named, "fid", pointer.fid.Some?, TextJson(pointer.fid));
    WithFieldGets(identified, "flow_commit", HasCommit(pointer), TextJson(pointer.flowCommit));
    NoCommit(pointer, ArgumentsFor(pointer, index, command, rewindSteps, mode));
  }

  lemma NoCommit(pointer: FlowPointer, a: map<string, Json>)
    ensures "flow_commit" !in a && !HasCommit(pointer) ==> Get(a, "flow_commit") == TextJson(pointer.flowCommit)
  {
  }

  lemma WithArgumentsGets(raw: map<string, Json>, arguments: map<string, Json>, names: seq<Json>, continuation: Json)
    requires "arguments" in raw && "continuation_context" in raw
    ensures
      var t := WithArguments(raw, arguments, names, continuation);
      && t.Keys == raw.Keys
      && t["arguments"] == Obj(arguments) && t["continuation_context"] == continuation
      && ("arguments_effective" in t ==> t["arguments_effective"] == Obj(arguments))
      && ("explicit_arguments" in t ==> t["explicit_arguments"] == Arr(names))
      && Get(t, "command") == Get(raw, "command") && Get(t, "title") == Get(raw, "title")
      && Get(t, "retry_context") == Get(raw, "retry_context")
  {
  }

  /** Writing the same values a second time changes nothing. */
  lemma WithArgumentsIdempotent(raw: map<string, Json>, arguments: map<string, Json>, names: seq<Json>, continuation: Json)
    requires "arguments" in raw && "continuation_context" in raw
    ensures
      var t := WithArguments(raw, arguments, names, continuation);
      WithArguments(t, arguments, names, continuation) == t
  {
  }

  // ---------------------------------------------------------------- what a successful rebind is

  /** The parts of a modern rebind. */
  ghost predicate IsRebinding(
      actions: seq<Json>, plan: Plan, pointer: FlowPointer, measure: Measure, rebound: seq<Json>,
      current: Context, target: Context, arguments: map<string, Json>)
  {
    && plan.terminal.ResumeFlow? && actions != [] && actions[|actions| - 1].Obj?
    && pointer.actionIndex.Some? && pointer.actionCommand.Some?
    && FlowContexts(pointer.raw).Some?
    && var contexts := FlowContexts(pointer.raw).value;
    ContextAt(contexts, pointer.actionIndex.value) == Some(current)
    && ContextAt(contexts, pointer.actionIndex.value - plan.terminal.rewindSteps) == Some(target)
    && SamePlace(plan.terminal.current, current) && SamePlace(plan.terminal.target, target)
    && GuardedArguments(pointer, plan.terminal.rewindSteps, plan.terminal.mode) == Some(arguments)
    && rebound == actions[|actions| - 1 := Obj(WithArguments(
         actions[|actions| - 1].fields, arguments, ArgumentNames(pointer), ContinuationFor(arguments, current, target)))]
    && ParsePlan(rebound, measure).Some? && FitsFlow(ParsePlan(rebound, measure).value, pointer)
  }

  lemma RebindParts(
      actions: seq<Json>, flow: Json, flowId: string, actionIndex: int, actionCommand: string, measure: Measure)
    returns (current: Context, target: Context, arguments: map<string, Json>)
    requires Rebind(actions, flow, flowId, actionIndex, actionCommand, measure).Some?
    requires ParsePlan(actions, measure).value.terminal.ResumeFlow?
    ensures
      var pointer := SnapshotPointer(flow, flowId, actionIndex, actionCommand);
      && pointer.Some?
      && IsRebinding(
           actions, ParsePlan(actions, measure).value, pointer.value, measure,
           Rebind(actions, flow, flowId, actionIndex, actionCommand, measure).value, current, target, arguments)
  {
    hide ParsePlan, FlowContexts, ContextAt, WithArguments, ArgumentNames, ContinuationFor, FitsFlow, SamePlace, ParseFlowPointer;
    hide AreActionsOk, ParseTerminal, IsCorrection, CorrectionOf, ArgumentsFor;
    PlanParts(actions, measure);
    var pointer := SnapshotPointer(flow, flowId, actionIndex, actionCommand).value;
    var plan := ParsePlan(actions, measure).value;
    var contexts := FlowContexts(pointer.raw).value;
    current := ContextAt(contexts, actionIndex).value;
    target := ContextAt(contexts, actionIndex - plan.terminal.rewindSteps).value;
    arguments := GuardedArguments(pointer, plan.terminal.rewindSteps, plan.terminal.mode).value;
  }

  lemma PlanParts(actions: seq<Json>, measure: Measure)
    requires ParsePlan(actions, measure).Some?
    ensures
      var plan, last := ParsePlan(actions, measure).value, |actions| - 1;
      && 1 <= |actions| <= MAX_ACTIONS
      && AreActionsOk(actions, measure)
      && IsTerminalCommand(CommandOf(actions[last]))
      && actions[last].Obj? && Get(actions[last].fields, "arguments").Obj?
      && ParseTerminal(actions[last]) == Some(plan.terminal)
      && (forall i | 0 <= i < last :: IsCorrection(actions[i]) && Get(actions[i].fields, "arguments").Obj?)
      && (forall i | 0 <= i < last :: plan.corrections[i] == CorrectionOf(actions[i]))
  {
    hide IsBounded, IsProvenanceOk, IsExplicitOk, CorrectionOf, ParseTerminal, IsOptionalText, RequiredText;
    assert forall i | 0 <= i < |actions| :: IsActionOk(actions[i], measure);
  }

  /** A modern terminal carries exactly its own arguments, and a continuation. */
  lemma TerminalParts(action: Json)
    requires action.Obj? && Get(action.fields, "arguments").Obj? && ParseTerminal(action).Some?
    requires ParseTerminal(action).value.ResumeFlow?
    ensures
      var t, raw := ParseTerminal(action).value, action.fields;
      && "arguments" in raw && "continuation_context" in raw && Get(raw, "continuation_context").Obj?
      && Get(raw, "retry_context").Null?
      && raw["arguments"] == Obj(t.arguments) && AreResumeArguments(t.arguments)
      && t.rewindSteps == t.arguments["rewind_steps"].n && Str(t.mode) == t.arguments["mode"]
      && t.target.actionIndex == t.current.actionIndex - t.rewindSteps
      && Int(t.current.actionIndex) == t.arguments["current_action_index"]
      && Str(t.current.command) == t.arguments["current_command"]
  {
    hide AreResumeArguments, ParseContext, ParseRerun, RequiredText;
    ResumeArgumentKinds(action.fields["arguments"].fields);
  }

  lemma ResumeArgumentKinds(arguments: map<string, Json>)
    requires AreResumeArguments(arguments)
    ensures "mode" in arguments && arguments["mode"].Str?
    ensures "rewind_steps" in arguments && arguments["rewind_steps"].Int?
    ensures "current_action_index" in arguments && "current_command" in arguments
  {
  }

  // ---------------------------------------------------------------- theorems

  /** A rebound plan parses again, keeps every correction, and for a legacy plan is the plan itself. */
  lemma RebindKeepsCorrections(
      actions: seq<Json>, flow: Json, flowId: string, actionIndex: int, actionCommand: string, measure: Measure)
    requires Rebind(actions, flow, flowId, actionIndex, actionCommand, measure).Some?
    ensures
      var rebound := Rebind(actions, flow, flowId, actionIndex, actionCommand, measure).value;
      var before, after := ParsePlan(actions, measure), ParsePlan(rebound, measure);
      && |rebound| == |actions| && rebound[..|actions| - 1] == actions[..|actions| - 1]
      && before.Some? && after.Some? && after.value.corrections == before.value.corrections
      && (before.value.terminal.Rerun? ==> rebound == actions)
  {
    hide ParsePlan, Rebind, IsCorrection, CorrectionOf, ParseTerminal, AreActionsOk, WithArguments, ArgumentNames;
    hide ContinuationFor, FlowContexts, ContextAt, FitsFlow, GuardedArguments, SnapshotPointer;
    RebindLegacy(actions, flow, flowId, actionIndex, actionCommand, measure);
    PlanParts(actions, measure);
    if ParsePlan(actions, measure).value.terminal.ResumeFlow? {
      var rebound := Rebind(actions, flow, flowId, actionIndex, actionCommand, measure).value;
      var _, _, _ := RebindParts(actions, flow, flowId, actionIndex, actionCommand, measure);
      PlanParts(rebound, measure);
      assert forall i | 0 <= i < |actions| - 1 :: rebound[i] == actions[i];
    }
  }

  lemma RebindLegacy(
      actions: seq<Json>, flow: Json, flowId: string, actionIndex: int, actionCommand: string, measure: Measure)
    requires Rebind(actions, flow, flowId, actionIndex, actionCommand, measure).Some?
    ensures
      var pointer, plan := SnapshotPointer(flow, flowId, actionIndex, actionCommand), ParsePlan(actions, measure);
      plan.Some? && pointer.Some?
      && (plan.value.terminal.Rerun? ==>
            Rebind(actions, flow, flowId, actionIndex, actionCommand, measure) == Some(actions)
            && FitsFlow(plan.value, pointer.value))
  {
    hide ParsePlan, RebindTerminal, SnapshotPointer, FitsFlow;
  }

  /** The terminal of a rebound modern plan, read back. */
  lemma ReboundTerminal(
      actions: seq<Json>, plan: Plan, pointer: FlowPointer, measure: Measure, rebound: seq<Json>,
      current: Context, target: Context, arguments: map<string, Json>)
    requires plan.terminal.ResumeFlow? && ParsePlan(actions, measure) == Some(plan)
    requires IsRebinding(actions, plan, pointer, measure, rebound, current, target, arguments)
    ensures
      var again := ParsePlan(rebound, measure);
      again.Some? && again.value.terminal == ResumeFlow(arguments, plan.terminal.rewindSteps, plan.terminal.mode, current, target)
  {
    hide ParsePlan, FlowContexts, ContextAt, WithArguments, ArgumentNames, ContinuationFor, ParseTerminal, AreActionsOk;
    hide ArgumentsFor, IsCorrection;
    PlanParts(actions, measure);
    PlanParts(rebound, measure);
    var last := |actions| - 1;
    TerminalParts(actions[last]);
    WithArgumentsGets(
      actions[last].fields, arguments, ArgumentNames(pointer), ContinuationFor(arguments, current, target));
    SameCommandTerminal(actions[last], rebound[last]);
    TerminalParts(rebound[last]);
    ArgumentGets(
      pointer, pointer.actionIndex.value, pointer.actionCommand.value, plan.terminal.rewindSteps, plan.terminal.mode);
  }

  lemma SameCommandTerminal(a: Json, b: Json)
    requires a.Obj? && b.Obj? && Get(a.fields, "arguments").Obj? && Get(b.fields, "arguments").Obj?
    requires Get(a.fields, "command") == Get(b.fields, "command")
    requires ParseTerminal(a).Some? && ParseTerminal(b).Some?
    ensures ParseTerminal(a).value.ResumeFlow? == ParseTerminal(b).value.ResumeFlow?
  {
    hide AreResumeArguments, ParseContext;
  }

  /** Another pointer of the same run: the same identity and step, and the same enabled action tree. */
  predicate IsSameRun(live: FlowPointer, captured: FlowPointer) {
    && live.completed == captured.completed && live.flowId == captured.flowId
    && live.actionIndex == captured.actionIndex && live.actionCommand == captured.actionCommand
    && live.filename == captured.filename && live.fid == captured.fid && live.flowCommit == captured.flowCommit
    && FlowContexts(live.raw) == FlowContexts(captured.raw)
  }

  lemma FitsSameRun(plan: Plan, captured: FlowPointer, live: FlowPointer)
    requires FitsFlow(plan, captured) && IsSameRun(live, captured)
    ensures FitsFlow(plan, live)
    ensures FitsStep(plan, captured.actionIndex.value, captured.actionCommand.value)
  {
    hide FlowContexts, NextContext;
  }

  /** Arguments built for a pointer match every pointer of the same run. */
  lemma BuiltArgumentsMatch(captured: FlowPointer, live: FlowPointer, index: int, command: string, rewindSteps: int, mode: string)
    requires captured.actionIndex == Some(index) && captured.actionCommand == Some(command)
    requires IsSameRun(live, captured)
    ensures MatchesPointer(ArgumentsFor(captured, index, command, rewindSteps, mode), live)
  {
    hide ArgumentsFor, FlowContexts;
    ArgumentGets(captured, index, command, rewindSteps, mode);
    PyEqualReflexive(Int(index));
  }

  lemma LegacyArguments(plan: Plan, live: FlowPointer)
    requires plan.terminal.Rerun? && FitsFlow(plan, live)
    ensures ResumeArguments(plan, live).Some?
  {
    hide FlowContexts, FitsContexts, ArgumentsFor;
  }

  /**
   A successful rebind passes every execution-time guard on any live pointer of the same run, and a modern plan then
   sends exactly the arguments the rebind wrote.
   */
  lemma RebindPassesGuards(
      actions: seq<Json>, flow: Json, flowId: string, actionIndex: int, actionCommand: string, measure: Measure,
      live: FlowPointer)
    requires Rebind(actions, flow, flowId, actionIndex, actionCommand, measure).Some?
    requires IsSameRun(live, SnapshotPointer(flow, flowId, actionIndex, actionCommand).value)
    ensures
      var rebound := Rebind(actions, flow, flowId, actionIndex, actionCommand, measure).value;
      ParsePlan(rebound, measure).Some?
      && var plan := ParsePlan(rebound, measure).value;
      FitsStep(plan, actionIndex, actionCommand) && FitsFlow(plan, live) && ResumeArguments(plan, live).Some?
      && (plan.terminal.ResumeFlow? ==> ResumeArguments(plan, live) == Some(plan.terminal.arguments))
  {
    hide ParsePlan, Rebind, IsSameRun, FitsFlow, FitsStep, MatchesPointer, GuardedArguments, FlowContexts, ContextAt;
    hide WithArguments, ArgumentNames, ContinuationFor, ArgumentsFor, ParseFlowPointer;
    RebindLegacy(actions, flow, flowId, actionIndex, actionCommand, measure);
    var captured := SnapshotPointer(flow, flowId, actionIndex, actionCommand).value;
    var before := ParsePlan(actions, measure);
    if before.value.terminal.Rerun? {
      FitsSameRun(before.value, captured, live);
      LegacyArguments(before.value, live);
    } else {
      var rebound := Rebind(actions, flow, flowId, actionIndex, actionCommand, measure).value;
      var current, target, arguments := RebindParts(actions, flow, flowId, actionIndex, actionCommand, measure);
      ReboundTerminal(actions, before.value, captured, measure, rebound, current, target, arguments);
      FitsSameRun(ParsePlan(rebound, measure).value, captured, live);
      ArgumentsAreBuilt(captured, before.value.terminal.rewindSteps, before.value.terminal.mode);
      BuiltArgumentsMatch(
        captured, live, actionIndex, actionCommand, before.value.terminal.rewindSteps, before.value.terminal.mode);
    }
  }

  lemma ArgumentsAreBuilt(pointer: FlowPointer, rewindSteps: int, mode: string)
    requires GuardedArguments(pointer, rewindSteps, mode).Some?
    ensures pointer.actionIndex.Some? && pointer.actionCommand.Some?
    ensures GuardedArguments(pointer, rewindSteps, mode)
      == Some(ArgumentsFor(pointer, pointer.actionIndex.value, pointer.actionCommand.value, rewindSteps, mode))
  {
  }

  /** Rebinding a second time to the same snapshot changes nothing. */
  lemma RebindIsFixedPoint(
      actions: seq<Json>, flow: Json, flowId: string, actionIndex: int, actionCommand: string, measure: Measure)
    requires Rebind(actions, flow, flowId, actionIndex, actionCommand, measure).Some?
    ensures
      var rebound := Rebind(actions, flow, flowId, actionIndex, actionCommand, measure);
      Rebind(rebound.value, flow, flowId, actionIndex, actionCommand, measure) == rebound
  {
    hide ParsePlan, Rebind, FitsFlow, FlowContexts, ContextAt, GuardedArguments;
    hide WithArguments, ArgumentNames, ContinuationFor, ParseFlowPointer, SamePlace;
    RebindLegacy(actions, flow, flowId, actionIndex, actionCommand, measure);
    var pointer := SnapshotPointer(flow, flowId, actionIndex, actionCommand).value;
    var before := ParsePlan(actions, measure);
    if before.value.terminal.ResumeFlow? {
      var rebound := Rebind(actions, flow, flowId, actionIndex, actionCommand, measure).value;
      var current, target, arguments := RebindParts(actions, flow, flowId, actionIndex, actionCommand, measure);
      ReboundTerminal(actions, before.value, pointer, measure, rebound, current, target, arguments);
      SecondRebind(actions, before.value, pointer, measure, rebound, current, target, arguments);
      RebindModern(rebound, flow, flowId, actionIndex, actionCommand, measure);
    }
  }

  lemma RebindModern(
      actions: seq<Json>, flow: Json, flowId: string, actionIndex: int, actionCommand: string, measure: Measure)
    requires SnapshotPointer(flow, flowId, actionIndex, actionCommand).Some?
    requires ParsePlan(actions, measure).Some? && ParsePlan(actions, measure).value.terminal.ResumeFlow?
    ensures actions != [] && actions[|actions| - 1].Obj?
    ensures Rebind(actions, flow, flowId, actionIndex, actionCommand, measure) == RebindTerminal(
      actions, ParsePlan(actions, measure).value, SnapshotPointer(flow, flowId, actionIndex, actionCommand).value, measure)
  {
    hide ParsePlan, RebindTerminal, ParseFlowPointer, AreActionsOk, ParseTerminal, IsCorrection, CorrectionOf;
    PlanParts(actions, measure);
  }

  lemma SecondRebind(
      actions: seq<Json>, plan: Plan, pointer: FlowPointer, measure: Measure, rebound: seq<Json>,
      current: Context, target: Context, arguments: map<string, Json>)
    requires plan.terminal.ResumeFlow? && ParsePlan(actions, measure) == Some(plan)
    requires IsRebinding(actions, plan, pointer, measure, rebound, current, target, arguments)
    requires ParsePlan(rebound, measure).value.terminal
      == ResumeFlow(arguments, plan.terminal.rewindSteps, plan.terminal.mode, current, target)
    ensures rebound[|rebound| - 1].Obj?
    ensures RebindTerminal(rebound, ParsePlan(rebound, measure).value, pointer, measure) == Some(rebound)
  {
    hide ParsePlan, FitsFlow, FlowContexts, ContextAt, GuardedArguments, ParseTerminal, AreActionsOk, IsCorrection;
    hide WithArguments, ArgumentNames, ContinuationFor, CorrectionOf;
    var last := |actions| - 1;
    PlanParts(actions, measure);
    TerminalParts(actions[last]);
    WithArgumentsIdempotent(
      actions[last].fields, arguments, ArgumentNames(pointer), ContinuationFor(arguments, current, target));
    assert ContextAt(FlowContexts(pointer.raw).value, pointer.actionIndex.value - plan.terminal.rewindSteps) == Some(target);
    assert rebound[last := rebound[last]] == rebound;
  }

  /**
   An accepted acknowledgement of a fitting modern plan confirms the very step the plan was stored for, and the very
   target it was to resume at.
   */
  lemma AcknowledgementConfirmsThePlan(plan: Plan, pointer: FlowPointer, ack: Json)
    requires plan.terminal.ResumeFlow? && FitsFlow(plan, pointer)
    requires IsAcknowledged(ack, pointer, plan.terminal.rewindSteps, plan.terminal.mode)
    ensures
      var t := plan.terminal;
      && PyEqual(Get(ack.fields, "previous_action_index"), Int(t.current.actionIndex))
      && Get(ack.fields, "current_command") == Str(t.current.command)
      && PyEqual(Get(ack.fields, "target_action_index"), Int(t.target.actionIndex))
      && Some(t.target) == ContextAt(FlowContexts(pointer.raw).value, t.target.actionIndex)
  {
    hide FlowContexts, PyEqual;
  }
}
