/** The exact condition under which a remembered modern plan can be bound to a failure's Flow. */
module RecoveryRebindable {
  import opened Text
  import opened Json
  import opened Contracts
  import opened FlowPointers
  import FlowOutcome
  import opened RecoveryLifecycle
  import opened RecoveryPlan
  import opened RecoveryRebinding
  import EpisodeEvidence

  predicate IsShort(text: Option<string>) {
    text.Some? ==> |text.value| <= 300
  }

  /**
   The live steps are the remembered ones, the Flow's identity texts are short and do not contradict each other, and
   the fresh argument text is not too large.
   */
  predicate IsRebindable(plan: Plan, pointer: FlowPointer, measure: Measure)
    requires plan.terminal.ResumeFlow? && pointer.actionIndex.Some? && pointer.actionCommand.Some?
  {
    var t, index, command := plan.terminal, pointer.actionIndex.value, pointer.actionCommand.value;
    FlowContexts(pointer.raw).Some?
    && var contexts := FlowContexts(pointer.raw).value;
    var current, target := ContextAt(contexts, index), ContextAt(contexts, index - t.rewindSteps);
    && current.Some? && target.Some?
    && SamePlace(t.current, current.value) && SamePlace(t.target, target.value) && current.value.command == command
    && IsShort(Some(pointer.flowId)) && IsShort(pointer.filename) && IsShort(pointer.fid) && IsShort(pointer.flowCommit)
    && (pointer.filename.Some? && pointer.fid.Some? ==> pointer.filename == pointer.fid)
    && measure(ArgumentsFor(pointer, index, command, t.rewindSteps, t.mode)) <= MAX_ARGUMENT_BYTES
  }

  // ---------------------------------------------------------------- the built arguments

  predicate AreScalars(fields: map<string, Json>) {
    forall k <- fields :: EpisodeEvidence.IsScalar(fields[k])
  }

  predicate AreNames(names: seq<Json>, fields: map<string, Json>) {
    && AreDistinct(names)
    && (forall name <- names :: IsArgumentName(name) && name.s in fields)
    && (forall k <- fields :: Str(k) in names)
  }

  lemma WithFieldKeeps(names: seq<Json>, fields: map<string, Json>, key: string, present: bool, value: Json)
    requires AreNames(names, fields) && AreScalars(fields) && key !in fields && EpisodeEvidence.IsScalar(value)
    requires IsArgumentName(Str(key))
    ensures AreNames(WithName(names, key, present), WithField(fields, key, present, value))
    ensures AreScalars(WithField(fields, key, present, value))
  {
    hide IsArgumentName;
    if present {
      var more := names + [Str(key)];
      assert forall name <- more :: name in names || name == Str(key);
      forall k <- fields[key := value] ensures Str(k) in more {
        assert k == key || Str(k) in names;
        assert more[|names|] == Str(key);
      }
    }
  }

  lemma TrimmedName(name: string)
    requires 0 < |name| <= MAX_COMMAND_LENGTH && IsTrimmed(name)
    ensures IsArgumentName(Str(name))
  {
    StripTrims(name);
  }

  lemma StepNamesDistinct()
    ensures AreDistinct(StepNames())
  {
  }

  lemma StepNameTexts()
    ensures IsArgumentName(Str("mode")) && IsArgumentName(Str("rewind_steps"))
    ensures IsArgumentName(Str("current_action_index")) && IsArgumentName(Str("current_command"))
    ensures IsArgumentName(Str("flow_id"))
  {
    hide IsArgumentName;
    TrimmedName("mode");
    TrimmedName("rewind_steps");
    TrimmedName("current_action_index");
    TrimmedName("current_command");
    TrimmedName("flow_id");
  }

  lemma StepNamesNamed(name: Json)
    requires name in StepNames()
    ensures IsArgumentName(name)
  {
    hide IsArgumentName;
    StepNameTexts();
  }

  lemma StepNamesCover(k: string)
    requires k in {"mode", "rewind_steps", "current_action_index", "current_command", "flow_id"}
    ensures Str(k) in StepNames()
  {
  }

  lemma StepNamesKnown(name: Json)
    requires name in StepNames()
    ensures name.Str? && name.s in {"mode", "rewind_steps", "current_action_index", "current_command", "flow_id"}
  {
  }

  lemma StepScalars(flowId: string, index: int, command: string, rewindSteps: int, mode: string)
    ensures AreScalars(StepArguments(flowId, index, command, rewindSteps, mode))
  {
    hide StepArguments;
    StepArgumentGets(flowId, index, command, rewindSteps, mode);
    var fields := StepArguments(flowId, index, command, rewindSteps, mode);
    forall k <- fields ensures EpisodeEvidence.IsScalar(fields[k]) {
      assert Get(fields, k) == fields[k];
    }
  }

  lemma StepNamesFit(flowId: string, index: int, command: string, rewindSteps: int, mode: string)
    ensures AreNames(StepNames(), StepArguments(flowId, index, command, rewindSteps, mode))
    ensures AreScalars(StepArguments(flowId, index, command, rewindSteps, mode))
  {
    hide StepNames, IsArgumentName, AreDistinct, StepArguments, AreScalars;
    StepArgumentGets(flowId, index, command, rewindSteps, mode);
    StepScalars(flowId, index, command, rewindSteps, mode);
    StepNamesDistinct();
    var fields := StepArguments(flowId, index, command, rewindSteps, mode);
    forall name <- StepNames() ensures IsArgumentName(name) && name.Str? && name.s in fields {
      StepNamesNamed(name);
      StepNamesKnown(name);
    }
    forall k <- fields ensures Str(k) in StepNames() {
      StepNamesCover(k);
    }
  }

  lemma OptionalNames()
    ensures IsArgumentName(Str("filename")) && IsArgumentName(Str("fid")) && IsArgumentName(Str("flow_commit"))
  {
    TrimmedName("filename");
    TrimmedName("fid");
    TrimmedName("flow_commit");
    hide IsArgumentName;
  }

  lemma TextIsScalar(text: Option<string>)
    ensures EpisodeEvidence.IsScalar(TextJson(text))
  {
  }

  lemma BuiltNames(pointer: FlowPointer, index: int, command: string, rewindSteps: int, mode: string)
    ensures AreNames(ArgumentNames(pointer), ArgumentsFor(pointer, index, command, rewindSteps, mode))
    ensures AreScalars(ArgumentsFor(pointer, index, command, rewindSteps, mode))
  {
    hide AreNames, AreScalars, WithField, WithName, IsArgumentName, StepArguments, StepNames, TextJson, HasCommit, EpisodeEvidence.IsScalar;
    var step := StepArguments(pointer.flowId, index, command, rewindSteps, mode);
    StepNamesFit(pointer.flowId, index, command, rewindSteps, mode);
    StepArgumentGets(pointer.flowId, index, command, rewindSteps, mode);
    OptionalNames();
    TextIsScalar(pointer.filename);
    TextIsScalar(pointer.fid);
    TextIsScalar(pointer.flowCommit);
    var filename, fid := TextJson(pointer.filename), TextJson(pointer.fid);
    WithFieldKeeps(StepNames(), step, "filename", pointer.filename.Some?, filename);
    WithFieldGets(step, "filename", pointer.filename.Some?, filename);
    var named := WithField(step, "filename", pointer.filename.Some?, filename);
    var moreNames := WithName(StepNames(), "filename", pointer.filename.Some?);
    WithFieldKeeps(moreNames, named, "fid", pointer.fid.Some?, fid);
    WithFieldGets(named, "fid", pointer.fid.Some?, fid);
    WithFieldKeeps(
      WithName(moreNames, "fid", pointer.fid.Some?), WithField(named, "fid", pointer.fid.Some?, fid), "flow_commit",
      HasCommit(pointer), TextJson(pointer.flowCommit));
  }

  lemma {:induction false} FlatNodes(value: Json, keys: set<string>)
    requires value.Obj? && AreScalars(value.fields) && keys <= value.fields.Keys
    ensures NodesOfFields(value, keys) == |keys|
    decreases |keys|
  {
    if keys != {} {
      var k :| k in keys;
      NodesOfFieldsRemove(value, keys, k);
      FlatNodes(value, keys - {k});
      assert Nodes(value.fields[k]) == 1;
    }
  }

  lemma SubsetCardinality(a: set<string>, b: set<string>)
    requires a <= b
    ensures |a| <= |b|
  {
    assert b == a + (b - a);
  }

  lemma FlatIsBounded(fields: map<string, Json>)
    requires AreScalars(fields) && fields.Keys <= AllowedResumeArguments()
    ensures IsBounded(Obj(fields))
  {
    FlatNodes(Obj(fields), fields.Keys);
    SubsetCardinality(fields.Keys, AllowedResumeArguments());
    AllowedCount();
    hide AllowedResumeArguments;
    forall k <- fields ensures IsWithinDepth(fields[k], MAX_JSON_DEPTH as int - 1) {
      assert EpisodeEvidence.IsScalar(fields[k]);
    }
    assert Nodes(Obj(fields)) == 1 + NodesOfFields(Obj(fields), fields.Keys);
  }

  lemma AllowedCount()
    ensures |AllowedResumeArguments()| <= 8
  {
    var front := {"mode", "rewind_steps", "current_action_index", "current_command"};
    var back := {"flow_id", "filename", "fid", "flow_commit"};
    assert AllowedResumeArguments() == front + back;
    assert |front| <= 4 && |back| <= 4;
  }

  lemma JsonEqualScalar(value: Json)
    requires EpisodeEvidence.IsScalar(value)
    ensures JsonEqual(value, value)
  {
  }

  // ---------------------------------------------------------------- the rebound action passes

  lemma TextOfTrimmed(value: Json, maxLength: nat)
    requires TextOf(value).Some? && |TextOf(value).value| <= maxLength
    ensures RequiredText(Str(TextOf(value).value), maxLength).Some?
  {
    StripTrims(value.s);
    StripTrims(Strip(value.s));
  }

  lemma PointerTexts(flow: Json, flowId: string, actionIndex: int, actionCommand: string)
    requires SnapshotPointer(flow, flowId, actionIndex, actionCommand).Some?
    ensures
      var p := SnapshotPointer(flow, flowId, actionIndex, actionCommand).value;
      && (|p.flowId| <= 300 ==> RequiredText(Str(p.flowId), 300).Some?)
      && (p.filename.Some? && |p.filename.value| <= 300 ==> RequiredText(Str(p.filename.value), 300).Some?)
      && (p.fid.Some? && |p.fid.value| <= 300 ==> RequiredText(Str(p.fid.value), 300).Some?)
      && (p.flowCommit.Some? && |p.flowCommit.value| <= 300 ==> RequiredText(Str(p.flowCommit.value), 300).Some?)
  {
    var p := SnapshotPointer(flow, flowId, actionIndex, actionCommand).value;
    var fields := flow.fields;
    SnapshotTexts(flow, flowId, actionIndex, actionCommand);
    hide SnapshotPointer, TextOf, RequiredText;
    if |p.flowId| <= 300 {
      if TextOf(Get(fields, "id")) == Some(p.flowId) {
        TextOfTrimmed(Get(fields, "id"), 300);
      } else if TextOf(Get(fields, "filename")) == Some(p.flowId) {
        TextOfTrimmed(Get(fields, "filename"), 300);
      } else {
        TextOfTrimmed(Get(fields, "fid"), 300);
      }
    }
    if p.filename.Some? && |p.filename.value| <= 300 {
      TextOfTrimmed(Get(fields, "filename"), 300);
    }
    if p.fid.Some? && |p.fid.value| <= 300 {
      TextOfTrimmed(Get(fields, "fid"), 300);
    }
    if p.flowCommit.Some? && |p.flowCommit.value| <= 300 {
      TextOfTrimmed(Get(fields, "flow_commit"), 300);
    }
  }

  lemma SnapshotTexts(flow: Json, flowId: string, actionIndex: int, actionCommand: string)
    requires SnapshotPointer(flow, flowId, actionIndex, actionCommand).Some?
    ensures
      var p := SnapshotPointer(flow, flowId, actionIndex, actionCommand).value;
      flow.Obj? && p.filename == TextOf(Get(flow.fields, "filename")) && p.fid == TextOf(Get(flow.fields, "fid"))
      && p.flowCommit == TextOf(Get(flow.fields, "flow_commit"))
      && (Some(p.flowId) == TextOf(Get(flow.fields, "id")) || Some(p.flowId) == TextOf(Get(flow.fields, "filename"))
          || Some(p.flowId) == TextOf(Get(flow.fields, "fid")))
  {
    hide TextOf, CurrentAction, IsPastLastAction, FlowOutcome.StatusOf, IntegerOf;
  }

  lemma BuiltArgumentsAccepted(plan: Plan, pointer: FlowPointer, current: Context, measure: Measure)
    requires plan.terminal.ResumeFlow? && pointer.actionIndex.Some? && pointer.actionCommand.Some?
    requires IsRebindable(plan, pointer, measure) && AreResumeArguments(plan.terminal.arguments)
    requires plan.terminal.arguments["rewind_steps"] == Int(plan.terminal.rewindSteps)
    requires plan.terminal.arguments["mode"] == Str(plan.terminal.mode)
    requires IsBoundedContext(current) && current.actionIndex == pointer.actionIndex.value
    requires current.command == pointer.actionCommand.value
    requires RequiredText(Str(pointer.flowId), 300).Some?
    requires pointer.filename.Some? ==> RequiredText(Str(pointer.filename.value), 300).Some?
    requires pointer.fid.Some? ==> RequiredText(Str(pointer.fid.value), 300).Some?
    requires pointer.flowCommit.Some? ==> RequiredText(Str(pointer.flowCommit.value), 300).Some?
    ensures AreResumeArguments(ArgumentsFor(
      pointer, pointer.actionIndex.value, pointer.actionCommand.value, plan.terminal.rewindSteps, plan.terminal.mode))
  {
    hide ArgumentsFor, RequiredText, FlowContexts, ContextAt, SamePlace, HasCommit, AllowedResumeArguments;
    ResumeArgumentKinds(plan.terminal.arguments);
    ArgumentGets(
      pointer, pointer.actionIndex.value, pointer.actionCommand.value, plan.terminal.rewindSteps, plan.terminal.mode);
  }

  lemma ReboundActionOk(
      action: Json, arguments: map<string, Json>, names: seq<Json>, continuation: Json, measure: Measure)
    requires IsActionOk(action, measure) && "arguments" in action.fields && "continuation_context" in action.fields
    requires AreNames(names, arguments) && AreScalars(arguments) && arguments.Keys <= AllowedResumeArguments()
    requires measure(arguments) <= MAX_ARGUMENT_BYTES
    ensures IsActionOk(Obj(WithArguments(action.fields, arguments, names, continuation)), measure)
  {
    hide WithArguments, IsArgumentName, RequiredText, AllowedActionFields, AllowedResumeArguments, IsBounded;
    var raw := action.fields;
    WithArgumentsGets(raw, arguments, names, continuation);
    FlatIsBounded(arguments);
    var t := WithArguments(raw, arguments, names, continuation);
    assert IsProvenanceOk(t, arguments) by { ProvenanceOk(t, arguments, names); }
    assert IsExplicitOk(t, arguments);
    assert "title" in t ==> t["title"] == raw["title"];
    hide IsProvenanceOk, IsExplicitOk;
  }

  lemma ProvenanceOk(t: map<string, Json>, arguments: map<string, Json>, names: seq<Json>)
    requires "arguments_effective" in t ==> t["arguments_effective"] == Obj(arguments)
    requires "explicit_arguments" in t ==> t["explicit_arguments"] == Arr(names)
    requires AreNames(names, arguments) && AreScalars(arguments) && IsBounded(Obj(arguments))
    ensures IsProvenanceOk(t, arguments)
  {
    hide IsBounded, IsArgumentName, JsonEqual;
    forall k <- arguments ensures Repeats(arguments, arguments, k) {
      JsonEqualScalar(arguments[k]);
    }
    assert forall name <- names :: IsArgumentName(name) ==> name.Str? by { NamesAreText(names); }
  }

  lemma NamesAreText(names: seq<Json>)
    ensures forall name <- names :: IsArgumentName(name) ==> name.Str?
  {
  }

  /** With sound parts, the rebound terminal parses. */
  lemma ReboundTerminalParses(
      action: Json, arguments: map<string, Json>, names: seq<Json>, current: Context, target: Context,
      rewindSteps: int, mode: string)
    requires action.Obj? && Get(action.fields, "arguments").Obj? && CommandOf(action) != "$rerun"
    requires "arguments" in action.fields && "continuation_context" in action.fields
    requires Get(action.fields, "retry_context").Null?
    requires AreResumeArguments(arguments) && IsBoundedContext(current) && IsBoundedContext(target)
    requires "current_action_index" in arguments && "current_command" in arguments
    requires "mode" in arguments && "rewind_steps" in arguments
    requires arguments["current_action_index"] == Int(current.actionIndex)
    requires arguments["current_command"] == Str(current.command)
    requires arguments["mode"] == Str(mode) && arguments["rewind_steps"] == Int(rewindSteps)
    requires target.actionIndex == current.actionIndex - rewindSteps
    requires mode == "retry_current" ==> target == current
    ensures
      var t := WithArguments(action.fields, arguments, names, ContinuationFor(arguments, current, target));
      "arguments" in t && t["arguments"] == Obj(arguments)
      && ParseTerminal(Obj(t)) == Some(ResumeFlow(arguments, rewindSteps, mode, current, target))
  {
    hide WithArguments, ContinuationFor, AreResumeArguments, IsBoundedContext, ContextPayload, ParseContext;
    var continuation := ContinuationFor(arguments, current, target);
    WithArgumentsGets(action.fields, arguments, names, continuation);
    ContinuationGets(arguments, current, target);
    PayloadParses(current);
    PayloadParses(target);
    PyEqualReflexive(Obj(arguments));
    hide PyEqual;
  }

  // ---------------------------------------------------------------- the condition is exact

  /** The rebound terminal of a rebindable plan is acceptable and reads back as the live steps. */
  lemma ReboundTerminalOk(actions: seq<Json>, plan: Plan, pointer: FlowPointer, measure: Measure, current: Context,
      target: Context, arguments: map<string, Json>)
    requires ParsePlan(actions, measure) == Some(plan) && plan.terminal.ResumeFlow?
    requires pointer.actionIndex.Some? && pointer.actionCommand.Some?
    requires arguments == ArgumentsFor(
      pointer, pointer.actionIndex.value, pointer.actionCommand.value, plan.terminal.rewindSteps, plan.terminal.mode)
    requires AreResumeArguments(arguments) && measure(arguments) <= MAX_ARGUMENT_BYTES
    requires IsBoundedContext(current) && IsBoundedContext(target)
    requires current.actionIndex == pointer.actionIndex.value && current.command == pointer.actionCommand.value
    requires target.actionIndex == current.actionIndex - plan.terminal.rewindSteps
    requires plan.terminal.mode == "retry_current" ==> target == current
    ensures 1 <= |actions| && actions[|actions| - 1].Obj?
    ensures
      var raw := actions[|actions| - 1].fields;
      var t := WithArguments(raw, arguments, ArgumentNames(pointer), ContinuationFor(arguments, current, target));
      && "arguments" in t && t["arguments"].Obj? && Get(t, "command") == Get(raw, "command")
      && IsActionOk(Obj(t), measure)
      && ParseTerminal(Obj(t))
           == Some(ResumeFlow(arguments, plan.terminal.rewindSteps, plan.terminal.mode, current, target))
  {
    hide ParsePlan, WithArguments, ArgumentNames, ContinuationFor, ArgumentsFor, IsActionOk, ParseTerminal, IsCorrection;
    hide CorrectionOf, AreResumeArguments, IsBoundedContext, AreNames, AreScalars, RequiredText, HasCommit, TextJson;
    var t, last := plan.terminal, |actions| - 1;
    var index, command := pointer.actionIndex.value, pointer.actionCommand.value;
    PlanParts(actions, measure);
    TerminalParts(actions[last]);
    NotRerun(actions[last]);
    BuiltNames(pointer, index, command, t.rewindSteps, t.mode);
    ArgumentGets(pointer, index, command, t.rewindSteps, t.mode);
    ResumeArgumentKinds(arguments);
    var continuation := ContinuationFor(arguments, current, target);
    WithArgumentsGets(actions[last].fields, arguments, ArgumentNames(pointer), continuation);
    ReboundActionOk(actions[last], arguments, ArgumentNames(pointer), continuation, measure);
    ReboundTerminalParses(
      actions[last], arguments, ArgumentNames(pointer), current, target, t.rewindSteps, t.mode);
  }

  lemma FitsItsOwnContexts(plan: Plan, pointer: FlowPointer, current: Context, target: Context)
    requires plan.terminal.ResumeFlow? && plan.terminal.current == current && plan.terminal.target == target
    requires !pointer.completed && pointer.actionIndex.Some? && FlowContexts(pointer.raw).Some?
    requires pointer.actionCommand == Some(current.command)
    requires
      var contexts := FlowContexts(pointer.raw).value;
      ContextAt(contexts, pointer.actionIndex.value) == Some(current)
      && ContextAt(contexts, pointer.actionIndex.value - plan.terminal.rewindSteps) == Some(target)
    ensures FitsFlow(plan, pointer)
  {
    hide FlowContexts, ContextAt;
  }

  lemma RebindTerminalSucceeds(actions: seq<Json>, plan: Plan, pointer: FlowPointer, measure: Measure, current: Context,
      target: Context, arguments: map<string, Json>)
    requires ParsePlan(actions, measure) == Some(plan) && plan.terminal.ResumeFlow?
    requires |actions| >= 1 && actions[|actions| - 1].Obj?
    requires !pointer.completed && pointer.actionIndex.Some? && FlowContexts(pointer.raw).Some?
    requires pointer.actionCommand == Some(current.command)
    requires
      var contexts := FlowContexts(pointer.raw).value;
      ContextAt(contexts, pointer.actionIndex.value) == Some(current)
      && ContextAt(contexts, pointer.actionIndex.value - plan.terminal.rewindSteps) == Some(target)
    requires SamePlace(plan.terminal.current, current) && SamePlace(plan.terminal.target, target)
    requires plan.terminal.current.actionIndex - plan.terminal.target.actionIndex == plan.terminal.rewindSteps
    requires GuardedArguments(pointer, plan.terminal.rewindSteps, plan.terminal.mode) == Some(arguments)
    requires
      var t := WithArguments(actions[|actions| - 1].fields, arguments, ArgumentNames(pointer), ContinuationFor(arguments, current, target));
      "arguments" in t && t["arguments"].Obj? && Get(t, "command") == Get(actions[|actions| - 1].fields, "command")
      && IsActionOk(Obj(t), measure)
      && ParseTerminal(Obj(t))
           == Some(ResumeFlow(arguments, plan.terminal.rewindSteps, plan.terminal.mode, current, target))
    ensures RebindTerminal(actions, plan, pointer, measure).Some?
  {
    hide ParsePlan, WithArguments, ArgumentNames, ContinuationFor, IsActionOk, ParseTerminal, FlowContexts, ContextAt;
    hide GuardedArguments, SamePlace, FitsFlow;
    var terminal := Obj(WithArguments(
      actions[|actions| - 1].fields, arguments, ArgumentNames(pointer), ContinuationFor(arguments, current, target)));
    ReboundPlanParses(actions, measure, terminal);
    FitsItsOwnContexts(ParsePlan(actions[|actions| - 1 := terminal], measure).value, pointer, current, target);
  }

  lemma ModernPlan(actions: seq<Json>, plan: Plan, measure: Measure)
    requires ParsePlan(actions, measure) == Some(plan) && plan.terminal.ResumeFlow?
    ensures 1 <= |actions| && actions[|actions| - 1].Obj?
    ensures
      var t := plan.terminal;
      && AreResumeArguments(t.arguments) && "rewind_steps" in t.arguments && "mode" in t.arguments
      && t.arguments["rewind_steps"] == Int(t.rewindSteps) && t.arguments["mode"] == Str(t.mode)
      && 0 <= t.rewindSteps <= MAX_REWIND_STEPS && (t.mode == "retry_current" || t.mode == "rewind")
      && (t.mode == "retry_current" ==> t.rewindSteps == 0)
      && t.target.actionIndex == t.current.actionIndex - t.rewindSteps
  {
    hide ParsePlan, ParseTerminal, IsCorrection, CorrectionOf, AreResumeArguments, AreActionsOk;
    PlanParts(actions, measure);
    TerminalParts(actions[|actions| - 1]);
    ModeFits(plan.terminal.arguments);
  }

  lemma SnapshotStep(flow: Json, flowId: string, actionIndex: int, actionCommand: string)
    requires SnapshotPointer(flow, flowId, actionIndex, actionCommand).Some?
    ensures
      var p := SnapshotPointer(flow, flowId, actionIndex, actionCommand).value;
      !p.completed && p.actionIndex == Some(actionIndex) && p.actionCommand == Some(actionCommand)
  {
    hide ParseFlowPointer;
  }

  /** The live steps of a rebindable plan. */
  lemma LiveSteps(plan: Plan, pointer: FlowPointer, measure: Measure) returns (current: Context, target: Context)
    requires plan.terminal.ResumeFlow? && pointer.actionIndex.Some? && pointer.actionCommand.Some?
    requires IsRebindable(plan, pointer, measure)
    ensures FlowContexts(pointer.raw).Some?
    ensures
      var contexts := FlowContexts(pointer.raw).value;
      ContextAt(contexts, pointer.actionIndex.value) == Some(current)
      && ContextAt(contexts, pointer.actionIndex.value - plan.terminal.rewindSteps) == Some(target)
    ensures SamePlace(plan.terminal.current, current) && SamePlace(plan.terminal.target, target)
    ensures current.command == pointer.actionCommand.value
    ensures IsBoundedContext(current) && IsBoundedContext(target)
    ensures current.actionIndex == pointer.actionIndex.value
    ensures target.actionIndex == current.actionIndex - plan.terminal.rewindSteps
  {
    hide FlowContexts, ContextAt, SamePlace, IsBoundedContext, ArgumentsFor;
    var contexts := FlowContexts(pointer.raw).value;
    current := ContextAt(contexts, pointer.actionIndex.value).value;
    target := ContextAt(contexts, pointer.actionIndex.value - plan.terminal.rewindSteps).value;
    ContextAtSound(pointer.raw, pointer.actionIndex.value);
    ContextAtSound(pointer.raw, pointer.actionIndex.value - plan.terminal.rewindSteps);
  }

  lemma RebindableTexts(plan: Plan, pointer: FlowPointer, measure: Measure)
    requires plan.terminal.ResumeFlow? && pointer.actionIndex.Some? && pointer.actionCommand.Some?
    requires IsRebindable(plan, pointer, measure)
    ensures IsShort(Some(pointer.flowId)) && IsShort(pointer.filename) && IsShort(pointer.fid) && IsShort(pointer.flowCommit)
    ensures measure(ArgumentsFor(pointer, pointer.actionIndex.value, pointer.actionCommand.value,
      plan.terminal.rewindSteps, plan.terminal.mode)) <= MAX_ARGUMENT_BYTES
  {
    hide FlowContexts, ContextAt, SamePlace, ArgumentsFor;
  }

  lemma RebindableSucceeds(actions: seq<Json>, plan: Plan, flow: Json, flowId: string, actionIndex: int,
      actionCommand: string, measure: Measure)
    requires SnapshotPointer(flow, flowId, actionIndex, actionCommand).Some?
    requires ParsePlan(actions, measure) == Some(plan) && plan.terminal.ResumeFlow?
    requires SnapshotPointer(flow, flowId, actionIndex, actionCommand).value.actionIndex.Some?
    requires SnapshotPointer(flow, flowId, actionIndex, actionCommand).value.actionCommand.Some?
    requires IsRebindable(plan, SnapshotPointer(flow, flowId, actionIndex, actionCommand).value, measure)
    ensures Rebind(actions, flow, flowId, actionIndex, actionCommand, measure).Some?
  {
    hide ParsePlan, Rebind, FlowContexts, ContextAt, WithArguments, ArgumentNames, ContinuationFor, ArgumentsFor;
    hide IsActionOk, ParseTerminal, IsCorrection, CorrectionOf, AreResumeArguments, SamePlace, SnapshotPointer;
    hide IsBoundedContext, RequiredText, IsRebindable, GuardedArguments, AreActionsOk, RebindTerminal;
    var pointer := SnapshotPointer(flow, flowId, actionIndex, actionCommand).value;
    var t := plan.terminal;
    SnapshotStep(flow, flowId, actionIndex, actionCommand);
    ModernPlan(actions, plan, measure);
    PointerTexts(flow, flowId, actionIndex, actionCommand);
    RebindableTexts(plan, pointer, measure);
    var current, target := LiveSteps(plan, pointer, measure);
    BuiltArgumentsAccepted(plan, pointer, current, measure);
    ArgumentsBuilt(pointer, t.rewindSteps, t.mode);
    var arguments := ArgumentsFor(pointer, actionIndex, actionCommand, t.rewindSteps, t.mode);
    ReboundTerminalOk(actions, plan, pointer, measure, current, target, arguments);
    RebindTerminalSucceeds(actions, plan, pointer, measure, current, target, arguments);
    RebindModern(actions, flow, flowId, actionIndex, actionCommand, measure);
  }

  lemma ArgumentsBuilt(pointer: FlowPointer, rewindSteps: int, mode: string)
    requires pointer.actionIndex.Some? && pointer.actionCommand.Some? && 0 <= rewindSteps <= MAX_REWIND_STEPS
    requires mode == "retry_current" || mode == "rewind"
    requires mode == "retry_current" ==> rewindSteps == 0
    ensures GuardedArguments(pointer, rewindSteps, mode)
      == Some(ArgumentsFor(pointer, pointer.actionIndex.value, pointer.actionCommand.value, rewindSteps, mode))
  {
  }

  lemma NotRerun(action: Json)
    requires action.Obj? && Get(action.fields, "arguments").Obj? && ParseTerminal(action).Some?
    requires ParseTerminal(action).value.ResumeFlow?
    ensures CommandOf(action) != "$rerun"
  {
    hide AreResumeArguments, ParseContext;
  }

  lemma ModeFits(arguments: map<string, Json>)
    requires AreResumeArguments(arguments)
    ensures "mode" in arguments && "rewind_steps" in arguments && arguments["rewind_steps"].Int?
    ensures 0 <= arguments["rewind_steps"].n <= MAX_REWIND_STEPS
    ensures arguments["mode"] == Str("retry_current") || arguments["mode"] == Str("rewind")
    ensures arguments["mode"] == Str("retry_current") ==> arguments["rewind_steps"].n == 0
  {
  }

  /** Replacing the terminal of a plan by another one that parses keeps it a plan. */
  lemma ReboundPlanParses(actions: seq<Json>, measure: Measure, terminal: Json)
    requires ParsePlan(actions, measure).Some?
    requires IsActionOk(terminal, measure) && terminal.Obj? && Get(terminal.fields, "arguments").Obj?
    requires Get(terminal.fields, "command") == Get(actions[|actions| - 1].fields, "command")
    requires ParseTerminal(terminal).Some?
    ensures
      var again := ParsePlan(actions[|actions| - 1 := terminal], measure);
      again.Some? && again.value.terminal == ParseTerminal(terminal).value
  {
    hide IsActionOk, IsCorrection, CorrectionOf, ParseTerminal;
    PlanParts(actions, measure);
    var last := |actions| - 1;
    var rebound := actions[last := terminal];
    assert forall i | 0 <= i < last :: rebound[i] == actions[i];
    assert CommandOf(terminal) == CommandOf(actions[last]);
  }

  lemma SuccessIsRebindable(actions: seq<Json>, plan: Plan, flow: Json, flowId: string, actionIndex: int,
      actionCommand: string, measure: Measure)
    requires ParsePlan(actions, measure) == Some(plan) && plan.terminal.ResumeFlow?
    requires Rebind(actions, flow, flowId, actionIndex, actionCommand, measure).Some?
    ensures SnapshotPointer(flow, flowId, actionIndex, actionCommand).Some?
    ensures IsRebindable(plan, SnapshotPointer(flow, flowId, actionIndex, actionCommand).value, measure)
  {
    hide ParsePlan, Rebind, FlowContexts, ContextAt, WithArguments, ArgumentNames, ContinuationFor, ArgumentsFor;
    hide IsActionOk, ParseTerminal, IsCorrection, CorrectionOf, AreResumeArguments, ParseFlowPointer, SamePlace;
    var current, target, arguments := RebindParts(actions, flow, flowId, actionIndex, actionCommand, measure);
    var pointer := SnapshotPointer(flow, flowId, actionIndex, actionCommand).value;
    var rebound := Rebind(actions, flow, flowId, actionIndex, actionCommand, measure).value;
    ReboundTerminal(actions, plan, pointer, measure, rebound, current, target, arguments);
    PlanParts(rebound, measure);
    var last := |actions| - 1;
    TerminalParts(rebound[last]);
    ArgumentsAreBuilt(pointer, plan.terminal.rewindSteps, plan.terminal.mode);
    ArgumentGets(pointer, actionIndex, actionCommand, plan.terminal.rewindSteps, plan.terminal.mode);
    AcceptedTexts(pointer, arguments);
    ActionMeasure(rebound[last], measure);
  }

  lemma AcceptedTexts(pointer: FlowPointer, arguments: map<string, Json>)
    requires AreResumeArguments(arguments)
    requires Get(arguments, "flow_id") == Str(pointer.flowId)
    requires ("filename" in arguments <==> pointer.filename.Some?)
    requires "filename" in arguments ==> Get(arguments, "filename") == TextJson(pointer.filename)
    requires ("fid" in arguments <==> pointer.fid.Some?)
    requires "fid" in arguments ==> Get(arguments, "fid") == TextJson(pointer.fid)
    requires Get(arguments, "flow_commit") == TextJson(pointer.flowCommit)
    ensures IsShort(Some(pointer.flowId)) && IsShort(pointer.filename) && IsShort(pointer.fid) && IsShort(pointer.flowCommit)
    ensures pointer.filename.Some? && pointer.fid.Some? ==> pointer.filename == pointer.fid
  {
    hide AllowedResumeArguments;
  }

  lemma ActionMeasure(action: Json, measure: Measure)
    requires IsActionOk(action, measure)
    ensures Get(action.fields, "arguments").Obj? && measure(Get(action.fields, "arguments").fields) <= MAX_ARGUMENT_BYTES
  {
    hide IsBounded, IsProvenanceOk, IsExplicitOk, IsOptionalText, RequiredText;
  }

  /** A remembered modern plan can be bound to a failure's Flow exactly when it is rebindable. */
  lemma RebindSucceedsIff(actions: seq<Json>, plan: Plan, flow: Json, flowId: string, actionIndex: int,
      actionCommand: string, measure: Measure)
    requires SnapshotPointer(flow, flowId, actionIndex, actionCommand).Some?
    requires ParsePlan(actions, measure) == Some(plan) && plan.terminal.ResumeFlow?
    ensures Rebind(actions, flow, flowId, actionIndex, actionCommand, measure).Some?
      <==> IsRebindable(plan, SnapshotPointer(flow, flowId, actionIndex, actionCommand).value, measure)
  {
    hide Rebind, ParsePlan, ParseFlowPointer, IsRebindable;
    SnapshotStep(flow, flowId, actionIndex, actionCommand);
    if IsRebindable(plan, SnapshotPointer(flow, flowId, actionIndex, actionCommand).value, measure) {
      RebindableSucceeds(actions, plan, flow, flowId, actionIndex, actionCommand, measure);
    }
    if Rebind(actions, flow, flowId, actionIndex, actionCommand, measure).Some? {
      SuccessIsRebindable(actions, plan, flow, flowId, actionIndex, actionCommand, measure);
    }
  }

  /** In particular a Flow whose `filename` and `fid` differ is always refused. */
  lemma DifferingIdentityIsRefused(actions: seq<Json>, plan: Plan, flow: Json, flowId: string, actionIndex: int,
      actionCommand: string, measure: Measure)
    requires SnapshotPointer(flow, flowId, actionIndex, actionCommand).Some?
    requires ParsePlan(actions, measure) == Some(plan) && plan.terminal.ResumeFlow?
    requires
      var pointer := SnapshotPointer(flow, flowId, actionIndex, actionCommand).value;
      pointer.filename.Some? && pointer.fid.Some? && pointer.filename != pointer.fid
    ensures Rebind(actions, flow, flowId, actionIndex, actionCommand, measure).None?
  {
    hide Rebind, ParsePlan, FlowContexts, ContextAt, SamePlace, ArgumentsFor, ParseFlowPointer;
    RebindSucceedsIff(actions, plan, flow, flowId, actionIndex, actionCommand, measure);
  }
}
