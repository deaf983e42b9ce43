/**
 When a remembered plan can be bound to a failure at all, and the guard it then carries, stated on the frame captured
 with the failure (`rebind_recovery_actions`, `build_guarded_resume_arguments` in `recovery_executor.py`).
 */
module StoredRebinding {
  import opened Text
  import opened Json
  import opened Contracts
  import opened FlowPointers
  import opened RecoveryLifecycle
  import opened RecoveryPlan
  import opened RecoveryRebinding
  import opened RecoveryRebindable
  import opened FlowTree

  // ---------------------------------------------------------------- the guard of a resumption

  /** Which of its names the Flow's guard holds. */
  function GuardNames(p: FlowPointer): set<string> {
    {"mode", "rewind_steps", "current_action_index", "current_command", "flow_id"}
    + (if p.filename.Some? then {"filename"} else {})
    + (if p.fid.Some? then {"fid"} else {})
    + (if p.flowCommit.Some? || "flow_commit" in p.raw then {"flow_commit"} else {})
  }

  predicate IsGuardOf(
      a: map<string, Json>, p: FlowPointer, index: int, command: string, rewindSteps: int, mode: string)
  {
    && a.Keys == GuardNames(p)
    && a["mode"] == Str(mode) && a["rewind_steps"] == Int(rewindSteps)
    && a["current_action_index"] == Int(index) && a["current_command"] == Str(command) && a["flow_id"] == Str(p.flowId)
    && (p.filename.Some? ==> a["filename"] == Str(p.filename.value))
    && (p.fid.Some? ==> a["fid"] == Str(p.fid.value))
    && (p.flowCommit.Some? ==> a["flow_commit"] == Str(p.flowCommit.value))
    && (p.flowCommit.None? && "flow_commit" in a ==> a["flow_commit"] == Null)
  }

  lemma GuardKeys(p: FlowPointer, index: int, command: string, rewindSteps: int, mode: string)
    ensures ArgumentsFor(p, index, command, rewindSteps, mode).Keys == GuardNames(p)
  {
    hide TextJson, StepArguments;
    StepArgumentGets(p.flowId, index, command, rewindSteps, mode);
  }

  lemma OneGuard(
      a: map<string, Json>, b: map<string, Json>, p: FlowPointer, index: int, command: string, rewindSteps: int, mode: string)
    requires IsGuardOf(a, p, index, command, rewindSteps, mode) && IsGuardOf(b, p, index, command, rewindSteps, mode)
    ensures a == b
  {
    forall k | k in a ensures a[k] == b[k] {
      if k == "flow_commit" && p.flowCommit.None? {
        assert a[k] == Null == b[k];
      }
    }
  }

  lemma GuardIff(a: map<string, Json>, p: FlowPointer, index: int, command: string, rewindSteps: int, mode: string)
    ensures a == ArgumentsFor(p, index, command, rewindSteps, mode) <==> IsGuardOf(a, p, index, command, rewindSteps, mode)
  {
    hide ArgumentsFor, AllowedResumeArguments;
    var built := ArgumentsFor(p, index, command, rewindSteps, mode);
    ArgumentGets(p, index, command, rewindSteps, mode);
    GuardKeys(p, index, command, rewindSteps, mode);
    BuiltIsGuard(built, p, index, command, rewindSteps, mode);
    if IsGuardOf(a, p, index, command, rewindSteps, mode) {
      OneGuard(a, built, p, index, command, rewindSteps, mode);
    }
  }

  lemma BuiltIsGuard(a: map<string, Json>, p: FlowPointer, index: int, command: string, rewindSteps: int, mode: string)
    requires a.Keys == GuardNames(p)
    requires Get(a, "mode") == Str(mode) && Get(a, "rewind_steps") == Int(rewindSteps)
    requires Get(a, "current_action_index") == Int(index) && Get(a, "current_command") == Str(command)
    requires Get(a, "flow_id") == Str(p.flowId)
    requires "filename" in a ==> Get(a, "filename") == TextJson(p.filename)
    requires "fid" in a ==> Get(a, "fid") == TextJson(p.fid)
    requires "flow_commit" in a ==> Get(a, "flow_commit") == TextJson(p.flowCommit)
    ensures IsGuardOf(a, p, index, command, rewindSteps, mode)
  {
    var names := GuardNames(p);
    assert "mode" in names && "rewind_steps" in names && "current_action_index" in names;
    assert "current_command" in names && "flow_id" in names;
    assert (p.filename.Some? ==> "filename" in names) && (p.fid.Some? ==> "fid" in names);
    assert p.flowCommit.Some? ==> "flow_commit" in names;
  }

  /**
   A guard is built if and only if the Flow has a current action, the rewind is within bounds, and only a rewind goes
   back; it then holds exactly what the live Flow says of itself, with an explicit null for a commit it leaves out.
   */
  lemma GuardedIff(p: FlowPointer, rewindSteps: int, mode: string, a: map<string, Json>)
    ensures GuardedArguments(p, rewindSteps, mode) == Some(a)
      <==>
        && p.actionIndex.Some? && p.actionCommand.Some? && 0 <= rewindSteps <= MAX_REWIND_STEPS
        && (mode == "rewind" || (mode == "retry_current" && rewindSteps == 0))
        && IsGuardOf(a, p, p.actionIndex.value, p.actionCommand.value, rewindSteps, mode)
  {
    hide ArgumentsFor, IsGuardOf;
    if p.actionIndex.Some? && p.actionCommand.Some? {
      GuardIff(a, p, p.actionIndex.value, p.actionCommand.value, rewindSteps, mode);
    }
  }

  // ---------------------------------------------------------------- the captured step

  /** The captured frame shows the Flow paused on exactly the step that failed. */
  ghost predicate ShowsFailedStep(flow: Json, flowId: string, actionIndex: int, actionCommand: string, p: FlowPointer) {
    && Shows(flow, 0, 0, p) && !p.completed && Lower(Strip(p.status)) == "paused"
    && p.flowId == flowId && p.actionIndex == Some(actionIndex) && p.actionCommand == Some(actionCommand)
  }

  lemma SnapshotIff(flow: Json, flowId: string, actionIndex: int, actionCommand: string, p: FlowPointer)
    ensures SnapshotPointer(flow, flowId, actionIndex, actionCommand) == Some(p)
      <==> ShowsFailedStep(flow, flowId, actionIndex, actionCommand, p)
  {
    hide ParseFlowPointer, Shows;
    PointerIff(flow, 0, 0, p);
    if ParseFlowPointer(flow, 0, 0).Some? {
      PointerIff(flow, 0, 0, ParseFlowPointer(flow, 0, 0).value);
    }
  }

  // ---------------------------------------------------------------- when it can be bound

  predicate IsSameStep(remembered: Context, step: Context) {
    remembered.command == step.command && remembered.areaName == step.areaName && remembered.itemName == step.itemName
  }

  /** The live action is the remembered step, and as many steps before it is the remembered one to go on from. */
  predicate IsFoundAgain(plan: Plan, steps: seq<Context>, k: nat, m: nat, index: int, command: string)
    requires plan.terminal.ResumeFlow?
  {
    var t := plan.terminal;
    && k < |steps| && steps[k].actionIndex == index && steps[k].command == command && IsSameStep(t.current, steps[k])
    && m < |steps| && steps[m].actionIndex == index - t.rewindSteps && IsSameStep(t.target, steps[m])
  }

  /** The Flow's own names are at most 300 characters, and it does not go by two file names. */
  predicate IsNamedOnce(p: FlowPointer) {
    && |p.flowId| <= 300 && (p.filename.Some? ==> |p.filename.value| <= 300) && (p.fid.Some? ==> |p.fid.value| <= 300)
    && (p.flowCommit.Some? ==> |p.flowCommit.value| <= 300)
    && (p.filename.Some? && p.fid.Some? ==> p.filename.value == p.fid.value)
  }

  /** The guard for the live pointer is not too large. */
  ghost predicate FitsInArguments(plan: Plan, p: FlowPointer, index: int, command: string, measure: Measure)
    requires plan.terminal.ResumeFlow?
  {
    exists a :: IsGuardOf(a, p, index, command, plan.terminal.rewindSteps, plan.terminal.mode) && measure(a) <= 32_768
  }

  ghost predicate CanBeBound(plan: Plan, p: FlowPointer, index: int, command: string, measure: Measure)
    requires plan.terminal.ResumeFlow?
  {
    && IsTree(p.raw) && AreUnambiguous(EnabledSteps(p.raw))
    && (exists k: nat, m: nat :: IsFoundAgain(plan, EnabledSteps(p.raw), k, m, index, command))
    && IsNamedOnce(p) && FitsInArguments(plan, p, index, command, measure)
  }

  lemma FoundIff(plan: Plan, steps: seq<Context>, index: int, command: string)
    requires plan.terminal.ResumeFlow? && AreUnambiguous(steps)
    ensures
      var current, target := ContextAt(steps, index), ContextAt(steps, index - plan.terminal.rewindSteps);
      (exists k: nat, m: nat :: IsFoundAgain(plan, steps, k, m, index, command))
      <==>
        && current.Some? && target.Some? && SamePlace(plan.terminal.current, current.value)
        && SamePlace(plan.terminal.target, target.value) && current.value.command == command
  {
    hide ContextAt;
    var back := index - plan.terminal.rewindSteps;
    var current, target := ContextAt(steps, index), ContextAt(steps, back);
    if current.Some? && target.Some? {
      var k: nat :| k < |steps| && steps[k] == current.value;
      var m: nat :| m < |steps| && steps[m] == target.value;
      if SamePlace(plan.terminal.current, current.value) && SamePlace(plan.terminal.target, target.value)
         && current.value.command == command
      {
        assert IsFoundAgain(plan, steps, k, m, index, command);
      }
    }
    if exists k: nat, m: nat :: IsFoundAgain(plan, steps, k, m, index, command) {
      var k: nat, m: nat :| IsFoundAgain(plan, steps, k, m, index, command);
      ContextAtIff(steps, index, steps[k]);
      ContextAtIff(steps, back, steps[m]);
    }
  }

  lemma SizeIff(plan: Plan, p: FlowPointer, index: int, command: string, measure: Measure)
    requires plan.terminal.ResumeFlow?
    ensures FitsInArguments(plan, p, index, command, measure)
      <==> measure(ArgumentsFor(p, index, command, plan.terminal.rewindSteps, plan.terminal.mode)) <= MAX_ARGUMENT_BYTES
  {
    hide ArgumentsFor, IsGuardOf;
    var steps, mode := plan.terminal.rewindSteps, plan.terminal.mode;
    GuardIff(ArgumentsFor(p, index, command, steps, mode), p, index, command, steps, mode);
    if FitsInArguments(plan, p, index, command, measure) {
      var a :| IsGuardOf(a, p, index, command, steps, mode) && measure(a) <= 32_768;
      GuardIff(a, p, index, command, steps, mode);
    }
  }

  lemma BoundIff(plan: Plan, p: FlowPointer, measure: Measure)
    requires plan.terminal.ResumeFlow? && p.actionIndex.Some? && p.actionCommand.Some?
    ensures IsRebindable(plan, p, measure) <==> CanBeBound(plan, p, p.actionIndex.value, p.actionCommand.value, measure)
  {
    hide FlowContexts, ContextAt, ArgumentsFor, FitsInArguments, IsTree, EnabledSteps, AreUnambiguous, SamePlace, IsFoundAgain;
    var steps := EnabledSteps(p.raw);
    FlowContextsAre(p.raw);
    SizeIff(plan, p, p.actionIndex.value, p.actionCommand.value, measure);
    if IsTree(p.raw) && AreUnambiguous(steps) {
      FoundIff(plan, steps, p.actionIndex.value, p.actionCommand.value);
    }
  }

  /**
   A remembered modern plan is bound to a failure if and only if the captured frame shows the Flow paused on exactly the
   failed step, that step and the one to go on from are the remembered ones by command, area and item, the Flow's names
   are short and agree, and the guard is not too large.
   */
  lemma ModernRebindIff(
      actions: seq<Json>, plan: Plan, flow: Json, flowId: string, actionIndex: int, actionCommand: string, measure: Measure)
    requires ParsePlan(actions, measure) == Some(plan) && plan.terminal.ResumeFlow?
    ensures Rebind(actions, flow, flowId, actionIndex, actionCommand, measure).Some?
      <==> exists p :: ShowsFailedStep(flow, flowId, actionIndex, actionCommand, p)
                       && CanBeBound(plan, p, actionIndex, actionCommand, measure)
  {
    hide ParsePlan, SnapshotPointer, ShowsFailedStep, CanBeBound, IsRebindable, RebindTerminal;
    var snapshot := SnapshotPointer(flow, flowId, actionIndex, actionCommand);
    if snapshot.Some? {
      SnapshotIff(flow, flowId, actionIndex, actionCommand, snapshot.value);
      SnapshotNames(flow, flowId, actionIndex, actionCommand, snapshot.value);
      BoundIff(plan, snapshot.value, measure);
      RebindSucceedsIff(actions, plan, flow, flowId, actionIndex, actionCommand, measure);
    }
    if exists p :: ShowsFailedStep(flow, flowId, actionIndex, actionCommand, p) && CanBeBound(plan, p, actionIndex, actionCommand, measure) {
      var p :| ShowsFailedStep(flow, flowId, actionIndex, actionCommand, p) && CanBeBound(plan, p, actionIndex, actionCommand, measure);
      SnapshotIff(flow, flowId, actionIndex, actionCommand, p);
    }
  }

  lemma SnapshotNames(flow: Json, flowId: string, actionIndex: int, actionCommand: string, p: FlowPointer)
    requires ShowsFailedStep(flow, flowId, actionIndex, actionCommand, p)
    ensures p.actionIndex == Some(actionIndex) && p.actionCommand == Some(actionCommand)
  {
  }

  /** A remembered legacy plan is taken as it is if and only if it fits the captured frame, paused on the failed step. */
  lemma LegacyRebindIff(
      actions: seq<Json>, plan: Plan, flow: Json, flowId: string, actionIndex: int, actionCommand: string,
      measure: Measure, rebound: seq<Json>)
    requires ParsePlan(actions, measure) == Some(plan) && plan.terminal.Rerun?
    ensures Rebind(actions, flow, flowId, actionIndex, actionCommand, measure) == Some(rebound)
      <==> rebound == actions
           && exists p, k: nat ::
                && ShowsFailedStep(flow, flowId, actionIndex, actionCommand, p)
                && IsTree(p.raw) && AreUnambiguous(EnabledSteps(p.raw))
                && LiesAt(plan, EnabledSteps(p.raw), k, actionIndex, actionCommand)
  {
    hide ParsePlan, SnapshotPointer, RebindTerminal, FitsFlow, ShowsFailedStep, IsTree, EnabledSteps, AreUnambiguous, LiesAt;
    var snapshot := SnapshotPointer(flow, flowId, actionIndex, actionCommand);
    if snapshot.Some? {
      SnapshotIff(flow, flowId, actionIndex, actionCommand, snapshot.value);
      FailedStepParts(flow, flowId, actionIndex, actionCommand, snapshot.value);
      FitsFlowIff(plan, snapshot.value);
    }
    forall p | ShowsFailedStep(flow, flowId, actionIndex, actionCommand, p) ensures snapshot == Some(p) {
      SnapshotIff(flow, flowId, actionIndex, actionCommand, p);
    }
  }

  lemma FailedStepParts(flow: Json, flowId: string, actionIndex: int, actionCommand: string, p: FlowPointer)
    requires ShowsFailedStep(flow, flowId, actionIndex, actionCommand, p)
    ensures !p.completed && p.actionIndex == Some(actionIndex) && p.actionCommand == Some(actionCommand)
  {
  }
}
