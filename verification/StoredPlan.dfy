/**
 What a parsed plan takes from the stored actions, and what its guards let through to the robot, stated on the stored
 JSON and the live pointer themselves.
 */
module StoredPlan {
  import opened Text
  import opened Json
  import opened Contracts
  import opened FlowPointers
  import opened RecoveryLifecycle
  import opened RecoveryPlan
  import opened RecoveryRebinding

  // ---------------------------------------------------------------- the stored actions

  /** A stored action and the correction parsed from it: the same command, arguments and recorded provenance. */
  predicate ShowsCorrection(action: Json, c: Correction) {
    && action.Obj?
    && Get(action.fields, "command") == Str(c.command) && Get(action.fields, "arguments") == Obj(c.arguments)
    && ("arguments_effective" in action.fields <==> c.effective.Some?)
    && (c.effective.Some? ==> Get(action.fields, "arguments_effective") == Obj(c.effective.value))
    && ("explicit_arguments" in action.fields <==> c.explicit.Some?)
    && (c.explicit.Some? ==> Get(action.fields, "explicit_arguments") == Arr(c.explicit.value))
  }

  lemma AcceptedCorrection(action: Json, measure: Measure)
    requires IsActionOk(action, measure) && ActionHasArguments(action)
    ensures ShowsCorrection(action, CorrectionOf(action))
  {
    hide IsBounded, RepeatsExplicit, AreDistinct, IsArgumentName, IsOptionalText, RequiredText;
    CommandIsText(Get(action.fields, "command"));
  }

  lemma CommandIsText(value: Json)
    ensures RequiredText(value, MAX_COMMAND_LENGTH).Some? ==> value.Str?
  {
  }

  /** The corrections of a plan are its stored actions but the last, in order, and nothing else. */
  lemma CorrectionsAreStored(actions: seq<Json>, measure: Measure)
    requires ParsePlan(actions, measure).Some?
    ensures
      var plan := ParsePlan(actions, measure).value;
      |plan.corrections| == |actions| - 1
      && forall i | 0 <= i < |actions| - 1 :: ShowsCorrection(actions[i], plan.corrections[i])
  {
    hide IsActionOk, CorrectionOf, ParseTerminal, IsCorrection, ShowsCorrection;
    PlanParts(actions, measure);
    forall i | 0 <= i < |actions| - 1
      ensures ShowsCorrection(actions[i], ParsePlan(actions, measure).value.corrections[i])
    {
      AcceptedHasArguments(actions[i], measure);
      AcceptedCorrection(actions[i], measure);
    }
  }

  predicate IsTextOf(fields: map<string, Json>, key: string, text: string, maxLength: nat) {
    Get(fields, key) == Str(text) && IsText(text, maxLength)
  }

  predicate IsTextIfThere(fields: map<string, Json>, key: string, maxLength: nat) {
    key in fields ==> fields[key].Str? && IsText(fields[key].s, maxLength)
  }

  /** A stored step, within its bounds and with no other fields than a step has. */
  predicate ShowsContext(value: Json, c: Context) {
    value.Obj?
    && value.fields.Keys <= {"command", "description", "status", "areaName", "itemName", "actionIndex"}
    && Get(value.fields, "actionIndex") == Int(c.actionIndex) && 0 <= c.actionIndex <= 1_000_000
    && IsTextOf(value.fields, "command", c.command, 128)
    && IsTextOf(value.fields, "areaName", c.areaName, 300) && IsTextOf(value.fields, "itemName", c.itemName, 300)
    && IsTextIfThere(value.fields, "description", 1_000) && IsTextIfThere(value.fields, "status", 1_000)
  }

  /** The arguments of a continuation on their own. */
  predicate AreSafeResumeArguments(a: map<string, Json>) {
    && a.Keys <= {"mode", "rewind_steps", "current_action_index", "current_command", "flow_id", "filename", "fid", "flow_commit"}
    && Get(a, "rewind_steps").Int?
    && ((Get(a, "mode") == Str("retry_current") && Get(a, "rewind_steps").n == 0)
        || (Get(a, "mode") == Str("rewind") && 1 <= Get(a, "rewind_steps").n <= 5))
    && "flow_id" in a && IsTextIfThere(a, "flow_id", 300) && IsTextIfThere(a, "filename", 300) && IsTextIfThere(a, "fid", 300)
    && (Get(a, "flow_commit").Null? || IsTextIfThere(a, "flow_commit", 300))
    && ("filename" in a && "fid" in a ==> a["filename"] == a["fid"])
    && Get(a, "current_action_index").Int? && 0 <= Get(a, "current_action_index").n <= 1_000_000
    && Get(a, "current_command").Str? && IsText(Get(a, "current_command").s, 128)
  }

  lemma SafeResumeIff(a: map<string, Json>)
    ensures AreResumeArguments(a) <==> AreSafeResumeArguments(a)
  {
    hide Strip;
  }

  /** What retrying the failed step is stored as: that step, and the one expected after it, if any. */
  predicate ShowsRerun(action: map<string, Json>, retry: Context, next: Option<Context>) {
    && Get(action, "command") == Str("$rerun") && Get(action, "arguments") == Obj(map[])
    && Get(action, "continuation_context").Null? && Get(action, "retry_context").Obj?
    && var context := Get(action, "retry_context").fields;
    context.Keys <= {"retried_action", "expected_next_action"}
    && ShowsContext(Get(context, "retried_action"), retry)
    && "expected_next_action" in context
    && if next.None? then context["expected_next_action"].Null? else ShowsContext(context["expected_next_action"], next.value)
  }

  /** What a guarded continuation is stored as: its arguments, the failed step they name, and the step it resumes at. */
  predicate ShowsResume(
      action: map<string, Json>, arguments: map<string, Json>, rewindSteps: int, mode: string, current: Context, target: Context)
  {
    && Get(action, "command") == Str("$resume_flow") && Get(action, "arguments") == Obj(arguments)
    && AreSafeResumeArguments(arguments)
    && Get(arguments, "mode") == Str(mode) && Get(arguments, "rewind_steps") == Int(rewindSteps)
    && Get(arguments, "current_action_index") == Int(current.actionIndex)
    && Get(arguments, "current_command") == Str(current.command)
    && target.actionIndex == current.actionIndex - rewindSteps
    && ((mode == "retry_current" && rewindSteps == 0 && target == current) || (mode == "rewind" && 1 <= rewindSteps <= 5))
    && Get(action, "retry_context").Null? && Get(action, "continuation_context").Obj?
    && var context := Get(action, "continuation_context").fields;
    context.Keys <= {"expected_arguments", "current_action", "target_action"}
    && PyEqual(Get(context, "expected_arguments"), Obj(arguments))
    && ShowsContext(Get(context, "current_action"), current) && ShowsContext(Get(context, "target_action"), target)
  }

  predicate ShowsTerminal(action: Json, t: Terminal) {
    action.Obj?
    && match t
       case Rerun(retry, next) => ShowsRerun(action.fields, retry, next)
       case ResumeFlow(arguments, rewindSteps, mode, current, target) =>
         ShowsResume(action.fields, arguments, rewindSteps, mode, current, target)
  }

  lemma ContextIff(value: Json, c: Context)
    ensures ParseContext(value) == Some(c) <==> ShowsContext(value, c)
  {
    hide Strip;
  }

  lemma NullIsNoContext(c: Context)
    ensures !ShowsContext(Null, c)
  {
  }

  lemma RerunIff(action: map<string, Json>, retry: Context, next: Option<Context>)
    requires Get(action, "command") == Str("$rerun") && Get(action, "arguments").Obj?
    ensures ParseRerun(action, action["arguments"].fields) == Some(Rerun(retry, next)) <==> ShowsRerun(action, retry, next)
  {
    hide ParseContext, ShowsContext;
    if Get(action, "retry_context").Obj? {
      var fields := Get(action, "retry_context").fields;
      ContextIff(Get(fields, "retried_action"), retry);
      if next.Some? {
        ContextIff(Get(fields, "expected_next_action"), next.value);
        NullIsNoContext(next.value);
      }
    }
  }

  lemma ResumeModes(arguments: map<string, Json>)
    requires AreResumeArguments(arguments)
    ensures
      var mode, rewind := Get(arguments, "mode"), Get(arguments, "rewind_steps");
      && rewind.Int? && "rewind_steps" in arguments && "mode" in arguments
      && ((mode == Str("retry_current") && rewind.n == 0) || (mode == Str("rewind") && 1 <= rewind.n <= 5))
  {
    hide RequiredText;
  }

  lemma ResumeIff(
      action: map<string, Json>, arguments: map<string, Json>, rewindSteps: int, mode: string, current: Context, target: Context)
    requires Get(action, "command") == Str("$resume_flow") && Get(action, "arguments").Obj?
    ensures ParseResume(action, action["arguments"].fields) == Some(ResumeFlow(arguments, rewindSteps, mode, current, target))
      <==> ShowsResume(action, arguments, rewindSteps, mode, current, target)
  {
    hide ParseContext, ShowsContext, AreResumeArguments, AreSafeResumeArguments, PyEqual;
    var a := action["arguments"].fields;
    SafeResumeIff(a);
    if AreResumeArguments(a) {
      ResumeModes(a);
      ResumeArgumentKinds(a);
    }
    if Get(action, "continuation_context").Obj? {
      var fields := Get(action, "continuation_context").fields;
      ContextIff(Get(fields, "current_action"), current);
      ContextIff(Get(fields, "target_action"), target);
    }
  }

  lemma TerminalIff(action: Json, t: Terminal)
    requires ActionHasArguments(action) && IsTerminalCommand(CommandOf(action))
    ensures ParseTerminal(action) == Some(t) <==> ShowsTerminal(action, t)
  {
    hide ParseRerun, ParseResume, ShowsRerun, ShowsResume;
    var raw := action.fields;
    RerunsAreReruns(raw, t);
    match t
    case Rerun(retry, next) =>
      if CommandOf(action) == "$rerun" {
        RerunIff(raw, retry, next);
      }
    case ResumeFlow(arguments, rewindSteps, mode, current, target) =>
      if CommandOf(action) == "$resume_flow" {
        ResumeIff(raw, arguments, rewindSteps, mode, current, target);
      }
  }

  lemma RerunsAreReruns(raw: map<string, Json>, t: Terminal)
    ensures ShowsTerminal(Obj(raw), t) ==> Get(raw, "command") == Str(if t.Rerun? then "$rerun" else "$resume_flow")
  {
  }

  /** The continuation of a plan is the last stored action, read literally. */
  lemma TerminalIsStored(actions: seq<Json>, measure: Measure)
    requires ParsePlan(actions, measure).Some?
    ensures ShowsTerminal(actions[|actions| - 1], ParsePlan(actions, measure).value.terminal)
  {
    hide AreActionsOk, CorrectionOf, IsCorrection, ParseTerminal, ShowsTerminal, CommandOf, IsTerminalCommand;
    PlanParts(actions, measure);
    TerminalIff(actions[|actions| - 1], ParsePlan(actions, measure).value.terminal);
  }

  // ---------------------------------------------------------------- the arguments that resume the Flow

  /** What guarded arguments say about a field: the file identifier falls back to the file name, and no commit is null. */
  function Guarded(arguments: map<string, Json>, key: string): Json {
    if key == "fid" && "fid" !in arguments then Get(arguments, "filename") else Get(arguments, key)
  }

  /** The pinned arguments hold nothing but what guarded arguments for this pointer would say. */
  predicate HoldsLiveGuard(arguments: map<string, Json>, pointer: FlowPointer, rewindSteps: int, mode: string) {
    var live := GuardedArguments(pointer, rewindSteps, mode);
    live.Some? && forall key <- arguments :: arguments[key] == Guarded(live.value, key)
  }

  /** The live values of the guard fields, one by one. */
  predicate ShowsPointer(arguments: map<string, Json>, p: FlowPointer) {
    && p.actionIndex.Some? && Get(arguments, "current_action_index") == Int(p.actionIndex.value)
    && p.actionCommand.Some? && Get(arguments, "current_command") == Str(p.actionCommand.value)
    && ("flow_id" in arguments ==> arguments["flow_id"] == Str(p.flowId))
    && ("filename" in arguments ==> p.filename.Some? && arguments["filename"] == Str(p.filename.value))
    && ("fid" in arguments && p.fid.Some? ==> arguments["fid"] == Str(p.fid.value))
    && ("fid" in arguments && p.fid.None? ==> p.filename.Some? && arguments["fid"] == Str(p.filename.value))
    && ("flow_commit" in arguments ==>
          arguments["flow_commit"] == if p.flowCommit.Some? then Str(p.flowCommit.value) else Null)
  }

  /** What `AreResumeArguments` says of the fields that guard the dispatch. */
  lemma GuardFieldKinds(arguments: map<string, Json>)
    requires AreResumeArguments(arguments)
    ensures arguments.Keys <= AllowedResumeArguments()
    ensures Get(arguments, "current_action_index").Int? && Get(arguments, "current_command").Str?
    ensures "filename" in arguments ==> arguments["filename"].Str?
    ensures "fid" in arguments ==> arguments["fid"].Str?
  {
    hide Strip;
  }

  lemma MatchesIff(arguments: map<string, Json>, live: FlowPointer)
    requires AreResumeArguments(arguments)
    ensures MatchesPointer(arguments, live) <==> ShowsPointer(arguments, live)
  {
    GuardFieldKinds(arguments);
    hide AreResumeArguments;
  }

  lemma GuardFields(live: FlowPointer, rewindSteps: int, mode: string)
    requires GuardedArguments(live, rewindSteps, mode).Some?
    ensures
      var a := GuardedArguments(live, rewindSteps, mode).value;
      && live.actionIndex.Some? && live.actionCommand.Some?
      && Guarded(a, "mode") == Str(mode) && Guarded(a, "rewind_steps") == Int(rewindSteps)
      && Guarded(a, "current_action_index") == Int(live.actionIndex.value)
      && Guarded(a, "current_command") == Str(live.actionCommand.value)
      && Guarded(a, "flow_id") == Str(live.flowId) && Guarded(a, "filename") == TextJson(live.filename)
      && Guarded(a, "fid") == (if live.fid.Some? then Str(live.fid.value) else TextJson(live.filename))
      && Guarded(a, "flow_commit") == TextJson(live.flowCommit)
  {
    hide ArgumentsFor, TextJson;
    ArgumentsAreBuilt(live, rewindSteps, mode);
    ArgumentGets(live, live.actionIndex.value, live.actionCommand.value, rewindSteps, mode);
    TextJsons(live.filename);
    TextJsons(live.fid);
    MissingFile(live, ArgumentsFor(live, live.actionIndex.value, live.actionCommand.value, rewindSteps, mode));
  }

  lemma MissingFile(live: FlowPointer, a: map<string, Json>)
    requires "filename" in a <==> live.filename.Some?
    requires "filename" in a ==> Get(a, "filename") == TextJson(live.filename)
    ensures Get(a, "filename") == TextJson(live.filename)
  {
  }

  lemma TextJsons(text: Option<string>)
    ensures TextJson(text) == if text.Some? then Str(text.value) else Null
  {
  }

  lemma GuardExists(live: FlowPointer, rewindSteps: int, mode: string)
    requires live.actionIndex.Some? && live.actionCommand.Some?
    requires (mode == "retry_current" && rewindSteps == 0) || (mode == "rewind" && 1 <= rewindSteps <= 5)
    ensures GuardedArguments(live, rewindSteps, mode).Some?
  {
    hide ArgumentsFor;
  }

  lemma ShowsIffHolds(arguments: map<string, Json>, live: FlowPointer, rewindSteps: int, mode: string)
    requires AreResumeArguments(arguments)
    requires Get(arguments, "mode") == Str(mode) && Get(arguments, "rewind_steps") == Int(rewindSteps)
    ensures ShowsPointer(arguments, live) <==> HoldsLiveGuard(arguments, live, rewindSteps, mode)
  {
    hide AreResumeArguments, GuardedArguments, Guarded;
    GuardFieldKinds(arguments);
    ResumeModes(arguments);
    if live.actionIndex.Some? && live.actionCommand.Some? {
      GuardExists(live, rewindSteps, mode);
    }
    var guard := GuardedArguments(live, rewindSteps, mode);
    if guard.Some? {
      GuardFields(live, rewindSteps, mode);
      TextJsons(live.filename);
      TextJsons(live.flowCommit);
    }
  }

  /**
   The arguments of a parsed modern plan are sent, unchanged, if and only if every field they hold is what guarded
   arguments built for the live pointer would say; otherwise nothing is sent.
   */
  lemma ResumeSentIff(actions: seq<Json>, measure: Measure, live: FlowPointer)
    requires ParsePlan(actions, measure).Some? && ParsePlan(actions, measure).value.terminal.ResumeFlow?
    ensures
      var plan := ParsePlan(actions, measure).value;
      var t := plan.terminal;
      && ResumeArguments(plan, live) == (if HoldsLiveGuard(t.arguments, live, t.rewindSteps, t.mode) then Some(t.arguments) else None)
      && (HoldsLiveGuard(t.arguments, live, t.rewindSteps, t.mode) <==> ShowsPointer(t.arguments, live))
  {
    hide AreActionsOk, CorrectionOf, IsCorrection, ParseTerminal, MatchesPointer, ShowsPointer, HoldsLiveGuard, AreResumeArguments;
    PlanParts(actions, measure);
    var t := ParsePlan(actions, measure).value.terminal;
    TerminalParts(actions[|actions| - 1]);
    ResumeArgumentKinds(t.arguments);
    MatchesIff(t.arguments, live);
    ShowsIffHolds(t.arguments, live, t.rewindSteps, t.mode);
  }

  /** A legacy plan sends the guarded arguments of the live pointer itself, whenever it has an action. */
  lemma LegacySentIff(plan: Plan, live: FlowPointer)
    requires plan.terminal.Rerun?
    ensures ResumeArguments(plan, live).Some? <==> live.actionIndex.Some? && live.actionCommand.Some?
    ensures ResumeArguments(plan, live).Some? ==> ShowsPointer(ResumeArguments(plan, live).value, live)
    ensures ResumeArguments(plan, live).Some? ==>
      Get(ResumeArguments(plan, live).value, "mode") == Str("retry_current")
      && Get(ResumeArguments(plan, live).value, "rewind_steps") == Int(0)
  {
    hide ArgumentsFor;
    if live.actionIndex.Some? && live.actionCommand.Some? {
      ArgumentGets(live, live.actionIndex.value, live.actionCommand.value, 0, "retry_current");
    }
  }

  // ---------------------------------------------------------------- the acknowledgement

  /** What the robot must acknowledge. */
  function ExpectedAnswer(p: FlowPointer, rewindSteps: int, mode: string): map<string, Json>
    requires p.actionIndex.Some? && p.actionCommand.Some?
  {
    var step := map[
      "accepted" := Bool(true), "mode" := Str(mode), "rewind_steps" := Int(rewindSteps),
      "previous_action_index" := Int(p.actionIndex.value), "target_action_index" := Int(p.actionIndex.value - rewindSteps),
      "current_command" := Str(p.actionCommand.value), "flow_id" := Str(p.flowId)];
    var named := if p.filename.Some? then step["filename" := Str(p.filename.value)] else step;
    if p.flowCommit.Some? then named["flow_commit" := Str(p.flowCommit.value)] else named
  }

  predicate SaysAll(ack: map<string, Json>, p: FlowPointer, rewindSteps: int, mode: string)
    requires p.actionIndex.Some? && p.actionCommand.Some?
  {
    && PyEqual(Get(ack, "accepted"), Bool(true)) && PyEqual(Get(ack, "mode"), Str(mode))
    && PyEqual(Get(ack, "rewind_steps"), Int(rewindSteps))
    && PyEqual(Get(ack, "previous_action_index"), Int(p.actionIndex.value))
    && PyEqual(Get(ack, "target_action_index"), Int(p.actionIndex.value - rewindSteps))
    && PyEqual(Get(ack, "current_command"), Str(p.actionCommand.value)) && PyEqual(Get(ack, "flow_id"), Str(p.flowId))
    && (p.filename.Some? ==> PyEqual(Get(ack, "filename"), Str(p.filename.value)))
    && (p.flowCommit.Some? ==> PyEqual(Get(ack, "flow_commit"), Str(p.flowCommit.value)))
  }

  lemma SaysAllIff(ack: map<string, Json>, p: FlowPointer, rewindSteps: int, mode: string)
    requires p.actionIndex.Some? && p.actionCommand.Some?
    ensures SaysAll(ack, p, rewindSteps, mode)
      <==> forall key <- ExpectedAnswer(p, rewindSteps, mode) ::
             PyEqual(Get(ack, key), ExpectedAnswer(p, rewindSteps, mode)[key])
  {
    hide ExpectedAnswer, PyEqual, Get;
    AnswerKeys(p, rewindSteps, mode);
    var e := ExpectedAnswer(p, rewindSteps, mode);
    assert "accepted" in e && "mode" in e && "rewind_steps" in e && "previous_action_index" in e;
    assert "target_action_index" in e && "current_command" in e && "flow_id" in e;
  }

  /** An answer acknowledges the continuation if and only if it says all that is expected, up to Python's equality. */
  lemma AcknowledgedIff(value: Json, p: FlowPointer, rewindSteps: int, mode: string)
    requires p.actionIndex.Some? && p.actionCommand.Some?
    ensures IsAcknowledged(value, p, rewindSteps, mode)
      <==> value.Obj? && forall key <- ExpectedAnswer(p, rewindSteps, mode) ::
             PyEqual(Get(value.fields, key), ExpectedAnswer(p, rewindSteps, mode)[key])
  {
    hide ExpectedAnswer, PyEqual;
    if value.Obj? {
      SaysAllIff(value.fields, p, rewindSteps, mode);
      TextEquals(Get(value.fields, "mode"), mode);
      TextEquals(Get(value.fields, "current_command"), p.actionCommand.value);
      TextEquals(Get(value.fields, "flow_id"), p.flowId);
      if p.filename.Some? {
        TextEquals(Get(value.fields, "filename"), p.filename.value);
      }
      if p.flowCommit.Some? {
        TextEquals(Get(value.fields, "flow_commit"), p.flowCommit.value);
      }
    }
  }

  lemma AnswerKeys(p: FlowPointer, rewindSteps: int, mode: string)
    requires p.actionIndex.Some? && p.actionCommand.Some?
    ensures
      var e := ExpectedAnswer(p, rewindSteps, mode);
      && e.Keys == {"accepted", "mode", "rewind_steps", "previous_action_index", "target_action_index", "current_command", "flow_id"}
           + (if p.filename.Some? then {"filename"} else {}) + (if p.flowCommit.Some? then {"flow_commit"} else {})
      && e["accepted"] == Bool(true) && e["mode"] == Str(mode) && e["rewind_steps"] == Int(rewindSteps)
      && e["previous_action_index"] == Int(p.actionIndex.value)
      && e["target_action_index"] == Int(p.actionIndex.value - rewindSteps)
      && e["current_command"] == Str(p.actionCommand.value) && e["flow_id"] == Str(p.flowId)
      && (p.filename.Some? ==> e["filename"] == Str(p.filename.value))
      && (p.flowCommit.Some? ==> e["flow_commit"] == Str(p.flowCommit.value))
  {
  }

  lemma TextEquals(value: Json, text: string)
    ensures PyEqual(value, Str(text)) <==> value == Str(text)
  {
  }

  // ---------------------------------------------------------------- what acceptance says about the stored actions

  /** Recorded effective arguments repeat every explicit one, or every argument if none are named. */
  predicate RepeatsAll(action: map<string, Json>, arguments: map<string, Json>) {
    "arguments_effective" in action ==>
      Get(action, "arguments_effective").Obj?
      && var effective := Get(action, "arguments_effective").fields;
      if "explicit_arguments" in action then
        Get(action, "explicit_arguments").Arr?
        && forall name <- Get(action, "explicit_arguments").items ::
             name.Str? && name.s in effective && JsonEqual(effective[name.s], Get(arguments, name.s))
      else forall name <- arguments :: name in effective && JsonEqual(effective[name], arguments[name])
  }

  /** Named explicit arguments are exactly the arguments, each named once, by trimmed text of at most 128 characters. */
  predicate NamesAll(action: map<string, Json>, arguments: map<string, Json>) {
    "explicit_arguments" in action ==>
      Get(action, "explicit_arguments").Arr?
      && var names := Get(action, "explicit_arguments").items;
      (set name <- names) == (set key <- arguments :: Str(key))
      && (forall i, j | 0 <= i < j < |names| :: names[i] != names[j])
      && forall name <- names :: name.Str? && IsText(name.s, 128)
  }

  ghost predicate IsSafeAction(action: Json, measure: Measure) {
    action.Obj?
    && var raw := action.fields;
    raw.Keys <= {"command", "title", "arguments", "arguments_effective", "explicit_arguments", "retry_context",
                 "continuation_context"}
    && Get(raw, "command").Str? && IsText(Get(raw, "command").s, 128)
    && ("title" in raw ==> raw["title"].Str? && IsText(raw["title"].s, 300))
    && Get(raw, "arguments").Obj? && IsBounded(Get(raw, "arguments"))
    && measure(Get(raw, "arguments").fields) <= 32_768
    && ("arguments_effective" in raw ==> IsBounded(Get(raw, "arguments_effective")))
    && RepeatsAll(raw, Get(raw, "arguments").fields) && NamesAll(raw, Get(raw, "arguments").fields)
  }

  lemma NamesAllIff(raw: map<string, Json>, arguments: map<string, Json>)
    ensures IsExplicitOk(raw, arguments) <==> NamesAll(raw, arguments)
  {
    hide Strip;
    if "explicit_arguments" in raw && raw["explicit_arguments"].Arr? {
      var names := raw["explicit_arguments"].items;
      var keys := set key <- arguments :: Str(key);
      if NamesAll(raw, arguments) {
        forall name <- names ensures name.s in arguments {
          assert name in keys;
        }
        forall key <- arguments ensures Str(key) in names {
          assert Str(key) in keys;
        }
      }
      if IsExplicitOk(raw, arguments) {
        forall name <- names ensures name in keys {
          assert name == Str(name.s);
        }
      }
    }
  }

  lemma RepeatsAllIff(raw: map<string, Json>, arguments: map<string, Json>)
    ensures IsProvenanceOk(raw, arguments)
      <==> RepeatsAll(raw, arguments) && ("arguments_effective" in raw ==> IsBounded(Get(raw, "arguments_effective")))
  {
    hide IsBounded, JsonEqual;
  }

  /** A stored action is accepted if and only if it is safe in every one of these respects. */
  lemma SafeActionIff(action: Json, measure: Measure)
    ensures IsActionOk(action, measure) <==> IsSafeAction(action, measure)
  {
    hide IsBounded, IsProvenanceOk, IsExplicitOk, RepeatsAll, NamesAll, Strip;
    if action.Obj? && Get(action.fields, "arguments").Obj? {
      NamesAllIff(action.fields, Get(action.fields, "arguments").fields);
      RepeatsAllIff(action.fields, Get(action.fields, "arguments").fields);
    }
  }

  /** A correction is no meta-command and belongs to no continuation. */
  predicate IsPlainCorrection(action: Json) {
    action.Obj? && Get(action.fields, "command").Str? && Get(action.fields, "command").s != ""
    && Get(action.fields, "command").s[0] != '$'
    && Get(action.fields, "retry_context").Null? && Get(action.fields, "continuation_context").Null?
  }

  lemma PlainCorrectionIff(action: Json, measure: Measure)
    requires IsActionOk(action, measure)
    ensures IsCorrection(action) <==> IsPlainCorrection(action)
  {
    hide IsBounded, IsProvenanceOk, IsExplicitOk, Strip;
    assert forall s: string | s != "" :: s[..1] == [s[0]];
  }

  /** A stored list is this plan: safe actions, plain corrections read literally, and a continuation read literally. */
  ghost predicate ShowsPlan(actions: seq<Json>, measure: Measure, plan: Plan) {
    && 1 <= |actions| <= 10 && |plan.corrections| == |actions| - 1
    && (forall i | 0 <= i < |actions| :: IsSafeAction(actions[i], measure))
    && (forall i | 0 <= i < |actions| - 1 :: IsPlainCorrection(actions[i]) && ShowsCorrection(actions[i], plan.corrections[i]))
    && ShowsTerminal(actions[|actions| - 1], plan.terminal)
  }

  lemma ShownCorrection(action: Json, measure: Measure, c: Correction)
    requires IsActionOk(action, measure) && ActionHasArguments(action) && ShowsCorrection(action, c)
    ensures CorrectionOf(action) == c
  {
    hide IsBounded, IsProvenanceOk, IsExplicitOk, Strip;
  }

  lemma TerminalCommands(action: Json, t: Terminal)
    ensures ShowsTerminal(action, t) ==> IsTerminalCommand(CommandOf(action))
  {
    hide ShowsContext, AreSafeResumeArguments, PyEqual;
  }

  /** A stored list is parsed to a plan if and only if it shows that plan. */
  lemma ParsedPlanIff(actions: seq<Json>, measure: Measure, plan: Plan)
    ensures ParsePlan(actions, measure) == Some(plan) <==> ShowsPlan(actions, measure, plan)
  {
    hide IsActionOk, IsSafeAction, IsPlainCorrection, IsCorrection, CorrectionOf, ParseTerminal, ShowsCorrection, ShowsTerminal;
    hide CommandOf, IsTerminalCommand;
    forall i | 0 <= i < |actions| ensures IsActionOk(actions[i], measure) <==> IsSafeAction(actions[i], measure) {
      SafeActionIff(actions[i], measure);
    }
    if AreActionsOk(actions, measure) {
      forall i | 0 <= i < |actions|
        ensures ActionHasArguments(actions[i]) && (IsCorrection(actions[i]) <==> IsPlainCorrection(actions[i]))
      {
        AcceptedHasArguments(actions[i], measure);
        PlainCorrectionIff(actions[i], measure);
      }
    }
    if ParsePlan(actions, measure) == Some(plan) {
      CorrectionsAreStored(actions, measure);
      TerminalIsStored(actions, measure);
    }
    if ShowsPlan(actions, measure, plan) {
      var last := |actions| - 1;
      TerminalCommands(actions[last], plan.terminal);
      TerminalIff(actions[last], plan.terminal);
      forall i | 0 <= i < last ensures CorrectionOf(actions[i]) == plan.corrections[i] {
        ShownCorrection(actions[i], measure, plan.corrections[i]);
      }
      assert seq(last, i requires 0 <= i < last => CorrectionOf(actions[i])) == plan.corrections;
    }
  }

  /** A plan is for a step if and only if its stored continuation names that index and command. */
  lemma FitsStepIff(actions: seq<Json>, measure: Measure, index: int, command: string)
    requires ParsePlan(actions, measure).Some?
    ensures
      var last := actions[|actions| - 1];
      last.Obj?
      && (FitsStep(ParsePlan(actions, measure).value, index, command)
          <==>
            if Get(last.fields, "command") == Str("$rerun") then
              Get(last.fields, "retry_context").Obj?
              && var retried := Get(Get(last.fields, "retry_context").fields, "retried_action");
              retried.Obj? && Get(retried.fields, "actionIndex") == Int(index) && Get(retried.fields, "command") == Str(command)
            else
              Get(last.fields, "arguments").Obj?
              && Get(Get(last.fields, "arguments").fields, "current_action_index") == Int(index)
              && Get(Get(last.fields, "arguments").fields, "current_command") == Str(command))
  {
    hide ParsePlan, PyEqual;
    TerminalIsStored(actions, measure);
    assert "$rerun" != "$resume_flow";
  }
}
