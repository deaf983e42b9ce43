/** The stored recovery plan, its guards against a live Flow, and its rebinding to a new run (`recovery_executor.py`). */
module RecoveryPlan {
  import opened Text
  import opened Json
  import opened Contracts
  import opened FlowPointers
  import FlowOutcome
  import opened RecoveryLifecycle

  const MAX_ARGUMENT_BYTES: nat := 32 * 1024
  const MAX_ACTION_INDEX: int := 1_000_000

  /** One step of a Flow, as both the plan and the live action tree describe it. */
  datatype Context = Context(actionIndex: int, command: string, areaName: string, itemName: string)

  datatype Correction = Correction(
    command: string, arguments: map<string, Json>, effective: Option<map<string, Json>>, explicit: Option<seq<Json>>)

  datatype Terminal =
    | Rerun(retry: Context, expectedNext: Option<Context>)
    | ResumeFlow(arguments: map<string, Json>, rewindSteps: int, mode: string, current: Context, target: Context)

  datatype Plan = Plan(corrections: seq<Correction>, terminal: Terminal)

  /** The length in bytes of the canonical JSON text of an argument object. */
  type Measure = map<string, Json> -> nat

  function AllowedActionFields(): set<string> {
    {"command", "title", "arguments", "arguments_effective", "explicit_arguments", "retry_context", "continuation_context"}
  }

  function AllowedResumeArguments(): set<string> {
    {"mode", "rewind_steps", "current_action_index", "current_command", "flow_id", "filename", "fid", "flow_commit"}
  }

  function ContextFields(): set<string> {
    {"command", "description", "status", "areaName", "itemName", "actionIndex"}
  }

  // ---------------------------------------------------------------- one action

  /** A key that may be missing, but is trimmed text when present. */
  predicate IsOptionalText(fields: map<string, Json>, key: string, maxLength: nat) {
    key in fields ==> RequiredText(fields[key], maxLength).Some?
  }

  function ExplicitKeys(fields: map<string, Json>, key: string): Option<seq<Json>> {
    if key in fields && fields[key].Arr? then Some(fields[key].items) else None
  }

  /** The recorded effective arguments repeat every explicit one. */
  predicate RepeatsExplicit(raw: map<string, Json>, arguments: map<string, Json>, effective: map<string, Json>) {
    if "explicit_arguments" in raw then
      raw["explicit_arguments"].Arr?
      && forall key <- raw["explicit_arguments"].items :: key.Str? && Repeats(effective, arguments, key.s)
    else forall key <- arguments :: Repeats(effective, arguments, key)
  }

  ghost predicate IsProvenanceOk(raw: map<string, Json>, arguments: map<string, Json>) {
    "arguments_effective" in raw ==>
      var effective := raw["arguments_effective"];
      effective.Obj? && IsBounded(effective) && RepeatsExplicit(raw, arguments, effective.fields)
  }

  predicate Repeats(effective: map<string, Json>, arguments: map<string, Json>, key: string) {
    key in effective && JsonEqual(effective[key], Get(arguments, key))
  }

  predicate IsArgumentName(name: Json) {
    RequiredText(name, MAX_COMMAND_LENGTH).Some?
  }

  predicate AreDistinct(items: seq<Json>) {
    forall i, j | 0 <= i < j < |items| :: items[i] != items[j]
  }

  predicate IsExplicitOk(raw: map<string, Json>, arguments: map<string, Json>) {
    "explicit_arguments" in raw ==>
      var explicit := raw["explicit_arguments"];
      explicit.Arr? && AreDistinct(explicit.items)
      && (forall item <- explicit.items :: IsArgumentName(item))
      && (forall item <- explicit.items :: item.s in arguments)
      && (forall key <- arguments :: Str(key) in explicit.items)
  }

  ghost predicate IsActionOk(value: Json, measure: Measure) {
    value.Obj?
    && var raw := value.fields;
    raw.Keys <= AllowedActionFields()
    && RequiredText(Get(raw, "command"), MAX_COMMAND_LENGTH).Some?
    && IsOptionalText(raw, "title", 300)
    && Get(raw, "arguments").Obj?
    && var arguments := Get(raw, "arguments");
    IsBounded(arguments) && measure(arguments.fields) <= MAX_ARGUMENT_BYTES
    && IsProvenanceOk(raw, arguments.fields)
    && IsExplicitOk(raw, arguments.fields)
  }

  function CommandOf(action: Json): string {
    if action.Obj? && Get(action.fields, "command").Str? then Get(action.fields, "command").s else ""
  }

  predicate IsTerminalCommand(command: string) {
    command == "$rerun" || command == "$resume_flow"
  }

  /** A correction is no meta-command and carries no continuation. */
  predicate IsCorrection(action: Json) {
    action.Obj? && !StartsWith(CommandOf(action), "$")
    && Get(action.fields, "retry_context").Null? && Get(action.fields, "continuation_context").Null?
  }

  predicate ActionHasArguments(action: Json) {
    action.Obj? && Get(action.fields, "arguments").Obj?
  }

  function CorrectionOf(action: Json): Correction
    requires ActionHasArguments(action)
  {
    var raw := action.fields;
    var effective := Get(raw, "arguments_effective");
    Correction(
      CommandOf(action), raw["arguments"].fields, if effective.Obj? then Some(effective.fields) else None,
      ExplicitKeys(raw, "explicit_arguments"))
  }

  /** `_parse_continuation_action` */
  function ParseContext(value: Json): Option<Context> {
    if !value.Obj? then None
    else
      var fields := value.fields;
      var index := RequiredInt(Get(fields, "actionIndex"), 0, MAX_ACTION_INDEX);
      var command := RequiredText(Get(fields, "command"), MAX_COMMAND_LENGTH);
      var area, item := RequiredText(Get(fields, "areaName"), 300), RequiredText(Get(fields, "itemName"), 300);
      if !(fields.Keys <= ContextFields()) || index.None? || command.None? || area.None? || item.None?
         || !IsOptionalText(fields, "description", 1_000) || !IsOptionalText(fields, "status", 1_000)
      then None
      else Some(Context(index.value, command.value, area.value, item.value))
  }

  function ParseRerun(raw: map<string, Json>, arguments: map<string, Json>): (terminal: Option<Terminal>)
    ensures terminal.Some? ==> terminal.value.Rerun?
  {
    var retry := Get(raw, "retry_context");
    if !Get(raw, "continuation_context").Null? || arguments != map[] || !retry.Obj? then None
    else
      var fields := retry.fields;
      var retried, expected := ParseContext(Get(fields, "retried_action")), Get(fields, "expected_next_action");
      if !(fields.Keys <= {"retried_action", "expected_next_action"}) || "expected_next_action" !in fields || retried.None?
      then None
      else if expected.Null? then Some(Rerun(retried.value, None))
      else if ParseContext(expected).None? then None
      else Some(Rerun(retried.value, ParseContext(expected)))
  }

  /** The arguments of a `$resume_flow`, on their own. */
  predicate AreResumeArguments(arguments: map<string, Json>) {
    var mode, rewind := Get(arguments, "mode"), RequiredInt(Get(arguments, "rewind_steps"), 0, MAX_REWIND_STEPS);
    && arguments.Keys <= AllowedResumeArguments()
    && (mode == Str("retry_current") || mode == Str("rewind"))
    && rewind.Some? && (mode == Str("retry_current") <==> rewind.value == 0)
    && RequiredText(Get(arguments, "flow_id"), 300).Some?
    && IsOptionalText(arguments, "filename", 300)
    && IsOptionalText(arguments, "fid", 300)
    && ("filename" in arguments && "fid" in arguments ==> arguments["filename"] == arguments["fid"])
    && (Get(arguments, "flow_commit").Null? || RequiredText(Get(arguments, "flow_commit"), 300).Some?)
    && RequiredInt(Get(arguments, "current_action_index"), 0, MAX_ACTION_INDEX).Some?
    && RequiredText(Get(arguments, "current_command"), MAX_COMMAND_LENGTH).Some?
  }

  function ParseResume(raw: map<string, Json>, arguments: map<string, Json>): (terminal: Option<Terminal>)
    ensures terminal.Some? ==> terminal.value.ResumeFlow?
  {
    var continuation := Get(raw, "continuation_context");
    if !AreResumeArguments(arguments) || !continuation.Obj? || !Get(raw, "retry_context").Null? then None
    else
      var fields := continuation.fields;
      var current, target := ParseContext(Get(fields, "current_action")), ParseContext(Get(fields, "target_action"));
      var rewindSteps := arguments["rewind_steps"].n;
      if !(fields.Keys <= {"expected_arguments", "current_action", "target_action"})
         || !PyEqual(Get(fields, "expected_arguments"), Obj(arguments))
         || current.None? || target.None?
         || Int(current.value.actionIndex) != arguments["current_action_index"]
         || Str(current.value.command) != arguments["current_command"]
         || target.value.actionIndex != current.value.actionIndex - rewindSteps
         || (arguments["mode"] == Str("retry_current") && target != current)
      then None
      else Some(ResumeFlow(arguments, rewindSteps, arguments["mode"].s, current.value, target.value))
  }

  function ParseTerminal(action: Json): Option<Terminal>
    requires ActionHasArguments(action)
  {
    var arguments := action.fields["arguments"].fields;
    if CommandOf(action) == "$rerun" then ParseRerun(action.fields, arguments) else ParseResume(action.fields, arguments)
  }

  ghost predicate AreActionsOk(actions: seq<Json>, measure: Measure) {
    forall i | 0 <= i < |actions| :: IsActionOk(actions[i], measure)
  }

  /** `parse_recovery_plan` */
  ghost function ParsePlan(actions: seq<Json>, measure: Measure): (plan: Option<Plan>)
    ensures plan.Some? ==> |plan.value.corrections| + 1 == |actions| <= MAX_ACTIONS
  {
    var last := |actions| - 1;
    if !(1 <= |actions| <= MAX_ACTIONS) || !AreActionsOk(actions, measure)
       || !IsTerminalCommand(CommandOf(actions[last]))
       || !(forall i | 0 <= i < last :: IsCorrection(actions[i]))
    then None
    else
      var terminal := ParseTerminal(actions[last]);
      if terminal.None? then None
      else Some(Plan(seq(last, i requires 0 <= i < last => CorrectionOf(actions[i])), terminal.value))
  }

  method CheckAction(value: Json, measure: Measure) returns (accepted: bool)
    ensures accepted <==> IsActionOk(value, measure)
  {
    if !value.Obj? {
      return false;
    }
    var raw := value.fields;
    if !(raw.Keys <= AllowedActionFields()) || RequiredText(Get(raw, "command"), MAX_COMMAND_LENGTH).None?
       || !IsOptionalText(raw, "title", 300) || !Get(raw, "arguments").Obj?
    {
      return false;
    }
    var arguments := raw["arguments"];
    accepted := ValidateJson(arguments);
    if !accepted || measure(arguments.fields) > MAX_ARGUMENT_BYTES {
      return false;
    }
    if "arguments_effective" in raw {
      var effective := raw["arguments_effective"];
      if !effective.Obj? {
        return false;
      }
      accepted := ValidateJson(effective);
      if !accepted || !RepeatsExplicit(raw, arguments.fields, effective.fields) {
        return false;
      }
    }
    return IsExplicitOk(raw, arguments.fields);
  }

  method CheckActions(actions: seq<Json>, measure: Measure) returns (accepted: bool)
    ensures accepted <==> AreActionsOk(actions, measure)
  {
    hide IsActionOk;
    for i := 0 to |actions|
      invariant forall j | 0 <= j < i :: IsActionOk(actions[j], measure)
    {
      accepted := CheckAction(actions[i], measure);
      if !accepted {
        return;
      }
    }
    return true;
  }

  method TerminalPositions(actions: seq<Json>) returns (positions: seq<nat>)
    ensures forall p | 0 <= p < |positions| ::
      positions[p] < |actions| && IsTerminalCommand(CommandOf(actions[positions[p]]))
    ensures forall p, q | 0 <= p < q < |positions| :: positions[p] < positions[q]
    ensures forall j | 0 <= j < |actions| && IsTerminalCommand(CommandOf(actions[j])) :: j in positions
  {
    hide IsTerminalCommand, CommandOf;
    positions := [];
    for i := 0 to |actions|
      invariant forall p | 0 <= p < |positions| :: positions[p] < i && IsTerminalCommand(CommandOf(actions[positions[p]]))
      invariant forall p, q | 0 <= p < q < |positions| :: positions[p] < positions[q]
      invariant forall j | 0 <= j < i && IsTerminalCommand(CommandOf(actions[j])) :: j in positions
    {
      if IsTerminalCommand(CommandOf(actions[i])) {
        ghost var before := positions;
        positions := positions + [i];
        assert positions[|before|] == i;
      }
    }
  }

  method CollectCorrections(actions: seq<Json>) returns (corrections: Option<seq<Correction>>)
    requires forall i | 0 <= i < |actions| :: ActionHasArguments(actions[i])
    ensures corrections.Some? <==> forall i | 0 <= i < |actions| :: IsCorrection(actions[i])
    ensures corrections.Some? ==> |corrections.value| == |actions|
    ensures corrections.Some? ==> forall i | 0 <= i < |actions| :: corrections.value[i] == CorrectionOf(actions[i])
  {
    hide IsCorrection, CorrectionOf;
    var found: seq<Correction> := [];
    for i := 0 to |actions|
      invariant |found| == i
      invariant forall j | 0 <= j < i :: IsCorrection(actions[j]) && found[j] == CorrectionOf(actions[j])
    {
      if !IsCorrection(actions[i]) {
        return None;
      }
      found := found + [CorrectionOf(actions[i])];
    }
    return Some(found);
  }

  /** `parse_recovery_plan` as it runs: every action first, then the position of the terminal, then the corrections. */
  method ParseRecoveryPlan(actions: seq<Json>, measure: Measure) returns (plan: Option<Plan>)
    ensures plan == ParsePlan(actions, measure)
  {
    hide IsActionOk, ParseTerminal, IsCorrection, CorrectionOf, CommandOf, IsTerminalCommand;
    if !(1 <= |actions| <= MAX_ACTIONS) {
      return None;
    }
    var accepted := CheckActions(actions, measure);
    if !accepted {
      return None;
    }
    var last := |actions| - 1;
    var positions := TerminalPositions(actions);
    if positions != [last] {
      OneTerminal(actions, positions);
      return None;
    }
    assert positions[0] == last;
    forall i | 0 <= i < |actions| ensures ActionHasArguments(actions[i]) {
      AcceptedHasArguments(actions[i], measure);
    }
    var corrections := CollectCorrections(actions[..last]);
    if corrections.None? {
      return None;
    }
    var terminal := ParseTerminal(actions[last]);
    assert ParsePlan(actions, measure).Some? ==> corrections.value == ParsePlan(actions, measure).value.corrections;
    return if terminal.None? then None else Some(Plan(corrections.value, terminal.value));
  }

  lemma AcceptedHasArguments(action: Json, measure: Measure)
    requires IsActionOk(action, measure)
    ensures ActionHasArguments(action)
  {
    hide IsBounded, IsProvenanceOk, IsExplicitOk, IsOptionalText, RequiredText;
  }

  /** When the last action is the terminal and all others are corrections, the terminal's position is the only one. */
  lemma OneTerminal(actions: seq<Json>, positions: seq<nat>)
    requires actions != [] && positions != [|actions| - 1]
    requires forall p | 0 <= p < |positions| ::
      positions[p] < |actions| && IsTerminalCommand(CommandOf(actions[positions[p]]))
    requires forall p, q | 0 <= p < q < |positions| :: positions[p] < positions[q]
    requires forall j | 0 <= j < |actions| && IsTerminalCommand(CommandOf(actions[j])) :: j in positions
    ensures !IsTerminalCommand(CommandOf(actions[|actions| - 1]))
      || exists i | 0 <= i < |actions| - 1 :: !IsCorrection(actions[i])
  {
    var last := |actions| - 1;
    if |positions| > 1 {
      assert positions[0] < positions[1] && !IsCorrection(actions[positions[0]]);
    } else {
      assert last !in positions;
    }
  }

  // ---------------------------------------------------------------- the live Flow

  predicate IsDisabled(fields: map<string, Json>) {
    Get(fields, "_disabled") == Bool(true)
  }

  predicate HasIndex(contexts: seq<Context>, index: int) {
    exists i | 0 <= i < |contexts| :: contexts[i].actionIndex == index
  }

  function AddAction(action: Json, area: string, item: string, found: seq<Context>): Option<seq<Context>> {
    if !action.Obj? || IsDisabled(action.fields) then Some(found)
    else
      var index := RequiredInt(Get(action.fields, "action_index"), 0, MAX_ACTION_INDEX);
      var command := RequiredText(Get(action.fields, "command"), MAX_COMMAND_LENGTH);
      if index.None? || HasIndex(found, index.value) || command.None? then None
      else Some(found + [Context(index.value, command.value, area, item)])
  }

  function AddActions(actions: seq<Json>, area: string, item: string, found: seq<Context>): Option<seq<Context>>
    decreases |actions|
  {
    if actions == [] then Some(found)
    else
      var more := AddAction(actions[0], area, item, found);
      if more.None? then None else AddActions(actions[1..], area, item, more.value)
  }

  function AddItem(item: Json, area: string, found: seq<Context>): Option<seq<Context>> {
    if !item.Obj? || IsDisabled(item.fields) then Some(found)
    else
      var name := RequiredText(Get(item.fields, "name"), 300);
      if name.None? || !Get(item.fields, "actions").Arr? then None
      else AddActions(item.fields["actions"].items, area, name.value, found)
  }

  function AddItems(items: seq<Json>, area: string, found: seq<Context>): Option<seq<Context>>
    decreases |items|
  {
    if items == [] then Some(found)
    else
      var more := AddItem(items[0], area, found);
      if more.None? then None else AddItems(items[1..], area, more.value)
  }

  function AddArea(area: Json, found: seq<Context>): Option<seq<Context>> {
    if !area.Obj? || IsDisabled(area.fields) then Some(found)
    else
      var name := RequiredText(Get(area.fields, "name"), 300);
      if name.None? || !Get(area.fields, "items").Arr? then None
      else AddItems(area.fields["items"].items, name.value, found)
  }

  function AddAreas(areas: seq<Json>, found: seq<Context>): Option<seq<Context>>
    decreases |areas|
  {
    if areas == [] then Some(found)
    else
      var more := AddArea(areas[0], found);
      if more.None? then None else AddAreas(areas[1..], more.value)
  }

  /** The enabled actions of a Flow, in order. */
  function FlowContexts(flow: map<string, Json>): Option<seq<Context>> {
    if Get(flow, "areas").Arr? then AddAreas(flow["areas"].items, []) else None
  }

  /** `flow_action_contexts` */
  method FlowActionContexts(flow: map<string, Json>) returns (contexts: Option<seq<Context>>)
    ensures contexts == FlowContexts(flow)
  {
    if !Get(flow, "areas").Arr? {
      return None;
    }
    var areas, found := flow["areas"].items, [];
    for a := 0 to |areas|
      invariant FlowContexts(flow) == AddAreas(areas[a..], found)
    {
      var area := areas[a];
      if !area.Obj? || IsDisabled(area.fields) {
        continue;
      }
      var areaName := RequiredText(Get(area.fields, "name"), 300);
      if areaName.None? || !Get(area.fields, "items").Arr? {
        return None;
      }
      var items := area.fields["items"].items;
      ghost var before := found;
      for i := 0 to |items|
        invariant AddArea(area, before) == AddItems(items[i..], areaName.value, found)
      {
        var item := items[i];
        if !item.Obj? || IsDisabled(item.fields) {
          continue;
        }
        var itemName := RequiredText(Get(item.fields, "name"), 300);
        if itemName.None? || !Get(item.fields, "actions").Arr? {
          return None;
        }
        contexts := CollectActions(item.fields["actions"].items, areaName.value, itemName.value, found);
        if contexts.None? {
          return;
        }
        found := contexts.value;
      }
    }
    return Some(found);
  }

  method CollectActions(actions: seq<Json>, area: string, item: string, known: seq<Context>)
    returns (contexts: Option<seq<Context>>)
    ensures contexts == AddActions(actions, area, item, known)
  {
    var found := known;
    for i := 0 to |actions|
      invariant AddActions(actions, area, item, known) == AddActions(actions[i..], area, item, found)
    {
      var action := actions[i];
      if !action.Obj? || IsDisabled(action.fields) {
        continue;
      }
      var index := RequiredInt(Get(action.fields, "action_index"), 0, MAX_ACTION_INDEX);
      if index.None? || HasIndex(found, index.value) {
        return None;
      }
      var command := RequiredText(Get(action.fields, "command"), MAX_COMMAND_LENGTH);
      if command.None? {
        return None;
      }
      found := found + [Context(index.value, command.value, area, item)];
    }
    return Some(found);
  }

  /** The context of an index; indices are unique in an accepted Flow. */
  function ContextAt(contexts: seq<Context>, index: int): (context: Option<Context>)
    ensures context.Some? ==> context.value in contexts && context.value.actionIndex == index
  {
    if contexts == [] then None
    else if contexts[0].actionIndex == index then Some(contexts[0])
    else ContextAt(contexts[1..], index)
  }

  predicate AreUnambiguous(contexts: seq<Context>) {
    forall i, j | 0 <= i < j < |contexts| :: contexts[i].actionIndex != contexts[j].actionIndex
  }

  function IndexOfContext(contexts: seq<Context>, context: Context): (i: nat)
    requires context in contexts
    ensures i < |contexts| && contexts[i] == context
  {
    if contexts[0] == context then 0 else 1 + IndexOfContext(contexts[1..], context)
  }

  function NextContext(contexts: seq<Context>, context: Context): Option<Context>
    requires context in contexts
  {
    var i := IndexOfContext(contexts, context) + 1;
    if i < |contexts| then Some(contexts[i]) else None
  }

  // ---------------------------------------------------------------- the guards

  function StepOf(plan: Plan): Context {
    if plan.terminal.Rerun? then plan.terminal.retry else plan.terminal.current
  }

  /** `validate_plan_for_target` and `validate_plan_for_session` */
  predicate FitsStep(plan: Plan, actionIndex: int, actionCommand: string) {
    StepOf(plan).actionIndex == actionIndex && StepOf(plan).command == actionCommand
  }

  /** `validate_plan_for_flow` */
  predicate FitsFlow(plan: Plan, pointer: FlowPointer) {
    !pointer.completed && pointer.actionIndex.Some? && pointer.actionCommand.Some?
    && FlowContexts(pointer.raw).Some?
    && FitsContexts(plan, FlowContexts(pointer.raw).value, pointer.actionIndex.value, pointer.actionCommand.value)
  }

  predicate FitsContexts(plan: Plan, contexts: seq<Context>, actionIndex: int, actionCommand: string) {
    var current := ContextAt(contexts, actionIndex);
    current.Some? && current.value.command == actionCommand
    && match plan.terminal
       case ResumeFlow(_, rewindSteps, _, captured, target) =>
         captured == current.value && Some(target) == ContextAt(contexts, actionIndex - rewindSteps)
       case Rerun(retry, expectedNext) => retry == current.value && expectedNext == NextContext(contexts, retry)
  }

  function TextJson(text: Option<string>): Json {
    if text.Some? then Str(text.value) else Null
  }

  /** `build_guarded_resume_arguments` */
  function GuardedArguments(pointer: FlowPointer, rewindSteps: int, mode: string): Option<map<string, Json>> {
    if pointer.actionIndex.None? || pointer.actionCommand.None? || !(0 <= rewindSteps <= MAX_REWIND_STEPS)
       || (mode != "retry_current" && mode != "rewind") || (mode == "retry_current" && rewindSteps != 0)
    then None
    else Some(ArgumentsFor(pointer, pointer.actionIndex.value, pointer.actionCommand.value, rewindSteps, mode))
  }

  predicate HasCommit(pointer: FlowPointer) {
    pointer.flowCommit.Some? || "flow_commit" in pointer.raw
  }

  function WithField(fields: map<string, Json>, key: string, present: bool, value: Json): map<string, Json> {
    if present then fields[key := value] else fields
  }

  function StepArguments(flowId: string, index: int, command: string, rewindSteps: int, mode: string): map<string, Json> {
    map["mode" := Str(mode), "rewind_steps" := Int(rewindSteps), "current_action_index" := Int(index),
        "current_command" := Str(command), "flow_id" := Str(flowId)]
  }

  function ArgumentsFor(
      pointer: FlowPointer, index: int, command: string, rewindSteps: int, mode: string): map<string, Json> {
    var step := StepArguments(pointer.flowId, index, command, rewindSteps, mode);
    var named := WithField(step, "filename", pointer.filename.Some?, TextJson(pointer.filename));
    var identified := WithField(named, "fid", pointer.fid.Some?, TextJson(pointer.fid));
    WithField(identified, "flow_commit", HasCommit(pointer), TextJson(pointer.flowCommit))
  }

  function WithName(names: seq<Json>, name: string, present: bool): seq<Json> {
    if present then names + [Str(name)] else names
  }

  function StepNames(): seq<Json> {
    [Str("mode"), Str("rewind_steps"), Str("current_action_index"), Str("current_command"), Str("flow_id")]
  }

  /** The names of those arguments, in insertion order. */
  function ArgumentNames(pointer: FlowPointer): seq<Json> {
    var named := WithName(StepNames(), "filename", pointer.filename.Some?);
    WithName(WithName(named, "fid", pointer.fid.Some?), "flow_commit", HasCommit(pointer))
  }

  /** The guard fields pinned in the arguments equal the live pointer's. */
  predicate MatchesPointer(arguments: map<string, Json>, pointer: FlowPointer) {
    var fid := if pointer.fid.Some? then pointer.fid else pointer.filename;
    && PyEqual(Get(arguments, "current_action_index"), if pointer.actionIndex.Some? then Int(pointer.actionIndex.value) else Null)
    && Get(arguments, "current_command") == TextJson(pointer.actionCommand)
    && ("flow_id" in arguments ==> arguments["flow_id"] == Str(pointer.flowId))
    && ("filename" in arguments ==> arguments["filename"] == TextJson(pointer.filename))
    && ("fid" in arguments ==> arguments["fid"] == TextJson(fid))
    && ("flow_commit" in arguments ==> arguments["flow_commit"] == TextJson(pointer.flowCommit))
  }

  /** `resume_arguments_for_plan`: a modern continuation is sent unchanged, or not at all. */
  function ResumeArguments(plan: Plan, pointer: FlowPointer): Option<map<string, Json>> {
    match plan.terminal
    case Rerun(_, _) => GuardedArguments(pointer, 0, "retry_current")
    case ResumeFlow(arguments, _, _, _, _) => if MatchesPointer(arguments, pointer) then Some(arguments) else None
  }

  /** `validate_resume_acknowledgement` */
  predicate IsAcknowledged(value: Json, pointer: FlowPointer, rewindSteps: int, mode: string)
    requires pointer.actionIndex.Some? && pointer.actionCommand.Some?
  {
    value.Obj?
    && var ack, index := value.fields, pointer.actionIndex.value;
    PyEqual(Get(ack, "accepted"), Bool(true)) && Get(ack, "mode") == Str(mode)
    && PyEqual(Get(ack, "rewind_steps"), Int(rewindSteps)) && PyEqual(Get(ack, "previous_action_index"), Int(index))
    && PyEqual(Get(ack, "target_action_index"), Int(index - rewindSteps))
    && Get(ack, "current_command") == TextJson(pointer.actionCommand) && Get(ack, "flow_id") == Str(pointer.flowId)
    && (pointer.filename.Some? ==> Get(ack, "filename") == TextJson(pointer.filename))
    && (pointer.flowCommit.Some? ==> Get(ack, "flow_commit") == TextJson(pointer.flowCommit))
  }

  // ---------------------------------------------------------------- rebinding

  function ContextPayload(context: Context): Json {
    Obj(map["actionIndex" := Int(context.actionIndex), "command" := Str(context.command),
            "areaName" := Str(context.areaName), "itemName" := Str(context.itemName)])
  }

  predicate SamePlace(a: Context, b: Context) {
    a.command == b.command && a.areaName == b.areaName && a.itemName == b.itemName
  }

  function ContinuationFor(arguments: map<string, Json>, current: Context, target: Context): Json {
    Obj(map["expected_arguments" := Obj(arguments), "current_action" := ContextPayload(current),
            "target_action" := ContextPayload(target)])
  }

  function WithArguments(
      raw: map<string, Json>, arguments: map<string, Json>, names: seq<Json>, continuation: Json): map<string, Json> {
    var bound := raw["arguments" := Obj(arguments)];
    var effective := if "arguments_effective" in bound then bound["arguments_effective" := Obj(arguments)] else bound;
    var explicit := if "explicit_arguments" in effective then effective["explicit_arguments" := Arr(names)] else effective;
    explicit["continuation_context" := continuation]
  }

  /** The captured pointer of a failure snapshot, when it is the paused step the failure names. */
  function SnapshotPointer(flow: Json, flowId: string, actionIndex: int, actionCommand: string): Option<FlowPointer> {
    var pointer := ParseFlowPointer(flow, 0, 0);
    if pointer.None? || pointer.value.completed || FlowOutcome.StatusOf(pointer.value) != "paused"
       || pointer.value.flowId != flowId || pointer.value.actionIndex != Some(actionIndex)
       || pointer.value.actionCommand != Some(actionCommand)
    then None
    else pointer
  }

  ghost function RebindTerminal(actions: seq<Json>, plan: Plan, pointer: FlowPointer, measure: Measure): Option<seq<Json>>
    requires plan.terminal.ResumeFlow? && actions != [] && actions[|actions| - 1].Obj? && pointer.actionIndex.Some?
  {
    var contexts := FlowContexts(pointer.raw);
    if contexts.None? then None
    else
      var t, index := plan.terminal, pointer.actionIndex.value;
      var current, target := ContextAt(contexts.value, index), ContextAt(contexts.value, index - t.rewindSteps);
      if current.None? || target.None? || !SamePlace(t.current, current.value) || !SamePlace(t.target, target.value)
         || t.current.actionIndex - t.target.actionIndex != t.rewindSteps
      then None
      else
        var arguments := GuardedArguments(pointer, t.rewindSteps, t.mode);
        if arguments.None? then None
        else
          var last := |actions| - 1;
          var continuation := ContinuationFor(arguments.value, current.value, target.value);
          var terminal := WithArguments(actions[last].fields, arguments.value, ArgumentNames(pointer), continuation);
          var rebound := actions[last := Obj(terminal)];
          var parsed := ParsePlan(rebound, measure);
          if parsed.None? || !FitsFlow(parsed.value, pointer) then None else Some(rebound)
  }

  /** `rebind_recovery_actions` */
  ghost function Rebind(
      actions: seq<Json>, flow: Json, flowId: string, actionIndex: int, actionCommand: string, measure: Measure): Option<seq<Json>> {
    var pointer := SnapshotPointer(flow, flowId, actionIndex, actionCommand);
    var plan := ParsePlan(actions, measure);
    if pointer.None? || plan.None? then None
    else if plan.value.terminal.Rerun? then if FitsFlow(plan.value, pointer.value) then Some(actions) else None
    else RebindTerminal(actions, plan.value, pointer.value, measure)
  }
}
