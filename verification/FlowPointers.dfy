/** The identity of a live Flow frame (`parse_flow_pointer` in `robot_session.py`). */
module FlowPointers {
  import opened Text
  import opened Json

  datatype FlowPointer = FlowPointer(
    revision: nat, flowId: string, status: string, actionIndex: Option<int>, actionCommand: Option<string>,
    filename: Option<string>, fid: Option<string>, flowCommit: Option<string>, raw: map<string, Json>,
    generation: nat, completed: bool)

  const SUCCESS_STATUSES := {"ready", "completed", "complete", "finished", "succeeded", "success"}
  const STOPPED_ACTION_STATUSES := ["failed", "aborted", "in_progress"]

  function TextOf(value: Json): Option<string> {
    if value.Str? && Strip(value.s) != "" then Some(Strip(value.s)) else None
  }

  function IntegerOf(value: Json): Option<int> {
    if value.Int? then Some(value.n) else None
  }

  function ObjectsOf(values: seq<Json>): seq<map<string, Json>> {
    if values == [] then []
    else (if values[0].Obj? then [values[0].fields] else []) + ObjectsOf(values[1..])
  }

  function ListOf(fields: map<string, Json>, key: string): seq<Json> {
    if Get(fields, key).Arr? then Get(fields, key).items else []
  }

  function ItemActions(items: seq<map<string, Json>>): seq<map<string, Json>> {
    if items == [] then [] else ObjectsOf(ListOf(items[0], "actions")) + ItemActions(items[1..])
  }

  function AreaActions(areas: seq<map<string, Json>>): seq<map<string, Json>> {
    if areas == [] then [] else ItemActions(ObjectsOf(ListOf(areas[0], "items"))) + AreaActions(areas[1..])
  }

  function FlowActions(flow: map<string, Json>): seq<map<string, Json>> {
    AreaActions(ObjectsOf(ListOf(flow, "areas")))
  }

  function FirstWithIndex(actions: seq<map<string, Json>>, index: int): Option<map<string, Json>> {
    if actions == [] then None
    else if IntegerOf(Get(actions[0], "action_index")) == Some(index) then Some(actions[0])
    else FirstWithIndex(actions[1..], index)
  }

  function FirstWithStatus(actions: seq<map<string, Json>>, status: string): Option<map<string, Json>> {
    if actions == [] then None
    else if TextOf(Get(actions[0], "status")) == Some(status) then Some(actions[0])
    else FirstWithStatus(actions[1..], status)
  }

  function FirstStopped(actions: seq<map<string, Json>>, statuses: seq<string>): Option<map<string, Json>> {
    if statuses == [] then None
    else
      var hit := FirstWithStatus(actions, statuses[0]);
      if hit.Some? then hit else FirstStopped(actions, statuses[1..])
  }

  function FlowIdentity(flow: map<string, Json>): Option<string> {
    if TextOf(Get(flow, "id")).Some? then TextOf(Get(flow, "id"))
    else if TextOf(Get(flow, "filename")).Some? then TextOf(Get(flow, "filename"))
    else TextOf(Get(flow, "fid"))
  }

  function CurrentAction(flow: map<string, Json>): Option<map<string, Json>> {
    var actions := FlowActions(flow);
    var index := IntegerOf(Get(flow, "current_action_index"));
    var current := if index.Some? then FirstWithIndex(actions, index.value) else None;
    if current.Some? then current else FirstStopped(actions, STOPPED_ACTION_STATUSES)
  }

  predicate IsPastLastAction(flow: map<string, Json>, status: string) {
    IntegerOf(Get(flow, "current_action_index")) == Some(|FlowActions(flow)|) && Lower(status) in SUCCESS_STATUSES
  }

  function ParseFlowPointer(flow: Json, revision: nat, generation: nat): (pointer: Option<FlowPointer>)
    ensures pointer.Some? ==> pointer.value.revision == revision && pointer.value.generation == generation
    ensures pointer.Some? && pointer.value.completed ==> Lower(pointer.value.status) in SUCCESS_STATUSES
    ensures pointer.Some? && !pointer.value.completed ==>
      pointer.value.actionCommand.Some? && pointer.value.actionIndex.Some? && pointer.value.actionIndex.value >= 0
  {
    if !flow.Obj? then None
    else
      var fields := flow.fields;
      var flowId, status := FlowIdentity(fields), TextOf(Get(fields, "status"));
      if flowId.None? || status.None? then None
      else
        var filename, fid, commit :=
          TextOf(Get(fields, "filename")), TextOf(Get(fields, "fid")), TextOf(Get(fields, "flow_commit"));
        if IsPastLastAction(fields, status.value) then
          Some(FlowPointer(
            revision, flowId.value, status.value, None, None, filename, fid, commit, fields, generation, true))
        else
          var current := CurrentAction(fields);
          var index := if current.Some? then IntegerOf(Get(current.value, "action_index")) else None;
          var command := if current.Some? then TextOf(Get(current.value, "command")) else None;
          if index.None? || index.value < 0 || command.None? then None
          else
            Some(FlowPointer(
              revision, flowId.value, status.value, index, command, filename, fid, commit, fields, generation, false))
  }

  // ---------------------------------------------------------------- which action is the current one

  /** The action's own index is the one the Flow names as current. */
  predicate HasCurrentIndex(flow: map<string, Json>, action: map<string, Json>) {
    var index := IntegerOf(Get(flow, "current_action_index"));
    index.Some? && IntegerOf(Get(action, "action_index")) == index
  }

  predicate HasStatus(action: map<string, Json>, status: string) {
    TextOf(Get(action, "status")) == Some(status)
  }

  /** The first action with the index that the Flow names. */
  predicate IsIndexed(flow: map<string, Json>, k: nat) {
    var actions := FlowActions(flow);
    k < |actions| && HasCurrentIndex(flow, actions[k]) && forall j | 0 <= j < k :: !HasCurrentIndex(flow, actions[j])
  }

  /** The stopped statuses, the most urgent first. */
  function Urgency(): seq<string> {
    ["failed", "aborted", "in_progress"]
  }

  /** No action has that index, and this is the first one with the most urgent stopped status there is. */
  predicate IsStopped(flow: map<string, Json>, k: nat, r: nat) {
    var actions := FlowActions(flow);
    && (forall j | 0 <= j < |actions| :: !HasCurrentIndex(flow, actions[j]))
    && k < |actions| && r < |Urgency()| && HasStatus(actions[k], Urgency()[r])
    && (forall j | 0 <= j < k :: !HasStatus(actions[j], Urgency()[r]))
    && (forall q, j | 0 <= q < r && 0 <= j < |actions| :: !HasStatus(actions[j], Urgency()[q]))
  }

  predicate IsCurrent(flow: map<string, Json>, k: nat) {
    IsIndexed(flow, k) || exists r | 0 <= r < |Urgency()| :: IsStopped(flow, k, r)
  }

  lemma {:induction false} FirstWithIndexAt(actions: seq<map<string, Json>>, index: int) returns (k: nat)
    ensures FirstWithIndex(actions, index).None? ==>
      forall j | 0 <= j < |actions| :: IntegerOf(Get(actions[j], "action_index")) != Some(index)
    ensures FirstWithIndex(actions, index).Some? ==>
      k < |actions| && FirstWithIndex(actions, index) == Some(actions[k])
      && IntegerOf(Get(actions[k], "action_index")) == Some(index)
      && forall j | 0 <= j < k :: IntegerOf(Get(actions[j], "action_index")) != Some(index)
  {
    hide IntegerOf;
    k := 0;
    if actions != [] && IntegerOf(Get(actions[0], "action_index")) != Some(index) {
      var later := FirstWithIndexAt(actions[1..], index);
      k := later + 1;
    }
  }

  lemma {:induction false} FirstWithStatusAt(actions: seq<map<string, Json>>, status: string) returns (k: nat)
    ensures FirstWithStatus(actions, status).None? ==> forall j | 0 <= j < |actions| :: !HasStatus(actions[j], status)
    ensures FirstWithStatus(actions, status).Some? ==>
      k < |actions| && FirstWithStatus(actions, status) == Some(actions[k])
      && HasStatus(actions[k], status) && forall j | 0 <= j < k :: !HasStatus(actions[j], status)
  {
    hide TextOf;
    k := 0;
    if actions != [] && !HasStatus(actions[0], status) {
      var later := FirstWithStatusAt(actions[1..], status);
      k := later + 1;
    }
  }

  lemma {:induction false} FirstStoppedAt(actions: seq<map<string, Json>>, statuses: seq<string>) returns (k: nat, r: nat)
    ensures FirstStopped(actions, statuses).None? ==>
      forall q, j | 0 <= q < |statuses| && 0 <= j < |actions| :: !HasStatus(actions[j], statuses[q])
    ensures FirstStopped(actions, statuses).Some? ==>
      && r < |statuses| && k < |actions| && FirstStopped(actions, statuses) == Some(actions[k])
      && HasStatus(actions[k], statuses[r]) && (forall j | 0 <= j < k :: !HasStatus(actions[j], statuses[r]))
      && (forall q, j | 0 <= q < r && 0 <= j < |actions| :: !HasStatus(actions[j], statuses[q]))
  {
    hide HasStatus, FirstWithStatus;
    k, r := 0, 0;
    if statuses != [] {
      k := FirstWithStatusAt(actions, statuses[0]);
      if FirstWithStatus(actions, statuses[0]).None? {
        var later: nat;
        k, later := FirstStoppedAt(actions, statuses[1..]);
        r := later + 1;
      }
    }
  }

  lemma CurrentActionAt(flow: map<string, Json>) returns (k: nat)
    ensures CurrentAction(flow).Some? ==> IsCurrent(flow, k) && CurrentAction(flow) == Some(FlowActions(flow)[k])
    ensures CurrentAction(flow).None? ==> forall j: nat :: !IsCurrent(flow, j)
  {
    hide FlowActions, FirstWithIndex, FirstStopped, HasStatus;
    var actions, index := FlowActions(flow), IntegerOf(Get(flow, "current_action_index"));
    if index.Some? {
      k := FirstWithIndexAt(actions, index.value);
    }
    if index.None? || FirstWithIndex(actions, index.value).None? {
      var r: nat;
      k, r := FirstStoppedAt(actions, STOPPED_ACTION_STATUSES);
      if FirstStopped(actions, STOPPED_ACTION_STATUSES).Some? {
        assert IsStopped(flow, k, r);
      }
    } else {
      assert IsIndexed(flow, k);
    }
  }

  lemma CurrentIsUnique(flow: map<string, Json>, j: nat, k: nat)
    requires IsCurrent(flow, j) && IsCurrent(flow, k)
    ensures j == k
  {
    hide FlowActions, HasStatus, HasCurrentIndex;
    if !IsIndexed(flow, j) && !IsIndexed(flow, k) {
      var q :| 0 <= q < |Urgency()| && IsStopped(flow, j, q);
      var r :| 0 <= r < |Urgency()| && IsStopped(flow, k, r);
    }
  }

  /**
   An uncompleted pointer names the index and command of the Flow's current action: the first with the index that the
   Flow names, or, if there is none, the first failed, else aborted, else running one. There is one such action.
   */
  lemma PointerNamesCurrentAction(flow: Json, revision: nat, generation: nat, k: nat)
    requires ParseFlowPointer(flow, revision, generation).Some?
    requires !ParseFlowPointer(flow, revision, generation).value.completed
    ensures flow.Obj?
    ensures IsCurrent(flow.fields, k) ==>
      var p, action := ParseFlowPointer(flow, revision, generation).value, FlowActions(flow.fields)[k];
      k < |FlowActions(flow.fields)|
      && p.actionIndex == IntegerOf(Get(action, "action_index")) && p.actionCommand == TextOf(Get(action, "command"))
    ensures exists j: nat :: IsCurrent(flow.fields, j)
  {
    hide FlowActions, IsCurrent, IntegerOf, TextOf, CurrentAction, IsPastLastAction;
    var at := CurrentActionAt(flow.fields);
    CurrentInRange(flow.fields, at);
    if IsCurrent(flow.fields, k) {
      CurrentIsUnique(flow.fields, at, k);
    }
  }

  lemma CurrentInRange(flow: map<string, Json>, k: nat)
    ensures IsCurrent(flow, k) ==> k < |FlowActions(flow)|
  {
  }

  // ---------------------------------------------------------------- the whole pointer

  /** A field says this text when it is trimmed, or says nothing. */
  predicate Says(fields: map<string, Json>, key: string, text: Option<string>) {
    var value := Get(fields, key);
    if text.Some? then value.Str? && Strip(value.s) == text.value && text.value != ""
    else value.Str? ==> Strip(value.s) == ""
  }

  /** A Flow is known by its identifier, else by its file name, else by its file identifier. */
  predicate IsKnownAs(fields: map<string, Json>, flowId: string) {
    || Says(fields, "id", Some(flowId))
    || (Says(fields, "id", None) && Says(fields, "filename", Some(flowId)))
    || (Says(fields, "id", None) && Says(fields, "filename", None) && Says(fields, "fid", Some(flowId)))
  }

  /** All actions are done, and the status is one of success. */
  predicate IsDone(fields: map<string, Json>, status: string) {
    Get(fields, "current_action_index") == Int(|FlowActions(fields)|) && Lower(status) in SUCCESS_STATUSES
  }

  predicate NamesStep(fields: map<string, Json>, k: nat, p: FlowPointer) {
    IsCurrent(fields, k) && k < |FlowActions(fields)| && p.actionIndex.Some? && p.actionIndex.value >= 0
    && Get(FlowActions(fields)[k], "action_index") == Int(p.actionIndex.value)
    && p.actionCommand.Some? && Says(FlowActions(fields)[k], "command", p.actionCommand)
  }

  /** Everything that a pointer takes from the Flow frame. */
  ghost predicate Shows(flow: Json, revision: nat, generation: nat, p: FlowPointer) {
    flow.Obj? && p.raw == flow.fields && p.revision == revision && p.generation == generation
    && IsKnownAs(flow.fields, p.flowId) && Says(flow.fields, "status", Some(p.status))
    && Says(flow.fields, "filename", p.filename) && Says(flow.fields, "fid", p.fid)
    && Says(flow.fields, "flow_commit", p.flowCommit)
    && (p.completed <==> IsDone(flow.fields, p.status))
    && if p.completed then p.actionIndex.None? && p.actionCommand.None?
       else exists k: nat :: NamesStep(flow.fields, k, p)
  }

  lemma TextIff(fields: map<string, Json>, key: string)
    ensures forall text :: TextOf(Get(fields, key)) == text <==> Says(fields, key, text)
  {
    hide Strip;
  }

  lemma KnownIff(fields: map<string, Json>, flowId: string)
    ensures FlowIdentity(fields) == Some(flowId) <==> IsKnownAs(fields, flowId)
  {
    hide TextOf, Says;
    TextIff(fields, "id");
    TextIff(fields, "filename");
    TextIff(fields, "fid");
  }

  lemma DoneIff(fields: map<string, Json>, status: string)
    ensures IsPastLastAction(fields, status) <==> IsDone(fields, status)
  {
    hide FlowActions, Lower;
  }

  lemma StepIff(fields: map<string, Json>, p: FlowPointer)
    ensures (exists k: nat :: NamesStep(fields, k, p))
      <==> CurrentAction(fields).Some? && p.actionIndex.Some? && p.actionIndex.value >= 0 && p.actionCommand.Some?
           && IntegerOf(Get(CurrentAction(fields).value, "action_index")) == p.actionIndex
           && TextOf(Get(CurrentAction(fields).value, "command")) == p.actionCommand
  {
    hide FlowActions, IsCurrent, CurrentAction, TextOf, Says;
    var at := CurrentActionAt(fields);
    CurrentInRange(fields, at);
    if exists k: nat :: NamesStep(fields, k, p) {
      var k: nat :| NamesStep(fields, k, p);
      CurrentIsUnique(fields, at, k);
    }
    if CurrentAction(fields).Some? {
      TextIff(FlowActions(fields)[at], "command");
      if p.actionIndex.Some? && p.actionIndex.value >= 0 && p.actionCommand.Some?
         && IntegerOf(Get(CurrentAction(fields).value, "action_index")) == p.actionIndex
         && TextOf(Get(CurrentAction(fields).value, "command")) == p.actionCommand
      {
        assert NamesStep(fields, at, p);
      }
    }
  }

  /** A frame is parsed to a pointer if and only if the pointer shows it, field by field. */
  lemma PointerIff(flow: Json, revision: nat, generation: nat, p: FlowPointer)
    ensures ParseFlowPointer(flow, revision, generation) == Some(p) <==> Shows(flow, revision, generation, p)
  {
    hide FlowIdentity, IsKnownAs, TextOf, Says, IsPastLastAction, IsDone, CurrentAction, NamesStep, IntegerOf;
    if flow.Obj? {
      var fields := flow.fields;
      KnownIff(fields, p.flowId);
      TextIff(fields, "status");
      TextIff(fields, "filename");
      TextIff(fields, "fid");
      TextIff(fields, "flow_commit");
      DoneIff(fields, p.status);
      StepIff(fields, p);
    }
  }
}
