/**
 The action tree of a Flow and the plan that fits it, without the loops: which actions a Flow has enabled, when its tree
 is accepted, and where in it the step of a fitting plan lies.
 */
module FlowTree {
  import opened Text
  import opened Json
  import opened Contracts
  import opened FlowPointers
  import opened RecoveryLifecycle
  import opened RecoveryPlan
  import opened RecoveryRebinding

  // ---------------------------------------------------------------- the tree, flattened

  /** The objects of a list that are not switched off. */
  function EnabledOf(values: seq<Json>): seq<map<string, Json>> {
    if values == [] then []
    else if values[0].Obj? && Get(values[0].fields, "_disabled") != Bool(true) then [values[0].fields] + EnabledOf(values[1..])
    else EnabledOf(values[1..])
  }

  function StepFor(action: map<string, Json>, area: string, item: string): Context {
    var index, command := Get(action, "action_index"), Get(action, "command");
    Context(if index.Int? then index.n else 0, if command.Str? then command.s else "", area, item)
  }

  function StepsFor(actions: seq<map<string, Json>>, area: string, item: string): seq<Context> {
    if actions == [] then [] else [StepFor(actions[0], area, item)] + StepsFor(actions[1..], area, item)
  }

  function NameOf(part: map<string, Json>): string {
    if Get(part, "name").Str? then Get(part, "name").s else ""
  }

  function ItemSteps(item: map<string, Json>, area: string): seq<Context> {
    StepsFor(EnabledOf(ListOf(item, "actions")), area, NameOf(item))
  }

  function ItemsSteps(items: seq<map<string, Json>>, area: string): seq<Context> {
    if items == [] then [] else ItemSteps(items[0], area) + ItemsSteps(items[1..], area)
  }

  function AreaSteps(area: map<string, Json>): seq<Context> {
    ItemsSteps(EnabledOf(ListOf(area, "items")), NameOf(area))
  }

  function AreasSteps(areas: seq<map<string, Json>>): seq<Context> {
    if areas == [] then [] else AreaSteps(areas[0]) + AreasSteps(areas[1..])
  }

  /** The enabled actions of the enabled items of the enabled areas, in order. */
  function EnabledSteps(flow: map<string, Json>): seq<Context> {
    AreasSteps(EnabledOf(ListOf(flow, "areas")))
  }

  predicate IsNamed(part: map<string, Json>, parts: string) {
    Get(part, "name").Str? && IsText(Get(part, "name").s, 300) && Get(part, parts).Arr?
  }

  predicate IsStep(action: map<string, Json>) {
    && Get(action, "action_index").Int? && 0 <= Get(action, "action_index").n <= 1_000_000
    && Get(action, "command").Str? && IsText(Get(action, "command").s, 128)
  }

  predicate IsItem(item: map<string, Json>) {
    IsNamed(item, "actions") && forall action <- EnabledOf(ListOf(item, "actions")) :: IsStep(action)
  }

  predicate IsArea(area: map<string, Json>) {
    IsNamed(area, "items") && forall item <- EnabledOf(ListOf(area, "items")) :: IsItem(item)
  }

  predicate IsTree(flow: map<string, Json>) {
    Get(flow, "areas").Arr? && forall area <- EnabledOf(ListOf(flow, "areas")) :: IsArea(area)
  }

  // ---------------------------------------------------------------- the loops compute it

  /** The outcome of going on from `found` with these further steps. */
  function Extended(found: seq<Context>, steps: seq<Context>, accepted: bool): Option<seq<Context>> {
    if accepted && AreUnambiguous(found + steps) then Some(found + steps) else None
  }

  lemma ExtendedTwice(found: seq<Context>, a: seq<Context>, b: seq<Context>, first: bool, second: bool)
    ensures
      Extended(found, a + b, first && second)
      == if Extended(found, a, first).None? then None else Extended(Extended(found, a, first).value, b, second)
  {
    assert found + (a + b) == found + a + b;
    if AreUnambiguous(found + a + b) {
      assert forall i | 0 <= i < |found + a| :: (found + a)[i] == (found + a + b)[i];
    }
  }

  lemma OneMoreStep(found: seq<Context>, c: Context)
    requires AreUnambiguous(found)
    ensures AreUnambiguous(found + [c]) <==> !HasIndex(found, c.actionIndex)
  {
    assert (found + [c])[|found|] == c && forall i | 0 <= i < |found| :: (found + [c])[i] == found[i];
  }

  lemma OnlyOne<T>(x: T, holds: T -> bool)
    ensures (forall y <- [x] :: holds(y)) <==> holds(x)
  {
    assert [x][0] == x;
  }

  lemma ActionIsExtended(action: Json, area: string, item: string, found: seq<Context>)
    requires AreUnambiguous(found)
    ensures
      var enabled := EnabledOf([action]);
      AddAction(action, area, item, found) == Extended(found, StepsFor(enabled, area, item), forall a <- enabled :: IsStep(a))
  {
    hide Strip;
    assert [action][1..] == [] && EnabledOf([]) == [];
    if action.Obj? && !IsDisabled(action.fields) {
      assert EnabledOf([action]) == [action.fields];
      OneMoreStep(found, StepFor(action.fields, area, item));
      assert [action.fields][1..] == [];
      assert StepsFor([action.fields], area, item) == [StepFor(action.fields, area, item)];
      OnlyOne(action.fields, IsStep);
    } else {
      assert found + [] == found;
    }
  }

  lemma {:induction false} EnabledAppend(a: seq<Json>, b: seq<Json>)
    ensures EnabledOf(a + b) == EnabledOf(a) + EnabledOf(b)
  {
    if a == [] {
      assert a + b == b;
    } else {
      EnabledAppend(a[1..], b);
      assert (a + b)[1..] == a[1..] + b && (a + b)[0] == a[0];
    }
  }

  lemma {:induction false} StepsAppend(a: seq<map<string, Json>>, b: seq<map<string, Json>>, area: string, item: string)
    ensures StepsFor(a + b, area, item) == StepsFor(a, area, item) + StepsFor(b, area, item)
  {
    hide StepFor;
    if a == [] {
      assert a + b == b;
    } else {
      StepsAppend(a[1..], b, area, item);
      assert (a + b)[1..] == a[1..] + b;
    }
  }

  lemma NothingMore(found: seq<Context>)
    requires AreUnambiguous(found)
    ensures Extended(found, [], true) == Some(found)
  {
    assert found + [] == found;
  }

  lemma ExtendedIsUnambiguous(found: seq<Context>, steps: seq<Context>, accepted: bool)
    ensures Extended(found, steps, accepted).Some? ==> AreUnambiguous(Extended(found, steps, accepted).value)
  {
  }

  lemma {:induction false} ActionsAreExtended(actions: seq<Json>, area: string, item: string, found: seq<Context>)
    requires AreUnambiguous(found)
    ensures
      var enabled := EnabledOf(actions);
      AddActions(actions, area, item, found) == Extended(found, StepsFor(enabled, area, item), forall a <- enabled :: IsStep(a))
    decreases |actions|
  {
    hide Extended, AddAction, AreUnambiguous, IsStep;
    if actions == [] {
      NothingMore(found);
      assert StepsFor(EnabledOf([]), area, item) == [];
    } else {
      var first, rest := EnabledOf([actions[0]]), EnabledOf(actions[1..]);
      assert [actions[0]] + actions[1..] == actions;
      EnabledAppend([actions[0]], actions[1..]);
      StepsAppend(first, rest, area, item);
      ActionIsExtended(actions[0], area, item, found);
      var valid := forall a <- first :: IsStep(a);
      ExtendedTwice(
        found, StepsFor(first, area, item), StepsFor(rest, area, item), valid, forall a <- rest :: IsStep(a));
      var more := AddAction(actions[0], area, item, found);
      if more.Some? {
        ExtendedIsUnambiguous(found, StepsFor(first, area, item), valid);
        ActionsAreExtended(actions[1..], area, item, more.value);
      }
      assert (forall a <- EnabledOf(actions) :: IsStep(a)) <==> valid && forall a <- rest :: IsStep(a);
    }
  }

  lemma NamedIs(part: map<string, Json>, parts: string)
    ensures IsNamed(part, parts) <==> RequiredText(Get(part, "name"), 300).Some? && Get(part, parts).Arr?
    ensures IsNamed(part, parts) ==> RequiredText(Get(part, "name"), 300) == Some(NameOf(part))
    ensures IsNamed(part, parts) ==> parts in part && part[parts] == Arr(ListOf(part, parts))
  {
    hide Strip;
  }

  lemma ItemIsExtended(item: Json, area: string, found: seq<Context>)
    requires AreUnambiguous(found)
    ensures
      var enabled := EnabledOf([item]);
      AddItem(item, area, found) == Extended(found, ItemsSteps(enabled, area), forall i <- enabled :: IsItem(i))
  {
    hide AddActions, IsNamed, IsStep, RequiredText, AreUnambiguous;
    assert [item][1..] == [] && EnabledOf([]) == [];
    if item.Obj? && !IsDisabled(item.fields) {
      assert EnabledOf([item]) == [item.fields] && [item.fields][1..] == [];
      assert ItemsSteps([item.fields], area) == ItemSteps(item.fields, area) + [] == ItemSteps(item.fields, area);
      OnlyOne(item.fields, IsItem);
      NamedIs(item.fields, "actions");
      if IsNamed(item.fields, "actions") {
        ActionsAreExtended(ListOf(item.fields, "actions"), area, NameOf(item.fields), found);
      }
    } else {
      NothingMore(found);
    }
  }

  lemma {:induction false} ItemsStepsAppend(a: seq<map<string, Json>>, b: seq<map<string, Json>>, area: string)
    ensures ItemsSteps(a + b, area) == ItemsSteps(a, area) + ItemsSteps(b, area)
  {
    hide ItemSteps;
    if a == [] {
      assert a + b == b;
    } else {
      ItemsStepsAppend(a[1..], b, area);
      assert (a + b)[1..] == a[1..] + b;
    }
  }

  lemma {:induction false} ItemsAreExtended(items: seq<Json>, area: string, found: seq<Context>)
    requires AreUnambiguous(found)
    ensures
      var enabled := EnabledOf(items);
      AddItems(items, area, found) == Extended(found, ItemsSteps(enabled, area), forall i <- enabled :: IsItem(i))
    decreases |items|
  {
    hide Extended, AddItem, AreUnambiguous, IsItem;
    if items == [] {
      NothingMore(found);
      assert ItemsSteps(EnabledOf([]), area) == [];
    } else {
      var first, rest := EnabledOf([items[0]]), EnabledOf(items[1..]);
      assert [items[0]] + items[1..] == items;
      EnabledAppend([items[0]], items[1..]);
      ItemsStepsAppend(first, rest, area);
      ItemIsExtended(items[0], area, found);
      var valid := forall i <- first :: IsItem(i);
      ExtendedTwice(found, ItemsSteps(first, area), ItemsSteps(rest, area), valid, forall i <- rest :: IsItem(i));
      var more := AddItem(items[0], area, found);
      if more.Some? {
        ExtendedIsUnambiguous(found, ItemsSteps(first, area), valid);
        ItemsAreExtended(items[1..], area, more.value);
      }
      assert (forall i <- EnabledOf(items) :: IsItem(i)) <==> valid && forall i <- rest :: IsItem(i);
    }
  }

  lemma AreaIsExtended(area: Json, found: seq<Context>)
    requires AreUnambiguous(found)
    ensures
      var enabled := EnabledOf([area]);
      AddArea(area, found) == Extended(found, AreasSteps(enabled), forall a <- enabled :: IsArea(a))
  {
    hide AddItems, IsNamed, IsItem, RequiredText, AreUnambiguous;
    assert [area][1..] == [] && EnabledOf([]) == [];
    if area.Obj? && !IsDisabled(area.fields) {
      assert EnabledOf([area]) == [area.fields] && [area.fields][1..] == [];
      assert AreasSteps([area.fields]) == AreaSteps(area.fields) + [] == AreaSteps(area.fields);
      OnlyOne(area.fields, IsArea);
      NamedIs(area.fields, "items");
      if IsNamed(area.fields, "items") {
        ItemsAreExtended(ListOf(area.fields, "items"), NameOf(area.fields), found);
      }
    } else {
      NothingMore(found);
    }
  }

  lemma {:induction false} AreasStepsAppend(a: seq<map<string, Json>>, b: seq<map<string, Json>>)
    ensures AreasSteps(a + b) == AreasSteps(a) + AreasSteps(b)
  {
    hide AreaSteps;
    if a == [] {
      assert a + b == b;
    } else {
      AreasStepsAppend(a[1..], b);
      assert (a + b)[1..] == a[1..] + b && (a + b)[0] == a[0];
    }
  }

  lemma {:induction false} AreasAreExtended(areas: seq<Json>, found: seq<Context>)
    requires AreUnambiguous(found)
    ensures
      var enabled := EnabledOf(areas);
      AddAreas(areas, found) == Extended(found, AreasSteps(enabled), forall a <- enabled :: IsArea(a))
    decreases |areas|
  {
    hide Extended, AddArea, AreUnambiguous, IsArea;
    if areas == [] {
      NothingMore(found);
      assert AreasSteps(EnabledOf([])) == [];
    } else {
      var first, rest := EnabledOf([areas[0]]), EnabledOf(areas[1..]);
      assert [areas[0]] + areas[1..] == areas;
      EnabledAppend([areas[0]], areas[1..]);
      AreasStepsAppend(first, rest);
      AreaIsExtended(areas[0], found);
      var valid := forall a <- first :: IsArea(a);
      ExtendedTwice(found, AreasSteps(first), AreasSteps(rest), valid, forall a <- rest :: IsArea(a));
      var more := AddArea(areas[0], found);
      if more.Some? {
        ExtendedIsUnambiguous(found, AreasSteps(first), valid);
        AreasAreExtended(areas[1..], more.value);
      }
      assert (forall a <- EnabledOf(areas) :: IsArea(a)) <==> valid && forall a <- rest :: IsArea(a);
    }
  }

  /**
   A Flow is accepted if and only if everything enabled in it is well formed and its enabled actions have different
   indices; its contexts are then exactly those actions, in order.
   */
  lemma FlowContextsAre(flow: map<string, Json>)
    ensures FlowContexts(flow)
      == if IsTree(flow) && AreUnambiguous(EnabledSteps(flow)) then Some(EnabledSteps(flow)) else None
  {
    hide AddAreas, EnabledOf, AreasSteps, IsArea;
    if Get(flow, "areas").Arr? {
      AreasAreExtended(flow["areas"].items, []);
      assert [] + EnabledSteps(flow) == EnabledSteps(flow);
    }
  }

  // ---------------------------------------------------------------- where a fitting plan's step lies

  lemma {:induction false} ContextAtIff(contexts: seq<Context>, index: int, context: Context)
    requires AreUnambiguous(contexts)
    ensures ContextAt(contexts, index) == Some(context)
      <==> exists k | 0 <= k < |contexts| :: contexts[k] == context && context.actionIndex == index
  {
    var found := ContextAt(contexts, index);
    if exists k | 0 <= k < |contexts| :: contexts[k] == context && context.actionIndex == index {
      var k :| 0 <= k < |contexts| && contexts[k] == context && context.actionIndex == index;
      ContextAtFinds(contexts, k);
    }
    if found == Some(context) {
      var k :| 0 <= k < |contexts| && contexts[k] == context;
    }
  }

  /** The plan's step is the live action, and what follows from it is where the plan was stored to go on. */
  predicate LiesAt(plan: Plan, steps: seq<Context>, k: nat, index: int, command: string) {
    k < |steps| && steps[k].actionIndex == index && steps[k].command == command
    && match plan.terminal
       case ResumeFlow(_, rewindSteps, _, current, target) =>
         steps[k] == current && target in steps && target.actionIndex == index - rewindSteps
       case Rerun(retry, next) => steps[k] == retry && next == if k + 1 < |steps| then Some(steps[k + 1]) else None
  }

  lemma IndexIsUnique(contexts: seq<Context>, k: nat)
    requires AreUnambiguous(contexts) && k < |contexts|
    ensures IndexOfContext(contexts, contexts[k]) == k
  {
    var i := IndexOfContext(contexts, contexts[k]);
    assert contexts[i] == contexts[k];
  }

  lemma FitsContextsIff(plan: Plan, steps: seq<Context>, index: int, command: string)
    requires AreUnambiguous(steps)
    ensures FitsContexts(plan, steps, index, command) <==> exists k: nat :: LiesAt(plan, steps, k, index, command)
  {
    hide ContextAt, IndexOfContext;
    var current := ContextAt(steps, index);
    if FitsContexts(plan, steps, index, command) {
      var k :| 0 <= k < |steps| && steps[k] == current.value;
      IndexIsUnique(steps, k);
      assert LiesAt(plan, steps, k, index, command);
    }
    if exists k: nat :: LiesAt(plan, steps, k, index, command) {
      var k: nat :| LiesAt(plan, steps, k, index, command);
      ContextAtIff(steps, index, steps[k]);
      IndexIsUnique(steps, k);
      if plan.terminal.ResumeFlow? {
        ContextAtIff(steps, index - plan.terminal.rewindSteps, plan.terminal.target);
      }
    }
  }

  /**
   A plan fits a live pointer if and only if the Flow is accepted, is not completed, and the live action is the enabled
   step the plan was stored for: followed by the step it expects, or with the target it resumes at among the others.
   */
  lemma FitsFlowIff(plan: Plan, pointer: FlowPointer)
    ensures FitsFlow(plan, pointer)
      <==> && !pointer.completed && pointer.actionIndex.Some? && pointer.actionCommand.Some?
           && IsTree(pointer.raw) && AreUnambiguous(EnabledSteps(pointer.raw))
           && exists k: nat ::
                LiesAt(plan, EnabledSteps(pointer.raw), k, pointer.actionIndex.value, pointer.actionCommand.value)
  {
    hide FlowContexts, FitsContexts, EnabledSteps, IsTree, AreUnambiguous, LiesAt;
    FlowContextsAre(pointer.raw);
    if pointer.actionIndex.Some? && pointer.actionCommand.Some? && FlowContexts(pointer.raw).Some? {
      FitsContextsIff(
        plan, EnabledSteps(pointer.raw), pointer.actionIndex.value, pointer.actionCommand.value);
    }
  }
}
