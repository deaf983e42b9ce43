/**
 What the check of an argument against its live schema decides, place by place: value and schema are walked together by
 key and position, and a value is accepted exactly when every place reached holds on its own what its schema declares.
 */
module SchemaPlaces {
  import opened Text
  import opened Json
  import opened Contracts
  import opened ActionArguments

  // ---------------------------------------------------------------- what one place must hold

  /** How a schema governs a place: by a declared type, by nothing but the size of the value, or not at all. */
  datatype Rule = Declared(kind: string, schema: map<string, Json>) | Free | Undeclared

  /** The rule of an object that declares its type. */
  function RuleOf(schema: Json): Rule {
    if schema.Obj? && Get(schema.fields, "type").Str? then Declared(Lower(Get(schema.fields, "type").s), schema.fields)
    else Undeclared
  }

  /** The rule of a key: its own property, or else what is explicitly said about additional ones. */
  function RuleOfKey(schema: map<string, Json>, name: string): Rule {
    var properties := Get(schema, "properties");
    if properties.Obj? && name in properties.fields && !properties.fields[name].Null? then RuleOf(properties.fields[name])
    else if "additionalProperties" !in schema then Undeclared
    else if schema["additionalProperties"] == Bool(true) || schema["additionalProperties"] == Obj(map[]) then Free
    else RuleOf(schema["additionalProperties"])
  }

  predicate IsWholeNumber(value: Json) {
    value.Int? && value.n >= 0
  }

  /** A size within the limits under these two names; a limit that is given is a whole number. */
  predicate HasSize(size: nat, schema: map<string, Json>, least: string, most: string) {
    && (Get(schema, least).Null? || (IsWholeNumber(Get(schema, least)) && Get(schema, least).n <= size))
    && (Get(schema, most).Null? || (IsWholeNumber(Get(schema, most)) && size <= Get(schema, most).n))
  }

  /** A number within the four limits; a limit that is given is a number, and no boolean is one. */
  predicate HasRange(v: real, schema: map<string, Json>) {
    var limit := (name: string) => Get(schema, name);
    && (forall name <- ["minimum", "maximum", "exclusiveMinimum", "exclusiveMaximum"] ::
          limit(name).Null? || limit(name).Int? || limit(name).Float?)
    && (!limit("minimum").Null? ==> Numeric(limit("minimum")).value <= v)
    && (!limit("maximum").Null? ==> v <= Numeric(limit("maximum")).value)
    && (!limit("exclusiveMinimum").Null? ==> Numeric(limit("exclusiveMinimum")).value < v)
    && (!limit("exclusiveMaximum").Null? ==> v < Numeric(limit("exclusiveMaximum")).value)
  }

  /** An object has well-formed properties and every required key. */
  predicate HasKeys(fields: map<string, Json>, schema: map<string, Json>) {
    && (Get(schema, "properties").Null? || Get(schema, "properties").Obj?)
    && ("required" in schema ==>
          schema["required"].Arr?
          && forall i | 0 <= i < |schema["required"].items| ::
               schema["required"].items[i].Str? && schema["required"].items[i].s in fields)
  }

  /** The declared kind, size, range and keys, without looking below. */
  ghost predicate HoldsHere(rule: Rule, value: Json) {
    match rule
    case Undeclared => false
    case Free => Nodes(value) <= MAX_JSON_NODES && IsWithinDepth(value, MAX_JSON_DEPTH)
    case Declared(kind, schema) =>
      if kind in {"int", "integer"} then value.Int? && HasRange(value.n as real, schema)
      else if kind in {"float", "number"} then (value.Int? || value.Float?) && HasRange(Numeric(value).value, schema)
      else if kind == "boolean" then value.Bool?
      else if kind in {"string", "enum"} then value.Str? && HasSize(|value.s|, schema, "minLength", "maxLength")
      else if kind == "array" then
        value.Arr? && HasSize(|value.items|, schema, "minItems", "maxItems") && RuleOf(Get(schema, "items")).Declared?
      else kind == "object" && value.Obj? && HasKeys(value.fields, schema)
  }

  // ---------------------------------------------------------------- places

  datatype Step = Key(name: string) | Item(index: nat)

  /** One step down, if there is such a place and its schema looks there. */
  function Down(rule: Rule, value: Json, step: Step): Option<(Rule, Json)> {
    if !rule.Declared? then None
    else
      match step
      case Key(name) =>
        if rule.kind == "object" && value.Obj? && name in value.fields
        then Some((RuleOfKey(rule.schema, name), value.fields[name])) else None
      case Item(i) =>
        if rule.kind == "array" && value.Arr? && i < |value.items|
        then Some((RuleOf(Get(rule.schema, "items")), value.items[i])) else None
  }

  /** The rule and the value at a place. */
  function At(rule: Rule, value: Json, place: seq<Step>): Option<(Rule, Json)>
    decreases |place|
  {
    if place == [] then Some((rule, value))
    else
      var below := Down(rule, value, place[0]);
      if below.None? then None else At(below.value.0, below.value.1, place[1..])
  }

  /** Every place that the schema governs holds what is declared for it. */
  ghost predicate HoldsEverywhere(rule: Rule, value: Json) {
    forall place: seq<Step> | At(rule, value, place).Some? ::
      HoldsHere(At(rule, value, place).value.0, At(rule, value, place).value.1)
  }

  /** A value is at its own place, and below each step are the places below. */
  lemma EverywhereIff(rule: Rule, value: Json)
    ensures HoldsEverywhere(rule, value)
      <==> HoldsHere(rule, value)
           && forall step | Down(rule, value, step).Some? ::
                HoldsEverywhere(Down(rule, value, step).value.0, Down(rule, value, step).value.1)
  {
    hide HoldsHere, Down;
    if HoldsEverywhere(rule, value) {
      assert At(rule, value, []) == Some((rule, value));
      forall step, place: seq<Step> | Down(rule, value, step).Some?
          && At(Down(rule, value, step).value.0, Down(rule, value, step).value.1, place).Some?
        ensures
          var at := At(Down(rule, value, step).value.0, Down(rule, value, step).value.1, place).value;
          HoldsHere(at.0, at.1)
      {
        assert ([step] + place)[0] == step && ([step] + place)[1..] == place;
        assert At(rule, value, [step] + place).Some?;
      }
    }
    if HoldsHere(rule, value) && forall step | Down(rule, value, step).Some? ::
         HoldsEverywhere(Down(rule, value, step).value.0, Down(rule, value, step).value.1)
    {
      forall place: seq<Step> | At(rule, value, place).Some?
        ensures HoldsHere(At(rule, value, place).value.0, At(rule, value, place).value.1)
      {
        if place != [] {
          assert Down(rule, value, place[0]).Some?;
        }
      }
    }
  }

  // ---------------------------------------------------------------- the recursion decides exactly that

  /** What the recursive check says of a place under a rule. */
  ghost predicate Checks(rule: Rule, value: Json) {
    match rule
    case Undeclared => false
    case Free => IsBounded(value)
    case Declared(kind, schema) => IsSchemaValue(value, kind, schema)
  }

  lemma SizeIff(size: nat, schema: map<string, Json>, least: string, most: string)
    ensures IsSizeOk(schema, least, most, size) <==> HasSize(size, schema, least, most)
  {
  }

  lemma RangeIff(value: Json, schema: map<string, Json>)
    requires value.Int? || value.Float?
    ensures IsNumber(value) && Numeric(value).Some?
    ensures IsInRange(value, schema) <==> HasRange(Numeric(value).value, schema)
  {
    hide DecimalValue;
  }

  lemma LowerTwice(s: string)
    ensures Lower(Lower(s)) == Lower(s)
  {
  }

  lemma KindIgnoresCase(value: Json, kind: string, schema: map<string, Json>)
    ensures IsSchemaValue(value, kind, schema) == IsSchemaValue(value, Lower(kind), schema)
  {
    hide Lower, IsSchemaObject;
    LowerTwice(kind);
  }

  lemma TypedIsChecked(value: Json, schema: Json)
    ensures (schema.Obj? && IsTyped(value, schema.fields)) <==> Checks(RuleOf(schema), value)
  {
    hide IsSchemaValue, Lower;
    if schema.Obj? && Get(schema.fields, "type").Str? {
      KindIgnoresCase(value, Get(schema.fields, "type").s, schema.fields);
    }
  }

  /** What the object check says of one key. */
  ghost predicate KeyChecks(value: Json, schema: map<string, Json>, name: string)
    requires value.Obj? && name in value.fields && PropertiesOf(schema).Some?
  {
    var property := Get(PropertiesOf(schema).value, name);
    var additional := if "additionalProperties" in schema then schema["additionalProperties"] else Bool(false);
    if !property.Null? then property.Obj? && IsTyped(value.fields[name], property.fields)
    else if additional == Bool(true) || additional == Obj(map[]) then IsBounded(value.fields[name])
    else additional.Obj? && IsTyped(value.fields[name], additional.fields)
  }

  lemma KeyIsChecked(value: Json, schema: map<string, Json>, name: string)
    requires value.Obj? && name in value.fields && PropertiesOf(schema).Some?
    ensures KeyChecks(value, schema, name) <==> Checks(RuleOfKey(schema, name), value.fields[name])
  {
    hide Checks, IsTyped, RuleOf, IsBounded;
    var property := Get(PropertiesOf(schema).value, name);
    TypedIsChecked(value.fields[name], property);
    if "additionalProperties" in schema {
      TypedIsChecked(value.fields[name], schema["additionalProperties"]);
    }
    UndeclaredIsRefused(value.fields[name]);
    FreeIsBounded(value.fields[name]);
  }

  lemma UndeclaredIsRefused(value: Json)
    ensures !Checks(Undeclared, value)
  {
  }

  lemma FreeIsBounded(value: Json)
    ensures Checks(Free, value) <==> IsBounded(value)
  {
  }

  lemma ObjectIff(value: Json, schema: map<string, Json>)
    requires value.Obj?
    ensures IsSchemaObject(value, schema)
      <==> HasKeys(value.fields, schema)
           && forall name <- value.fields :: Checks(RuleOfKey(schema, name), value.fields[name])
  {
    hide Checks, RuleOfKey, IsTyped, IsBounded;
    if PropertiesOf(schema).Some? {
      forall name <- value.fields
        ensures KeyChecks(value, schema, name) <==> Checks(RuleOfKey(schema, name), value.fields[name])
      {
        KeyIsChecked(value, schema, name);
      }
    }
    KeysIff(value, schema);
  }

  lemma KeysIff(value: Json, schema: map<string, Json>)
    requires value.Obj?
    ensures IsSchemaObject(value, schema)
      <==> HasKeys(value.fields, schema) && PropertiesOf(schema).Some?
           && forall name <- value.fields :: KeyChecks(value, schema, name)
  {
    hide IsTyped, IsBounded;
  }

  predicate IsLowered(rule: Rule) {
    rule.Declared? ==> Lower(rule.kind) == rule.kind
  }

  lemma RulesAreLowered(rule: Rule, value: Json, step: Step)
    ensures Down(rule, value, step).Some? ==> IsLowered(Down(rule, value, step).value.0)
  {
    hide Lower;
    if rule.Declared? {
      RuleIsLowered(Get(rule.schema, "items"));
      if step.Key? {
        KeyRuleIsLowered(rule.schema, step.name);
      }
    }
  }

  lemma RuleIsLowered(schema: Json)
    ensures IsLowered(RuleOf(schema))
  {
    hide Lower;
    if schema.Obj? && Get(schema.fields, "type").Str? {
      LowerTwice(Get(schema.fields, "type").s);
    }
  }

  lemma KeyRuleIsLowered(schema: map<string, Json>, name: string)
    ensures IsLowered(RuleOfKey(schema, name))
  {
    hide RuleOf, Lower;
    RuleIsLowered(if Get(schema, "properties").Obj? then Get(Get(schema, "properties").fields, name) else Null);
    if "additionalProperties" in schema {
      RuleIsLowered(schema["additionalProperties"]);
    }
  }

  /** Everything one step below passes the check. */
  ghost predicate ChecksBelow(rule: Rule, value: Json) {
    forall step | Down(rule, value, step).Some? :: Checks(Down(rule, value, step).value.0, Down(rule, value, step).value.1)
  }

  lemma ScalarIff(kind: string, schema: map<string, Json>, value: Json)
    requires Lower(kind) == kind && kind != "array" && kind != "object"
    ensures IsSchemaValue(value, kind, schema) <==> HoldsHere(Declared(kind, schema), value)
    ensures ChecksBelow(Declared(kind, schema), value)
  {
    hide Lower, IsSizeOk, HasSize, IsInRange, HasRange, IsSchemaObject, HasKeys, RuleOf, Checks;
    if value.Int? || value.Float? {
      RangeIff(value, schema);
    }
    if value.Str? {
      SizeIff(|value.s|, schema, "minLength", "maxLength");
    }
  }

  lemma ObjectRuleIff(schema: map<string, Json>, value: Json)
    ensures IsSchemaValue(value, "object", schema)
      <==> HoldsHere(Declared("object", schema), value) && ChecksBelow(Declared("object", schema), value)
  {
    hide IsSchemaObject, HasKeys, RuleOfKey, RuleOf, Checks, Lower, IsSizeOk, IsInRange;
    ObjectKind();
    var rule := Declared("object", schema);
    if value.Obj? {
      ObjectIff(value, schema);
      assert ChecksBelow(rule, value) <==> forall name <- value.fields :: Checks(RuleOfKey(schema, name), value.fields[name]) by {
        forall name <- value.fields
          ensures Down(rule, value, Key(name)) == Some((RuleOfKey(schema, name), value.fields[name]))
        {
        }
      }
    }
  }

  lemma ObjectKind()
    ensures Lower("object") == "object" && Lower("array") == "array"
  {
  }

  lemma ArrayRuleIff(schema: map<string, Json>, value: Json)
    ensures IsSchemaValue(value, "array", schema)
      <==> HoldsHere(Declared("array", schema), value) && ChecksBelow(Declared("array", schema), value)
  {
    hide HasSize, HasRange, IsSizeOk, IsInRange, IsSchemaObject, HasKeys, Lower, RuleOf, IsSchemaValue, Checks;
    var rule := Declared("array", schema);
    if value.Arr? {
      SizeIff(|value.items|, schema, "minItems", "maxItems");
      ItemsIff(schema, value);
      forall i | 0 <= i < |value.items|
        ensures Down(rule, value, Item(i)) == Some((RuleOf(Get(schema, "items")), value.items[i]))
      {
      }
    } else {
      ItemsNeedArray(schema, value);
    }
  }

  lemma ItemsNeedArray(schema: map<string, Json>, value: Json)
    ensures IsSchemaValue(value, "array", schema) ==> value.Arr?
  {
    hide Lower, IsSizeOk, IsInRange, IsSchemaObject;
    ObjectKind();
  }

  lemma ItemsIff(schema: map<string, Json>, value: Json)
    requires value.Arr?
    ensures IsSchemaValue(value, "array", schema)
      <==> IsSizeOk(schema, "minItems", "maxItems", |value.items|) && RuleOf(Get(schema, "items")).Declared?
           && forall i | 0 <= i < |value.items| :: Checks(RuleOf(Get(schema, "items")), value.items[i])
  {
    hide Lower, IsSizeOk, IsInRange, IsSchemaObject;
    ObjectKind();
    var items := Get(schema, "items");
    if items.Obj? && Get(items.fields, "type").Str? {
      forall i | 0 <= i < |value.items|
        ensures Checks(RuleOf(items), value.items[i])
          <==> IsSchemaValue(value.items[i], Get(items.fields, "type").s, items.fields)
      {
        hide IsSchemaValue;
        KindIgnoresCase(value.items[i], Get(items.fields, "type").s, items.fields);
      }
    }
  }

  lemma OneStepIff(rule: Rule, value: Json)
    requires IsLowered(rule)
    ensures Checks(rule, value) <==> HoldsHere(rule, value) && ChecksBelow(rule, value)
  {
    hide IsSchemaValue, HoldsHere, ChecksBelow, Lower;
    match rule
    case Undeclared => NothingBelow(rule, value);
    case Free => NothingBelow(rule, value);
    case Declared(kind, schema) =>
      if kind == "object" {
        ObjectRuleIff(schema, value);
      } else if kind == "array" {
        ArrayRuleIff(schema, value);
      } else {
        ScalarIff(kind, schema, value);
      }
  }

  lemma NothingBelow(rule: Rule, value: Json)
    requires !rule.Declared?
    ensures ChecksBelow(rule, value)
    ensures rule.Undeclared? ==> !HoldsHere(rule, value)
    ensures rule.Free? ==> (HoldsHere(rule, value) <==> IsBounded(value))
  {
  }

  lemma BelowIsSmaller(rule: Rule, value: Json, step: Step)
    ensures Down(rule, value, step).Some? ==> Down(rule, value, step).value.1 < value
  {
    hide RuleOfKey, RuleOf;
  }

  /** The recursive check accepts a value exactly when every place holds what is declared for it. */
  lemma {:induction false} ChecksIff(rule: Rule, value: Json)
    requires IsLowered(rule)
    ensures Checks(rule, value) <==> HoldsEverywhere(rule, value)
    decreases value
  {
    hide Checks, HoldsHere, HoldsEverywhere, Down, IsLowered;
    OneStepIff(rule, value);
    EverywhereIff(rule, value);
    forall step | Down(rule, value, step).Some?
      ensures Checks(Down(rule, value, step).value.0, Down(rule, value, step).value.1)
        <==> HoldsEverywhere(Down(rule, value, step).value.0, Down(rule, value, step).value.1)
    {
      RulesAreLowered(rule, value, step);
      BelowIsSmaller(rule, value, step);
      ChecksIff(Down(rule, value, step).value.0, Down(rule, value, step).value.1);
    }
  }

  // ---------------------------------------------------------------- inputs and commands

  /** The rule of an input: the type of its schema if that gives one, else its own; limits come from a non-empty schema. */
  function RuleOfInput(input: map<string, Json>): Rule {
    var schema := Get(input, "schema");
    var kind := if schema.Obj? && IsTruthy(Get(schema.fields, "type")) then Get(schema.fields, "type") else Get(input, "type");
    if !(schema.Null? || schema.Obj?) || !kind.Str? then Undeclared
    else Declared(Lower(kind.s), if schema.Obj? && schema.fields != map[] then schema.fields else input)
  }

  /** A null for an optional input, or a value that holds everywhere and is one of the listed ones. */
  ghost predicate SatisfiesInput(value: Json, input: map<string, Json>) {
    if value.Null? then Get(input, "required") != Bool(true)
    else
      HoldsEverywhere(RuleOfInput(input), value)
      && (!Get(input, "enum").Null? ==>
            Get(input, "enum").Arr? && value.Str? && value in Get(input, "enum").items
            && forall option <- Get(input, "enum").items :: option.Str?)
  }

  lemma InputIff(value: Json, input: map<string, Json>)
    ensures IsInputValue(value, input) <==> SatisfiesInput(value, input)
  {
    hide HoldsEverywhere, IsSchemaValue, Lower;
    var rule := RuleOfInput(input);
    if rule.Declared? {
      InputRuleIsLowered(input);
      ChecksIff(rule, value);
      InputIsChecked(value, input);
    } else {
      EverywhereIff(rule, value);
    }
  }

  lemma InputRuleIsLowered(input: map<string, Json>)
    ensures IsLowered(RuleOfInput(input))
  {
    hide Lower, IsTruthy;
    var schema := Get(input, "schema");
    var kind := if schema.Obj? && IsTruthy(Get(schema.fields, "type")) then Get(schema.fields, "type") else Get(input, "type");
    if kind.Str? {
      LowerTwice(kind.s);
    }
  }

  lemma InputIsChecked(value: Json, input: map<string, Json>)
    requires RuleOfInput(input).Declared?
    ensures
      var schema := Get(input, "schema");
      var valueType := if schema.Obj? && IsTruthy(Get(schema.fields, "type")) then schema.fields["type"] else Get(input, "type");
      && valueType.Str?
      && (IsSchemaValue(value, valueType.s, if IsTruthy(schema) then schema.fields else input)
          <==> Checks(RuleOfInput(input), value))
  {
    hide IsSchemaValue, Lower;
    var schema := Get(input, "schema");
    var valueType := if schema.Obj? && IsTruthy(Get(schema.fields, "type")) then Get(schema.fields, "type") else Get(input, "type");
    KindIgnoresCase(value, valueType.s, if IsTruthy(schema) then schema.fields else input);
  }

  /** What must hold at a place of a command's arguments that no declared input lies above. */
  ghost predicate HoldsAt(spec: Spec, path: Path, value: Json) {
    if path in spec then SatisfiesInput(value, spec[path])
    else value.Obj? && exists d <- spec :: |path| < |d| && d[..|path|] == path
  }

  /**
   The decision on a whole command, down to the last place: the name and the inputs are in order, every place above and
   at the declared inputs is one of them or leads to one, every place below holds what its schema declares, and every
   required input is there.
   */
  lemma AcceptedEverywhereIff(command: string, arguments: map<string, Json>, schema: map<string, Json>)
    ensures IsAccepted(command, arguments, schema)
      <==>
        (Get(schema, "name").Null? || Get(schema, "name") == Str(command))
        && SpecOf(Get(schema, "inputs")).Some?
        && var spec, all := SpecOf(Get(schema, "inputs")).value, Obj(arguments);
        (forall path: Path | path != [] && PathValue(all, path).Some? && IsOpen(spec, [], path) ::
           HoldsAt(spec, path, PathValue(all, path).value))
        && forall path <- spec | Get(spec[path], "required") == Bool(true) ::
             PathValue(all, path).Some? && PathValue(all, path).value != Null && PathValue(all, path).value != Str("")
  {
    hide IsInputValue, SatisfiesInput, SpecOf, PathValue, IsOpen;
    AcceptedIff(command, arguments, schema);
    if SpecOf(Get(schema, "inputs")).Some? {
      var spec := SpecOf(Get(schema, "inputs")).value;
      forall path: Path, value: Json ensures Fits(spec, path, value) <==> HoldsAt(spec, path, value) {
        if path in spec {
          InputIff(value, spec[path]);
        }
      }
      assert forall path: Path :: [] + path == path;
    }
  }

  /** At any depth, without an explicit word on additional keys every key of an accepted object is one of its properties. */
  lemma NoUndeclaredKey(rule: Rule, value: Json, place: seq<Step>, name: string)
    requires HoldsEverywhere(rule, value) && At(rule, value, place).Some?
    requires
      var (r, v) := At(rule, value, place).value;
      r.Declared? && r.kind == "object" && v.Obj? && name in v.fields && "additionalProperties" !in r.schema
    ensures
      var r := At(rule, value, place).value.0;
      Get(r.schema, "properties").Obj? && name in Get(r.schema, "properties").fields
  {
    hide HoldsHere;
    var (r, v) := At(rule, value, place).value;
    AtFurther(rule, value, place, Key(name));
    var further := At(rule, value, place + [Key(name)]).value;
    assert HoldsHere(further.0, further.1);
    UndeclaredHoldsNowhere(further.1);
  }

  lemma UndeclaredHoldsNowhere(value: Json)
    ensures !HoldsHere(Undeclared, value)
  {
  }

  lemma {:induction false} AtFurther(rule: Rule, value: Json, place: seq<Step>, step: Step)
    requires At(rule, value, place).Some?
    ensures At(rule, value, place + [step]) == Down(At(rule, value, place).value.0, At(rule, value, place).value.1, step)
    decreases |place|
  {
    hide Down;
    if place == [] {
      assert ([step])[1..] == [] && [] + [step] == [step];
    } else {
      var below := Down(rule, value, place[0]).value;
      AtFurther(below.0, below.1, place[1..], step);
      assert (place + [step])[1..] == place[1..] + [step];
    }
  }

  // ---------------------------------------------------------------- the declared inputs

  /** The parts of a dotted name have no dots and give it back. */
  lemma {:induction false} SplitJoins(name: string)
    ensures Join(".", Split(name)) == name
    ensures forall part <- Split(name) :: '.' !in part
  {
    if name != "" {
      SplitJoins(name[1..]);
      var rest := Split(name[1..]);
      if name[0] == '.' {
        assert ([""] + rest)[1..] == rest;
      } else {
        assert ([[name[0]] + rest[0]] + rest[1..])[1..] == rest[1..];
      }
      assert name == [name[0]] + name[1..];
    }
  }

  predicate IsListed(items: seq<Json>, path: Path, input: map<string, Json>) {
    Get(input, "name").Str? && path == Split(Get(input, "name").s)
    && exists i | 0 <= i < |items| :: items[i] == Obj(input)
  }

  /** The declared paths are those of the listed inputs, each with its own input. */
  lemma SpecIsListed(inputs: Json)
    requires SpecOf(inputs).Some?
    ensures inputs.Arr?
    ensures
      var spec, items := SpecOf(inputs).value, inputs.items;
      && (forall i | 0 <= i < |items| ::
            items[i].Obj? && Get(items[i].fields, "name").Str? && Get(items[i].fields, "required").Bool?
            && Split(Get(items[i].fields, "name").s) in spec && spec[Split(Get(items[i].fields, "name").s)] == items[i].fields)
      && forall path <- spec :: IsListed(items, path, spec[path])
  {
    AddedInputs(inputs.items, map[]);
  }

  lemma {:induction false} AddedInputs(inputs: seq<Json>, spec: Spec)
    requires AddInputs(inputs, spec).Some?
    ensures
      var all := AddInputs(inputs, spec).value;
      && (forall path <- spec :: path in all && all[path] == spec[path])
      && (forall i | 0 <= i < |inputs| ::
            inputs[i].Obj? && Get(inputs[i].fields, "name").Str? && Get(inputs[i].fields, "required").Bool?
            && Split(Get(inputs[i].fields, "name").s) in all
            && all[Split(Get(inputs[i].fields, "name").s)] == inputs[i].fields)
      && forall path <- all | path !in spec :: IsListed(inputs, path, all[path])
    decreases |inputs|
  {
    hide Split, Strip;
    if inputs != [] {
      var path := InputPath(inputs[0]).value;
      AddedInputs(inputs[1..], spec[path := inputs[0].fields]);
      var all := AddInputs(inputs, spec).value;
      forall p <- all | p !in spec ensures IsListed(inputs, p, all[p]) {
        if p != path {
          assert IsListed(inputs[1..], p, all[p]);
          var i :| 0 <= i < |inputs| - 1 && inputs[1..][i] == Obj(all[p]);
          assert inputs[i + 1] == Obj(all[p]);
        } else {
          assert inputs[0] == Obj(all[p]);
        }
      }
      assert forall i | 1 <= i < |inputs| :: inputs[i] == inputs[1..][i - 1];
    }
  }
}
