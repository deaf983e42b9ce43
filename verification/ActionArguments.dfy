/** Checking a correction's arguments against the live action spec (`_validate_action_arguments`). */
module ActionArguments {
  import opened Text
  import opened Json
  import opened Contracts

  /** The dotted name of an input, cut at the dots. */
  type Path = seq<string>

  type Spec = map<Path, map<string, Json>>

  // ---------------------------------------------------------------- one value against its schema

  predicate IsTruthy(value: Json) {
    match value
    case Null => false
    case Bool(b) => b
    case Int(n) => n != 0
    case Float(literal) => DecimalValue(literal) != 0.0
    case Str(s) => s != ""
    case Arr(items) => items != []
    case Obj(fields) => fields != map[]
  }

  /** A limit of a schema: absent, or a non-negative integer. */
  predicate IsNatural(value: Json) {
    value.Int? && value.n >= 0
  }

  predicate IsSizeOk(schema: map<string, Json>, minimum: string, maximum: string, size: nat) {
    var low, high := Get(schema, minimum), Get(schema, maximum);
    (low.Null? || (IsNatural(low) && size >= low.n)) && (high.Null? || (IsNatural(high) && size <= high.n))
  }

  predicate IsLimit(limit: Json, holds: bool) {
    limit.Null? || (IsNumber(limit) && holds)
  }

  /** `_validate_number_range` */
  predicate IsInRange(value: Json, schema: map<string, Json>)
    requires IsNumber(value)
  {
    var v := Numeric(value).value;
    var low, high := Get(schema, "minimum"), Get(schema, "maximum");
    var above, below := Get(schema, "exclusiveMinimum"), Get(schema, "exclusiveMaximum");
    && IsLimit(low, IsNumber(low) && v >= Numeric(low).value)
    && IsLimit(high, IsNumber(high) && v <= Numeric(high).value)
    && IsLimit(above, IsNumber(above) && v > Numeric(above).value)
    && IsLimit(below, IsNumber(below) && v < Numeric(below).value)
  }

  /** `_validate_schema_value` */
  ghost predicate IsSchemaValue(value: Json, valueType: string, schema: map<string, Json>)
    decreases value, 2
  {
    var kind := Lower(valueType);
    if kind == "int" || kind == "integer" then value.Int? && IsInRange(value, schema)
    else if kind == "float" || kind == "number" then IsNumber(value) && IsInRange(value, schema)
    else if kind == "boolean" then value.Bool?
    else if kind == "string" || kind == "enum" then value.Str? && IsSizeOk(schema, "minLength", "maxLength", |value.s|)
    else if kind == "array" then
      value.Arr? && IsSizeOk(schema, "minItems", "maxItems", |value.items|)
      && Get(schema, "items").Obj?
      && var items := schema["items"].fields;
      Get(items, "type").Str?
      && forall i | 0 <= i < |value.items| :: IsSchemaValue(value.items[i], items["type"].s, items)
    else kind == "object" && value.Obj? && IsSchemaObject(value, schema)
  }

  function PropertiesOf(schema: map<string, Json>): Option<map<string, Json>> {
    match Get(schema, "properties")
    case Null => Some(map[])
    case Obj(fields) => Some(fields)
    case _ => None
  }

  /** `_validate_object_schema` */
  ghost predicate IsSchemaObject(value: Json, schema: map<string, Json>)
    requires value.Obj?
    decreases value, 1
  {
    var required := if "required" in schema then schema["required"] else Arr([]);
    && PropertiesOf(schema).Some?
    && required.Arr? && (forall name <- required.items :: name.Str? && name.s in value.fields)
    && forall name <- value.fields ::
         var property := Get(PropertiesOf(schema).value, name);
         var additional := if "additionalProperties" in schema then schema["additionalProperties"] else Bool(false);
         if !property.Null? then property.Obj? && IsTyped(value.fields[name], property.fields)
         else if additional == Bool(true) || additional == Obj(map[]) then IsBounded(value.fields[name])
         else additional.Obj? && IsTyped(value.fields[name], additional.fields)
  }

  ghost predicate IsTyped(value: Json, schema: map<string, Json>)
    decreases value, 3
  {
    Get(schema, "type").Str? && IsSchemaValue(value, schema["type"].s, schema)
  }

  predicate IsEnumOk(value: Json, options: Json) {
    options.Null?
    || (options.Arr? && options.items != [] && (forall option <- options.items :: option.Str?) && value in options.items)
  }

  /** `_validate_input_value` */
  ghost predicate IsInputValue(value: Json, input: map<string, Json>) {
    if value.Null? then Get(input, "required") != Bool(true)
    else
      var schema := Get(input, "schema");
      var valueType := if schema.Obj? && IsTruthy(Get(schema.fields, "type")) then schema.fields["type"] else Get(input, "type");
      (schema.Null? || schema.Obj?)
      && valueType.Str?
      && IsSchemaValue(value, valueType.s, if IsTruthy(schema) then schema.fields else input)
      && IsEnumOk(value, Get(input, "enum"))
  }

  // ---------------------------------------------------------------- the declared paths

  /** `str.split(".")` */
  function Split(name: string): (parts: Path)
    ensures parts != []
  {
    if name == "" then [""]
    else
      var rest := Split(name[1..]);
      if name[0] == '.' then [""] + rest else [[name[0]] + rest[0]] + rest[1..]
  }

  predicate IsProperPrefix(a: Path, b: Path) {
    |a| < |b| && b[..|a|] == a
  }

  function InputPath(input: Json): Option<Path> {
    if !input.Obj? then None
    else
      var name := Get(input.fields, "name");
      if !name.Str? || name.s == "" || Strip(name.s) != name.s || !Get(input.fields, "required").Bool? then None
      else if "" in Split(name.s) then None
      else Some(Split(name.s))
  }

  function AddInputs(inputs: seq<Json>, spec: Spec): Option<Spec>
    decreases |inputs|
  {
    if inputs == [] then Some(spec)
    else
      var path := InputPath(inputs[0]);
      if path.None? || path.value in spec then None
      else AddInputs(inputs[1..], spec[path.value := inputs[0].fields])
  }

  predicate IsPrefixFree(spec: Spec) {
    forall a, b | a in spec && b in spec :: !IsProperPrefix(a, b)
  }

  /** The inputs of a live action spec. */
  function SpecOf(inputs: Json): Option<Spec> {
    if !inputs.Arr? then None
    else
      var spec := AddInputs(inputs.items, map[]);
      if spec.None? || !IsPrefixFree(spec.value) then None else spec
  }

  /** Filling `by_path`, input by input. */
  method CollectInputs(inputs: seq<Json>) returns (spec: Option<Spec>)
    ensures spec == AddInputs(inputs, map[])
  {
    var byPath: Spec := map[];
    for i := 0 to |inputs|
      invariant AddInputs(inputs, map[]) == AddInputs(inputs[i..], byPath)
    {
      var path := InputPath(inputs[i]);
      if path.None? || path.value in byPath {
        return None;
      }
      byPath := byPath[path.value := inputs[i].fields];
    }
    return Some(byPath);
  }

  predicate IsProper(spec: Spec) {
    forall path <- spec :: path != [] && "" !in path && Get(spec[path], "required").Bool?
  }

  lemma {:induction false} AddInputsProper(inputs: seq<Json>, spec: Spec)
    requires IsProper(spec)
    ensures AddInputs(inputs, spec).Some? ==> IsProper(AddInputs(inputs, spec).value)
    decreases |inputs|
  {
    if inputs != [] {
      var path := InputPath(inputs[0]);
      if path.Some? && path.value !in spec {
        AddInputsProper(inputs[1..], spec[path.value := inputs[0].fields]);
      }
    }
  }

  // ---------------------------------------------------------------- the recursive check

  predicate IsInner(spec: Spec, path: Path) {
    exists d :: d in spec && IsProperPrefix(path, d)
  }

  /** `validate_object` */
  ghost predicate IsValidObject(spec: Spec, value: Json, prefix: Path)
    requires value.Obj?
    decreases value, 0
  {
    forall key <- value.fields :: key != "" && IsValidArgument(spec, value.fields[key], prefix + [key])
  }

  ghost predicate IsValidArgument(spec: Spec, value: Json, path: Path)
    decreases value, 1
  {
    if path in spec then IsInputValue(value, spec[path])
    else IsInner(spec, path) && value.Obj? && IsValidObject(spec, value, path)
  }

  /** `_path_value` */
  function PathValue(value: Json, path: Path): Option<Json>
    decreases |path|
  {
    if path == [] then Some(value)
    else if !value.Obj? || path[0] !in value.fields then None
    else PathValue(value.fields[path[0]], path[1..])
  }

  predicate IsPresent(value: Option<Json>) {
    value.Some? && !value.value.Null? && value.value != Str("")
  }

  /** `_validate_action_arguments`, from the point where the spec is known. */
  ghost predicate AreArgumentsOk(spec: Spec, arguments: Json)
    requires arguments.Obj?
  {
    IsValidObject(spec, arguments, [])
    && forall path <- spec | Get(spec[path], "required") == Bool(true) :: IsPresent(PathValue(arguments, path))
  }

  // ---------------------------------------------------------------- what the recursion decides

  /** What must hold at one place of the arguments. */
  ghost predicate Fits(spec: Spec, path: Path, value: Json) {
    if path in spec then IsInputValue(value, spec[path]) else IsInner(spec, path) && value.Obj?
  }

  /** A place no declared path lies above. */
  predicate IsOpen(spec: Spec, prefix: Path, path: Path) {
    forall i | 0 < i < |path| :: prefix + path[..i] !in spec
  }

  ghost predicate AllFit(spec: Spec, value: Json, prefix: Path) {
    forall path: Path | path != [] && PathValue(value, path).Some? && IsOpen(spec, prefix, path) ::
      Fits(spec, prefix + path, PathValue(value, path).value)
  }

  lemma OpenTail(spec: Spec, prefix: Path, path: Path)
    requires path != []
    ensures |path| > 1 ==> (IsOpen(spec, prefix, path) <==> prefix + [path[0]] !in spec && IsOpen(spec, prefix + [path[0]], path[1..]))
  {
    if |path| > 1 {
      assert path[..1] == [path[0]];
      assert forall i | 0 < i < |path| - 1 :: prefix + [path[0]] + path[1..][..i] == prefix + path[..i + 1];
      if prefix + [path[0]] !in spec && IsOpen(spec, prefix + [path[0]], path[1..]) {
        forall i | 0 < i < |path| ensures prefix + path[..i] !in spec {
          if i > 1 {
            assert prefix + [path[0]] + path[1..][..i - 1] == prefix + path[..i];
          }
        }
      }
    }
  }

  lemma {:induction false} ValidMeansAllFit(spec: Spec, value: Json, prefix: Path, path: Path)
    requires value.Obj? && IsValidObject(spec, value, prefix)
    requires path != [] && PathValue(value, path).Some? && IsOpen(spec, prefix, path)
    ensures Fits(spec, prefix + path, PathValue(value, path).value)
    decreases |path|
  {
    var key := path[0];
    assert IsValidArgument(spec, value.fields[key], prefix + [key]);
    hide IsInputValue, IsInner;
    if |path| == 1 {
      assert prefix + path == prefix + [key];
    } else {
      OpenTail(spec, prefix, path);
      ValidMeansAllFit(spec, value.fields[key], prefix + [key], path[1..]);
      assert prefix + [key] + path[1..] == prefix + path;
    }
  }

  lemma {:induction false} AllFitMeansValid(spec: Spec, value: Json, prefix: Path)
    requires IsProper(spec) && value.Obj? && AllFit(spec, value, prefix)
    ensures IsValidObject(spec, value, prefix)
    decreases value
  {
    forall key <- value.fields ensures key != "" && IsValidArgument(spec, value.fields[key], prefix + [key]) {
      FitsAtKey(spec, value, prefix, key);
      hide IsInputValue;
      var path := prefix + [key];
      if path !in spec {
        AllFitBelow(spec, value, prefix, key);
        AllFitMeansValid(spec, value.fields[key], path);
      }
    }
  }

  lemma FitsAtKey(spec: Spec, value: Json, prefix: Path, key: string)
    requires IsProper(spec) && value.Obj? && key in value.fields && AllFit(spec, value, prefix)
    ensures Fits(spec, prefix + [key], value.fields[key]) && key != ""
  {
    hide IsInputValue;
    assert PathValue(value.fields[key], []) == Some(value.fields[key]);
    assert [key][1..] == [];
    assert PathValue(value, [key]) == Some(value.fields[key]) && IsOpen(spec, prefix, [key]);
    if prefix + [key] in spec {
      assert (prefix + [key])[|prefix|] == key;
    } else {
      var d :| d in spec && IsProperPrefix(prefix + [key], d);
      assert d[..|prefix| + 1][|prefix|] == key;
    }
  }

  lemma AllFitBelow(spec: Spec, value: Json, prefix: Path, key: string)
    requires value.Obj? && key in value.fields && AllFit(spec, value, prefix)
    requires prefix + [key] !in spec
    ensures AllFit(spec, value.fields[key], prefix + [key])
  {
    hide Fits;
    forall path: Path | path != [] && PathValue(value.fields[key], path).Some? && IsOpen(spec, prefix + [key], path)
      ensures Fits(spec, prefix + [key] + path, PathValue(value.fields[key], path).value)
    {
      var longer := [key] + path;
      assert longer[0] == key && longer[1..] == path;
      OpenTail(spec, prefix, longer);
      assert prefix + longer == prefix + [key] + path;
      assert PathValue(value, longer) == PathValue(value.fields[key], path);
    }
  }

  /**
   The recursive check accepts exactly when every place that is not below a declared path is either declared, and its
   value satisfies that input, or an object on the way to a declared path.
   */
  lemma ValidIffAllFit(spec: Spec, value: Json)
    requires IsProper(spec) && value.Obj?
    ensures IsValidObject(spec, value, []) <==> AllFit(spec, value, [])
  {
    hide IsValidObject, AllFit;
    if IsValidObject(spec, value, []) {
      assert AllFit(spec, value, []) by { ValidMeansAllFitEverywhere(spec, value); }
    }
    if AllFit(spec, value, []) {
      AllFitMeansValid(spec, value, []);
    }
  }

  lemma ValidMeansAllFitEverywhere(spec: Spec, value: Json)
    requires value.Obj? && IsValidObject(spec, value, [])
    ensures AllFit(spec, value, [])
  {
    hide IsValidObject, Fits;
    forall path: Path | path != [] && PathValue(value, path).Some? && IsOpen(spec, [], path)
      ensures Fits(spec, [] + path, PathValue(value, path).value)
    {
      ValidMeansAllFit(spec, value, [], path);
    }
  }

  // ---------------------------------------------------------------- what acceptance means

  lemma PrefixesNest(a: Path, b: Path, path: Path)
    requires a <= path && b <= path && |a| < |b|
    ensures IsProperPrefix(a, b)
  {
    assert b[..|a|] == path[..|a|];
  }

  /** Declared paths lie side by side, so at most one of them lies above any place. */
  lemma DeclaredAboveIsUnique(spec: Spec, a: Path, b: Path, path: Path)
    requires IsPrefixFree(spec) && a in spec && b in spec && a <= path && b <= path
    ensures a == b
  {
    if |a| < |b| {
      PrefixesNest(a, b, path);
    } else if |b| < |a| {
      PrefixesNest(b, a, path);
    }
  }

  /** Walking down an accepted object ends at a declared, valid input or stays on the way to one. */
  lemma {:induction false} WalkDown(spec: Spec, value: Json, prefix: Path, path: Path) returns (i: nat)
    requires value.Obj? && IsValidObject(spec, value, prefix)
    requires path != [] && PathValue(value, path).Some?
    ensures i <= |path|
    ensures i > 0 ==>
      prefix + path[..i] in spec && PathValue(value, path[..i]).Some?
      && IsInputValue(PathValue(value, path[..i]).value, spec[prefix + path[..i]])
    ensures i == 0 ==> PathValue(value, path).value.Obj? && IsInner(spec, prefix + path)
    decreases |path|
  {
    var key := path[0];
    assert IsValidArgument(spec, value.fields[key], prefix + [key]);
    hide IsInputValue, IsInner;
    assert path[..1] == [key] && PathValue(value, [key]) == Some(value.fields[key]) by {
      assert [key][1..] == [];
    }
    if prefix + [key] in spec {
      i := 1;
    } else if |path| == 1 {
      i := 0;
      assert path == [key];
    } else {
      i := WalkDown(spec, value.fields[key], prefix + [key], path[1..]);
      if i > 0 {
        assert path[..i + 1] == [key] + path[1..][..i];
        assert prefix + [key] + path[1..][..i] == prefix + path[..i + 1];
        assert path[..i + 1][1..] == path[1..][..i];
        i := i + 1;
      } else {
        assert prefix + [key] + path[1..] == prefix + path;
      }
    }
  }

  /** Every leaf of accepted arguments lies at or below exactly one declared path, and that input is satisfied. */
  lemma LeafIsDeclared(spec: Spec, arguments: Json, path: Path) returns (declared: Path)
    requires IsProper(spec) && IsPrefixFree(spec) && arguments.Obj? && IsValidObject(spec, arguments, [])
    requires path != [] && PathValue(arguments, path).Some? && !PathValue(arguments, path).value.Obj?
    ensures declared in spec && declared <= path
    ensures PathValue(arguments, declared).Some? && IsInputValue(PathValue(arguments, declared).value, spec[declared])
    ensures forall other | other in spec && other <= path :: other == declared
  {
    hide IsValidObject, IsInputValue, IsPrefixFree;
    var i := WalkDown(spec, arguments, [], path);
    declared := path[..i];
    assert [] + path[..i] == declared;
    forall other | other in spec && other <= path ensures other == declared {
      DeclaredAboveIsUnique(spec, other, declared, path);
    }
  }

  /** No place of accepted arguments is unrelated to the declared paths. */
  lemma NothingUndeclared(spec: Spec, arguments: Json, path: Path)
    requires arguments.Obj? && IsValidObject(spec, arguments, [])
    requires path != [] && PathValue(arguments, path).Some?
    ensures exists d :: d in spec && (d <= path || IsProperPrefix(path, d))
  {
    hide IsValidObject, IsInputValue;
    var i := WalkDown(spec, arguments, [], path);
    if i > 0 {
      assert [] + path[..i] == path[..i] && path[..i] <= path;
    } else {
      assert [] + path == path;
      var d :| d in spec && IsProperPrefix(path, d);
    }
  }

  /** Any declared path that resolves was visited and validated by the recursion. */
  lemma ResolvedIsValidated(spec: Spec, arguments: Json, path: Path)
    requires IsProper(spec) && IsPrefixFree(spec) && arguments.Obj? && IsValidObject(spec, arguments, [])
    requires path in spec && PathValue(arguments, path).Some?
    ensures IsInputValue(PathValue(arguments, path).value, spec[path])
  {
    hide IsValidObject, IsInputValue;
    forall i | 0 < i < |path| ensures [] + path[..i] !in spec {
      assert [] + path[..i] == path[..i] && IsProperPrefix(path[..i], path);
    }
    assert [] + path == path;
    ValidMeansAllFit(spec, arguments, [], path);
  }

  /** So every required input of accepted arguments is present, not empty, and satisfies its schema. */
  lemma RequiredIsPresentAndValid(spec: Spec, arguments: Json, path: Path)
    requires IsProper(spec) && IsPrefixFree(spec) && arguments.Obj? && AreArgumentsOk(spec, arguments)
    requires path in spec && Get(spec[path], "required") == Bool(true)
    ensures IsPresent(PathValue(arguments, path))
    ensures IsInputValue(PathValue(arguments, path).value, spec[path])
  {
    hide IsValidObject, IsInputValue;
    ResolvedIsValidated(spec, arguments, path);
  }

  /** `_validate_action_arguments` */
  ghost predicate IsAccepted(command: string, arguments: map<string, Json>, schema: map<string, Json>) {
    (Get(schema, "name").Null? || Get(schema, "name") == Str(command))
    && SpecOf(Get(schema, "inputs")).Some?
    && AreArgumentsOk(SpecOf(Get(schema, "inputs")).value, Obj(arguments))
  }

  lemma SpecIsSound(inputs: Json)
    requires SpecOf(inputs).Some?
    ensures IsProper(SpecOf(inputs).value) && IsPrefixFree(SpecOf(inputs).value)
  {
    hide AddInputs, IsPrefixFree, IsProper;
    assert IsProper(map[]) by { EmptyIsProper(); }
    AddInputsProper(inputs.items, map[]);
  }

  lemma EmptyIsProper()
    ensures IsProper(map[])
  {
  }

  /** The decision on a whole command: its name, an unambiguous spec, every open place fitting, every required input there. */
  lemma AcceptedIff(command: string, arguments: map<string, Json>, schema: map<string, Json>)
    ensures IsAccepted(command, arguments, schema)
      <==>
        (Get(schema, "name").Null? || Get(schema, "name") == Str(command))
        && SpecOf(Get(schema, "inputs")).Some?
        && var spec := SpecOf(Get(schema, "inputs")).value;
        AllFit(spec, Obj(arguments), [])
        && forall path <- spec | Get(spec[path], "required") == Bool(true) :: IsPresent(PathValue(Obj(arguments), path))
  {
    hide SpecOf, AllFit, IsValidObject, IsPresent, PathValue;
    if SpecOf(Get(schema, "inputs")).Some? {
      SpecIsSound(Get(schema, "inputs"));
      ValidIffAllFit(SpecOf(Get(schema, "inputs")).value, Obj(arguments));
    }
  }

  /** What an accepted command guarantees about each declared input and each leaf. */
  lemma AcceptedIsSound(command: string, arguments: map<string, Json>, schema: map<string, Json>, path: Path)
    requires IsAccepted(command, arguments, schema)
    ensures
      var spec, value := SpecOf(Get(schema, "inputs")).value, PathValue(Obj(arguments), path);
      && (path in spec && value.Some? ==> IsInputValue(value.value, spec[path]))
      && (path in spec && Get(spec[path], "required") == Bool(true) ==> IsPresent(value))
      && (path != [] && value.Some? ==> exists d :: d in spec && (d <= path || IsProperPrefix(path, d)))
      && (path != [] && value.Some? && !value.value.Obj? ==> exists d :: d in spec && d <= path)
  {
    hide SpecOf, IsValidObject, IsPresent, PathValue, IsInputValue, IsProper, IsPrefixFree;
    SpecIsSound(Get(schema, "inputs"));
    var spec := SpecOf(Get(schema, "inputs")).value;
    var value := PathValue(Obj(arguments), path);
    if path in spec && value.Some? {
      ResolvedIsValidated(spec, Obj(arguments), path);
    }
    if path != [] && value.Some? {
      NothingUndeclared(spec, Obj(arguments), path);
      if !value.value.Obj? {
        var declared := LeafIsDeclared(spec, Obj(arguments), path);
      }
    }
  }
}
