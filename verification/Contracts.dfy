/** The small validators that every untrusted recovery value passes (`recovery_executor.py`). */
module Contracts {
  import opened Text
  import opened Json

  const MAX_COMMAND_LENGTH: nat := 128
  const MAX_JSON_DEPTH: nat := 12
  const MAX_JSON_NODES: nat := 2_000

  /** `_required_text` */
  function RequiredText(value: Json, maxLength: nat): (text: Option<string>)
    ensures text.Some? <==> value.Str? && value.s != "" && Strip(value.s) == value.s && |value.s| <= maxLength
    ensures text.Some? ==> value == Str(text.value)
  {
    if value.Str? && value.s != "" && Strip(value.s) == value.s && |value.s| <= maxLength then Some(value.s) else None
  }

  /** `_required_int` */
  function RequiredInt(value: Json, minimum: int, maximum: int): (n: Option<int>)
    ensures n.Some? <==> value.Int? && minimum <= value.n <= maximum
    ensures n.Some? ==> value == Int(n.value)
  {
    if value.Int? && minimum <= value.n <= maximum then Some(value.n) else None
  }

  /** `_UUID_PATTERN`, on lower-case text: 8-4-4-4-12 digits, version 1 to 5, RFC 4122 variant. */
  predicate IsUuid(s: string) {
    |s| == 36
    && (forall i | 0 <= i < 36 :: if i == 8 || i == 13 || i == 18 || i == 23 then s[i] == '-' else IsHexDigit(s[i]))
    && '1' <= s[14] <= '5'
    && s[19] in "89ab"
  }

  function UpperChar(c: char): char {
    if 'a' <= c <= 'z' then 'A' + (c - 'a') else c
  }

  function Upper(s: string): (upper: string)
    ensures |upper| == |s|
  {
    seq(|s|, i requires 0 <= i < |s| => UpperChar(s[i]))
  }

  /** `_uuid_text` */
  function UuidText(value: Json): (text: Option<string>)
    ensures text.Some? ==> IsUuid(text.value)
  {
    if value.Str? && IsUuid(Lower(Strip(value.s))) then Some(Lower(Strip(value.s))) else None
  }

  /** A canonical identifier is its own canonical form. */
  lemma UuidTextIdentity(s: string)
    requires IsUuid(s)
    ensures UuidText(Str(s)) == Some(s)
  {
    StripTrims(s);
    assert Lower(s) == s;
  }

  lemma UuidTextIdempotent(value: Json)
    ensures UuidText(value).Some? ==> UuidText(Str(UuidText(value).value)) == UuidText(value)
  {
    if UuidText(value).Some? {
      UuidTextIdentity(UuidText(value).value);
    }
  }

  predicate IsSysid(s: string) {
    1 <= |s| <= 64 && forall c <- s :: 'A' <= c <= 'Z' || 'a' <= c <= 'z' || '0' <= c <= '9' || c == '-'
  }

  predicate IsNumber(value: Json) {
    value.Int? || value.Float?
  }

  /** `_json_values_equal`: like Python's equality, but a boolean equals only a boolean. */
  predicate JsonEqual(a: Json, b: Json) {
    match (a, b)
    case (Arr(xs), Arr(ys)) => |xs| == |ys| && forall i | 0 <= i < |xs| :: JsonEqual(xs[i], ys[i])
    case (Obj(xs), Obj(ys)) => xs.Keys == ys.Keys && forall k <- xs :: JsonEqual(xs[k], ys[k])
    case _ => if IsNumber(a) && IsNumber(b) then Numeric(a) == Numeric(b) else a == b
  }

  // ---------------------------------------------------------------- bounded JSON

  /** The number of values inside a value, itself included. */
  ghost function Nodes(value: Json): (n: nat)
    ensures n >= 1
    decreases value, 1, 0
  {
    match value
    case Arr(items) => 1 + NodesOfItems(value, 0)
    case Obj(fields) => 1 + NodesOfFields(value, fields.Keys)
    case _ => 1
  }

  ghost function NodesOfItems(value: Json, from: nat): nat
    requires value.Arr? && from <= |value.items|
    decreases value, 0, |value.items| - from
  {
    if from == |value.items| then 0 else Nodes(value.items[from]) + NodesOfItems(value, from + 1)
  }

  ghost function NodesOfFields(value: Json, keys: set<string>): nat
    requires value.Obj? && keys <= value.fields.Keys
    decreases value, 0, |keys|
  {
    if keys == {} then 0
    else
      var k :| k in keys;
      Nodes(value.fields[k]) + NodesOfFields(value, keys - {k})
  }

  /** No part of a value lies deeper than this. */
  predicate IsWithinDepth(value: Json, depth: int)
    decreases value
  {
    depth >= 0
    && match value
       case Arr(items) => forall i | 0 <= i < |items| :: IsWithinDepth(items[i], depth - 1)
       case Obj(fields) => forall k <- fields :: IsWithinDepth(fields[k], depth - 1)
       case _ => true
  }

  ghost predicate IsBounded(value: Json) {
    Nodes(value) <= MAX_JSON_NODES && IsWithinDepth(value, MAX_JSON_DEPTH)
  }

  /** The order in which members are counted does not matter. */
  lemma {:induction false} NodesOfFieldsRemove(value: Json, keys: set<string>, k: string)
    requires value.Obj? && keys <= value.fields.Keys && k in keys
    ensures NodesOfFields(value, keys) == Nodes(value.fields[k]) + NodesOfFields(value, keys - {k})
    decreases |keys|
  {
    var first :| first in keys
      && NodesOfFields(value, keys) == Nodes(value.fields[first]) + NodesOfFields(value, keys - {first});
    if first != k {
      NodesOfFieldsRemove(value, keys - {first}, k);
      NodesOfFieldsRemove(value, keys - {k}, first);
      assert keys - {first} - {k} == keys - {k} - {first};
    }
  }

  /** `_validate_json`: one shared counter over a recursive walk. */
  class JsonWalk {
    var nodes: nat

    constructor ()
      ensures nodes == 0
    {
      nodes := 0;
    }

    method Walk(current: Json, depth: nat) returns (accepted: bool)
      requires nodes <= MAX_JSON_NODES
      modifies this
      ensures accepted <==>
        old(nodes) + Nodes(current) <= MAX_JSON_NODES && IsWithinDepth(current, MAX_JSON_DEPTH as int - depth)
      ensures accepted ==> nodes == old(nodes) + Nodes(current)
      decreases current
    {
      nodes := nodes + 1;
      if nodes > MAX_JSON_NODES || depth > MAX_JSON_DEPTH {
        return false;
      }
      match current {
        case Arr(items) =>
          for i := 0 to |items|
            invariant nodes + NodesOfItems(current, i) == old(nodes) + Nodes(current)
            invariant nodes <= MAX_JSON_NODES
            invariant forall j | 0 <= j < i :: IsWithinDepth(items[j], MAX_JSON_DEPTH as int - depth - 1)
          {
            accepted := Walk(items[i], depth + 1);
            if !accepted {
              return;
            }
          }
        case Obj(fields) =>
          var keys := fields.Keys;
          while keys != {}
            invariant keys <= fields.Keys
            invariant nodes + NodesOfFields(current, keys) == old(nodes) + Nodes(current)
            invariant nodes <= MAX_JSON_NODES
            invariant forall k <- fields.Keys - keys :: IsWithinDepth(fields[k], MAX_JSON_DEPTH as int - depth - 1)
            decreases |keys|
          {
            var key :| key in keys;
            NodesOfFieldsRemove(current, keys, key);
            accepted := Walk(fields[key], depth + 1);
            if !accepted {
              return;
            }
            keys := keys - {key};
          }
        case _ =>
      }
      return true;
    }
  }

  /** Arguments are accepted exactly when they have at most 2,000 values, none deeper than 12. */
  method ValidateJson(value: Json) returns (accepted: bool)
    ensures accepted <==> IsBounded(value)
  {
    var walk := new JsonWalk();
    accepted := walk.Walk(value, 0);
  }
}
