/** Bounded, sanitised episode evidence (`episode_evidence.py`). */
module EpisodeEvidence {
  import opened Text
  import opened Json

  const MAX_EPISODE_EVIDENCE_CHARS := 160_000
  const MAX_EPISODE_STRING_CHARS := 32_000
  const MAX_EPISODE_COLLECTION_ITEMS := 4_096
  const MAX_EPISODE_DEPTH := 16

  const SENSITIVE_KEY_PARTS := [
    "api_key", "apikey", "authorization", "client_secret", "cookie",
    "credential", "passwd", "password", "private_key", "service_role"
  ]

  const RESOLVER_BOOKKEEPING_KEYS := {
    "matcher_status", "matcher_message", "resolver_suggestion", "memory_status", "memory_resolution_id",
    "memory_commit_sha", "memory_message", "memory_ingested_at", "updated_at"
  }

  function NormalizeKey(key: string): string {
    var stripped := Strip(key);
    seq(|stripped|, i requires 0 <= i < |stripped| => if stripped[i] == '-' then '_' else LowerChar(stripped[i]))
  }

  predicate EndsWith(s: string, suffix: string) {
    |suffix| <= |s| && s[|s| - |suffix|..] == suffix
  }

  predicate Contains(s: string, part: string) {
    exists i | 0 <= i <= |s| :: StartsWith(s[i..], part)
  }

  predicate IsSensitiveKey(key: string) {
    var normalized := NormalizeKey(key);
    normalized in RESOLVER_BOOKKEEPING_KEYS
    || normalized == "operator_email"
    || EndsWith(normalized, "_email")
    || normalized == "token"
    || StartsWith(normalized, "token_")
    || EndsWith(normalized, "_token")
    || exists part <- SENSITIVE_KEY_PARTS :: Contains(normalized, part)
  }

  function Keep(fields: map<string, Json>): map<string, Json> {
    map k | k in fields && !IsSensitiveKey(k) :: fields[k]
  }

  /** `_sanitize_value`: refuses anything over a bound, drops sensitive members, keeps the rest. */
  function Sanitize(value: Json, depth: nat): Result<Json>
    decreases value
  {
    if depth > MAX_EPISODE_DEPTH then Err("too deep")
    else
      match value
      case Str(s) => if |s| > MAX_EPISODE_STRING_CHARS then Err("oversized text") else Ok(value)
      case Obj(fields) =>
        if |fields| > MAX_EPISODE_COLLECTION_ITEMS then Err("too many fields")
        else if exists k <- fields :: !IsSensitiveKey(k) && Sanitize(fields[k], depth + 1).Err? then Err("bad field")
        else Ok(Obj(map k | k in fields && !IsSensitiveKey(k) :: Sanitize(fields[k], depth + 1).value))
      case Arr(items) =>
        if |items| > MAX_EPISODE_COLLECTION_ITEMS then Err("too many items")
        else if exists item <- items :: Sanitize(item, depth + 1).Err? then Err("bad item")
        else Ok(Arr(seq(|items|, i requires 0 <= i < |items| =>
          assert items[i] in items; Sanitize(items[i], depth + 1).value)))
      case _ => Ok(value)
  }

  /** `validate_episode_evidence` */
  ghost function Validate(value: Json): Result<Json> {
    var r := Sanitize(value, 0);
    if r.Err? then r
    else if !r.value.Obj? then Err("not an object")
    else if |Dumps(r.value, Compact)| > MAX_EPISODE_EVIDENCE_CHARS then Err("exceeds the bounded limit")
    else r
  }

  // ---------------------------------------------------------------- properties

  /** No sensitive name at any depth. */
  predicate IsClean(value: Json) {
    match value
    case Obj(fields) => forall k <- fields :: !IsSensitiveKey(k) && IsClean(fields[k])
    case Arr(items) => forall item <- items :: IsClean(item)
    case _ => true
  }

  /** What an accepted object or array becomes, member by member. */
  lemma SanitizeParts(value: Json, depth: nat)
    requires Sanitize(value, depth).Ok? && !IsScalar(value)
    ensures depth <= MAX_EPISODE_DEPTH
    ensures value.Obj? ==>
      && |value.fields| <= MAX_EPISODE_COLLECTION_ITEMS
      && (forall k <- Keep(value.fields) :: Sanitize(value.fields[k], depth + 1).Ok?)
      && Sanitize(value, depth).value == Obj(map k <- Keep(value.fields) :: Sanitize(value.fields[k], depth + 1).value)
    ensures value.Arr? ==>
      && |value.items| <= MAX_EPISODE_COLLECTION_ITEMS
      && Sanitize(value, depth).value.Arr?
      && |Sanitize(value, depth).value.items| == |value.items|
      && forall i | 0 <= i < |value.items| :: Sanitize(value.items[i], depth + 1) == Ok(Sanitize(value, depth).value.items[i])
  {
    hide IsSensitiveKey;
    if value.Arr? {
      assert forall i | 0 <= i < |value.items| :: value.items[i] in value.items;
    }
  }

  /** Conversely, how acceptance of the parts determines the whole. */
  lemma SanitizeWhole(value: Json, depth: nat, clean: Json)
    requires depth <= MAX_EPISODE_DEPTH
    requires
      || (&& value.Obj? && clean.Obj? && |value.fields| <= MAX_EPISODE_COLLECTION_ITEMS
          && clean.fields.Keys == Keep(value.fields).Keys
          && forall k <- clean.fields :: Sanitize(value.fields[k], depth + 1) == Ok(clean.fields[k]))
      || (&& value.Arr? && clean.Arr? && |value.items| == |clean.items| <= MAX_EPISODE_COLLECTION_ITEMS
          && forall i | 0 <= i < |value.items| :: Sanitize(value.items[i], depth + 1) == Ok(clean.items[i]))
    ensures Sanitize(value, depth) == Ok(clean)
  {
    hide IsSensitiveKey;
    if value.Obj? {
      var r := Sanitize(value, depth);
      assert forall k <- value.fields :: !IsSensitiveKey(k) ==> k in clean.fields;
      assert r.Ok? && r.value.fields == clean.fields;
    } else {
      var r := Sanitize(value, depth);
      assert r.Ok? && r.value.items == clean.items;
    }
  }

  lemma SanitizeScalar(value: Json, depth: nat)
    requires Sanitize(value, depth).Ok? && IsScalar(value)
    ensures Sanitize(value, depth).value == value
  {
  }

  lemma {:induction false} SanitizeIsClean(value: Json, depth: nat)
    requires Sanitize(value, depth).Ok?
    ensures IsClean(Sanitize(value, depth).value)
    decreases value
  {
    hide Sanitize, IsSensitiveKey;
    if IsScalar(value) {
      SanitizeScalar(value, depth);
    } else {
      SanitizeParts(value, depth);
      var clean := Sanitize(value, depth).value;
      if value.Obj? {
        forall k <- clean.fields ensures IsClean(clean.fields[k]) {
          SanitizeIsClean(value.fields[k], depth + 1);
        }
      } else {
        forall i | 0 <= i < |clean.items| ensures IsClean(clean.items[i]) {
          SanitizeIsClean(value.items[i], depth + 1);
        }
      }
    }
  }

  lemma SubsetSize(a: map<string, Json>, b: map<string, Json>)
    requires a.Keys <= b.Keys
    ensures |a| <= |b|
  {
    assert |a| == |a.Keys| && |b| == |b.Keys|;
    assert b.Keys == a.Keys + (b.Keys - a.Keys);
  }

  /** Sanitising sanitised evidence changes nothing and refuses nothing. */
  lemma {:induction false} SanitizeIdempotent(value: Json, depth: nat)
    requires Sanitize(value, depth).Ok?
    ensures Sanitize(Sanitize(value, depth).value, depth) == Sanitize(value, depth)
    decreases value
  {
    hide Sanitize, IsSensitiveKey;
    if IsScalar(value) {
      SanitizeScalar(value, depth);
    } else {
      SanitizeParts(value, depth);
      var clean := Sanitize(value, depth).value;
      if value.Obj? {
        SubsetSize(clean.fields, value.fields);
        forall k <- clean.fields ensures Sanitize(clean.fields[k], depth + 1) == Ok(clean.fields[k]) {
          SanitizeIdempotent(value.fields[k], depth + 1);
        }
        assert Keep(clean.fields).Keys == clean.fields.Keys;
      } else {
        forall i | 0 <= i < |clean.items| ensures Sanitize(clean.items[i], depth + 1) == Ok(clean.items[i]) {
          SanitizeIdempotent(value.items[i], depth + 1);
        }
      }
      SanitizeWhole(clean, depth, clean);
    }
  }

  datatype Step = Key(name: string) | Index(position: nat)

  /** The value found by following names and positions. */
  function Lookup(value: Json, path: seq<Step>): Option<Json> {
    if path == [] then Some(value)
    else
      match (value, path[0])
      case (Obj(fields), Key(name)) => if name in fields then Lookup(fields[name], path[1..]) else None
      case (Arr(items), Index(position)) => if position < |items| then Lookup(items[position], path[1..]) else None
      case _ => None
  }

  predicate AvoidsSensitive(path: seq<Step>) {
    path == [] || ((path[0].Key? ==> !IsSensitiveKey(path[0].name)) && AvoidsSensitive(path[1..]))
  }

  predicate IsScalar(value: Json) {
    !value.Obj? && !value.Arr?
  }

  /** Exactly the positions free of sensitive names survive, and every surviving scalar is unchanged. */
  lemma {:induction false} SanitizeKeepsTheRest(value: Json, depth: nat, path: seq<Step>)
    requires Sanitize(value, depth).Ok?
    ensures Lookup(Sanitize(value, depth).value, path).Some? <==> Lookup(value, path).Some? && AvoidsSensitive(path)
    ensures
      var before, after := Lookup(value, path), Lookup(Sanitize(value, depth).value, path);
      before.Some? && after.Some? && IsScalar(before.value) ==> before == after
    decreases value
  {
    hide Sanitize, IsSensitiveKey;
    if IsScalar(value) {
      SanitizeScalar(value, depth);
    } else {
      SanitizeParts(value, depth);
      if path != [] {
        if value.Obj? && path[0].Key? && path[0].name in Keep(value.fields) {
          SanitizeKeepsTheRest(value.fields[path[0].name], depth + 1, path[1..]);
        } else if value.Arr? && path[0].Index? && path[0].position < |value.items| {
          SanitizeKeepsTheRest(value.items[path[0].position], depth + 1, path[1..]);
        }
      }
    }
  }

  /** A place is not too deep, its text not too long, and it has not too many members. */
  predicate IsModest(value: Json, depth: nat) {
    depth <= 16
    && (value.Str? ==> |value.s| <= 32_000)
    && (value.Obj? ==> |value.fields| <= 4_096) && (value.Arr? ==> |value.items| <= 4_096)
  }

  /** A place that sanitising keeps, and its depth. */
  predicate IsModestAt(value: Json, depth: nat, path: seq<Step>) {
    Lookup(value, path).Some? && AvoidsSensitive(path) ==> IsModest(Lookup(value, path).value, depth + |path|)
  }

  /** Every place outside sensitive members is modest. */
  ghost predicate IsModestEverywhere(value: Json, depth: nat) {
    forall path: seq<Step> | Lookup(value, path).Some? && AvoidsSensitive(path) :: IsModestAt(value, depth, path)
  }

  lemma ModestBelow(value: Json, depth: nat, step: Step, path: seq<Step>)
    ensures Lookup(value, [step] + path) == if Lookup(value, [step]).Some? then Lookup(Lookup(value, [step]).value, path) else None
    ensures AvoidsSensitive([step] + path) <==> AvoidsSensitive([step]) && AvoidsSensitive(path)
    ensures depth + |[step] + path| == depth + 1 + |path|
  {
    hide IsSensitiveKey;
    assert ([step] + path)[1..] == path && [step][1..] == [];
  }

  /** Something is refused in one of the members that are kept. */
  predicate HasRefusedMember(value: Json, depth: nat) {
    (value.Obj? && exists k <- Keep(value.fields) :: Sanitize(value.fields[k], depth + 1).Err?)
    || (value.Arr? && exists i | 0 <= i < |value.items| :: Sanitize(value.items[i], depth + 1).Err?)
  }

  lemma AcceptedHere(value: Json, depth: nat)
    ensures Sanitize(value, depth).Ok? <==> IsModest(value, depth) && !HasRefusedMember(value, depth)
  {
    hide IsSensitiveKey;
    if value.Arr? {
      assert forall i | 0 <= i < |value.items| :: value.items[i] in value.items;
    }
  }

  /** Evidence is refused exactly if a place outside sensitive members is too deep, too long or too large. */
  lemma {:induction false} SanitizeAcceptsIff(value: Json, depth: nat)
    ensures Sanitize(value, depth).Ok? <==> IsModestEverywhere(value, depth)
    decreases value
  {
    hide Sanitize, IsSensitiveKey, IsModest;
    AcceptedHere(value, depth);
    assert Lookup(value, []) == Some(value) && (IsModestAt(value, depth, []) <==> IsModest(value, depth));
    if value.Obj? {
      forall k <- Keep(value.fields) {
        SanitizeAcceptsIff(value.fields[k], depth + 1);
      }
    } else if value.Arr? {
      forall i | 0 <= i < |value.items| {
        SanitizeAcceptsIff(value.items[i], depth + 1);
      }
    }
    if Sanitize(value, depth).Ok? {
      forall path: seq<Step> | Lookup(value, path).Some? && AvoidsSensitive(path) ensures IsModestAt(value, depth, path) {
        if path != [] {
          MemberIsModest(value, depth, path);
        }
      }
    }
    if !Sanitize(value, depth).Ok? && IsModest(value, depth) {
      RefusedMember(value, depth);
    }
  }

  lemma MemberIsModest(value: Json, depth: nat, path: seq<Step>)
    requires path != [] && Lookup(value, path).Some? && AvoidsSensitive(path) && !HasRefusedMember(value, depth)
    requires value.Obj? ==> forall k <- Keep(value.fields) | Sanitize(value.fields[k], depth + 1).Ok? ::
      IsModestEverywhere(value.fields[k], depth + 1)
    requires value.Arr? ==> forall i | 0 <= i < |value.items| && Sanitize(value.items[i], depth + 1).Ok? ::
      IsModestEverywhere(value.items[i], depth + 1)
    ensures IsModestAt(value, depth, path)
  {
    hide Sanitize, IsSensitiveKey, IsModest;
    var rest := path[1..];
    if value.Obj? {
      assert path[0].name in Keep(value.fields);
      assert IsModestAt(value.fields[path[0].name], depth + 1, rest);
    } else {
      assert IsModestAt(value.items[path[0].position], depth + 1, rest);
    }
  }

  lemma RefusedMember(value: Json, depth: nat)
    requires HasRefusedMember(value, depth)
    requires value.Obj? ==> forall k <- Keep(value.fields) | Sanitize(value.fields[k], depth + 1).Err? ::
      !IsModestEverywhere(value.fields[k], depth + 1)
    requires value.Arr? ==> forall i | 0 <= i < |value.items| && Sanitize(value.items[i], depth + 1).Err? ::
      !IsModestEverywhere(value.items[i], depth + 1)
    ensures !IsModestEverywhere(value, depth)
  {
    hide Sanitize, IsModestEverywhere;
    if value.Obj? {
      var k :| k in Keep(value.fields) && Sanitize(value.fields[k], depth + 1).Err?;
      BelowIsImmodest(value, depth, Key(k), value.fields[k]);
    } else {
      var i :| 0 <= i < |value.items| && Sanitize(value.items[i], depth + 1).Err?;
      BelowIsImmodest(value, depth, Index(i), value.items[i]);
    }
  }

  lemma BelowIsImmodest(value: Json, depth: nat, step: Step, member: Json)
    requires Lookup(value, [step]) == Some(member) && AvoidsSensitive([step]) && !IsModestEverywhere(member, depth + 1)
    ensures !IsModestEverywhere(value, depth)
  {
    hide Lookup, AvoidsSensitive, IsModest;
    var p: seq<Step> :| Lookup(member, p).Some? && AvoidsSensitive(p) && !IsModestAt(member, depth + 1, p);
    ModestBelow(value, depth, step, p);
    assert !IsModestAt(value, depth, [step] + p);
  }

  /** Evidence is accepted if and only if it is an object, modest at every place that is kept, and its text is not too long. */
  lemma ValidateAcceptsIff(value: Json)
    ensures Validate(value).Ok?
      <==> value.Obj? && IsModestEverywhere(value, 0)
           && var kept := Sanitize(value, 0);
           kept.Ok? && |Dumps(kept.value, Compact)| <= 160_000
    ensures Validate(value).Ok? ==> Validate(value) == Sanitize(value, 0)
  {
    hide IsModestEverywhere, IsSensitiveKey, Dumps;
    SanitizeAcceptsIff(value, 0);
  }

  // ---------------------------------------------------------------- which names are sensitive

  predicate IsSameLetter(a: char, b: char) {
    LowerChar(a) == LowerChar(b) || (a in "-_" && b in "-_")
  }

  /** The same name up to blanks around it, upper and lower case, and hyphens for underscores. */
  predicate IsRespelled(key: string, other: string) {
    |Strip(key)| == |Strip(other)| && forall i | 0 <= i < |Strip(key)| :: IsSameLetter(Strip(key)[i], Strip(other)[i])
  }

  /** A sensitive name is recognised however it is spelled. */
  lemma SensitiveHoweverSpelled(key: string, other: string)
    requires IsRespelled(key, other)
    ensures IsSensitiveKey(key) <==> IsSensitiveKey(other)
  {
    hide Strip;
    assert NormalizeKey(key) == NormalizeKey(other);
  }

  /** Written plainly already. */
  predicate IsPlain(name: string) {
    Strip(name) == name && forall i | 0 <= i < |name| :: name[i] != '-' && LowerChar(name[i]) == name[i]
  }

  predicate IsAround(name: string, before: string, part: string, after: string) {
    name == before + part + after
  }

  /** The name has this text somewhere in it. */
  ghost predicate Holds(name: string, part: string) {
    exists before: string, after: string :: IsAround(name, before, part, after)
  }

  ghost predicate IsSecret(name: string) {
    || Holds(name, "password") || Holds(name, "passwd") || Holds(name, "cookie") || Holds(name, "credential")
    || Holds(name, "authorization") || Holds(name, "api_key") || Holds(name, "apikey") || Holds(name, "private_key")
    || Holds(name, "client_secret") || Holds(name, "service_role")
  }

  predicate IsBookkeeping(name: string) {
    || name == "matcher_status" || name == "matcher_message" || name == "resolver_suggestion" || name == "memory_status"
    || name == "memory_resolution_id" || name == "memory_commit_sha" || name == "memory_message"
    || name == "memory_ingested_at" || name == "updated_at"
  }

  lemma HoldsIff(name: string, part: string)
    ensures Contains(name, part) <==> Holds(name, part)
  {
    if Contains(name, part) {
      var i :| 0 <= i <= |name| && StartsWith(name[i..], part);
      assert name[i..] == part + name[i..][|part|..];
      assert IsAround(name, name[..i], part, name[i..][|part|..]);
    }
    if Holds(name, part) {
      var before, after :| IsAround(name, before, part, after);
      assert name[|before|..] == part + after && StartsWith(name[|before|..], part);
    }
  }

  lemma SecretIff(name: string)
    ensures (exists part <- SENSITIVE_KEY_PARTS :: Contains(name, part)) <==> IsSecret(name)
  {
    hide Holds, Contains;
    forall part <- SENSITIVE_KEY_PARTS {
      HoldsIff(name, part);
    }
    assert SENSITIVE_KEY_PARTS[0] == "api_key" && SENSITIVE_KEY_PARTS[1] == "apikey" && SENSITIVE_KEY_PARTS[2] == "authorization";
    assert SENSITIVE_KEY_PARTS[3] == "client_secret" && SENSITIVE_KEY_PARTS[4] == "cookie" && SENSITIVE_KEY_PARTS[5] == "credential";
    assert SENSITIVE_KEY_PARTS[6] == "passwd" && SENSITIVE_KEY_PARTS[7] == "password" && SENSITIVE_KEY_PARTS[8] == "private_key";
    assert SENSITIVE_KEY_PARTS[9] == "service_role";
  }

  lemma AffixIff(name: string)
    ensures StartsWith(name, "token_") <==> |name| >= 6 && name[..6] == "token_"
    ensures EndsWith(name, "_token") <==> |name| >= 6 && name[|name| - 6..] == "_token"
    ensures EndsWith(name, "_email") <==> |name| >= 6 && name[|name| - 6..] == "_email"
  {
  }

  lemma BookkeepingIff(name: string)
    ensures name in RESOLVER_BOOKKEEPING_KEYS <==> IsBookkeeping(name)
  {
  }

  lemma PlainIsNormal(name: string)
    requires IsPlain(name)
    ensures NormalizeKey(name) == name
  {
    hide Strip;
  }

  /** A plain name is sensitive if it names a token, ends as an address, holds a secret's name, or is the resolver's own. */
  lemma SensitiveIff(name: string)
    requires IsPlain(name)
    ensures IsSensitiveKey(name)
      <==>
        || name == "token"
        || (|name| >= 6 && (name[..6] == "token_" || name[|name| - 6..] == "_token" || name[|name| - 6..] == "_email"))
        || IsSecret(name) || IsBookkeeping(name)
  {
    hide Strip, IsSecret, Contains, IsPlain, IsBookkeeping, StartsWith, EndsWith, NormalizeKey;
    PlainIsNormal(name);
    AffixIff(name);
    BookkeepingIff(name);
    SecretIff(name);
  }

  /** Evidence that validated once validates again to itself. */
  lemma ValidateIdempotent(value: Json)
    requires Validate(value).Ok?
    ensures Validate(Validate(value).value) == Validate(value)
    ensures IsClean(Validate(value).value)
  {
    SanitizeIdempotent(value, 0);
    SanitizeIsClean(value, 0);
  }
}
