/** From a resolution row and a model's prose to a prepared draft (`memory_store.py`). */
module MemorySource {
  import opened Text
  import opened Json
  import opened JsonText
  import opened MemoryMarkdown
  import EpisodeEvidence

  /** The row fields that can affect a memory; everything else, such as the operator's address, is dropped. */
  function SourceFields(): seq<string> {
    ["resolution_id", "failure_id", "sysid", "site_id", "site", "floor", "room_number", "map_id", "map_name",
     "map_observed_at", "flow_id", "flow_name", "activity_id", "area_name", "item_name", "failure_status",
     "failure_reason", "failed_command", "failed_action", "robot_message", "auto_failure_reason", "resolution",
     "actions", "action_runs", "action_specs", "robot_version", "robot_status", "navigation", "arm_state",
     "mapping_pose", "status_reported_at", "flow_snapshot", "run_code", "outcome", "applied", "captured_at",
     "resolved_at", "created_at", "description", "failed_step", "episode_evidence"]
  }

  /** `_optional_row_text`, with the default that the caller supplies. */
  function OutcomeText(row: map<string, Json>): Result<string> {
    match Get(row, "outcome")
    case Null => Ok("recorded")
    case Str(s) => Ok(if Strip(s) == "" then "recorded" else Strip(s))
    case _ => Err("outcome must be text or null")
  }

  /** A missing map identity is taken from the robot's navigation report. */
  function WithCurrentMap(row: map<string, Json>, payload: map<string, Json>): map<string, Json> {
    var navigation := Get(row, "navigation");
    var current := if navigation.Obj? then Get(navigation.fields, "current_map") else Null;
    if !current.Obj? then payload
    else
      var a := if Get(payload, "map_id").Null? then payload["map_id" := Get(current.fields, "id")] else payload;
      var b := if Get(a, "map_name").Null? then a["map_name" := Get(current.fields, "map_name")] else a;
      if Get(b, "map_observed_at").Null? then b["map_observed_at" := Get(row, "status_reported_at")] else b
  }

  ghost function Payload(row: map<string, Json>): Result<map<string, Json>> {
    var id := CanonicalUuid(Get(row, "resolution_id"));
    var failure := Get(row, "failure_id");
    var applied := if "applied" in row then row["applied"] else Bool(false);
    var outcome := OutcomeText(row);
    var evidence := Get(row, "episode_evidence");
    var runs := Get(row, "action_runs");
    if id.None? || (!failure.Null? && CanonicalUuid(failure).None?) then Err("identifier")
    else if !applied.Bool? then Err("applied must be a boolean")
    else if outcome.Err? then Err(outcome.reason)
    else if !evidence.Null? && EpisodeEvidence.Validate(evidence).Err? then Err("episode evidence")
    else if !runs.Null? && (!runs.Arr? || exists run <- runs.items :: !run.Obj?) then Err("action_runs")
    else
      var base := map field <- SourceFields() :: Get(row, field);
      Ok(WithCurrentMap(row, base[
        "resolution_id" := Str(id.value)][
        "failure_id" := TextOrNull(if failure.Null? then None else CanonicalUuid(failure))][
        "outcome" := Str(outcome.value)][
        "applied" := applied][
        "episode_evidence" := if evidence.Null? then Null else EpisodeEvidence.Validate(evidence).value][
        "action_runs" := if runs.Null? then Arr([]) else runs]))
  }

  /** `resolution_source_from_row`; `digest` is SHA-256 in hexadecimal. */
  ghost function SourceFromRow(digest: string -> string, row: map<string, Json>): Result<Source> {
    var payload := Payload(row);
    if payload.Err? then Err(payload.reason)
    else
      var failure := Get(payload.value, "failure_id");
      var id := Get(payload.value, "resolution_id");
      Ok(Source(
        if id.Str? then id.s else "", if failure.Str? then Some(failure.s) else None, digest(Preimage(payload.value)),
        payload.value))
  }

  /** The canonical text that is hashed. */
  ghost function Preimage(payload: map<string, Json>): string {
    Dumps(Obj(payload), Compact)
  }

  /** `_required_draft_text` */
  function RequiredText(text: string): Option<string> {
    if Strip(text) == "" || '\0' in text then None else Some(Strip(text))
  }

  function RequiredTexts(texts: seq<string>): Option<seq<string>> {
    if texts == [] then Some([])
    else
      match (RequiredText(texts[0]), RequiredTexts(texts[1..]))
      case (Some(first), Some(rest)) => Some([first] + rest)
      case _ => None
  }

  /** `MemoryDraft.__post_init__` */
  ghost function MakeDraft(
      source: Source, memoryKind: string, actionable: bool, failureSummary: string, recoverySummary: string,
      lessons: seq<string>, signature: Json, model: string, responseId: Option<string>): Result<Draft>
  {
    var failure, recovery := RequiredText(failureSummary), RequiredText(recoverySummary);
    var name, tags := RequiredText(model), RequiredTexts(lessons);
    if memoryKind != "positive" && memoryKind != "negative" then Err("memory_kind")
    else if failure.None? || recovery.None? || name.None? || tags.None? then Err("text")
    else if responseId.Some? && '\0' in responseId.value then Err("response_id")
    else if !signature.Null? && EpisodeEvidence.Validate(signature).Err? then Err("signature")
    else if actionable
      && (memoryKind != "positive" || source.DispatchedActions() == []
          || Get(source.payload, "outcome") != Str("resolved") || Get(source.payload, "applied") != Bool(true))
    then Err("not actionable")
    else
      Ok(Draft(
        source, memoryKind, actionable, failure.value, recovery.value, tags.value,
        if signature.Null? then Null else EpisodeEvidence.Validate(signature).value, name.value,
        if responseId.Some? && Strip(responseId.value) != "" then Some(Strip(responseId.value)) else None))
  }

  // ---------------------------------------------------------------- properties

  lemma PayloadParts(row: map<string, Json>)
    requires Payload(row).Ok?
    ensures
      var payload := Payload(row).value;
      && Get(payload, "resolution_id").Str? && IsCanonicalUuid(Get(payload, "resolution_id").s)
      && Get(payload, "action_runs").Arr? && (forall run <- Get(payload, "action_runs").items :: run.Obj?)
      && IsEvidence(Get(payload, "episode_evidence"))
  {
    hide SourceFields, CanonicalUuid;
    var evidence := Get(row, "episode_evidence");
    CanonicalUuidShape(Get(row, "resolution_id"));
    if !evidence.Null? { EpisodeEvidence.ValidateIdempotent(evidence); }
  }

  lemma CanonicalUuidShape(value: Json)
    ensures CanonicalUuid(value).Some? ==> IsCanonicalUuid(CanonicalUuid(value).value)
  {
  }

  /** Every draft the constructors accept satisfies what rendering relies on. */
  lemma DraftIsPrepared(
      digest: string -> string, row: map<string, Json>, memoryKind: string, actionable: bool, failureSummary: string,
      recoverySummary: string, lessons: seq<string>, signature: Json, model: string, responseId: Option<string>)
    requires forall text :: IsHash(digest(text))
    requires SourceFromRow(digest, row).Ok?
    requires MakeDraft(SourceFromRow(digest, row).value, memoryKind, actionable, failureSummary, recoverySummary, lessons,
                       signature, model, responseId).Ok?
    ensures
      var draft := MakeDraft(SourceFromRow(digest, row).value, memoryKind, actionable, failureSummary, recoverySummary,
                             lessons, signature, model, responseId).value;
      IsPrepared(draft) && draft.recoverySummary == Strip(recoverySummary) != ""
  {
    hide Payload, Strip;
    PayloadParts(row);
    if !signature.Null? { EpisodeEvidence.ValidateIdempotent(signature); }
  }

  /** The hashed text identifies the memory's whole input: equal texts come from equal payloads, and conversely. */
  lemma PreimageIdentifiesPayload(a: map<string, Json>, b: map<string, Json>)
    ensures Preimage(a) == Preimage(b) <==> a == b
  {
    if Preimage(a) == Preimage(b) { DumpsInjective(Obj(a), Obj(b), Compact); }
  }

  /** What the navigation report says about the current map, under this key. */
  function CurrentMap(row: map<string, Json>, key: string): Json {
    var navigation := Get(row, "navigation");
    if navigation.Obj? && Get(navigation.fields, "current_map").Obj?
    then Get(Get(navigation.fields, "current_map").fields, key) else Null
  }

  predicate ReportsMap(row: map<string, Json>) {
    Get(row, "navigation").Obj? && Get(Get(row, "navigation").fields, "current_map").Obj?
  }

  lemma MapFallsBack(row: map<string, Json>, payload: map<string, Json>, key: string)
    requires "map_id" in payload && "map_name" in payload && "map_observed_at" in payload
    ensures
      var after := WithCurrentMap(row, payload);
      && after.Keys == payload.Keys
      && after["map_id"] == (if payload["map_id"].Null? then CurrentMap(row, "id") else payload["map_id"])
      && after["map_name"] == (if payload["map_name"].Null? then CurrentMap(row, "map_name") else payload["map_name"])
      && after["map_observed_at"]
         == (if payload["map_observed_at"].Null? && ReportsMap(row) then Get(row, "status_reported_at")
             else payload["map_observed_at"])
      && (key in payload && key != "map_id" && key != "map_name" && key != "map_observed_at" ==> after[key] == payload[key])
  {
  }

  /** The fields that are not simply the row's. */
  function Prepared(): set<string> {
    {"resolution_id", "failure_id", "outcome", "applied", "episode_evidence", "action_runs",
     "map_id", "map_name", "map_observed_at"}
  }

  lemma PreparedAreKept()
    ensures forall key <- Prepared() :: key in SourceFields()
  {
    assert SourceFields()[0] == "resolution_id" && SourceFields()[1] == "failure_id" && SourceFields()[7] == "map_id";
    assert SourceFields()[8] == "map_name" && SourceFields()[9] == "map_observed_at" && SourceFields()[23] == "action_runs";
    assert SourceFields()[33] == "outcome" && SourceFields()[34] == "applied" && SourceFields()[40] == "episode_evidence";
  }

  /** The source holds the row's own fields; a map that the row does not name is the one the robot reports to be on. */
  lemma PayloadShows(row: map<string, Json>, key: string)
    requires Payload(row).Ok? && key in SourceFields()
    ensures key in Payload(row).value
    ensures key !in Prepared() ==> Payload(row).value[key] == Get(row, key)
    ensures key == "map_id" || key == "map_name" ==>
      Payload(row).value[key]
      == if Get(row, key).Null? then CurrentMap(row, if key == "map_id" then "id" else key) else Get(row, key)
  {
    PreparedAreKept();
    hide SourceFields, CanonicalUuid, OutcomeText, WithCurrentMap, CurrentMap;
    var base := map field <- SourceFields() :: Get(row, field);
    var failure, runs, evidence := Get(row, "failure_id"), Get(row, "action_runs"), Get(row, "episode_evidence");
    var filled := base[
      "resolution_id" := Str(CanonicalUuid(Get(row, "resolution_id")).value)][
      "failure_id" := TextOrNull(if failure.Null? then None else CanonicalUuid(failure))][
      "outcome" := Str(OutcomeText(row).value)][
      "applied" := if "applied" in row then row["applied"] else Bool(false)][
      "episode_evidence" := if evidence.Null? then Null else EpisodeEvidence.Validate(evidence).value][
      "action_runs" := if runs.Null? then Arr([]) else runs];
    assert Payload(row) == Ok(WithCurrentMap(row, filled));
    hide Payload;
    MapFallsBack(row, filled, key);
  }

  // ---------------------------------------------------------------- which rows are accepted

  predicate IsIdText(value: Json) {
    value.Str? && IsCanonicalUuid(Lower(Strip(value.s)))
  }

  ghost predicate IsAcceptedRow(row: map<string, Json>) {
    var failure, outcome, runs := Get(row, "failure_id"), Get(row, "outcome"), Get(row, "action_runs");
    && IsIdText(Get(row, "resolution_id")) && (failure.Null? || IsIdText(failure))
    && ("applied" in row ==> row["applied"].Bool?) && (outcome.Null? || outcome.Str?)
    && (Get(row, "episode_evidence").Null? || EpisodeEvidence.Validate(Get(row, "episode_evidence")).Ok?)
    && (runs.Null? || (runs.Arr? && forall i | 0 <= i < |runs.items| :: runs.items[i].Obj?))
  }

  /** What is normalised in the source of an accepted row; a blank outcome was only recorded. */
  ghost predicate ShowsNormalised(row: map<string, Json>, payload: map<string, Json>) {
    var failure, outcome, runs := Get(row, "failure_id"), Get(row, "outcome"), Get(row, "action_runs");
    var evidence := Get(row, "episode_evidence");
    && IsIdText(Get(row, "resolution_id")) && Get(payload, "resolution_id") == Str(Lower(Strip(Get(row, "resolution_id").s)))
    && (failure.Null? ==> Get(payload, "failure_id").Null?)
    && (failure.Str? ==> Get(payload, "failure_id") == Str(Lower(Strip(failure.s))))
    && (outcome.Null? ==> Get(payload, "outcome") == Str("recorded"))
    && (outcome.Str? ==> Get(payload, "outcome") == Str(if Strip(outcome.s) == "" then "recorded" else Strip(outcome.s)))
    && Get(payload, "applied") == (if "applied" in row then row["applied"] else Bool(false))
    && Get(payload, "action_runs") == (if runs.Null? then Arr([]) else runs)
    && (evidence.Null? ==> Get(payload, "episode_evidence").Null?)
    && (!evidence.Null? ==> EpisodeEvidence.Validate(evidence) == Ok(Get(payload, "episode_evidence")))
  }

  lemma MapKeeps(row: map<string, Json>, payload: map<string, Json>, key: string)
    requires key != "map_id" && key != "map_name" && key != "map_observed_at"
    ensures Get(WithCurrentMap(row, payload), key) == Get(payload, key)
  {
  }

  /** A row is accepted if and only if its identifiers, outcome, evidence and runs are well formed. */
  lemma RowIff(row: map<string, Json>)
    ensures Payload(row).Ok? <==> IsAcceptedRow(row)
  {
    hide Strip, Lower, IsCanonicalUuid, WithCurrentMap, SourceFields, EpisodeEvidence.Validate;
    var runs := Get(row, "action_runs");
    if runs.Arr? {
      assert forall i | 0 <= i < |runs.items| :: runs.items[i] in runs.items;
    }
  }

  lemma NormalisedShown(row: map<string, Json>)
    requires Payload(row).Ok?
    ensures ShowsNormalised(row, Payload(row).value)
  {
    hide WithCurrentMap, SourceFields, EpisodeEvidence.Validate, Strip, Lower, IsCanonicalUuid;
    RowIff(row);
    var base := map field <- SourceFields() :: Get(row, field);
    var failure, runs, evidence := Get(row, "failure_id"), Get(row, "action_runs"), Get(row, "episode_evidence");
    var filled := base[
      "resolution_id" := Str(CanonicalUuid(Get(row, "resolution_id")).value)][
      "failure_id" := TextOrNull(if failure.Null? then None else CanonicalUuid(failure))][
      "outcome" := Str(OutcomeText(row).value)][
      "applied" := if "applied" in row then row["applied"] else Bool(false)][
      "episode_evidence" := if evidence.Null? then Null else EpisodeEvidence.Validate(evidence).value][
      "action_runs" := if runs.Null? then Arr([]) else runs];
    assert Payload(row) == Ok(WithCurrentMap(row, filled));
    MapKeeps(row, filled, "resolution_id");
    MapKeeps(row, filled, "failure_id");
    MapKeeps(row, filled, "outcome");
    MapKeeps(row, filled, "applied");
    MapKeeps(row, filled, "action_runs");
    MapKeeps(row, filled, "episode_evidence");
    hide Payload;
  }

  // ---------------------------------------------------------------- which drafts are accepted

  /** Text that is not blank and holds no NUL, trimmed. */
  predicate IsTrimmedOf(text: string, given: string) {
    text == Strip(given) && text != "" && '\0' !in given
  }

  predicate AreTrimmedOf(texts: seq<string>, given: seq<string>) {
    |texts| == |given| && forall i | 0 <= i < |given| :: IsTrimmedOf(texts[i], given[i])
  }

  /** Only an applied demonstration that resolved the failure by dispatched actions is actionable. */
  predicate IsPositiveDemonstration(source: Source, memoryKind: string) {
    memoryKind == "positive" && source.DispatchedActions() != []
    && Get(source.payload, "outcome") == Str("resolved") && Get(source.payload, "applied") == Bool(true)
  }

  ghost predicate IsDraftOf(
      draft: Draft, source: Source, memoryKind: string, actionable: bool, failureSummary: string, recoverySummary: string,
      lessons: seq<string>, signature: Json, model: string, responseId: Option<string>)
  {
    && draft.source == source && draft.actionable == actionable && draft.memoryKind == memoryKind
    && memoryKind in {"positive", "negative"} && (actionable ==> IsPositiveDemonstration(source, memoryKind))
    && IsTrimmedOf(draft.failureSummary, failureSummary) && IsTrimmedOf(draft.recoverySummary, recoverySummary)
    && AreTrimmedOf(draft.lessons, lessons) && IsTrimmedOf(draft.model, model)
    && (if signature.Null? then draft.signature.Null? else EpisodeEvidence.Validate(signature) == Ok(draft.signature))
    && (responseId.Some? ==> '\0' !in responseId.value)
    && draft.responseId == if responseId.Some? && Strip(responseId.value) != "" then Some(Strip(responseId.value)) else None
  }

  lemma TrimmedIff(given: string, text: string)
    ensures RequiredText(given) == Some(text) <==> IsTrimmedOf(text, given)
  {
    hide Strip;
  }

  lemma {:induction false} AllTrimmedIff(given: seq<string>, texts: seq<string>)
    ensures RequiredTexts(given) == Some(texts) <==> AreTrimmedOf(texts, given)
  {
    hide RequiredText, IsTrimmedOf;
    if given != [] && texts != [] {
      TrimmedIff(given[0], texts[0]);
      AllTrimmedIff(given[1..], texts[1..]);
      assert [texts[0]] + texts[1..] == texts;
      assert AreTrimmedOf(texts, given) <==> IsTrimmedOf(texts[0], given[0]) && AreTrimmedOf(texts[1..], given[1..]) by {
        if IsTrimmedOf(texts[0], given[0]) && AreTrimmedOf(texts[1..], given[1..]) {
          forall i | 0 <= i < |given| ensures IsTrimmedOf(texts[i], given[i]) {
            if i > 0 {
              assert texts[i] == texts[1..][i - 1] && given[i] == given[1..][i - 1];
            }
          }
        }
      }
    }
  }

  /** A draft is accepted if and only if it is made of its inputs, trimmed and validated, and an actionable one is earned. */
  lemma DraftIff(
      draft: Draft, source: Source, memoryKind: string, actionable: bool, failureSummary: string, recoverySummary: string,
      lessons: seq<string>, signature: Json, model: string, responseId: Option<string>)
    ensures
      MakeDraft(source, memoryKind, actionable, failureSummary, recoverySummary, lessons, signature, model, responseId) == Ok(draft)
      <==>
      IsDraftOf(
        draft, source, memoryKind, actionable, failureSummary, recoverySummary, lessons, signature, model, responseId)
  {
    hide Strip, RequiredText, IsTrimmedOf, RequiredTexts, AreTrimmedOf;
    TrimmedIff(failureSummary, draft.failureSummary);
    TrimmedIff(recoverySummary, draft.recoverySummary);
    TrimmedIff(model, draft.model);
    AllTrimmedIff(lessons, draft.lessons);
  }

  // ---------------------------------------------------------------- a row whose memory cannot be read back

  const BROKEN_ID := "11111111-2222-3333-4444-555555555555"
  const BROKEN_FLOW := "Dock" + [LINE_SEPARATOR] + "North"

  /** A resolution of a Flow with a line separator, U+2028, in its name. */
  function BrokenRow(): map<string, Json> {
    map["resolution_id" := Str(BROKEN_ID), "flow_name" := Str(BROKEN_FLOW)]
  }

  lemma BrokenRowFields()
    ensures
      var row := BrokenRow();
      && Get(row, "resolution_id") == Str(BROKEN_ID) && Get(row, "flow_name") == Str(BROKEN_FLOW)
      && "failure_id" !in row && "outcome" !in row && "applied" !in row && "episode_evidence" !in row
      && "action_runs" !in row && "navigation" !in row
  {
  }

  lemma BrokenIdIsCanonical()
    ensures CanonicalUuid(Str(BROKEN_ID)) == Some(BROKEN_ID)
  {
    hide CanonicalUuid;
    CanonicalUuidIdentity(BROKEN_ID);
  }

  lemma FlowNameIsKept()
    ensures "flow_name" in SourceFields()
  {
    assert SourceFields()[11] == "flow_name";
  }

  /** A row with no more than an identifier and a Flow name is accepted, and its Flow name is part of the memory. */
  lemma PlainRowIsAccepted(row: map<string, Json>)
    requires CanonicalUuid(Get(row, "resolution_id")).Some?
    requires "failure_id" !in row && "outcome" !in row && "applied" !in row && "episode_evidence" !in row
    requires "action_runs" !in row && "navigation" !in row
    ensures Payload(row).Ok? && Get(Payload(row).value, "flow_name") == Get(row, "flow_name")
  {
    FlowNameIsKept();
    hide SourceFields, CanonicalUuid;
    assert OutcomeText(row) == Ok("recorded");
    hide OutcomeText;
  }

  lemma PlainText(s: string)
    requires s != "" && !IsSpace(s[0]) && !IsSpace(s[|s| - 1]) && '\0' !in s
    ensures RequiredText(s) == Some(s)
  {
    hide Strip, IsSpace;
    StripTrims(s);
  }

  /** Its draft is accepted and prepared, and the file it is rendered to does not parse back to it. */
  lemma LineSeparatorIsNotReadBack(digest: string -> string, show: Json -> string)
    requires forall text :: IsHash(digest(text))
    ensures SourceFromRow(digest, BrokenRow()).Ok?
    ensures
      var source := SourceFromRow(digest, BrokenRow()).value;
      var draft := MakeDraft(source, "negative", false, "Blocked", "Cleared", [], Null, "model", None);
      draft.Ok? && IsPrepared(draft.value) && Parse(Render(draft.value, show)) != Ok(Rendered(draft.value, show))
  {
    hide Payload, CanonicalUuid, Strip, IsPrepared, BrokenRow, Render, Rendered, Parse, IsOneLineFrontmatter, RequiredText;
    BrokenRowFields();
    BrokenIdIsCanonical();
    PlainRowIsAccepted(BrokenRow());
    PlainText("Blocked");
    PlainText("Cleared");
    PlainText("model");
    var source := SourceFromRow(digest, BrokenRow()).value;
    var draft := MakeDraft(source, "negative", false, "Blocked", "Cleared", [], Null, "model", None).value;
    DraftIsPrepared(digest, BrokenRow(), "negative", false, "Blocked", "Cleared", [], Null, "model", None);
    BrokenField(draft);
    ParseRender(draft, show);
  }

  lemma BrokenField(draft: Draft)
    requires Get(draft.source.payload, "flow_name") == Str(BROKEN_FLOW)
    ensures !IsOneLineFrontmatter(draft)
  {
    assert BROKEN_FLOW[4] == LINE_SEPARATOR && BROKEN_FLOW[4] in BROKEN_FLOW;
    assert HasRareBreakText(BROKEN_FLOW);
    hide HasRareBreakText;
    assert "flow_name" in FrontmatterFields() by { assert FrontmatterFields()[16] == "flow_name"; }
    hide FrontmatterFields;
    assert Frontmatter(draft)["flow_name"] == Str(BROKEN_FLOW);
    assert HasRareBreak(Str(BROKEN_FLOW));
  }
}
