/** Rendering a prepared memory as Markdown and parsing it back (`memory_store.py`). */
module MemoryMarkdown {
  import opened Text
  import opened Json
  import opened JsonText
  import EpisodeEvidence

  const SCHEMA_VERSION := 1
  const SOURCE_TABLE := "public.flow_failure_resolutions"

  function FrontmatterFields(): seq<string> {
    ["schema_version", "source", "source_hash", "resolution_id", "failure_id", "memory_kind", "actionable",
    "sysid", "site_id", "site", "floor", "room_number", "map_id", "map_name", "map_observed_at",
    "flow_id", "flow_name", "area_name", "item_name", "failure_status", "failed_command",
    "outcome", "applied", "action_count", "model", "response_id", "captured_at", "resolved_at", "created_at"]
  }

  const SIGNATURE_HEADER := "## Retrieval Signature"
  const EVIDENCE_HEADER := "## Episode Evidence"
  const ACTIONS_HEADER := "## Dispatched Actions"

  datatype Source = Source(
    resolutionId: string, failureId: Option<string>, sourceHash: string, payload: map<string, Json>)
  {
    function DispatchedActions(): seq<Json> {
      match Get(payload, "action_runs")
      case Arr(items) => items
      case _ => []
    }
  }

  datatype Draft = Draft(
    source: Source, memoryKind: string, actionable: bool, failureSummary: string, recoverySummary: string,
    lessons: seq<string>, signature: Json, model: string, responseId: Option<string>)

  datatype Document = Document(
    frontmatter: map<string, Json>, dispatchedActions: seq<Json>, body: string, episodeEvidence: Json,
    retrievalSignature: Json)

  // ---------------------------------------------------------------- identifiers

  predicate IsCanonicalUuid(s: string) {
    |s| == 36
    && forall i | 0 <= i < 36 :: if i == 8 || i == 13 || i == 18 || i == 23 then s[i] == '-' else IsHexDigit(s[i])
  }

  /** `_canonical_uuid`, for the hyphenated spelling of a UUID. */
  function CanonicalUuid(value: Json): Option<string> {
    if !value.Str? then None
    else
      var s := Lower(Strip(value.s));
      if IsCanonicalUuid(s) then Some(s) else None
  }

  lemma CanonicalUuidIdentity(s: string)
    requires IsCanonicalUuid(s)
    ensures CanonicalUuid(Str(s)) == Some(s)
    ensures forall c <- s :: c == '-' || IsHexDigit(c)
  {
    StripTrims(s);
    assert Lower(s) == s;
  }

  // ---------------------------------------------------------------- rendering

  /** What `MemoryDraft` and `resolution_source_from_row` establish before anything is rendered. */
  ghost predicate IsPrepared(draft: Draft) {
    var payload := draft.source.payload;
    && IsCanonicalUuid(draft.source.resolutionId)
    && IsHash(draft.source.sourceHash)
    && (draft.memoryKind == "positive" || draft.memoryKind == "negative")
    && Get(payload, "action_runs").Arr?
    && (forall action <- draft.source.DispatchedActions() :: action.Obj?)
    && IsEvidence(Get(payload, "episode_evidence"))
    && IsEvidence(draft.signature)
  }

  /** Absent, or a value that validation returned. */
  ghost predicate IsEvidence(value: Json) {
    value.Null? || EpisodeEvidence.Validate(value) == Ok(value)
  }

  function TextOrNull(text: Option<string>): Json {
    if text.Some? then Str(text.value) else Null
  }

  function FrontmatterValue(draft: Draft, key: string): Json {
    if key == "schema_version" then Int(SCHEMA_VERSION)
    else if key == "source" then Str(SOURCE_TABLE)
    else if key == "source_hash" then Str(draft.source.sourceHash)
    else if key == "resolution_id" then Str(draft.source.resolutionId)
    else if key == "failure_id" then TextOrNull(draft.source.failureId)
    else if key == "memory_kind" then Str(draft.memoryKind)
    else if key == "actionable" then Bool(draft.actionable)
    else if key == "action_count" then Int(|draft.source.DispatchedActions()|)
    else if key == "model" then Str(draft.model)
    else if key == "response_id" then TextOrNull(draft.responseId)
    else Get(draft.source.payload, key)
  }

  function Frontmatter(draft: Draft): map<string, Json> {
    map key <- FrontmatterFields() :: FrontmatterValue(draft, key)
  }

  ghost function FieldLine(key: string, value: Json): string {
    key + ": " + Dumps(value, Compact)
  }

  ghost function FieldLines(values: map<string, Json>, keys: seq<string>): (lines: seq<string>)
    requires forall key <- keys :: key in values
    ensures |lines| == |keys|
    ensures forall i | 0 <= i < |keys| :: lines[i] == FieldLine(keys[i], values[keys[i]])
  {
    if keys == [] then [] else [FieldLine(keys[0], values[keys[0]])] + FieldLines(values, keys[1..])
  }

  ghost function FrontmatterLines(draft: Draft): seq<string> {
    FieldLines(Frontmatter(draft), FrontmatterFields())
  }

  /** `_blockquote`: model prose is quoted line by line. */
  function Blockquote(text: string): (lines: seq<string>)
    ensures lines != []
    ensures forall line <- lines :: '\n' !in line && '\r' !in line && (line == "" || line[0] == '>')
  {
    var parts := SplitLines(text);
    if parts == [] then [""]
    else
      assert forall i | 0 <= i < |parts| :: IsOneLine(parts[i]);
      seq(|parts|, i requires 0 <= i < |parts| => QuoteLine(parts[i]))
  }

  function QuoteLine(line: string): string {
    if line == "" then ">" else "> " + line
  }

  function LessonLines(lessons: seq<string>, index: nat): (lines: seq<string>)
    ensures forall line <- lines :: '\n' !in line && '\r' !in line && (line == "" || line[0] == '>')
  {
    if lessons == [] then []
    else Blockquote(NatText(index) + ". " + lessons[0]) + LessonLines(lessons[1..], index + 1)
  }

  /** `_body_scalar`; `show` is Python's `str` for values that are not text. */
  function BodyScalar(show: Json -> string, value: Json): (s: string)
    ensures '\n' !in s && '\r' !in s
  {
    if value.Null? then "Not recorded"
    else
      var parts := SplitLines(if value.Str? then value.s else show(value));
      JoinOneLine(parts);
      Join(" ", parts)
  }

  lemma {:induction false} JoinOneLine(parts: seq<string>)
    requires forall part <- parts :: IsOneLine(part)
    ensures '\n' !in Join(" ", parts) && '\r' !in Join(" ", parts)
  {
    if parts != [] {
      assert parts[0] in parts;
      JoinOneLine(parts[1..]);
    }
  }

  const CONTEXT_FIELDS := [
    ("Robot", "sysid"), ("Site ID", "site_id"), ("Site", "site"), ("Floor", "floor"), ("Room", "room_number"),
    ("Map ID", "map_id"), ("Map", "map_name"), ("Map observed at", "map_observed_at"), ("Flow", "flow_name"),
    ("Area", "area_name"), ("Item", "item_name"), ("Failed command", "failed_command"),
    ("Failed step", "failed_step"), ("Outcome", "outcome")
  ]

  function ContextLines(show: Json -> string, payload: map<string, Json>, fields: seq<(string, string)>): seq<string> {
    if fields == [] then []
    else
      ["- " + fields[0].0 + ": " + BodyScalar(show, Get(payload, fields[0].1))] + ContextLines(show, payload, fields[1..])
  }

  function YesNo(name: string, b: bool): string {
    "- " + name + ": " + (if b then "yes" else "no")
  }

  function LessonSection(lessons: seq<string>): seq<string> {
    if lessons == [] then ["_None recorded._"] else LessonLines(lessons, 1)
  }

  function KnowledgeLines(draft: Draft): seq<string> {
    ["", "# Resolution Memory " + draft.source.resolutionId, "", "## Failure Pattern"]
    + Blockquote(draft.failureSummary)
    + ["", "## Recovery Knowledge"]
    + Blockquote(draft.recoverySummary)
  }

  function ProseLines(draft: Draft, show: Json -> string): seq<string> {
    var payload := draft.source.payload;
    KnowledgeLines(draft)
    + ["", "## Lessons"]
    + LessonSection(draft.lessons)
    + ["", "## Context"]
    + ContextLines(show, payload, CONTEXT_FIELDS)
    + [YesNo("Applied", Get(payload, "applied") == Bool(true)), YesNo("Actionable", draft.actionable), ""]
  }

  ghost function Section(header: string, value: Json): seq<string> {
    [header, "```json"] + Lines(Dumps(value, Indented)) + ["```", ""]
  }

  ghost function BodyLines(draft: Draft, show: Json -> string): seq<string> {
    ProseLines(draft, show)
    + Section(SIGNATURE_HEADER, draft.signature)
    + Section(EVIDENCE_HEADER, Get(draft.source.payload, "episode_evidence"))
    + Section(ACTIONS_HEADER, Arr(draft.source.DispatchedActions()))
  }

  /** `_render_memory`: an element that spans several lines joins like its lines. */
  ghost function Render(draft: Draft, show: Json -> string): string {
    Join("\n", ["---"] + FrontmatterLines(draft) + ["---"] + BodyLines(draft, show))
  }

  // ---------------------------------------------------------------- parsing

  predicate IsFieldName(key: string) {
    key != "" && 'a' <= key[0] <= 'z' && forall c <- key :: 'a' <= c <= 'z' || IsDigit(c) || c == '_'
  }

  function FieldKey(line: string): string {
    Strip(line[..IndexOf(line, ':')])
  }

  function FieldValue(line: string): Json
    requires IndexOf(line, ':') < |line|
  {
    var text := Strip(line[IndexOf(line, ':') + 1..]);
    var parsed := Loads(text);
    if parsed.Ok? then parsed.value else Str(text)
  }

  predicate AcceptsField(line: string, parsed: map<string, Json>) {
    IndexOf(line, ':') < |line| && IsFieldName(FieldKey(line)) && FieldKey(line) !in parsed
  }

  /** The dictionary the field loop builds, or a refusal. */
  function ParseFields(lines: seq<string>, parsed: map<string, Json>): Result<map<string, Json>>
    decreases |lines|
  {
    if lines == [] then Ok(parsed)
    else if !AcceptsField(lines[0], parsed) then Err("invalid or duplicate field")
    else ParseFields(lines[1..], parsed[FieldKey(lines[0]) := FieldValue(lines[0])])
  }

  predicate ChecksFrontmatter(parsed: map<string, Json>) {
    && (forall key <- FrontmatterFields() :: key in parsed)
    && PyEqual(Get(parsed, "schema_version"), Int(SCHEMA_VERSION))
    && Get(parsed, "source") == Str(SOURCE_TABLE)
    && (Get(parsed, "memory_kind") == Str("positive") || Get(parsed, "memory_kind") == Str("negative"))
    && Get(parsed, "actionable").Bool?
    && Get(parsed, "action_count").Int? && Get(parsed, "action_count").n >= 0
  }

  function FrontmatterOf(text: string): Result<map<string, Json>> {
    var fields := ParseFields(SplitLines(text), map[]);
    if fields.Err? then fields
    else if !ChecksFrontmatter(fields.value) then Err("unsupported frontmatter")
    else fields
  }

  /** `_parse_frontmatter` */
  method ParseFrontmatter(text: string) returns (result: Result<map<string, Json>>)
    ensures result == FrontmatterOf(text)
  {
    var parsed: map<string, Json> := map[];
    var lines := SplitLines(text);
    for i := 0 to |lines|
      invariant ParseFields(lines, map[]) == ParseFields(lines[i..], parsed)
    {
      var line := lines[i];
      if !AcceptsField(line, parsed) {
        return Err("invalid or duplicate field");
      }
      parsed := parsed[FieldKey(line) := FieldValue(line)];
    }
    if !ChecksFrontmatter(parsed) {
      return Err("unsupported frontmatter");
    }
    return Ok(parsed);
  }

  /** The first line from `start` on that closes a fenced block. */
  function FenceFrom(lines: seq<string>, start: nat): (i: nat)
    requires start <= |lines|
    ensures start <= i <= |lines|
    decreases |lines| - start
  {
    if start == |lines| || lines[start] == "```" then start else FenceFrom(lines, start + 1)
  }

  /** The JSON text of the first complete section with this heading. */
  function FindSection(lines: seq<string>, header: string): Option<string>
    decreases |lines|
  {
    if lines == [] then None
    else if |lines| >= 3 && lines[0] == header && lines[1] == "```json" then
      var end := FenceFrom(lines, 3);
      if end < |lines| then Some(Join("\n", lines[2..end])) else FindSection(lines[1..], header)
    else FindSection(lines[1..], header)
  }

  ghost function ParseEvidence(lines: seq<string>, header: string): Result<Json> {
    var section := FindSection(lines, header);
    if section.None? then Ok(Null)
    else
      var parsed := Loads(section.value);
      if parsed.Err? || parsed.value.Null? then parsed else EpisodeEvidence.Validate(parsed.value)
  }

  function ParseActions(lines: seq<string>): Result<seq<Json>> {
    var section := FindSection(lines, ACTIONS_HEADER);
    if section.None? then Err("missing dispatched actions")
    else
      var parsed := Loads(section.value);
      if parsed.Err? then Err(parsed.reason)
      else if !parsed.value.Arr? || exists action <- parsed.value.items :: !action.Obj? then Err("not an array of objects")
      else Ok(parsed.value.items)
  }

  ghost function ParseBody(frontmatter: map<string, Json>, lines: seq<string>): Result<Document> {
    var id := CanonicalUuid(Get(frontmatter, "resolution_id"));
    var hash := Get(frontmatter, "source_hash");
    if id.None? then Err("resolution_id")
    else if !hash.Str? || !IsHash(hash.s) then Err("source_hash")
    else
      var actions := ParseActions(lines);
      var evidence := ParseEvidence(lines, EVIDENCE_HEADER);
      var signature := ParseEvidence(lines, SIGNATURE_HEADER);
      if actions.Err? then Err(actions.reason)
      else if Get(frontmatter, "action_count") != Int(|actions.value|) then Err("action_count")
      else if evidence.Err? then Err(evidence.reason)
      else if signature.Err? then Err(signature.reason)
      else
        Ok(Document(
          frontmatter["resolution_id" := Str(id.value)], actions.value, Join("\n", lines), evidence.value, signature.value))
  }

  /** The first line from `start` on that is exactly `---`. */
  function RuleFrom(lines: seq<string>, start: nat): (i: nat)
    requires start <= |lines|
    ensures start <= i <= |lines|
    decreases |lines| - start
  {
    if start == |lines| || lines[start] == "---" then start else RuleFrom(lines, start + 1)
  }

  /** `parse_memory_document`, on the decoded content of the file. */
  ghost function Parse(content: string): Result<Document> {
    var lines := Lines(UniversalNewlines(content));
    if |lines| < 2 || lines[0] != "---" then Err("missing frontmatter")
    else
      var end := RuleFrom(lines, 2);
      if end + 1 >= |lines| then Err("frontmatter is not terminated")
      else
        var frontmatter := FrontmatterOf(Join("\n", lines[1..end]));
        if frontmatter.Err? then Err(frontmatter.reason) else ParseBody(frontmatter.value, lines[end + 1..])
  }

  // ---------------------------------------------------------------- the body survives the round trip

  /** A line of generated prose: never one of the headings whose JSON the parser trusts. */
  predicate IsProseLine(line: string) {
    && '\n' !in line && '\r' !in line
    && line != SIGNATURE_HEADER && line != EVIDENCE_HEADER && line != ACTIONS_HEADER
  }

  predicate IsProse(lines: seq<string>) {
    forall line <- lines :: IsProseLine(line)
  }

  lemma ProseAppend(a: seq<string>, b: seq<string>)
    requires IsProse(a) && IsProse(b)
    ensures IsProse(a + b)
  {
  }

  lemma {:induction false} ContextIsProse(show: Json -> string, payload: map<string, Json>, fields: seq<(string, string)>)
    requires forall i | 0 <= i < |fields| :: '\n' !in fields[i].0 && '\r' !in fields[i].0
    ensures IsProse(ContextLines(show, payload, fields))
  {
    if fields != [] {
      var line := "- " + fields[0].0 + ": " + BodyScalar(show, Get(payload, fields[0].1));
      assert line[0] == '-';
      assert IsProseLine(line);
      ContextIsProse(show, payload, fields[1..]);
      ProseAppend([line], ContextLines(show, payload, fields[1..]));
    }
  }

  lemma QuotedIsProse(lines: seq<string>)
    requires forall line <- lines :: '\n' !in line && '\r' !in line && (line == "" || line[0] == '>')
    ensures IsProse(lines)
  {
    forall line <- lines ensures IsProseLine(line) {
      assert line == "" || line[0] != '#';
    }
  }

  lemma KnowledgeHeadings()
    ensures IsProse(["", "## Failure Pattern"])
    ensures IsProse(["", "## Recovery Knowledge"])
  {
  }

  lemma LowerHeadings()
    ensures IsProse(["", "## Lessons"])
    ensures IsProse(["", "## Context"])
    ensures IsProse(["_None recorded._"])
  {
  }

  lemma TitleIsProse(id: string)
    requires IsCanonicalUuid(id)
    ensures IsProse(["", "# Resolution Memory " + id])
  {
    CanonicalUuidIdentity(id);
    var title := "# Resolution Memory " + id;
    assert title[1] == ' ' && SIGNATURE_HEADER[1] == '#';
  }

  lemma FlagsAreProse(applied: bool, actionable: bool)
    ensures IsProse([YesNo("Applied", applied), YesNo("Actionable", actionable), ""])
  {
    assert YesNo("Applied", applied)[0] == '-' && YesNo("Actionable", actionable)[0] == '-';
  }

  lemma KnowledgeIsProse(draft: Draft)
    requires IsCanonicalUuid(draft.source.resolutionId)
    ensures IsProse(KnowledgeLines(draft))
  {
    KnowledgeHeadings();
    TitleIsProse(draft.source.resolutionId);
    QuotedIsProse(Blockquote(draft.failureSummary));
    QuotedIsProse(Blockquote(draft.recoverySummary));
    hide IsProseLine, Blockquote;
    ProseAppend(["", "# Resolution Memory " + draft.source.resolutionId], ["", "## Failure Pattern"]);
    var top := ["", "# Resolution Memory " + draft.source.resolutionId] + ["", "## Failure Pattern"];
    assert top == ["", "# Resolution Memory " + draft.source.resolutionId, "", "## Failure Pattern"];
    ProseAppend(top, Blockquote(draft.failureSummary));
    ProseAppend(top + Blockquote(draft.failureSummary), ["", "## Recovery Knowledge"]);
    ProseAppend(top + Blockquote(draft.failureSummary) + ["", "## Recovery Knowledge"], Blockquote(draft.recoverySummary));
  }

  lemma LessonsAreProse(lessons: seq<string>)
    ensures IsProse(LessonSection(lessons))
  {
    LowerHeadings();
    QuotedIsProse(LessonLines(lessons, 1));
  }

  lemma ContextFieldsPlain()
    ensures forall i | 0 <= i < |CONTEXT_FIELDS| :: '\n' !in CONTEXT_FIELDS[i].0 && '\r' !in CONTEXT_FIELDS[i].0
  {
  }

  lemma ProseIsProse(draft: Draft, show: Json -> string)
    requires IsCanonicalUuid(draft.source.resolutionId)
    ensures IsProse(ProseLines(draft, show))
  {
    hide IsProseLine, KnowledgeLines, LessonSection, ContextLines, YesNo;
    var payload := draft.source.payload;
    var context := ContextLines(show, payload, CONTEXT_FIELDS);
    var flags := [YesNo("Applied", Get(payload, "applied") == Bool(true)), YesNo("Actionable", draft.actionable), ""];
    LowerHeadings();
    KnowledgeIsProse(draft);
    LessonsAreProse(draft.lessons);
    ContextFieldsPlain();
    ContextIsProse(show, payload, CONTEXT_FIELDS);
    FlagsAreProse(Get(payload, "applied") == Bool(true), draft.actionable);
    ProseAppend(KnowledgeLines(draft), ["", "## Lessons"]);
    ProseAppend(KnowledgeLines(draft) + ["", "## Lessons"], LessonSection(draft.lessons));
    var upper := KnowledgeLines(draft) + ["", "## Lessons"] + LessonSection(draft.lessons);
    ProseAppend(upper, ["", "## Context"]);
    ProseAppend(upper + ["", "## Context"], context);
    ProseAppend(upper + ["", "## Context"] + context, flags);
  }

  lemma {:induction false} FindSectionSkips(before: seq<string>, lines: seq<string>, header: string)
    requires header !in before
    ensures FindSection(before + lines, header) == FindSection(lines, header)
  {
    if before == [] {
      assert before + lines == lines;
    } else {
      assert before[0] in before;
      FindSectionSkips(before[1..], lines, header);
      assert (before + lines)[1..] == before[1..] + lines;
    }
  }

  lemma {:induction false} FenceFound(lines: seq<string>, start: nat, end: nat)
    requires start <= end < |lines| && lines[end] == "```"
    requires forall i | start <= i < end :: lines[i] != "```"
    ensures FenceFrom(lines, start) == end
    decreases end - start
  {
    if start < end { FenceFound(lines, start + 1, end); }
  }

  lemma FencedFound(header: string, text: seq<string>, after: seq<string>)
    requires text != [] && "```" !in text
    ensures FindSection([header, "```json"] + text + ["```", ""] + after, header) == Some(Join("\n", text))
  {
    var lines := [header, "```json"] + text + ["```", ""] + after;
    assert forall i | 2 <= i < |text| + 2 :: lines[i] == text[i - 2] && text[i - 2] in text;
    FenceFound(lines, 3, |text| + 2);
    assert lines[2..|text| + 2] == text;
  }

  /** The parser extracts the JSON of a section exactly as it was printed. */
  lemma SectionFound(header: string, value: Json, after: seq<string>)
    ensures FindSection(Section(header, value) + after, header) == Some(Dumps(value, Indented))
  {
    IndentedLines(value);
    LinesJoin(Dumps(value, Indented));
    FencedFound(header, Lines(Dumps(value, Indented)), after);
  }

  lemma SectionAvoids(header: string, value: Json, other: string)
    requires other == SIGNATURE_HEADER || other == EVIDENCE_HEADER || other == ACTIONS_HEADER
    requires header != other
    ensures other !in Section(header, value)
  {
    IndentedLines(value);
  }

  lemma SectionPlain(header: string, value: Json)
    requires '\n' !in header && '\r' !in header
    ensures forall line <- Section(header, value) :: '\n' !in line && '\r' !in line
  {
    IndentedLines(value);
  }

  /** Each section of a rendered body yields the value that was printed into it. */
  lemma BodySections(draft: Draft, show: Json -> string)
    requires IsCanonicalUuid(draft.source.resolutionId)
    ensures FindSection(BodyLines(draft, show), SIGNATURE_HEADER) == Some(Dumps(draft.signature, Indented))
    ensures FindSection(BodyLines(draft, show), EVIDENCE_HEADER)
         == Some(Dumps(Get(draft.source.payload, "episode_evidence"), Indented))
    ensures FindSection(BodyLines(draft, show), ACTIONS_HEADER)
         == Some(Dumps(Arr(draft.source.DispatchedActions()), Indented))
  {
    hide FindSection, ProseLines, Section;
    var evidenceValue := Get(draft.source.payload, "episode_evidence");
    var prose := ProseLines(draft, show);
    var signature := Section(SIGNATURE_HEADER, draft.signature);
    var evidence := Section(EVIDENCE_HEADER, evidenceValue);
    var actions := Section(ACTIONS_HEADER, Arr(draft.source.DispatchedActions()));
    ProseIsProse(draft, show);
    assert BodyLines(draft, show) == prose + (signature + (evidence + actions));
    FindSectionSkips(prose, signature + (evidence + actions), SIGNATURE_HEADER);
    SectionFound(SIGNATURE_HEADER, draft.signature, evidence + actions);
    assert BodyLines(draft, show) == (prose + signature) + (evidence + actions);
    SectionAvoids(SIGNATURE_HEADER, draft.signature, EVIDENCE_HEADER);
    FindSectionSkips(prose + signature, evidence + actions, EVIDENCE_HEADER);
    SectionFound(EVIDENCE_HEADER, evidenceValue, actions);
    assert BodyLines(draft, show) == (prose + signature + evidence) + actions;
    SectionAvoids(SIGNATURE_HEADER, draft.signature, ACTIONS_HEADER);
    SectionAvoids(EVIDENCE_HEADER, evidenceValue, ACTIONS_HEADER);
    FindSectionSkips(prose + signature + evidence, actions, ACTIONS_HEADER);
    SectionFound(ACTIONS_HEADER, Arr(draft.source.DispatchedActions()), []);
    assert actions + [] == actions;
  }

  lemma BodyPlain(draft: Draft, show: Json -> string)
    requires IsCanonicalUuid(draft.source.resolutionId)
    ensures forall line <- BodyLines(draft, show) :: '\n' !in line && '\r' !in line
    ensures BodyLines(draft, show) != []
  {
    hide ProseLines, Section;
    ProseIsProse(draft, show);
    SectionPlain(SIGNATURE_HEADER, draft.signature);
    SectionPlain(EVIDENCE_HEADER, Get(draft.source.payload, "episode_evidence"));
    SectionPlain(ACTIONS_HEADER, Arr(draft.source.DispatchedActions()));
    SectionNonEmpty(ACTIONS_HEADER, Arr(draft.source.DispatchedActions()));
  }

  lemma SectionNonEmpty(header: string, value: Json)
    ensures Section(header, value) != []
  {
  }

  // ---------------------------------------------------------------- the frontmatter survives it exactly when it can

  /** Compact JSON has no control character, and no line boundary but the three it leaves raw. */
  lemma CompactText(value: Json)
    ensures
      var text := Dumps(value, Compact);
      && IsTrimmed(text) && text != ""
      && (forall c <- text :: c >= ' ')
      && (HasRareBreakText(text) <==> HasRareBreak(value))
  {
    hide Print, HasRareBreak, HasRareBreakText;
    var text := Dumps(value, Compact);
    PrintTame(value, Compact, 0);
    PrintStart(value, Compact, 0);
    PrintEnd(value, Compact);
    RarePrint(value, 0);
    forall c <- text ensures c >= ' ' {
      var i :| 0 <= i < |text| && text[i] == c;
      assert TameAt(Compact, text, i);
    }
  }

  lemma FieldNamesValid()
    ensures forall i | 0 <= i < |FrontmatterFields()| :: IsFieldName(FrontmatterFields()[i])
  {
  }

  lemma FieldNamesDistinct()
    ensures forall i, j | 0 <= i < j < |FrontmatterFields()| :: FrontmatterFields()[i] != FrontmatterFields()[j]
  {
  }

  lemma {:induction false} IndexOfPrefix(before: string, c: char, after: string)
    requires c !in before
    ensures IndexOf(before + [c] + after, c) == |before|
  {
    if before != "" {
      assert before[0] in before;
      IndexOfPrefix(before[1..], c, after);
      assert (before + [c] + after)[1..] == before[1..] + [c] + after;
    }
  }

  lemma StripLeadingBlank(text: string)
    requires IsTrimmed(text)
    ensures Strip(" " + text) == text
  {
    assert (" " + text)[1..] == text;
    StripTrims(text);
    if text == "" {
      assert Strip(" ") == "";
    } else {
      assert StripLeft(text) == text;
    }
  }

  lemma FieldParts(key: string, text: string)
    requires IsFieldName(key) && IsTrimmed(text)
    ensures
      var line := key + ": " + text;
      && IndexOf(line, ':') == |key| < |line|
      && FieldKey(line) == key
      && Strip(line[IndexOf(line, ':') + 1..]) == text
  {
    var line := key + ": " + text;
    assert line == key + [':'] + (" " + text);
    IndexOfPrefix(key, ':', " " + text);
    assert line[..|key|] == key && line[|key| + 1..] == " " + text;
    assert key[0] in key && key[|key| - 1] in key;
    StripTrims(key);
    StripLeadingBlank(text);
  }

  /** One rendered field reads back as its name and its value. */
  lemma FieldRoundTrip(key: string, value: Json)
    requires IsFieldName(key)
    ensures
      var line := FieldLine(key, value);
      IndexOf(line, ':') < |line| && FieldKey(line) == key && FieldValue(line) == value
  {
    CompactText(value);
    LoadsDumps(value, Compact);
    FieldParts(key, Dumps(value, Compact));
  }

  predicate IsFileLine(line: string) {
    line != "" && line != "---" && '\n' !in line && '\r' !in line && !IsLineBreak(line[|line| - 1])
  }

  lemma FieldShape(key: string, value: Json)
    requires IsFieldName(key)
    ensures IsFileLine(FieldLine(key, value))
    ensures IsOneLine(FieldLine(key, value)) <==> !HasRareBreak(value)
  {
    CompactText(value);
    var text := Dumps(value, Compact);
    OneLineIff(key, text);
    assert FieldLine(key, value)[|FieldLine(key, value)| - 1] == text[|text| - 1];
    assert FieldLine(key, value)[0] == key[0];
  }

  lemma OneLineIff(key: string, text: string)
    requires IsFieldName(key)
    requires forall c <- text :: c >= ' '
    ensures IsOneLine(key + ": " + text) <==> !HasRareBreakText(text)
    ensures '\n' !in key + ": " + text && '\r' !in key + ": " + text
  {
    var line := key + ": " + text;
    if HasRareBreakText(text) {
      var c :| c in text && IsRareBreak(c);
      assert c in line && IsLineBreak(c);
    }
  }

  /** Whether every frontmatter value can be kept on one line of the file. */
  predicate IsOneLineFrontmatter(draft: Draft) {
    forall key <- Frontmatter(draft) :: !HasRareBreak(Frontmatter(draft)[key])
  }

  lemma FieldAccepted(key: string, value: Json, rest: seq<string>, parsed: map<string, Json>)
    requires IsFieldName(key) && key !in parsed
    ensures ParseFields([FieldLine(key, value)] + rest, parsed) == ParseFields(rest, parsed[key := value])
  {
    hide FieldKey, FieldValue, FieldLine, IsFieldName;
    FieldRoundTrip(key, value);
    assert ([FieldLine(key, value)] + rest)[1..] == rest;
  }

  lemma {:induction false} FieldsRoundTrip(values: map<string, Json>, keys: seq<string>, parsed: map<string, Json>)
    requires forall key <- keys :: key in values && IsFieldName(key) && key !in parsed
    requires forall i, j | 0 <= i < j < |keys| :: keys[i] != keys[j]
    ensures ParseFields(FieldLines(values, keys), parsed) == Ok(parsed + Chosen(values, keys))
  {
    hide ParseFields, FieldLine, IsFieldName, Chosen;
    if keys == [] {
      NoFields(parsed);
      ChosenNothing(values, keys, parsed);
    } else {
      assert keys == [keys[0]] + keys[1..];
      FieldAccepted(keys[0], values[keys[0]], FieldLines(values, keys[1..]), parsed);
      FieldsRoundTrip(values, keys[1..], parsed[keys[0] := values[keys[0]]]);
      ChosenStep(values, keys, parsed);
    }
  }

  lemma NoFields(parsed: map<string, Json>)
    ensures ParseFields([], parsed) == Ok(parsed)
  {
  }

  /** Every accepted line adds exactly one field. */
  lemma {:induction false} ParseFieldsCount(lines: seq<string>, parsed: map<string, Json>)
    requires ParseFields(lines, parsed).Ok?
    ensures |ParseFields(lines, parsed).value| == |parsed| + |lines|
    decreases |lines|
  {
    if lines != [] {
      ParseFieldsCount(lines[1..], parsed[FieldKey(lines[0]) := FieldValue(lines[0])]);
    }
  }

  lemma {:induction false} JoinBreaks(lines: seq<string>)
    requires lines != []
    ensures CountBreaks(Join("\n", lines)) >= |lines| - 1
    ensures (exists line <- lines :: !IsOneLine(line)) ==> CountBreaks(Join("\n", lines)) >= |lines|
  {
    CountBreaksPositive(lines[0]);
    if |lines| > 1 {
      assert lines == [lines[0]] + lines[1..];
      JoinBreaks(lines[1..]);
      CountBreaksAppend(lines[0], "\n");
      CountBreaksAppend(lines[0] + "\n", Join("\n", lines[1..]));
      assert CountBreaks("\n") == 1 + CountBreaks("");
    }
  }

  lemma {:induction false} JoinShape(lines: seq<string>)
    requires lines != []
    requires forall line <- lines :: IsFileLine(line)
    ensures
      var text := Join("\n", lines);
      text != "" && '\r' !in text && !IsLineBreak(text[|text| - 1])
  {
    assert lines[0] in lines && IsFileLine(lines[0]);
    if |lines| > 1 { JoinShape(lines[1..]); }
  }

  lemma FieldsShape(values: map<string, Json>, keys: seq<string>)
    requires forall key <- keys :: key in values && IsFieldName(key)
    ensures forall line <- FieldLines(values, keys) :: IsFileLine(line)
    ensures (forall line <- FieldLines(values, keys) :: IsOneLine(line)) <==> (forall key <- keys :: !HasRareBreak(values[key]))
  {
    hide FieldLine, IsFieldName, IsFileLine, IsOneLine, HasRareBreak;
    var lines := FieldLines(values, keys);
    forall i | 0 <= i < |keys|
      ensures IsFileLine(lines[i]) && lines[i] in lines
      ensures IsOneLine(lines[i]) <==> !HasRareBreak(values[keys[i]])
    {
      FieldShape(keys[i], values[keys[i]]);
    }
  }

  lemma FieldNames()
    ensures forall key <- FrontmatterFields() :: IsFieldName(key)
  {
    FieldNamesValid();
  }

  lemma RenderedFields(draft: Draft)
    ensures forall line <- FrontmatterLines(draft) :: IsFileLine(line)
    ensures (forall line <- FrontmatterLines(draft) :: IsOneLine(line)) <==> IsOneLineFrontmatter(draft)
  {
    FieldNames();
    hide FrontmatterFields, FrontmatterValue, IsFieldName;
    FieldsShape(Frontmatter(draft), FrontmatterFields());
  }

  lemma KnownNames()
    ensures
      var keys := FrontmatterFields();
      "schema_version" in keys && "source" in keys && "source_hash" in keys && "resolution_id" in keys
  {
    var keys := FrontmatterFields();
    assert keys[0] == "schema_version" && keys[1] == "source" && keys[2] == "source_hash" && keys[3] == "resolution_id";
  }

  lemma KnownFlags()
    ensures
      var keys := FrontmatterFields();
      "memory_kind" in keys && "actionable" in keys && "action_count" in keys
  {
    var keys := FrontmatterFields();
    assert keys[5] == "memory_kind" && keys[6] == "actionable" && keys[23] == "action_count";
  }

  lemma KnownKeys()
    ensures
      var keys := FrontmatterFields();
      && "schema_version" in keys && "source" in keys && "memory_kind" in keys && "actionable" in keys
      && "action_count" in keys && "resolution_id" in keys && "source_hash" in keys
  {
    hide FrontmatterFields;
    KnownNames();
    KnownFlags();
  }

  lemma FrontmatterChecks(draft: Draft)
    requires draft.memoryKind == "positive" || draft.memoryKind == "negative"
    ensures ChecksFrontmatter(Frontmatter(draft))
  {
    KnownKeys();
    hide FrontmatterFields;
    PyEqualReflexive(Int(SCHEMA_VERSION));
  }

  lemma {:induction false} FieldSetSize(keys: seq<string>)
    ensures |(set key <- keys)| <= |keys|
  {
    if keys != [] {
      FieldSetSize(keys[1..]);
      assert (set key <- keys) == {keys[0]} + (set key <- keys[1..]);
    }
  }

  lemma FrontmatterSize(draft: Draft)
    ensures |Frontmatter(draft)| <= |FrontmatterFields()|
  {
    hide FrontmatterFields, FrontmatterValue;
    FieldSetSize(FrontmatterFields());
    assert Frontmatter(draft).Keys == (set key <- FrontmatterFields());
    assert |Frontmatter(draft)| == |Frontmatter(draft).Keys|;
  }

  /** The frontmatter text parses to the rendered dictionary, or, when it cannot, to more fields than were rendered. */
  lemma FrontmatterRoundTrip(draft: Draft)
    requires draft.memoryKind == "positive" || draft.memoryKind == "negative"
    ensures
      var parsed := FrontmatterOf(Join("\n", FrontmatterLines(draft)));
      && (IsOneLineFrontmatter(draft) ==> parsed == Ok(Frontmatter(draft)))
      && (!IsOneLineFrontmatter(draft) && parsed.Ok? ==> |parsed.value| > |Frontmatter(draft)|)
  {
    RenderedFields(draft);
    if IsOneLineFrontmatter(draft) {
      OneLineFields(draft);
    } else {
      BrokenFields(draft);
    }
  }

  lemma OneLineFields(draft: Draft)
    requires draft.memoryKind == "positive" || draft.memoryKind == "negative"
    requires IsOneLineFrontmatter(draft)
    ensures FrontmatterOf(Join("\n", FrontmatterLines(draft))) == Ok(Frontmatter(draft))
  {
    hide FrontmatterFields, FrontmatterValue, IsFieldName, IsFileLine, IsOneLineFrontmatter, IsOneLine, ChecksFrontmatter, ParseFields, FieldLine, FrontmatterLines, SplitLines;
    RenderedFields(draft);
    FieldNames();
    FieldNamesDistinct();
    FrontmatterChecks(draft);
    FrontmatterParts(draft);
    SplitLinesOfJoin(FrontmatterLines(draft));
    FieldsRoundTrip(Frontmatter(draft), FrontmatterFields(), map[]);
  }

  lemma FrontmatterParts(draft: Draft)
    ensures FrontmatterLines(draft) == FieldLines(Frontmatter(draft), FrontmatterFields())
    ensures forall line <- FrontmatterLines(draft) :: IsFileLine(line) ==> line != ""
    ensures map[] + Chosen(Frontmatter(draft), FrontmatterFields()) == Frontmatter(draft)
  {
    hide FrontmatterFields;
  }

  lemma FieldCount(draft: Draft)
    ensures |FrontmatterLines(draft)| == |FrontmatterFields()| > 0
  {
  }

  lemma BrokenFields(draft: Draft)
    requires !IsOneLineFrontmatter(draft)
    ensures
      var parsed := FrontmatterOf(Join("\n", FrontmatterLines(draft)));
      parsed.Ok? ==> |parsed.value| > |Frontmatter(draft)|
  {
    hide FrontmatterFields, FrontmatterValue, Frontmatter, IsFileLine, IsOneLineFrontmatter, IsOneLine, ChecksFrontmatter, ParseFields, FieldLine, FrontmatterLines, SplitLines, CountBreaks, Join;
    RenderedFields(draft);
    FrontmatterSize(draft);
    FieldCount(draft);
    var lines := FrontmatterLines(draft);
    var text := Join("\n", lines);
    JoinBreaks(lines);
    JoinShape(lines);
    SplitLinesCount(text);
    if ParseFields(SplitLines(text), map[]).Ok? {
      ParseFieldsCount(SplitLines(text), map[]);
    }
  }

  // ---------------------------------------------------------------- the document

  ghost function Rendered(draft: Draft, show: Json -> string): Document {
    Document(
      Frontmatter(draft), draft.source.DispatchedActions(), Join("\n", BodyLines(draft, show)),
      Get(draft.source.payload, "episode_evidence"), draft.signature)
  }

  lemma EvidenceRoundTrip(lines: seq<string>, header: string, value: Json)
    requires FindSection(lines, header) == Some(Dumps(value, Indented))
    requires IsEvidence(value)
    ensures ParseEvidence(lines, header) == Ok(value)
  {
    LoadsDumps(value, Indented);
  }

  lemma ActionsRoundTrip(lines: seq<string>, actions: seq<Json>)
    requires FindSection(lines, ACTIONS_HEADER) == Some(Dumps(Arr(actions), Indented))
    requires forall action <- actions :: action.Obj?
    ensures ParseActions(lines) == Ok(actions)
  {
    LoadsDumps(Arr(actions), Indented);
  }

  lemma KnownFields(draft: Draft)
    ensures Get(Frontmatter(draft), "resolution_id") == Str(draft.source.resolutionId)
    ensures Get(Frontmatter(draft), "source_hash") == Str(draft.source.sourceHash)
    ensures Get(Frontmatter(draft), "action_count") == Int(|draft.source.DispatchedActions()|)
    ensures "resolution_id" in Frontmatter(draft)
  {
    KnownKeys();
    hide FrontmatterFields;
  }

  lemma BodyRoundTrip(draft: Draft, show: Json -> string)
    requires IsPrepared(draft)
    ensures ParseBody(Frontmatter(draft), BodyLines(draft, show)) == Ok(Rendered(draft, show))
  {
    hide FindSection, BodyLines, Frontmatter, FrontmatterValue;
    BodySections(draft, show);
    var lines := BodyLines(draft, show);
    ActionsRoundTrip(lines, draft.source.DispatchedActions());
    EvidenceRoundTrip(lines, EVIDENCE_HEADER, Get(draft.source.payload, "episode_evidence"));
    EvidenceRoundTrip(lines, SIGNATURE_HEADER, draft.signature);
    KnownFields(draft);
    CanonicalUuidIdentity(draft.source.resolutionId);
    assert Frontmatter(draft)["resolution_id" := Str(draft.source.resolutionId)] == Frontmatter(draft);
  }

  lemma {:induction false} RuleFound(lines: seq<string>, start: nat, end: nat)
    requires start <= end < |lines| && lines[end] == "---"
    requires forall i | start <= i < end :: lines[i] != "---"
    ensures RuleFrom(lines, start) == end
    decreases end - start
  {
    if start < end { RuleFound(lines, start + 1, end); }
  }

  lemma {:induction false} JoinPlain(lines: seq<string>)
    requires forall line <- lines :: '\r' !in line
    ensures '\r' !in Join("\n", lines)
  {
    if lines != [] {
      assert lines[0] in lines;
      JoinPlain(lines[1..]);
    }
  }

  /** Cutting a rendered file gives back its frontmatter block and its body. */
  lemma FileLayout(fields: seq<string>, body: seq<string>)
    requires fields != [] && body != []
    requires forall line <- fields :: IsFileLine(line)
    requires forall line <- body :: '\n' !in line && '\r' !in line
    ensures
      var file := ["---"] + fields + ["---"] + body;
      && Lines(UniversalNewlines(Join("\n", file))) == file
      && RuleFrom(file, 2) == |fields| + 1
      && file[1..|fields| + 1] == fields && file[|fields| + 2..] == body
  {
    var file := ["---"] + fields + ["---"] + body;
    assert forall line <- file :: '\n' !in line && '\r' !in line;
    JoinPlain(file);
    UniversalNewlinesIdentity(Join("\n", file));
    LinesOfJoin(file);
    assert forall i | 1 <= i < |fields| + 1 :: file[i] == fields[i - 1] && fields[i - 1] in fields;
    RuleFound(file, 2, |fields| + 1);
  }

  /**
   Whatever the model prose, the lessons or the context fields contain, the rendered file parses back to the
   source's own frontmatter, actions, evidence and signature, if and only if no frontmatter text holds one of
   the three boundary characters that JSON leaves unescaped.
   */
  lemma ParseRender(draft: Draft, show: Json -> string)
    requires IsPrepared(draft)
    ensures Parse(Render(draft, show)) == Ok(Rendered(draft, show)) <==> IsOneLineFrontmatter(draft)
  {
    hide FrontmatterLines, BodyLines, FrontmatterOf, ParseBody, Frontmatter, IsOneLineFrontmatter, RuleFrom, Lines, UniversalNewlines, Join, IsFileLine, IsPrepared;
    var fields, body := FrontmatterLines(draft), BodyLines(draft, show);
    PreparedParts(draft);
    RenderedFields(draft);
    BodyPlain(draft, show);
    FrontmatterRoundTrip(draft);
    BodyRoundTrip(draft, show);
    FieldCount(draft);
    FileLayout(fields, body);
    var frontmatter := FrontmatterOf(Join("\n", fields));
    if !IsOneLineFrontmatter(draft) && frontmatter.Ok? {
      ParsedFrontmatterGrows(frontmatter.value, body);
    }
  }

  lemma PreparedParts(draft: Draft)
    requires IsPrepared(draft)
    ensures IsCanonicalUuid(draft.source.resolutionId)
    ensures draft.memoryKind == "positive" || draft.memoryKind == "negative"
  {
  }

  lemma ParsedFrontmatterGrows(frontmatter: map<string, Json>, lines: seq<string>)
    ensures
      var document := ParseBody(frontmatter, lines);
      document.Ok? ==> |document.value.frontmatter| >= |frontmatter|
  {
    var document := ParseBody(frontmatter, lines);
    if document.Ok? {
      var parsed := document.value.frontmatter;
      assert |frontmatter| == |frontmatter.Keys| && |parsed| == |parsed.Keys|;
      assert parsed.Keys == frontmatter.Keys + {"resolution_id"};
    }
  }

  // ---------------------------------------------------------------- what the frontmatter says

  /** The fields of the frontmatter that are not copied from the source. */
  function OwnFields(draft: Draft): map<string, Json> {
    map["schema_version" := Int(1), "source" := Str("public.flow_failure_resolutions"),
        "source_hash" := Str(draft.source.sourceHash), "resolution_id" := Str(draft.source.resolutionId),
        "failure_id" := if draft.source.failureId.Some? then Str(draft.source.failureId.value) else Null,
        "memory_kind" := Str(draft.memoryKind), "actionable" := Bool(draft.actionable),
        "action_count" := Int(|draft.source.DispatchedActions()|), "model" := Str(draft.model),
        "response_id" := if draft.responseId.Some? then Str(draft.responseId.value) else Null]
  }

  lemma OwnFieldNames(draft: Draft)
    ensures OwnFields(draft).Keys == {"schema_version", "source", "source_hash", "resolution_id", "failure_id", "memory_kind",
                                      "actionable", "action_count", "model", "response_id"}
  {
  }

  lemma OwnFieldValue(draft: Draft, key: string)
    ensures key in OwnFields(draft) ==> FrontmatterValue(draft, key) == OwnFields(draft)[key]
    ensures key !in OwnFields(draft) ==> FrontmatterValue(draft, key) == Get(draft.source.payload, key)
  {
    OwnFieldNames(draft);
  }

  /** Every frontmatter field is the draft's own or the source's field of that name. */
  lemma FrontmatterShows(draft: Draft, key: string)
    requires key in FrontmatterFields()
    ensures key in Frontmatter(draft)
    ensures Frontmatter(draft)[key]
      == if key in OwnFields(draft) then OwnFields(draft)[key] else Get(draft.source.payload, key)
  {
    hide FrontmatterFields, FrontmatterValue, OwnFields;
    OwnFieldValue(draft, key);
  }
}
