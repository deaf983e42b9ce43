/**
 The deterministic memory index (`retrieval.py`).
 JSON text, normalisation and tokenisation are functions of their input, given as a `Language`; the boost that
 validated hints give is a function of the metadata.
 */
module Retrieval {
  import opened Text
  import opened Json
  import opened MemoryMarkdown
  import opened Ranking

  const MAX_SEARCH_RESULTS: nat := 8
  const MAX_READ_DOCUMENTS: nat := 4
  const MAX_TOTAL_READ_CHARS: nat := 300_000
  const MAX_MEMORY_READ_CHARS: nat := 200_000
  const MAX_INDEX_DOCUMENTS: nat := 2_000
  const MAX_INDEX_CHARS: nat := 64_000_000
  const MAX_QUERY_CHARS: nat := 500
  const MAX_SNIPPET_CHARS: nat := 800
  const PHRASE_MULTIPLIER: nat := 3
  const MAX_TERM_FREQUENCY: nat := 4

  datatype Language = Language(
    compact: Json -> string, pretty: Json -> string, normalize: string -> string, tokens: string -> seq<string>)

  type Boost = map<string, Json> -> nat

  datatype Field = Field(name: string, text: string, normalized: string, terms: multiset<string>)

  datatype Entry = Entry(id: string, markdown: string, metadata: map<string, Json>, fields: seq<Field>)

  datatype Query = Query(normalized: string, terms: seq<string>)

  datatype Hit = Hit(id: string, score: nat, matched: seq<string>, snippet: string, metadata: map<string, Json>)

  datatype ReadResult = ReadResult(id: string, markdown: string, charCount: nat, metadata: map<string, Json>)

  datatype Eligibility = Eligibility(eligible: bool, ids: seq<string>, totalChars: nat, reason: string)

  // ---------------------------------------------------------------- indexing one document

  predicate IsProtectedHeading(line: string) {
    |line| > 3 && line[..3] == "## "
    && Lower(Strip(line[3..])) in {"retrieval signature", "episode evidence", "dispatched actions"}
  }

  /** Where the first protected section starts; a heading counts only when its line ends with a line feed. */
  function ProtectedOffset(body: string): (offset: nat)
    ensures offset <= |body|
    decreases |body|
  {
    var end := IndexOf(body, '\n');
    if end == |body| then |body|
    else if IsProtectedHeading(body[..end]) then 0
    else end + 1 + ProtectedOffset(body[end + 1..])
  }

  /** `_generalized_prose` */
  function GeneralizedProse(body: string): string {
    Strip(body[..ProtectedOffset(body)])
  }

  function OrEmpty(value: Json): Json {
    if value.Null? then Obj(map[]) else value
  }

  function MakeField(name: string, text: string, lang: Language): Field {
    Field(name, text, lang.normalize(text), multiset(lang.tokens(lang.normalize(text))))
  }

  function RetrievalMarkdown(metadata: Json, prose: string, signature: Json, evidence: Json, lang: Language): string {
    Join("\n",
      ["# Recovery memory", "", "## Retrieval Metadata", "```json", lang.pretty(metadata), "```"]
      + (if prose != "" then ["", "## Generalized Memory", prose] else [])
      + ["", "## Retrieval Signature", "```json", lang.pretty(signature), "```", "", "## Episode Evidence", "```json",
         lang.pretty(evidence), "```", ""])
  }

  function DocumentId(document: Document): string {
    if Get(document.frontmatter, "resolution_id").Str? then Get(document.frontmatter, "resolution_id").s else ""
  }

  predicate IsExecutionCandidate(document: Document) {
    var f := document.frontmatter;
    Get(f, "memory_kind") == Str("positive") && Get(f, "actionable") == Bool(true) && Get(f, "outcome") == Str("resolved")
    && Get(f, "applied") == Bool(true) && document.dispatchedActions != []
  }

  /** `_index_document` */
  function IndexDocument(document: Document, lang: Language): Entry {
    var metadata, prose := Obj(document.frontmatter), GeneralizedProse(document.body);
    var signature, evidence := OrEmpty(document.retrievalSignature), OrEmpty(document.episodeEvidence);
    Entry(
      DocumentId(document), RetrievalMarkdown(metadata, prose, signature, evidence, lang), document.frontmatter,
      [MakeField("retrieval_signature", lang.compact(signature), lang), MakeField("frontmatter", lang.compact(metadata), lang),
       MakeField("generalized_prose", prose, lang), MakeField("episode_evidence", lang.compact(evidence), lang)])
  }

  function IndexChars(document: Document, lang: Language): nat {
    |document.body| + |lang.compact(Obj(document.frontmatter))| + |lang.compact(OrEmpty(document.retrievalSignature))|
    + |lang.compact(OrEmpty(document.episodeEvidence))|
  }

  // ---------------------------------------------------------------- building the index

  type Supplied = (string, Document)

  predicate HasDocument(documents: seq<Document>, id: string) {
    exists i | 0 <= i < |documents| :: DocumentId(documents[i]) == id
  }

  /** The constructor's loop over the supplied documents. */
  function Collect(supplied: seq<Supplied>, kept: seq<Document>, chars: nat, lang: Language, maxChars: nat): Option<seq<Document>>
    decreases |supplied|
  {
    if supplied == [] then Some(kept)
    else
      var id, document := supplied[0].0, supplied[0].1;
      if id != DocumentId(document) || HasDocument(kept, id) then None
      else if !IsExecutionCandidate(document) then Collect(supplied[1..], kept, chars, lang, maxChars)
      else if chars + IndexChars(document, lang) > maxChars then None
      else Collect(supplied[1..], kept + [document], chars + IndexChars(document, lang), lang, maxChars)
  }

  function ById(document: Document): Rank {
    Rank(0, DocumentId(document))
  }

  function IndexAll(documents: seq<Document>, lang: Language): seq<Entry> {
    seq(|documents|, i requires 0 <= i < |documents| => IndexDocument(documents[i], lang))
  }

  predicate IsBudget(value: int, maximum: nat) {
    1 <= value <= maximum
  }

  /** The entries of a new index, sorted by identifier. */
  function Build(supplied: seq<Supplied>, lang: Language, maxDocuments: int, maxChars: int): Option<seq<Entry>> {
    if !IsBudget(maxDocuments, MAX_INDEX_DOCUMENTS) || !IsBudget(maxChars, MAX_INDEX_CHARS) || |supplied| > maxDocuments
    then None
    else
      var kept := Collect(supplied, [], 0, lang, maxChars);
      if kept.None? then None else Some(IndexAll(Sort(kept.value, ById), lang))
  }

  // ---------------------------------------------------------------- searching

  function Weight(field: string): nat {
    if field == "retrieval_signature" then 12
    else if field == "frontmatter" then 8
    else if field == "generalized_prose" then 6
    else 4
  }

  function Min(a: int, b: int): int {
    if a <= b then a else b
  }

  function Max(a: int, b: int): int {
    if a >= b then a else b
  }

  function TermScore(field: Field, terms: seq<string>): nat {
    if terms == [] then 0
    else Weight(field.name) * Min(field.terms[terms[0]], MAX_TERM_FREQUENCY) + TermScore(field, terms[1..])
  }

  /** `str.find`: the first offset, or -1. */
  function Find(s: string, part: string): (offset: int)
    ensures -1 <= offset <= |s|
    ensures offset >= 0 ==> StartsWith(s[offset..], part)
  {
    if StartsWith(s, part) then 0
    else if s == "" then -1
    else
      var rest := Find(s[1..], part);
      if rest < 0 then -1 else rest + 1
  }

  /** `_field_score` */
  function FieldScore(field: Field, query: Query): nat {
    TermScore(field, query.terms)
    + if query.normalized != "" && Find(field.normalized, query.normalized) >= 0 then Weight(field.name) * PHRASE_MULTIPLIER
      else 0
  }

  function FieldScores(fields: seq<Field>, query: Query): seq<nat> {
    seq(|fields|, i requires 0 <= i < |fields| => FieldScore(fields[i], query))
  }

  function Sum(scores: seq<nat>): nat {
    if scores == [] then 0 else scores[0] + Sum(scores[1..])
  }

  function TotalScore(entry: Entry, query: Query, boost: Boost): nat {
    Sum(FieldScores(entry.fields, query)) + boost(entry.metadata)
  }

  function MatchedFields(fields: seq<Field>, query: Query): seq<string> {
    if fields == [] then []
    else (if FieldScore(fields[0], query) > 0 then [fields[0].name] else []) + MatchedFields(fields[1..], query)
  }

  /** The highest-scoring field, the earliest of equals. */
  function BestField(fields: seq<Field>, query: Query): Field
    requires fields != []
  {
    if |fields| == 1 then fields[0]
    else
      var later := BestField(fields[1..], query);
      if FieldScore(fields[0], query) >= FieldScore(later, query) then fields[0] else later
  }

  function FirstOffset(normalized: string, terms: seq<string>): int {
    if terms == [] then -1
    else
      var here, rest := Find(normalized, terms[0]), FirstOffset(normalized, terms[1..]);
      if here < 0 then rest else if rest < 0 then here else Min(here, rest)
  }

  function MatchOffset(normalized: string, query: Query): (offset: nat) {
    var phrase := if query.normalized != "" then Find(normalized, query.normalized) else -1;
    if phrase >= 0 then phrase else Max(FirstOffset(normalized, query.terms), 0)
  }

  /** The window of text a snippet shows, for an offset found in the normalised text. */
  function Window(length: nat, offset: nat): (window: (int, int)) {
    var start := Max(0, offset - MAX_SNIPPET_CHARS / 3);
    var end := Min(length, start + MAX_SNIPPET_CHARS);
    (if end - start < MAX_SNIPPET_CHARS then Max(0, end - MAX_SNIPPET_CHARS) else start, end)
  }

  /** Wherever the offset falls, even past the end, the window lies in the text and has the full length. */
  lemma WindowIsFull(length: nat, offset: nat)
    ensures
      var (start, end) := Window(length, offset);
      0 <= start <= end <= length && end - start == Min(MAX_SNIPPET_CHARS, length)
  {
  }

  /** `_best_snippet` */
  function Snippet(entry: Entry, query: Query, lang: Language): string
    requires entry.fields != []
  {
    var field := BestField(entry.fields, query);
    var text := Join(" ", Words(field.text));
    if text == "" then ""
    else
      var offset := MatchOffset(lang.normalize(text), query);
      var (start, end) := Window(|text|, offset);
      WindowIsFull(|text|, offset);
      field.name + ": " + (if start > 0 then "…" else "") + text[start..end] + (if end < |text| then "…" else "")
  }

  function MakeHit(entry: Entry, query: Query, boost: Boost, lang: Language): Hit
    requires entry.fields != []
  {
    Hit(entry.id, TotalScore(entry, query, boost), MatchedFields(entry.fields, query), Snippet(entry, query, lang), entry.metadata)
  }

  function RankOf(query: Query, boost: Boost): Entry -> Rank {
    (entry: Entry) => Rank(TotalScore(entry, query, boost), entry.id)
  }

  function ValidatedQuery(query: string, lang: Language): Option<Query> {
    var stripped := Strip(query);
    if stripped == "" || |stripped| > MAX_QUERY_CHARS || '\0' in stripped then None
    else Some(Query(lang.normalize(stripped), Distinct(lang.tokens(lang.normalize(stripped)))))
  }

  /** `dict.fromkeys`: the first occurrences, in order. */
  function Distinct(items: seq<string>): seq<string> {
    if items == [] then []
    else
      var earlier, last := Distinct(items[..|items| - 1]), items[|items| - 1];
      if last in earlier then earlier else earlier + [last]
  }

  predicate AreEntries(entries: seq<Entry>) {
    forall i | 0 <= i < |entries| :: entries[i].fields != []
  }

  function Best(entries: seq<Entry>, query: Query, boost: Boost, limit: nat): (best: seq<Entry>)
    ensures |best| <= limit
  {
    var ranked := Sort(entries, RankOf(query, boost));
    if |ranked| <= limit then ranked else ranked[..limit]
  }

  // ---------------------------------------------------------------- reading

  function EntryOf(entries: seq<Entry>, id: string): Option<Entry> {
    if entries == [] then None
    else if entries[0].id == id then Some(entries[0])
    else EntryOf(entries[1..], id)
  }

  /** `_validated_memory_ids` */
  function ValidatedIds(ids: seq<string>): Option<seq<string>> {
    if ids == [] then Some([])
    else
      var earlier, last := ValidatedIds(ids[..|ids| - 1]), Strip(ids[|ids| - 1]);
      if earlier.None? || last == "" || last in earlier.value then None else Some(earlier.value + [last])
  }

  function Prepended(read: seq<ReadResult>, rest: Option<seq<ReadResult>>): Option<seq<ReadResult>> {
    if rest.None? then None else Some(read + rest.value)
  }

  function ReadEntries(entries: seq<Entry>, ids: seq<string>, budget: int, total: nat): Option<seq<ReadResult>>
    decreases |ids|
  {
    if ids == [] then Some([])
    else
      var entry := EntryOf(entries, ids[0]);
      if entry.None? || |entry.value.markdown| > MAX_MEMORY_READ_CHARS || total + |entry.value.markdown| > budget then None
      else
        var result := ReadResult(entry.value.id, entry.value.markdown, |entry.value.markdown|, entry.value.metadata);
        Prepended([result], ReadEntries(entries, ids[1..], budget, total + |entry.value.markdown|))
  }

  /** `read` */
  function ReadMemories(entries: seq<Entry>, ids: seq<string>, maxDocuments: int, maxChars: int): Option<seq<ReadResult>> {
    var requested := ValidatedIds(ids);
    if requested.None? || !IsBudget(maxDocuments, MAX_READ_DOCUMENTS) || !IsBudget(maxChars, MAX_TOTAL_READ_CHARS)
       || |requested.value| > maxDocuments
    then None
    else ReadEntries(entries, requested.value, maxChars, 0)
  }

  function Ids(entries: seq<Entry>): seq<string> {
    seq(|entries|, i requires 0 <= i < |entries| => entries[i].id)
  }

  function TotalChars(entries: seq<Entry>): nat {
    if entries == [] then 0 else |entries[0].markdown| + TotalChars(entries[1..])
  }

  /** `auto_read_eligibility` */
  function AutoRead(entries: seq<Entry>, maxDocuments: int, maxChars: int): Option<Eligibility> {
    if !IsBudget(maxDocuments, MAX_READ_DOCUMENTS) || !IsBudget(maxChars, MAX_TOTAL_READ_CHARS) then None
    else if |entries| > maxDocuments then Some(Eligibility(false, [], TotalChars(entries), "too_many_documents"))
    else if (exists i | 0 <= i < |entries| :: |entries[i].markdown| > MAX_MEMORY_READ_CHARS) || TotalChars(entries) > maxChars
    then Some(Eligibility(false, [], TotalChars(entries), "content_too_large"))
    else Some(Eligibility(true, Ids(entries), TotalChars(entries), "eligible"))
  }

  // ---------------------------------------------------------------- the live object

  class MemoryRetrievalIndex {
    const entries: seq<Entry>
    const lang: Language

    constructor (entries: seq<Entry>, lang: Language)
      ensures this.entries == entries && this.lang == lang
    {
      this.entries, this.lang := entries, lang;
    }

    /** Ranks every entry, then keeps the best. */
    method Search(query: string, boost: Boost, limit: int) returns (hits: Option<seq<Hit>>)
      requires AreEntries(entries)
      ensures
        var parsed := ValidatedQuery(query, lang);
        hits.Some? <==> parsed.Some? && 1 <= limit <= MAX_SEARCH_RESULTS
      ensures hits.Some? ==>
        var parsed := ValidatedQuery(query, lang).value;
        var best := Best(entries, parsed, boost, limit);
        |hits.value| == |best|
        && forall i | 0 <= i < |best| :: best[i].fields != [] && hits.value[i] == MakeHit(best[i], parsed, boost, lang)
      ensures hits.Some? ==>
        var parsed := ValidatedQuery(query, lang).value;
        var best := Best(entries, parsed, boost, limit);
        forall i | 0 <= i < |best| ::
          hits.value[i].id == best[i].id && hits.value[i].metadata == best[i].metadata
          && hits.value[i].score == TotalScore(best[i], parsed, boost)
          && hits.value[i].matched == MatchedFields(best[i].fields, parsed)
    {
      hide ValidatedQuery, TotalScore, MatchedFields, Snippet;
      var parsed := ValidatedQuery(query, lang);
      if parsed.None? || !(1 <= limit <= MAX_SEARCH_RESULTS) {
        return None;
      }
      var ranked := Sort(entries, RankOf(parsed.value, boost));
      SortKeeps(entries, RankOf(parsed.value, boost));
      SortedEntries(entries, RankOf(parsed.value, boost));
      var found: seq<Hit> := [];
      var i := 0;
      while i < |ranked| && i < limit
        invariant i <= |ranked| && i <= limit && |found| == i
        invariant forall j | 0 <= j < i :: ranked[j].fields != [] && found[j] == MakeHit(ranked[j], parsed.value, boost, lang)
      {
        found := found + [MakeHit(ranked[i], parsed.value, boost, lang)];
        i := i + 1;
      }
      return Some(found);
    }

    method Read(ids: seq<string>, maxDocuments: int, maxChars: int) returns (results: Option<seq<ReadResult>>)
      ensures results == ReadMemories(entries, ids, maxDocuments, maxChars)
    {
      var requested := ValidatedIds(ids);
      if requested.None? || !IsBudget(maxDocuments, MAX_READ_DOCUMENTS) || !IsBudget(maxChars, MAX_TOTAL_READ_CHARS)
         || |requested.value| > maxDocuments
      {
        return None;
      }
      results := ReadRequested(requested.value, maxChars);
    }

    method ReadRequested(wanted: seq<string>, maxChars: int) returns (results: Option<seq<ReadResult>>)
      ensures results == ReadEntries(entries, wanted, maxChars, 0)
    {
      hide EntryOf;
      var total: nat := 0;
      var read: seq<ReadResult> := [];
      PrependNothing(ReadEntries(entries, wanted, maxChars, 0));
      assert wanted[0..] == wanted;
      for i := 0 to |wanted|
        invariant ReadEntries(entries, wanted, maxChars, 0)
          == Prepended(read, ReadEntries(entries, wanted[i..], maxChars, total))
      {
        var entry := EntryOf(entries, wanted[i]);
        assert wanted[i..][1..] == wanted[i + 1..];
        if entry.None? || |entry.value.markdown| > MAX_MEMORY_READ_CHARS {
          return None;
        }
        total := total + |entry.value.markdown|;
        if total > maxChars {
          return None;
        }
        var result := ReadResult(entry.value.id, entry.value.markdown, |entry.value.markdown|, entry.value.metadata);
        PrependOne(read, result, ReadEntries(entries, wanted[i + 1..], maxChars, total));
        read := read + [result];
      }
      assert read + [] == read;
      return Some(read);
    }
  }

  lemma PrependNothing(rest: Option<seq<ReadResult>>)
    ensures Prepended([], rest) == rest
  {
    if rest.Some? {
      assert [] + rest.value == rest.value;
    }
  }

  lemma PrependOne(read: seq<ReadResult>, result: ReadResult, rest: Option<seq<ReadResult>>)
    ensures Prepended(read, Prepended([result], rest)) == Prepended(read + [result], rest)
  {
    if rest.Some? {
      assert read + ([result] + rest.value) == read + [result] + rest.value;
    }
  }

  lemma SortedEntries(entries: seq<Entry>, rank: Entry -> Rank)
    requires AreEntries(entries)
    ensures AreEntries(Sort(entries, rank))
  {
    hide Sort;
    SortKeeps(entries, rank);
    var sorted := Sort(entries, rank);
    forall i | 0 <= i < |sorted| ensures sorted[i].fields != [] {
      assert sorted[i] in multiset(sorted);
      assert sorted[i] in entries;
    }
  }

  /** The constructor's loop, as it fills `by_id`. */
  method CollectDocuments(supplied: seq<Supplied>, lang: Language, maxChars: nat) returns (kept: Option<seq<Document>>)
    ensures kept == Collect(supplied, [], 0, lang, maxChars)
  {
    hide IsExecutionCandidate, IndexChars, DocumentId;
    var documents: seq<Document> := [];
    var chars: nat := 0;
    for i := 0 to |supplied|
      invariant Collect(supplied, [], 0, lang, maxChars) == Collect(supplied[i..], documents, chars, lang, maxChars)
    {
      var (id, document) := supplied[i];
      if id != DocumentId(document) || HasDocument(documents, id) {
        return None;
      }
      if IsExecutionCandidate(document) {
        chars := chars + IndexChars(document, lang);
        if chars > maxChars {
          return None;
        }
        documents := documents + [document];
      }
    }
    return Some(documents);
  }
}
