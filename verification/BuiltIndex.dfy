/**
 The index as its constructor builds it: when a supply of documents is accepted, what the entries then are, and what
 follows for reading them.
 */
module BuiltIndex {
  import opened Text
  import opened Json
  import opened MemoryMarkdown
  import MemorySource
  import opened Ranking
  import opened Retrieval
  import opened RetrievalProperties

  // ---------------------------------------------------------------- when a supply is accepted

  /** No document comes after an execution candidate with the same identifier. */
  predicate NoneFollows(supplied: seq<Supplied>) {
    forall i, j | 0 <= i < j < |supplied| && IsExecutionCandidate(supplied[i].1) ::
      DocumentId(supplied[i].1) != DocumentId(supplied[j].1)
  }

  /** What the constructor asks of a supply besides its characters. */
  predicate IsAcceptable(supplied: seq<Supplied>, maxDocuments: int, maxChars: int) {
    IsBudget(maxDocuments, MAX_INDEX_DOCUMENTS) && IsBudget(maxChars, MAX_INDEX_CHARS) && |supplied| <= maxDocuments
    && AreNamed(supplied) && NoneFollows(supplied)
  }

  lemma NoneFollowsLast(supplied: seq<Supplied>)
    requires supplied != []
    ensures
      var last := |supplied| - 1;
      NoneFollows(supplied)
      <==> NoneFollows(supplied[..last]) && !HasDocument(Kept(supplied[..last]), DocumentId(supplied[last].1))
  {
    hide IsExecutionCandidate, DocumentId, Kept, HasDocument;
    var last := |supplied| - 1;
    var id := DocumentId(supplied[last].1);
    if NoneFollows(supplied) {
      NotKept(supplied[..last], id);
    }
    if NoneFollows(supplied[..last]) && !HasDocument(Kept(supplied[..last]), id) {
      forall i | 0 <= i < last && IsExecutionCandidate(supplied[i].1) ensures DocumentId(supplied[i].1) != id {
        CandidateIsKept(supplied[..last], i);
      }
      assert forall i, j | 0 <= i < j < last :: supplied[i] == supplied[..last][i] && supplied[j] == supplied[..last][j];
    }
  }

  lemma {:induction false} TakenIff(supplied: seq<Supplied>, lang: Language, maxChars: nat)
    ensures TakeAll(supplied, lang, maxChars)
      == if AreNamed(supplied) && NoneFollows(supplied) && Chars(Kept(supplied), lang) <= maxChars then Some(Kept(supplied))
         else None
  {
    hide IsExecutionCandidate, IndexChars, DocumentId, NoneFollows, HasDocument, Chars, Kept;
    if supplied == [] {
      NothingIsKept(lang);
    } else {
      var last := |supplied| - 1;
      TakenIff(supplied[..last], lang, maxChars);
      NoneFollowsLast(supplied);
      KeptLast(supplied);
      CharsPush(Kept(supplied[..last]), supplied[last].1, lang);
      assert AreNamed(supplied) <==> AreNamed(supplied[..last]) && supplied[last].0 == DocumentId(supplied[last].1);
    }
  }

  lemma NothingIsKept(lang: Language)
    ensures Kept([]) == [] && Chars([], lang) == 0 && NoneFollows([])
  {
  }

  /** A supply is accepted exactly under these conditions, and the entries are those of its execution candidates. */
  lemma BuildIff(supplied: seq<Supplied>, lang: Language, maxDocuments: int, maxChars: int)
    ensures Build(supplied, lang, maxDocuments, maxChars)
      == if IsAcceptable(supplied, maxDocuments, maxChars) && Chars(Kept(supplied), lang) <= maxChars
         then Some(IndexAll(Sort(Kept(supplied), ById), lang)) else None
  {
    hide Collect, TakeAll, Sort, IndexAll, Kept, Chars, NoneFollows, AreNamed;
    if IsBudget(maxChars, MAX_INDEX_CHARS) {
      CollectIsTakeAll(supplied, lang, maxChars);
      TakenIff(supplied, lang, maxChars);
    }
  }

  // ---------------------------------------------------------------- what the entries are

  /** The identifier of a supplied execution candidate. */
  predicate IsCandidateId(supplied: seq<Supplied>, id: string) {
    exists i | 0 <= i < |supplied| :: IsExecutionCandidate(supplied[i].1) && supplied[i].0 == id
  }

  /** An entry made from a supplied execution candidate. */
  predicate IsCandidateEntry(supplied: seq<Supplied>, entry: Entry, lang: Language) {
    exists i | 0 <= i < |supplied| :: IsExecutionCandidate(supplied[i].1) && entry == IndexDocument(supplied[i].1, lang)
  }

  lemma {:induction false} KeptUnique(supplied: seq<Supplied>)
    requires NoneFollows(supplied)
    ensures AreUnique(Kept(supplied))
  {
    hide IsExecutionCandidate, DocumentId, NoneFollows, Kept;
    if supplied == [] {
      assert Kept([]) == [] by { NothingIsKept(Language(_ => "", _ => "", s => s, _ => [])); }
    } else {
      var last := |supplied| - 1;
      NoneFollowsLast(supplied);
      KeptLast(supplied);
      KeptUnique(supplied[..last]);
    }
  }

  lemma SortedUnique(documents: seq<Document>)
    requires AreUnique(documents)
    ensures AreUnique(Sort(documents, ById))
  {
    hide DocumentId, Sort, AreUnique, AreUniqueAll;
    SortKeeps(documents, ById);
    UniqueIff(documents);
    UniqueIff(Sort(documents, ById));
  }

  lemma SortedMembers(documents: seq<Document>, d: Document)
    ensures d in Sort(documents, ById) <==> d in documents
  {
    hide Sort;
    SortKeeps(documents, ById);
    assert d in Sort(documents, ById) <==> d in multiset(Sort(documents, ById));
    assert d in documents <==> d in multiset(documents);
  }

  lemma EntryParts(d: Document, lang: Language)
    ensures IndexDocument(d, lang).id == DocumentId(d) && IndexDocument(d, lang).fields != []
  {
    hide GeneralizedProse, RetrievalMarkdown, MakeField;
  }

  lemma KeptIsCandidate(supplied: seq<Supplied>, d: Document) returns (i: nat)
    requires d in Kept(supplied)
    ensures i < |supplied| && supplied[i].1 == d && IsExecutionCandidate(d)
  {
    hide IsExecutionCandidate, Kept;
    var k :| 0 <= k < |Kept(supplied)| && Kept(supplied)[k] == d;
    i := KeptFrom(supplied, k);
  }

  lemma {:induction false} CandidateInKept(supplied: seq<Supplied>, i: nat)
    requires i < |supplied| && IsExecutionCandidate(supplied[i].1)
    ensures supplied[i].1 in Kept(supplied)
  {
    hide IsExecutionCandidate, Kept;
    var last := |supplied| - 1;
    KeptLast(supplied);
    if i < last {
      CandidateInKept(supplied[..last], i);
    }
  }

  lemma IndexAllAt(documents: seq<Document>, lang: Language)
    ensures |IndexAll(documents, lang)| == |documents|
    ensures forall i | 0 <= i < |documents| ::
      IndexAll(documents, lang)[i] == IndexDocument(documents[i], lang) && IndexAll(documents, lang)[i].id == DocumentId(documents[i])
      && IndexAll(documents, lang)[i].fields != []
  {
    hide IndexDocument;
    forall i | 0 <= i < |documents|
      ensures IndexDocument(documents[i], lang).id == DocumentId(documents[i]) && IndexDocument(documents[i], lang).fields != []
    {
      EntryParts(documents[i], lang);
    }
  }

  /**
   A built index holds exactly one entry for each supplied execution candidate, made from it and found under its
   identifier, and nothing else.
   */
  lemma BuildSound(supplied: seq<Supplied>, lang: Language, maxDocuments: int, maxChars: int)
    requires Build(supplied, lang, maxDocuments, maxChars).Some?
    ensures
      var entries := Build(supplied, lang, maxDocuments, maxChars).value;
      && AreEntries(entries) && AreDistinctIds(entries) && |entries| == |Kept(supplied)| <= maxDocuments
      && (forall i | 0 <= i < |entries| :: IsCandidateEntry(supplied, entries[i], lang))
      && (forall id :: id in Ids(entries) <==> IsCandidateId(supplied, id))
  {
    hide IsExecutionCandidate, DocumentId, IndexDocument, Sort, Kept, Chars, NoneFollows, IndexAll, IsCandidateId, IsCandidateEntry;
    BuildIff(supplied, lang, maxDocuments, maxChars);
    var sorted := Sort(Kept(supplied), ById);
    var entries := IndexAll(sorted, lang);
    SortKeeps(Kept(supplied), ById);
    KeptUnique(supplied);
    SortedUnique(Kept(supplied));
    IndexAllAt(sorted, lang);
    KeptNoMore(supplied);
    forall i | 0 <= i < |entries| ensures IsCandidateEntry(supplied, entries[i], lang) && IsCandidateId(supplied, entries[i].id) {
      SortedCandidate(supplied, i, lang);
    }
    forall id | IsCandidateId(supplied, id) ensures id in Ids(entries) {
      CandidateListed(supplied, id, lang);
    }
    forall id | id in Ids(entries) ensures IsCandidateId(supplied, id) {
      var i :| 0 <= i < |entries| && Ids(entries)[i] == id;
    }
  }

  lemma {:induction false} KeptNoMore(supplied: seq<Supplied>)
    ensures |Kept(supplied)| <= |supplied|
  {
    hide IsExecutionCandidate;
    if supplied != [] {
      KeptNoMore(supplied[..|supplied| - 1]);
    }
  }

  lemma SortedCandidate(supplied: seq<Supplied>, i: nat, lang: Language)
    requires AreNamed(supplied) && i < |Sort(Kept(supplied), ById)|
    ensures
      var d := Sort(Kept(supplied), ById)[i];
      IsCandidateEntry(supplied, IndexDocument(d, lang), lang) && IsCandidateId(supplied, DocumentId(d))
  {
    hide IsExecutionCandidate, DocumentId, IndexDocument, Sort, Kept;
    var d := Sort(Kept(supplied), ById)[i];
    SortedMembers(Kept(supplied), d);
    var k := KeptIsCandidate(supplied, d);
  }

  lemma CandidateListed(supplied: seq<Supplied>, id: string, lang: Language)
    requires AreNamed(supplied) && IsCandidateId(supplied, id)
    ensures id in Ids(IndexAll(Sort(Kept(supplied), ById), lang))
  {
    hide IsExecutionCandidate, DocumentId, IndexDocument, Sort, Kept, IndexAll;
    var i :| 0 <= i < |supplied| && IsExecutionCandidate(supplied[i].1) && supplied[i].0 == id;
    CandidateInKept(supplied, i);
    var sorted := Sort(Kept(supplied), ById);
    SortedMembers(Kept(supplied), supplied[i].1);
    var k :| 0 <= k < |sorted| && sorted[k] == supplied[i].1;
    IndexAllAt(sorted, lang);
    assert Ids(IndexAll(sorted, lang))[k] == id;
  }

  // ---------------------------------------------------------------- dispatched actions

  lemma SuppliesAcceptedAlike(a: seq<Supplied>, b: seq<Supplied>, lang: Language, maxDocuments: int, maxChars: int)
    requires SuppliesLookAlike(a, b)
    ensures IsAcceptable(a, maxDocuments, maxChars) <==> IsAcceptable(b, maxDocuments, maxChars)
  {
    hide LookAlike, IsExecutionCandidate, DocumentId;
    forall i | 0 <= i < |a|
      ensures DocumentId(a[i].1) == DocumentId(b[i].1) && IsExecutionCandidate(a[i].1) == IsExecutionCandidate(b[i].1)
    {
      LookAlikeParts(a[i].1, b[i].1, lang);
      SameIds(a[i].1, b[i].1);
    }
  }

  lemma SameIds(a: Document, b: Document)
    requires LookAlike(a, b)
    ensures DocumentId(a) == DocumentId(b)
  {
    hide GeneralizedProse;
  }

  function BodyChars(documents: seq<Document>): nat {
    if documents == [] then 0 else BodyChars(documents[..|documents| - 1]) + |documents[|documents| - 1].body|
  }

  /** The characters counted differ as the bodies do, protected sections included. */
  lemma {:induction false} CharsDifferByBodies(a: seq<Document>, b: seq<Document>, lang: Language)
    requires AllLookAlike(a, b)
    ensures Chars(a, lang) - Chars(b, lang) == BodyChars(a) - BodyChars(b)
    decreases |a|
  {
    if a != [] {
      hide LookAlike, IndexChars;
      var last := |a| - 1;
      CharsDifferByBodies(a[..last], b[..last], lang);
      IndexCharsDiffer(a[last], b[last], lang);
    }
  }

  lemma IndexCharsDiffer(a: Document, b: Document, lang: Language)
    requires LookAlike(a, b)
    ensures IndexChars(a, lang) - IndexChars(b, lang) == |a.body| - |b.body|
  {
    hide GeneralizedProse;
  }

  /** Whether the budget tells the two supplies apart, of which one is accepted and the other is too long. */
  predicate BudgetSeparates(a: seq<Supplied>, b: seq<Supplied>, lang: Language, maxChars: int) {
    (Chars(Kept(a), lang) <= maxChars) != (Chars(Kept(b), lang) <= maxChars)
  }

  /**
   Two corpora that differ only in dispatched actions are the same index, unless the character budget, which counts the
   sections that show the actions, lies between the two.
   */
  lemma IndexIsBlindToActions(a: seq<Supplied>, b: seq<Supplied>, lang: Language, maxDocuments: int, maxChars: int)
    requires SuppliesLookAlike(a, b)
    ensures Build(a, lang, maxDocuments, maxChars) == Build(b, lang, maxDocuments, maxChars)
      <==> !(IsAcceptable(a, maxDocuments, maxChars) && BudgetSeparates(a, b, lang, maxChars))
    ensures Chars(Kept(a), lang) - Chars(Kept(b), lang) == BodyChars(Kept(a)) - BodyChars(Kept(b))
  {
    hide LookAlike, Sort, IndexAll, Kept, AllLookAlike, IsAcceptable, Chars, SuppliesLookAlike;
    BuildIff(a, lang, maxDocuments, maxChars);
    BuildIff(b, lang, maxDocuments, maxChars);
    SuppliesAcceptedAlike(a, b, lang, maxDocuments, maxChars);
    KeptLookAlike(a, b, lang);
    CharsDifferByBodies(Kept(a), Kept(b), lang);
    SortLookAlike(Kept(a), Kept(b), lang);
    IndexLookAlike(Sort(Kept(a), ById), Sort(Kept(b), ById), lang);
  }

  /** The document as it is with no action shown, and with one more action and a section that shows it. */
  function WithoutSection(d: Document): Document {
    d.(body := "")
  }

  function WithSection(d: Document, action: Json): Document {
    d.(body := ACTIONS_HEADER + "\n", dispatchedActions := d.dispatchedActions + [action])
  }

  lemma HeadingLowered()
    ensures Lower("Dispatched Actions") == "dispatched actions"
  {
    var s, t := "Dispatched Actions", "dispatched actions";
    forall i | 0 <= i < 18 ensures LowerChar(s[i]) == t[i] {
    }
  }

  lemma StrippedIsSame(s: string)
    requires s != "" && !IsSpace(s[0]) && !IsSpace(s[|s| - 1])
    ensures Strip(s) == s
  {
    hide Strip, IsSpace;
    StripTrims(s);
  }

  lemma HeadingIsProtected()
    ensures '\n' !in ACTIONS_HEADER && IsProtectedHeading(ACTIONS_HEADER)
  {
    hide Strip, Lower;
    HeadingLowered();
    StrippedIsSame("Dispatched Actions");
    assert ACTIONS_HEADER[3..] == "Dispatched Actions" && ACTIONS_HEADER[..3] == "## ";
  }

  lemma ProtectedHeadingAtTop()
    ensures GeneralizedProse(ACTIONS_HEADER + "\n") == GeneralizedProse("")
  {
    hide IsProtectedHeading, Strip, IndexOf;
    HeadingIsProtected();
    var body := ACTIONS_HEADER + "\n";
    assert ACTIONS_HEADER + ['\n'] + "" == body;
    IndexOfPrefix(ACTIONS_HEADER, '\n', "");
    assert body[..|ACTIONS_HEADER|] == ACTIONS_HEADER;
    assert ProtectedOffset(body) == 0 && ProtectedOffset("") == 0;
  }

  /**
   One such pair for every execution candidate whose text fits the budget on its own: one more shown action makes the
   constructor refuse the supply.
   */
  lemma BudgetSeesActions(d: Document, action: Json, lang: Language)
    requires IsExecutionCandidate(d) && 1 <= IndexChars(WithoutSection(d), lang) <= MAX_INDEX_CHARS
    ensures
      var id, chars := DocumentId(d), IndexChars(WithoutSection(d), lang);
      && SuppliesLookAlike([(id, WithoutSection(d))], [(id, WithSection(d, action))])
      && Build([(id, WithoutSection(d))], lang, 1, chars).Some?
      && Build([(id, WithSection(d, action))], lang, 1, chars).None?
  {
    var a, b := WithoutSection(d), WithSection(d, action);
    ProtectedHeadingAtTop();
    hide GeneralizedProse, Sort, IndexAll;
    var id, chars := DocumentId(d), IndexChars(a, lang);
    IndexCharsDiffer(a, b, lang);
    BuildIff([(id, a)], lang, 1, chars);
    BuildIff([(id, b)], lang, 1, chars);
    hide IndexChars;
    OneKept((id, a), lang);
    OneKept((id, b), lang);
  }

  lemma OneKept(s: Supplied, lang: Language)
    requires IsExecutionCandidate(s.1)
    ensures Kept([s]) == [s.1] && Chars([s.1], lang) == IndexChars(s.1, lang)
  {
    hide IndexChars, IsExecutionCandidate;
    assert [s][..0] == [] && [s.1][..0] == [];
    assert Kept([]) == [] && Chars([], lang) == 0;
  }

  // ---------------------------------------------------------------- mixed identifiers, concretely

  const SHARED_ID := "11111111-2222-3333-4444-555555555555"

  /** A positive memory, and a negative one with the same identifier. */
  function PositiveMemory(): Document {
    Document(
      map["resolution_id" := Str(SHARED_ID), "memory_kind" := Str("positive"), "actionable" := Bool(true),
          "outcome" := Str("resolved"), "applied" := Bool(true)],
      [Obj(map["command" := Str("$resume_flow")])], "", Null, Null)
  }

  function NegativeMemory(): Document {
    Document(
      map["resolution_id" := Str(SHARED_ID), "memory_kind" := Str("negative"), "actionable" := Bool(false)], [], "", Null, Null)
  }

  lemma PairFields()
    ensures DocumentId(PositiveMemory()) == SHARED_ID && DocumentId(NegativeMemory()) == SHARED_ID
    ensures IsExecutionCandidate(PositiveMemory()) && !IsExecutionCandidate(NegativeMemory())
  {
  }

  lemma OneOfPairKept(negative: Supplied, positive: Supplied)
    requires IsExecutionCandidate(positive.1) && !IsExecutionCandidate(negative.1)
    ensures Kept([negative, positive]) == [positive.1]
  {
    hide IsExecutionCandidate;
    assert [negative, positive][..1] == [negative] && [negative][..0] == [];
    assert Kept([]) == [] && Kept([negative]) == [];
  }

  /** Negative before positive is accepted, positive before negative is refused. */
  lemma MixedPairDependsOnOrder(lang: Language)
    requires IndexChars(PositiveMemory(), lang) <= MAX_INDEX_CHARS
    ensures
      var negative, positive := (SHARED_ID, NegativeMemory()), (SHARED_ID, PositiveMemory());
      && Build([negative, positive], lang, MAX_INDEX_DOCUMENTS, MAX_INDEX_CHARS).Some?
      && Build([positive, negative], lang, MAX_INDEX_DOCUMENTS, MAX_INDEX_CHARS).None?
  {
    var negative, positive := (SHARED_ID, NegativeMemory()), (SHARED_ID, PositiveMemory());
    hide IndexChars, Sort, IndexAll, IsExecutionCandidate, DocumentId, PositiveMemory, NegativeMemory, Build, Kept;
    PairFields();
    BuildIff([negative, positive], lang, MAX_INDEX_DOCUMENTS, MAX_INDEX_CHARS);
    BuildIff([positive, negative], lang, MAX_INDEX_DOCUMENTS, MAX_INDEX_CHARS);
    OneOfPairKept(negative, positive);
    OneKept(positive, lang);
    assert NoneFollows([negative, positive]);
    assert !NoneFollows([positive, negative]) by {
      assert [positive, negative][0] == positive && [positive, negative][1] == negative;
    }
  }

  // ---------------------------------------------------------------- documents of the store

  /** A document that was read from a memory file. */
  ghost predicate IsStored(document: Document) {
    exists text :: Parse(text) == Ok(document)
  }

  lemma ParsedId(text: string)
    requires Parse(text).Ok?
    ensures IsCanonicalUuid(DocumentId(Parse(text).value))
  {
    hide RuleFrom, FrontmatterOf, ParseActions, ParseEvidence, IsCanonicalUuid, UniversalNewlines, Lines, CanonicalUuid, IsHash;
    var lines := Lines(UniversalNewlines(text));
    var end := RuleFrom(lines, 2);
    CanonicalShape(Get(FrontmatterOf(Join("\n", lines[1..end])).value, "resolution_id"));
  }

  lemma CanonicalShape(value: Json)
    ensures CanonicalUuid(value).Some? ==> IsCanonicalUuid(CanonicalUuid(value).value)
  {
  }

  lemma StoredId(document: Document)
    requires IsStored(document)
    ensures DocumentId(document) != "" && Strip(DocumentId(document)) == DocumentId(document)
  {
    hide Parse, DocumentId, Strip;
    var text :| Parse(text) == Ok(document);
    ParsedId(text);
    CanonicalUuidIdentity(DocumentId(document));
    CanonicalIsTrimmed(DocumentId(document));
  }

  lemma CanonicalIsTrimmed(id: string)
    requires IsCanonicalUuid(id)
    ensures id != "" && Strip(id) == id
  {
    StripTrims(id);
  }

  /** Every execution candidate's identifier is what trimming it gives. */
  predicate HaveTrimmedIds(supplied: seq<Supplied>) {
    forall i | 0 <= i < |supplied| && IsExecutionCandidate(supplied[i].1) ::
      supplied[i].0 != "" && Strip(supplied[i].0) == supplied[i].0
  }

  lemma TrimmedIff(supplied: seq<Supplied>, entries: seq<Entry>)
    requires forall id :: id in Ids(entries) <==> IsCandidateId(supplied, id)
    ensures AreTrimmed(entries) <==> HaveTrimmedIds(supplied)
  {
    hide IsExecutionCandidate, Strip;
    if AreTrimmed(entries) {
      forall i | 0 <= i < |supplied| && IsExecutionCandidate(supplied[i].1)
        ensures supplied[i].0 != "" && Strip(supplied[i].0) == supplied[i].0
      {
        assert IsCandidateId(supplied, supplied[i].0);
        var k :| 0 <= k < |entries| && Ids(entries)[k] == supplied[i].0;
      }
    }
    if HaveTrimmedIds(supplied) {
      forall k | 0 <= k < |entries| ensures entries[k].id != "" && Strip(entries[k].id) == entries[k].id {
        assert Ids(entries)[k] == entries[k].id;
        assert IsCandidateId(supplied, entries[k].id);
      }
    }
  }

  /**
   Exhaustive reading of a built index: eligible means that reading all its identifiers under the same budgets succeeds,
   exactly if the supplied identifiers are trimmed.
   */
  lemma BuiltAutoReadIff(
      supplied: seq<Supplied>, lang: Language, indexDocuments: int, indexChars: int, maxDocuments: int, maxChars: int)
    requires Build(supplied, lang, indexDocuments, indexChars).Some?
    requires IsBudget(maxDocuments, MAX_READ_DOCUMENTS) && IsBudget(maxChars, MAX_TOTAL_READ_CHARS)
    ensures AutoRead(Build(supplied, lang, indexDocuments, indexChars).value, maxDocuments, maxChars).Some?
    ensures
      var entries := Build(supplied, lang, indexDocuments, indexChars).value;
      var verdict := AutoRead(entries, maxDocuments, maxChars).value;
      var results := ReadMemories(entries, Ids(entries), maxDocuments, maxChars);
      && (results.Some? <==> verdict.eligible && HaveTrimmedIds(supplied))
      && (results.Some? ==> |results.value| == |Kept(supplied)| && SumChars(results.value) == verdict.totalChars)
  {
    hide Build, AutoRead, ReadMemories, Kept, AreTrimmed, HaveTrimmedIds, IsCandidateId, IsCandidateEntry, SumChars;
    BuildSound(supplied, lang, indexDocuments, indexChars);
    var entries := Build(supplied, lang, indexDocuments, indexChars).value;
    AutoReadIff(entries, maxDocuments, maxChars);
    TrimmedIff(supplied, entries);
  }

  /** For documents of the store the two agree without a condition. */
  lemma StoredIdsAreTrimmed(supplied: seq<Supplied>)
    requires AreNamed(supplied) && forall i | 0 <= i < |supplied| :: IsStored(supplied[i].1)
    ensures HaveTrimmedIds(supplied)
  {
    hide IsStored, Strip, DocumentId, IsExecutionCandidate;
    forall i | 0 <= i < |supplied| ensures supplied[i].0 != "" && Strip(supplied[i].0) == supplied[i].0 {
      StoredId(supplied[i].1);
    }
  }

  /** The constructor: it collects the documents and indexes them in the order of their identifiers, or raises. */
  method NewIndex(supplied: seq<Supplied>, lang: Language, maxDocuments: int, maxChars: int)
    returns (index: Option<MemoryRetrievalIndex>)
    ensures index.Some? <==> Build(supplied, lang, maxDocuments, maxChars).Some?
    ensures index.Some? ==>
      fresh(index.value) && index.value.lang == lang
      && Build(supplied, lang, maxDocuments, maxChars) == Some(index.value.entries)
  {
    hide Sort, IndexAll, Collect;
    if !IsBudget(maxDocuments, MAX_INDEX_DOCUMENTS) || !IsBudget(maxChars, MAX_INDEX_CHARS) || |supplied| > maxDocuments {
      return None;
    }
    var kept := CollectDocuments(supplied, lang, maxChars);
    if kept.None? {
      return None;
    }
    var built := new MemoryRetrievalIndex(IndexAll(Sort(kept.value, ById), lang), lang);
    return Some(built);
  }

  // ---------------------------------------------------------------- what makes a candidate

  /** What the frontmatter of an execution candidate says. */
  function CandidateFields(): map<string, Json> {
    map["memory_kind" := Str("positive"), "actionable" := Bool(true), "outcome" := Str("resolved"), "applied" := Bool(true)]
  }

  lemma CandidateIff(d: Document)
    ensures IsExecutionCandidate(d)
      <==> d.dispatchedActions != [] && forall key <- CandidateFields() :: Get(d.frontmatter, key) == CandidateFields()[key]
  {
    assert CandidateFields().Keys == {"memory_kind", "actionable", "outcome", "applied"};
  }

  lemma CandidateFieldsAreWritten()
    ensures "memory_kind" in FrontmatterFields() && "actionable" in FrontmatterFields()
    ensures "outcome" in FrontmatterFields() && "applied" in FrontmatterFields()
  {
    assert FrontmatterFields()[5] == "memory_kind" && FrontmatterFields()[6] == "actionable";
    assert FrontmatterFields()[21] == "outcome" && FrontmatterFields()[22] == "applied";
  }

  /** What a rendered draft says of the fields that make a candidate. */
  lemma CandidateFieldsShown(draft: Draft)
    ensures
      var f := Frontmatter(draft);
      Get(f, "memory_kind") == Str(draft.memoryKind) && Get(f, "actionable") == Bool(draft.actionable)
      && Get(f, "outcome") == Get(draft.source.payload, "outcome")
      && Get(f, "applied") == Get(draft.source.payload, "applied")
  {
    CandidateFieldsAreWritten();
    OwnFieldNames(draft);
    FrontmatterShows(draft, "memory_kind");
    FrontmatterShows(draft, "actionable");
    FrontmatterShows(draft, "outcome");
    FrontmatterShows(draft, "applied");
    hide Frontmatter, FrontmatterFields;
  }

  lemma EarnedIsActionable(
      draft: Draft, source: Source, memoryKind: string, actionable: bool, failureSummary: string, recoverySummary: string,
      lessons: seq<string>, signature: Json, model: string, responseId: Option<string>)
    requires MemorySource.IsDraftOf(
      draft, source, memoryKind, actionable, failureSummary, recoverySummary, lessons, signature, model, responseId)
    ensures draft.source == source && draft.memoryKind == memoryKind && draft.actionable == actionable
    ensures actionable ==> MemorySource.IsPositiveDemonstration(source, memoryKind)
  {
    hide MemorySource.AreTrimmedOf, MemorySource.IsTrimmedOf, MemorySource.IsPositiveDemonstration;
  }

  /** A memory that is written and read back is an execution candidate if and only if its draft was actionable. */
  lemma DraftIsCandidateIff(
      draft: Draft, source: Source, memoryKind: string, actionable: bool, failureSummary: string, recoverySummary: string,
      lessons: seq<string>, signature: Json, model: string, responseId: Option<string>, show: Json -> string)
    requires MemorySource.MakeDraft(
      source, memoryKind, actionable, failureSummary, recoverySummary, lessons, signature, model, responseId) == Ok(draft)
    ensures IsExecutionCandidate(Rendered(draft, show)) <==> actionable
  {
    hide MemorySource.MakeDraft, MemorySource.IsDraftOf, Frontmatter, BodyLines;
    MemorySource.DraftIff(
      draft, source, memoryKind, actionable, failureSummary, recoverySummary, lessons, signature, model, responseId);
    EarnedIsActionable(
      draft, source, memoryKind, actionable, failureSummary, recoverySummary, lessons, signature, model, responseId);
    CandidateFieldsShown(draft);
  }

  // ---------------------------------------------------------------- what an entry indexes

  /** The fields of an entry: the signature, the frontmatter, the prose before the protected sections, the evidence. */
  lemma EntryShows(d: Document, lang: Language)
    ensures
      var entry := IndexDocument(d, lang);
      var texts := [
        lang.compact(OrEmpty(d.retrievalSignature)), lang.compact(Obj(d.frontmatter)), GeneralizedProse(d.body),
        lang.compact(OrEmpty(d.episodeEvidence))];
      && entry.id == DocumentId(d) && entry.metadata == d.frontmatter && |entry.fields| == 4
      && entry.fields[0].name == "retrieval_signature" && entry.fields[1].name == "frontmatter"
      && entry.fields[2].name == "generalized_prose" && entry.fields[3].name == "episode_evidence"
      && forall i | 0 <= i < 4 ::
           entry.fields[i].text == texts[i] && entry.fields[i].normalized == lang.normalize(texts[i])
           && forall term :: term in entry.fields[i].terms <==> term in lang.tokens(lang.normalize(texts[i]))
  {
    hide GeneralizedProse, RetrievalMarkdown;
  }

  /** A whole line of the body, cut off by a line feed. */
  predicate IsLineOf(body: string, start: nat, end: nat) {
    start <= end < |body| && (start == 0 || body[start - 1] == '\n') && body[end] == '\n' && '\n' !in body[start..end]
  }

  /** The heading of a section of structured data. */
  predicate IsSectionHeading(line: string) {
    |line| > 3 && line[..3] == "## "
    && Lower(Strip(line[3..])) in {"dispatched actions", "episode evidence", "retrieval signature"}
  }

  predicate IsSectionLine(body: string, start: nat, end: nat) {
    IsLineOf(body, start, end) && IsSectionHeading(body[start..end])
  }

  lemma HeadingIff(line: string)
    ensures IsProtectedHeading(line) <==> IsSectionHeading(line)
  {
    hide Lower, Strip;
  }

  lemma LineShifts(body: string, cut: nat, start: nat, end: nat)
    requires 0 < cut <= |body| && body[cut - 1] == '\n'
    ensures IsSectionLine(body[cut..], start, end) <==> IsSectionLine(body, cut + start, cut + end)
  {
    hide IsSectionHeading;
    if start <= end < |body| - cut {
      assert body[cut..][start..end] == body[cut + start..cut + end];
      assert start > 0 ==> body[cut..][start - 1] == body[cut + start - 1];
    }
  }

  lemma FirstLineOnly(body: string, end: nat, s: nat, e: nat)
    requires end <= |body| && '\n' !in body[..end] && s <= end && IsLineOf(body, s, e)
    ensures s == 0 && e >= end && (end < |body| && body[end] == '\n' ==> e == end)
  {
    assert forall i | 0 <= i < end :: body[..end][i] == body[i];
    assert forall i | s <= i < e :: body[s..e][i - s] == body[i];
  }

  lemma FirstLine(body: string, end: nat)
    requires end < |body| && body[end] == '\n' && '\n' !in body[..end]
    ensures IsLineOf(body, 0, end) && body[0..end] == body[..end]
  {
  }

  /** The prose ends where the first such line starts, or it is the whole body. */
  lemma {:induction false} ProseEndsAtSection(body: string)
    ensures ProtectedOffset(body) < |body| ==> exists end: nat :: IsSectionLine(body, ProtectedOffset(body), end)
    ensures forall start: nat, end: nat | start < ProtectedOffset(body) :: !IsSectionLine(body, start, end)
    decreases |body|
  {
    hide IsSectionHeading, IsProtectedHeading, IsLineOf;
    var end := IndexOf(body, '\n');
    if end < |body| {
      FirstLine(body, end);
      HeadingIff(body[..end]);
      if IsProtectedHeading(body[..end]) {
        assert IsSectionLine(body, 0, end);
      } else {
        var rest := body[end + 1..];
        ProseEndsAtSection(rest);
        hide IsSectionLine;
        if ProtectedOffset(rest) < |rest| {
          var later: nat :| IsSectionLine(rest, ProtectedOffset(rest), later);
          LineShifts(body, end + 1, ProtectedOffset(rest), later);
        }
        forall s: nat, e: nat | s < ProtectedOffset(body) ensures !IsSectionLine(body, s, e) {
          NoSectionBefore(body, end, s, e);
        }
      }
    } else {
      forall s: nat, e: nat | s < ProtectedOffset(body) ensures !IsSectionLine(body, s, e) {
        NoLineAtAll(body, s, e);
      }
    }
  }

  lemma NoLineAtAll(body: string, s: nat, e: nat)
    requires '\n' !in body
    ensures !IsSectionLine(body, s, e)
  {
    hide IsSectionHeading;
  }

  lemma NoSectionBefore(body: string, end: nat, s: nat, e: nat)
    requires end < |body| && body[end] == '\n' && '\n' !in body[..end] && !IsProtectedHeading(body[..end])
    requires s > end && e > end ==> !IsSectionLine(body[end + 1..], s - (end + 1), e - (end + 1))
    ensures !IsSectionLine(body, s, e)
  {
    hide IsSectionHeading, IsProtectedHeading;
    HeadingIff(body[..end]);
    FirstLine(body, end);
    if s <= end {
      hide IsLineOf;
      if IsLineOf(body, s, e) {
        FirstLineOnly(body, end, s, e);
      }
    } else if e > end {
      LineShifts(body, end + 1, s - (end + 1), e - (end + 1));
    }
  }
}
