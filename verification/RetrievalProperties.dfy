/** What searching and reading the index guarantee. */
module RetrievalProperties {
  import opened Text
  import opened Json
  import opened MemoryMarkdown
  import opened Ranking
  import opened Retrieval

  // ---------------------------------------------------------------- search is the head of one order

  predicate AreDistinctIds(entries: seq<Entry>) {
    forall i, j | 0 <= i < j < |entries| :: entries[i].id != entries[j].id
  }

  lemma DistinctRanks(entries: seq<Entry>, rank: Entry -> Rank)
    requires AreDistinctIds(entries) && forall e: Entry :: rank(e).id == e.id
    ensures HasDistinctRanks(multiset(entries), rank)
  {
    forall x, y | x in multiset(entries) && y in multiset(entries) && rank(x) == rank(y) ensures x == y {
      assert x in entries && y in entries;
      var i :| 0 <= i < |entries| && entries[i] == x;
      var j :| 0 <= j < |entries| && entries[j] == y;
      assert x.id == y.id;
    }
  }

  /**
   The best entries are the first `min(limit, n)` in the order (score descending, identifier ascending): they come from
   the index, are in order, and nothing left out would rank before any of them.
   */
  lemma BestIsHeadOfOrder(entries: seq<Entry>, query: Query, boost: Boost, limit: nat)
    ensures
      var best, rank := Best(entries, query, boost, limit), RankOf(query, boost);
      && |best| == Min(limit, |entries|)
      && IsRanked(best, rank)
      && multiset(best) <= multiset(entries)
      && forall e, i | e in multiset(entries) - multiset(best) && 0 <= i < |best| :: RankLe(rank(best[i]), rank(e))
  {
    hide RankLe, TotalScore, Sort;
    var rank, best := RankOf(query, boost), Best(entries, query, boost, limit);
    SortKeeps(entries, rank);
    var sorted := Sort(entries, rank);
    var rest := sorted[|best|..];
    assert sorted == best + rest;
    assert multiset(sorted) == multiset(best) + multiset(rest);
    hide RankOf;
    forall e, i | e in multiset(entries) - multiset(best) && 0 <= i < |best| ensures RankLe(rank(best[i]), rank(e)) {
      assert e in multiset(rest);
      assert e in rest;
      var k :| 0 <= k < |rest| && rest[k] == e;
      assert sorted[|best| + k] == e && sorted[i] == best[i];
    }
  }

  lemma BestIgnoresOrder(a: seq<Entry>, b: seq<Entry>, query: Query, boost: Boost, limit: nat)
    requires multiset(a) == multiset(b) && AreDistinctIds(a)
    ensures Best(a, query, boost, limit) == Best(b, query, boost, limit)
  {
    hide Sort;
    DistinctRanks(a, RankOf(query, boost));
    SortIgnoresOrder(a, b, RankOf(query, boost));
  }

  // ---------------------------------------------------------------- building ignores the supply order

  /** The execution candidates of a supply, in order. */
  function Kept(supplied: seq<Supplied>): seq<Document> {
    if supplied == [] then []
    else
      var earlier, last := Kept(supplied[..|supplied| - 1]), supplied[|supplied| - 1].1;
      if IsExecutionCandidate(last) then earlier + [last] else earlier
  }

  function Chars(documents: seq<Document>, lang: Language): nat {
    if documents == [] then 0
    else Chars(documents[..|documents| - 1], lang) + IndexChars(documents[|documents| - 1], lang)
  }

  /** One round of the constructor's loop. */
  function Take(kept: seq<Document>, s: Supplied, lang: Language, maxChars: nat): Option<seq<Document>> {
    if s.0 != DocumentId(s.1) || HasDocument(kept, s.0) then None
    else if !IsExecutionCandidate(s.1) then Some(kept)
    else if Chars(kept, lang) + IndexChars(s.1, lang) > maxChars then None
    else Some(kept + [s.1])
  }

  function TakeAll(supplied: seq<Supplied>, lang: Language, maxChars: nat): Option<seq<Document>> {
    if supplied == [] then Some([])
    else
      var earlier := TakeAll(supplied[..|supplied| - 1], lang, maxChars);
      if earlier.None? then None else Take(earlier.value, supplied[|supplied| - 1], lang, maxChars)
  }

  lemma CharsPush(documents: seq<Document>, d: Document, lang: Language)
    ensures Chars(documents + [d], lang) == Chars(documents, lang) + IndexChars(d, lang)
  {
    assert (documents + [d])[..|documents|] == documents;
  }

  lemma {:induction false} CollectFrom(supplied: seq<Supplied>, i: nat, kept: seq<Document>, lang: Language, maxChars: nat)
    requires i <= |supplied| && TakeAll(supplied[..i], lang, maxChars) == Some(kept)
    ensures Collect(supplied[i..], kept, Chars(kept, lang), lang, maxChars) == TakeAll(supplied, lang, maxChars)
    decreases |supplied| - i
  {
    hide IsExecutionCandidate, IndexChars, DocumentId, HasDocument, Chars;
    if i == |supplied| {
      assert supplied[..i] == supplied && supplied[i..] == [];
    } else {
      assert supplied[..i + 1][..i] == supplied[..i] && supplied[..i + 1][i] == supplied[i];
      assert supplied[i..][1..] == supplied[i + 1..];
      CharsPush(kept, supplied[i].1, lang);
      var next := Take(kept, supplied[i], lang, maxChars);
      if next.Some? {
        CollectFrom(supplied, i + 1, next.value, lang, maxChars);
      } else {
        RejectedStays(supplied, i + 1, lang, maxChars);
      }
    }
  }

  lemma {:induction false} RejectedStays(supplied: seq<Supplied>, i: nat, lang: Language, maxChars: nat)
    requires i <= |supplied| && TakeAll(supplied[..i], lang, maxChars).None?
    ensures TakeAll(supplied, lang, maxChars).None?
    decreases |supplied| - i
  {
    hide Take;
    if i == |supplied| {
      assert supplied[..i] == supplied;
    } else {
      assert supplied[..i + 1][..i] == supplied[..i];
      RejectedStays(supplied, i + 1, lang, maxChars);
    }
  }

  lemma CollectIsTakeAll(supplied: seq<Supplied>, lang: Language, maxChars: nat)
    ensures Collect(supplied, [], 0, lang, maxChars) == TakeAll(supplied, lang, maxChars)
  {
    hide Collect;
    assert supplied[..0] == [] && supplied[0..] == supplied;
    CollectFrom(supplied, 0, [], lang, maxChars);
  }

  predicate AreNamed(supplied: seq<Supplied>) {
    forall i | 0 <= i < |supplied| :: supplied[i].0 == DocumentId(supplied[i].1)
  }

  predicate AreUnique(documents: seq<Document>) {
    forall i, j | 0 <= i < j < |documents| :: DocumentId(documents[i]) != DocumentId(documents[j])
  }

  /** No execution candidate shares its identifier with a document that is none. */
  predicate HaveNoMixedIds(supplied: seq<Supplied>) {
    forall i, j | 0 <= i < |supplied| && 0 <= j < |supplied|
      && IsExecutionCandidate(supplied[i].1) && !IsExecutionCandidate(supplied[j].1) ::
      DocumentId(supplied[i].1) != DocumentId(supplied[j].1)
  }

  lemma {:induction false} KeptFrom(supplied: seq<Supplied>, k: nat) returns (i: nat)
    requires k < |Kept(supplied)|
    ensures i < |supplied| && supplied[i].1 == Kept(supplied)[k] && IsExecutionCandidate(supplied[i].1)
  {
    hide IsExecutionCandidate;
    var last := |supplied| - 1;
    if k < |Kept(supplied[..last])| {
      i := KeptFrom(supplied[..last], k);
    } else {
      i := last;
    }
  }

  lemma {:induction false} Taken(supplied: seq<Supplied>, lang: Language, maxChars: nat)
    requires TakeAll(supplied, lang, maxChars).Some?
    ensures TakeAll(supplied, lang, maxChars).value == Kept(supplied)
    ensures AreNamed(supplied) && AreUnique(Kept(supplied)) && Chars(Kept(supplied), lang) <= maxChars
  {
    hide IsExecutionCandidate, IndexChars, DocumentId;
    if supplied != [] {
      var last := |supplied| - 1;
      Taken(supplied[..last], lang, maxChars);
      CharsPush(Kept(supplied[..last]), supplied[last].1, lang);
    }
  }

  lemma NotKept(supplied: seq<Supplied>, id: string)
    requires forall i | 0 <= i < |supplied| && IsExecutionCandidate(supplied[i].1) :: DocumentId(supplied[i].1) != id
    ensures !HasDocument(Kept(supplied), id)
  {
    hide IsExecutionCandidate, Kept, DocumentId;
    forall k | 0 <= k < |Kept(supplied)| ensures DocumentId(Kept(supplied)[k]) != id {
      var i := KeptFrom(supplied, k);
    }
  }

  lemma UniqueLast(documents: seq<Document>, d: Document)
    requires AreUnique(documents + [d])
    ensures AreUnique(documents) && !HasDocument(documents, DocumentId(d))
  {
    hide DocumentId;
    var all := documents + [d];
    assert all[|documents|] == d;
    assert forall k | 0 <= k < |documents| :: all[k] == documents[k];
  }

  lemma KeptLast(supplied: seq<Supplied>)
    requires supplied != []
    ensures
      var last := |supplied| - 1;
      Kept(supplied) == if IsExecutionCandidate(supplied[last].1) then Kept(supplied[..last]) + [supplied[last].1]
                        else Kept(supplied[..last])
  {
  }

  /** What the last document needs to be taken. */
  lemma LastIsTaken(supplied: seq<Supplied>, lang: Language, maxChars: nat)
    requires supplied != [] && AreNamed(supplied) && HaveNoMixedIds(supplied)
    requires AreUnique(Kept(supplied)) && Chars(Kept(supplied), lang) <= maxChars
    ensures
      var last := |supplied| - 1;
      var kept := Kept(supplied[..last]);
      AreUnique(kept) && Chars(kept, lang) <= maxChars
      && Take(kept, supplied[last], lang, maxChars) == Some(Kept(supplied))
  {
    hide IsExecutionCandidate, IndexChars, DocumentId, AreUnique, HasDocument, Chars, Kept;
    var last := |supplied| - 1;
    var shorter, document := supplied[..last], supplied[last].1;
    KeptLast(supplied);
    CharsPush(Kept(shorter), document, lang);
    if IsExecutionCandidate(document) {
      UniqueLast(Kept(shorter), document);
    } else {
      NotKept(shorter, DocumentId(document));
    }
  }

  lemma {:induction false} TakeSucceeds(supplied: seq<Supplied>, lang: Language, maxChars: nat)
    requires AreNamed(supplied) && AreUnique(Kept(supplied)) && Chars(Kept(supplied), lang) <= maxChars
    requires HaveNoMixedIds(supplied)
    ensures TakeAll(supplied, lang, maxChars) == Some(Kept(supplied))
  {
    hide IsExecutionCandidate, DocumentId, AreUnique, Take, Chars;
    if supplied != [] {
      LastIsTaken(supplied, lang, maxChars);
      TakeSucceeds(supplied[..|supplied| - 1], lang, maxChars);
    }
  }

  // ---- the same, order-free

  ghost predicate AreNamedAll(supplied: multiset<Supplied>) {
    forall s | s in supplied :: s.0 == DocumentId(s.1)
  }

  ghost predicate HaveNoMixedAll(supplied: multiset<Supplied>) {
    forall s, t | s in supplied && t in supplied && IsExecutionCandidate(s.1) && !IsExecutionCandidate(t.1) ::
      DocumentId(s.1) != DocumentId(t.1)
  }

  ghost predicate AreUniqueAll(documents: multiset<Document>) {
    && (forall d | d in documents :: documents[d] == 1)
    && (forall d, e | d in documents && e in documents && DocumentId(d) == DocumentId(e) :: d == e)
  }

  lemma NamedIff(supplied: seq<Supplied>)
    ensures AreNamed(supplied) <==> AreNamedAll(multiset(supplied))
  {
    hide DocumentId;
    assert forall i | 0 <= i < |supplied| :: supplied[i] in multiset(supplied);
  }

  lemma NoMixedIff(supplied: seq<Supplied>)
    ensures HaveNoMixedIds(supplied) <==> HaveNoMixedAll(multiset(supplied))
  {
    hide DocumentId, IsExecutionCandidate;
    assert forall i | 0 <= i < |supplied| :: supplied[i] in multiset(supplied);
  }

  lemma {:induction false} UniqueIff(documents: seq<Document>)
    ensures AreUnique(documents) <==> AreUniqueAll(multiset(documents))
  {
    hide DocumentId;
    if documents != [] {
      var last := |documents| - 1;
      var shorter, d := documents[..last], documents[last];
      UniqueIff(shorter);
      assert documents == shorter + [d];
      assert multiset(documents) == multiset(shorter) + multiset{d};
      UniquePush(shorter, d);
      assert AreUnique(documents) <==> (AreUnique(shorter) && !HasDocument(shorter, DocumentId(d)));
    }
  }

  lemma UniquePush(shorter: seq<Document>, d: Document)
    ensures AreUniqueAll(multiset(shorter) + multiset{d})
      <==> AreUniqueAll(multiset(shorter)) && !HasDocument(shorter, DocumentId(d))
  {
    hide DocumentId;
    var all := multiset(shorter) + multiset{d};
    assert forall i | 0 <= i < |shorter| :: shorter[i] in multiset(shorter) && shorter[i] in all;
    assert d in all;
    if d in multiset(shorter) {
      assert d in shorter;
      var i :| 0 <= i < |shorter| && shorter[i] == d;
      assert all[d] >= 2;
    }
    if AreUniqueAll(all) {
      forall e | e in multiset(shorter) ensures multiset(shorter)[e] == 1 {
        assert e in all;
      }
    }
    if AreUniqueAll(multiset(shorter)) && !HasDocument(shorter, DocumentId(d)) {
      forall e | e in all ensures all[e] == 1 {
        assert e == d || e in multiset(shorter);
      }
    }
  }

  lemma {:induction false} KeptCount(supplied: seq<Supplied>, d: Document)
    requires AreNamed(supplied)
    ensures multiset(Kept(supplied))[d] == if IsExecutionCandidate(d) then multiset(supplied)[(DocumentId(d), d)] else 0
  {
    hide IsExecutionCandidate, DocumentId;
    if supplied != [] {
      var last := |supplied| - 1;
      KeptCount(supplied[..last], d);
      assert supplied == supplied[..last] + [supplied[last]];
    }
  }

  lemma KeptPermuted(a: seq<Supplied>, b: seq<Supplied>)
    requires multiset(a) == multiset(b) && AreNamed(a) && AreNamed(b)
    ensures multiset(Kept(a)) == multiset(Kept(b))
  {
    hide Kept, IsExecutionCandidate, DocumentId, AreNamed;
    forall d: Document ensures multiset(Kept(a))[d] == multiset(Kept(b))[d] {
      KeptCount(a, d);
      KeptCount(b, d);
    }
  }

  lemma {:induction false} CharsRemove(documents: seq<Document>, k: nat, lang: Language)
    requires k < |documents|
    ensures Chars(documents, lang) == Chars(documents[..k] + documents[k + 1..], lang) + IndexChars(documents[k], lang)
    decreases |documents|
  {
    hide IndexChars;
    var last := |documents| - 1;
    if k == last {
      assert documents[..k] + documents[k + 1..] == documents[..last];
    } else {
      CharsRemove(documents[..last], k, lang);
      assert (documents[..k] + documents[k + 1..])[..last - 1] == documents[..last][..k] + documents[..last][k + 1..];
    }
  }

  lemma {:induction false} CharsPermuted(a: seq<Document>, b: seq<Document>, lang: Language)
    requires multiset(a) == multiset(b)
    ensures Chars(a, lang) == Chars(b, lang)
    decreases |a|
  {
    hide IndexChars;
    SameLength(a, b);
    if a != [] {
      var last := |a| - 1;
      assert a[last] in multiset(a);
      assert a[last] in b;
      var k :| 0 <= k < |b| && b[k] == a[last];
      RemovedMultiset(a, last);
      RemovedMultiset(b, k);
      assert a[..last] + a[last + 1..] == a[..last];
      CharsPermuted(a[..last], b[..k] + b[k + 1..], lang);
      CharsRemove(b, k, lang);
    }
  }

  lemma UniqueRanks(documents: seq<Document>)
    requires AreUnique(documents)
    ensures HasDistinctRanks(multiset(documents), ById)
  {
    hide DocumentId;
    forall x, y | x in multiset(documents) && y in multiset(documents) && ById(x) == ById(y) ensures x == y {
      assert x in documents && y in documents;
      var i :| 0 <= i < |documents| && documents[i] == x;
      var j :| 0 <= j < |documents| && documents[j] == y;
    }
  }

  lemma TakePermuted(a: seq<Supplied>, b: seq<Supplied>, lang: Language, maxChars: nat)
    requires multiset(a) == multiset(b) && HaveNoMixedIds(a)
    requires TakeAll(a, lang, maxChars).Some?
    ensures TakeAll(b, lang, maxChars) == Some(Kept(b))
    ensures TakeAll(a, lang, maxChars) == Some(Kept(a))
    ensures multiset(Kept(a)) == multiset(Kept(b)) && AreUnique(Kept(a))
  {
    hide TakeAll, Kept, AreUnique, AreNamed, Chars, HaveNoMixedIds, AreNamedAll, HaveNoMixedAll, AreUniqueAll;
    Taken(a, lang, maxChars);
    NamedIff(a);
    NamedIff(b);
    NoMixedIff(a);
    NoMixedIff(b);
    KeptPermuted(a, b);
    UniqueIff(Kept(a));
    UniqueIff(Kept(b));
    CharsPermuted(Kept(a), Kept(b), lang);
    TakeSucceeds(b, lang, maxChars);
  }

  lemma NoMixedPermuted(a: seq<Supplied>, b: seq<Supplied>)
    requires multiset(a) == multiset(b) && HaveNoMixedIds(a)
    ensures HaveNoMixedIds(b)
  {
    hide HaveNoMixedIds, HaveNoMixedAll;
    NoMixedIff(a);
    NoMixedIff(b);
  }

  /** Without mixed identifiers the index does not depend on the order of the supply. */
  lemma BuildIgnoresOrder(a: seq<Supplied>, b: seq<Supplied>, lang: Language, maxDocuments: int, maxChars: int)
    requires multiset(a) == multiset(b) && HaveNoMixedIds(a)
    ensures Build(a, lang, maxDocuments, maxChars) == Build(b, lang, maxDocuments, maxChars)
  {
    hide TakeAll, Kept, AreUnique, HaveNoMixedIds, IndexAll, Sort, Collect;
    SameLength(a, b);
    if 1 <= maxChars {
      CollectIsTakeAll(a, lang, maxChars);
      CollectIsTakeAll(b, lang, maxChars);
      NoMixedPermuted(a, b);
      if TakeAll(a, lang, maxChars).Some? {
        TakePermuted(a, b, lang, maxChars);
        UniqueRanks(Kept(a));
        SortIgnoresOrder(Kept(a), Kept(b), ById);
      } else if TakeAll(b, lang, maxChars).Some? {
        TakePermuted(b, a, lang, maxChars);
      }
    }
  }

  /** With mixed identifiers it does: an accepted supply is rejected once the other document comes last. */
  lemma MixedIdsDependOnOrder(
      a: seq<Supplied>, i: nat, j: nat, lang: Language, maxDocuments: int, maxChars: int)
    returns (b: seq<Supplied>)
    requires Build(a, lang, maxDocuments, maxChars).Some?
    requires i < |a| && j < |a| && IsExecutionCandidate(a[i].1) && !IsExecutionCandidate(a[j].1)
    requires DocumentId(a[i].1) == DocumentId(a[j].1)
    ensures multiset(b) == multiset(a) && Build(b, lang, maxDocuments, maxChars).None?
  {
    hide IsExecutionCandidate, DocumentId, Collect;
    var others := a[..j] + a[j + 1..];
    b := others + [a[j]];
    assert a == a[..j] + [a[j]] + a[j + 1..];
    assert b[..|others|] == others && b[|others|] == a[j];
    var k := if i < j then i else i - 1;
    assert others[k] == a[i];
    CollectIsTakeAll(a, lang, maxChars);
    CollectIsTakeAll(b, lang, maxChars);
    Taken(a, lang, maxChars);
    if TakeAll(others, lang, maxChars).Some? {
      Taken(others, lang, maxChars);
      CandidateIsKept(others, k);
    }
  }

  lemma {:induction false} CandidateIsKept(supplied: seq<Supplied>, i: nat)
    requires i < |supplied| && IsExecutionCandidate(supplied[i].1)
    ensures HasDocument(Kept(supplied), DocumentId(supplied[i].1))
  {
    hide IsExecutionCandidate, DocumentId;
    var last := |supplied| - 1;
    if i < last {
      CandidateIsKept(supplied[..last], i);
      var k :| 0 <= k < |Kept(supplied[..last])| && DocumentId(Kept(supplied[..last])[k]) == DocumentId(supplied[i].1);
      assert Kept(supplied)[k] == Kept(supplied[..last])[k];
    } else {
      assert Kept(supplied)[|Kept(supplied)| - 1] == supplied[i].1;
    }
  }

  // ---------------------------------------------------------------- dispatched actions are invisible

  /** The two documents differ at most in their dispatched actions and in the body from the first protected section on. */
  predicate LookAlike(a: Document, b: Document) {
    && a.frontmatter == b.frontmatter && GeneralizedProse(a.body) == GeneralizedProse(b.body)
    && a.retrievalSignature == b.retrievalSignature && a.episodeEvidence == b.episodeEvidence
    && (a.dispatchedActions == [] <==> b.dispatchedActions == [])
  }

  predicate AllLookAlike(a: seq<Document>, b: seq<Document>) {
    |a| == |b| && forall i | 0 <= i < |a| :: LookAlike(a[i], b[i])
  }

  predicate SuppliesLookAlike(a: seq<Supplied>, b: seq<Supplied>) {
    |a| == |b| && forall i | 0 <= i < |a| :: a[i].0 == b[i].0 && LookAlike(a[i].1, b[i].1)
  }

  lemma LookAlikeParts(a: Document, b: Document, lang: Language)
    requires LookAlike(a, b)
    ensures IndexDocument(a, lang) == IndexDocument(b, lang) && ById(a) == ById(b)
    ensures IsExecutionCandidate(a) == IsExecutionCandidate(b)
  {
    hide GeneralizedProse, RetrievalMarkdown, MakeField;
  }

  lemma {:induction false} KeptLookAlike(a: seq<Supplied>, b: seq<Supplied>, lang: Language)
    requires SuppliesLookAlike(a, b)
    ensures AllLookAlike(Kept(a), Kept(b))
  {
    hide LookAlike, IsExecutionCandidate;
    if a != [] {
      var last := |a| - 1;
      KeptLookAlike(a[..last], b[..last], lang);
      LookAlikeParts(a[last].1, b[last].1, lang);
    }
  }

  lemma {:induction false} InsertLookAlike(x: Document, xs: seq<Document>, y: Document, ys: seq<Document>, lang: Language)
    requires LookAlike(x, y) && AllLookAlike(xs, ys)
    ensures AllLookAlike(Insert(x, xs, ById), Insert(y, ys, ById))
  {
    hide LookAlike, RankLe, ById;
    LookAlikeParts(x, y, lang);
    if xs != [] {
      LookAlikeParts(xs[0], ys[0], lang);
      InsertLookAlike(x, xs[1..], y, ys[1..], lang);
    }
  }

  lemma {:induction false} SortLookAlike(a: seq<Document>, b: seq<Document>, lang: Language)
    requires AllLookAlike(a, b)
    ensures AllLookAlike(Sort(a, ById), Sort(b, ById))
  {
    hide LookAlike, Insert;
    if a != [] {
      SortLookAlike(a[1..], b[1..], lang);
      InsertLookAlike(a[0], Sort(a[1..], ById), b[0], Sort(b[1..], ById), lang);
    }
  }

  lemma IndexLookAlike(a: seq<Document>, b: seq<Document>, lang: Language)
    requires AllLookAlike(a, b)
    ensures IndexAll(a, lang) == IndexAll(b, lang)
  {
    hide LookAlike, IndexDocument;
    forall i | 0 <= i < |a| ensures IndexAll(a, lang)[i] == IndexAll(b, lang)[i] {
      LookAlikeParts(a[i], b[i], lang);
    }
  }

  // ---------------------------------------------------------------- exhaustive reading

  function SumChars(results: seq<ReadResult>): nat {
    if results == [] then 0 else results[0].charCount + SumChars(results[1..])
  }

  predicate AreTrimmed(entries: seq<Entry>) {
    forall i | 0 <= i < |entries| :: entries[i].id != "" && Strip(entries[i].id) == entries[i].id
  }

  predicate FitEach(entries: seq<Entry>) {
    forall i | 0 <= i < |entries| :: |entries[i].markdown| <= MAX_MEMORY_READ_CHARS
  }

  lemma {:induction false} EntryFound(entries: seq<Entry>, i: nat)
    requires AreDistinctIds(entries) && i < |entries|
    ensures EntryOf(entries, entries[i].id) == Some(entries[i])
    decreases i
  {
    if i > 0 {
      EntryFound(entries[1..], i - 1);
    }
  }

  lemma {:induction false} EntryKnown(entries: seq<Entry>, id: string)
    requires EntryOf(entries, id).Some?
    ensures exists i :: 0 <= i < |entries| && entries[i].id == id
  {
    if entries[0].id != id {
      EntryKnown(entries[1..], id);
      var i :| 0 <= i < |entries| - 1 && entries[1..][i].id == id;
      assert entries[i + 1].id == id;
    }
  }

  lemma {:induction false} ValidatedIdsAre(ids: seq<string>)
    requires ValidatedIds(ids).Some?
    ensures
      var v := ValidatedIds(ids).value;
      |v| == |ids| && (forall i | 0 <= i < |ids| :: v[i] == Strip(ids[i]) && v[i] != "")
      && forall i, j | 0 <= i < j < |v| :: v[i] != v[j]
  {
    hide Strip;
    if ids != [] {
      ValidatedIdsAre(ids[..|ids| - 1]);
    }
  }

  lemma {:induction false} TrimmedIdsAreValid(ids: seq<string>)
    requires forall i | 0 <= i < |ids| :: ids[i] != "" && Strip(ids[i]) == ids[i]
    requires forall i, j | 0 <= i < j < |ids| :: ids[i] != ids[j]
    ensures ValidatedIds(ids) == Some(ids)
  {
    hide Strip;
    if ids != [] {
      TrimmedIdsAreValid(ids[..|ids| - 1]);
      assert ids == ids[..|ids| - 1] + [ids[|ids| - 1]];
    }
  }

  /** Reading every entry from the i-th on succeeds exactly within the per-memory and the combined budget. */
  lemma {:induction false} ReadAllFrom(entries: seq<Entry>, i: nat, budget: int, total: nat)
    requires AreDistinctIds(entries) && i <= |entries|
    ensures
      var results := ReadEntries(entries, Ids(entries)[i..], budget, total);
      && (results.Some? <==> FitEach(entries[i..]) && (i == |entries| || total + TotalChars(entries[i..]) <= budget))
      && (results.Some? ==> |results.value| == |entries| - i && SumChars(results.value) == TotalChars(entries[i..]))
    decreases |entries| - i
  {
    hide EntryOf;
    if i < |entries| {
      EntryFound(entries, i);
      var here := |entries[i].markdown|;
      ReadAllFrom(entries, i + 1, budget, total + here);
      assert Ids(entries)[i..][1..] == Ids(entries)[i + 1..] && Ids(entries)[i..][0] == entries[i].id;
      assert entries[i..][1..] == entries[i + 1..] && entries[i..][0] == entries[i];
      FitOneMore(entries, i);
      var rest := ReadEntries(entries, Ids(entries)[i + 1..], budget, total + here);
      if rest.Some? {
        var result := ReadResult(entries[i].id, entries[i].markdown, here, entries[i].metadata);
        assert ([result] + rest.value)[1..] == rest.value;
      }
    }
  }

  lemma FitOneMore(entries: seq<Entry>, i: nat)
    requires i < |entries|
    ensures FitEach(entries[i..]) <==> |entries[i].markdown| <= MAX_MEMORY_READ_CHARS && FitEach(entries[i + 1..])
  {
    assert forall k | 0 < k < |entries| - i :: entries[i..][k] == entries[i + 1..][k - 1];
    assert entries[i..][0] == entries[i];
    if |entries[i].markdown| <= MAX_MEMORY_READ_CHARS && FitEach(entries[i + 1..]) {
      forall k | 0 <= k < |entries| - i ensures |entries[i..][k].markdown| <= MAX_MEMORY_READ_CHARS {
        if k > 0 {
          assert entries[i..][k] == entries[i + 1..][k - 1];
        }
      }
    }
    if FitEach(entries[i..]) {
      var later := entries[i + 1..];
      forall k | 0 <= k < |later| ensures |later[k].markdown| <= MAX_MEMORY_READ_CHARS {
        assert later[k] == entries[i..][k + 1];
      }
    }
  }

  /** A snapshot that can be read by its own identifiers has trimmed ones. */
  lemma ReadableIdsAreTrimmed(entries: seq<Entry>, budget: int)
    requires ValidatedIds(Ids(entries)).Some?
    requires ReadEntries(entries, ValidatedIds(Ids(entries)).value, budget, 0).Some?
    ensures AreTrimmed(entries)
  {
    hide Strip, EntryOf;
    var ids, v := Ids(entries), ValidatedIds(Ids(entries)).value;
    ValidatedIdsAre(ids);
    forall i | 0 <= i < |entries| ensures entries[i].id != "" && Strip(entries[i].id) == entries[i].id {
      ReadFindsAll(entries, v, budget, 0, i);
      EntryKnown(entries, v[i]);
      var j :| 0 <= j < |entries| && entries[j].id == v[i];
      StripTwice(ids[i]);
      assert v[j] == Strip(ids[j]) == v[i];
    }
  }

  lemma StripTwice(s: string)
    ensures Strip(Strip(s)) == Strip(s)
  {
    StripTrims(s);
    StripTrims(Strip(s));
  }

  lemma {:induction false} ReadFindsAll(entries: seq<Entry>, ids: seq<string>, budget: int, total: nat, i: nat)
    requires ReadEntries(entries, ids, budget, total).Some? && i < |ids|
    ensures EntryOf(entries, ids[i]).Some?
    decreases i
  {
    if i > 0 {
      ReadFindsAll(entries, ids[1..], budget, total + |EntryOf(entries, ids[0]).value.markdown|, i - 1);
    }
  }

  lemma EligibleMeans(entries: seq<Entry>, maxDocuments: int, maxChars: int)
    requires AutoRead(entries, maxDocuments, maxChars).Some?
    ensures AutoRead(entries, maxDocuments, maxChars).value.eligible
      <==> |entries| <= maxDocuments && FitEach(entries) && TotalChars(entries) <= maxChars
    ensures AutoRead(entries, maxDocuments, maxChars).value.totalChars == TotalChars(entries)
  {
  }

  /**
   The snapshot is eligible for exhaustive reading exactly when reading all its identifiers under the same budgets
   succeeds, and the character totals agree; only identifiers with surrounding blanks stand between the two.
   */
  lemma AutoReadIff(entries: seq<Entry>, maxDocuments: int, maxChars: int)
    requires AreDistinctIds(entries) && IsBudget(maxDocuments, MAX_READ_DOCUMENTS) && IsBudget(maxChars, MAX_TOTAL_READ_CHARS)
    ensures AutoRead(entries, maxDocuments, maxChars).Some?
    ensures
      var verdict := AutoRead(entries, maxDocuments, maxChars).value;
      var results := ReadMemories(entries, Ids(entries), maxDocuments, maxChars);
      && (results.Some? <==> verdict.eligible && AreTrimmed(entries))
      && (results.Some? ==> |results.value| == |entries| && SumChars(results.value) == verdict.totalChars)
  {
    hide Strip, ReadEntries, ValidatedIds, AutoRead, TotalChars, FitEach;
    assert AutoRead(entries, maxDocuments, maxChars).Some? by { BudgetsDecide(entries, maxDocuments, maxChars); }
    EligibleMeans(entries, maxDocuments, maxChars);
    ReadAllFrom(entries, 0, maxChars, 0);
    assert Ids(entries)[0..] == Ids(entries) && entries[0..] == entries;
    if AreTrimmed(entries) {
      TrimmedIdsAreValid(Ids(entries));
    } else if ReadMemories(entries, Ids(entries), maxDocuments, maxChars).Some? {
      ReadableIdsAreTrimmed(entries, maxChars);
    }
    NothingFits(entries);
  }

  lemma BudgetsDecide(entries: seq<Entry>, maxDocuments: int, maxChars: int)
    requires IsBudget(maxDocuments, MAX_READ_DOCUMENTS) && IsBudget(maxChars, MAX_TOTAL_READ_CHARS)
    ensures AutoRead(entries, maxDocuments, maxChars).Some?
  {
  }

  lemma NothingFits(entries: seq<Entry>)
    ensures entries == [] ==> TotalChars(entries) == 0
  {
  }
}
