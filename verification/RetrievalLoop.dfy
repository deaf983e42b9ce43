/** The bounded retrieval loop against an arbitrary agent (`_retrieve_memory_choice` in `resolver.py`). */
module RetrievalLoop {
  import opened Text
  import opened MemoryMarkdown
  import opened Ranking
  import opened Retrieval
  import opened RetrievalProperties
  import opened BuiltIndex

  const MAX_RETRIEVAL_TURNS: nat := 10
  const MAX_SEARCH_CALLS: nat := 4
  const MAX_READ_IDS: nat := 4

  datatype Choice = NoSolution | ApplyMemory(id: string)

  /** One operation of the agent, after its own schema validation. */
  datatype Turn = SearchFor(query: string) | ReadThese(ids: seq<string>) | FinishWith(choice: Choice)

  datatype Outcome = Outcome(choice: Choice, documents: seq<string>) | Raised

  predicate IsTrimmedId(id: string) {
    id != "" && Strip(id) == id
  }

  predicate IsValidTurn(turn: Turn) {
    turn.ReadThese? ==>
      1 <= |turn.ids| <= MAX_READ_IDS && AreDifferent(turn.ids) && forall id <- turn.ids :: IsTrimmedId(id)
  }

  /** What the loop has done so far. */
  datatype Progress = Progress(searches: nat, discovered: set<string>, read: seq<string>, chars: nat)

  predicate IsWithin(p: Progress) {
    p.searches <= MAX_SEARCH_CALLS && |p.read| <= MAX_READ_DOCUMENTS && p.chars <= MAX_TOTAL_READ_CHARS
  }

  predicate AreDifferent(ids: seq<string>) {
    forall i, j | 0 <= i < j < |ids| :: ids[i] != ids[j]
  }

  function IdSet(entries: seq<Entry>): set<string> {
    set i | 0 <= i < |entries| :: entries[i].id
  }

  /** What was read is in the index, and the characters counted are exactly those of the memories read. */
  predicate IsAccounted(entries: seq<Entry>, p: Progress) {
    AreDifferent(p.read)
    && (forall id <- p.read :: id in p.discovered && EntryOf(entries, id).Some?)
    && p.discovered <= IdSet(entries)
    && p.chars == CharsOf(entries, p.read)
  }

  function CharsOf(entries: seq<Entry>, ids: seq<string>): nat {
    if ids == [] then 0
    else
      var entry := EntryOf(entries, ids[|ids| - 1]);
      CharsOf(entries, ids[..|ids| - 1]) + if entry.Some? then |entry.value.markdown| else 0
  }

  /** An accepted choice names a memory that was discovered by search and then read. */
  predicate IsGrounded(outcome: Outcome, p: Progress) {
    outcome.Outcome? && outcome.choice.ApplyMemory? ==> outcome.choice.id in p.read && outcome.choice.id in p.discovered
  }

  // ---------------------------------------------------------------- reading some more

  function ResultIds(results: seq<ReadResult>): seq<string> {
    seq(|results|, i requires 0 <= i < |results| => results[i].id)
  }

  lemma EntryHasId(entries: seq<Entry>, id: string)
    ensures EntryOf(entries, id).Some? ==> EntryOf(entries, id).value.id == id
  {
  }

  lemma ResultsStep(result: ReadResult, rest: seq<ReadResult>)
    ensures ResultIds([result] + rest) == [result.id] + ResultIds(rest)
    ensures SumChars([result] + rest) == result.charCount + SumChars(rest)
  {
    assert ([result] + rest)[1..] == rest;
  }

  predicate AreEntryResults(entries: seq<Entry>, results: seq<ReadResult>) {
    forall i | 0 <= i < |results| ::
      EntryOf(entries, results[i].id).Some? && results[i].charCount == |EntryOf(entries, results[i].id).value.markdown|
  }

  lemma {:induction false} ReadGives(entries: seq<Entry>, ids: seq<string>, budget: int, total: nat)
    requires ReadEntries(entries, ids, budget, total).Some?
    ensures
      var results := ReadEntries(entries, ids, budget, total).value;
      ResultIds(results) == ids && (ids != [] ==> total + SumChars(results) <= budget) && AreEntryResults(entries, results)
    decreases |ids|
  {
    hide EntryOf, ResultIds, SumChars;
    if ids == [] {
      NoResults();
    } else {
      EntryHasId(entries, ids[0]);
      var entry := EntryOf(entries, ids[0]).value;
      var result := ReadResult(entry.id, entry.markdown, |entry.markdown|, entry.metadata);
      var rest := ReadEntries(entries, ids[1..], budget, total + |entry.markdown|).value;
      ReadGives(entries, ids[1..], budget, total + |entry.markdown|);
      ResultsStep(result, rest);
      assert ids == [ids[0]] + ids[1..];
      if ids[1..] == [] {
        NoResults();
        assert rest == [];
      }
    }
  }

  lemma NoResults()
    ensures ResultIds([]) == [] && SumChars([]) == 0
  {
  }

  lemma {:induction false} CharsOfAppend(entries: seq<Entry>, a: seq<string>, b: seq<string>)
    ensures CharsOf(entries, a + b) == CharsOf(entries, a) + CharsOf(entries, b)
  {
    hide EntryOf;
    if b == [] {
      assert a + b == a;
    } else {
      CharsOfAppend(entries, a, b[..|b| - 1]);
      assert (a + b)[..|a + b| - 1] == a + b[..|b| - 1];
    }
  }

  lemma {:induction false} SumIsCharsOf(entries: seq<Entry>, results: seq<ReadResult>)
    requires AreEntryResults(entries, results)
    ensures SumChars(results) == CharsOf(entries, ResultIds(results))
  {
    hide EntryOf, ResultIds, SumChars;
    if results == [] {
      NoResults();
    } else {
      SumIsCharsOf(entries, results[1..]);
      assert results == [results[0]] + results[1..];
      ResultsStep(results[0], results[1..]);
      CharsOfAppend(entries, [results[0].id], ResultIds(results[1..]));
      assert [results[0].id][..0] == [];
    }
  }

  lemma DifferentAppend(a: seq<string>, b: seq<string>)
    requires AreDifferent(a) && AreDifferent(b) && forall x <- b :: x !in a
    ensures AreDifferent(a + b)
  {
    forall i, j | 0 <= i < j < |a + b| ensures (a + b)[i] != (a + b)[j] {
      if i < |a| <= j {
        assert (a + b)[j] in b;
      }
    }
  }

  /** What a successful read returns, in the loop's terms. */
  lemma ReadTotals(entries: seq<Entry>, ids: seq<string>, budget: int, results: seq<ReadResult>)
    requires ids != [] && ReadEntries(entries, ids, budget, 0) == Some(results)
    ensures ResultIds(results) == ids && SumChars(results) == CharsOf(entries, ids) <= budget
    ensures forall id <- ids :: EntryOf(entries, id).Some?
  {
    hide EntryOf;
    ReadGives(entries, ids, budget, 0);
    assert forall i | 0 <= i < |ids| :: results[i].id == ResultIds(results)[i];
    SumIsCharsOf(entries, results);
    hide ReadEntries, CharsOf, SumChars;
  }

  /** A successful read inside the remaining budgets keeps every bound. */
  lemma ReadKeeps(entries: seq<Entry>, p: Progress, ids: seq<string>, results: seq<ReadResult>)
    requires IsWithin(p) && IsAccounted(entries, p)
    requires ids != [] && AreDifferent(ids) && (forall id <- ids :: id in p.discovered && id !in p.read)
    requires |ids| <= MAX_READ_DOCUMENTS - |p.read|
    requires ReadEntries(entries, ids, MAX_TOTAL_READ_CHARS - p.chars, 0) == Some(results)
    ensures
      var next := p.(read := p.read + ResultIds(results), chars := p.chars + SumChars(results));
      IsWithin(next) && IsAccounted(entries, next) && ResultIds(results) == ids
  {
    hide EntryOf, ReadEntries, CharsOf, AreDifferent, SumChars, ResultIds;
    ReadTotals(entries, ids, MAX_TOTAL_READ_CHARS - p.chars, results);
    CharsOfAppend(entries, p.read, ids);
    DifferentAppend(p.read, ids);
  }

  function Unread(ids: seq<string>, read: seq<string>): seq<string> {
    if ids == [] then []
    else
      var earlier := Unread(ids[..|ids| - 1], read);
      if ids[|ids| - 1] in read then earlier else earlier + [ids[|ids| - 1]]
  }

  lemma {:induction false} UnreadParts(ids: seq<string>, read: seq<string>)
    requires AreDifferent(ids)
    ensures AreDifferent(Unread(ids, read))
    ensures forall id <- Unread(ids, read) :: id in ids && id !in read
    ensures forall id <- ids :: id in Unread(ids, read) || id in read
  {
    if ids != [] {
      UnreadParts(ids[..|ids| - 1], read);
    }
  }

  lemma BestIdsAreKnown(entries: seq<Entry>, query: Query, boost: Boost, limit: nat)
    ensures IdSet(Best(entries, query, boost, limit)) <= IdSet(entries)
  {
    hide Best, RankOf;
    BestIsHeadOfOrder(entries, query, boost, limit);
    var best := Best(entries, query, boost, limit);
    forall id <- IdSet(best) ensures id in IdSet(entries) {
      var i :| 0 <= i < |best| && best[i].id == id;
      assert best[i] in multiset(best);
      assert best[i] in entries;
    }
  }

  /** The identifiers of the hits of one search. */
  method SearchIds(index: MemoryRetrievalIndex, query: string, boost: Boost) returns (ids: Option<set<string>>)
    requires AreEntries(index.entries)
    ensures ids.Some? <==> ValidatedQuery(query, index.lang).Some?
    ensures ids.Some? ==> ids.value == Found(index.entries, ValidatedQuery(query, index.lang).value, boost)
  {
    var hits := index.Search(query, boost, MAX_SEARCH_RESULTS);
    if hits.None? {
      return None;
    }
    ghost var best := Best(index.entries, ValidatedQuery(query, index.lang).value, boost, MAX_SEARCH_RESULTS);
    hide ValidatedQuery, Best, IdSet, MakeHit, TotalScore, MatchedFields;
    NoIds();
    assert best[..0] == [] && best[..|best|] == best;
    var found: set<string> := {};
    for i := 0 to |hits.value|
      invariant found == IdSet(best[..i])
    {
      assert best[..i + 1] == best[..i] + [best[i]];
      OneMoreId(best[..i], best[i]);
      found := found + {hits.value[i].id};
    }
    return Some(found);
  }

  lemma NoIds()
    ensures IdSet([]) == {}
  {
  }

  lemma OneMoreId(entries: seq<Entry>, entry: Entry)
    ensures IdSet(entries + [entry]) == IdSet(entries) + {entry.id}
  {
    var more := entries + [entry];
    assert more[|entries|] == entry && forall i | 0 <= i < |entries| :: more[i] == entries[i];
    forall id <- IdSet(entries) + {entry.id} ensures id in IdSet(more) {
      if id in IdSet(entries) {
        var i :| 0 <= i < |entries| && entries[i].id == id;
        assert more[i].id == id;
      }
    }
  }

  /** `read` as the loop calls it: always with valid budgets. */
  method ReadWithin(index: MemoryRetrievalIndex, ids: seq<string>, maxDocuments: int, maxChars: int)
    returns (results: Option<seq<ReadResult>>)
    requires IsBudget(maxDocuments, MAX_READ_DOCUMENTS) && IsBudget(maxChars, MAX_TOTAL_READ_CHARS)
    requires (forall id <- ids :: IsTrimmedId(id)) && AreDifferent(ids) && |ids| <= maxDocuments
    ensures results == ReadEntries(index.entries, ids, maxChars, 0)
  {
    hide Strip;
    assert forall i | 0 <= i < |ids| :: IsTrimmedId(ids[i]);
    TrimmedIdsAreValid(ids);
    results := index.Read(ids, maxDocuments, maxChars);
  }

  // ---------------------------------------------------------------- the turns of the agent

  /** What the agent may answer, as far as its schema lets it; `None` when it fails to. */
  type Answer = Option<Turn>

  predicate AreAnswers(answers: seq<Answer>) {
    |answers| == MAX_RETRIEVAL_TURNS && forall i | 0 <= i < |answers| :: answers[i].Some? ==> IsValidTurn(answers[i].value)
  }

  /** What one search discovers. */
  function Found(entries: seq<Entry>, query: Query, boost: Boost): set<string> {
    IdSet(Best(entries, query, boost, MAX_SEARCH_RESULTS))
  }

  /** These memories are there, none is too long, and together they fit into what is left. */
  predicate FitIn(entries: seq<Entry>, ids: seq<string>, chars: int) {
    (forall id <- ids :: EntryOf(entries, id).Some? && |EntryOf(entries, id).value.markdown| <= MAX_MEMORY_READ_CHARS)
    && CharsOf(entries, ids) <= chars
  }

  /** A read is granted: nothing new in it, or only discovered memories that fit into what is left of both budgets. */
  predicate IsReadable(entries: seq<Entry>, p: Progress, ids: seq<string>) {
    var wanted := Unread(ids, p.read);
    wanted == []
    || ((forall id <- wanted :: id in p.discovered) && |p.read| + |wanted| <= 4
        && p.chars < 300_000 && FitIn(entries, wanted, 300_000 - p.chars))
  }

  /** The loop goes on after this turn: a search or a read within the budgets, or a conclusion that comes too early. */
  predicate GoesOn(entries: seq<Entry>, lang: Language, p: Progress, turn: Turn) {
    match turn
    case SearchFor(query) => p.searches < 4 && ValidatedQuery(query, lang).Some?
    case ReadThese(ids) => IsReadable(entries, p, ids)
    case FinishWith(choice) => choice.NoSolution? && (p.searches == 0 || p.read == [])
  }

  function Onward(entries: seq<Entry>, lang: Language, boost: Boost, p: Progress, turn: Turn): Progress
    requires GoesOn(entries, lang, p, turn)
  {
    match turn
    case SearchFor(query) =>
      p.(searches := p.searches + 1, discovered := p.discovered + Found(entries, ValidatedQuery(query, lang).value, boost))
    case ReadThese(ids) =>
      p.(read := p.read + Unread(ids, p.read), chars := p.chars + CharsOf(entries, Unread(ids, p.read)))
    case FinishWith(_) => p
  }

  /** What the loop has done after these turns, if it went on after each of them. */
  function After(entries: seq<Entry>, lang: Language, boost: Boost, answers: seq<Answer>): Option<Progress> {
    if answers == [] then Some(Progress(0, {}, [], 0))
    else
      var earlier, last := After(entries, lang, boost, answers[..|answers| - 1]), answers[|answers| - 1];
      if earlier.None? || last.None? || !GoesOn(entries, lang, earlier.value, last.value) then None
      else Some(Onward(entries, lang, boost, earlier.value, last.value))
  }

  /** How the loop ends at a turn after which it does not go on. */
  function Ended(p: Progress, answer: Answer): Outcome {
    if answer.None? then Raised
    else
      match answer.value
      case SearchFor(_) => if p.searches < 4 then Raised else Outcome(NoSolution, p.read)
      case ReadThese(_) => Outcome(NoSolution, p.read)
      case FinishWith(choice) =>
        Outcome(if choice.ApplyMemory? && choice.id !in p.read then NoSolution else choice, p.read)
  }

  lemma {:induction false} CharsOfOne(entries: seq<Entry>, id: string)
    ensures CharsOf(entries, [id]) == if EntryOf(entries, id).Some? then |EntryOf(entries, id).value.markdown| else 0
  {
    assert [id][..0] == [];
  }

  /** Reading succeeds if and only if all that is asked for is there and fits. */
  lemma {:induction false} ReadIff(entries: seq<Entry>, ids: seq<string>, budget: int, total: nat)
    requires ids != []
    ensures ReadEntries(entries, ids, budget, total).Some? <==> FitIn(entries, ids, budget - total)
    decreases |ids|
  {
    hide EntryOf, CharsOf;
    var entry := EntryOf(entries, ids[0]);
    assert ids == [ids[0]] + ids[1..];
    CharsOfAppend(entries, [ids[0]], ids[1..]);
    CharsOfOne(entries, ids[0]);
    if entry.Some? && ids[1..] != [] {
      ReadIff(entries, ids[1..], budget, total + |entry.value.markdown|);
    }
    if ids[1..] == [] {
      NoChars(entries);
    }
  }

  lemma NoChars(entries: seq<Entry>)
    ensures CharsOf(entries, []) == 0
  {
  }

  /** A read turn reads all that is new in it, or is refused, and refused exactly if it is not readable. */
  method TakeReadTurn(index: MemoryRetrievalIndex, p: Progress, ids: seq<string>) returns (next: Option<Progress>)
    requires IsValidTurn(ReadThese(ids)) && IsWithin(p) && IsAccounted(index.entries, p)
    ensures next.Some? <==> IsReadable(index.entries, p, ids)
    ensures next.Some? ==>
      IsWithin(next.value) && IsAccounted(index.entries, next.value)
      && next.value.searches == p.searches && next.value.discovered == p.discovered
      && next.value.read == p.read + Unread(ids, p.read)
      && next.value.chars == p.chars + CharsOf(index.entries, Unread(ids, p.read))
      && forall id <- ids :: id in next.value.read
  {
    hide EntryOf, IsTrimmedId, CharsOf, ReadEntries, FitIn;
    var requested := Unread(ids, p.read);
    UnreadParts(ids, p.read);
    if requested == [] {
      NoChars(index.entries);
      return Some(p);
    }
    if !(forall id <- requested :: id in p.discovered) {
      return None;
    }
    var remainingDocuments := MAX_READ_DOCUMENTS - |p.read|;
    var remainingChars := MAX_TOTAL_READ_CHARS - p.chars;
    if |requested| > remainingDocuments || remainingChars <= 0 {
      return None;
    }
    ReadIff(index.entries, requested, remainingChars, 0);
    var results := ReadWithin(index, requested, remainingDocuments, remainingChars);
    if results.None? {
      return None;
    }
    ReadKeeps(index.entries, p, requested, results.value);
    ReadTotals(index.entries, requested, remainingChars, results.value);
    hide IsWithin, IsAccounted, ResultIds, SumChars;
    return Some(p.(read := p.read + ResultIds(results.value), chars := p.chars + SumChars(results.value)));
  }

  lemma AfterNone(entries: seq<Entry>, lang: Language, boost: Boost)
    ensures After(entries, lang, boost, []) == Some(Progress(0, {}, [], 0))
  {
  }

  lemma OneMoreTurn(entries: seq<Entry>, lang: Language, boost: Boost, answers: seq<Answer>, t: nat)
    requires t < |answers| && After(entries, lang, boost, answers[..t]).Some?
    ensures
      var p := After(entries, lang, boost, answers[..t]).value;
      After(entries, lang, boost, answers[..t + 1])
      == if answers[t].Some? && GoesOn(entries, lang, p, answers[t].value)
         then Some(Onward(entries, lang, boost, p, answers[t].value)) else None
  {
    hide GoesOn, Onward;
    assert answers[..t + 1][..t] == answers[..t];
  }

  /** When the agent's last word was an accepted memory. */
  predicate IsApplied(entries: seq<Entry>, lang: Language, boost: Boost, answers: seq<Answer>, t: nat, id: string) {
    t < |answers| && answers[t] == Some(FinishWith(ApplyMemory(id)))
    && After(entries, lang, boost, answers[..t]).Some? && id in After(entries, lang, boost, answers[..t]).value.read
  }

  predicate Applies(outcome: Outcome, id: string) {
    outcome.Outcome? && outcome.choice == ApplyMemory(id)
  }

  /** At some turn the agent chose this memory, and the loop accepted it. */
  ghost predicate IsChosen(entries: seq<Entry>, lang: Language, boost: Boost, answers: seq<Answer>, id: string) {
    exists t: nat :: IsApplied(entries, lang, boost, answers, t, id)
  }

  /** The outcome applies just what was chosen, or nothing if nothing was. */
  ghost predicate AppliesTheChosen(
      outcome: Outcome, entries: seq<Entry>, lang: Language, boost: Boost, answers: seq<Answer>)
  {
    forall id :: Applies(outcome, id) <==> IsChosen(entries, lang, boost, answers, id)
  }

  /** Two turns cannot both be the last. */
  lemma {:induction false} AfterPrefix(entries: seq<Entry>, lang: Language, boost: Boost, answers: seq<Answer>, t: nat, u: nat)
    requires t <= u <= |answers| && After(entries, lang, boost, answers[..u]).Some?
    ensures After(entries, lang, boost, answers[..t]).Some?
    decreases u
  {
    hide GoesOn, Onward;
    if t < u {
      assert answers[..u][..u - 1] == answers[..u - 1];
      AfterPrefix(entries, lang, boost, answers, t, u - 1);
    }
  }

  /** The loop ends at this turn: it went on after all before, and does not go on after it. */
  predicate IsLastTurn(entries: seq<Entry>, lang: Language, boost: Boost, answers: seq<Answer>, t: nat) {
    t < |answers| && After(entries, lang, boost, answers[..t]).Some? && After(entries, lang, boost, answers[..t + 1]).None?
  }

  lemma AppliedAtTheEnd(entries: seq<Entry>, lang: Language, boost: Boost, answers: seq<Answer>, t: nat, id: string)
    requires IsLastTurn(entries, lang, boost, answers, t)
    ensures
      var outcome := Ended(After(entries, lang, boost, answers[..t]).value, answers[t]);
      Applies(outcome, id) <==> IsChosen(entries, lang, boost, answers, id)
  {
    hide After, GoesOn;
    if IsApplied(entries, lang, boost, answers, t, id) {
    }
    forall u: nat | IsApplied(entries, lang, boost, answers, u, id) ensures u == t {
      AppliedEnds(entries, lang, boost, answers, u, id);
      if u < t {
        AfterPrefix(entries, lang, boost, answers, u + 1, t);
      } else if t < u {
        AfterPrefix(entries, lang, boost, answers, t + 1, u);
      }
    }
  }

  lemma AppliedEnds(entries: seq<Entry>, lang: Language, boost: Boost, answers: seq<Answer>, t: nat, id: string)
    requires IsApplied(entries, lang, boost, answers, t, id)
    ensures After(entries, lang, boost, answers[..t + 1]).None?
  {
    OneMoreTurn(entries, lang, boost, answers, t);
    hide After;
  }

  lemma NotAppliedYet(entries: seq<Entry>, lang: Language, boost: Boost, answers: seq<Answer>, id: string)
    requires After(entries, lang, boost, answers[..|answers|]).Some?
    ensures !IsChosen(entries, lang, boost, answers, id)
  {
    hide After, IsApplied;
    forall u: nat ensures !IsApplied(entries, lang, boost, answers, u, id) {
      if IsApplied(entries, lang, boost, answers, u, id) {
        AppliedEnds(entries, lang, boost, answers, u, id);
        AppliedInTime(entries, lang, boost, answers, u, id);
        AfterPrefix(entries, lang, boost, answers, u + 1, |answers|);
      }
    }
  }

  lemma NothingChosen(entries: seq<Entry>, lang: Language, boost: Boost, answers: seq<Answer>, outcome: Outcome)
    requires After(entries, lang, boost, answers[..|answers|]).Some? && outcome.Outcome? && outcome.choice.NoSolution?
    ensures AppliesTheChosen(outcome, entries, lang, boost, answers)
  {
    hide After, IsChosen;
    forall id ensures Applies(outcome, id) <==> IsChosen(entries, lang, boost, answers, id) {
      NotAppliedYet(entries, lang, boost, answers, id);
    }
  }

  lemma AppliedInTime(entries: seq<Entry>, lang: Language, boost: Boost, answers: seq<Answer>, t: nat, id: string)
    requires IsApplied(entries, lang, boost, answers, t, id)
    ensures t < |answers|
  {
  }

  /** A search keeps what is accounted for. */
  lemma SearchKeeps(entries: seq<Entry>, p: Progress, query: Query, boost: Boost)
    requires IsWithin(p) && IsAccounted(entries, p) && p.searches < MAX_SEARCH_CALLS
    ensures
      var next := p.(searches := p.searches + 1, discovered := p.discovered + Found(entries, query, boost));
      IsWithin(next) && IsAccounted(entries, next)
  {
    hide EntryOf, CharsOf, Best;
    BestIdsAreKnown(entries, query, boost, MAX_SEARCH_RESULTS);
  }

  /**
   The loop over agent turns, for whatever the agent answers. It goes on as long as each turn lets it and ends just as its
   last one says; it stays within 10 turns, 4 searches, 4 documents and 300,000 characters; and it accepts a memory if and
   only if the agent chose it at a turn by which it had been discovered and read.
   */
  method Browse(index: MemoryRetrievalIndex, boost: Boost, answers: seq<Answer>)
    returns (outcome: Outcome, p: Progress, turns: nat)
    requires AreEntries(index.entries) && AreAnswers(answers)
    ensures IsWithin(p) && IsAccounted(index.entries, p)
    ensures 1 <= turns <= 10
    ensures After(index.entries, index.lang, boost, answers[..turns]).Some? ==> turns == 10 && outcome == Outcome(NoSolution, p.read)
    ensures After(index.entries, index.lang, boost, answers[..turns]).None? ==>
      After(index.entries, index.lang, boost, answers[..turns - 1]) == Some(p) && outcome == Ended(p, answers[turns - 1])
    ensures IsGrounded(outcome, p) && (outcome.Outcome? ==> outcome.documents == p.read)
    ensures AppliesTheChosen(outcome, index.entries, index.lang, boost, answers)
  {
    hide EntryOf, IsValidTurn, CharsOf, ValidatedQuery, After, IsAccounted, IsWithin, Found, IsReadable, IsApplied, AppliesTheChosen;
    ghost var entries, lang := index.entries, index.lang;
    p := Progress(0, {}, [], 0);
    NothingRead(entries);
    AfterNone(entries, lang, boost);
    assert answers[..0] == [];
    turns := 0;
    while turns < MAX_RETRIEVAL_TURNS
      invariant turns <= MAX_RETRIEVAL_TURNS
      invariant IsWithin(p) && IsAccounted(index.entries, p)
      invariant After(entries, lang, boost, answers[..turns]) == Some(p)
    {
      var answer := answers[turns];
      OneMoreTurn(entries, lang, boost, answers, turns);
      turns := turns + 1;
      var next := TakeTurn(index, boost, p, answer);
      if next.Ends? {
        LastTurn(entries, lang, boost, answers, turns - 1, p, next.outcome);
        return next.outcome, p, turns;
      }
      p := next.progress;
    }
    assert answers[..turns] == answers[..|answers|];
    NothingChosen(entries, lang, boost, answers, Outcome(NoSolution, p.read));
    return Outcome(NoSolution, p.read), p, turns;
  }

  datatype Next = Continues(progress: Progress) | Ends(outcome: Outcome)

  /** One round of the loop. */
  method TakeTurn(index: MemoryRetrievalIndex, boost: Boost, p: Progress, answer: Answer) returns (next: Next)
    requires AreEntries(index.entries) && (answer.Some? ==> IsValidTurn(answer.value))
    requires IsWithin(p) && IsAccounted(index.entries, p)
    ensures next.Continues? <==> answer.Some? && GoesOn(index.entries, index.lang, p, answer.value)
    ensures next.Continues? ==>
      next.progress == Onward(index.entries, index.lang, boost, p, answer.value)
      && IsWithin(next.progress) && IsAccounted(index.entries, next.progress)
    ensures next.Ends? ==> next.outcome == Ended(p, answer)
  {
    hide EntryOf, CharsOf, ValidatedQuery, IsAccounted, IsWithin, Found, IsReadable;
    if answer.None? {
      return Ends(Raised);
    }
    match answer.value {
      case SearchFor(query) =>
        if p.searches >= MAX_SEARCH_CALLS {
          return Ends(Outcome(NoSolution, p.read));
        }
        var hits := SearchIds(index, query, boost);
        if hits.None? {
          return Ends(Raised);
        }
        SearchKeeps(index.entries, p, ValidatedQuery(query, index.lang).value, boost);
        return Continues(p.(searches := p.searches + 1, discovered := p.discovered + hits.value));
      case ReadThese(ids) =>
        var more := TakeReadTurn(index, p, ids);
        return if more.Some? then Continues(more.value) else Ends(Outcome(NoSolution, p.read));
      case FinishWith(choice) =>
        if choice.NoSolution? && (p.searches == 0 || p.read == []) {
          return Continues(p);
        }
        if choice.ApplyMemory? && choice.id !in p.read {
          return Ends(Outcome(NoSolution, p.read));
        }
        return Ends(Outcome(choice, p.read));
    }
  }

  lemma LastTurn(
      entries: seq<Entry>, lang: Language, boost: Boost, answers: seq<Answer>, t: nat, p: Progress, outcome: Outcome)
    requires t < |answers| && After(entries, lang, boost, answers[..t]) == Some(p) && IsAccounted(entries, p)
    requires After(entries, lang, boost, answers[..t + 1]).None? && outcome == Ended(p, answers[t])
    ensures IsGrounded(outcome, p) && (outcome.Outcome? ==> outcome.documents == p.read)
    ensures AppliesTheChosen(outcome, entries, lang, boost, answers)
  {
    hide After, CharsOf, EntryOf, IsChosen;
    forall id ensures Applies(outcome, id) <==> IsChosen(entries, lang, boost, answers, id) {
      AppliedAtTheEnd(entries, lang, boost, answers, t, id);
    }
  }

  lemma NothingRead(entries: seq<Entry>)
    ensures IsWithin(Progress(0, {}, [], 0)) && IsAccounted(entries, Progress(0, {}, [], 0))
  {
  }

  /** `choose_memory` refuses an identifier it was not given. */
  method ChooseMemory(ids: seq<string>, answer: Option<Choice>) returns (choice: Option<Choice>)
    ensures choice.Some? <==> answer.Some? && (answer.value.ApplyMemory? ==> answer.value.id in ids)
    ensures choice.Some? ==> choice == answer
  {
    if answer.Some? && answer.value.ApplyMemory? && answer.value.id !in ids {
      return None;
    }
    return answer;
  }

  /** All of it may be read at once. */
  predicate FitWhole(entries: seq<Entry>) {
    |entries| <= 4 && TotalChars(entries) <= 300_000
    && forall i | 0 <= i < |entries| :: |entries[i].markdown| <= MAX_MEMORY_READ_CHARS
  }

  lemma WholeIff(entries: seq<Entry>)
    ensures AutoRead(entries, MAX_READ_DOCUMENTS, MAX_TOTAL_READ_CHARS).Some?
    ensures AutoRead(entries, MAX_READ_DOCUMENTS, MAX_TOTAL_READ_CHARS).value.eligible <==> FitWhole(entries)
    ensures FitWhole(entries) ==> AutoRead(entries, MAX_READ_DOCUMENTS, MAX_TOTAL_READ_CHARS).value.ids == Ids(entries)
  {
    hide TotalChars;
  }

  /** The whole index in one read, which never fails, and one choice among all of it. */
  method ChooseFromAll(index: MemoryRetrievalIndex, answer: Option<Choice>) returns (outcome: Outcome)
    requires AreEntries(index.entries) && AreDistinctIds(index.entries) && AreTrimmed(index.entries)
    requires index.entries != [] && FitWhole(index.entries)
    ensures outcome.Raised? <==> answer.None? || (answer.value.ApplyMemory? && answer.value.id !in Ids(index.entries))
    ensures outcome.Outcome? ==> outcome == Outcome(answer.value, Ids(index.entries))
    ensures AreDifferent(Ids(index.entries)) && CharsOf(index.entries, Ids(index.entries)) <= MAX_TOTAL_READ_CHARS
    ensures forall id <- Ids(index.entries) :: id in IdSet(index.entries)
  {
    hide AreTrimmed, AreDistinctIds, CharsOf, TotalChars, AreEntries;
    WholeIff(index.entries);
    AutoReadIff(index.entries, MAX_READ_DOCUMENTS, MAX_TOTAL_READ_CHARS);
    hide AutoRead, FitWhole;
    var results := index.Read(Ids(index.entries), MAX_READ_DOCUMENTS, MAX_TOTAL_READ_CHARS);
    WholeRead(index.entries, results.value);
    var ids := ResultIds(results.value);
    var choice := ChooseMemory(ids, answer);
    return if choice.None? then Raised else Outcome(choice.value, ids);
  }

  /** A small enough index is read whole and never fails to be read; otherwise the agent browses. */
  method ChooseFrom(index: MemoryRetrievalIndex, boost: Boost, answer: Option<Choice>, answers: seq<Answer>)
    returns (outcome: Outcome)
    requires AreEntries(index.entries) && AreDistinctIds(index.entries) && AreTrimmed(index.entries)
    requires AreAnswers(answers)
    ensures index.entries != [] && FitWhole(index.entries) ==>
      (outcome.Raised? <==> answer.None? || (answer.value.ApplyMemory? && answer.value.id !in Ids(index.entries)))
      && (outcome.Outcome? ==> outcome == Outcome(answer.value, Ids(index.entries)))
    ensures index.entries == [] || !FitWhole(index.entries) ==>
      AppliesTheChosen(outcome, index.entries, index.lang, boost, answers)
    ensures outcome.Outcome? ==>
      |outcome.documents| <= MAX_READ_DOCUMENTS && AreDifferent(outcome.documents)
      && CharsOf(index.entries, outcome.documents) <= MAX_TOTAL_READ_CHARS
      && forall id <- outcome.documents :: id in IdSet(index.entries)
    ensures outcome.Outcome? && outcome.choice.ApplyMemory? ==>
      outcome.choice.id in outcome.documents && outcome.choice.id in IdSet(index.entries)
  {
    hide AreTrimmed, AreDistinctIds, CharsOf, TotalChars, AreEntries, AppliesTheChosen, After, AreDifferent, EntryOf;
    WholeIff(index.entries);
    var auto := AutoRead(index.entries, MAX_READ_DOCUMENTS, MAX_TOTAL_READ_CHARS);
    hide AutoRead;
    if auto.value.eligible && auto.value.ids != [] {
      outcome := ChooseFromAll(index, answer);
    } else {
      var p: Progress, turns: nat;
      outcome, p, turns := Browse(index, boost, answers);
    }
  }

  function Named(documents: seq<Document>): seq<Supplied> {
    seq(|documents|, i requires 0 <= i < |documents| => (DocumentId(documents[i]), documents[i]))
  }

  /**
   `_retrieve_memory_choice` over documents of the store. Whatever it returns was read within the budgets, and every
   document it returns, an accepted memory in particular, is an execution candidate of the snapshot.
   */
  method RetrieveMemoryChoice(
      documents: seq<Document>, lang: Language, boost: Boost, answer: Option<Choice>, answers: seq<Answer>)
    returns (outcome: Outcome)
    requires AreAnswers(answers)
    requires AreUnique(documents) && forall i | 0 <= i < |documents| :: IsStored(documents[i])
    ensures Build(Named(documents), lang, MAX_INDEX_DOCUMENTS, MAX_INDEX_CHARS).None? ==> outcome.Raised?
    ensures outcome.Outcome? ==>
      var entries := Build(Named(documents), lang, MAX_INDEX_DOCUMENTS, MAX_INDEX_CHARS).value;
      && |outcome.documents| <= MAX_READ_DOCUMENTS && AreDifferent(outcome.documents)
      && CharsOf(entries, outcome.documents) <= MAX_TOTAL_READ_CHARS
      && forall id <- outcome.documents :: IsCandidateId(Named(documents), id)
    ensures outcome.Outcome? && outcome.choice.ApplyMemory? ==>
      outcome.choice.id in outcome.documents && IsCandidateId(Named(documents), outcome.choice.id)
  {
    hide Build, IsStored, DocumentId, IsCandidateId, IsCandidateEntry, AreTrimmed, HaveTrimmedIds, CharsOf, Kept;
    var index := NewIndex(Named(documents), lang, MAX_INDEX_DOCUMENTS, MAX_INDEX_CHARS);
    if index.None? {
      return Raised;
    }
    ghost var entries := index.value.entries;
    BuildSound(Named(documents), lang, MAX_INDEX_DOCUMENTS, MAX_INDEX_CHARS);
    StoredIdsAreTrimmed(Named(documents));
    TrimmedIff(Named(documents), entries);
    outcome := ChooseFrom(index.value, boost, answer, answers);
    assert forall id <- IdSet(entries) :: id in Ids(entries) by {
      forall i | 0 <= i < |entries| ensures entries[i].id in Ids(entries) {
        assert Ids(entries)[i] == entries[i].id;
      }
    }
  }

  lemma WholeRead(entries: seq<Entry>, results: seq<ReadResult>)
    requires AreDistinctIds(entries) && AreTrimmed(entries)
    requires AutoRead(entries, MAX_READ_DOCUMENTS, MAX_TOTAL_READ_CHARS).value.eligible
    requires ReadMemories(entries, Ids(entries), MAX_READ_DOCUMENTS, MAX_TOTAL_READ_CHARS) == Some(results)
    ensures ResultIds(results) == Ids(entries) && AreDifferent(Ids(entries)) && |entries| <= MAX_READ_DOCUMENTS
    ensures CharsOf(entries, ResultIds(results)) <= MAX_TOTAL_READ_CHARS
    ensures forall id <- Ids(entries) :: id in IdSet(entries)
  {
    hide EntryOf, ReadEntries, AutoRead, CharsOf, AreTrimmed, ValidatedIds, AreDistinctIds, FitEach, TotalChars, SumChars;
    BudgetsDecide(entries, MAX_READ_DOCUMENTS, MAX_TOTAL_READ_CHARS);
    EligibleMeans(entries, MAX_READ_DOCUMENTS, MAX_TOTAL_READ_CHARS);
    AutoReadIff(entries, MAX_READ_DOCUMENTS, MAX_TOTAL_READ_CHARS);
    WholeIds(entries);
    if entries == [] {
      NothingRead(entries);
      assert Ids(entries) == [] && ResultIds(results) == [];
    } else {
      ReadTotals(entries, Ids(entries), MAX_TOTAL_READ_CHARS, results);
    }
  }

  lemma WholeIds(entries: seq<Entry>)
    requires AreDistinctIds(entries) && AreTrimmed(entries)
    ensures ValidatedIds(Ids(entries)) == Some(Ids(entries)) && AreDifferent(Ids(entries))
    ensures forall id <- Ids(entries) :: id in IdSet(entries)
  {
    hide Strip;
    TrimmedIdsAreValid(Ids(entries));
  }
}
