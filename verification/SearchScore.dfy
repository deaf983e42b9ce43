/** What a search score means, in terms of what occurs where: phrases, terms, matched fields, the best field, the snippet. */
module SearchScore {
  import opened Text
  import opened Json
  import opened MemoryMarkdown
  import opened Ranking
  import opened Retrieval
  import opened RetrievalProperties

  // ---------------------------------------------------------------- occurrences

  predicate OccursAt(part: string, s: string, i: nat) {
    i + |part| <= |s| && s[i..i + |part|] == part
  }

  predicate Occurs(part: string, s: string) {
    exists i: nat | i <= |s| :: OccursAt(part, s, i)
  }

  lemma StartsIsAtZero(s: string, part: string)
    ensures StartsWith(s, part) <==> OccursAt(part, s, 0)
  {
    if |part| <= |s| {
      assert s[0..0 + |part|] == s[..|part|];
    }
  }

  lemma OccursLater(s: string, part: string, i: nat)
    requires s != ""
    ensures OccursAt(part, s, i + 1) <==> OccursAt(part, s[1..], i)
  {
    if i + 1 + |part| <= |s| {
      assert s[i + 1..i + 1 + |part|] == s[1..][i..i + |part|];
    }
  }

  lemma OccursShift(s: string, part: string)
    requires s != ""
    ensures Occurs(part, s) <==> OccursAt(part, s, 0) || Occurs(part, s[1..])
  {
    hide OccursAt;
    if Occurs(part, s) {
      var i: nat :| i <= |s| && OccursAt(part, s, i);
      if i > 0 {
        OccursLater(s, part, i - 1);
      }
    }
    if Occurs(part, s[1..]) {
      var i: nat :| i <= |s| - 1 && OccursAt(part, s[1..], i);
      OccursLater(s, part, i);
    }
  }

  /** Finding gives the first occurrence, and -1 exactly if there is none. */
  lemma {:induction false} FindIff(s: string, part: string)
    ensures Find(s, part) == -1 <==> !Occurs(part, s)
    ensures Find(s, part) >= 0 ==>
      OccursAt(part, s, Find(s, part)) && forall i: nat | i < Find(s, part) :: !OccursAt(part, s, i)
  {
    hide StartsWith, OccursAt, Occurs;
    StartsIsAtZero(s, part);
    if StartsWith(s, part) {
      OccursSomewhere(s, part, 0);
    } else if s == "" {
      OnlyAtZero(part);
    } else {
      FindIff(s[1..], part);
      OccursShift(s, part);
      var found := Find(s[1..], part);
      if found >= 0 {
        OccursLater(s, part, found);
        forall i: nat | i < found + 1 ensures !OccursAt(part, s, i) {
          if i > 0 {
            OccursLater(s, part, i - 1);
          }
        }
      }
    }
  }

  lemma OccursSomewhere(s: string, part: string, i: nat)
    requires OccursAt(part, s, i)
    ensures Occurs(part, s)
  {
  }

  lemma OnlyAtZero(part: string)
    ensures Occurs(part, "") <==> OccursAt(part, "", 0)
  {
  }

  // ---------------------------------------------------------------- the score of one field

  /** The whole query occurs in the field. */
  predicate ShowsPhrase(field: Field, query: Query) {
    query.normalized != "" && Occurs(query.normalized, field.normalized)
  }

  /** Some term of the query is a token of the field. */
  predicate ShowsTerm(field: Field, query: Query) {
    exists term <- query.terms :: term in field.terms
  }

  predicate Matches(field: Field, query: Query) {
    ShowsPhrase(field, query) || ShowsTerm(field, query)
  }

  /** How often the terms occur, each counted at most four times. */
  function Count(occurrences: multiset<string>, terms: seq<string>): nat {
    if terms == [] then 0
    else (if occurrences[terms[0]] < 4 then occurrences[terms[0]] else 4) + Count(occurrences, terms[1..])
  }

  lemma {:induction false} TermScoreIs(field: Field, terms: seq<string>)
    ensures TermScore(field, terms) == Weight(field.name) * Count(field.terms, terms)
  {
    if terms != [] {
      TermScoreIs(field, terms[1..]);
      Distributes(Weight(field.name), Min(field.terms[terms[0]], MAX_TERM_FREQUENCY), Count(field.terms, terms[1..]));
    }
  }

  lemma Distributes(a: int, b: int, c: int)
    ensures a * b + a * c == a * (b + c)
  {
  }

  /** A field counts its term occurrences and, three times over, the phrase, by its weight. */
  lemma ScoreIs(field: Field, query: Query)
    ensures FieldScore(field, query)
      == Weight(field.name) * (Count(field.terms, query.terms) + if ShowsPhrase(field, query) then 3 else 0)
  {
    hide Find, TermScore, Count, Weight, Occurs;
    TermScoreIs(field, query.terms);
    FindIff(field.normalized, query.normalized);
    Distributes(Weight(field.name), Count(field.terms, query.terms), if ShowsPhrase(field, query) then 3 else 0);
  }

  /** The indexed fields weigh in the order in which they are listed. */
  lemma WeightsDescend()
    ensures Weight("retrieval_signature") > Weight("frontmatter") > Weight("generalized_prose") > Weight("episode_evidence") > 0
    ensures forall name :: 4 <= Weight(name) <= 12
  {
  }

  lemma {:induction false} CountZeroIff(occurrences: multiset<string>, terms: seq<string>)
    ensures Count(occurrences, terms) == 0 <==> forall term <- terms :: term !in occurrences
  {
    if terms != [] {
      CountZeroIff(occurrences, terms[1..]);
      assert terms == [terms[0]] + terms[1..];
    }
  }

  /** A field scores exactly if the phrase or a term of the query occurs in it. */
  lemma ScoresIff(field: Field, query: Query)
    ensures FieldScore(field, query) > 0 <==> Matches(field, query)
  {
    hide FieldScore, Weight, Count, Occurs;
    ScoreIs(field, query);
    WeightsDescend();
    CountZeroIff(field.terms, query.terms);
    var n := Count(field.terms, query.terms) + if ShowsPhrase(field, query) then 3 else 0;
    Positive(Weight(field.name), n);
  }

  lemma Positive(a: int, b: int)
    requires a > 0 && b >= 0
    ensures a * b > 0 <==> b > 0
  {
  }

  lemma Larger(a: int, b: int, c: int)
    requires a > 0
    ensures b >= c ==> a * b >= a * c
    ensures b > c ==> a * b > a * c
  {
  }

  /** Of two fields alike in name and terms, the one that shows the phrase scores more, by three times its weight. */
  lemma PhraseScoresMore(a: Field, b: Field, query: Query)
    requires a.name == b.name && a.terms == b.terms && ShowsPhrase(a, query) && !ShowsPhrase(b, query)
    ensures FieldScore(a, query) == FieldScore(b, query) + 3 * Weight(a.name) > FieldScore(b, query)
  {
    hide FieldScore, Weight, Count, Occurs;
    ScoreIs(a, query);
    ScoreIs(b, query);
    WeightsDescend();
    Distributes(Weight(a.name), Count(a.terms, query.terms), 3);
  }

  lemma {:induction false} CountGrows(more: multiset<string>, fewer: multiset<string>, terms: seq<string>)
    requires forall term <- terms :: fewer[term] <= more[term]
    ensures Count(fewer, terms) <= Count(more, terms)
    ensures (exists term <- terms :: fewer[term] < more[term] && fewer[term] < 4) ==> Count(fewer, terms) < Count(more, terms)
  {
    if terms != [] {
      CountGrows(more, fewer, terms[1..]);
      assert terms == [terms[0]] + terms[1..];
    }
  }

  /** More occurrences of the query's terms never score less, and score more for a term seen less than four times. */
  lemma TermsScoreMore(a: Field, b: Field, query: Query)
    requires a.name == b.name && (ShowsPhrase(b, query) ==> ShowsPhrase(a, query))
    requires forall term <- query.terms :: b.terms[term] <= a.terms[term]
    ensures FieldScore(b, query) <= FieldScore(a, query)
    ensures (exists term <- query.terms :: b.terms[term] < a.terms[term] && b.terms[term] < 4) ==>
      FieldScore(b, query) < FieldScore(a, query)
  {
    hide FieldScore, Weight, Count, Occurs;
    ScoreIs(a, query);
    ScoreIs(b, query);
    WeightsDescend();
    CountGrows(a.terms, b.terms, query.terms);
    Larger(
      Weight(a.name), Count(a.terms, query.terms) + (if ShowsPhrase(a, query) then 3 else 0),
      Count(b.terms, query.terms) + (if ShowsPhrase(b, query) then 3 else 0));
  }

  // ---------------------------------------------------------------- matched fields and the best one

  function Matching(fields: seq<Field>, query: Query): seq<string> {
    if fields == [] then []
    else if Matches(fields[0], query) then [fields[0].name] + Matching(fields[1..], query)
    else Matching(fields[1..], query)
  }

  /** The matched fields of a hit are exactly those in which the phrase or a term occurs, in order. */
  lemma {:induction false} MatchedAreMatching(fields: seq<Field>, query: Query)
    ensures MatchedFields(fields, query) == Matching(fields, query)
  {
    hide FieldScore, Matches;
    if fields != [] {
      ScoresIff(fields[0], query);
      MatchedAreMatching(fields[1..], query);
    }
  }

  /** The best field scores at least as much as any other, and more than any before it. */
  lemma {:induction false} BestFieldIsBest(fields: seq<Field>, query: Query) returns (k: nat)
    requires fields != []
    ensures k < |fields| && BestField(fields, query) == fields[k]
    ensures forall i | 0 <= i < |fields| :: FieldScore(fields[i], query) <= FieldScore(fields[k], query)
    ensures forall i | 0 <= i < k :: FieldScore(fields[i], query) < FieldScore(fields[k], query)
  {
    hide FieldScore;
    k := 0;
    if |fields| > 1 {
      var later := BestFieldIsBest(fields[1..], query);
      assert forall i | 1 <= i < |fields| :: fields[i] == fields[1..][i - 1];
      if FieldScore(fields[0], query) < FieldScore(fields[later + 1], query) {
        k := later + 1;
      }
    }
  }

  // ---------------------------------------------------------------- which memory comes first

  /** Alike in names and terms, and one shows the phrase wherever the other does, and somewhere the other does not. */
  predicate ShowsMore(a: seq<Field>, b: seq<Field>, query: Query) {
    && |a| == |b|
    && (forall i | 0 <= i < |a| ::
          a[i].name == b[i].name && a[i].terms == b[i].terms && (ShowsPhrase(b[i], query) ==> ShowsPhrase(a[i], query)))
    && exists i | 0 <= i < |a| :: ShowsPhrase(a[i], query) && !ShowsPhrase(b[i], query)
  }

  lemma {:induction false} SumGrows(a: seq<nat>, b: seq<nat>)
    requires |a| == |b| && forall i | 0 <= i < |a| :: b[i] <= a[i]
    ensures Sum(b) <= Sum(a)
    ensures (exists i | 0 <= i < |a| :: b[i] < a[i]) ==> Sum(b) < Sum(a)
  {
    if a != [] {
      SumGrows(a[1..], b[1..]);
      if exists i | 0 <= i < |a| :: b[i] < a[i] {
        var i :| 0 <= i < |a| && b[i] < a[i];
        if i > 0 {
          assert b[1..][i - 1] < a[1..][i - 1];
        }
      }
    }
  }

  lemma PhraseScoresTotal(a: Entry, b: Entry, query: Query, boost: Boost)
    requires ShowsMore(a.fields, b.fields, query) && boost(a.metadata) == boost(b.metadata)
    ensures TotalScore(a, query, boost) > TotalScore(b, query, boost)
  {
    hide FieldScore, ShowsPhrase, Sum, Weight;
    var x, y := FieldScores(a.fields, query), FieldScores(b.fields, query);
    forall i | 0 <= i < |x| ensures y[i] <= x[i] && (ShowsPhrase(a.fields[i], query) && !ShowsPhrase(b.fields[i], query) ==> y[i] < x[i]) {
      TermsScoreMore(a.fields[i], b.fields[i], query);
      if ShowsPhrase(a.fields[i], query) && !ShowsPhrase(b.fields[i], query) {
        PhraseScoresMore(a.fields[i], b.fields[i], query);
      }
    }
    SumGrows(x, y);
  }

  /** What is among the best of a search comes after every memory of the index that scores more. */
  lemma HigherComesFirst(entries: seq<Entry>, query: Query, boost: Boost, limit: nat, a: Entry, j: nat)
    requires a in entries && j < |Best(entries, query, boost, limit)|
    requires TotalScore(a, query, boost) > TotalScore(Best(entries, query, boost, limit)[j], query, boost)
    ensures exists i | 0 <= i < j :: Best(entries, query, boost, limit)[i] == a
  {
    hide TotalScore, Sort, Le;
    var best, rank := Best(entries, query, boost, limit), RankOf(query, boost);
    BestIsHeadOfOrder(entries, query, boost, limit);
    assert a in multiset(entries);
    assert a !in multiset(best) ==> a in multiset(entries) - multiset(best);
    if a in multiset(best) {
      assert a in best;
      var i :| 0 <= i < |best| && best[i] == a;
    }
  }

  /**
   Of two memories with the same names, terms and boost, the one that holds the phrase of the query in a further field is
   returned before the other.
   */
  lemma PhraseComesFirst(entries: seq<Entry>, query: Query, boost: Boost, limit: nat, a: Entry, j: nat)
    requires a in entries && j < |Best(entries, query, boost, limit)|
    requires
      var b := Best(entries, query, boost, limit)[j];
      ShowsMore(a.fields, b.fields, query) && boost(a.metadata) == boost(b.metadata)
    ensures exists i | 0 <= i < j :: Best(entries, query, boost, limit)[i] == a
  {
    hide TotalScore, Best, ShowsMore;
    PhraseScoresTotal(a, Best(entries, query, boost, limit)[j], query, boost);
    HigherComesFirst(entries, query, boost, limit, a, j);
  }

  /** The results in score and identifier: no later one scores more, and equal ones are in the order of identifiers. */
  lemma ResultsDescend(entries: seq<Entry>, query: Query, boost: Boost, limit: nat, i: nat, j: nat)
    requires i < j < |Best(entries, query, boost, limit)|
    ensures
      var best := Best(entries, query, boost, limit);
      var (x, y) := (TotalScore(best[i], query, boost), TotalScore(best[j], query, boost));
      x > y || (x == y && Le(best[i].id, best[j].id))
  {
    hide TotalScore, Sort, Le;
    BestIsHeadOfOrder(entries, query, boost, limit);
    var best, rank := Best(entries, query, boost, limit), RankOf(query, boost);
    assert RankLe(rank(best[i]), rank(best[j]));
  }

  // ---------------------------------------------------------------- the query and the snippet

  lemma {:induction false} DistinctKeeps(items: seq<string>)
    ensures forall item :: item in Distinct(items) <==> item in items
    ensures forall i, j | 0 <= i < j < |Distinct(items)| :: Distinct(items)[i] != Distinct(items)[j]
  {
    if items != [] {
      DistinctKeeps(items[..|items| - 1]);
      assert items == items[..|items| - 1] + [items[|items| - 1]];
    }
  }

  /** A query is its trimmed, normalised text and, once each, the tokens of that text. */
  lemma QueryIs(query: string, lang: Language)
    ensures ValidatedQuery(query, lang).Some? <==> Strip(query) != "" && |Strip(query)| <= 500 && '\0' !in Strip(query)
    ensures ValidatedQuery(query, lang).Some? ==>
      var parsed := ValidatedQuery(query, lang).value;
      && parsed.normalized == lang.normalize(Strip(query))
      && (forall term :: term in parsed.terms <==> term in lang.tokens(parsed.normalized))
      && forall i, j | 0 <= i < j < |parsed.terms| :: parsed.terms[i] != parsed.terms[j]
  {
    hide Strip, Distinct;
    DistinctKeeps(lang.tokens(lang.normalize(Strip(query))));
  }

  /** The first place of any of these terms. */
  lemma {:induction false} FirstOffsetIs(s: string, terms: seq<string>)
    ensures FirstOffset(s, terms) >= -1
    ensures FirstOffset(s, terms) == -1 <==> forall term <- terms :: !Occurs(term, s)
    ensures FirstOffset(s, terms) >= 0 ==>
      (exists term <- terms :: OccursAt(term, s, FirstOffset(s, terms)))
      && forall term <- terms, i: nat | i < FirstOffset(s, terms) :: !OccursAt(term, s, i)
  {
    hide Find, OccursAt;
    if terms != [] {
      FindIff(s, terms[0]);
      FirstOffsetIs(s, terms[1..]);
      assert terms == [terms[0]] + terms[1..];
      NowhereElse(s, terms[0]);
      forall term <- terms[1..] {
        NowhereElse(s, term);
      }
    }
  }

  lemma NowhereElse(s: string, part: string)
    ensures !Occurs(part, s) ==> forall i: nat :: !OccursAt(part, s, i)
  {
  }

  /** Some of these texts occurs here, and none before. */
  predicate IsFirstOf(texts: seq<string>, s: string, offset: nat) {
    && (exists text <- texts :: OccursAt(text, s, offset))
    && forall text <- texts, i: nat | i < offset :: !OccursAt(text, s, i)
  }

  /** A snippet is taken around the first phrase, without any around the first of the terms, else from the start. */
  lemma SnippetOffset(normalized: string, query: Query)
    ensures
      var offset := MatchOffset(normalized, query);
      if query.normalized != "" && Occurs(query.normalized, normalized) then IsFirstOf([query.normalized], normalized, offset)
      else if exists term <- query.terms :: Occurs(term, normalized) then IsFirstOf(query.terms, normalized, offset)
      else offset == 0
  {
    hide Find, FirstOffset, OccursAt;
    FindIff(normalized, query.normalized);
    FirstOffsetIs(normalized, query.terms);
  }

  /** A match of the length of a query lies in the window whole. */
  lemma WindowShowsMatch(length: nat, offset: nat, size: nat)
    requires offset + size <= length && size <= 500
    ensures
      var (start, end) := Window(length, offset);
      start <= offset && offset + size <= end
  {
  }

  /** Of two memories whose fields score alike the one with the greater boost scores more, by just the difference. */
  lemma BoostScoresMore(a: Entry, b: Entry, query: Query, boost: Boost)
    requires FieldScores(a.fields, query) == FieldScores(b.fields, query)
    ensures TotalScore(a, query, boost) - TotalScore(b, query, boost) == boost(a.metadata) - boost(b.metadata)
  {
    hide FieldScores, Sum;
  }

  /** The part of the text that is shown, with a mark wherever something was cut off. */
  predicate IsExcerpt(snippet: string, name: string, text: string, start: nat, end: nat) {
    && start <= end <= |text| && end - start == Min(800, |text|)
    && snippet == name + ": " + (if 0 < start then "…" else "") + text[start..end] + if end == |text| then "" else "…"
  }

  /** A snippet names its field and shows 800 characters of the text, or the whole of a shorter one; no text, no snippet. */
  lemma SnippetIs(entry: Entry, query: Query, lang: Language)
    requires entry.fields != []
    ensures
      var field := BestField(entry.fields, query);
      var text := Join(" ", Words(field.text));
      if text == "" then Snippet(entry, query, lang) == ""
      else if |text| <= 800 then Snippet(entry, query, lang) == field.name + ": " + text
      else exists start: nat, end: nat :: IsExcerpt(Snippet(entry, query, lang), field.name, text, start, end)
  {
    hide MatchOffset, BestField, Join, Words, Window;
    var field := BestField(entry.fields, query);
    var text := Join(" ", Words(field.text));
    if text != "" {
      var offset := MatchOffset(lang.normalize(text), query);
      var (start, end) := Window(|text|, offset);
      WindowIsFull(|text|, offset);
      assert IsExcerpt(Snippet(entry, query, lang), field.name, text, start, end);
      if |text| <= 800 {
        assert text[start..end] == text;
      }
    }
  }
}
