/** Sorting by a rank: higher score first, ties by identifier. */
module Ranking {
  import opened Text

  datatype Rank = Rank(score: int, id: string)

  predicate RankLe(a: Rank, b: Rank) {
    a.score > b.score || (a.score == b.score && Le(a.id, b.id))
  }

  lemma RankLeTotal(a: Rank, b: Rank)
    ensures RankLe(a, b) || RankLe(b, a)
  {
    LeTotal(a.id, b.id);
  }

  lemma RankLeTransitive(a: Rank, b: Rank, c: Rank)
    requires RankLe(a, b) && RankLe(b, c)
    ensures RankLe(a, c)
  {
    if a.score == b.score == c.score {
      LeTransitive(a.id, b.id, c.id);
    }
  }

  lemma RankLeAntisymmetric(a: Rank, b: Rank)
    requires RankLe(a, b) && RankLe(b, a)
    ensures a == b
  {
    LeTotal(a.id, b.id);
  }

  predicate IsRanked<T>(xs: seq<T>, rank: T -> Rank) {
    forall i, j | 0 <= i < j < |xs| :: RankLe(rank(xs[i]), rank(xs[j]))
  }

  function Insert<T>(x: T, xs: seq<T>, rank: T -> Rank): seq<T> {
    if xs == [] || RankLe(rank(x), rank(xs[0])) then [x] + xs else [xs[0]] + Insert(x, xs[1..], rank)
  }

  function Sort<T>(xs: seq<T>, rank: T -> Rank): seq<T> {
    if xs == [] then [] else Insert(xs[0], Sort(xs[1..], rank), rank)
  }

  lemma PrependRanked<T>(x: T, xs: seq<T>, rank: T -> Rank)
    requires IsRanked(xs, rank) && forall y <- xs :: RankLe(rank(x), rank(y))
    ensures IsRanked([x] + xs, rank)
  {
    hide RankLe;
  }

  lemma LeastIsBelow<T>(x: T, xs: seq<T>, rank: T -> Rank)
    requires xs != [] && IsRanked(xs, rank) && RankLe(rank(x), rank(xs[0]))
    ensures forall y <- xs :: RankLe(rank(x), rank(y))
  {
    hide RankLe;
    forall j | 0 <= j < |xs| ensures RankLe(rank(x), rank(xs[j])) {
      if j > 0 {
        RankLeTransitive(rank(x), rank(xs[0]), rank(xs[j]));
      }
    }
  }

  lemma {:induction false} InsertKeeps<T>(x: T, xs: seq<T>, rank: T -> Rank)
    requires IsRanked(xs, rank)
    ensures IsRanked(Insert(x, xs, rank), rank)
    ensures multiset(Insert(x, xs, rank)) == multiset([x]) + multiset(xs)
    ensures forall y <- Insert(x, xs, rank) :: y == x || y in xs
  {
    hide RankLe, IsRanked;
    if xs == [] {
      PrependRanked(x, xs, rank);
    } else if RankLe(rank(x), rank(xs[0])) {
      LeastIsBelow(x, xs, rank);
      PrependRanked(x, xs, rank);
    } else {
      TailRanked(xs, rank);
      InsertKeeps(x, xs[1..], rank);
      assert xs == [xs[0]] + xs[1..];
      HeadIsBelow(x, xs, rank);
      PrependRanked(xs[0], Insert(x, xs[1..], rank), rank);
    }
  }

  lemma HeadIsBelow<T>(x: T, xs: seq<T>, rank: T -> Rank)
    requires xs != [] && IsRanked(xs, rank) && !RankLe(rank(x), rank(xs[0]))
    ensures RankLe(rank(xs[0]), rank(x))
    ensures forall y <- xs[1..] :: RankLe(rank(xs[0]), rank(y))
  {
    RankLeTotal(rank(x), rank(xs[0]));
    hide RankLe;
  }

  lemma {:induction false} SortKeeps<T>(xs: seq<T>, rank: T -> Rank)
    ensures IsRanked(Sort(xs, rank), rank)
    ensures multiset(Sort(xs, rank)) == multiset(xs)
    ensures |Sort(xs, rank)| == |xs|
  {
    if xs != [] {
      SortKeeps(xs[1..], rank);
      InsertKeeps(xs[0], Sort(xs[1..], rank), rank);
      assert xs == [xs[0]] + xs[1..];
    }
    assert |multiset(Sort(xs, rank))| == |multiset(xs)|;
  }

  /** Elements of the same rank are the same element. */
  ghost predicate HasDistinctRanks<T(!new)>(xs: multiset<T>, rank: T -> Rank) {
    forall x, y | x in xs && y in xs && rank(x) == rank(y) :: x == y
  }

  lemma TailMultiset<T>(a: seq<T>)
    requires a != []
    ensures multiset(a[1..]) == multiset(a) - multiset{a[0]}
  {
    assert a == [a[0]] + a[1..];
  }

  lemma RemovedMultiset<T>(a: seq<T>, k: nat)
    requires k < |a|
    ensures multiset(a[..k] + a[k + 1..]) == multiset(a) - multiset{a[k]}
  {
    assert a == a[..k] + [a[k]] + a[k + 1..];
  }

  lemma SameFirst<T(!new)>(a: seq<T>, b: seq<T>, rank: T -> Rank)
    requires a != [] && b != [] && IsRanked(a, rank) && IsRanked(b, rank) && multiset(a) == multiset(b)
    requires HasDistinctRanks(multiset(a), rank)
    ensures a[0] == b[0]
  {
    FirstIsLeast(a, b, rank);
    FirstIsLeast(b, a, rank);
    RankLeAntisymmetric(rank(a[0]), rank(b[0]));
    assert a[0] in multiset(a) && b[0] in multiset(b);
  }

  lemma FewerDistinctRanks<T(!new)>(xs: multiset<T>, fewer: multiset<T>, rank: T -> Rank)
    requires HasDistinctRanks(xs, rank) && fewer <= xs
    ensures HasDistinctRanks(fewer, rank)
  {
  }

  /** There is only one ranked order. */
  lemma {:induction false} RankedIsUnique<T(!new)>(a: seq<T>, b: seq<T>, rank: T -> Rank)
    requires IsRanked(a, rank) && IsRanked(b, rank) && multiset(a) == multiset(b)
    requires HasDistinctRanks(multiset(a), rank)
    ensures a == b
  {
    hide IsRanked, HasDistinctRanks;
    SameLength(a, b);
    if a != [] {
      SameFirst(a, b, rank);
      TailMultiset(a);
      TailMultiset(b);
      FewerDistinctRanks(multiset(a), multiset(a[1..]), rank);
      TailRanked(a, rank);
      TailRanked(b, rank);
      RankedIsUnique(a[1..], b[1..], rank);
      SameParts(a, b);
    }
  }

  lemma SameLength<T>(a: seq<T>, b: seq<T>)
    requires multiset(a) == multiset(b)
    ensures |a| == |b|
  {
    assert |multiset(a)| == |a| && |multiset(b)| == |b|;
  }

  lemma TailRanked<T>(a: seq<T>, rank: T -> Rank)
    requires a != [] && IsRanked(a, rank)
    ensures IsRanked(a[1..], rank)
  {
    hide RankLe;
  }

  lemma SameParts<T>(a: seq<T>, b: seq<T>)
    requires a != [] && b != [] && a[0] == b[0] && a[1..] == b[1..]
    ensures a == b
  {
    assert a == [a[0]] + a[1..] && b == [b[0]] + b[1..];
  }

  lemma FirstIsLeast<T>(a: seq<T>, b: seq<T>, rank: T -> Rank)
    requires a != [] && b != [] && IsRanked(a, rank) && multiset(a) == multiset(b)
    ensures RankLe(rank(a[0]), rank(b[0]))
  {
    assert b[0] in multiset(b);
    assert b[0] in a;
    var k :| 0 <= k < |a| && a[k] == b[0];
    LeTotal(rank(a[0]).id, rank(a[0]).id);
  }

  /** So sorting forgets the order in which elements were supplied. */
  lemma SortIgnoresOrder<T(!new)>(a: seq<T>, b: seq<T>, rank: T -> Rank)
    requires multiset(a) == multiset(b) && HasDistinctRanks(multiset(a), rank)
    ensures Sort(a, rank) == Sort(b, rank)
  {
    SortKeeps(a, rank);
    SortKeeps(b, rank);
    RankedIsUnique(Sort(a, rank), Sort(b, rank), rank);
  }
}
