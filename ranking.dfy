/**
 * The ranking of assets by mean Shannon index: pandas'
 * `Series.rank(ascending=False)` with its default "average" method, and
 * `Series.sort_values(ascending=False)`.
 */
module Ranking {
  import opened Values

  /** How many of the means are strictly greater than `m`. */
  function CountAbove(means: seq<real>, m: real): nat
  {
    if means == [] then 0 else CountAbove(means[1..], m) + (if means[0] > m then 1 else 0)
  }

  /** How many of the means equal `m`: the size of its tie group. */
  function CountEqual(means: seq<real>, m: real): nat
  {
    if means == [] then 0 else CountEqual(means[1..], m) + (if means[0] == m then 1 else 0)
  }

  /**
   * Descending average rank: a tie group that would take positions
   * g + 1 .. g + t, where g values are greater, gets their mean g + (t + 1) / 2.
   */
  function AverageRank(means: seq<real>, m: real): real
  {
    CountAbove(means, m) as real + (CountEqual(means, m) as real + 1.0) / 2.0
  }

  lemma {:induction false} CountsWithin(means: seq<real>, m: real)
    ensures CountAbove(means, m) + CountEqual(means, m) <= |means|
    ensures m in means ==> CountEqual(means, m) >= 1
  {
    if means != [] {
      CountsWithin(means[1..], m);
      assert m in means ==> means[0] == m || m in means[1..];
    }
  }

  /** Everything above or tied with a larger mean `a` is above a smaller `b`. */
  lemma {:induction false} CountAboveGrows(means: seq<real>, a: real, b: real)
    requires a > b
    ensures CountAbove(means, b) >= CountAbove(means, a) + CountEqual(means, a)
  {
    if means != [] {
      CountAboveGrows(means[1..], a, b);
    }
  }

  /** Every rank lies between 1 and the number of assets ranked. */
  lemma RankBounds(means: seq<real>, m: real)
    requires m in means
    ensures 1.0 <= AverageRank(means, m) <= |means| as real
  {
    CountsWithin(means, m);
  }

  /** An asset with a strictly higher mean gets a strictly smaller (better) rank. */
  lemma HigherMeanBetterRank(means: seq<real>, a: real, b: real)
    requires a in means && a > b
    ensures AverageRank(means, a) < AverageRank(means, b)
  {
    CountsWithin(means, a);
    CountAboveGrows(means, a, b);
  }

  /** A mean at least as high never gets a worse rank; equal means share their rank. */
  lemma AverageRankMonotone(means: seq<real>, a: real, b: real)
    requires a in means && a >= b
    ensures AverageRank(means, a) <= AverageRank(means, b)
  {
    if a > b {
      HigherMeanBetterRank(means, a, b);
    }
  }

  /** `int(rank)`, the number the report prints, stays between 1 and the number of assets. */
  lemma PrintedRankBounds(means: seq<real>, m: real)
    requires m in means
    ensures 1 <= AverageRank(means, m).Floor <= |means|
  {
    RankBounds(means, m);
  }

  // ---------------------------------------------------------------------
  // Sorting asset ids by descending mean

  /** An asset id with its mean Shannon index. */
  type Scored = (Value, real)

  predicate Descending(s: seq<Scored>)
  {
    forall i, j :: 0 <= i < j < |s| ==> s[i].1 >= s[j].1
  }

  /** The first components of a sequence of pairs: the ids of scored entries, the names of coverage entries. */
  function Ids<K, V>(s: seq<(K, V)>): (ids: seq<K>)
    ensures |ids| == |s|
  {
    seq(|s|, i requires 0 <= i < |s| => s[i].0)
  }

  function InsertDesc(p: Scored, s: seq<Scored>): seq<Scored>
  {
    if s == [] then [p]
    else if p.1 >= s[0].1 then [p] + s
    else [s[0]] + InsertDesc(p, s[1..])
  }

  /** `sort_values(ascending=False)`: insertion sort, keeping earlier entries first among ties. */
  function SortDesc(s: seq<Scored>): seq<Scored>
  {
    if s == [] then [] else InsertDesc(s[0], SortDesc(s[1..]))
  }

  lemma IdsCons(p: Scored, s: seq<Scored>)
    ensures Ids([p] + s) == [p.0] + Ids(s)
  {
  }

  /** Inserting adds `p` and nothing else. */
  lemma {:induction false} InsertDescElements(p: Scored, s: seq<Scored>)
    ensures multiset(InsertDesc(p, s)) == multiset(s) + multiset{p}
  {
    if s != [] && p.1 < s[0].1 {
      InsertDescElements(p, s[1..]);
      assert s == [s[0]] + s[1..];
    }
  }

  lemma {:induction false} InsertDescIds(p: Scored, s: seq<Scored>)
    ensures multiset(Ids(InsertDesc(p, s))) == multiset(Ids(s)) + multiset{p.0}
  {
    if s == [] {
    } else if p.1 >= s[0].1 {
      IdsCons(p, s);
    } else {
      InsertDescIds(p, s[1..]);
      assert s == [s[0]] + s[1..];
      IdsCons(s[0], InsertDesc(p, s[1..]));
      IdsCons(s[0], s[1..]);
    }
  }

  lemma {:induction false} InsertDescSorted(p: Scored, s: seq<Scored>)
    requires Descending(s)
    ensures Descending(InsertDesc(p, s))
  {
    if s != [] && p.1 < s[0].1 {
      var t := InsertDesc(p, s[1..]);
      InsertDescSorted(p, s[1..]);
      InsertDescElements(p, s[1..]);
      forall j | 0 <= j < |t|
        ensures s[0].1 >= t[j].1
      {
        assert t[j] in multiset(t);
        if t[j] != p {
          assert t[j] in s[1..];
        }
      }
    }
  }

  lemma {:induction false} SortDescSorted(s: seq<Scored>)
    ensures Descending(SortDesc(s))
  {
    if s != [] {
      SortDescSorted(s[1..]);
      InsertDescSorted(s[0], SortDesc(s[1..]));
    }
  }

  lemma {:induction false} SortDescPermutes(s: seq<Scored>)
    ensures multiset(SortDesc(s)) == multiset(s)
  {
    if s != [] {
      SortDescPermutes(s[1..]);
      InsertDescElements(s[0], SortDesc(s[1..]));
      assert s == [s[0]] + s[1..];
    }
  }

  lemma {:induction false} SortDescPermutesIds(s: seq<Scored>)
    ensures multiset(Ids(SortDesc(s))) == multiset(Ids(s))
  {
    if s != [] {
      SortDescPermutesIds(s[1..]);
      InsertDescIds(s[0], SortDesc(s[1..]));
      assert s == [s[0]] + s[1..];
      IdsCons(s[0], s[1..]);
    }
  }

  /** The sort yields descending means and is a permutation, of the pairs and of the ids. */
  lemma SortDescCorrect(s: seq<Scored>)
    ensures Descending(SortDesc(s))
    ensures multiset(SortDesc(s)) == multiset(s)
    ensures multiset(Ids(SortDesc(s))) == multiset(Ids(s))
  {
    SortDescSorted(s);
    SortDescPermutes(s);
    SortDescPermutesIds(s);
  }
}
