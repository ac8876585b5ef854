/** The library sort, as a function: a permutation ordered by a comparison that agrees with a rank. */
module Sorting {

  function Insert<T>(before: (T, T) -> bool, s: seq<T>, x: T): seq<T> {
    if s == [] || !before(x, s[|s| - 1]) then s + [x] else Insert(before, s[..|s| - 1], x) + [s[|s| - 1]]
  }

  function Sort<T>(before: (T, T) -> bool, s: seq<T>): seq<T> {
    if s == [] then [] else Insert(before, Sort(before, s[..|s| - 1]), s[|s| - 1])
  }

  ghost predicate Ranked<T>(rank: T -> int, s: seq<T>) {
    forall i, j :: 0 <= i < j < |s| ==> rank(s[i]) <= rank(s[j])
  }

  /** An element that comes before another has no greater rank, and otherwise no smaller one. */
  ghost predicate Agrees<T(!new)>(before: (T, T) -> bool, rank: T -> int) {
    forall a, b :: if before(a, b) then rank(a) <= rank(b) else rank(b) <= rank(a)
  }

  ghost predicate KeysDistinct<T, K>(key: T -> K, s: seq<T>) {
    forall i, j :: 0 <= i < j < |s| ==> key(s[i]) != key(s[j])
  }

  lemma {:induction false} InsertHas<T>(before: (T, T) -> bool, s: seq<T>, x: T, y: T)
    ensures |Insert(before, s, x)| == |s| + 1
    ensures y in Insert(before, s, x) <==> y in s || y == x
  {
    if s != [] && before(x, s[|s| - 1]) {
      InsertHas(before, s[..|s| - 1], x, y);
      assert s == s[..|s| - 1] + [s[|s| - 1]];
    }
  }

  lemma RankAppend<T>(rank: T -> int, s: seq<T>, x: T)
    requires Ranked(rank, s) && forall y :: y in s ==> rank(y) <= rank(x)
    ensures Ranked(rank, s + [x])
  {
    assert forall i :: 0 <= i < |s| ==> s[i] in s;
  }

  lemma RankLast<T>(rank: T -> int, s: seq<T>, y: T)
    requires Ranked(rank, s) && y in s
    ensures rank(y) <= rank(s[|s| - 1])
  {
    var i :| 0 <= i < |s| && s[i] == y;
  }

  lemma {:induction false} InsertRanked<T(!new)>(before: (T, T) -> bool, rank: T -> int, s: seq<T>, x: T)
    requires Agrees(before, rank) && Ranked(rank, s)
    ensures Ranked(rank, Insert(before, s, x))
  {
    if s == [] {
      assert Insert(before, s, x) == [x];
    } else {
      var init, last := s[..|s| - 1], s[|s| - 1];
      assert if before(x, last) then rank(x) <= rank(last) else rank(last) <= rank(x);
      assert Insert(before, s, x) == if before(x, last) then Insert(before, init, x) + [last] else s + [x];
      hide Insert;
      if before(x, last) {
        InsertRanked(before, rank, init, x);
        forall y | y in Insert(before, init, x)
          ensures rank(y) <= rank(last)
        {
          InsertHas(before, init, x, y);
          if y in init {
            RankLast(rank, s, y);
          }
        }
        hide Ranked;
        RankAppend(rank, Insert(before, init, x), last);
      } else {
        forall y | y in s
          ensures rank(y) <= rank(x)
        {
          RankLast(rank, s, y);
        }
        hide Ranked;
        RankAppend(rank, s, x);
      }
    }
  }

  lemma DistinctAppend<T, K>(key: T -> K, s: seq<T>, x: T)
    requires KeysDistinct(key, s) && forall y :: y in s ==> key(y) != key(x)
    ensures KeysDistinct(key, s + [x])
  {
    assert forall i :: 0 <= i < |s| ==> s[i] in s;
  }

  lemma DistinctInit<T, K>(key: T -> K, s: seq<T>)
    requires s != [] && KeysDistinct(key, s)
    ensures KeysDistinct(key, s[..|s| - 1])
    ensures forall y :: y in s[..|s| - 1] ==> key(y) != key(s[|s| - 1])
  {
  }

  lemma {:induction false} InsertDistinct<T, K>(before: (T, T) -> bool, key: T -> K, s: seq<T>, x: T)
    requires KeysDistinct(key, s) && forall y :: y in s ==> key(y) != key(x)
    ensures KeysDistinct(key, Insert(before, s, x))
  {
    if s == [] {
      DistinctAppend(key, s, x);
    } else {
      var init, last := s[..|s| - 1], s[|s| - 1];
      DistinctInit(key, s);
      assert Insert(before, s, x) == if before(x, last) then Insert(before, init, x) + [last] else s + [x];
      hide KeysDistinct, Insert;
      if before(x, last) {
        InsertDistinct(before, key, init, x);
        forall y | y in Insert(before, init, x)
          ensures key(y) != key(last)
        {
          InsertHas(before, init, x, y);
        }
        DistinctAppend(key, Insert(before, init, x), last);
      } else {
        DistinctAppend(key, s, x);
      }
    }
  }

  lemma {:induction false} SortHas<T>(before: (T, T) -> bool, s: seq<T>, y: T)
    ensures |Sort(before, s)| == |s|
    ensures y in Sort(before, s) <==> y in s
  {
    if s != [] {
      var init, last := s[..|s| - 1], s[|s| - 1];
      SortHas(before, init, y);
      InsertHas(before, Sort(before, init), last, y);
      assert s == init + [last];
      hide Insert;
    }
  }

  /** Sorting orders by rank. */
  lemma {:induction false} SortRanked<T(!new)>(before: (T, T) -> bool, rank: T -> int, s: seq<T>)
    requires Agrees(before, rank)
    ensures Ranked(rank, Sort(before, s))
  {
    if s != [] {
      SortRanked(before, rank, s[..|s| - 1]);
      hide Agrees, Ranked;
      InsertRanked(before, rank, Sort(before, s[..|s| - 1]), s[|s| - 1]);
    }
  }

  /** Sorting keeps distinct keys distinct. */
  lemma {:induction false} SortDistinct<T, K>(before: (T, T) -> bool, key: T -> K, s: seq<T>)
    requires KeysDistinct(key, s)
    ensures KeysDistinct(key, Sort(before, s))
  {
    if s != [] {
      var init, last := s[..|s| - 1], s[|s| - 1];
      DistinctInit(key, s);
      SortDistinct(before, key, init);
      assert Sort(before, s) == Insert(before, Sort(before, init), last);
      hide KeysDistinct, Insert, Sort;
      forall y | y in Sort(before, init)
        ensures key(y) != key(last)
      {
        SortHas(before, init, y);
      }
      InsertDistinct(before, key, Sort(before, init), last);
    }
  }
}
