/**
 * `Array.prototype.sort` with a numeric comparator, which is stable: the
 * model sorts by an integer rank, ascending, keeping the input order of
 * elements of equal rank. A descending order is an ascending order on the
 * negated key.
 */
module Sorting {
  import opened Seqs

  ghost predicate SortedBy<T>(s: seq<T>, rank: T -> int) {
    forall i, j :: 0 <= i < j < |s| ==> rank(s[i]) <= rank(s[j])
  }

  /** The elements of s whose rank is k, in the order of s. */
  function WithRank<T>(s: seq<T>, rank: T -> int, k: int): seq<T> {
    if |s| == 0 then [] else (if rank(s[0]) == k then [s[0]] else []) + WithRank(s[1..], rank, k)
  }

  /** Puts x in front of the first element whose rank is not below x's. */
  function Insert<T>(x: T, t: seq<T>, rank: T -> int): (r: seq<T>)
    ensures |r| == |t| + 1
    ensures multiset(r) == multiset{x} + multiset(t)
  {
    if |t| == 0 then [x]
    else if rank(x) <= rank(t[0]) then [x] + t
    else
      assert t == [t[0]] + t[1..];
      [t[0]] + Insert(x, t[1..], rank)
  }

  /** Insertion sort by rank. */
  function StableSort<T>(s: seq<T>, rank: T -> int): (r: seq<T>)
    ensures |r| == |s|
    ensures multiset(r) == multiset(s)
  {
    if |s| == 0 then []
    else
      assert s == [s[0]] + s[1..];
      Insert(s[0], StableSort(s[1..], rank), rank)
  }

  lemma {:induction false} InsertSorted<T>(x: T, t: seq<T>, rank: T -> int)
    requires SortedBy(t, rank)
    ensures SortedBy(Insert(x, t, rank), rank)
  {
    if |t| > 0 && rank(x) > rank(t[0]) {
      var rest := Insert(x, t[1..], rank);
      InsertSorted(x, t[1..], rank);
      forall j | 0 <= j < |rest|
        ensures rank(t[0]) <= rank(rest[j])
      {
        assert rest[j] in multiset(rest);
        assert rest[j] == x || rest[j] in multiset(t[1..]);
        if rest[j] != x {
          var k :| 0 <= k < |t[1..]| && t[1..][k] == rest[j];
          assert t[k + 1] == rest[j];
        }
      }
    }
  }

  /** The sorted output is ordered by rank. */
  lemma {:induction false} SortSorted<T>(s: seq<T>, rank: T -> int)
    ensures SortedBy(StableSort(s, rank), rank)
  {
    if |s| > 0 {
      SortSorted(s[1..], rank);
      InsertSorted(s[0], StableSort(s[1..], rank), rank);
    }
  }

  lemma WithRankCons<T>(x: T, s: seq<T>, rank: T -> int, k: int)
    ensures WithRank([x] + s, rank, k) == (if rank(x) == k then [x] else []) + WithRank(s, rank, k)
  {
    assert ([x] + s)[1..] == s;
  }

  /** Inserting x keeps the order of everything else, and x lands in front of
      all elements of its own rank. */
  lemma {:induction false} InsertStable<T>(x: T, t: seq<T>, rank: T -> int, k: int)
    ensures WithRank(Insert(x, t, rank), rank, k) == (if rank(x) == k then [x] else []) + WithRank(t, rank, k)
  {
    if |t| == 0 {
      WithRankCons(x, t, rank, k);
    } else if rank(x) <= rank(t[0]) {
      WithRankCons(x, t, rank, k);
    } else {
      var rest := Insert(x, t[1..], rank);
      var w1 := WithRank(t[1..], rank, k);
      assert Insert(x, t, rank) == [t[0]] + rest;
      WithRankCons(t[0], rest, rank, k);
      InsertStable(x, t[1..], rank, k);
      assert WithRank(t, rank, k) == (if rank(t[0]) == k then [t[0]] else []) + w1;
      if rank(x) == k {
        assert rank(t[0]) != k;
        assert WithRank(rest, rank, k) == [x] + w1;
      } else {
        assert WithRank(rest, rank, k) == w1;
      }
    }
  }

  /** Stability: for every rank, the elements of that rank appear in the
      output in the same order as in the input. */
  lemma {:induction false} SortStable<T>(s: seq<T>, rank: T -> int, k: int)
    ensures WithRank(StableSort(s, rank), rank, k) == WithRank(s, rank, k)
  {
    if |s| > 0 {
      SortStable(s[1..], rank, k);
      InsertStable(s[0], StableSort(s[1..], rank), rank, k);

    }
  }

  /** Sorting an already sorted sequence leaves it as it is. */
  lemma {:induction false} SortOfSorted<T>(s: seq<T>, rank: T -> int)
    requires SortedBy(s, rank)
    ensures StableSort(s, rank) == s
  {
    if |s| > 0 {
      assert SortedBy(s[1..], rank);
      SortOfSorted(s[1..], rank);
      if |s| > 1 {
        assert rank(s[0]) <= rank(s[1]);
      }
    }
  }

  /** Sorting twice by the same key is sorting once. */
  lemma SortIdempotent<T>(s: seq<T>, rank: T -> int)
    ensures StableSort(StableSort(s, rank), rank) == StableSort(s, rank)
  {
    SortSorted(s, rank);
    SortOfSorted(StableSort(s, rank), rank);
  }
}
