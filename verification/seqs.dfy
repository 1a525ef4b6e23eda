/**
 * `Array.prototype.filter` and the `reduce` sums the pages compute, with the
 * facts every page relies on: a filtered list is an order-preserving
 * subsequence of its input holding exactly the elements that pass.
 */
module Seqs {

  /** a can be obtained from b by deleting elements, keeping the order of the rest. */
  ghost predicate IsSubseq<T>(a: seq<T>, b: seq<T>)
    decreases |b|
  {
    |a| == 0 || (|b| > 0 && ((a[0] == b[0] && IsSubseq(a[1..], b[1..])) || IsSubseq(a, b[1..])))
  }

  /** Every sequence is a subsequence of itself. */
  lemma {:induction false} SubseqRefl<T>(s: seq<T>)
    ensures IsSubseq(s, s)
  {
    if |s| > 0 {
      SubseqRefl(s[1..]);
    }
  }

  /** A subsequence of a subsequence is a subsequence. */
  lemma {:induction false} SubseqTrans<T>(a: seq<T>, b: seq<T>, c: seq<T>)
    requires IsSubseq(a, b) && IsSubseq(b, c)
    ensures IsSubseq(a, c)
    decreases |c|
  {
    if |a| > 0 {
      if b[0] == c[0] && IsSubseq(b[1..], c[1..]) {
        if a[0] == b[0] && IsSubseq(a[1..], b[1..]) {
          SubseqTrans(a[1..], b[1..], c[1..]);
        } else {
          SubseqTrans(a, b[1..], c[1..]);
        }
      } else {
        SubseqTrans(a, b, c[1..]);
      }
    }
  }

  /** Every element of a subsequence occurs in the sequence. */
  lemma {:induction false} SubseqMembers<T>(a: seq<T>, b: seq<T>)
    requires IsSubseq(a, b)
    ensures forall x :: x in a ==> x in b
    decreases |b|
  {
    if |a| > 0 {
      if a[0] == b[0] && IsSubseq(a[1..], b[1..]) {
        SubseqMembers(a[1..], b[1..]);
        assert forall x :: x in a ==> x == a[0] || x in a[1..];
      } else {
        SubseqMembers(a, b[1..]);
      }
    }
  }

  /** `s.filter(p)`. */
  function Filter<T>(s: seq<T>, p: T -> bool): (r: seq<T>)
    ensures |r| <= |s|
    ensures forall i :: 0 <= i < |r| ==> r[i] in s && p(r[i])
    ensures forall i :: 0 <= i < |s| && p(s[i]) ==> s[i] in r
    ensures forall x :: x in s ==> multiset(r)[x] == if p(x) then multiset(s)[x] else 0
    ensures multiset(r) <= multiset(s)
    ensures IsSubseq(r, s)
  {
    if |s| == 0 then []
    else
      var rest := Filter(s[1..], p);
      assert s == [s[0]] + s[1..];
      assert multiset(s) == multiset([s[0]]) + multiset(s[1..]);
      if p(s[0]) then
        assert multiset([s[0]] + rest) == multiset([s[0]]) + multiset(rest);
        [s[0]] + rest
      else rest
  }

  /** A filter comes out empty exactly when no element passes. */
  lemma FilterEmpty<T>(s: seq<T>, p: T -> bool)
    ensures |Filter(s, p)| == 0 <==> forall i :: 0 <= i < |s| ==> !p(s[i])
  {
    var r := Filter(s, p);
    if |r| > 0 {
      assert r[0] in s;
    }
  }

  /** Filtering out an appended element that fails is filtering the prefix. */
  lemma {:induction false} FilterAppendDropped<T>(s: seq<T>, x: T, p: T -> bool)
    requires !p(x)
    ensures Filter(s + [x], p) == Filter(s, p)
  {
    if |s| > 0 {
      assert (s + [x])[1..] == s[1..] + [x];
      FilterAppendDropped(s[1..], x, p);
    } else {
      assert [x][1..] == [];
    }
  }

  /** When every element passes, the filter is the identity. */
  lemma {:induction false} FilterKeepsAll<T>(s: seq<T>, p: T -> bool)
    requires forall x :: x in s ==> p(x)
    ensures Filter(s, p) == s
  {
    if |s| > 0 {
      FilterKeepsAll(s[1..], p);
    }
  }

  /** Filters that agree on the elements of s give the same result. */
  lemma {:induction false} FilterAgree<T>(s: seq<T>, p: T -> bool, q: T -> bool)
    requires forall x :: x in s ==> (p(x) <==> q(x))
    ensures Filter(s, p) == Filter(s, q)
  {
    if |s| > 0 {
      FilterAgree(s[1..], p, q);
    }
  }

  /** Filtering twice is filtering once by the conjunction. */
  lemma {:induction false} FilterTwice<T>(s: seq<T>, p: T -> bool, q: T -> bool)
    ensures Filter(Filter(s, p), q) == Filter(s, x => p(x) && q(x))
  {
    if |s| > 0 {
      FilterTwice(s[1..], p, q);
      if p(s[0]) {
        assert Filter(s, p) == [s[0]] + Filter(s[1..], p);
        assert Filter(s, p)[1..] == Filter(s[1..], p);
      }
    }
  }

  /** Filtering by p and then by q is filtering once by any r that holds
      exactly where both do. */
  lemma FilterThenFilter<T>(s: seq<T>, p: T -> bool, q: T -> bool, r: T -> bool)
    requires forall x :: x in s ==> (p(x) && q(x) <==> r(x))
    ensures Filter(Filter(s, p), q) == Filter(s, r)
  {
    FilterTwice(s, p, q);
    FilterAgree(s, x => p(x) && q(x), r);
  }

  /** The two filters of a composition commute. */
  lemma FilterCommutes<T>(s: seq<T>, p: T -> bool, q: T -> bool)
    ensures Filter(Filter(s, p), q) == Filter(Filter(s, q), p)
  {
    FilterTwice(s, p, q);
    FilterTwice(s, q, p);
    FilterAgree(s, x => p(x) && q(x), x => q(x) && p(x));
  }

  /** A stronger criterion selects a subsequence of what a weaker one selects:
      the narrow result is the wide result filtered again. */
  lemma FilterNarrower<T>(s: seq<T>, p: T -> bool, q: T -> bool)
    requires forall x :: x in s && p(x) ==> q(x)
    ensures Filter(s, p) == Filter(Filter(s, q), p)
    ensures IsSubseq(Filter(s, p), Filter(s, q))
  {
    FilterTwice(s, q, p);
    FilterAgree(s, p, x => q(x) && p(x));
  }

  /** The elements that pass and the elements that fail add up to the whole. */
  lemma {:induction false} FilterComplement<T>(s: seq<T>, p: T -> bool)
    ensures |Filter(s, p)| + |Filter(s, x => !p(x))| == |s|
  {
    if |s| > 0 {
      FilterComplement(s[1..], p);
    }
  }

  /** When q holds exactly where p fails, the two filters split s in two. */
  lemma FilterSplit<T>(s: seq<T>, p: T -> bool, q: T -> bool)
    requires forall x :: x in s ==> (q(x) <==> !p(x))
    ensures |Filter(s, p)| + |Filter(s, q)| == |s|
  {
    FilterComplement(s, p);
    FilterAgree(s, x => !p(x), q);
  }

  /** Two predicates that never hold together select at most |s| elements between them. */
  lemma {:induction false} FilterDisjoint<T>(s: seq<T>, p: T -> bool, q: T -> bool)
    requires forall x :: x in s ==> !(p(x) && q(x))
    ensures |Filter(s, p)| + |Filter(s, q)| <= |s|
  {
    if |s| > 0 {
      assert s[0] in s;
      FilterDisjoint(s[1..], p, q);
      if p(s[0]) {
        assert Filter(s, p)[1..] == Filter(s[1..], p);
      }
      if q(s[0]) {
        assert Filter(s, q)[1..] == Filter(s[1..], q);
      }
    }
  }

  /** `s.reduce((sum, x) => sum + f(x), 0)`. */
  function Sum<T>(s: seq<T>, f: T -> int): (total: int)
    ensures (forall i :: 0 <= i < |s| ==> f(s[i]) >= 0) ==> total >= 0
  {
    if |s| == 0 then 0 else f(s[0]) + Sum(s[1..], f)
  }

  /** A sum splits into the sums over the elements that pass and those that fail. */
  lemma {:induction false} SumSplit<T>(s: seq<T>, p: T -> bool, f: T -> int)
    ensures Sum(s, f) == Sum(Filter(s, p), f) + Sum(Filter(s, x => !p(x)), f)
  {
    if |s| > 0 {
      SumSplit(s[1..], p, f);
      assert Filter(s, p) == (if p(s[0]) then [s[0]] else []) + Filter(s[1..], p);
      if p(s[0]) {
        assert Filter(s, p)[1..] == Filter(s[1..], p);
      } else {
        assert Filter(s, x => !p(x))[1..] == Filter(s[1..], x => !p(x));
      }
    }
  }

  /** With no negative terms, the sum over a part is at most the sum over the whole. */
  lemma SumOfPartBounded<T>(s: seq<T>, p: T -> bool, f: T -> int)
    requires forall x :: x in s ==> f(x) >= 0
    ensures Sum(Filter(s, p), f) <= Sum(s, f)
  {
    SumSplit(s, p, f);
  }

  /** With positive terms, a sum is zero exactly when the sequence is empty. */
  lemma {:induction false} PositiveSumZero<T>(s: seq<T>, f: T -> int)
    requires forall x :: x in s ==> f(x) > 0
    ensures Sum(s, f) == 0 <==> |s| == 0
  {
    if |s| > 0 {
      assert s[0] in s;
      var _ := Sum(s[1..], f);
    }
  }

  /** One step of a filtered sum: the head contributes when it passes. */
  lemma SumFilterStep<T>(s: seq<T>, p: T -> bool, f: T -> int)
    requires |s| > 0
    ensures Sum(Filter(s, p), f) == (if p(s[0]) then f(s[0]) else 0) + Sum(Filter(s[1..], p), f)
    ensures |Filter(s, p)| == (if p(s[0]) then 1 else 0) + |Filter(s[1..], p)|
  {
    if p(s[0]) {
      assert Filter(s, p)[1..] == Filter(s[1..], p);
    }
  }

  /** How many of the four flags are set. */
  function Flags(a: bool, b: bool, c: bool, d: bool): nat {
    (if a then 1 else 0) + (if b then 1 else 0) + (if c then 1 else 0) + (if d then 1 else 0)
  }

  /** When every element falls in exactly one of four parts, the sum over the
      whole is the sum of the sums over the parts. */
  lemma {:induction false} SumOfFourParts<T>(s: seq<T>, p1: T -> bool, p2: T -> bool, p3: T -> bool, p4: T -> bool, f: T -> int)
    requires forall i :: 0 <= i < |s| ==> Flags(p1(s[i]), p2(s[i]), p3(s[i]), p4(s[i])) == 1
    ensures Sum(s, f) == Sum(Filter(s, p1), f) + Sum(Filter(s, p2), f) + Sum(Filter(s, p3), f) + Sum(Filter(s, p4), f)
  {
    if |s| > 0 {
      assert Flags(p1(s[0]), p2(s[0]), p3(s[0]), p4(s[0])) == 1;
      SumOfFourParts(s[1..], p1, p2, p3, p4, f);
      SumFilterStep(s, p1, f);
      SumFilterStep(s, p2, f);
      SumFilterStep(s, p3, f);
      SumFilterStep(s, p4, f);
    }
  }

  function One<T>(x: T): int {
    1
  }

  /** Summing one per element counts the elements. */
  lemma {:induction false} SumOfOnes<T>(s: seq<T>)
    ensures Sum(s, One) == |s|
  {
    if |s| > 0 {
      SumOfOnes(s[1..]);
    }
  }
}
