/** Sequence helpers used by the list queries: order-preserving filters, sums,
    and the "newest first, at most k" views the services build with
    `sort({ createdAt: -1 }).limit(k)`. */
module Seqs {
  import opened Common

  /** Array.prototype.filter: the elements that satisfy `p`, in their original order. */
  function Filter<T(!new)>(s: seq<T>, p: T -> bool): (r: seq<T>)
    ensures |r| <= |s|
    ensures forall x :: x in r <==> x in s && p(x)
    ensures forall i :: 0 <= i < |r| ==> p(r[i])
  {
    if s == [] then []
    else (if p(s[0]) then [s[0]] else []) + Filter(s[1..], p)
  }

  /** `a` can be obtained from `b` by deleting elements, without reordering. */
  predicate IsSubsequence<T(==)>(a: seq<T>, b: seq<T>)
    decreases |b|
  {
    if a == [] then true
    else if b == [] then false
    else if a[0] == b[0] then IsSubsequence(a[1..], b[1..])
    else IsSubsequence(a, b[1..])
  }

  lemma {:induction false} FilterIsSubsequence<T(!new)>(s: seq<T>, p: T -> bool)
    ensures IsSubsequence(Filter(s, p), s)
  {
    if s != [] {
      FilterIsSubsequence(s[1..], p);
      if p(s[0]) {
        assert Filter(s, p) == [s[0]] + Filter(s[1..], p);
        assert Filter(s, p)[1..] == Filter(s[1..], p);
      } else {
        assert Filter(s, p) == Filter(s[1..], p);
        SubsequenceOfTail(Filter(s, p), s);
      }
    }
  }

  /** A subsequence of the tail is a subsequence of the whole. */
  lemma {:induction false} SubsequenceOfTail<T>(a: seq<T>, b: seq<T>)
    requires b != [] && IsSubsequence(a, b[1..])
    ensures IsSubsequence(a, b)
    decreases 2 * |b|
  {
    if a != [] && a[0] == b[0] {
      SubsequenceDropHead(a, b[1..]);
    }
  }

  /** Dropping the first element keeps a subsequence a subsequence. */
  lemma {:induction false} SubsequenceDropHead<T>(a: seq<T>, b: seq<T>)
    requires a != [] && IsSubsequence(a, b)
    ensures IsSubsequence(a[1..], b)
    decreases 2 * |b| + 1
  {
    if b != [] && a[1..] != [] {
      if a[0] == b[0] {
        SubsequenceOfTail(a[1..], b);
      } else {
        SubsequenceDropHead(a, b[1..]);
        SubsequenceOfTail(a[1..], b);
      }
    }
  }

  /** Filtering by a predicate and by its complement splits the elements between the two results. */
  lemma {:induction false} FilterPartition<T(!new)>(s: seq<T>, p: T -> bool)
    ensures multiset(Filter(s, p)) + multiset(Filter(s, Not(p))) == multiset(s)
  {
    if s != [] {
      var t := s[1..];
      FilterPartition(t, p);
      assert Filter(s, p) == (if p(s[0]) then [s[0]] else []) + Filter(t, p);
      assert Filter(s, Not(p)) == (if !p(s[0]) then [s[0]] else []) + Filter(t, Not(p));
      assert s == [s[0]] + t;
    }
  }

  /** The sum of `f` over the elements (an Array.reduce with `+` from 0). */
  function Sum<T>(s: seq<T>, f: T -> int): int
  {
    if s == [] then 0 else f(s[0]) + Sum(s[1..], f)
  }

  lemma {:induction false} SumAppend<T>(a: seq<T>, b: seq<T>, f: T -> int)
    ensures Sum(a + b, f) == Sum(a, f) + Sum(b, f)
  {
    if a != [] {
      assert (a + b)[0] == a[0];
      assert (a + b)[1..] == a[1..] + b;
      SumAppend(a[1..], b, f);
    } else {
      assert a + b == b;
    }
  }

  /** The complement of a predicate. */
  function Not<T>(p: T -> bool): T -> bool
  {
    x => !p(x)
  }

  /** Splitting by a predicate splits the sum: the parts account for every element once. */
  lemma {:induction false} SumSplits<T(!new)>(s: seq<T>, p: T -> bool, f: T -> int)
    ensures Sum(s, f) == Sum(Filter(s, p), f) + Sum(Filter(s, Not(p)), f)
    ensures |s| == |Filter(s, p)| + |Filter(s, Not(p))|
  {
    if s != [] {
      SumSplits(s[1..], p, f);
      if p(s[0]) {
        assert Filter(s, p) == [s[0]] + Filter(s[1..], p);
        assert Filter(s, Not(p)) == Filter(s[1..], Not(p));
        SumAppend([s[0]], Filter(s[1..], p), f);
      } else {
        assert Filter(s, p) == Filter(s[1..], p);
        assert Filter(s, Not(p)) == [s[0]] + Filter(s[1..], Not(p));
        SumAppend([s[0]], Filter(s[1..], Not(p)), f);
      }
    }
  }

  /** Elements are strictly increasing in `stamp` along the sequence (insertion order). */
  ghost predicate StrictlyIncreasing<T>(s: seq<T>, stamp: T -> int)
  {
    forall i, j :: 0 <= i < j < |s| ==> stamp(s[i]) < stamp(s[j])
  }

  ghost predicate StrictlyDecreasing<T>(s: seq<T>, stamp: T -> int)
  {
    forall i, j :: 0 <= i < j < |s| ==> stamp(s[i]) > stamp(s[j])
  }

  /** The elements in reverse order: `sort({ createdAt: -1 })` over a collection kept in creation order. */
  function NewestFirst<T>(s: seq<T>): (r: seq<T>)
    ensures |r| == |s|
    ensures forall i :: 0 <= i < |s| ==> r[i] == s[|s| - 1 - i]
  {
    seq(|s|, i requires 0 <= i < |s| => s[|s| - 1 - i])
  }

  lemma NewestFirstSameElements<T(!new)>(s: seq<T>)
    ensures forall x :: x in NewestFirst(s) <==> x in s
    ensures multiset(NewestFirst(s)) == multiset(s)
  {
    var r := NewestFirst(s);
    forall x | x in s ensures x in r {
      var i :| 0 <= i < |s| && s[i] == x;
      assert r[|s| - 1 - i] == x;
    }
    ReverseMultiset(s);
  }

  lemma {:induction false} ReverseMultiset<T>(s: seq<T>)
    ensures multiset(NewestFirst(s)) == multiset(s)
  {
    if s != [] {
      var t := s[1..];
      ReverseMultiset(t);
      assert NewestFirst(s) == NewestFirst(t) + [s[0]];
      assert s == [s[0]] + t;
    }
  }

  lemma NewestFirstSorted<T>(s: seq<T>, stamp: T -> int)
    requires StrictlyIncreasing(s, stamp)
    ensures StrictlyDecreasing(NewestFirst(s), stamp)
  {
  }

  /** `.limit(k)`: the first k elements, or all of them when there are fewer. */
  function Take<T>(s: seq<T>, k: nat): (r: seq<T>)
    ensures |r| == if |s| < k then |s| else k
    ensures forall i :: 0 <= i < |r| ==> r[i] == s[i]
  {
    if |s| <= k then s else s[..k]
  }

  /** `sort({ createdAt: -1 }).limit(k)` over a creation-ordered collection. */
  function Recent<T>(s: seq<T>, k: nat): seq<T>
  {
    Take(NewestFirst(s), k)
  }

  /** The recent view holds at most k records, newest first, and every record it
      leaves out is older than every record it keeps. */
  lemma {:induction false} RecentIsNewest<T(!new)>(s: seq<T>, k: nat, stamp: T -> int)
    requires StrictlyIncreasing(s, stamp)
    ensures |Recent(s, k)| <= k && |Recent(s, k)| <= |s|
    ensures StrictlyDecreasing(Recent(s, k), stamp)
    ensures forall x :: x in Recent(s, k) ==> x in s
    ensures forall i, j :: 0 <= i < |Recent(s, k)| && 0 <= j < |s| - |Recent(s, k)| ==>
              stamp(Recent(s, k)[i]) > stamp(s[j])
  {
    var r := Recent(s, k);
    forall i | 0 <= i < |r| ensures r[i] == s[|s| - 1 - i] {
    }
    forall x | x in r ensures x in s {
      var i :| 0 <= i < |r| && r[i] == x;
      assert x == s[|s| - 1 - i];
    }
  }

  /** `R` holds of every pair of elements taken in sequence order. */
  ghost predicate Pairwise<T>(s: seq<T>, R: (T, T) -> bool)
  {
    forall i, j :: 0 <= i < j < |s| ==> R(s[i], s[j])
  }

  /** Filtering keeps every pairwise relation the whole sequence had. */
  lemma {:induction false} FilterPairwise<T(!new)>(s: seq<T>, p: T -> bool, R: (T, T) -> bool)
    requires Pairwise(s, R)
    ensures Pairwise(Filter(s, p), R)
  {
    if s != [] {
      var t := s[1..];
      assert Pairwise(t, R) by {
        forall i, j | 0 <= i < j < |t| ensures R(t[i], t[j]) {
          assert t[i] == s[i + 1] && t[j] == s[j + 1];
        }
      }
      FilterPairwise(t, p, R);
      var f := Filter(t, p);
      if p(s[0]) {
        var r := Filter(s, p);
        assert r == [s[0]] + f;
        forall i, j | 0 <= i < j < |r| ensures R(r[i], r[j]) {
          assert r[j] == f[j - 1];
          if i > 0 {
            assert r[i] == f[i - 1];
          } else {
            assert f[j - 1] in t;
            var k :| 0 <= k < |t| && t[k] == f[j - 1];
            assert t[k] == s[k + 1];
          }
        }
      } else {
        assert Filter(s, p) == f;
      }
    }
  }

  /** The position of the record whose key is `id` (`findById`), if there is one. */
  function IndexOf<T>(s: seq<T>, key: T -> nat, id: nat): (r: Option<nat>)
    ensures r.Some? ==> r.value < |s| && key(s[r.value]) == id
    ensures r.None? ==> forall k :: 0 <= k < |s| ==> key(s[k]) != id
  {
    if s == [] then None
    else if key(s[0]) == id then Some(0)
    else match IndexOf(s[1..], key, id)
      case None => None
      case Some(i) => Some(i + 1)
  }

  /** A filter that every element passes keeps the whole sequence. */
  lemma {:induction false} FilterKeepsAll<T(!new)>(s: seq<T>, p: T -> bool)
    ensures (forall x :: x in s ==> p(x)) ==> Filter(s, p) == s
  {
    if s != [] && forall x :: x in s ==> p(x) {
      FilterKeepsAll(s[1..], p);
      assert s == [s[0]] + s[1..];
    }
  }

  /** Two predicates that agree everywhere filter alike. */
  lemma {:induction false} FilterSame<T(!new)>(s: seq<T>, p: T -> bool, q: T -> bool)
    requires forall x :: p(x) == q(x)
    ensures Filter(s, p) == Filter(s, q)
  {
    if s != [] {
      FilterSame(s[1..], p, q);
    }
  }
}
