/** Sequence helpers for the order-preserving filters and first-seen
    de-duplication that the publisher uses to group its errors. */
module Seqs {

  predicate Distinct<T(==)>(s: seq<T>)
  {
    forall i, j :: 0 <= i < j < |s| ==> s[i] != s[j]
  }

  /** `a` can be obtained from `b` by deleting elements (order is kept). */
  predicate IsSubseq<T(==)>(a: seq<T>, b: seq<T>)
    decreases |b|
  {
    |a| == 0 || (|b| > 0 && ((a[0] == b[0] && IsSubseq(a[1..], b[1..])) || IsSubseq(a, b[1..])))
  }

  /** Position of the first occurrence of `x` in `s`. */
  function IndexOf<T(==)>(s: seq<T>, x: T): (i: nat)
    requires x in s
    ensures i < |s| && s[i] == x
    ensures forall k :: 0 <= k < i ==> s[k] != x
  {
    if s[0] == x then 0 else 1 + IndexOf(s[1..], x)
  }

  /** The first position holding `x` is the only one with no earlier `x`. */
  lemma IndexOfUnique<T>(s: seq<T>, x: T, i: nat)
    requires i < |s| && s[i] == x
    requires forall k :: 0 <= k < i ==> s[k] != x
    ensures IndexOf(s, x) == i
  {
  }

  /** Looking `x` up in a longer sequence finds the same first position. */
  lemma IndexOfExtend<T>(s: seq<T>, t: seq<T>, x: T)
    requires x in s
    ensures x in s + t
    ensures IndexOf(s + t, x) == IndexOf(s, x)
  {
    var i := IndexOf(s, x);
    assert (s + t)[i] == x;
    assert forall k :: 0 <= k < i ==> (s + t)[k] == s[k];
    IndexOfUnique(s + t, x, i);
  }

  /** The key of every element, in order. */
  function Keys<T, K>(xs: seq<T>, key: T -> K): (r: seq<K>)
    ensures |r| == |xs|
    ensures forall i :: 0 <= i < |xs| ==> r[i] == key(xs[i])
  {
    seq(|xs|, i requires 0 <= i < |xs| => key(xs[i]))
  }

  /** The elements whose key is `k`, in input order. */
  function FilterKey<T(!new), K(==)>(xs: seq<T>, key: T -> K, k: K): (r: seq<T>)
    ensures forall x :: x in r <==> x in xs && key(x) == k
    decreases |xs|
  {
    if |xs| == 0 then []
    else
      var rest := FilterKey(xs[1..], key, k);
      assert xs == [xs[0]] + xs[1..];
      if key(xs[0]) == k then [xs[0]] + rest else rest
  }

  /** The filter only deletes, so what is left keeps its input order. */
  lemma {:induction false} FilterKeyOrdered<T(!new), K>(xs: seq<T>, key: T -> K, k: K)
    ensures IsSubseq(FilterKey(xs, key, k), xs)
    decreases |xs|
  {
    if |xs| > 0 {
      FilterKeyOrdered(xs[1..], key, k);
    }
  }

  /** The filter keeps every copy of a matching element and none of the others. */
  lemma {:induction false} FilterKeyCount<T(!new), K>(xs: seq<T>, key: T -> K, k: K)
    ensures forall x :: multiset(FilterKey(xs, key, k))[x] == if key(x) == k then multiset(xs)[x] else 0
    decreases |xs|
  {
    if |xs| > 0 {
      FilterKeyCount(xs[1..], key, k);
      assert xs == [xs[0]] + xs[1..];
    }
  }

  /** With no element carrying key `k`, the filter keeps nothing. */
  lemma {:induction false} FilterKeyNone<T(!new), K>(xs: seq<T>, key: T -> K, k: K)
    requires k !in Keys(xs, key)
    ensures FilterKey(xs, key, k) == []
    decreases |xs|
  {
    if |xs| > 0 {
      assert Keys(xs, key)[0] == key(xs[0]);
      assert Keys(xs[1..], key) == Keys(xs, key)[1..];
      FilterKeyNone(xs[1..], key, k);
    }
  }

  lemma {:induction false} FilterKeyAppend<T(!new), K>(xs: seq<T>, ys: seq<T>, key: T -> K, k: K)
    ensures FilterKey(xs + ys, key, k) == FilterKey(xs, key, k) + FilterKey(ys, key, k)
    decreases |xs|
  {
    if |xs| == 0 {
      assert xs + ys == ys;
    } else {
      assert (xs + ys)[1..] == xs[1..] + ys;
      FilterKeyAppend(xs[1..], ys, key, k);
    }
  }

  /** Distinct elements of `s` in order of first appearance: each element is
      appended the first time it is seen, exactly as the source's
      `if x not in ordered: ordered.append(x)` loops do. */
  function FirstSeen<T(==,!new)>(s: seq<T>): (r: seq<T>)
    ensures Distinct(r)
    ensures forall x :: x in r <==> x in s
    ensures forall i, j :: 0 <= i < j < |r| ==> IndexOf(s, r[i]) < IndexOf(s, r[j])
    decreases |s|
  {
    if |s| == 0 then []
    else
      var init := s[..|s| - 1];
      var last := s[|s| - 1];
      var prefix := FirstSeen(init);
      assert s == init + [last];
      FirstSeenStep(init, last, prefix);
      if last in prefix then prefix else prefix + [last]
  }

  /** The induction step of `FirstSeen`: positions found in the prefix stay the
      same once one more element is appended. */
  lemma FirstSeenStep<T(!new)>(init: seq<T>, last: T, prefix: seq<T>)
    requires forall x :: x in prefix <==> x in init
    requires forall i, j :: 0 <= i < j < |prefix| ==> IndexOf(init, prefix[i]) < IndexOf(init, prefix[j])
    ensures forall x :: x in init ==> IndexOf(init + [last], x) == IndexOf(init, x)
    ensures last !in init ==> IndexOf(init + [last], last) == |init|
  {
    forall x | x in init
      ensures IndexOf(init + [last], x) == IndexOf(init, x)
    {
      IndexOfExtend(init, [last], x);
    }
    if last !in init {
      var s := init + [last];
      assert s[|init|] == last;
      assert forall k :: 0 <= k < |init| ==> s[k] == init[k];
      IndexOfUnique(s, last, |init|);
    }
  }

  /** The elements of `xs` grouped by key, one block per key of `ks`, in the
      order of `ks`. */
  function Gather<T(!new), K(==)>(xs: seq<T>, key: T -> K, ks: seq<K>): seq<T>
    decreases |ks|
  {
    if |ks| == 0 then [] else FilterKey(xs, key, ks[0]) + Gather(xs, key, ks[1..])
  }

  lemma {:induction false} GatherCons<T(!new), K>(x: T, xs: seq<T>, key: T -> K, ks: seq<K>)
    requires Distinct(ks)
    ensures multiset(Gather([x] + xs, key, ks))
         == multiset(Gather(xs, key, ks)) + (if key(x) in ks then multiset{x} else multiset{})
    decreases |ks|
  {
    if |ks| > 0 {
      var tail := ks[1..];
      assert Distinct(tail) by {
        forall i, j | 0 <= i < j < |tail| ensures tail[i] != tail[j] {
          assert tail[i] == ks[i + 1] && tail[j] == ks[j + 1];
        }
      }
      GatherCons(x, xs, key, tail);
      assert ([x] + xs)[1..] == xs;
      assert forall j :: 0 <= j < |tail| ==> tail[j] != ks[0] by {
        forall j | 0 <= j < |tail| ensures tail[j] != ks[0] {
          assert tail[j] == ks[j + 1];
        }
      }
      assert key(x) in ks <==> key(x) == ks[0] || key(x) in tail;
    }
  }

  /** Grouping by a duplicate-free list of keys that covers every element is a
      permutation of the input. */
  lemma {:induction false} GatherPermutes<T(!new), K>(xs: seq<T>, key: T -> K, ks: seq<K>)
    requires Distinct(ks)
    requires forall x :: x in xs ==> key(x) in ks
    ensures multiset(Gather(xs, key, ks)) == multiset(xs)
    decreases |xs|
  {
    if |xs| == 0 {
      GatherEmpty(key, ks);
    } else {
      assert xs == [xs[0]] + xs[1..];
      GatherPermutes(xs[1..], key, ks);
      GatherCons(xs[0], xs[1..], key, ks);
    }
  }

  lemma {:induction false} GatherEmpty<T(!new), K>(key: T -> K, ks: seq<K>)
    ensures Gather([], key, ks) == []
    decreases |ks|
  {
    if |ks| > 0 {
      GatherEmpty(key, ks[1..]);
    }
  }

  /** Every element of a subsequence occurs in the whole. */
  lemma {:induction false} SubseqMembers<T>(a: seq<T>, b: seq<T>)
    requires IsSubseq(a, b)
    ensures forall x :: x in a ==> x in b
    decreases |b|
  {
    if |a| > 0 {
      if a[0] == b[0] && IsSubseq(a[1..], b[1..]) {
        SubseqMembers(a[1..], b[1..]);
        assert a == [a[0]] + a[1..];
        assert b == [b[0]] + b[1..];
      } else {
        SubseqMembers(a, b[1..]);
        assert b == [b[0]] + b[1..];
      }
    }
  }

  /** No two elements share a key. */
  predicate DistinctKeys<T, K(==)>(xs: seq<T>, key: T -> K)
  {
    forall i, j :: 0 <= i < j < |xs| ==> key(xs[i]) != key(xs[j])
  }

  /** Deleting elements keeps keys that were pairwise different apart. */
  lemma {:induction false} SubseqKeysDistinct<T, K>(a: seq<T>, b: seq<T>, key: T -> K)
    requires IsSubseq(a, b)
    requires DistinctKeys(b, key)
    ensures DistinctKeys(a, key)
    decreases |b|
  {
    if |a| > 0 {
      assert DistinctKeys(b[1..], key) by {
        forall i, j | 0 <= i < j < |b[1..]| ensures key(b[1..][i]) != key(b[1..][j]) {
          assert b[1..][i] == b[i + 1] && b[1..][j] == b[j + 1];
        }
      }
      if a[0] == b[0] && IsSubseq(a[1..], b[1..]) {
        SubseqKeysDistinct(a[1..], b[1..], key);
        SubseqMembers(a[1..], b[1..]);
        forall i, j | 0 <= i < j < |a| ensures key(a[i]) != key(a[j]) {
          assert a[j] == a[1..][j - 1];
          if i == 0 {
            assert a[j] in b[1..];
            var m :| 0 <= m < |b[1..]| && b[1..][m] == a[j];
            assert b[m + 1] == a[j];
          } else {
            assert a[i] == a[1..][i - 1];
          }
        }
      } else {
        SubseqKeysDistinct(a, b[1..], key);
      }
    }
  }

  /** Indexes elements by key; when two share a key the later one wins, as
      with repeated `d[key] = x` assignments. */
  function IndexBy<T(!new), K(==,!new)>(xs: seq<T>, key: T -> K): (m: map<K, T>)
    ensures forall k :: k in m <==> k in Keys(xs, key)
    ensures forall k :: k in m ==> m[k] in xs && key(m[k]) == k
    decreases |xs|
  {
    if |xs| == 0 then map[]
    else
      var init := xs[..|xs| - 1];
      var last := xs[|xs| - 1];
      assert xs == init + [last];
      assert Keys(xs, key) == Keys(init, key) + [key(last)];
      IndexBy(init, key)[key(last) := last]
  }

  /** When two elements share a key, the index keeps the later one. */
  lemma IndexByLast<T(!new), K(!new)>(xs: seq<T>, key: T -> K)
    ensures forall k :: k in IndexBy(xs, key) ==>
              exists i :: 0 <= i < |xs| && IndexBy(xs, key)[k] == xs[i] && LastWithKey(xs, key, i)
  {
    forall k | k in IndexBy(xs, key)
      ensures exists i :: 0 <= i < |xs| && IndexBy(xs, key)[k] == xs[i] && LastWithKey(xs, key, i)
    {
      var i := IndexByLastAt(xs, key, k);
    }
  }

  /** The position of the element the index keeps under `k`: the last one with that key. */
  lemma {:induction false} IndexByLastAt<T(!new), K(!new)>(xs: seq<T>, key: T -> K, k: K) returns (i: nat)
    requires k in IndexBy(xs, key)
    ensures i < |xs| && IndexBy(xs, key)[k] == xs[i] && LastWithKey(xs, key, i)
    decreases |xs|
  {
    var init := xs[..|xs| - 1];
    var last := xs[|xs| - 1];
    assert IndexBy(xs, key) == IndexBy(init, key)[key(last) := last];
    if k == key(last) {
      i := |xs| - 1;
    } else {
      i := IndexByLastAt(init, key, k);
      assert init[i] == xs[i];
      assert forall j :: i < j < |init| ==> init[j] == xs[j];
    }
  }

  /** `xs[i]` is the last element with its key. */
  predicate LastWithKey<T, K(==)>(xs: seq<T>, key: T -> K, i: nat)
    requires i < |xs|
  {
    forall j :: i < j < |xs| ==> key(xs[j]) != key(xs[i])
  }

  /** With pairwise different keys every element is found under its own key. */
  lemma {:induction false} IndexByDistinct<T(!new), K(!new)>(xs: seq<T>, key: T -> K)
    requires DistinctKeys(xs, key)
    ensures forall i :: 0 <= i < |xs| ==> IndexBy(xs, key)[key(xs[i])] == xs[i]
    decreases |xs|
  {
    if |xs| > 0 {
      var init := xs[..|xs| - 1];
      var last := xs[|xs| - 1];
      assert DistinctKeys(init, key) by {
        forall i, j | 0 <= i < j < |init| ensures key(init[i]) != key(init[j]) {
          assert init[i] == xs[i] && init[j] == xs[j];
        }
      }
      IndexByDistinct(init, key);
      forall i | 0 <= i < |xs| ensures IndexBy(xs, key)[key(xs[i])] == xs[i] {
        if i < |init| {
          assert init[i] == xs[i];
        }
      }
    }
  }
}
