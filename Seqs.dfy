/** Order-preserving filtering of sequences, as JavaScript's Array.prototype.filter,
    and the subsequence relation that every filter result stands in to its input. */
module Seqs {

  /** `a` can be obtained from `b` by deleting elements (order kept). */
  predicate IsSubsequence<T(==,!new)>(a: seq<T>, b: seq<T>)
  {
    a == [] || (b != [] && ((a[0] == b[0] && IsSubsequence(a[1..], b[1..])) || IsSubsequence(a, b[1..])))
  }

  /** The elements of `s` for which `keep` holds, in their original order. */
  function Filter<T(==,!new)>(s: seq<T>, keep: T -> bool): (r: seq<T>)
    ensures |r| <= |s|
    ensures forall x :: x in r <==> x in s && keep(x)
    ensures IsSubsequence(r, s)
  {
    if s == [] then []
    else if keep(s[0]) then [s[0]] + Filter(s[1..], keep)
    else Filter(s[1..], keep)
  }

  /** Filtering keeps every copy of a kept element and no copy of a dropped one. */
  lemma {:induction false} FilterMultiplicity<T(!new)>(s: seq<T>, keep: T -> bool)
    ensures forall x :: multiset(Filter(s, keep))[x] == if keep(x) then multiset(s)[x] else 0
  {
    if s != [] {
      assert s == [s[0]] + s[1..];
      FilterMultiplicity(s[1..], keep);
    }
  }

  /** Two sequences that agree position by position on a projection `f` that `keep` depends
      on alone filter to sequences that agree position by position on `f`. */
  lemma {:induction false} FilterSameProjection<T(!new), K>(a: seq<T>, b: seq<T>, keep: T -> bool, f: T -> K)
    requires |a| == |b|
    requires forall i :: 0 <= i < |a| ==> f(a[i]) == f(b[i]) && keep(a[i]) == keep(b[i])
    ensures |Filter(a, keep)| == |Filter(b, keep)|
    ensures forall i :: 0 <= i < |Filter(a, keep)| ==> f(Filter(a, keep)[i]) == f(Filter(b, keep)[i])
  {
    if a != [] {
      assert f(a[0]) == f(b[0]) && keep(a[0]) == keep(b[0]);
      assert forall i :: 0 <= i < |a[1..]| ==> a[1..][i] == a[i + 1] && b[1..][i] == b[i + 1];
      FilterSameProjection(a[1..], b[1..], keep, f);
    }
  }

  /** The position of the first occurrence of `x` in `s`. */
  function FirstIndex<T(==)>(s: seq<T>, x: T): (r: nat)
    requires x in s
    ensures r < |s| && s[r] == x
    ensures forall k :: 0 <= k < r ==> s[k] != x
  {
    if s[0] == x then 0 else 1 + FirstIndex(s[1..], x)
  }

  /** Filtering keeps the relative order of first occurrences. */
  lemma {:induction false} FilterKeepsFirstOrder<T(!new)>(s: seq<T>, keep: T -> bool, x: T, y: T)
    requires x in Filter(s, keep) && y in Filter(s, keep)
    requires FirstIndex(Filter(s, keep), x) < FirstIndex(Filter(s, keep), y)
    ensures FirstIndex(s, x) < FirstIndex(s, y)
  {
    var f := Filter(s, keep);
    assert s != [];
    if x == s[0] {
      assert y != s[0];
    } else {
      assert f[0] == s[0] ==> y != s[0];
      assert keep(y) && y != s[0];
      if keep(s[0]) {
        assert f == [s[0]] + Filter(s[1..], keep);
        FilterKeepsFirstOrder(s[1..], keep, x, y);
      } else {
        FilterKeepsFirstOrder(s[1..], keep, x, y);
      }
    }
  }

  lemma {:induction false} FilterKeepsAll<T(!new)>(s: seq<T>, keep: T -> bool)
    requires forall x :: x in s ==> keep(x)
    ensures Filter(s, keep) == s
  {
    if s != [] {
      FilterKeepsAll(s[1..], keep);
    }
  }

  lemma {:induction false} FilterKeepsNone<T(!new)>(s: seq<T>, keep: T -> bool)
    requires forall x :: x in s ==> !keep(x)
    ensures Filter(s, keep) == []
  {
    if s != [] {
      FilterKeepsNone(s[1..], keep);
    }
  }

  lemma {:induction false} FilterAppend<T(!new)>(a: seq<T>, b: seq<T>, keep: T -> bool)
    ensures Filter(a + b, keep) == Filter(a, keep) + Filter(b, keep)
  {
    if a == [] {
      assert a + b == b;
    } else {
      assert (a + b)[1..] == a[1..] + b;
      FilterAppend(a[1..], b, keep);
    }
  }

  /** A filter drops exactly the elements it does not keep: the length lost is the number of rejected ones. */
  lemma {:induction false} FilterSplitsCount<T(!new)>(s: seq<T>, keep: T -> bool)
    ensures |Filter(s, keep)| + |Filter(s, x => !keep(x))| == |s|
  {
    if s != [] {
      FilterSplitsCount(s[1..], keep);
    }
  }

  lemma {:induction false} SubsequenceOfPrefix<T(!new)>(a: seq<T>, b: seq<T>, n: nat)
    requires n <= |a|
    requires IsSubsequence(a, b)
    ensures IsSubsequence(a[..n], b)
    decreases |b|
  {
    if n == 0 {
    } else if a[0] == b[0] && IsSubsequence(a[1..], b[1..]) {
      assert a[..n][1..] == a[1..][..n - 1];
      SubsequenceOfPrefix(a[1..], b[1..], n - 1);
    } else {
      SubsequenceOfPrefix(a, b[1..], n);
    }
  }

  lemma {:induction false} SubsequenceTransitive<T(!new)>(a: seq<T>, b: seq<T>, c: seq<T>)
    requires IsSubsequence(a, b) && IsSubsequence(b, c)
    ensures IsSubsequence(a, c)
    decreases |c|
  {
    if a == [] {
    } else if b[0] == c[0] && IsSubsequence(b[1..], c[1..]) {
      if a[0] == b[0] && IsSubsequence(a[1..], b[1..]) {
        SubsequenceTransitive(a[1..], b[1..], c[1..]);
      } else {
        SubsequenceTransitive(a, b[1..], c[1..]);
      }
    } else {
      SubsequenceTransitive(a, b, c[1..]);
    }
  }

  lemma {:induction false} SubsequenceElements<T(!new)>(a: seq<T>, b: seq<T>)
    requires IsSubsequence(a, b)
    ensures forall x :: x in a ==> x in b
    decreases |b|
  {
    if a != [] {
      assert a == [a[0]] + a[1..] && b == [b[0]] + b[1..];
      if a[0] == b[0] && IsSubsequence(a[1..], b[1..]) {
        SubsequenceElements(a[1..], b[1..]);
      } else {
        SubsequenceElements(a, b[1..]);
      }
    }
  }

  // ---------------------------------------------------------------------------
  // Counting by key

  /** How many elements of `s` have key `k`. */
  function CountBy<T, K(==)>(s: seq<T>, key: T -> K, k: K): nat
  {
    if s == [] then 0 else (if key(s[0]) == k then 1 else 0) + CountBy(s[1..], key, k)
  }

  lemma {:induction false} CountBySnoc<T, K>(s: seq<T>, x: T, key: T -> K, k: K)
    ensures CountBy(s + [x], key, k) == CountBy(s, key, k) + (if key(x) == k then 1 else 0)
  {
    if s == [] {
      assert [] + [x] == [x];
    } else {
      assert (s + [x])[1..] == s[1..] + [x];
      CountBySnoc(s[1..], x, key, k);
    }
  }

  /** Extending a prefix by one element adds one to the count of that element's key only. */
  lemma CountByPrefixStep<T, K>(s: seq<T>, i: nat, key: T -> K)
    requires i < |s|
    ensures forall k :: CountBy(s[..i + 1], key, k) == CountBy(s[..i], key, k) + (if key(s[i]) == k then 1 else 0)
  {
    assert s[..i + 1] == s[..i] + [s[i]];
    forall k
      ensures CountBy(s[..i + 1], key, k) == CountBy(s[..i], key, k) + (if key(s[i]) == k then 1 else 0)
    {
      CountBySnoc(s[..i], s[i], key, k);
    }
  }

  lemma {:induction false} CountByPositive<T, K>(s: seq<T>, key: T -> K, k: K)
    ensures CountBy(s, key, k) >= 1 <==> exists j :: 0 <= j < |s| && key(s[j]) == k
  {
    if s != [] {
      CountByPositive(s[1..], key, k);
      if exists j :: 0 <= j < |s| && key(s[j]) == k {
        var j :| 0 <= j < |s| && key(s[j]) == k;
        if j > 0 {
          assert key(s[1..][j - 1]) == k;
        }
      }
      if exists j :: 0 <= j < |s[1..]| && key(s[1..][j]) == k {
        var j :| 0 <= j < |s[1..]| && key(s[1..][j]) == k;
        assert key(s[j + 1]) == k;
      }
    }
  }

  /** The element at position `i` shares its key with at least one other element exactly when
      that key is counted at least twice. */
  lemma {:induction false} CountByTwin<T, K>(s: seq<T>, key: T -> K, i: nat)
    requires i < |s|
    ensures CountBy(s, key, key(s[i])) >= 2 <==> exists j :: 0 <= j < |s| && j != i && key(s[j]) == key(s[i])
  {
    var k := key(s[i]);
    var t := s[1..];
    if i == 0 {
      CountByPositive(t, key, k);
      if exists j :: 0 <= j < |t| && key(t[j]) == k {
        var j :| 0 <= j < |t| && key(t[j]) == k;
        assert key(s[j + 1]) == k;
      }
      if exists j :: 0 <= j < |s| && j != 0 && key(s[j]) == k {
        var j :| 0 <= j < |s| && j != 0 && key(s[j]) == k;
        assert key(t[j - 1]) == k;
      }
    } else {
      assert t[i - 1] == s[i];
      CountByTwin(t, key, i - 1);
      if key(s[0]) == k {
        CountByPositive(t, key, k);
      } else {
        if exists j :: 0 <= j < |t| && j != i - 1 && key(t[j]) == k {
          var j :| 0 <= j < |t| && j != i - 1 && key(t[j]) == k;
          assert key(s[j + 1]) == k;
        }
        if exists j :: 0 <= j < |s| && j != i && key(s[j]) == k {
          var j :| 0 <= j < |s| && j != i && key(s[j]) == k;
          assert key(t[j - 1]) == k;
        }
      }
    }
  }

  /** A filter that keeps every element with key `k` keeps their count. */
  lemma {:induction false} CountByFilterKeeps<T(!new), K>(s: seq<T>, keep: T -> bool, key: T -> K, k: K)
    requires forall x :: x in s && key(x) == k ==> keep(x)
    ensures CountBy(Filter(s, keep), key, k) == CountBy(s, key, k)
  {
    if s != [] {
      assert s[0] in s;
      assert forall x :: x in s[1..] ==> x in s;
      CountByFilterKeeps(s[1..], keep, key, k);
    }
  }

  /** One pass over `s` that records every key already `seen` and collects in `dups` each key
      met again: exactly the keys counted at least twice. */
  method RepeatedKeys<T, K(==)>(s: seq<T>, key: T -> K) returns (dups: set<K>)
    ensures forall k :: k in dups <==> CountBy(s, key, k) >= 2
  {
    var seen: set<K> := {};
    dups := {};
    var i := 0;
    while i < |s|
      invariant 0 <= i <= |s|
      invariant forall k :: k in seen <==> CountBy(s[..i], key, k) >= 1
      invariant forall k :: k in dups <==> CountBy(s[..i], key, k) >= 2
    {
      var x := key(s[i]);
      CountByPrefixStep(s, i, key);
      if x in seen {
        dups := dups + {x};
      }
      seen := seen + {x};
      i := i + 1;
    }
    assert s[..|s|] == s;
  }
}
