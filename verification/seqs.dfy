/** The array primitives the access layer and the pages are built from
    (`filter`, `findIndex`, `splice(i, 1)`, `map`, `reduce`), as pure
    functions over `seq`, together with the facts about them that the rest of
    the model relies on: filtering is exact and keeps order, removal of the
    first match touches nothing else, and key uniqueness survives both. */
module Seqs {

  /* ---------------------------------------------------------------- filter */

  /** `s.filter(keep)`: the elements satisfying `keep`, in their original order
      (order is stated by `FilterConcat`). */
  function Filter<T(!new)>(s: seq<T>, keep: T -> bool): (r: seq<T>)
    ensures |r| <= |s|
    ensures forall x {:trigger multiset(r)[x]} ::
              multiset(r)[x] == (if keep(x) then multiset(s)[x] else 0)
    ensures forall x {:trigger x in r} :: x in r <==> x in s && keep(x)
    decreases |s|
  {
    if |s| == 0 then []
    else
      assert s == [s[0]] + s[1..];
      (if keep(s[0]) then [s[0]] else []) + Filter(s[1..], keep)
  }

  /** What a filter keeps is a sub-multiset of what it was given. */
  lemma FilterSubMultiset<T(!new)>(s: seq<T>, keep: T -> bool)
    ensures multiset(Filter(s, keep)) <= multiset(s)
  {
    var r := Filter(s, keep);
    forall x
      ensures multiset(r)[x] <= multiset(s)[x]
    {
    }
  }

  /** Filtering distributes over concatenation, so the survivors of the front
      part all come before the survivors of the back part: order is kept. */
  lemma {:induction false} FilterConcat<T(!new)>(a: seq<T>, b: seq<T>, keep: T -> bool)
    ensures Filter(a + b, keep) == Filter(a, keep) + Filter(b, keep)
    decreases |a|
  {
    if |a| == 0 {
      assert a + b == b;
    } else {
      var head := if keep(a[0]) then [a[0]] else [];
      assert (a + b)[0] == a[0] && (a + b)[1..] == a[1..] + b;
      assert Filter(a + b, keep) == head + Filter(a[1..] + b, keep);
      assert Filter(a, keep) == head + Filter(a[1..], keep);
      FilterConcat(a[1..], b, keep);
    }
  }

  /** When every element passes, filtering is the identity. */
  lemma {:induction false} FilterKeepsAll<T(!new)>(s: seq<T>, keep: T -> bool)
    requires forall i :: 0 <= i < |s| ==> keep(s[i])
    ensures Filter(s, keep) == s
    decreases |s|
  {
    if |s| > 0 {
      FilterKeepsAll(s[1..], keep);
    }
  }

  /** When no element passes, filtering yields nothing. */
  lemma {:induction false} FilterDropsAll<T(!new)>(s: seq<T>, keep: T -> bool)
    requires forall i :: 0 <= i < |s| ==> !keep(s[i])
    ensures Filter(s, keep) == []
    decreases |s|
  {
    if |s| > 0 {
      FilterDropsAll(s[1..], keep);
    }
  }

  /** When exactly the element at `i` passes, filtering yields just it. */
  lemma FilterOnlyOne<T(!new)>(s: seq<T>, keep: T -> bool, i: int)
    requires 0 <= i < |s| && keep(s[i])
    requires forall j :: 0 <= j < |s| && j != i ==> !keep(s[j])
    ensures Filter(s, keep) == [s[i]]
  {
    assert s == s[..i] + [s[i]] + s[i + 1..];
    FilterConcat(s[..i] + [s[i]], s[i + 1..], keep);
    FilterConcat(s[..i], [s[i]], keep);
    FilterDropsAll(s[..i], keep);
    FilterDropsAll(s[i + 1..], keep);
    assert [s[i]][1..] == [];
  }

  /** Filtering twice with the same predicate changes nothing the second time. */
  lemma FilterIdempotent<T(!new)>(s: seq<T>, keep: T -> bool)
    ensures Filter(Filter(s, keep), keep) == Filter(s, keep)
  {
    var r := Filter(s, keep);
    forall i | 0 <= i < |r|
      ensures keep(r[i])
    {
      assert r[i] in r;
    }
    FilterKeepsAll(r, keep);
  }

  /* ------------------------------------------------------------------ sums */

  /** `s.reduce((sum, x) => sum + f(x), 0)`. */
  function SumOf<T(!new)>(s: seq<T>, f: T -> real): real
    decreases |s|
  {
    if |s| == 0 then 0.0 else f(s[0]) + SumOf(s[1..], f)
  }

  /** A sum over a concatenation is the sum of the two parts. */
  lemma {:induction false} SumConcat<T(!new)>(a: seq<T>, b: seq<T>, f: T -> real)
    ensures SumOf(a + b, f) == SumOf(a, f) + SumOf(b, f)
    decreases |a|
  {
    if |a| == 0 {
      assert a + b == b;
    } else {
      assert (a + b)[1..] == a[1..] + b;
      SumConcat(a[1..], b, f);
    }
  }

  /** Summing `f` over the elements that pass `keep` is the same as summing,
      over all elements, a `g` that is `f` where `keep` holds and 0
      elsewhere: elements that are filtered out contribute nothing. */
  lemma {:induction false} SumFilter<T(!new)>(s: seq<T>, keep: T -> bool, f: T -> real, g: T -> real)
    requires forall i :: 0 <= i < |s| ==> g(s[i]) == (if keep(s[i]) then f(s[i]) else 0.0)
    ensures SumOf(Filter(s, keep), f) == SumOf(s, g)
    decreases |s|
  {
    if |s| > 0 {
      var head := if keep(s[0]) then [s[0]] else [];
      SumConcat(head, Filter(s[1..], keep), f);
      SumFilter(s[1..], keep, f, g);
    }
  }

  /* ------------------------------------------------------------------ take */

  /** `s.slice(0, n)`: the first `n` elements, or all of them if there are
      fewer. */
  function Take<T(!new)>(s: seq<T>, n: nat): (r: seq<T>)
    ensures |r| == if |s| <= n then |s| else n
    ensures forall i :: 0 <= i < |r| ==> r[i] == s[i]
    ensures multiset(r) <= multiset(s)
  {
    if |s| <= n then s
    else
      assert s == s[..n] + s[n..];
      s[..n]
  }

  /* -------------------------------------------------- find and remove first */

  /** `i` is the position of the first element satisfying `p`. */
  ghost predicate IsFirstMatch<T(!new)>(s: seq<T>, p: T -> bool, i: int) {
    && 0 <= i < |s|
    && p(s[i])
    && forall k :: 0 <= k < i ==> !p(s[k])
  }

  /** `s.findIndex(p)`: the first index whose element satisfies `p`, or -1. */
  function FindIndex<T(!new)>(s: seq<T>, p: T -> bool): (i: int)
    ensures -1 <= i < |s|
    ensures i == -1 <==> forall k :: 0 <= k < |s| ==> !p(s[k])
    ensures i != -1 ==> IsFirstMatch(s, p, i)
    decreases |s|
  {
    if |s| == 0 then -1
    else if p(s[0]) then 0
    else
      var j := FindIndex(s[1..], p);
      if j == -1 then -1 else j + 1
  }

  /** `const i = s.findIndex(p); if (i > -1) s.splice(i, 1);` as a value:
      the first element satisfying `p` is taken out; with none, `s` is
      returned as it was. */
  function RemoveFirst<T(!new)>(s: seq<T>, p: T -> bool): (r: seq<T>)
    ensures (forall k :: 0 <= k < |s| ==> !p(s[k])) ==> r == s
    ensures (exists k :: 0 <= k < |s| && p(s[k])) ==>
              |r| == |s| - 1 &&
              exists i :: IsFirstMatch(s, p, i) && r == s[..i] + s[i + 1..]
  {
    var i := FindIndex(s, p);
    if i > -1 then s[..i] + s[i + 1..] else s
  }

  /** Removing the first match leaves the sequence of elements failing `p`
      (given as `others`, the negation of `p`) exactly as it was: later
      elements that also match stay too, and nothing is reordered. */
  lemma RemoveFirstKeepsOthers<T(!new)>(s: seq<T>, p: T -> bool, others: T -> bool)
    requires forall x :: others(x) <==> !p(x)
    ensures Filter(RemoveFirst(s, p), others) == Filter(s, others)
  {
    var i := FindIndex(s, p);
    if i > -1 {
      assert s == s[..i] + [s[i]] + s[i + 1..];
      FilterConcat(s[..i] + [s[i]], s[i + 1..], others);
      FilterConcat(s[..i], [s[i]], others);
      FilterConcat(s[..i], s[i + 1..], others);
      assert Filter([s[i]], others) == [] by {
        assert [s[i]][1..] == [];
      }
    }
  }

  /** At most one element satisfies `p`. */
  ghost predicate AtMostOne<T(!new)>(s: seq<T>, p: T -> bool) {
    forall i, j :: 0 <= i < j < |s| && p(s[i]) ==> !p(s[j])
  }

  /** When at most one element matches, removing the first match a second
      time changes nothing: after the first removal no match is left. */
  lemma RemoveFirstTwice<T(!new)>(s: seq<T>, p: T -> bool)
    requires AtMostOne(s, p)
    ensures RemoveFirst(RemoveFirst(s, p), p) == RemoveFirst(s, p)
  {
    var i := FindIndex(s, p);
    if i > -1 {
      var r := s[..i] + s[i + 1..];
      forall k | 0 <= k < |r|
        ensures !p(r[k])
      {
        if k < i {
          assert r[k] == s[k];
        } else {
          assert r[k] == s[k + 1];
        }
      }
    }
  }

  /* ------------------------------------------------------------ uniqueness */

  /** No two elements share a key. */
  ghost predicate Unique<T(!new), K>(s: seq<T>, key: T -> K) {
    forall i, j :: 0 <= i < j < |s| ==> key(s[i]) != key(s[j])
  }

  /** `k` is the key of no element of `s`. */
  ghost predicate Fresh<T(!new), K>(s: seq<T>, key: T -> K, k: K) {
    forall i :: 0 <= i < |s| ==> key(s[i]) != k
  }

  /** Appending an element whose key is fresh keeps keys unique. */
  lemma UniqueAppend<T(!new), K>(s: seq<T>, key: T -> K, x: T)
    requires Unique(s, key)
    requires Fresh(s, key, key(x))
    ensures Unique(s + [x], key)
  {
    var t := s + [x];
    forall i, j | 0 <= i < j < |t|
      ensures key(t[i]) != key(t[j])
    {
      if j < |s| {
        assert t[i] == s[i] && t[j] == s[j];
      } else {
        assert t[i] == s[i] && t[j] == x;
      }
    }
  }

  /** Taking out the element at `i` keeps keys unique. */
  lemma UniqueSplice<T(!new), K>(s: seq<T>, key: T -> K, i: int)
    requires Unique(s, key)
    requires 0 <= i < |s|
    ensures Unique(s[..i] + s[i + 1..], key)
  {
    var t := s[..i] + s[i + 1..];
    forall a, b | 0 <= a < b < |t|
      ensures key(t[a]) != key(t[b])
    {
      var a' := if a < i then a else a + 1;
      var b' := if b < i then b else b + 1;
      assert t[a] == s[a'] && t[b] == s[b'];
    }
  }

  /** Removing the first match keeps keys unique. */
  lemma UniqueRemoveFirst<T(!new), K>(s: seq<T>, key: T -> K, p: T -> bool)
    requires Unique(s, key)
    ensures Unique(RemoveFirst(s, p), key)
  {
    var i := FindIndex(s, p);
    if i > -1 {
      UniqueSplice(s, key, i);
    }
  }

  /** Filtering keeps keys unique. */
  lemma {:induction false} UniqueFilter<T(!new), K>(s: seq<T>, key: T -> K, keep: T -> bool)
    requires Unique(s, key)
    ensures Unique(Filter(s, keep), key)
    decreases |s|
  {
    if |s| > 0 {
      var tail := s[1..];
      assert Unique(tail, key) by {
        forall i, j | 0 <= i < j < |tail|
          ensures key(tail[i]) != key(tail[j])
        {
          assert tail[i] == s[i + 1] && tail[j] == s[j + 1];
        }
      }
      UniqueFilter(tail, key, keep);
      var ft := Filter(tail, keep);
      if keep(s[0]) {
        var t := [s[0]] + ft;
        forall a, b | 0 <= a < b < |t|
          ensures key(t[a]) != key(t[b])
        {
          if a == 0 {
            assert t[b] == ft[b - 1];
            assert ft[b - 1] in ft;
            var k :| 0 <= k < |tail| && tail[k] == ft[b - 1];
            assert tail[k] == s[k + 1];
          } else {
            assert t[a] == ft[a - 1] && t[b] == ft[b - 1];
          }
        }
      } else {
        assert Filter(s, keep) == ft;
      }
    }
  }

  /** With unique keys, at most one element carries a given key: `p` is
      any test that holds exactly of the elements whose key is `k`. */
  lemma UniqueAtMostOne<T(!new), K>(s: seq<T>, key: T -> K, k: K, p: T -> bool)
    requires Unique(s, key)
    requires forall x :: p(x) <==> key(x) == k
    ensures AtMostOne(s, p)
  {
    forall i, j | 0 <= i < j < |s| && p(s[i])
      ensures !p(s[j])
    {
      assert key(s[i]) != key(s[j]);
    }
  }

  /* ------------------------------------------------------------------- map */

  /** `s.map(x => p(x) ? y : x)`: every element satisfying `p` becomes `y`. */
  function ReplaceWhere<T(!new)>(s: seq<T>, p: T -> bool, y: T): (r: seq<T>)
    ensures |r| == |s|
    ensures forall i :: 0 <= i < |s| && p(s[i]) ==> r[i] == y
    ensures forall i :: 0 <= i < |s| && !p(s[i]) ==> r[i] == s[i]
    decreases |s|
  {
    if |s| == 0 then []
    else [if p(s[0]) then y else s[0]] + ReplaceWhere(s[1..], p, y)
  }
}
