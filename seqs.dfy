/** Sequence operations the pages use through JavaScript's array methods:
    `filter`, `reduce` into a sum, `slice`-style limits and `sort`. */
module Seqs {

  /** The elements of `s` that satisfy `p`, in their original order (`Array.prototype.filter`). */
  function Filter<T(==,!new)>(s: seq<T>, p: T -> bool): (r: seq<T>)
    ensures |r| <= |s|
    ensures forall x :: x in r <==> x in s && p(x)
    decreases |s|
  {
    if s == [] then []
    else (if p(s[0]) then [s[0]] else []) + Filter(s[1..], p)
  }

  /** Filtering distributes over concatenation: order is kept and nothing is moved across. */
  lemma {:induction false} FilterAppend<T(!new)>(a: seq<T>, b: seq<T>, p: T -> bool)
    ensures Filter(a + b, p) == Filter(a, p) + Filter(b, p)
    decreases |a|
  {
    if a == [] {
      assert a + b == b;
    } else {
      assert (a + b)[1..] == a[1..] + b;
      FilterAppend(a[1..], b, p);
    }
  }

  /** Filtering keeps the multiplicity of every kept element and drops every other one. */
  lemma {:induction false} FilterCount<T(!new)>(s: seq<T>, p: T -> bool, x: T)
    ensures multiset(Filter(s, p))[x] == if p(x) then multiset(s)[x] else 0
    decreases |s|
  {
    if s != [] {
      FilterCount(s[1..], p, x);
      assert s == [s[0]] + s[1..];
    }
  }

  /** Filtering with `p` and then with `q` is filtering once with both. */
  lemma {:induction false} FilterFilter<T(!new)>(s: seq<T>, p: T -> bool, q: T -> bool, pq: T -> bool)
    requires forall x :: pq(x) == (p(x) && q(x))
    ensures Filter(Filter(s, p), q) == Filter(s, pq)
    decreases |s|
  {
    if s != [] {
      FilterFilter(s[1..], p, q, pq);
      FilterAppend(if p(s[0]) then [s[0]] else [], Filter(s[1..], p), q);
    }
  }

  /** No element occurs twice. */
  ghost predicate Distinct<T>(s: seq<T>)
  {
    forall i, j :: 0 <= i < j < |s| ==> s[i] != s[j]
  }

  lemma {:induction false} DistinctAtMostOnce<T>(s: seq<T>, x: T)
    requires Distinct(s)
    ensures multiset(s)[x] <= 1
    decreases |s|
  {
    if s != [] {
      assert s == [s[0]] + s[1..];
      DistinctAtMostOnce(s[1..], x);
      if s[0] == x {
        assert x !in s[1..];
      }
    }
  }

  lemma RepeatedTwice<T>(t: seq<T>, i: nat, j: nat)
    requires i < j < |t| && t[i] == t[j]
    ensures multiset(t)[t[i]] >= 2
  {
    assert t == t[..j] + [t[j]] + t[j + 1..];
    assert t[i] in t[..j];
  }

  /** Whatever is drawn from a sequence without repeats has no repeats either. */
  lemma DistinctSub<T>(s: seq<T>, t: seq<T>)
    requires Distinct(s) && multiset(t) <= multiset(s)
    ensures Distinct(t)
  {
    forall i, j | 0 <= i < j < |t| ensures t[i] != t[j] {
      if t[i] == t[j] {
        RepeatedTwice(t, i, j);
        DistinctAtMostOnce(s, t[i]);
      }
    }
  }

  /** The sum of `f` over `s` (`reduce((sum, x) => sum + f(x), 0)`). */
  function SumBy<T>(s: seq<T>, f: T -> real): real
    decreases |s|
  {
    if s == [] then 0.0 else f(s[0]) + SumBy(s[1..], f)
  }

  lemma {:induction false} SumByAppend<T>(a: seq<T>, b: seq<T>, f: T -> real)
    ensures SumBy(a + b, f) == SumBy(a, f) + SumBy(b, f)
    decreases |a|
  {
    if a == [] {
      assert a + b == b;
    } else {
      assert (a + b)[1..] == a[1..] + b;
      SumByAppend(a[1..], b, f);
    }
  }

  /** The sum over a non-empty sequence is the sum over all but the last element plus the last. */
  lemma SumBySnoc<T>(s: seq<T>, f: T -> real)
    requires s != []
    ensures SumBy(s, f) == SumBy(s[..|s| - 1], f) + f(s[|s| - 1])
  {
    var init, last := s[..|s| - 1], s[|s| - 1];
    assert s == init + [last];
    SumByAppend(init, [last], f);
    assert SumBy([last], f) == f(last) by { assert [last][1..] == []; }
  }

  /** The same for the sum over the elements satisfying `p`. */
  lemma SumFilterSnoc<T(!new)>(s: seq<T>, p: T -> bool, f: T -> real)
    requires s != []
    ensures SumBy(Filter(s, p), f) == SumBy(Filter(s[..|s| - 1], p), f) + (if p(s[|s| - 1]) then f(s[|s| - 1]) else 0.0)
  {
    var init, last := s[..|s| - 1], s[|s| - 1];
    assert s == init + [last];
    FilterAppend(init, [last], p);
    assert Filter([last], p) == if p(last) then [last] else [] by { assert [last][1..] == []; }
    SumByAppend(Filter(init, p), Filter([last], p), f);
    assert SumBy([last], f) == f(last) by { assert [last][1..] == []; }
  }

  /** Summing over the elements that meet one of two exclusive conditions is summing over each. */
  lemma {:induction false} SumFilterOr<T(!new)>(s: seq<T>, f: T -> real, p: T -> bool, q: T -> bool, pq: T -> bool)
    requires forall x :: pq(x) == (p(x) || q(x))
    requires forall x :: !(p(x) && q(x))
    ensures SumBy(Filter(s, pq), f) == SumBy(Filter(s, p), f) + SumBy(Filter(s, q), f)
    decreases |s|
  {
    if s != [] {
      SumFilterOr(s[1..], f, p, q, pq);
      SumByAppend(if pq(s[0]) then [s[0]] else [], Filter(s[1..], pq), f);
      SumByAppend(if p(s[0]) then [s[0]] else [], Filter(s[1..], p), f);
      SumByAppend(if q(s[0]) then [s[0]] else [], Filter(s[1..], q), f);
    }
  }

  /** `[f(first), f(first + 1), ..., f(first + n - 1)]` (`Array.from({ length: n }, ...)` over
      consecutive keys). */
  function Tabulate<P>(f: int -> P, first: int, n: nat): (r: seq<P>)
    ensures |r| == n
    decreases n
  {
    if n == 0 then [] else Tabulate(f, first, n - 1) + [f(first + n - 1)]
  }

  lemma {:induction false} TabulateAt<P>(f: int -> P, first: int, n: nat)
    ensures forall i :: 0 <= i < n ==> Tabulate(f, first, n)[i] == f(first + i)
    decreases n
  {
    if n > 0 {
      TabulateAt(f, first, n - 1);
    }
  }

  /** The run of `n` values from `first` is the sequence of `f` at `first`, `first + 1`, ... */
  lemma TabulateIsSeq<P>(f: int -> P, first: int, n: nat)
    ensures Tabulate(f, first, n) == seq(n, i requires 0 <= i < n => f(first + i))
  {
    TabulateAt(f, first, n);
  }

  /** `x => lo <= key(x) < hi` */
  function KeyIn<T>(key: T -> int, lo: int, hi: int): T -> bool
  {
    x => lo <= key(x) < hi
  }

  /** Nothing passes a filter that rejects everything. */
  lemma {:induction false} FilterNone<T(!new)>(s: seq<T>, p: T -> bool)
    requires forall x :: !p(x)
    ensures Filter(s, p) == []
    decreases |s|
  {
    if s != [] {
      FilterNone(s[1..], p);
    }
  }

  /** `d => sum of h over the elements of s whose key is d` */
  function DaySum<T(==,!new)>(s: seq<T>, key: T -> int, h: T -> real): int -> real
  {
    d => SumBy(Filter(s, KeyIn(key, d, d + 1)), h)
  }

  lemma DaySumAt<T(!new)>(s: seq<T>, key: T -> int, h: T -> real, d: int)
    ensures DaySum(s, key, h)(d) == SumBy(Filter(s, KeyIn(key, d, d + 1)), h)
  {
  }

  /** The per-key sums of a run of keys together sum the elements whose key lies in the run. */
  lemma {:induction false} SumTabulate<T(!new)>(s: seq<T>, key: T -> int, h: T -> real, first: int, n: nat)
    ensures SumBy(Tabulate(DaySum(s, key, h), first, n), x => x) == SumBy(Filter(s, KeyIn(key, first, first + n)), h)
    decreases n
  {
    if n == 0 {
      FilterNone(s, KeyIn(key, first, first));
    } else {
      var m := n - 1;
      var d := first + m;
      var f := DaySum(s, key, h);
      SumTabulate(s, key, h, first, m);
      assert Tabulate(f, first, n) == Tabulate(f, first, m) + [f(d)];
      SumByAppend(Tabulate(f, first, m), [f(d)], x => x);
      assert SumBy([f(d)], x => x) == f(d) by {
        assert [f(d)][1..] == [];
      }
      SumFilterOr(s, h, KeyIn(key, first, d), KeyIn(key, d, d + 1), KeyIn(key, first, d + 1));
    }
  }

  /** Summing `g` over a tabulation of `f` is summing the tabulation of `f2` when `f2` is `g` after `f`. */
  lemma {:induction false} SumTabulateMap<P>(f: int -> P, g: P -> real, f2: int -> real, first: int, n: nat)
    requires forall d :: g(f(d)) == f2(d)
    ensures SumBy(Tabulate(f, first, n), g) == SumBy(Tabulate(f2, first, n), x => x)
    decreases n
  {
    if n > 0 {
      var m := n - 1;
      SumTabulateMap(f, g, f2, first, m);
      SumByAppend(Tabulate(f, first, m), [f(first + m)], g);
      SumByAppend(Tabulate(f2, first, m), [f2(first + m)], x => x);
      assert [f(first + m)][1..] == [];
      assert [f2(first + m)][1..] == [];
    }
  }

  /** At most the first `n` elements (`.limit(n)` on a query, `slice(0, n)` on an array). */
  function Take<T>(s: seq<T>, n: nat): (r: seq<T>)
    ensures |r| == if |s| < n then |s| else n
    ensures forall i :: 0 <= i < |r| ==> r[i] == s[i]
  {
    if |s| <= n then s else s[..n]
  }

  /** `s` is ordered by `key`, smallest first. */
  ghost predicate SortedBy<T>(s: seq<T>, key: T -> int)
  {
    forall i, j :: 0 <= i < j < |s| ==> key(s[i]) <= key(s[j])
  }

  /** Putting in front of a sorted sequence an element no larger than any of it keeps it sorted. */
  lemma SortedCons<T>(h: T, t: seq<T>, key: T -> int)
    requires SortedBy(t, key)
    requires forall i :: 0 <= i < |t| ==> key(h) <= key(t[i])
    ensures SortedBy([h] + t, key)
  {
    forall i, j | 0 <= i < j < |t| + 1 ensures key(([h] + t)[i]) <= key(([h] + t)[j]) {
      if i > 0 { assert ([h] + t)[i] == t[i - 1]; }
      assert ([h] + t)[j] == t[j - 1];
    }
  }

  /** The first element of a sorted sequence is a lower bound of any rearrangement of the rest
      with one element of larger key added. */
  lemma LowerBound<T>(s: seq<T>, x: T, rest: seq<T>, key: T -> int)
    requires s != [] && SortedBy(s, key) && key(s[0]) < key(x)
    requires multiset(rest) == multiset(s[1..]) + multiset{x}
    ensures forall i :: 0 <= i < |rest| ==> key(s[0]) <= key(rest[i])
  {
    forall i | 0 <= i < |rest| ensures key(s[0]) <= key(rest[i]) {
      var y := rest[i];
      assert y in multiset(rest);
      if y != x {
        assert y in multiset(s[1..]);
        var k :| 0 <= k < |s[1..]| && s[1..][k] == y;
        assert s[k + 1] == y;
      }
    }
  }

  /** Inserts `x` into `s` in front of the first element whose key is not smaller than `x`'s. */
  function Insert<T(==,!new)>(x: T, s: seq<T>, key: T -> int): (r: seq<T>)
    requires SortedBy(s, key)
    ensures SortedBy(r, key)
    ensures multiset(r) == multiset(s) + multiset{x}
    decreases |s|
  {
    if s == [] || key(x) <= key(s[0]) then
      SortedCons(x, s, key);
      [x] + s
    else
      var rest := Insert(x, s[1..], key);
      assert s == [s[0]] + s[1..];
      LowerBound(s, x, rest, key);
      SortedCons(s[0], rest, key);
      [s[0]] + rest
  }

  /** What is left when a prefix is taken away is the rest of the sequence. */
  lemma PrefixRest<T>(s: seq<T>, k: nat)
    requires k <= |s|
    ensures multiset(s) - multiset(s[..k]) == multiset(s[k..])
  {
    assert s == s[..k] + s[k..];
  }

  /** Nothing after position `k` of a sorted sequence has a smaller key than anything before it. */
  lemma SortedSplit<T>(s: seq<T>, k: nat, key: T -> int)
    requires k <= |s| && SortedBy(s, key)
    ensures forall x, y :: x in s[..k] && y in s[k..] ==> key(x) <= key(y)
  {
    forall x, y | x in s[..k] && y in s[k..] ensures key(x) <= key(y) {
      var j :| k <= j < |s| && s[j] == y;
      var i :| 0 <= i < k && s[i] == x;
    }
  }

  /** A prefix of a sorted sequence holds its smallest elements: it is sorted, drawn from the
      sequence, and no element left out has a smaller key than one taken. */
  lemma TakeSorted<T>(s: seq<T>, n: nat, key: T -> int)
    requires SortedBy(s, key)
    ensures SortedBy(Take(s, n), key)
    ensures multiset(Take(s, n)) <= multiset(s)
    ensures forall x, y :: x in Take(s, n) && y in multiset(s) - multiset(Take(s, n)) ==> key(x) <= key(y)
  {
    var k := |Take(s, n)|;
    assert Take(s, n) == s[..k];
    assert s == s[..k] + s[k..];
    PrefixRest(s, k);
    SortedSplit(s, k, key);
  }

  /** An insertion sort on an integer key: sorted and a permutation; the order it gives equal keys
      is not stated. */
  function SortBy<T(==,!new)>(s: seq<T>, key: T -> int): (r: seq<T>)
    ensures SortedBy(r, key)
    ensures multiset(r) == multiset(s)
    ensures |r| == |s|
    decreases |s|
  {
    if s == [] then []
    else
      assert s == [s[0]] + s[1..];
      Insert(s[0], SortBy(s[1..], key), key)
  }

  /** Inserting adds the new element's share to a sum. */
  lemma {:induction false} SumByInsert<T(!new)>(x: T, s: seq<T>, key: T -> int, f: T -> real)
    requires SortedBy(s, key)
    ensures SumBy(Insert(x, s, key), f) == f(x) + SumBy(s, f)
    decreases |s|
  {
    if s != [] && key(x) > key(s[0]) {
      SumByInsert(x, s[1..], key, f);
    }
  }

  /** Sorting does not change a sum. */
  lemma {:induction false} SumBySort<T(!new)>(s: seq<T>, key: T -> int, f: T -> real)
    ensures SumBy(SortBy(s, key), f) == SumBy(s, f)
    decreases |s|
  {
    if s != [] {
      SumBySort(s[1..], key, f);
      SumByInsert(s[0], SortBy(s[1..], key), key, f);
    }
  }
}
