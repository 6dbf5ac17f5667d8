/** Keyed accumulators built by `reduce` into a plain object (`acc[k] = (acc[k] || 0) + v`)
    and read back with `Object.entries`: one bucket per key, in the order keys first appear. That
    is the order JavaScript gives to keys that are neither integer-like (`"10"`, listed first in
    numeric order) nor inherited from `Object.prototype` (`"constructor"`, whose initial value is
    a function, not 0); the model treats every key as such an ordinary key. */
module Tally {
  import Seqs

  datatype Bucket<K> = Bucket(key: K, value: real)

  function Keys<K>(t: seq<Bucket<K>>): (ks: seq<K>)
    ensures |ks| == |t|
    ensures forall i :: 0 <= i < |t| ==> ks[i] == t[i].key
  {
    seq(|t|, i requires 0 <= i < |t| => t[i].key)
  }

  /** No key has two buckets (an object has one property per name). */
  ghost predicate UniqueKeys<K>(t: seq<Bucket<K>>)
  {
    forall i, j :: 0 <= i < j < |t| ==> t[i].key != t[j].key
  }

  /** The value under `k`, or 0 when there is no bucket (`acc[k] || 0`). */
  function Lookup<K(==)>(t: seq<Bucket<K>>, k: K): real
    decreases |t|
  {
    if t == [] then 0.0
    else if t[0].key == k then t[0].value
    else Lookup(t[1..], k)
  }

  /** `acc[k] = (acc[k] || 0) + v`: adds to an existing bucket in place, or appends a new one. */
  function Add<K(==)>(t: seq<Bucket<K>>, k: K, v: real): (r: seq<Bucket<K>>)
    ensures Keys(r) == if k in Keys(t) then Keys(t) else Keys(t) + [k]
    decreases |t|
  {
    if t == [] then [Bucket(k, v)]
    else if t[0].key == k then [Bucket(k, t[0].value + v)] + t[1..]
    else [t[0]] + Add(t[1..], k, v)
  }

  /** The sum of all bucket values. */
  function Total<K>(t: seq<Bucket<K>>): real
    decreases |t|
  {
    if t == [] then 0.0 else t[0].value + Total(t[1..])
  }

  lemma {:induction false} AddTotal<K>(t: seq<Bucket<K>>, k: K, v: real)
    ensures Total(Add(t, k, v)) == Total(t) + v
    decreases |t|
  {
    if t != [] && t[0].key != k {
      AddTotal(t[1..], k, v);
    }
  }

  lemma {:induction false} AddLookup<K>(t: seq<Bucket<K>>, k: K, v: real, j: K)
    requires UniqueKeys(t)
    ensures Lookup(Add(t, k, v), j) == Lookup(t, j) + (if j == k then v else 0.0)
    decreases |t|
  {
    if t != [] && t[0].key != k {
      AddLookup(t[1..], k, v, j);
    } else if t != [] && j != k {
      LookupAbsent(t[1..], k);
    }
  }

  lemma {:induction false} LookupAbsent<K>(t: seq<Bucket<K>>, k: K)
    requires k !in Keys(t)
    ensures Lookup(t, k) == 0.0
    decreases |t|
  {
    if t != [] {
      assert Keys(t)[0] == t[0].key;
      assert Keys(t[1..]) == Keys(t)[1..];
      LookupAbsent(t[1..], k);
    }
  }

  lemma AddUnique<K>(t: seq<Bucket<K>>, k: K, v: real)
    requires UniqueKeys(t)
    ensures UniqueKeys(Add(t, k, v))
  {
    var r := Add(t, k, v);
    forall i, j | 0 <= i < j < |r| ensures r[i].key != r[j].key {
      assert Keys(r)[i] == r[i].key && Keys(r)[j] == r[j].key;
      assert Keys(t)[i] == t[i].key;
      if j < |t| {
        assert Keys(t)[j] == t[j].key;
      }
    }
  }

  /** `s.reduce((acc, x) => { acc[key(x)] = (acc[key(x)] || 0) + val(x); return acc }, {})` */
  function Accumulate<T, K(==)>(s: seq<T>, key: T -> K, val: T -> real): (r: seq<Bucket<K>>)
    ensures UniqueKeys(r)
    decreases |s|
  {
    if s == [] then []
    else
      var acc := Accumulate(s[..|s| - 1], key, val);
      AddUnique(acc, key(s[|s| - 1]), val(s[|s| - 1]));
      Add(acc, key(s[|s| - 1]), val(s[|s| - 1]))
  }

  /** `x => key(x) === k` */
  function KeyIs<T, K(==)>(key: T -> K, k: K): T -> bool
  {
    x => key(x) == k
  }

  /** The buckets together hold exactly the sum of all values accumulated. */
  lemma {:induction false} AccumulateTotal<T, K>(s: seq<T>, key: T -> K, val: T -> real)
    ensures Total(Accumulate(s, key, val)) == Seqs.SumBy(s, val)
    decreases |s|
  {
    if s != [] {
      var init, last := s[..|s| - 1], s[|s| - 1];
      var acc := Accumulate(init, key, val);
      assert Total(Accumulate(s, key, val)) == Total(acc) + val(last) by {
        assert Accumulate(s, key, val) == Add(acc, key(last), val(last));
        AddTotal(acc, key(last), val(last));
      }
      assert Seqs.SumBy(s, val) == Seqs.SumBy(init, val) + val(last) by {
        Seqs.SumBySnoc(s, val);
      }
      AccumulateTotal(init, key, val);
    }
  }

  /** The bucket of `k` holds the sum of the values of exactly the elements whose key is `k`. */
  lemma {:induction false} AccumulateLookup<T(!new), K(!new)>(s: seq<T>, key: T -> K, val: T -> real, k: K)
    ensures Lookup(Accumulate(s, key, val), k) == Seqs.SumBy(Seqs.Filter(s, KeyIs(key, k)), val)
    decreases |s|
  {
    if s != [] {
      var init, last := s[..|s| - 1], s[|s| - 1];
      var acc := Accumulate(init, key, val);
      var added := if key(last) == k then val(last) else 0.0;
      assert Lookup(Accumulate(s, key, val), k) == Lookup(acc, k) + added by {
        assert Accumulate(s, key, val) == Add(acc, key(last), val(last));
        AddLookup(acc, key(last), val(last), k);
      }
      assert Seqs.SumBy(Seqs.Filter(s, KeyIs(key, k)), val) == Seqs.SumBy(Seqs.Filter(init, KeyIs(key, k)), val) + added by {
        Seqs.SumFilterSnoc(s, KeyIs(key, k), val);
      }
      AccumulateLookup(init, key, val, k);
    }
  }

  function Value<K>(b: Bucket<K>): real
  {
    b.value
  }

  /** The total is the sum of the bucket values, whatever the order of the buckets. */
  lemma {:induction false} TotalIsSum<K>(t: seq<Bucket<K>>)
    ensures Total(t) == Seqs.SumBy(t, Value)
    decreases |t|
  {
    if t != [] {
      TotalIsSum(t[1..]);
    }
  }

  /** There is a bucket for a key exactly when some element has that key. */
  lemma {:induction false} AccumulateKeys<T, K>(s: seq<T>, key: T -> K, val: T -> real, k: K)
    ensures k in Keys(Accumulate(s, key, val)) <==> exists x :: x in s && key(x) == k
    decreases |s|
  {
    if s != [] {
      var init, last := s[..|s| - 1], s[|s| - 1];
      var acc := Accumulate(init, key, val);
      assert k in Keys(Accumulate(s, key, val)) <==> k in Keys(acc) || k == key(last) by {
        assert Accumulate(s, key, val) == Add(acc, key(last), val(last));
      }
      assert (exists x :: x in s && key(x) == k) <==> (exists x :: x in init && key(x) == k) || key(last) == k by {
        assert s == init + [last];
        if exists x :: x in s && key(x) == k {
          var x :| x in s && key(x) == k;
          if x != last {
            assert x in init;
          }
        }
        if exists x :: x in init && key(x) == k {
          var x :| x in init && key(x) == k;
          assert x in s;
        }
      }
      AccumulateKeys(init, key, val, k);
    }
  }

  /** One status and how many rows have it (`statusCounts` of the queue endpoints). */
  datatype Count = Count(status: string, count: nat)

  /** `acc[s] = (acc[s] || 0) + 1` */
  function Bump(c: seq<Count>, s: string): seq<Count>
    decreases |c|
  {
    if c == [] then [Count(s, 1)]
    else if c[0].status == s then [Count(s, c[0].count + 1)] + c[1..]
    else [c[0]] + Bump(c[1..], s)
  }

  /** The count recorded for `s`, 0 when absent. */
  function CountOf(c: seq<Count>, s: string): nat
    decreases |c|
  {
    if c == [] then 0
    else if c[0].status == s then c[0].count
    else CountOf(c[1..], s)
  }

  function CountTotal(c: seq<Count>): nat
    decreases |c|
  {
    if c == [] then 0 else c[0].count + CountTotal(c[1..])
  }

  ghost predicate UniqueStatuses(c: seq<Count>)
  {
    forall i, j :: 0 <= i < j < |c| ==> c[i].status != c[j].status
  }

  /** The status-count fold, left to right. */
  function CountStatuses(statuses: seq<string>): seq<Count>
    decreases |statuses|
  {
    if statuses == [] then []
    else Bump(CountStatuses(statuses[..|statuses| - 1]), statuses[|statuses| - 1])
  }

  lemma {:induction false} BumpTotal(c: seq<Count>, s: string)
    ensures CountTotal(Bump(c, s)) == CountTotal(c) + 1
    decreases |c|
  {
    if c != [] && c[0].status != s {
      BumpTotal(c[1..], s);
    }
  }

  lemma {:induction false} BumpCount(c: seq<Count>, s: string, q: string)
    ensures CountOf(Bump(c, s), q) == CountOf(c, q) + (if q == s then 1 else 0)
    decreases |c|
  {
    if c != [] && c[0].status != s {
      BumpCount(c[1..], s, q);
    } else if c != [] && q != s {
      assert CountOf(Bump(c, s), q) == CountOf(c[1..], q);
    }
  }

  function Statuses(c: seq<Count>): set<string>
  {
    set j | 0 <= j < |c| :: c[j].status
  }

  lemma StatusesCons(h: Count, t: seq<Count>)
    ensures Statuses([h] + t) == {h.status} + Statuses(t)
  {
    var l := [h] + t;
    forall x | x in Statuses(t) ensures x in Statuses(l) {
      var j :| 0 <= j < |t| && t[j].status == x;
      assert l[j + 1] == t[j];
    }
    forall x | x in Statuses(l) ensures x in {h.status} + Statuses(t) {
      var j :| 0 <= j < |l| && l[j].status == x;
      if j > 0 { assert l[j] == t[j - 1]; }
    }
    assert l[0] == h;
  }

  lemma {:induction false} BumpStatuses(c: seq<Count>, s: string)
    ensures Statuses(Bump(c, s)) == Statuses(c) + {s}
    decreases |c|
  {
    if c == [] {
      assert Bump(c, s) == [Count(s, 1)] + c;
      StatusesCons(Count(s, 1), c);
    } else if c[0].status == s {
      assert c == [c[0]] + c[1..];
      StatusesCons(c[0], c[1..]);
      StatusesCons(Count(s, c[0].count + 1), c[1..]);
    } else {
      BumpStatuses(c[1..], s);
      assert c == [c[0]] + c[1..];
      StatusesCons(c[0], c[1..]);
      StatusesCons(c[0], Bump(c[1..], s));
    }
  }

  /** A list of counts headed by `h` has no repeated status when its tail has none and `h`'s
      status is not in the tail. */
  lemma UniqueCons(h: Count, t: seq<Count>)
    requires UniqueStatuses(t) && h.status !in Statuses(t)
    ensures UniqueStatuses([h] + t)
  {
    var l := [h] + t;
    forall i, j | 0 <= i < j < |l| ensures l[i].status != l[j].status {
      assert l[j] == t[j - 1];
      if i > 0 {
        assert l[i] == t[i - 1];
      }
    }
  }

  lemma {:induction false} BumpUnique(c: seq<Count>, s: string)
    requires UniqueStatuses(c)
    ensures UniqueStatuses(Bump(c, s))
    decreases |c|
  {
    if c == [] {
    } else if c[0].status == s {
      var b := Bump(c, s);
      forall i, j | 0 <= i < j < |b| ensures b[i].status != b[j].status {
        assert b[j] == c[j];
        if i > 0 {
          assert b[i] == c[i];
        }
      }
    } else {
      var t := c[1..];
      assert UniqueStatuses(t) by {
        forall i, j | 0 <= i < j < |t| ensures t[i].status != t[j].status {
          assert t[i] == c[i + 1] && t[j] == c[j + 1];
        }
      }
      BumpUnique(t, s);
      assert c[0].status !in Statuses(Bump(t, s)) by {
        BumpStatuses(t, s);
        forall j | 0 <= j < |t| ensures t[j].status != c[0].status {
          assert t[j] == c[j + 1];
        }
      }
      UniqueCons(c[0], Bump(t, s));
    }
  }

  /** Every row is counted once: the counts add up to the number of rows. */
  lemma {:induction false} CountStatusesTotal(statuses: seq<string>)
    ensures CountTotal(CountStatuses(statuses)) == |statuses|
    decreases |statuses|
  {
    if statuses != [] {
      CountStatusesTotal(statuses[..|statuses| - 1]);
      BumpTotal(CountStatuses(statuses[..|statuses| - 1]), statuses[|statuses| - 1]);
    }
  }

  /** The count recorded for each status is the number of rows with that status. */
  lemma {:induction false} CountStatusesExact(statuses: seq<string>, q: string)
    ensures CountOf(CountStatuses(statuses), q) == multiset(statuses)[q]
    decreases |statuses|
  {
    if statuses != [] {
      var init := statuses[..|statuses| - 1];
      CountStatusesExact(init, q);
      BumpCount(CountStatuses(init), statuses[|statuses| - 1], q);
      assert statuses == init + [statuses[|statuses| - 1]];
    }
  }

  /** No status appears twice among the counts. */
  lemma {:induction false} CountStatusesUnique(statuses: seq<string>)
    ensures UniqueStatuses(CountStatuses(statuses))
    decreases |statuses|
  {
    if statuses != [] {
      CountStatusesUnique(statuses[..|statuses| - 1]);
      BumpUnique(CountStatuses(statuses[..|statuses| - 1]), statuses[|statuses| - 1]);
    }
  }

  /** The fold both queue `GET` handlers run over the status column: one count per distinct status,
      adding up to the number of rows, each equal to the number of rows with that status. */
  function Summarize(statuses: seq<string>): (r: seq<Count>)
    ensures CountTotal(r) == |statuses|
    ensures UniqueStatuses(r)
    ensures forall q :: CountOf(r, q) == multiset(statuses)[q]
  {
    CountStatusesTotal(statuses);
    CountStatusesUnique(statuses);
    assert forall q :: CountOf(CountStatuses(statuses), q) == multiset(statuses)[q] by {
      forall q ensures CountOf(CountStatuses(statuses), q) == multiset(statuses)[q] {
        CountStatusesExact(statuses, q);
      }
    }
    CountStatuses(statuses)
  }

  /** The reply of a queue `GET`: a 500 on a read error, otherwise the total and the counts. */
  datatype StatsResponse = StatsError | Stats(total: nat, statusCounts: seq<Count>)
}
