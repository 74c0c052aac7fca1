/** Counting as pandas does it for this pipeline: `value_counts()` (one
    entry per distinct value with its number of occurrences, largest count
    first) and `groupby(...).size()` (group sizes, ordered by key). A table
    of counts is a sequence of (key, count) pairs. */
module Tally {

  /** Adds one occurrence of `x`: its entry is incremented in place, or a
      new entry (x, 1) goes at the end. */
  function Bump<T(==)>(t: seq<(T, nat)>, x: T): seq<(T, nat)>
  {
    if t == [] then [(x, 1)]
    else if t[0].0 == x then [(x, t[0].1 + 1)] + t[1..]
    else [t[0]] + Bump(t[1..], x)
  }

  /** Counts of the values of `xs`, one entry per distinct value, in order of
      first appearance. */
  function Occurrences<T(==)>(xs: seq<T>): seq<(T, nat)>
  {
    if xs == [] then [] else Bump(Occurrences(xs[..|xs| - 1]), xs[|xs| - 1])
  }

  function Keys<T>(t: seq<(T, nat)>): set<T>
  {
    if t == [] then {} else {t[0].0} + Keys(t[1..])
  }

  /** The count recorded for key `k`, 0 when it has no entry. */
  function CountOf<T(==)>(t: seq<(T, nat)>, k: T): nat
  {
    if t == [] then 0 else if t[0].0 == k then t[0].1 else CountOf(t[1..], k)
  }

  /** The sum of all counts. */
  function Total<T>(t: seq<(T, nat)>): nat
  {
    if t == [] then 0 else t[0].1 + Total(t[1..])
  }

  /** No key has two entries. */
  ghost predicate DistinctKeys<T>(t: seq<(T, nat)>)
  {
    t == [] || (t[0].0 !in Keys(t[1..]) && DistinctKeys(t[1..]))
  }

  ghost predicate AllPositive<T>(t: seq<(T, nat)>)
  {
    forall e :: e in t ==> e.1 >= 1
  }

  lemma {:induction false} KeysAt<T>(t: seq<(T, nat)>, k: T)
    ensures k in Keys(t) <==> exists i :: 0 <= i < |t| && t[i].0 == k
  {
    if t != [] {
      KeysAt(t[1..], k);
      if exists i :: 0 <= i < |t[1..]| && t[1..][i].0 == k {
        var i :| 0 <= i < |t[1..]| && t[1..][i].0 == k;
        assert t[i + 1].0 == k;
      }
      if exists i :: 0 <= i < |t| && t[i].0 == k {
        var i :| 0 <= i < |t| && t[i].0 == k;
        if i > 0 { assert t[1..][i - 1].0 == k; }
      }
    }
  }

  lemma {:induction false} BumpKeys<T>(t: seq<(T, nat)>, x: T)
    ensures Keys(Bump(t, x)) == Keys(t) + {x}
  {
    if t != [] && t[0].0 != x {
      BumpKeys(t[1..], x);
      assert Bump(t, x)[1..] == Bump(t[1..], x);
    } else if t != [] {
      assert Bump(t, x)[1..] == t[1..];
    }
  }

  lemma {:induction false} BumpDistinct<T>(t: seq<(T, nat)>, x: T)
    requires DistinctKeys(t)
    ensures DistinctKeys(Bump(t, x))
  {
    if t != [] && t[0].0 != x {
      BumpDistinct(t[1..], x);
      BumpKeys(t[1..], x);
      assert Bump(t, x)[1..] == Bump(t[1..], x);
    } else if t != [] {
      assert Bump(t, x)[1..] == t[1..];
    }
  }

  lemma {:induction false} BumpCounts<T>(t: seq<(T, nat)>, x: T)
    ensures Total(Bump(t, x)) == Total(t) + 1
    ensures forall k :: CountOf(Bump(t, x), k) == CountOf(t, k) + (if k == x then 1 else 0)
    ensures AllPositive(t) ==> AllPositive(Bump(t, x))
  {
    if t != [] && t[0].0 != x {
      BumpCounts(t[1..], x);
      assert Bump(t, x)[1..] == Bump(t[1..], x);
    } else if t != [] {
      assert Bump(t, x)[1..] == t[1..];
    }
  }

  /** What `value_counts()`/`groupby().size()` promise, before ordering:
      each distinct value once, each with a positive count equal to its
      number of occurrences, nothing else listed, and the counts add up to
      the number of values. */
  lemma {:induction false} OccurrencesSpec<T>(xs: seq<T>)
    ensures DistinctKeys(Occurrences(xs)) && AllPositive(Occurrences(xs))
    ensures Keys(Occurrences(xs)) == set x | x in xs
    ensures Total(Occurrences(xs)) == |xs|
    ensures forall k :: CountOf(Occurrences(xs), k) == multiset(xs)[k]
  {
    if xs != [] {
      var init, last := xs[..|xs| - 1], xs[|xs| - 1];
      OccurrencesSpec(init);
      BumpKeys(Occurrences(init), last);
      BumpDistinct(Occurrences(init), last);
      BumpCounts(Occurrences(init), last);
      assert xs == init + [last];
      assert multiset(xs) == multiset(init) + multiset{last};
      assert (set x | x in xs) == (set x | x in init) + {last};
    }
  }

  /** In a table with distinct keys, every entry holds its key's count. */
  lemma {:induction false} EntryIsCount<T>(t: seq<(T, nat)>, i: nat)
    requires DistinctKeys(t) && i < |t|
    ensures t[i].1 == CountOf(t, t[i].0)
  {
    if i > 0 {
      KeysAt(t[1..], t[i].0);
      assert t[1..][i - 1] == t[i];
      EntryIsCount(t[1..], i - 1);
    }
  }

  lemma {:induction false} CountOfAbsent<T>(t: seq<(T, nat)>, k: T)
    requires k !in Keys(t)
    ensures CountOf(t, k) == 0
  {
    if t != [] {
      CountOfAbsent(t[1..], k);
    }
  }

  /** A table with distinct keys that agrees entry by entry with the
      multiset `m`, and lists exactly the values of `m`, gives every key
      its multiplicity in `m`. */
  lemma CountOfMatches<T>(t: seq<(T, nat)>, m: multiset<T>, k: T)
    requires DistinctKeys(t)
    requires forall e :: e in t ==> e.1 == m[e.0]
    requires forall x :: x in Keys(t) <==> m[x] > 0
    ensures CountOf(t, k) == m[k]
  {
    KeysAt(t, k);
    if k in Keys(t) {
      var i :| 0 <= i < |t| && t[i].0 == k;
      EntryIsCount(t, i);
      assert t[i] in t;
    } else {
      CountOfAbsent(t, k);
    }
  }

  /** A table has distinct keys exactly when it has as many rows as keys. */
  lemma {:induction false} DistinctKeysCard<T>(t: seq<(T, nat)>)
    ensures |Keys(t)| <= |t|
    ensures DistinctKeys(t) <==> |Keys(t)| == |t|
  {
    if t != [] {
      DistinctKeysCard(t[1..]);
      if t[0].0 in Keys(t[1..]) {
        assert Keys(t) == Keys(t[1..]);
      } else {
        assert |Keys(t)| == |Keys(t[1..])| + 1;
      }
    }
  }

  // ---------------------------------------------------------------
  // Ordering of a counts table

  /** Python's `<=` on str: code-point lexicographic order. */
  predicate StrLe(a: string, b: string)
  {
    a == [] || (b != [] && (a[0] < b[0] || (a[0] == b[0] && StrLe(a[1..], b[1..]))))
  }

  lemma {:induction false} StrLeTotal(a: string, b: string)
    ensures StrLe(a, b) || StrLe(b, a)
  {
    if a != [] && b != [] && a[0] == b[0] {
      StrLeTotal(a[1..], b[1..]);
    }
  }

  /** `ByCount`: largest count first (`value_counts()`); `ByKey`: keys in
      ascending order (`groupby(...)` with its default `sort=True`). */
  datatype Order = ByCount | ByKey

  predicate Before(o: Order, a: (string, nat), b: (string, nat))
  {
    match o
    case ByCount => a.1 >= b.1
    case ByKey => StrLe(a.0, b.0)
  }

  lemma BeforeTotal(o: Order, a: (string, nat), b: (string, nat))
    ensures Before(o, a, b) || Before(o, b, a)
  {
    if o == ByKey { StrLeTotal(a.0, b.0); }
  }

  ghost predicate Sorted(o: Order, t: seq<(string, nat)>)
  {
    forall i :: 0 <= i && i + 1 < |t| ==> Before(o, t[i], t[i + 1])
  }

  /** Puts `x` in front of the first entry it may precede. */
  function Insert(o: Order, x: (string, nat), t: seq<(string, nat)>): seq<(string, nat)>
  {
    if t == [] || Before(o, x, t[0]) then [x] + t else [t[0]] + Insert(o, x, t[1..])
  }

  /** Insertion sort. An entry is inserted in front of entries it ties with,
      so ties keep their order of first appearance. */
  function SortBy(o: Order, t: seq<(string, nat)>): seq<(string, nat)>
  {
    if t == [] then [] else Insert(o, t[0], SortBy(o, t[1..]))
  }

  lemma {:induction false} InsertFacts(o: Order, x: (string, nat), t: seq<(string, nat)>)
    requires Sorted(o, t)
    ensures Sorted(o, Insert(o, x, t))
    ensures multiset(Insert(o, x, t)) == multiset(t) + multiset{x}
    ensures Insert(o, x, t)[0] == x || (t != [] && Insert(o, x, t)[0] == t[0])
  {
    if t == [] || Before(o, x, t[0]) {
    } else {
      BeforeTotal(o, x, t[0]);
      var tail := t[1..];
      assert Sorted(o, tail) by {
        forall i | 0 <= i && i + 1 < |tail| ensures Before(o, tail[i], tail[i + 1]) {
          assert tail[i] == t[i + 1] && tail[i + 1] == t[i + 2];
        }
      }
      InsertFacts(o, x, tail);
      var r := Insert(o, x, t);
      var ri := Insert(o, x, tail);
      assert r == [t[0]] + ri;
      assert t == [t[0]] + tail;
      forall i | 0 <= i && i + 1 < |r| ensures Before(o, r[i], r[i + 1]) {
        if i == 0 {
          assert r[1] == ri[0];
          if ri[0] != x { assert Before(o, t[0], t[1]); }
        } else {
          assert r[i] == ri[i - 1] && r[i + 1] == ri[i];
        }
      }
    }
  }

  /** The sorted table is in order and is a permutation of the input. */
  lemma {:induction false} SortByFacts(o: Order, t: seq<(string, nat)>)
    ensures Sorted(o, SortBy(o, t))
    ensures multiset(SortBy(o, t)) == multiset(t)
  {
    if t != [] {
      SortByFacts(o, t[1..]);
      InsertFacts(o, t[0], SortBy(o, t[1..]));
      assert t == [t[0]] + t[1..];
    }
  }

  /** `pd.Series(xs).value_counts()`: the tally, largest count first. */
  function ValueCounts(xs: seq<string>): seq<(string, nat)>
  {
    SortBy(ByCount, Occurrences(xs))
  }

  /** Everything `value_counts()` promises: one entry per distinct value,
      each with its positive number of occurrences, counts adding up to the
      number of values, and non-increasing counts from top to bottom. */
  lemma ValueCountsSpec(xs: seq<string>)
    ensures DistinctKeys(ValueCounts(xs))
    ensures |ValueCounts(xs)| == |set x | x in xs|
    ensures Keys(ValueCounts(xs)) == set x | x in xs
    ensures forall e :: e in ValueCounts(xs) ==> e.1 >= 1 && e.1 == multiset(xs)[e.0]
    ensures Total(ValueCounts(xs)) == |xs|
    ensures forall i, j :: 0 <= i < j < |ValueCounts(xs)| ==> ValueCounts(xs)[i].1 >= ValueCounts(xs)[j].1
  {
    var t := Occurrences(xs);
    OccurrencesSpec(xs);
    PermutationFacts(ByCount, t);
    var v := ValueCounts(xs);
    forall e | e in v ensures e.1 >= 1 && e.1 == multiset(xs)[e.0] {
      assert e in multiset(v);
      assert e in t;
      var i :| 0 <= i < |t| && t[i] == e;
      EntryIsCount(t, i);
    }
    DistinctKeysCard(v);
    SortedByCountAllPairs(v);
  }

  /** Sorting keeps the entries, their keys, their distinctness and their total. */
  lemma {:induction false} PermutationFacts(o: Order, t: seq<(string, nat)>)
    ensures multiset(SortBy(o, t)) == multiset(t) && Sorted(o, SortBy(o, t))
    ensures |SortBy(o, t)| == |t|
    ensures Keys(SortBy(o, t)) == Keys(t)
    ensures Total(SortBy(o, t)) == Total(t)
    ensures DistinctKeys(t) ==> DistinctKeys(SortBy(o, t))
  {
    SortByFacts(o, t);
    var s := SortBy(o, t);
    assert |s| == |multiset(s)| == |multiset(t)| == |t|;
    forall k | k in Keys(t) ensures k in Keys(s) {
      KeysAt(t, k);
      var i :| 0 <= i < |t| && t[i].0 == k;
      assert t[i] in multiset(t);
      assert t[i] in s;
      var j :| 0 <= j < |s| && s[j] == t[i];
      KeysAt(s, k);
    }
    forall k | k in Keys(s) ensures k in Keys(t) {
      KeysAt(s, k);
      var i :| 0 <= i < |s| && s[i].0 == k;
      assert s[i] in multiset(s);
      assert s[i] in t;
      var j :| 0 <= j < |t| && t[j] == s[i];
      KeysAt(t, k);
    }
    assert Keys(s) == Keys(t);
    TotalOfMultiset(s, t);
    DistinctKeysCard(t);
    DistinctKeysCard(s);
  }

  /** Two tables holding the same entries have the same total. */
  lemma {:induction false} TotalOfMultiset(s: seq<(string, nat)>, t: seq<(string, nat)>)
    requires multiset(s) == multiset(t)
    ensures Total(s) == Total(t)
    decreases |s|
  {
    if s == [] {
      assert |t| == |multiset(t)| == 0;
    } else {
      assert s[0] in multiset(t);
      var i :| 0 <= i < |t| && t[i] == s[0];
      var rest := t[..i] + t[i + 1..];
      assert t == t[..i] + [t[i]] + t[i + 1..];
      assert multiset(rest) == multiset(t) - multiset{s[0]};
      assert s == [s[0]] + s[1..];
      assert multiset(s[1..]) == multiset(rest);
      TotalOfMultiset(s[1..], rest);
      TotalRemove(t, i);
    }
  }

  lemma {:induction false} TotalRemove(t: seq<(string, nat)>, i: nat)
    requires i < |t|
    ensures Total(t) == t[i].1 + Total(t[..i] + t[i + 1..])
  {
    if i > 0 {
      TotalRemove(t[1..], i - 1);
      assert t[..i] + t[i + 1..] == [t[0]] + (t[1..][..i - 1] + t[1..][i..]);
    } else {
      assert t[..0] + t[1..] == t[1..];
    }
  }

  /** Adjacent order by count extends to every pair. */
  lemma {:induction false} SortedByCountAllPairs(t: seq<(string, nat)>)
    requires Sorted(ByCount, t)
    ensures forall i, j :: 0 <= i < j < |t| ==> t[i].1 >= t[j].1
  {
    forall i, j | 0 <= i < j < |t| ensures t[i].1 >= t[j].1 {
      var k := i;
      while k < j
        invariant i <= k <= j
        invariant t[i].1 >= t[k].1
      {
        assert Before(ByCount, t[k], t[k + 1]);
        k := k + 1;
      }
    }
  }
}
