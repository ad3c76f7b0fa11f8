/**
 * The generic pieces behind every leaderboard the bot produces: an insertion-ordered
 * per-key tally (a Python dict filled in a loop), a stable sort by a key in descending
 * order (Python's `sorted(..., reverse=True)`, which keeps equal elements in their
 * original order) and the first `n` elements (`[:n]`, or a query's `.limit(n)`).
 */
module Ranking {

  // ---------------------------------------------------------------------------
  // Sums and first appearances
  // ---------------------------------------------------------------------------

  function Keys<K>(entries: seq<(K, int)>): (ks: seq<K>)
    ensures |ks| == |entries|
    ensures forall i :: 0 <= i < |entries| ==> ks[i] == entries[i].0
  {
    if entries == [] then [] else Keys(entries[..|entries| - 1]) + [entries[|entries| - 1].0]
  }

  /** The sum of the amounts recorded for key `k`. */
  function SumFor<K(==)>(entries: seq<(K, int)>, k: K): int {
    if entries == [] then 0
    else
      var last := entries[|entries| - 1];
      SumFor(entries[..|entries| - 1], k) + (if last.0 == k then last.1 else 0)
  }

  predicate Distinct<K(==)>(s: seq<K>) {
    forall i, j :: 0 <= i < j < |s| ==> s[i] != s[j]
  }

  /** The elements of `s`, each kept at its first appearance. */
  function Dedup<K(==)>(s: seq<K>): seq<K> {
    if s == [] then []
    else
      var d := Dedup(s[..|s| - 1]);
      if s[|s| - 1] in d then d else d + [s[|s| - 1]]
  }

  /** The position of the first occurrence of `x` in `s`. */
  function FirstIndex<K(==)>(s: seq<K>, x: K): (i: nat)
    requires x in s
    ensures i < |s| && s[i] == x && x !in s[..i]
  {
    if s[0] == x then 0 else 1 + FirstIndex(s[1..], x)
  }

  lemma FirstIndexExtend<K>(s: seq<K>, x: K, y: K)
    requires y in s
    ensures FirstIndex(s + [x], y) == FirstIndex(s, y)
  {
    if s[0] != y {
      assert (s + [x])[1..] == s[1..] + [x];
      FirstIndexExtend(s[1..], x, y);
    }
  }

  lemma FirstIndexAppendNew<K>(s: seq<K>, x: K)
    requires x !in s
    ensures FirstIndex(s + [x], x) == |s|
  {
    if s != [] {
      assert (s + [x])[1..] == s[1..] + [x];
      FirstIndexAppendNew(s[1..], x);
    }
  }

  /** Dedup keeps every element exactly once, ordered by first appearance. */
  lemma {:induction false} DedupProperties<K>(s: seq<K>)
    ensures Distinct(Dedup(s))
    ensures forall x :: x in Dedup(s) <==> x in s
    ensures forall i, j :: 0 <= i < j < |Dedup(s)| ==> FirstIndex(s, Dedup(s)[i]) < FirstIndex(s, Dedup(s)[j])
  {
    if s != [] {
      var p := s[..|s| - 1];
      var x := s[|s| - 1];
      assert s == p + [x];
      DedupProperties(p);
      var d := Dedup(p);
      forall y | y in p ensures FirstIndex(s, y) == FirstIndex(p, y) {
        FirstIndexExtend(p, x, y);
      }
      if x !in d {
        assert x !in p;
        assert FirstIndex(s, x) == |p| by {
          assert s[..|p|] == p;
        }
      }
    }
  }

  // ---------------------------------------------------------------------------
  // Insertion-ordered tally (a dict of running totals)
  // ---------------------------------------------------------------------------

  /** An insertion-ordered dict from keys to running totals. */
  datatype Tally<K> = Tally(order: seq<K>, sums: map<K, int>)

  /** `d[k] = d.get(k, 0) + amount`: a new key is appended to the insertion order. */
  function Add<K(==)>(t: Tally<K>, k: K, amount: int): Tally<K> {
    if k in t.sums then Tally(t.order, t.sums[k := t.sums[k] + amount])
    else Tally(t.order + [k], t.sums[k := amount])
  }

  /** The dict obtained by adding each entry, first to last, to an empty one. */
  function TallyOf<K(==)>(entries: seq<(K, int)>): Tally<K> {
    if entries == [] then Tally([], map[])
    else
      var last := entries[|entries| - 1];
      Add(TallyOf(entries[..|entries| - 1]), last.0, last.1)
  }

  /** The tally of the first `i + 1` entries adds entry `i` to the tally of the first `i`. */
  lemma TallyOfPrefix<K>(entries: seq<(K, int)>, i: nat)
    requires i < |entries|
    ensures TallyOf(entries[..i + 1]) == Add(TallyOf(entries[..i]), entries[i].0, entries[i].1)
  {
    assert entries[..i + 1][..i] == entries[..i];
  }

  /**
   * The tally of `entries` holds each key that occurs in them, ordered by first
   * appearance, with the sum of that key's amounts.
   */
  lemma {:induction false} TallyProperties<K>(entries: seq<(K, int)>)
    ensures TallyOf(entries).order == Dedup(Keys(entries))
    ensures forall k :: k in TallyOf(entries).sums <==> k in Keys(entries)
    ensures forall k :: k in TallyOf(entries).sums ==> TallyOf(entries).sums[k] == SumFor(entries, k)
  {
    if entries != [] {
      var p := entries[..|entries| - 1];
      var last := entries[|entries| - 1];
      TallyProperties(p);
      DedupProperties(Keys(p));
      assert Keys(entries)[..|entries| - 1] == Keys(p);
      if last.0 !in Keys(p) {
        SumForAbsent(p, last.0);
      }
    }
  }

  lemma {:induction false} SumForAbsent<K>(entries: seq<(K, int)>, k: K)
    requires k !in Keys(entries)
    ensures SumFor(entries, k) == 0
  {
    if entries != [] {
      var p := entries[..|entries| - 1];
      assert Keys(entries)[..|entries| - 1] == Keys(p);
      assert forall i :: 0 <= i < |p| ==> Keys(p)[i] == Keys(entries)[i];
      SumForAbsent(p, k);
    }
  }

  /** The dict's items, `list(d.items())`, in insertion order. */
  function Items<K(==)>(t: Tally<K>): (r: seq<(K, int)>)
    requires forall k :: k in t.order ==> k in t.sums
    ensures |r| == |t.order|
    ensures forall i :: 0 <= i < |r| ==> r[i] == (t.order[i], t.sums[t.order[i]])
    decreases |t.order|
  {
    if t.order == [] then []
    else
      var last := t.order[|t.order| - 1];
      Items(Tally(t.order[..|t.order| - 1], t.sums)) + [(last, t.sums[last])]
  }

  /** The amount of a `(key, amount)` pair, the sort key of every leaderboard. */
  function Amount<K>(e: (K, int)): int {
    e.1
  }

  /** Every key in a tally's insertion order has a total. */
  lemma TallyWellFormed<K>(entries: seq<(K, int)>)
    ensures forall k :: k in TallyOf(entries).order ==> k in TallyOf(entries).sums
  {
    TallyProperties(entries);
    DedupProperties(Keys(entries));
  }

  // ---------------------------------------------------------------------------
  // Stable descending sort
  // ---------------------------------------------------------------------------

  ghost predicate SortedDesc<T>(s: seq<T>, key: T -> int) {
    forall i, j :: 0 <= i < j < |s| ==> key(s[i]) >= key(s[j])
  }

  /** The elements of `s` whose key is `c`, in their order in `s`. */
  function WithKey<T>(s: seq<T>, key: T -> int, c: int): seq<T> {
    if s == [] then []
    else (if key(s[0]) == c then [s[0]] else []) + WithKey(s[1..], key, c)
  }

  /** Inserts `x` before the first element whose key is not larger than its own. */
  function InsertDesc<T>(x: T, s: seq<T>, key: T -> int): seq<T> {
    if s == [] then [x]
    else if key(s[0]) <= key(x) then [x] + s
    else [s[0]] + InsertDesc(x, s[1..], key)
  }

  /** `sorted(s, key=key, reverse=True)`: insertion sort, stable. */
  function SortDesc<T>(s: seq<T>, key: T -> int): seq<T> {
    if s == [] then [] else InsertDesc(s[0], SortDesc(s[1..], key), key)
  }

  lemma {:induction false} InsertBounded<T>(x: T, s: seq<T>, key: T -> int, b: int)
    requires key(x) <= b && forall j :: 0 <= j < |s| ==> key(s[j]) <= b
    ensures forall j :: 0 <= j < |InsertDesc(x, s, key)| ==> key(InsertDesc(x, s, key)[j]) <= b
  {
    if s != [] && key(s[0]) > key(x) {
      InsertBounded(x, s[1..], key, b);
    }
  }

  lemma {:induction false} InsertSorted<T>(x: T, s: seq<T>, key: T -> int)
    requires SortedDesc(s, key)
    ensures SortedDesc(InsertDesc(x, s, key), key)
    ensures multiset(InsertDesc(x, s, key)) == multiset(s) + multiset{x}
  {
    InsertPermutes(x, s, key);
    if s != [] && key(s[0]) > key(x) {
      var t := s[1..];
      SortedTail(s, key);
      InsertSorted(x, t, key);
      InsertBounded(x, t, key, key(s[0]));
      SortedCons(s[0], InsertDesc(x, t, key), key);
    }
  }

  lemma SortedTail<T>(s: seq<T>, key: T -> int)
    requires s != [] && SortedDesc(s, key)
    ensures SortedDesc(s[1..], key) && forall j :: 0 <= j < |s[1..]| ==> key(s[1..][j]) <= key(s[0])
  {
    var t := s[1..];
    forall i, j | 0 <= i < j < |t| ensures key(t[i]) >= key(t[j]) {
      assert t[i] == s[i + 1] && t[j] == s[j + 1];
    }
    forall j | 0 <= j < |t| ensures key(t[j]) <= key(s[0]) {
      assert t[j] == s[j + 1];
    }
  }

  lemma SortedCons<T>(y: T, r: seq<T>, key: T -> int)
    requires SortedDesc(r, key) && forall j :: 0 <= j < |r| ==> key(r[j]) <= key(y)
    ensures SortedDesc([y] + r, key)
  {
    var q := [y] + r;
    forall i, j | 0 <= i < j < |q| ensures key(q[i]) >= key(q[j]) {
      assert q[j] == r[j - 1];
      if i > 0 {
        assert q[i] == r[i - 1];
      }
    }
  }

  lemma {:induction false} InsertPermutes<T>(x: T, s: seq<T>, key: T -> int)
    ensures multiset(InsertDesc(x, s, key)) == multiset(s) + multiset{x}
  {
    if s != [] && key(s[0]) > key(x) {
      InsertPermutes(x, s[1..], key);
      assert s == [s[0]] + s[1..];
    }
  }

  lemma {:induction false} InsertWithKey<T>(x: T, s: seq<T>, key: T -> int, c: int)
    ensures WithKey(InsertDesc(x, s, key), key, c) ==
            (if key(x) == c then [x] else []) + WithKey(s, key, c)
  {
    if s != [] && key(s[0]) > key(x) {
      InsertWithKey(x, s[1..], key, c);
      assert ([s[0]] + InsertDesc(x, s[1..], key))[1..] == InsertDesc(x, s[1..], key);
    } else if s != [] {
      assert ([x] + s)[1..] == s;
    } else {
      assert [x][1..] == [];
    }
  }

  /**
   * The sort orders by key, descending, is a permutation of its input, and is stable:
   * the elements that share a key keep the order they had in the input.
   */
  lemma {:induction false} SortDescProperties<T>(s: seq<T>, key: T -> int)
    ensures SortedDesc(SortDesc(s, key), key)
    ensures multiset(SortDesc(s, key)) == multiset(s)
    ensures forall c :: WithKey(SortDesc(s, key), key, c) == WithKey(s, key, c)
  {
    if s != [] {
      SortDescProperties(s[1..], key);
      InsertSorted(s[0], SortDesc(s[1..], key), key);
      assert s == [s[0]] + s[1..];
      forall c ensures WithKey(SortDesc(s, key), key, c) == WithKey(s, key, c) {
        InsertWithKey(s[0], SortDesc(s[1..], key), key, c);
      }
    }
  }

  // ---------------------------------------------------------------------------
  // Top n
  // ---------------------------------------------------------------------------

  /** `s[:n]`, the first `n` elements. */
  function Take<T>(s: seq<T>, n: nat): (r: seq<T>)
    ensures |r| <= n && |r| <= |s| && r == s[..|r|]
    ensures |s| <= n ==> r == s
    ensures |s| > n ==> |r| == n
  {
    if |s| <= n then s else s[..n]
  }

  /** The top `n` of a stable descending sort: at most `n` elements, still ordered by key. */
  lemma TopProperties<T>(s: seq<T>, key: T -> int, n: nat)
    ensures |Take(SortDesc(s, key), n)| == if |s| < n then |s| else n
    ensures SortedDesc(Take(SortDesc(s, key), n), key)
    ensures Take(SortDesc(s, key), n) == [] <==> s == [] || n == 0
  {
    SortDescProperties(s, key);
    var r := SortDesc(s, key);
    assert |r| == |multiset(r)| == |multiset(s)| == |s|;
  }
}
