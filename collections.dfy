/**
 * The JavaScript collection behaviour the in-memory stores depend on: a
 * `Map` that remembers insertion order, `filter`, a stable `sort` by a
 * numeric key, and `slice(0, end)`.
 */
module Collections {
  import opened Wrappers

  /** A JavaScript Map keyed by strings: its keys in insertion order and its entries. */
  datatype JsMap<V> = JsMap(keys: seq<string>, entries: map<string, V>) {

    ghost predicate Valid() {
      && (forall i, j :: 0 <= i < j < |keys| ==> keys[i] != keys[j])
      && (forall k :: k in entries <==> k in keys)
    }

    /** Map.prototype.get */
    function Get(k: string): Option<V> {
      if k in entries then Some(entries[k]) else None
    }

    /** Map.prototype.set: a new key goes last, an existing key keeps its place. */
    function Set(k: string, v: V): (m: JsMap<V>)
      ensures m.entries == entries[k := v]
      ensures k in entries ==> m.keys == keys
      ensures k !in entries ==> m.keys == keys + [k]
    {
      JsMap(if k in entries then keys else keys + [k], entries[k := v])
    }

    /** Map.prototype.values(), in insertion order. */
    function Values(): (vs: seq<V>)
      requires Valid()
      ensures |vs| == |keys|
      ensures forall i :: 0 <= i < |keys| ==> vs[i] == entries[keys[i]]
    {
      seq(|keys|, i requires 0 <= i < |keys| => entries[keys[i]])
    }
  }

  /** Setting a key keeps the keys distinct and in step with the entries. */
  lemma SetValid<V>(m: JsMap<V>, k: string, v: V)
    requires m.Valid()
    ensures m.Set(k, v).Valid()
  {
  }

  function EmptyMap<V>(): (m: JsMap<V>)
    ensures m.Valid() && m.entries == map[]
  {
    JsMap([], map[])
  }

  /** Setting a key the map does not hold appends its value to `values()`. */
  lemma SetFreshValues<V>(m: JsMap<V>, k: string, v: V)
    requires m.Valid() && k !in m.entries
    ensures m.Set(k, v).Values() == m.Values() + [v]
  {
    var m' := m.Set(k, v);
    forall i | 0 <= i < |m.keys|
      ensures m'.Values()[i] == m.Values()[i]
    {
      assert m.keys[i] != k;
    }
  }

  /** Setting a key the map holds leaves every other value where it was. */
  lemma SetExistingValues<V>(m: JsMap<V>, k: string, v: V, i: nat)
    requires m.Valid() && k in m.entries && i < |m.keys|
    ensures |m.Set(k, v).Values()| == |m.Values()|
    ensures m.Set(k, v).Values()[i] == if m.keys[i] == k then v else m.Values()[i]
  {
  }

  /** `values()` holds exactly the values stored under some key. */
  lemma ValuesMembers<V>(m: JsMap<V>)
    requires m.Valid()
    ensures forall k :: k in m.entries ==> m.entries[k] in m.Values()
    ensures forall v :: v in m.Values() ==> exists k :: k in m.entries && m.entries[k] == v
  {
    var vs := m.Values();
    forall k | k in m.entries
      ensures m.entries[k] in vs
    {
      var i :| 0 <= i < |m.keys| && m.keys[i] == k;
      assert vs[i] == m.entries[k];
    }
    forall v | v in vs
      ensures exists k :: k in m.entries && m.entries[k] == v
    {
      var i :| 0 <= i < |vs| && vs[i] == v;
      assert m.keys[i] in m.entries;
    }
  }

  /** Array.prototype.find: the first element `p` accepts. */
  function Find<T>(s: seq<T>, p: T -> bool): (r: Option<T>)
    ensures r.None? <==> forall i :: 0 <= i < |s| ==> !p(s[i])
    ensures r.Some? ==> exists i :: 0 <= i < |s| && s[i] == r.value && p(s[i]) && forall j :: 0 <= j < i ==> !p(s[j])
  {
    match FindIndex(s, p)
    case Some(i) => Some(s[i])
    case None => None
  }

  /** Array.prototype.findIndex, with `None` for -1. */
  function FindIndex<T>(s: seq<T>, p: T -> bool): (r: Option<nat>)
    ensures r.None? <==> forall i :: 0 <= i < |s| ==> !p(s[i])
    ensures r.Some? ==> r.value < |s| && p(s[r.value]) && forall j :: 0 <= j < r.value ==> !p(s[j])
  {
    if s == [] then None
    else if p(s[0]) then Some(0)
    else
      var r := FindIndex(s[1..], p);
      assert forall i :: 1 <= i < |s| ==> s[i] == s[1..][i - 1];
      if r.Some? then Some(r.value + 1) else None
  }

  /** Array.prototype.filter */
  function Filter<T(!new)>(s: seq<T>, p: T -> bool): (r: seq<T>)
    ensures |r| <= |s|
    ensures forall i :: 0 <= i < |r| ==> p(r[i])
    ensures forall x :: x in r <==> x in s && p(x)
  {
    if s == [] then []
    else if p(s[0]) then [s[0]] + Filter(s[1..], p)
    else Filter(s[1..], p)
  }

  /** Filtering keeps every element `p` accepts, as often as it occurs. */
  lemma {:induction false} FilterMultiset<T(!new)>(s: seq<T>, p: T -> bool, x: T)
    ensures multiset(Filter(s, p))[x] == if p(x) then multiset(s)[x] else 0
  {
    if s != [] {
      FilterMultiset(s[1..], p, x);
      HeadTail(s);
      if p(s[0]) {
        assert Filter(s, p) == [s[0]] + Filter(s[1..], p);
      }
    }
  }

  lemma HeadTail<T>(s: seq<T>)
    requires s != []
    ensures s == [s[0]] + s[1..] && multiset(s) == multiset{s[0]} + multiset(s[1..])
  {
    assert s == [s[0]] + s[1..];
  }

  ghost predicate SortedBy<T>(s: seq<T>, key: T -> int) {
    forall i, j :: 0 <= i < j < |s| ==> key(s[i]) <= key(s[j])
  }

  /** Inserts `x` into sorted `s` after every element whose key is not above its own. */
  function InsertBy<T>(x: T, s: seq<T>, key: T -> int): (r: seq<T>)
    ensures multiset(r) == multiset(s) + multiset{x}
  {
    if s == [] then [x]
    else if key(x) < key(s[0]) then [x] + s
    else
      assert s == [s[0]] + s[1..];
      [s[0]] + InsertBy(x, s[1..], key)
  }

  /** Insertion keeps a sorted sequence sorted. */
  lemma {:induction false} InsertBySorted<T>(x: T, s: seq<T>, key: T -> int)
    requires SortedBy(s, key)
    ensures SortedBy(InsertBy(x, s, key), key)
  {
    if s != [] && key(x) >= key(s[0]) {
      var rest := InsertBy(x, s[1..], key);
      InsertBySorted(x, s[1..], key);
      forall j | 0 <= j < |rest|
        ensures key(s[0]) <= key(rest[j])
      {
        assert rest[j] in multiset(rest);
        if rest[j] != x {
          assert rest[j] in multiset(s[1..]);
          var i :| 0 <= i < |s[1..]| && s[1..][i] == rest[j];
          assert s[i + 1] == rest[j];
        }
      }
    }
  }

  /**
   * Array.prototype.sort with the comparator `(a, b) => key(a) - key(b)`:
   * insertion sort, which, like the engine's sort, keeps equal keys in
   * their original order.
   */
  function SortBy<T>(s: seq<T>, key: T -> int): (r: seq<T>)
    ensures multiset(r) == multiset(s)
    ensures SortedBy(r, key)
  {
    if s == [] then []
    else
      assert s == s[..|s| - 1] + [s[|s| - 1]];
      var sorted := SortBy(s[..|s| - 1], key);
      InsertBySorted(s[|s| - 1], sorted, key);
      InsertBy(s[|s| - 1], sorted, key)
  }

  /** Sorting keeps exactly the elements it was given. */
  lemma SortByMembers<T>(s: seq<T>, key: T -> int)
    ensures forall x :: x in SortBy(s, key) <==> x in s
  {
    var r := SortBy(s, key);
    assert forall x :: x in r <==> x in multiset(r);
    assert forall x :: x in s <==> x in multiset(s);
  }

  /** Two equal elements at different places are counted twice. */
  lemma TwoOccurrences<T>(s: seq<T>, i: nat, j: nat)
    requires i < j < |s|
    ensures s[i] == s[j] ==> multiset(s)[s[i]] >= 2
  {
    assert s == s[..i] + [s[i]] + s[i + 1..j] + [s[j]] + s[j + 1..];
  }

  /** In a sequence without repeats, nothing occurs more than once. */
  lemma {:induction false} DistinctCountAtMostOne<T>(s: seq<T>, x: T)
    requires forall i, j :: 0 <= i < j < |s| ==> s[i] != s[j]
    ensures multiset(s)[x] <= 1
  {
    if s != [] {
      var init := s[..|s| - 1];
      assert s == init + [s[|s| - 1]];
      assert forall k :: 0 <= k < |init| ==> init[k] != s[|s| - 1];
      assert s[|s| - 1] !in multiset(init);
      DistinctCountAtMostOne(init, x);
    }
  }

  /** The elements whose key is `k`. */
  function KeyIs<T>(key: T -> int, k: int): T -> bool {
    (x: T) => key(x) == k
  }

  /** Filtering a concatenation filters each part. */
  lemma {:induction false} FilterAppend<T(!new)>(a: seq<T>, b: seq<T>, p: T -> bool)
    ensures Filter(a + b, p) == Filter(a, p) + Filter(b, p)
  {
    if a != [] {
      assert (a + b)[0] == a[0];
      assert (a + b)[1..] == a[1..] + b;
      FilterAppend(a[1..], b, p);
    } else {
      assert a + b == b;
    }
  }

  /** No element of a sorted sequence whose first key is above `k` has key `k`. */
  lemma NoneWithSmallerKey<T(!new)>(s: seq<T>, key: T -> int, k: int)
    requires SortedBy(s, key) && s != [] && k < key(s[0])
    ensures Filter(s, KeyIs(key, k)) == []
  {
    assert forall i :: 0 <= i < |s| ==> key(s[0]) <= key(s[i]);
    assert forall x :: x in s ==> !KeyIs(key, k)(x);
  }

  /** Insertion puts `x` after every element with its key, so among those it comes last. */
  lemma {:induction false} InsertByStable<T(!new)>(x: T, s: seq<T>, key: T -> int, k: int)
    requires SortedBy(s, key)
    ensures Filter(InsertBy(x, s, key), KeyIs(key, k)) == Filter(s, KeyIs(key, k)) + Filter([x], KeyIs(key, k))
  {
    var p := KeyIs(key, k);
    if s == [] {
      assert InsertBy(x, s, key) == [x];
    } else if key(x) < key(s[0]) {
      FilterAppend([x], s, p);
      if key(x) == k {
        NoneWithSmallerKey(s, key, k);
      }
    } else {
      var rest := InsertBy(x, s[1..], key);
      InsertByStable(x, s[1..], key, k);
      FilterAppend([s[0]], rest, p);
      FilterAppend([s[0]], s[1..], p);
      assert s == [s[0]] + s[1..];
    }
  }

  /** The sort is stable: the elements with any one key keep their original order. */
  lemma {:induction false} SortByStable<T(!new)>(s: seq<T>, key: T -> int, k: int)
    ensures Filter(SortBy(s, key), KeyIs(key, k)) == Filter(s, KeyIs(key, k))
  {
    if s != [] {
      var init := s[..|s| - 1];
      assert s == init + [s[|s| - 1]];
      SortByStable(init, key, k);
      InsertByStable(s[|s| - 1], SortBy(init, key), key, k);
      FilterAppend(init, [s[|s| - 1]], KeyIs(key, k));
    }
  }

  /**
   * When none of the first `k` elements of the reversed sequence satisfies
   * `p`, an element that does lies at least `k` places from the end.
   */
  lemma NoMatchInReversedPrefix<T>(s: seq<T>, p: T -> bool, k: nat, m: nat)
    requires k <= |s| && m < |s| && p(s[m])
    requires forall j :: 0 <= j < k ==> !p(Reverse(s)[j])
    ensures m + k < |s|
  {
    var r := Reverse(s);
    var i := |s| - 1 - m;
    assert p(r[i]);
  }

  /** An element outside a prefix of a sorted sequence has a key no smaller than any in the prefix. */
  lemma SortedPrefixBelow<T>(s: seq<T>, key: T -> int, n: nat, e: T)
    requires SortedBy(s, key) && n <= |s|
    requires e in s && e !in s[..n]
    ensures forall t :: t in s[..n] ==> key(t) <= key(e)
  {
    assert s == s[..n] + s[n..];
    assert e in s[n..];
    var m :| 0 <= m < |s[n..]| && s[n..][m] == e;
    var k := n + m;
    assert s[k] == e;
    forall t | t in s[..n]
      ensures key(t) <= key(e)
    {
      var j :| 0 <= j < n && s[..n][j] == t;
    }
  }

  /** In a sequence whose keys strictly decrease, what a prefix keeps has a larger key than what it leaves out. */
  lemma DecreasingPrefixAbove<T>(s: seq<T>, key: T -> int, n: nat, e: T, t: T)
    requires forall i, j :: 0 <= i < j < |s| ==> key(s[i]) > key(s[j])
    requires n <= |s| && e in s && e !in s[..n] && t in s[..n]
    ensures key(t) > key(e)
  {
    var m :| 0 <= m < |s| && s[m] == e;
    assert forall i :: 0 <= i < n ==> s[..n][i] == s[i];
    var j :| 0 <= j < n && s[..n][j] == t;
    assert s[j] == t;
  }

  /** And what a suffix keeps has a smaller key than what it leaves out. */
  lemma DecreasingSuffixBelow<T>(s: seq<T>, key: T -> int, n: nat, e: T, t: T)
    requires forall i, j :: 0 <= i < j < |s| ==> key(s[i]) > key(s[j])
    requires n <= |s| && e in s && e !in s[n..] && t in s[n..]
    ensures key(t) < key(e)
  {
    var m :| 0 <= m < |s| && s[m] == e;
    assert forall i :: n <= i < |s| ==> s[n..][i - n] == s[i];
    var j :| 0 <= j < |s| - n && s[n..][j] == t;
    assert s[n + j] == t;
  }

  /** Array.prototype.slice(0, end), where a negative `end` counts from the back. */
  function SliceTo<T>(s: seq<T>, end: int): (r: seq<T>)
    ensures |r| <= |s| && r == s[..|r|]
    ensures end >= 0 ==> |r| == if end <= |s| then end else |s|
    ensures end < 0 ==> |r| == if |s| + end > 0 then |s| + end else 0
    ensures forall x :: x in r ==> x in s
  {
    if end >= 0 then (if end <= |s| then s[..end] else s)
    else if |s| + end > 0 then s[..|s| + end]
    else []
  }

  /** A cut of a sorted sequence is sorted, and a cut past its end is the whole of it. */
  lemma SliceToSorted<T>(s: seq<T>, key: T -> int, end: int)
    requires SortedBy(s, key)
    ensures SortedBy(SliceTo(s, end), key)
    ensures end >= |s| ==> SliceTo(s, end) == s
  {
  }

  /** The sequence back to front. */
  function Reverse<T>(s: seq<T>): (r: seq<T>)
    ensures |r| == |s|
    ensures forall i :: 0 <= i < |s| ==> r[i] == s[|s| - 1 - i]
  {
    if s == [] then [] else [s[|s| - 1]] + Reverse(s[..|s| - 1])
  }

  ghost predicate StrictlyIncreasing<T>(s: seq<T>, key: T -> int) {
    forall i, j :: 0 <= i < j < |s| ==> key(s[i]) < key(s[j])
  }

  /** In a strictly increasing sequence no element comes after a later one. */
  lemma IncreasingNotAfter<T>(s: seq<T>, key: T -> int, i: nat, j: nat)
    requires StrictlyIncreasing(s, key) && i <= j < |s|
    ensures key(s[i]) <= key(s[j])
  {
    if i < j {
      assert key(s[i]) < key(s[j]);
    }
  }

  /** Filtering keeps the order of what it keeps. */
  lemma {:induction false} FilterIncreasing<T(!new)>(s: seq<T>, p: T -> bool, key: T -> int)
    requires StrictlyIncreasing(s, key)
    ensures StrictlyIncreasing(Filter(s, p), key)
  {
    if s != [] {
      FilterIncreasing(s[1..], p, key);
      var rest := Filter(s[1..], p);
      forall x | x in rest
        ensures key(s[0]) < key(x)
      {
        var j :| 0 <= j < |s[1..]| && s[1..][j] == x;
        assert s[j + 1] == x;
      }
    }
  }

  /**
   * `Take` on a list in strictly decreasing key order: a non-negative count
   * keeps elements above every element it leaves out, a negative one
   * elements below every element it leaves out.
   */
  lemma TakeOfDecreasing<T>(s: seq<T>, key: T -> int, n: int)
    requires forall i, j :: 0 <= i < j < |s| ==> key(s[i]) > key(s[j])
    ensures n >= 0 ==> forall e, t :: e in s && e !in Take(s, n) && t in Take(s, n) ==> key(t) > key(e)
    ensures n < 0 ==> forall e, t :: e in s && e !in Take(s, n) && t in Take(s, n) ==> key(t) < key(e)
  {
    var r := Take(s, n);
    if n >= 0 {
      forall e, t | e in s && e !in r && t in r
        ensures key(t) > key(e)
      {
        DecreasingPrefixAbove(s, key, |r|, e, t);
      }
    } else {
      forall e, t | e in s && e !in r && t in r
        ensures key(t) < key(e)
      {
        DecreasingSuffixBelow(s, key, |s| - |r|, e, t);
      }
    }
  }

  /**
   * Prisma's `take: n` on an ordered result: the first `n` rows, or for a
   * negative `n` the last `-n` rows.
   */
  function Take<T>(s: seq<T>, n: int): (r: seq<T>)
    ensures n >= 0 ==> r == s[..if n <= |s| then n else |s|]
    ensures n < 0 ==> r == s[if -n <= |s| then |s| + n else 0..]
  {
    if n >= 0 then (if n <= |s| then s[..n] else s)
    else if -n <= |s| then s[|s| + n..] else s
  }
}
