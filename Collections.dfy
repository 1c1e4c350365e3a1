/** The Kotlin collection operations the core is built from: `filter`/`removeIf`
    (`Keep`), `count`, `indexOfFirst`, `find`, and the stable `sortedWith` /
    `sortedByDescending` (`SortBy`, an insertion sort on an integer key). */
module Collections {

  import opened Optional

  // ---------------------------------------------------------------- filter

  /** `filter(p)`: the elements that satisfy `p`, in their original order. */
  function Keep<T(!new)>(s: seq<T>, p: T -> bool): (r: seq<T>)
    ensures |r| <= |s|
    ensures forall x :: x in r <==> x in s && p(x)
  {
    if |s| == 0 then []
    else
      assert s == [s[0]] + s[1..];
      (if p(s[0]) then [s[0]] else []) + Keep(s[1..], p)
  }

  /** Each element passing `p` keeps its multiplicity; the others disappear. */
  lemma {:induction false} KeepMultiplicity<T(!new)>(s: seq<T>, p: T -> bool, x: T)
    ensures multiset(Keep(s, p))[x] == if p(x) then multiset(s)[x] else 0
  {
    if |s| > 0 {
      KeepMultiplicity(s[1..], p, x);
      assert s == [s[0]] + s[1..];
    }
  }

  /** Filtering a sequence whose elements all pass changes nothing. */
  lemma {:induction false} KeepAll<T(!new)>(s: seq<T>, p: T -> bool)
    requires forall x :: x in s ==> p(x)
    ensures Keep(s, p) == s
  {
    if |s| > 0 {
      KeepAll(s[1..], p);
      assert s == [s[0]] + s[1..];
    }
  }

  /** Filtering distributes over concatenation. */
  lemma {:induction false} KeepAppend<T(!new)>(a: seq<T>, b: seq<T>, p: T -> bool)
    ensures Keep(a + b, p) == Keep(a, p) + Keep(b, p)
  {
    if |a| > 0 {
      KeepAppend(a[1..], b, p);
      assert (a + b)[1..] == a[1..] + b;
    } else {
      assert a + b == b;
    }
  }

  /** Filtering a sequence none of whose elements passes gives the empty sequence. */
  lemma {:induction false} KeepNone<T(!new)>(s: seq<T>, p: T -> bool)
    requires forall x :: x in s ==> !p(x)
    ensures Keep(s, p) == []
  {
    if |s| > 0 {
      assert forall x :: x in s[1..] ==> x in s;
      KeepNone(s[1..], p);
      assert !p(s[0]);
    }
  }

  /** Two filters in a row are one filter by the conjunction. */
  lemma {:induction false} KeepKeep<T(!new)>(s: seq<T>, p: T -> bool, q: T -> bool, both: T -> bool)
    requires forall x :: both(x) == (p(x) && q(x))
    ensures Keep(Keep(s, p), q) == Keep(s, both)
  {
    if |s| > 0 {
      KeepKeep(s[1..], p, q, both);
      var kp := Keep(s[1..], p);
      if p(s[0]) {
        assert Keep(s, p) == [s[0]] + kp;
        assert ([s[0]] + kp)[1..] == kp;
      } else {
        assert Keep(s, p) == kp;
      }
    }
  }

  /** `count(p)`. */
  function Count<T(!new)>(s: seq<T>, p: T -> bool): (n: nat)
    ensures n <= |s|
    ensures n == 0 <==> forall x :: x in s ==> !p(x)
    ensures n == |s| <==> forall x :: x in s ==> p(x)
  {
    if |s| == 0 then 0
    else
      assert s == [s[0]] + s[1..];
      (if p(s[0]) then 1 else 0) + Count(s[1..], p)
  }

  /** Counting agrees with the length of the filtered sequence. */
  lemma {:induction false} CountIsKeepLength<T(!new)>(s: seq<T>, p: T -> bool)
    ensures Count(s, p) == |Keep(s, p)|
  {
    if |s| > 0 {
      CountIsKeepLength(s[1..], p);
    }
  }

  /** Keeping the elements with distinct keys keeps the keys distinct. */
  ghost predicate DistinctBy<T(!new), K>(s: seq<T>, f: T -> K) {
    forall i, j :: 0 <= i < j < |s| ==> f(s[i]) != f(s[j])
  }

  lemma {:induction false} KeepDistinctBy<T(!new), K>(s: seq<T>, p: T -> bool, f: T -> K)
    requires DistinctBy(s, f)
    ensures DistinctBy(Keep(s, p), f)
  {
    if |s| > 0 {
      KeepDistinctBy(s[1..], p, f);
      var rest := Keep(s[1..], p);
      assert s == [s[0]] + s[1..];
      if p(s[0]) {
        var r := [s[0]] + rest;
        assert Keep(s, p) == r;
        forall i, j | 0 <= i < j < |r|
          ensures f(r[i]) != f(r[j])
        {
          if i == 0 {
            assert r[j] == rest[j - 1] && rest[j - 1] in s[1..];
            var m :| 0 <= m < |s[1..]| && s[1..][m] == r[j];
            assert s[m + 1] == r[j];
          } else {
            assert r[i] == rest[i - 1] && r[j] == rest[j - 1];
          }
        }
      } else {
        assert Keep(s, p) == rest;
      }
    }
  }

  // ---------------------------------------------------------------- search

  /** `indexOfFirst(p)`: the position of the first element satisfying `p`, or -1. */
  function IndexOfFirst<T(!new)>(s: seq<T>, p: T -> bool): (i: int)
    ensures -1 <= i < |s|
    ensures i == -1 <==> forall x :: x in s ==> !p(x)
    ensures 0 <= i ==> p(s[i]) && forall j :: 0 <= j < i ==> !p(s[j])
  {
    if |s| == 0 then -1
    else if p(s[0]) then 0
    else
      var k := IndexOfFirst(s[1..], p);
      assert s == [s[0]] + s[1..];
      if k == -1 then -1 else k + 1
  }

  /** `find(p)` (`firstOrNull`): the first element satisfying `p`, or null. */
  function Find<T(!new)>(s: seq<T>, p: T -> bool): (r: Option<T>)
    ensures r.None? <==> forall x :: x in s ==> !p(x)
    ensures r.Some? ==> 0 <= IndexOfFirst(s, p) && r.value == s[IndexOfFirst(s, p)]
  {
    var i := IndexOfFirst(s, p);
    if i == -1 then None else Some(s[i])
  }

  // ---------------------------------------------------------------- stable sort

  predicate SortedBy<T(!new)>(s: seq<T>, key: T -> int) {
    forall i, j :: 0 <= i < j < |s| ==> key(s[i]) <= key(s[j])
  }

  /** The elements of `s` whose key is `k`, in their original order. Two sequences
      that agree on this for every `k` list equal-key elements in the same order. */
  function WithKey<T(!new)>(s: seq<T>, key: T -> int, k: int): seq<T> {
    if |s| == 0 then []
    else (if key(s[0]) == k then [s[0]] else []) + WithKey(s[1..], key, k)
  }

  /** Places `x` in front of the first element whose key is at least `x`'s. */
  function Insert<T(!new)>(x: T, s: seq<T>, key: T -> int): (r: seq<T>)
    ensures |r| == |s| + 1
    ensures multiset(r) == multiset(s) + multiset{x}
  {
    if |s| == 0 then
      [x]
    else if key(x) <= key(s[0]) then
      [x] + s
    else
      assert s == [s[0]] + s[1..];
      [s[0]] + Insert(x, s[1..], key)
  }

  lemma {:induction false} InsertSorted<T(!new)>(x: T, s: seq<T>, key: T -> int)
    requires SortedBy(s, key)
    ensures SortedBy(Insert(x, s, key), key)
  {
    if |s| > 0 && key(s[0]) < key(x) {
      var rest := Insert(x, s[1..], key);
      assert Insert(x, s, key) == [s[0]] + rest;
      InsertSorted(x, s[1..], key);
      forall y | y in rest
        ensures key(s[0]) <= key(y)
      {
        InsertMember(x, s[1..], key, y);
      }
      var r := [s[0]] + rest;
      forall i, j | 0 <= i < j < |r|
        ensures key(r[i]) <= key(r[j])
      {
        assert r[j] == rest[j - 1] && rest[j - 1] in rest;
        if i > 0 {
          assert r[i] == rest[i - 1];
        }
      }
    }
  }

  lemma {:induction false} InsertMember<T(!new)>(x: T, s: seq<T>, key: T -> int, y: T)
    ensures y in Insert(x, s, key) <==> y == x || y in s
  {
    if |s| > 0 && key(s[0]) < key(x) {
      InsertMember(x, s[1..], key, y);
      assert s == [s[0]] + s[1..];
    }
  }

  lemma WithKeyCons<T(!new)>(x: T, s: seq<T>, key: T -> int, k: int)
    ensures WithKey([x] + s, key, k) == (if key(x) == k then [x] else []) + WithKey(s, key, k)
  {
    assert ([x] + s)[1..] == s;
  }

  lemma {:induction false} InsertWithKey<T(!new)>(x: T, s: seq<T>, key: T -> int, k: int)
    ensures WithKey(Insert(x, s, key), key, k) == (if key(x) == k then [x] else []) + WithKey(s, key, k)
  {
    if |s| == 0 || key(x) <= key(s[0]) {
      assert Insert(x, s, key) == [x] + s;
      WithKeyCons(x, s, key, k);
    } else {
      var rest := Insert(x, s[1..], key);
      InsertPast(x, s, key);
      WithKeyCons(s[0], rest, key, k);
      InsertWithKey(x, s[1..], key, k);
      SwapEmpty(if key(s[0]) == k then [s[0]] else [], if key(x) == k then [x] else [], WithKey(s[1..], key, k));
    }
  }

  lemma InsertPast<T(!new)>(x: T, s: seq<T>, key: T -> int)
    requires |s| > 0 && key(x) > key(s[0])
    ensures Insert(x, s, key) == [s[0]] + Insert(x, s[1..], key)
  {
  }

  /** Two lists of which one is empty commute in front of a third. */
  lemma SwapEmpty<T>(a: seq<T>, b: seq<T>, w: seq<T>)
    requires a == [] || b == []
    ensures a + (b + w) == b + (a + w)
  {
  }

  /** Stable insertion sort by ascending key: sorted, a permutation, and elements
      with equal keys keep their relative order. */
  function SortBy<T(!new)>(s: seq<T>, key: T -> int): (r: seq<T>)
    ensures |r| == |s|
    ensures multiset(r) == multiset(s)
    ensures SortedBy(r, key)
    ensures forall k :: WithKey(r, key, k) == WithKey(s, key, k)
  {
    if |s| == 0 then []
    else
      var rest := SortBy(s[1..], key);
      assert s == [s[0]] + s[1..];
      InsertSorted(s[0], rest, key);
      assert forall k :: WithKey(Insert(s[0], rest, key), key, k) == WithKey(s, key, k) by {
        forall k ensures WithKey(Insert(s[0], rest, key), key, k) == WithKey(s, key, k) {
          InsertWithKey(s[0], rest, key, k);
        }
      }
      Insert(s[0], rest, key)
  }

  /** Sorting a sequence that is already sorted returns it unchanged. */
  lemma {:induction false} SortBySorted<T(!new)>(s: seq<T>, key: T -> int)
    requires SortedBy(s, key)
    ensures SortBy(s, key) == s
  {
    if |s| > 0 {
      SortBySorted(s[1..], key);
      assert s == [s[0]] + s[1..];
    }
  }

  lemma {:induction false} WithKeyMember<T(!new)>(s: seq<T>, key: T -> int, k: int, x: T)
    ensures x in WithKey(s, key, k) <==> x in s && key(x) == k
  {
    if |s| > 0 {
      WithKeyMember(s[1..], key, k, x);
      assert s == [s[0]] + s[1..];
    }
  }

  /** The three properties of `SortBy` pin its result down: any sorted sequence
      that lists every key's elements in the input's order is `SortBy(s, key)`. */
  lemma {:induction false} StableSortUnique<T(!new)>(s: seq<T>, r: seq<T>, key: T -> int)
    requires SortedBy(r, key)
    requires forall k :: WithKey(r, key, k) == WithKey(s, key, k)
    ensures r == SortBy(s, key)
  {
    SortedSameGroupsEqual(r, SortBy(s, key), key);
  }

  lemma {:induction false} SortedSameGroupsEqual<T(!new)>(a: seq<T>, b: seq<T>, key: T -> int)
    requires SortedBy(a, key) && SortedBy(b, key)
    requires forall k :: WithKey(a, key, k) == WithKey(b, key, k)
    ensures a == b
    decreases |a|
  {
    if |a| > 0 {
      SameGroupsSameHead(a, b, key);
    } else if |b| > 0 {
      SameGroupsSameHead(b, a, key);
    }
    if |a| > 0 {
      SameGroupsTail(a, b, key);
      SortedSameGroupsEqual(a[1..], b[1..], key);
      assert a == [a[0]] + a[1..] && b == [b[0]] + b[1..];
    }
  }

  /** Two sorted lists with the same groups start with the same element. */
  lemma SameGroupsSameHead<T(!new)>(a: seq<T>, b: seq<T>, key: T -> int)
    requires SortedBy(a, key) && SortedBy(b, key)
    requires forall k :: WithKey(a, key, k) == WithKey(b, key, k)
    requires |a| > 0
    ensures |b| > 0 && a[0] == b[0]
  {
    assert a[0] in b by {
      WithKeyMember(a, key, key(a[0]), a[0]);
      WithKeyMember(b, key, key(a[0]), a[0]);
    }
    assert b[0] in a by {
      WithKeyMember(b, key, key(b[0]), b[0]);
      WithKeyMember(a, key, key(b[0]), b[0]);
    }
    var k := key(a[0]);
    assert key(b[0]) == k;
    WithKeyCons(a[0], a[1..], key, k);
    WithKeyCons(b[0], b[1..], key, k);
    assert [a[0]] + a[1..] == a && [b[0]] + b[1..] == b;
    assert WithKey(a, key, k)[0] == WithKey(b, key, k)[0];
  }

  /** Dropping a common head keeps the groups equal. */
  lemma SameGroupsTail<T(!new)>(a: seq<T>, b: seq<T>, key: T -> int)
    requires |a| > 0 && |b| > 0 && a[0] == b[0]
    requires forall k :: WithKey(a, key, k) == WithKey(b, key, k)
    ensures forall k :: WithKey(a[1..], key, k) == WithKey(b[1..], key, k)
  {
    forall k ensures WithKey(a[1..], key, k) == WithKey(b[1..], key, k) {
      var e: seq<T> := if key(a[0]) == k then [a[0]] else [];
      var wa, wb := WithKey(a[1..], key, k), WithKey(b[1..], key, k);
      assert e + wa == e + wb by {
        WithKeyCons(a[0], a[1..], key, k);
        WithKeyCons(b[0], b[1..], key, k);
        assert [a[0]] + a[1..] == a && [b[0]] + b[1..] == b;
        assert WithKey(a, key, k) == WithKey(b, key, k);
      }
      assert (e + wa)[|e|..] == wa && (e + wb)[|e|..] == wb;
    }
  }

  /** Filtering and stably sorting, done twice with the same predicate and key,
      gives what doing it once gives. */
  lemma FilterSortIdempotent<T(!new)>(s: seq<T>, p: T -> bool, key: T -> int)
    ensures SortBy(Keep(SortBy(Keep(s, p), key), p), key) == SortBy(Keep(s, p), key)
  {
    var once := SortBy(Keep(s, p), key);
    forall x | x in once
      ensures p(x)
    {
      assert x in multiset(once);
    }
    KeepAll(once, p);
    SortBySorted(once, key);
  }
}
