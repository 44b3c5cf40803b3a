/** Generic list operations the handlers are written with: `next(...)` over a
    generator, list comprehensions with a condition, slicing a prefix, and the
    stable `list.sort(key=..., reverse=True)`. */
module Lists {
  import opened Results

  /** `next((i for i, x in enumerate(s) if p(x)), None)`: the first position whose element satisfies `p`. */
  function FirstIndex<T>(s: seq<T>, p: T -> bool): (r: Option<nat>)
    ensures r.Some? ==> r.value < |s| && p(s[r.value])
    ensures r.Some? ==> forall j :: 0 <= j < r.value ==> !p(s[j])
    ensures r.None? <==> forall j :: 0 <= j < |s| ==> !p(s[j])
  {
    if s == [] then None
    else if p(s[0]) then Some(0)
    else match FirstIndex(s[1..], p)
      case Some(i) => Some(i + 1)
      case None => None
  }

  /** The first position whose element satisfies `p` is the one before which none does. */
  lemma FirstIndexAt<T>(s: seq<T>, p: T -> bool, k: nat)
    requires k < |s| && p(s[k]) && forall j :: 0 <= j < k ==> !p(s[j])
    ensures FirstIndex(s, p) == Some(k)
  {
  }

  /** `next((x for x in s if p(x)), None)`. */
  function First<T(!new)>(s: seq<T>, p: T -> bool): (r: Option<T>)
    ensures r.Some? ==> r.value in s && p(r.value)
    ensures r.Some? ==> exists i :: 0 <= i < |s| && s[i] == r.value && forall j :: 0 <= j < i ==> !p(s[j])
    ensures r.None? <==> forall x :: x in s ==> !p(x)
  {
    match FirstIndex(s, p)
    case Some(i) => Some(s[i])
    case None => None
  }

  /** `[x for x in s if p(x)]`. */
  function Filter<T(!new)>(s: seq<T>, p: T -> bool): (r: seq<T>)
    ensures |r| <= |s|
    ensures forall x :: x in r <==> x in s && p(x)
    ensures forall i :: 0 <= i < |r| ==> p(r[i])
  {
    if s == [] then []
    else if p(s[0]) then [s[0]] + Filter(s[1..], p)
    else Filter(s[1..], p)
  }

  lemma {:induction false} FilterAppend<T(!new)>(a: seq<T>, b: seq<T>, p: T -> bool)
    ensures Filter(a + b, p) == Filter(a, p) + Filter(b, p)
  {
    if a == [] {
      assert a + b == b;
    } else {
      assert (a + b)[1..] == a[1..] + b;
      FilterAppend(a[1..], b, p);
    }
  }

  /** Filtering keeps each element as many times as it occurs, when it satisfies the condition. */
  lemma {:induction false} FilterMultiset<T(!new)>(s: seq<T>, p: T -> bool, x: T)
    ensures multiset(Filter(s, p))[x] == if p(x) then multiset(s)[x] else 0
  {
    if s != [] {
      assert s == [s[0]] + s[1..];
      FilterMultiset(s[1..], p, x);
    }
  }

  function Min(a: int, b: int): int { if a <= b then a else b }

  /** `s[:n]` for a non-negative `n`: the whole list when it is shorter. */
  function Take<T>(s: seq<T>, n: nat): (r: seq<T>)
    ensures |r| == if n < |s| then n else |s|
    ensures r <= s
  {
    if n < |s| then s[..n] else s
  }

  /** A prefix holds no element more often than the whole list. */
  lemma TakeMultiset<T>(s: seq<T>, n: nat)
    ensures multiset(Take(s, n)) <= multiset(s)
  {
    var r := Take(s, n);
    assert s == r + s[|r|..];
  }

  /** The elements with key `k` of a prefix are a prefix of those of the whole list. */
  lemma TakeWithKey<T(!new)>(s: seq<T>, n: nat, key: T -> int, k: int)
    ensures WithKey(Take(s, n), key, k) <= WithKey(s, key, k)
  {
    var r := Take(s, n);
    assert s == r + s[|r|..];
    WithKeyAppend(r, s[|r|..], key, k);
  }

  /** Descending by `key`. */
  predicate SortedDesc<T>(s: seq<T>, key: T -> int) {
    forall i, j :: 0 <= i < j < |s| ==> key(s[i]) >= key(s[j])
  }

  /** The elements whose key is `k`, in their order. */
  function WithKey<T(!new)>(s: seq<T>, key: T -> int, k: int): seq<T> {
    Filter(s, x => key(x) == k)
  }

  /** The elements with key `k` of a concatenation are those of each part, in turn. */
  lemma {:induction false} WithKeyAppend<T(!new)>(a: seq<T>, b: seq<T>, key: T -> int, k: int)
    ensures WithKey(a + b, key, k) == WithKey(a, key, k) + WithKey(b, key, k)
  {
    FilterAppend(a, b, x => key(x) == k);
  }

  /** Puts `x` in front of the first element whose key is not greater than its own. */
  function Insert<T(!new)>(x: T, s: seq<T>, key: T -> int): (r: seq<T>)
    ensures |r| == |s| + 1
    ensures multiset(r) == multiset(s) + multiset{x}
    ensures SortedDesc(s, key) ==> SortedDesc(r, key)
  {
    if s == [] || key(s[0]) <= key(x) then
      [x] + s
    else
      var t := Insert(x, s[1..], key);
      assert s == [s[0]] + s[1..];
      assert SortedDesc(s, key) ==> SortedDesc([s[0]] + t, key) by {
        if SortedDesc(s, key) {
          BoundedKeys(s[1..], t, x, key, key(s[0]));
        }
      }
      [s[0]] + t
  }

  /** A list holding the elements of `u` and `x` has no key above a bound that
      `x` and every element of `u` respect. */
  lemma BoundedKeys<T>(u: seq<T>, t: seq<T>, x: T, key: T -> int, b: int)
    requires multiset(t) == multiset(u) + multiset{x}
    requires key(x) <= b && forall i :: 0 <= i < |u| ==> key(u[i]) <= b
    ensures forall j :: 0 <= j < |t| ==> key(t[j]) <= b
  {
    forall j | 0 <= j < |t| ensures key(t[j]) <= b {
      assert t[j] in multiset(u) + multiset{x};
      if t[j] != x {
        var k :| 0 <= k < |u| && u[k] == t[j];
      }
    }
  }

  /** `sorted(s, key=key, reverse=True)`: a stable insertion sort, descending. */
  function SortDesc<T(!new)>(s: seq<T>, key: T -> int): (r: seq<T>)
    ensures |r| == |s|
    ensures multiset(r) == multiset(s)
    ensures SortedDesc(r, key)
  {
    if s == [] then []
    else
      assert s == [s[0]] + s[1..];
      Insert(s[0], SortDesc(s[1..], key), key)
  }

  /** The first `n` of `s` sorted descending: sorted, and holding no element more often
      than `s` does. */
  lemma TakeSortDesc<T(!new)>(s: seq<T>, key: T -> int, n: nat)
    ensures SortedDesc(Take(SortDesc(s, key), n), key)
    ensures multiset(Take(SortDesc(s, key), n)) <= multiset(s)
    ensures forall x :: x in Take(SortDesc(s, key), n) ==> x in s
  {
    var sorted := SortDesc(s, key);
    var r := Take(sorted, n);
    TakeMultiset(sorted, n);
    forall x | x in r ensures x in s {
      assert x in multiset(r);
    }
  }

  /** Cutting a descending list keeps the greatest keys: an element of `s` left out of
      the first `n` has no greater key than any element kept. */
  lemma TakeSortDescGreatest<T(!new)>(s: seq<T>, key: T -> int, n: nat, out: T, kept: T)
    requires out in s && out !in Take(SortDesc(s, key), n)
    requires kept in Take(SortDesc(s, key), n)
    ensures key(out) <= key(kept)
  {
    var sorted := SortDesc(s, key);
    var r := Take(sorted, n);
    assert out in multiset(sorted);
    var j :| 0 <= j < |sorted| && sorted[j] == out;
    var i :| 0 <= i < |r| && r[i] == kept;
    assert forall k :: 0 <= k < |r| ==> r[k] == sorted[k];
    assert j >= |r|;
  }

  /** Inserting `x` into a descending list lands it after every element with a
      greater key and before every element with the same key. */
  lemma {:induction false} InsertWithKey<T(!new)>(x: T, s: seq<T>, key: T -> int, k: int)
    requires SortedDesc(s, key)
    ensures WithKey(Insert(x, s, key), key, k) == if key(x) == k then [x] + WithKey(s, key, k) else WithKey(s, key, k)
  {
    if s == [] || key(s[0]) <= key(x) {
    } else {
      InsertWithKey(x, s[1..], key, k);
      var t := Insert(x, s[1..], key);
      assert Insert(x, s, key) == [s[0]] + t;
      assert ([s[0]] + t)[1..] == t;
    }
  }

  /** `list.sort(reverse=True)` is stable: elements with equal keys keep their relative order. */
  lemma {:induction false} SortDescStable<T(!new)>(s: seq<T>, key: T -> int, k: int)
    ensures WithKey(SortDesc(s, key), key, k) == WithKey(s, key, k)
  {
    if s != [] {
      SortDescStable(s[1..], key, k);
      InsertWithKey(s[0], SortDesc(s[1..], key), key, k);
    }
  }
}
