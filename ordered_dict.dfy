/** An insertion-ordered association list with Python `dict` semantics: assigning
    to a present key keeps its position, assigning to a new key appends it. */
module OrderedDict {
  import opened Results
  import opened Lists

  predicate DistinctKeys<K(==), V>(d: seq<(K, V)>) {
    forall i, j :: 0 <= i < j < |d| ==> d[i].0 != d[j].0
  }

  /** The position of the first entry with key `k`. */
  function IndexOf<K(==), V>(d: seq<(K, V)>, k: K): (r: Option<nat>)
    ensures r.Some? ==> r.value < |d| && d[r.value].0 == k
    ensures r.Some? ==> forall j :: 0 <= j < r.value ==> d[j].0 != k
    ensures r.None? <==> forall j :: 0 <= j < |d| ==> d[j].0 != k
  {
    if d == [] then None
    else if d[0].0 == k then Some(0)
    else match IndexOf(d[1..], k)
      case Some(i) => Some(i + 1)
      case None => None
  }

  /** `d.get(k)`. */
  function Get<K(==), V>(d: seq<(K, V)>, k: K): Option<V> {
    match IndexOf(d, k)
    case Some(i) => Some(d[i].1)
    case None => None
  }

  function Keys<K, V>(d: seq<(K, V)>): (r: seq<K>)
    ensures |r| == |d| && forall i :: 0 <= i < |d| ==> r[i] == d[i].0
  {
    if d == [] then [] else [d[0].0] + Keys(d[1..])
  }

  function Values<K, V>(d: seq<(K, V)>): (r: seq<V>)
    ensures |r| == |d| && forall i :: 0 <= i < |d| ==> r[i] == d[i].1
  {
    if d == [] then [] else [d[0].1] + Values(d[1..])
  }

  /** The keys of two lists one after the other. */
  lemma KeysAppend<K, V>(a: seq<(K, V)>, b: seq<(K, V)>)
    ensures Keys(a + b) == Keys(a) + Keys(b)
  {
    assert |Keys(a + b)| == |Keys(a) + Keys(b)|;
    forall i | 0 <= i < |a + b| ensures Keys(a + b)[i] == (Keys(a) + Keys(b))[i] {
      if i < |a| {
        assert (a + b)[i] == a[i];
      } else {
        assert (a + b)[i] == b[i - |a|];
      }
    }
  }

  /** Two lists with the same key at every position find every key at the same position. */
  lemma {:induction false} SameKeysSameIndex<K, V>(d1: seq<(K, V)>, d2: seq<(K, V)>, k: K)
    requires |d1| == |d2| && forall i :: 0 <= i < |d1| ==> d1[i].0 == d2[i].0
    ensures IndexOf(d1, k) == IndexOf(d2, k)
  {
    if d1 != [] {
      SameKeysSameIndex(d1[1..], d2[1..], k);
    }
  }

  /** Appending an entry leaves the lookup of every other key unchanged, and finds
      the appended key at the end when it was absent. */
  lemma {:induction false} AppendIndex<K, V>(d: seq<(K, V)>, k: K, v: V, k': K)
    ensures k' != k ==> IndexOf(d + [(k, v)], k') == IndexOf(d, k')
    ensures k' == k && IndexOf(d, k).None? ==> IndexOf(d + [(k, v)], k) == Some(|d|)
  {
    if d != [] {
      assert (d + [(k, v)])[1..] == d[1..] + [(k, v)];
      AppendIndex(d[1..], k, v, k');
    }
  }

  /** `d[k] = v`. */
  function Put<K(==,!new), V>(d: seq<(K, V)>, k: K, v: V): (r: seq<(K, V)>)
    ensures Get(r, k) == Some(v)
    ensures forall k' :: k' != k ==> Get(r, k') == Get(d, k')
    ensures DistinctKeys(d) ==> DistinctKeys(r)
    ensures IndexOf(d, k).Some? ==> Keys(r) == Keys(d)
    ensures IndexOf(d, k).None? ==> r == d + [(k, v)]
  {
    match IndexOf(d, k)
    case Some(i) =>
      var r := d[i := (k, v)];
      assert forall k' :: IndexOf(r, k') == IndexOf(d, k') by {
        forall k' ensures IndexOf(r, k') == IndexOf(d, k') {
          SameKeysSameIndex(r, d, k');
        }
      }
      r
    case None =>
      var r := d + [(k, v)];
      assert forall k' :: k' != k ==> IndexOf(r, k') == IndexOf(d, k') by {
        forall k' | k' != k ensures IndexOf(r, k') == IndexOf(d, k') {
          AppendIndex(d, k, v, k');
        }
      }
      AppendIndex(d, k, v, k);
      r
  }

  /** Assigning each entry of `entries` in turn: `for k, v in entries: d[k] = v`. */
  function PutAll<K(==,!new), V>(d: seq<(K, V)>, entries: seq<(K, V)>): (r: seq<(K, V)>)
    ensures DistinctKeys(d) ==> DistinctKeys(r)
    decreases |entries|
  {
    if entries == [] then d else PutAll(Put(d, entries[0].0, entries[0].1), entries[1..])
  }

  /** Assigning each entry in turn until one satisfies `stop`, which raises: that
      entry and those after it are not assigned. The flag says whether it stopped. */
  function PutAllUntil<K(==,!new), V>(d: seq<(K, V)>, entries: seq<(K, V)>, stop: ((K, V)) -> bool): (r: (seq<(K, V)>, bool))
    ensures match FirstIndex(entries, stop)
      case Some(k) => r == (PutAll(d, entries[..k]), true)
      case None => r == (PutAll(d, entries), false)
    decreases |entries|
  {
    if entries == [] then (d, false)
    else if stop(entries[0]) then
      assert entries[..0] == [];
      (d, true)
    else
      PutAllStep(d, entries, FirstIndex(entries[1..], stop));
      PutAllUntil(Put(d, entries[0].0, entries[0].1), entries[1..], stop)
  }

  /** Assigning the first entry and then a prefix of the rest is assigning a prefix. */
  lemma PutAllStep<K(!new), V>(d: seq<(K, V)>, entries: seq<(K, V)>, k: Option<nat>)
    requires entries != [] && (k.Some? ==> k.value < |entries| - 1)
    ensures k.Some? ==> PutAll(Put(d, entries[0].0, entries[0].1), entries[1..][..k.value]) == PutAll(d, entries[..k.value + 1])
  {
    if k.Some? {
      assert entries[..k.value + 1][1..] == entries[1..][..k.value];
    }
  }

  /** Assigning entries whose keys are all new, and distinct, appends them in order. */
  lemma {:induction false} PutAllFresh<K(!new), V>(d: seq<(K, V)>, entries: seq<(K, V)>)
    requires DistinctKeys(d + entries)
    ensures PutAll(d, entries) == d + entries
    decreases |entries|
  {
    if entries != [] {
      var e := entries[0];
      assert (d + entries)[|d|] == e;
      assert IndexOf(d, e.0).None? by {
        forall j | 0 <= j < |d| ensures d[j].0 != e.0 {
          assert (d + entries)[j] == d[j];
        }
      }
      var d' := d + [e];
      assert d' + entries[1..] == d + entries;
      PutAllFresh(d', entries[1..]);
    }
  }

  /** `d.pop(k, None)`: the entries whose key is `k` are dropped, the rest keep their order. */
  function Remove<K(==,!new), V(!new)>(d: seq<(K, V)>, k: K): (r: seq<(K, V)>)
    ensures forall e :: e in r <==> e in d && e.0 != k
    ensures |r| <= |d|
    ensures DistinctKeys(d) ==> DistinctKeys(r)
  {
    if d == [] then []
    else if d[0].0 == k then Remove(d[1..], k)
    else
      var rest := Remove(d[1..], k);
      assert DistinctKeys(d) ==> forall e :: e in rest ==> e.0 != d[0].0;
      [d[0]] + rest
  }

  /** In a list with distinct keys, an entry is present exactly when looking up its key finds its value. */
  lemma GetIffEntry<K, V>(d: seq<(K, V)>, k: K, v: V)
    requires DistinctKeys(d)
    ensures Get(d, k) == Some(v) <==> (k, v) in d
  {
    if (k, v) in d {
      var i :| 0 <= i < |d| && d[i] == (k, v);
      var j := IndexOf(d, k).value;
      assert i == j;
    }
  }
}
