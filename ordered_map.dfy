/**
 * A std::map<int64, V> as what an in-order walk of it yields: the
 * (key, value) pairs with strictly ascending keys. The executor's find
 * functions and its instance listing walk the map this way.
 */
module OrderedMap {
  import opened Outcomes

  type Entries<V> = seq<(int, V)>

  ghost predicate Ascending<V>(es: Entries<V>) {
    forall i, j :: 0 <= i < j < |es| ==> es[i].0 < es[j].0
  }

  /** The dictionary the entries stand for. */
  function ToMap<V>(es: Entries<V>): (m: map<int, V>)
    ensures forall i :: 0 <= i < |es| ==> es[i].0 in m
  {
    if es == [] then map[] else ToMap(es[1..])[es[0].0 := es[0].1]
  }

  predicate HasKey<V>(es: Entries<V>, k: int) {
    exists i :: 0 <= i < |es| && es[i].0 == k
  }

  /** The keys of the dictionary are exactly the keys that occur in the walk. */
  lemma {:induction false} ToMapHasKey<V>(es: Entries<V>, k: int)
    ensures k in ToMap(es) <==> HasKey(es, k)
    decreases |es|
  {
    if es != [] {
      ToMapHasKey(es[1..], k);
      if HasKey(es, k) && k != es[0].0 {
        var i :| 0 <= i < |es| && es[i].0 == k;
        assert es[1..][i - 1].0 == k;
      }
    }
  }

  lemma {:induction false} ToMapAt<V>(es: Entries<V>, i: int)
    requires Ascending(es) && 0 <= i < |es|
    ensures ToMap(es)[es[i].0] == es[i].1
  {
    if i > 0 {
      ToMapAt(es[1..], i - 1);
    }
  }

  /** Dropping the first entry drops exactly the least key. */
  lemma {:induction false} ToMapTail<V>(es: Entries<V>)
    requires Ascending(es) && es != []
    ensures es[0].0 !in ToMap(es[1..])
    ensures ToMap(es[1..]) == ToMap(es) - {es[0].0}
  {
    ToMapHasKey(es[1..], es[0].0);
  }

  lemma TailAscending<V>(es: Entries<V>)
    requires Ascending(es) && es != []
    ensures Ascending(es[1..])
  {
  }

  /** The first entry of an ascending walk holds the least key of the dictionary. */
  lemma {:induction false} FirstIsLeast<V>(es: Entries<V>, k: int)
    requires Ascending(es) && k in ToMap(es)
    ensures es[0].0 <= k
    decreases |es|
  {
    if k != es[0].0 {
      TailAscending(es);
      FirstIsLeast(es[1..], k);
    }
  }

  /** Putting a smaller key in front of an ascending walk keeps it ascending. */
  lemma ConsAscending<V>(x: (int, V), t: Entries<V>)
    requires Ascending(t) && (t != [] ==> x.0 < t[0].0)
    ensures Ascending([x] + t)
  {
  }

  lemma ToMapCons<V>(x: (int, V), t: Entries<V>)
    ensures ToMap([x] + t) == ToMap(t)[x.0 := x.1]
  {
    assert ([x] + t)[1..] == t;
  }


  /** Assignment `m[k] = v`: overwrites the value of an existing key. */
  function Put<V>(es: Entries<V>, k: int, v: V): (r: Entries<V>)
    requires Ascending(es)
    ensures Ascending(r)
    ensures ToMap(r) == ToMap(es)[k := v]
    ensures r != [] && r[0].0 == (if es == [] || k < es[0].0 then k else es[0].0)
    decreases |es|
  {
    if es == [] || k < es[0].0 then
      ConsAscending((k, v), es);
      [(k, v)] + es
    else if k == es[0].0 then
      TailAscending(es);
      ConsAscending((k, v), es[1..]);
      [(k, v)] + es[1..]
    else
      TailAscending(es);
      var tail := Put(es[1..], k, v);
      ConsAscending(es[0], tail);
      ToMapCons(es[0], tail);
      [es[0]] + tail
  }

  /** std::map::insert: adds the pair only when the key is absent, and never overwrites. */
  function Insert<V>(es: Entries<V>, k: int, v: V): (r: Entries<V>)
    requires Ascending(es)
    ensures Ascending(r)
    ensures k in ToMap(es) ==> ToMap(r) == ToMap(es)
    ensures k !in ToMap(es) ==> ToMap(r) == ToMap(es)[k := v]
  {
    ToMapHasKey(es, k);
    if HasKey(es, k) then es else Put(es, k, v)
  }

  /** Putting twice under one key keeps only the second value. */
  lemma PutTwice<V>(es: Entries<V>, k: int, v1: V, v2: V)
    requires Ascending(es)
    ensures Put(Put(es, k, v1), k, v2) == Put(es, k, v2)
  {
    AscendingUnique(Put(Put(es, k, v1), k, v2), Put(es, k, v2));
  }

  /** The loop of find_wasm_file and find_exported_func_list: walk the entries in key order. */
  method Find<V>(es: Entries<V>, k: int) returns (r: Option<V>)
    requires Ascending(es)
    ensures k in ToMap(es) ==> r == Some(ToMap(es)[k])
    ensures k !in ToMap(es) ==> r == None
  {
    var i := 0;
    while i < |es|
      invariant 0 <= i <= |es|
      invariant forall j :: 0 <= j < i ==> es[j].0 != k
    {
      if es[i].0 == k {
        ToMapAt(es, i);
        return Some(es[i].1);
      }
      i := i + 1;
    }
    ToMapHasKey(es, k);
    return None;
  }

  /**
   * An ascending walk is determined by the dictionary alone: two ascending
   * entry sequences with the same contents are the same sequence.
   */
  lemma {:induction false} AscendingUnique<V>(a: Entries<V>, b: Entries<V>)
    requires Ascending(a) && Ascending(b) && ToMap(a) == ToMap(b)
    ensures a == b
    decreases |a|
  {
    if a != [] && b != [] {
      assert a[0].0 in ToMap(b) && b[0].0 in ToMap(a);
      FirstIsLeast(a, b[0].0);
      FirstIsLeast(b, a[0].0);
      ToMapAt(a, 0);
      ToMapAt(b, 0);
      ToMapTail(a);
      ToMapTail(b);
      TailAscending(a);
      TailAscending(b);
      AscendingUnique(a[1..], b[1..]);
      assert a == [a[0]] + a[1..] && b == [b[0]] + b[1..];
    }
  }

  /** Inserting two distinct keys in either order yields the same walk: the order is by key, not by insertion. */
  lemma InsertOrderIrrelevant<V>(es: Entries<V>, k1: int, v1: V, k2: int, v2: V)
    requires Ascending(es) && k1 != k2
    ensures Insert(Insert(es, k1, v1), k2, v2) == Insert(Insert(es, k2, v2), k1, v1)
  {
    var a := Insert(Insert(es, k1, v1), k2, v2);
    var b := Insert(Insert(es, k2, v2), k1, v1);
    assert ToMap(a) == ToMap(b);
    AscendingUnique(a, b);
  }
}
