/**
 * A JavaScript plain object with string keys, as the core uses it for
 * parameter bags and for the usage ledger's `daily` and `endpoints` maps:
 * its entries in insertion order, which is the order `Object.keys`
 * reports. Reading a key, assigning it (in place when present, at the end
 * otherwise) and deleting it are the three operations.
 */
module Dict {
  import opened Wrappers

  type Dict<V> = seq<(string, V)>

  /** `Object.keys(obj)`. */
  function Keys<V>(d: Dict<V>): (ks: seq<string>)
    ensures |ks| == |d|
    ensures forall i :: 0 <= i < |d| ==> ks[i] == d[i].0
  {
    seq(|d|, i requires 0 <= i < |d| => d[i].0)
  }

  /** What every object satisfies: no key appears twice. */
  predicate UniqueKeys<V>(d: Dict<V>) {
    forall i, j :: 0 <= i < j < |d| ==> d[i].0 != d[j].0
  }

  /** `obj[k]`; `None` stands for `undefined`. */
  function Get<V>(d: Dict<V>, k: string): Option<V> {
    if d == [] then None
    else if d[0].0 == k then Some(d[0].1)
    else Get(d[1..], k)
  }

  /** `obj[k] || dflt` for values that are never falsy except through absence. */
  function GetOr<V>(d: Dict<V>, k: string, dflt: V): V {
    match Get(d, k)
    case Some(v) => v
    case None => dflt
  }

  /** `obj[k] = v`: a present key keeps its place, a new key goes last. */
  function Put<V>(d: Dict<V>, k: string, v: V): Dict<V> {
    if d == [] then [(k, v)]
    else if d[0].0 == k then [(k, v)] + d[1..]
    else [d[0]] + Put(d[1..], k, v)
  }

  /** `delete obj[k]`. */
  function Remove<V>(d: Dict<V>, k: string): Dict<V> {
    if d == [] then []
    else if d[0].0 == k then Remove(d[1..], k)
    else [d[0]] + Remove(d[1..], k)
  }

  /** The mapping an object denotes, forgetting the order of its keys. */
  function ToMap<V>(d: Dict<V>): map<string, V> {
    if d == [] then map[] else ToMap(d[1..])[d[0].0 := d[0].1]
  }

  // ---------------------------------------------------------------------
  // Reading back what was written.
  // ---------------------------------------------------------------------

  /** A key is found exactly when it is one of `Object.keys`, and then with
      the value stored under it. */
  lemma {:induction false} GetFindsKey<V>(d: Dict<V>, k: string)
    ensures Get(d, k).Some? <==> k in Keys(d)
    ensures Get(d, k).Some? ==> (k, Get(d, k).value) in d
  {
    if d != [] && d[0].0 != k {
      GetFindsKey(d[1..], k);
      assert Keys(d) == [d[0].0] + Keys(d[1..]);
    }
  }

  lemma {:induction false} GetToMap<V>(d: Dict<V>, k: string)
    ensures Get(d, k) == if k in ToMap(d) then Some(ToMap(d)[k]) else None
  {
    if d != [] && d[0].0 != k {
      GetToMap(d[1..], k);
    }
  }

  /** Objects that denote the same mapping read the same at every key. */
  lemma SameMapSameGet<V>(d: Dict<V>, e: Dict<V>, k: string)
    requires ToMap(d) == ToMap(e)
    ensures Get(d, k) == Get(e, k)
  {
    GetToMap(d, k);
    GetToMap(e, k);
  }

  /** `obj[k] = v` then `obj[k']`. */
  lemma {:induction false} GetPut<V>(d: Dict<V>, k: string, v: V, k': string)
    ensures Get(Put(d, k, v), k') == if k' == k then Some(v) else Get(d, k')
  {
    if d != [] && d[0].0 != k {
      GetPut(d[1..], k, v, k');
    }
  }

  lemma GetPutEverywhere<V>(d: Dict<V>, k: string, v: V)
    ensures forall k' :: Get(Put(d, k, v), k') == if k' == k then Some(v) else Get(d, k')
  {
    forall k' {
      GetPut(d, k, v, k');
    }
  }

  /** `delete obj[k]` then `obj[k']`. */
  lemma {:induction false} GetRemove<V>(d: Dict<V>, k: string, k': string)
    ensures Get(Remove(d, k), k') == if k' == k then None else Get(d, k')
  {
    if d != [] {
      GetRemove(d[1..], k, k');
    }
  }

  // ---------------------------------------------------------------------
  // Shape: keys stay unique, sizes, and assignment order.
  // ---------------------------------------------------------------------

  lemma KeysAppend<V>(a: Dict<V>, b: Dict<V>)
    ensures Keys(a + b) == Keys(a) + Keys(b)
  {
  }

  lemma {:induction false} PutKeys<V>(d: Dict<V>, k: string, v: V)
    ensures forall x :: x in Keys(Put(d, k, v)) <==> x == k || x in Keys(d)
    ensures |Put(d, k, v)| == if k in Keys(d) then |d| else |d| + 1
  {
    if d == [] {
      assert Keys(Put(d, k, v)) == [k];
    } else {
      assert d == [d[0]] + d[1..];
      KeysAppend([d[0]], d[1..]);
      assert Keys([d[0]]) == [d[0].0];
      assert k in Keys(d) <==> d[0].0 == k || k in Keys(d[1..]);
      if d[0].0 == k {
        KeysAppend([(k, v)], d[1..]);
        assert Keys([(k, v)]) == [k];
      } else {
        PutKeys(d[1..], k, v);
        KeysAppend([d[0]], Put(d[1..], k, v));
      }
    }
  }

  lemma {:induction false} PutUnique<V>(d: Dict<V>, k: string, v: V)
    requires UniqueKeys(d)
    ensures UniqueKeys(Put(d, k, v))
  {
    if d != [] && d[0].0 != k {
      PutUnique(d[1..], k, v);
      PutKeys(d[1..], k, v);
      var r := Put(d, k, v);
      forall j | 0 < j < |r| ensures r[0].0 != r[j].0 {
        assert r[j].0 in Keys(Put(d[1..], k, v));
        assert r[j].0 == k || r[j].0 in Keys(d[1..]);
      }
    }
  }

  lemma {:induction false} RemoveKeys<V>(d: Dict<V>, k: string)
    ensures forall x :: x in Keys(Remove(d, k)) <==> x != k && x in Keys(d)
  {
    if d != [] {
      RemoveKeys(d[1..], k);
      assert Keys(d) == [d[0].0] + Keys(d[1..]);
      if d[0].0 != k {
        assert Keys(Remove(d, k)) == [d[0].0] + Keys(Remove(d[1..], k));
      }
    }
  }

  lemma {:induction false} RemoveUnique<V>(d: Dict<V>, k: string)
    requires UniqueKeys(d)
    ensures UniqueKeys(Remove(d, k))
  {
    if d != [] {
      RemoveUnique(d[1..], k);
      if d[0].0 != k {
        RemoveKeys(d[1..], k);
        var r := Remove(d, k);
        forall j | 0 < j < |r| ensures r[0].0 != r[j].0 {
          assert r[j].0 in Keys(Remove(d[1..], k));
        }
      }
    }
  }

  /** In a well-formed object every key occurs once in `Object.keys`. */
  lemma {:induction false} UniqueKeysMultiset<V>(d: Dict<V>, x: string)
    requires UniqueKeys(d)
    ensures multiset(Keys(d))[x] == if x in Keys(d) then 1 else 0
  {
    if d != [] {
      assert UniqueKeys(d[1..]);
      UniqueKeysMultiset(d[1..], x);
      assert Keys(d) == [d[0].0] + Keys(d[1..]);
      if x == d[0].0 {
        assert x !in Keys(d[1..]);
      }
    }
  }

  /** Every entry after `obj[k] = v` was there before or is the new one. */
  lemma {:induction false} PutElements<V>(d: Dict<V>, k: string, v: V)
    ensures forall x :: x in Put(d, k, v) ==> x in d || x == (k, v)
  {
    if d != [] && d[0].0 != k {
      PutElements(d[1..], k, v);
    }
  }

  /** Deleting a key from two objects laid end to end. */
  lemma {:induction false} RemoveAppend<V>(a: Dict<V>, b: Dict<V>, k: string)
    ensures Remove(a + b, k) == Remove(a, k) + Remove(b, k)
  {
    if a == [] {
      assert a + b == b;
    } else {
      assert (a + b)[0] == a[0] && (a + b)[1..] == a[1..] + b;
      RemoveAppend(a[1..], b, k);
    }
  }

  /** Deleting a key that is not there changes nothing. */
  lemma {:induction false} RemoveAbsent<V>(d: Dict<V>, k: string)
    requires k !in Keys(d)
    ensures Remove(d, k) == d
  {
    if d != [] {
      assert Keys(d) == [d[0].0] + Keys(d[1..]);
      RemoveAbsent(d[1..], k);
    }
  }
}
