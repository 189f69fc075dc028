/** Python's insertion-ordered `dict`, as a sequence of key/value pairs.

    The simulator iterates its dictionaries in insertion order and sums over them, so
    the order is kept.  `Put` overwrites in place or appends, `Pop` drops one entry.
 */
module OrderedDicts {

  type Dict<K, V> = seq<(K, V)>

  predicate Has<K(==), V>(d: Dict<K, V>, k: K) {
    d != [] && (d[0].0 == k || Has(d[1..], k))
  }

  /** No key twice. */
  predicate Distinct<K(==), V>(d: Dict<K, V>) {
    d == [] || (!Has(d[1..], d[0].0) && Distinct(d[1..]))
  }

  function Get<K(==), V>(d: Dict<K, V>, k: K): V
    requires Has(d, k)
  {
    if d[0].0 == k then d[0].1 else Get(d[1..], k)
  }

  function Pop<K(==), V>(d: Dict<K, V>, k: K): Dict<K, V> {
    if d == [] then []
    else if d[0].0 == k then d[1..]
    else [d[0]] + Pop(d[1..], k)
  }

  function Put<K(==), V>(d: Dict<K, V>, k: K, v: V): Dict<K, V> {
    if d == [] then [(k, v)]
    else if d[0].0 == k then [(k, v)] + d[1..]
    else [d[0]] + Put(d[1..], k, v)
  }

  /** The keys left after `Pop` are the other keys, each still at most once. */
  lemma {:induction false} PopKeys<K, V>(d: Dict<K, V>, k: K)
    requires Distinct(d)
    ensures Distinct(Pop(d, k))
    ensures forall x :: Has(Pop(d, k), x) <==> Has(d, x) && x != k
  {
    if d != [] && d[0].0 != k {
      PopKeys(d[1..], k);
      assert Pop(d, k)[1..] == Pop(d[1..], k);
    }
  }

  lemma {:induction false} PutKeys<K, V>(d: Dict<K, V>, k: K, v: V)
    requires Distinct(d)
    ensures Distinct(Put(d, k, v))
    ensures forall x :: Has(Put(d, k, v), x) <==> Has(d, x) || x == k
  {
    if d != [] {
      if d[0].0 == k {
        assert Put(d, k, v)[1..] == d[1..];
      } else {
        PutKeys(d[1..], k, v);
        assert Put(d, k, v)[1..] == Put(d[1..], k, v);
      }
    }
  }

  lemma {:induction false} PutAbsent<K, V>(d: Dict<K, V>, k: K, v: V)
    requires !Has(d, k)
    ensures Put(d, k, v) == d + [(k, v)]
  {
    if d != [] {
      PutAbsent(d[1..], k, v);
      assert d + [(k, v)] == [d[0]] + (d[1..] + [(k, v)]);
    }
  }

  /** What `Get` returns after `Put`. */
  lemma {:induction false} GetPut<K, V>(d: Dict<K, V>, k: K, v: V, x: K)
    ensures Has(Put(d, k, v), k) && Get(Put(d, k, v), k) == v
    ensures x != k && Has(d, x) ==> Has(Put(d, k, v), x) && Get(Put(d, k, v), x) == Get(d, x)
  {
    if d != [] {
      if d[0].0 == k {
        assert Put(d, k, v)[1..] == d[1..];
      } else {
        GetPut(d[1..], k, v, x);
        assert Put(d, k, v)[1..] == Put(d[1..], k, v);
      }
    }
  }

  /** Popping a key leaves what the others map to. */
  lemma {:induction false} GetPop<K, V>(d: Dict<K, V>, k: K, x: K)
    requires x != k && Has(d, x)
    ensures Has(Pop(d, k), x) && Get(Pop(d, k), x) == Get(d, x)
  {
    if d[0].0 == k {
    } else {
      assert Pop(d, k)[1..] == Pop(d[1..], k);
      if d[0].0 != x { GetPop(d[1..], k, x); }
    }
  }
}
