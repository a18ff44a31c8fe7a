/**
 * A JavaScript `Map` keyed by symbol: a dictionary that also remembers the order in which
 * its keys were first set. `set` on a present key keeps the key's place,
 * `delete` drops it, iteration follows `keys`.
 */
module OrderedMaps {
  import opened Wrappers

  datatype OrderedMap<V> = OrderedMap(keys: seq<string>, values: map<string, V>)
  {
    ghost predicate Valid()
    {
      && Distinct(keys)
      && (forall k :: k in values ==> k in keys)
      && (forall i :: 0 <= i < |keys| ==> keys[i] in values)
    }

    function Size(): nat
    {
      |keys|
    }

    /** `m.get(k)` */
    function Get(k: string): (r: Option<V>)
      ensures r.Some? <==> k in values
      ensures r.Some? ==> r.value == values[k]
    {
      if k in values then Some(values[k]) else None
    }

    /** `m.set(k, v)`: last write wins, a new key goes to the end. */
    function Set(k: string, v: V): (r: OrderedMap<V>)
      requires Valid()
      ensures r.Valid()
      ensures r.values == values[k := v]
      ensures k in values ==> r.keys == keys
      ensures k !in values ==> r.keys == keys + [k]
    {
      if k in values then OrderedMap(keys, values[k := v]) else OrderedMap(keys + [k], values[k := v])
    }

    /** `m.delete(k)`: the other keys keep their order. */
    function Delete(k: string): (r: OrderedMap<V>)
      requires Valid()
      ensures r.Valid()
      ensures r.values == values - {k}
      ensures r.keys == Without(keys, k)
    {
      WithoutFacts(keys, k);
      var w := Without(keys, k);
      assert forall i :: 0 <= i < |w| ==> w[i] in values by {
        forall i | 0 <= i < |w| ensures w[i] in values {
          assert w[i] in w;
        }
      }
      OrderedMap(w, values - {k})
    }
  }

  function Empty<V>(): (m: OrderedMap<V>)
    ensures m.Valid() && m.Size() == 0 && m.values == map[]
  {
    OrderedMap([], map[])
  }

  /** `keys.filter((x) => x !== k)` */
  function Without(keys: seq<string>, k: string): (r: seq<string>)
  {
    if keys == [] then []
    else if keys[0] == k then Without(keys[1..], k)
    else [keys[0]] + Without(keys[1..], k)
  }

  lemma WithoutFacts(keys: seq<string>, k: string)
    ensures forall x :: x in Without(keys, k) <==> x in keys && x != k
    ensures Distinct(keys) ==> Distinct(Without(keys, k))
    ensures k !in keys ==> Without(keys, k) == keys
  {
    WithoutMembers(keys, k);
    if Distinct(keys) {
      WithoutDistinct(keys, k);
    }
    if k !in keys {
      WithoutAbsent(keys, k);
    }
  }

  predicate Distinct(keys: seq<string>)
  {
    forall i, j :: 0 <= i < j < |keys| ==> keys[i] != keys[j]
  }

  lemma {:induction false} WithoutMembers(keys: seq<string>, k: string)
    ensures forall x :: x in Without(keys, k) <==> x in keys && x != k
  {
    if keys != [] {
      WithoutMembers(keys[1..], k);
      assert keys == [keys[0]] + keys[1..];
    }
  }

  lemma {:induction false} WithoutDistinct(keys: seq<string>, k: string)
    requires Distinct(keys)
    ensures Distinct(Without(keys, k))
  {
    if keys != [] {
      var tail := keys[1..];
      assert Distinct(tail) by {
        forall i, j | 0 <= i < j < |tail| ensures tail[i] != tail[j] {
          assert tail[i] == keys[i + 1] && tail[j] == keys[j + 1];
        }
      }
      WithoutDistinct(tail, k);
      if keys[0] != k {
        WithoutMembers(tail, k);
        assert keys[0] !in tail by {
          forall i | 0 <= i < |tail| ensures tail[i] != keys[0] {
            assert tail[i] == keys[i + 1];
          }
        }
        var rest := Without(tail, k);
        var r := [keys[0]] + rest;
        forall i, j | 0 <= i < j < |r| ensures r[i] != r[j] {
          if i == 0 { assert r[j] in rest; } else { assert r[i] == rest[i - 1] && r[j] == rest[j - 1]; }
        }
      }
    }
  }

  lemma {:induction false} WithoutAbsent(keys: seq<string>, k: string)
    requires k !in keys
    ensures Without(keys, k) == keys
  {
    if keys != [] {
      assert keys == [keys[0]] + keys[1..];
      WithoutAbsent(keys[1..], k);
    }
  }

  /** Setting a fresh key and deleting it again gives back the old key order. */
  lemma {:induction false} WithoutAppended(keys: seq<string>, k: string)
    requires k !in keys
    ensures Without(keys + [k], k) == keys
  {
    if keys == [] {
      assert [k][1..] == [];
    } else {
      assert (keys + [k])[1..] == keys[1..] + [k];
      WithoutAppended(keys[1..], k);
      assert keys == [keys[0]] + keys[1..];
    }
  }

  /** Setting a fresh key and deleting it again gives back the same map. */
  lemma SetThenDelete<V>(m: OrderedMap<V>, k: string, v: V)
    requires m.Valid() && k !in m.values
    ensures m.Set(k, v).Delete(k) == m
  {
    WithoutAppended(m.keys, k);
    assert m.values[k := v] - {k} == m.values;
  }

  /** Staging the same key twice keeps only the second value, in the first place. */
  lemma LastWriteWins<V>(m: OrderedMap<V>, k: string, v1: V, v2: V)
    requires m.Valid()
    ensures m.Set(k, v1).Set(k, v2) == m.Set(k, v2)
    ensures m.Set(k, v1).Set(k, v2).Get(k) == Some(v2)
  {
    assert m.values[k := v1][k := v2] == m.values[k := v2];
  }
}
