/** Python's `dict` as the game state uses it: the keys in insertion order
    and the value stored under each. Assigning to a present key keeps its
    place; a new key goes last; deleting a key drops it from the order. */
module PyDict {

  datatype Dict<K(==, !new), V> = Dict(order: seq<K>, entries: map<K, V>)

  function EmptyDict<K(==, !new), V>(): Dict<K, V> {
    Dict([], map[])
  }

  /** The keys are listed once each, and exactly the stored ones. */
  ghost predicate DictValid<K(!new), V>(d: Dict<K, V>) {
    (forall i, j :: 0 <= i < j < |d.order| ==> d.order[i] != d.order[j])
    && (forall k :: k in d.entries <==> k in d.order)
  }

  /** `d.get(k, default)` */
  function Lookup<K(==, !new), V>(d: Dict<K, V>, k: K, default: V): (r: V)
    ensures k in d.entries ==> r == d.entries[k]
    ensures k !in d.entries ==> r == default
  {
    if k in d.entries then d.entries[k] else default
  }

  /** `d[k] = v` */
  function Assign<K(==, !new), V>(d: Dict<K, V>, k: K, v: V): (r: Dict<K, V>)
    ensures r.entries == d.entries[k := v]
    ensures k in d.entries ==> r.order == d.order
    ensures k !in d.entries ==> r.order == d.order + [k]
  {
    Dict(if k in d.entries then d.order else d.order + [k], d.entries[k := v])
  }

  /** `order` without `k`. */
  function Without<K(==, !new)>(order: seq<K>, k: K): (r: seq<K>)
    ensures forall x :: x in r <==> x in order && x != k
    ensures |r| <= |order|
  {
    if order == [] then []
    else (if order[0] == k then [] else [order[0]]) + Without(order[1..], k)
  }

  /** `d.pop(k, None)` / `del d[k]` */
  function Remove<K(==, !new), V>(d: Dict<K, V>, k: K): (r: Dict<K, V>)
    ensures r.entries == d.entries - {k}
    ensures r.order == Without(d.order, k)
  {
    Dict(Without(d.order, k), d.entries - {k})
  }

  /** Keys that stay apart stay apart once one key is dropped. */
  lemma {:induction false} WithoutDistinct<K(!new)>(order: seq<K>, k: K)
    requires forall i, j :: 0 <= i < j < |order| ==> order[i] != order[j]
    ensures forall i, j :: 0 <= i < j < |Without(order, k)| ==> Without(order, k)[i] != Without(order, k)[j]
  {
    if order != [] {
      var tail := order[1..];
      assert forall i, j :: 0 <= i < j < |tail| ==> tail[i] != tail[j] by {
        forall i, j | 0 <= i < j < |tail| ensures tail[i] != tail[j] {
          assert tail[i] == order[i + 1] && tail[j] == order[j + 1];
        }
      }
      WithoutDistinct(tail, k);
      var rest := Without(tail, k);
      var r := Without(order, k);
      assert order[0] !in tail;
      if order[0] != k {
        assert r == [order[0]] + rest;
        forall i, j | 0 <= i < j < |r| ensures r[i] != r[j] {
          if i == 0 {
            assert r[j] == rest[j - 1];
            assert rest[j - 1] in rest;
          } else {
            assert r[i] == rest[i - 1] && r[j] == rest[j - 1];
          }
        }
      } else {
        assert r == rest;
      }
    }
  }

  /** Dropping a key from an order that does not list it changes nothing. */
  lemma {:induction false} WithoutAbsent<K(!new)>(order: seq<K>, k: K)
    requires k !in order
    ensures Without(order, k) == order
  {
    if order != [] {
      assert order[0] != k;
      WithoutAbsent(order[1..], k);
      assert order == [order[0]] + order[1..];
    }
  }

  lemma AssignValid<K(!new), V>(d: Dict<K, V>, k: K, v: V)
    requires DictValid(d)
    ensures DictValid(Assign(d, k, v))
  {
    var r := Assign(d, k, v);
    if k !in d.entries {
      forall i, j | 0 <= i < j < |r.order| ensures r.order[i] != r.order[j] {
        if j == |d.order| {
          assert r.order[i] == d.order[i];
          assert d.order[i] in d.order;
        } else {
          assert r.order[i] == d.order[i] && r.order[j] == d.order[j];
        }
      }
    }
  }

  lemma RemoveValid<K(!new), V>(d: Dict<K, V>, k: K)
    requires DictValid(d)
    ensures DictValid(Remove(d, k))
  {
    WithoutDistinct(d.order, k);
    var r := Remove(d, k);
    assert forall x :: x in r.entries <==> x in r.order;
  }

  /** Removing a key that is not there leaves a valid dict as it was. */
  lemma RemoveAbsent<K(!new), V>(d: Dict<K, V>, k: K)
    requires DictValid(d) && k !in d.entries
    ensures Remove(d, k) == d
  {
    WithoutAbsent(d.order, k);
  }
}
