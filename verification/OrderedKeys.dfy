/** The key order of a bounded ordered dictionary: touching a key moves it to the end, and a
    dictionary over its limit loses its first key. */
module OrderedKeys {

  function Without<K(==)>(order: seq<K>, key: K): seq<K> {
    if order == [] then []
    else Without(order[..|order| - 1], key) + (if order[|order| - 1] == key then [] else [order[|order| - 1]])
  }

  predicate Distinct<K(==)>(order: seq<K>) {
    forall i, j :: 0 <= i < j < |order| ==> order[i] != order[j]
  }

  lemma {:induction false} WithoutRemoves<K>(order: seq<K>, key: K)
    requires Distinct(order)
    ensures Distinct(Without(order, key))
    ensures forall k :: k in Without(order, key) <==> k in order && k != key
    ensures |Without(order, key)| == if key in order then |order| - 1 else |order|
  {
    if order != [] {
      var init, last := order[..|order| - 1], order[|order| - 1];
      WithoutRemoves(init, key);
      assert order == init + [last];
      assert last !in init;
    }
  }

  function Touched<K(==)>(order: seq<K>, key: K, limit: nat): seq<K> {
    var moved := Without(order, key) + [key];
    if |moved| > limit then moved[1..] else moved
  }

  /** The keys lost when `key` is touched: none, or the least recently touched one. */
  function Evicted<K(==)>(order: seq<K>, key: K, limit: nat): set<K> {
    var moved := Without(order, key) + [key];
    if |moved| > limit then {moved[0]} else {}
  }

  ghost predicate InStep<K(!new)>(order: seq<K>, keys: set<K>, limit: nat) {
    && Distinct(order)
    && |order| <= limit
    && (forall k :: k in order <==> k in keys)
  }

  lemma {:induction false} DistinctCounts<K>(order: seq<K>)
    requires Distinct(order)
    ensures |set k | k in order| == |order|
  {
    if order != [] {
      var init, last := order[..|order| - 1], order[|order| - 1];
      DistinctCounts(init);
      assert order == init + [last] && last !in init;
      assert (set k | k in order) == (set k | k in init) + {last};
    }
  }

  lemma InStepBounds<K(!new)>(order: seq<K>, keys: set<K>, limit: nat)
    requires InStep(order, keys, limit)
    ensures |keys| == |order| <= limit
  {
    DistinctCounts(order);
    assert keys == set k | k in order;
  }

  /** Nothing is lost but the least recently touched other key, and that only when a new key meets a full
      dictionary; the touched key comes last, and the others keep their order. */
  lemma EvictsOldest<K>(order: seq<K>, key: K, limit: nat)
    requires Distinct(order) && 0 < |order| <= limit
    ensures key !in order && |order| == limit ==>
              Evicted(order, key, limit) == {order[0]} && Touched(order, key, limit) == order[1..] + [key]
    ensures key !in order && |order| < limit ==>
              Evicted(order, key, limit) == {} && Touched(order, key, limit) == order + [key]
    ensures key in order ==>
              && Evicted(order, key, limit) == {} && |Touched(order, key, limit)| == |order|
              && Touched(order, key, limit) == Without(order, key) + [key]
  {
    WithoutRemoves(order, key);
    if key !in order {
      WithoutAbsent(order, key);
      assert (order + [key])[1..] == order[1..] + [key];
    }
  }

  lemma {:induction false} WithoutAbsent<K>(order: seq<K>, key: K)
    requires key !in order
    ensures Without(order, key) == order
  {
    if order != [] {
      var init, last := order[..|order| - 1], order[|order| - 1];
      WithoutAbsent(init, key);
      assert order == init + [last];
    }
  }

  /** Touching a key keeps order and keys in step, within the limit, and never loses the key itself. */
  lemma TouchedKeepsStep<K(!new)>(order: seq<K>, keys: set<K>, key: K, limit: nat)
    requires InStep(order, keys, limit) && limit > 0
    ensures InStep(Touched(order, key, limit), keys + {key} - Evicted(order, key, limit), limit)
    ensures key in Touched(order, key, limit) && key !in Evicted(order, key, limit)
  {
    WithoutRemoves(order, key);
    var rest := Without(order, key);
    var moved := rest + [key];
    assert Distinct(moved);
    assert forall k :: k in moved <==> k in keys + {key};
    if |moved| > limit {
      assert moved[0] == rest[0] && moved[0] in rest;
      assert moved == [moved[0]] + moved[1..];
      assert forall i :: 0 < i < |moved| ==> moved[i] == moved[1..][i - 1];
      assert moved[0] !in moved[1..];
    }
  }
}
