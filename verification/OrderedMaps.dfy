/** A JavaScript Map: it iterates in insertion order, and setting a present key keeps that key's place. */
module OrderedMaps {

  /** The elements of a sequence, each once, in order of first appearance. */
  function Distinct<T(==)>(s: seq<T>): seq<T> {
    if s == [] then []
    else
      var front := Distinct(s[..|s| - 1]);
      if s[|s| - 1] in front then front else front + [s[|s| - 1]]
  }

  lemma {:induction false} DistinctIsExact<T>(s: seq<T>)
    ensures forall i | 0 <= i < |s| :: s[i] in Distinct(s)
    ensures forall i | 0 <= i < |Distinct(s)| :: Distinct(s)[i] in s
    ensures forall i, j | 0 <= i < j < |Distinct(s)| :: Distinct(s)[i] != Distinct(s)[j]
  {
    if s != [] {
      DistinctIsExact(s[..|s| - 1]);
      assert s == s[..|s| - 1] + [s[|s| - 1]];
    }
  }

  lemma DistinctKeepsMembers<T>(s: seq<T>, x: T)
    ensures x in Distinct(s) <==> x in s
  {
    DistinctIsExact(s);
  }

  datatype OrderedMap<K(==), V> = OrderedMap(order: seq<K>, entries: map<K, V>)

  function SetEntry<K(==), V>(m: OrderedMap<K, V>, key: K, value: V): OrderedMap<K, V> {
    OrderedMap(if key in m.entries then m.order else m.order + [key], m.entries[key := value])
  }

  ghost predicate Injective<K, V(!new)>(key: V -> K) {
    forall a, b :: key(a) == key(b) ==> a == b
  }

  /** The map holds exactly these values, in this order, each under its own key. */
  ghost predicate Holds<K, V>(m: OrderedMap<K, V>, key: V -> K, values: seq<V>) {
    && |m.order| == |values|
    && (forall i | 0 <= i < |values| ::
          m.order[i] == key(values[i]) && m.order[i] in m.entries && m.entries[m.order[i]] == values[i])
    && (forall k | k in m.entries :: k in m.order)
  }

  lemma KeyMeansHeld<K, V(!new)>(m: OrderedMap<K, V>, key: V -> K, values: seq<V>, v: V)
    requires Injective(key) && Holds(m, key, values)
    ensures key(v) in m.entries <==> v in values
    ensures v in values ==> SetEntry(m, key(v), v) == m
  {
    if key(v) in m.entries {
      var i :| 0 <= i < |m.order| && m.order[i] == key(v);
      assert values[i] == v;
      assert m.entries[key(v) := v] == m.entries;
    }
    if v in values {
      var i :| 0 <= i < |values| && values[i] == v;
      assert m.order[i] == key(v);
    }
  }

  lemma SetNewEntry<K, V(!new)>(m: OrderedMap<K, V>, key: V -> K, values: seq<V>, v: V)
    requires Injective(key) && Holds(m, key, values) && v !in values
    ensures Holds(SetEntry(m, key(v), v), key, values + [v])
  {
    KeyMeansHeld(m, key, values, v);
    var m' := SetEntry(m, key(v), v);
    assert m'.order[|values|] == key(v);
    forall k | k in m'.entries ensures k in m'.order {
      assert k in m.order || k == m'.order[|values|];
    }
  }

  /** Setting a value under its own key adds it at the end unless it is there already. */
  lemma {:induction false} SetEntryHolds<K, V(!new)>(m: OrderedMap<K, V>, key: V -> K, values: seq<V>, v: V)
    requires Injective(key) && Holds(m, key, Distinct(values))
    ensures Holds(SetEntry(m, key(v), v), key, Distinct(values + [v]))
  {
    assert (values + [v])[..|values|] == values;
    KeyMeansHeld(m, key, Distinct(values), v);
    if v !in Distinct(values) {
      SetNewEntry(m, key, Distinct(values), v);
    }
  }

  method SetAll<K(==), V(!new,==)>(m: OrderedMap<K, V>, key: V -> K, ghost held: seq<V>, values: seq<V>)
    returns (r: OrderedMap<K, V>)
    requires Injective(key) && Holds(m, key, Distinct(held))
    ensures Holds(r, key, Distinct(held + values))
  {
    r := m;
    ghost var noted := held;
    for i := 0 to |values|
      invariant noted == held + values[..i]
      invariant Holds(r, key, Distinct(noted))
    {
      SetEntryHolds(r, key, noted, values[i]);
      r := SetEntry(r, key(values[i]), values[i]);
      noted := noted + [values[i]];
    }
    assert noted == held + values;
  }

  /** The map's values, in insertion order. */
  method Values<K(==), V>(m: OrderedMap<K, V>, ghost key: V -> K, ghost held: seq<V>) returns (values: seq<V>)
    requires Holds(m, key, held)
    ensures values == held
  {
    values := [];
    for i := 0 to |m.order|
      invariant values == held[..i]
    {
      values := values + [m.entries[m.order[i]]];
    }
  }
}
