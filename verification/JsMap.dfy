/**
JavaScript's `Map`: entries in insertion order, where setting a present key keeps its place.
*/
module JsMap {
  datatype Entry<+K, +V> = Entry(key: K, value: V)

  predicate DistinctKeys<K(==), V>(m: seq<Entry<K, V>>) {
    forall i, j | 0 <= i < j < |m| :: m[i].key != m[j].key
  }

  /** Position of a key, or the length when it is absent. */
  function Find<K(==), V>(m: seq<Entry<K, V>>, k: K): (i: nat)
    ensures i <= |m|
    ensures i < |m| ==> m[i].key == k
    ensures forall j | 0 <= j < i :: m[j].key != k
  {
    if m == [] || m[0].key == k then 0 else 1 + Find(m[1..], k)
  }

  predicate Has<K(==), V>(m: seq<Entry<K, V>>, k: K) {
    Find(m, k) < |m|
  }

  function Get<K(==), V>(m: seq<Entry<K, V>>, k: K): V
    requires Has(m, k)
  {
    m[Find(m, k)].value
  }

  function Set<K(==, !new), V>(m: seq<Entry<K, V>>, k: K, v: V): (r: seq<Entry<K, V>>)
    ensures Has(r, k) && Get(r, k) == v
    ensures DistinctKeys(m) ==> DistinctKeys(r)
    ensures forall j | j != k :: Has(r, j) == Has(m, j) && (Has(m, j) ==> Get(r, j) == Get(m, j))
  {
    var i := Find(m, k);
    var r := if i < |m| then m[i := Entry(k, v)] else m + [Entry(k, v)];
    assert r[i].key == k;
    FindUnique(r, k, i);
    assert forall j | j != k :: Has(r, j) == Has(m, j) && (Has(m, j) ==> Get(r, j) == Get(m, j)) by {
      forall j | j != k ensures Has(r, j) == Has(m, j) && (Has(m, j) ==> Get(r, j) == Get(m, j)) {
        var a, b := Find(m, j), Find(r, j);
        if a < |m| { assert r[a].key == j; FindUnique(r, j, a); }
        else { assert forall t | 0 <= t < |r| :: r[t].key != j; }
      }
    }
    r
  }

  lemma FindUnique<K, V>(m: seq<Entry<K, V>>, k: K, i: nat)
    requires i < |m| && m[i].key == k && forall j | 0 <= j < i :: m[j].key != k
    ensures Find(m, k) == i
  {}

  lemma SetAgain<K(!new), V>(m: seq<Entry<K, V>>, k: K, v: V)
    ensures Set(Set(m, k, v), k, v) == Set(m, k, v)
  {
    var r := Set(m, k, v);
    FindUnique(r, k, Find(m, k));
    assert r[Find(r, k) := Entry(k, v)] == r;
  }

  function Values<K, V>(m: seq<Entry<K, V>>): seq<V> {
    seq(|m|, i requires 0 <= i < |m| => m[i].value)
  }

  /** `new Map` filled from a list in order. */
  function FromEntries<K(==, !new), V>(entries: seq<Entry<K, V>>): (m: seq<Entry<K, V>>)
    ensures DistinctKeys(m)
  {
    if entries == [] then []
    else
      var last := entries[|entries| - 1];
      Set(FromEntries(entries[..|entries| - 1]), last.key, last.value)
  }

  /** Filling a map from its own entries gives the map back, order included. */
  lemma {:induction false} FromOwnEntries<K(!new), V>(m: seq<Entry<K, V>>)
    requires DistinctKeys(m)
    ensures FromEntries(m) == m
  {
    if m != [] {
      var front, last := m[..|m| - 1], m[|m| - 1];
      assert m == front + [last];
      assert forall i | 0 <= i < |front| :: front[i].key == m[i].key;
      FromOwnEntries(front);
      SetAbsent(front, last.key, last.value);
    }
  }

  lemma SetAbsent<K(!new), V>(m: seq<Entry<K, V>>, k: K, v: V)
    requires forall i | 0 <= i < |m| :: m[i].key != k
    ensures Set(m, k, v) == m + [Entry(k, v)]
  {}

  /* ---- what a filled map holds ---- */

  ghost predicate LastAt<K, V>(es: seq<Entry<K, V>>, e: Entry<K, V>, k: nat) {
    k < |es| && es[k] == e && forall l | k < l < |es| :: es[l].key != e.key
  }

  /** The entry is in the list, and none after it has its key. */
  ghost predicate IsLast<K, V>(es: seq<Entry<K, V>>, e: Entry<K, V>) {
    exists k: nat :: LastAt(es, e, k)
  }

  ghost predicate FirstAt<K, V>(es: seq<Entry<K, V>>, x: K, y: K, k: nat) {
    k < |es| && es[k].key == x && forall l | 0 <= l <= k :: es[l].key != y
  }

  /** The first key occurs before the second does. */
  ghost predicate Before<K, V>(es: seq<Entry<K, V>>, x: K, y: K) {
    exists k: nat :: FirstAt(es, x, y, k)
  }

  ghost predicate Occurs<K, V>(es: seq<Entry<K, V>>, x: K) {
    exists k :: 0 <= k < |es| && es[k].key == x
  }

  /** One entry per key, the last one, in order of first appearance. */
  ghost predicate LastPerKey<K(!new), V>(es: seq<Entry<K, V>>, m: seq<Entry<K, V>>) {
    && DistinctKeys(m)
    && (forall k | 0 <= k < |es| :: Occurs(m, es[k].key))
    && (forall i | 0 <= i < |m| :: IsLast(es, m[i]))
    && (forall i, j | 0 <= i < j < |m| :: Before(es, m[i].key, m[j].key))
  }

  lemma {:induction false} FilledExactly<K(!new), V>(es: seq<Entry<K, V>>)
    ensures LastPerKey(es, FromEntries(es))
  {
    if es == [] {
    } else {
      var front, last := es[..|es| - 1], es[|es| - 1];
      FilledExactly(front);
      FilledStep(front, last, FromEntries(front));
      assert es == front + [last];
    }
  }

  lemma FilledStep<K(!new), V>(es: seq<Entry<K, V>>, last: Entry<K, V>, m: seq<Entry<K, V>>)
    requires LastPerKey(es, m)
    ensures LastPerKey(es + [last], Set(m, last.key, last.value))
  {
    var more, r := es + [last], Set(m, last.key, last.value);
    assert DistinctKeys(r);
    hide Set, Before, IsLast, Find, Occurs;
    forall k | 0 <= k < |more| ensures Occurs(r, more[k].key) { OccursSet(m, last, more[k].key); }
    forall i | 0 <= i < |r| ensures IsLast(more, r[i]) { LastStep(es, last, m, i); }
    forall i, j | 0 <= i < j < |r| ensures Before(more, r[i].key, r[j].key) {
      FirstStep(es, last, m, i, j);
    }
  }

  lemma LastStep<K(!new), V>(es: seq<Entry<K, V>>, last: Entry<K, V>, m: seq<Entry<K, V>>, i: nat)
    requires LastPerKey(es, m) && i < |Set(m, last.key, last.value)|
    ensures IsLast(es + [last], Set(m, last.key, last.value)[i])
  {
    var more, r, at := es + [last], Set(m, last.key, last.value), Find(m, last.key);
    SetShape(m, last);
    assert DistinctKeys(r);
    hide Set, Find;
    if i == at {
      assert LastAt(more, r[i], |es|);
    } else {
      assert m[i] == r[i] && r[i].key != last.key;
      var k: nat :| LastAt(es, m[i], k);
      assert LastAt(more, r[i], k);
    }
  }

  lemma SetShape<K(!new), V>(m: seq<Entry<K, V>>, e: Entry<K, V>)
    ensures var r, at := Set(m, e.key, e.value), Find(m, e.key);
      && |r| == (if at < |m| then |m| else |m| + 1) && r[at] == e
      && forall i | 0 <= i < |m| && i != at :: r[i] == m[i]
  {}

  lemma FirstStep<K(!new), V>(es: seq<Entry<K, V>>, last: Entry<K, V>, m: seq<Entry<K, V>>, i: nat, j: nat)
    requires LastPerKey(es, m)
    requires i < j < |Set(m, last.key, last.value)|
    ensures var r := Set(m, last.key, last.value); Before(es + [last], r[i].key, r[j].key)
  {
    var more, r, at := es + [last], Set(m, last.key, last.value), Find(m, last.key);
    SetShape(m, last);
    hide Set;
    assert r[i].key == m[i].key;
    if j < |m| {
      assert r[j].key == m[j].key;
      var k: nat :| FirstAt(es, m[i].key, m[j].key, k);
      assert FirstAt(more, r[i].key, r[j].key, k);
    } else {
      assert r[j] == last && !Occurs(m, last.key);
      forall k | 0 <= k < |es| ensures es[k].key != last.key { assert Occurs(m, es[k].key); }
      var k: nat :| LastAt(es, m[i], k);
      assert FirstAt(more, r[i].key, r[j].key, k);
    }
  }

  lemma OccursSet<K(!new), V>(m: seq<Entry<K, V>>, e: Entry<K, V>, x: K)
    ensures Occurs(Set(m, e.key, e.value), x) <==> Occurs(m, x) || e.key == x
  {
    var r, at := Set(m, e.key, e.value), Find(m, e.key);
    SetShape(m, e);
    hide Set;
    assert r[at].key == e.key;
    if Occurs(m, x) {
      var k :| 0 <= k < |m| && m[k].key == x;
      assert r[k].key == x;
    }
    if Occurs(r, x) && x != e.key {
      var k :| 0 <= k < |r| && r[k].key == x;
      assert m[k].key == x;
    }
  }
}
