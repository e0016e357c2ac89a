/** Multisets collected from the values of a map.
    Conservation laws over the source's unordered_map tables are stated with them. */
module Bags {

  /** The union of f(v) over all values v of m, each key counted once. */
  ghost function Bag<V, X>(m: map<nat, V>, f: V -> multiset<X>): multiset<X> {
    if m.Keys == {} then multiset{}
    else
      var k :| k in m.Keys;
      f(m[k]) + Bag(m - {k}, f)
  }

  lemma BagStep<V, X>(m: map<nat, V>, f: V -> multiset<X>) returns (c: nat)
    requires m.Keys != {}
    ensures c in m && Bag(m, f) == f(m[c]) + Bag(m - {c}, f)
  {
    c :| c in m.Keys && Bag(m, f) == f(m[c]) + Bag(m - {c}, f);
  }

  /** The order in which the keys are visited does not matter: any key can be split off first. */
  lemma {:induction false} BagSplit<V, X>(m: map<nat, V>, f: V -> multiset<X>, k: nat)
    requires k in m
    ensures Bag(m, f) == f(m[k]) + Bag(m - {k}, f)
    decreases |m|
  {
    hide Bag;
    var c := BagStep(m, f);
    if c != k {
      BagSplit(m - {c}, f, k);
      BagSplit(m - {k}, f, c);
      assert m - {c} - {k} == m - {k} - {c};
      var rest := Bag(m - {c} - {k}, f);
      assert Bag(m - {c}, f) == f(m[k]) + rest;
      assert Bag(m - {k}, f) == f(m[c]) + rest;
    }
  }

  lemma BagEmpty<V, X>(f: V -> multiset<X>)
    ensures Bag(map[], f) == multiset{}
  {
  }

  lemma BagUpdate<V, X>(m: map<nat, V>, f: V -> multiset<X>, k: nat, v: V)
    ensures Bag(m[k := v], f) == f(v) + Bag(m - {k}, f)
  {
    hide Bag;
    BagSplit(m[k := v], f, k);
    assert m[k := v] - {k} == m - {k};
  }

  /** Inserting a new key adds exactly its contribution. */
  lemma BagInsert<V, X>(m: map<nat, V>, f: V -> multiset<X>, k: nat, v: V)
    requires k !in m
    ensures Bag(m[k := v], f) == f(v) + Bag(m, f)
  {
    hide Bag;
    BagUpdate(m, f, k, v);
    assert m - {k} == m;
  }

  /** A balance total == kept + gone is preserved by a step that adds to the total what it adds to
      the two sides together. */
  lemma Balance<X>(total: multiset<X>, kept: multiset<X>, gone: multiset<X>,
                   total': multiset<X>, kept': multiset<X>, gone': multiset<X>,
                   added: multiset<X>, moved: multiset<X>)
    requires total == kept + gone
    requires total' == total + added && gone' == gone + moved && kept' + moved == kept + added
    ensures total' == kept' + gone'
  {
    forall x ensures total'[x] == (kept' + gone')[x] {
      assert (kept' + moved)[x] == (kept + added)[x];
    }
  }

  lemma Regroup<X>(a: multiset<X>, b: multiset<X>, c: multiset<X>, d: multiset<X>)
    requires b + c == d
    ensures (a + b) + c == a + d
  {
  }
}
