/** metrics/prometheus/preload.go: registering every combination of label values. */
module Labels {
  type Assignment = map<string, string>

  // prometheus.Labels, a map that its holders share.
  class LabelMap {
    var m: Assignment

    constructor ()
      ensures m == map[]
    {
      m := map[];
    }
  }

  // The register callback, as the record of the label maps it was given.
  class Registry {
    var seen: seq<Assignment>

    constructor ()
      ensures seen == []
    {
      seen := [];
    }

    method Register(labels: LabelMap)
      modifies this
      ensures seen == old(seen) + [labels.m]
    {
      seen := seen + [labels.m];
    }
  }

  // ---------- Reference: how often each assignment must be registered ----------

  // The product of the numbers in w, which does not depend on the order of its keys.
  ghost function ProductOf(w: map<string, nat>): nat {
    if w == map[] then 1 else var k :| k in w; w[k] * ProductOf(w - {k})
  }

  lemma {:induction false} Peel(w: map<string, nat>, k: string)
    requires k in w
    ensures ProductOf(w) == w[k] * ProductOf(w - {k})
    decreases |w|
  {
    var chosen :| chosen in w && ProductOf(w) == w[chosen] * ProductOf(w - {chosen});
    if chosen != k {
      assert w - {k} - {chosen} == w - {chosen} - {k};
      assert w.Keys == (w - {chosen}).Keys + {chosen} && w.Keys == (w - {k}).Keys + {k};
      Peel(w - {chosen}, k);
      Peel(w - {k}, chosen);
      Swap(w[k], w[chosen], ProductOf(w - {k} - {chosen}));
    }
  }

  lemma Swap(a: nat, b: nat, c: nat)
    ensures a * (b * c) == b * (a * c)
  {
  }

  function Count(values: seq<string>, v: string): nat {
    multiset(values)[v]
  }

  function Counts(lists: map<string, seq<string>>, m: Assignment): map<string, nat>
    requires m.Keys == lists.Keys
  {
    map k | k in lists :: Count(lists[k], m[k])
  }

  function Lengths(lists: map<string, seq<string>>): map<string, nat> {
    map k | k in lists :: |lists[k]|
  }

  // The number of ways to pick one entry from each list so that the picks spell out m.
  ghost function Ways(lists: map<string, seq<string>>, m: Assignment): nat {
    if m.Keys != lists.Keys then 0 else ProductOf(Counts(lists, m))
  }

  // ---------- What the recursion emits ----------

  ghost predicate Distinct(keys: seq<string>) {
    forall i, j :: 0 <= i < j < |keys| ==> keys[i] != keys[j]
  }

  // The assignments, in order, that extend base with one value for each key.
  function Product(keys: seq<string>, values: seq<seq<string>>, base: Assignment): seq<Assignment>
    requires |keys| == |values|
    decreases |keys|, 1, 0
  {
    if keys == [] then [base] else Spread(keys, values, base, values[0])
  }

  function Spread(keys: seq<string>, values: seq<seq<string>>, base: Assignment, vs: seq<string>): seq<Assignment>
    requires |keys| == |values| > 0
    decreases |keys|, 0, |vs|
  {
    if vs == [] then []
    else Product(keys[1..], values[1..], base[keys[0] := vs[0]]) + Spread(keys, values, base, vs[1..])
  }

  // Old entries under the keys still to be assigned do not matter.
  ghost predicate AgreeOff(keys: seq<string>, a: Assignment, b: Assignment) {
    forall k :: k !in keys ==> (k in a <==> k in b) && (k in a ==> a[k] == b[k])
  }

  lemma {:induction false} StaleEntriesIrrelevant(keys: seq<string>, values: seq<seq<string>>, a: Assignment, b: Assignment)
    requires |keys| == |values| && AgreeOff(keys, a, b)
    ensures Product(keys, values, a) == Product(keys, values, b)
    decreases |keys|, 1, 0
  {
    if keys == [] {
      assert a == b;
    } else {
      StaleSpread(keys, values, a, b, values[0]);
    }
  }

  lemma {:induction false} StaleSpread(keys: seq<string>, values: seq<seq<string>>, a: Assignment, b: Assignment, vs: seq<string>)
    requires |keys| == |values| > 0 && AgreeOff(keys, a, b)
    ensures Spread(keys, values, a, vs) == Spread(keys, values, b, vs)
    decreases |keys|, 0, |vs|
  {
    if vs != [] {
      StaleEntriesIrrelevant(keys[1..], values[1..], a[keys[0] := vs[0]], b[keys[0] := vs[0]]);
      StaleSpread(keys, values, a, b, vs[1..]);
    }
  }

  lemma {:induction false} SpreadConcat(keys: seq<string>, values: seq<seq<string>>, base: Assignment, us: seq<string>, vs: seq<string>)
    requires |keys| == |values| > 0
    ensures Spread(keys, values, base, us + vs) == Spread(keys, values, base, us) + Spread(keys, values, base, vs)
  {
    if us == [] {
      assert us + vs == vs;
    } else {
      assert (us + vs)[1..] == us[1..] + vs;
      SpreadConcat(keys, values, base, us[1..], vs);
    }
  }

  // m agrees with base and assigns exactly the keys on top of it.
  ghost predicate Fits(keys: seq<string>, base: Assignment, m: Assignment) {
    m.Keys == base.Keys + (set k | k in keys) && forall k :: k in base && k !in keys ==> m[k] == base[k]
  }

  ghost function Picks(keys: seq<string>, values: seq<seq<string>>, m: Assignment): nat
    requires |keys| == |values| && forall k :: k in keys ==> k in m
  {
    if keys == [] then 1 else Count(values[0], m[keys[0]]) * Picks(keys[1..], values[1..], m)
  }

  lemma {:induction false} ProductMultiplicity(keys: seq<string>, values: seq<seq<string>>, base: Assignment, m: Assignment)
    requires |keys| == |values| && Distinct(keys)
    ensures multiset(Product(keys, values, base))[m] == if Fits(keys, base, m) then Picks(keys, values, m) else 0
    decreases |keys|, 1, 0
  {
    if keys == [] {
      assert Fits(keys, base, m) <==> m == base;
    } else {
      SpreadMultiplicity(keys, values, base, values[0], m);
    }
  }

  lemma {:induction false} SpreadMultiplicity(keys: seq<string>, values: seq<seq<string>>, base: Assignment, vs: seq<string>, m: Assignment)
    requires |keys| == |values| > 0 && Distinct(keys)
    ensures multiset(Spread(keys, values, base, vs))[m]
            == if Fits(keys, base, m) then Count(vs, m[keys[0]]) * Picks(keys[1..], values[1..], m) else 0
    decreases |keys|, 0, |vs|
  {
    if vs != [] {
      var step := base[keys[0] := vs[0]];
      ProductMultiplicity(keys[1..], values[1..], step, m);
      SpreadMultiplicity(keys, values, base, vs[1..], m);
      FitsStep(keys, base, vs[0], m);
      if Fits(keys, base, m) {
        CountStep(vs, m[keys[0]], Picks(keys[1..], values[1..], m));
      }
    }
  }

  lemma Distribute(a: nat, b: nat, c: nat)
    ensures (a + b) * c == a * c + b * c
  {
  }

  lemma CountStep(vs: seq<string>, v: string, rest: nat)
    requires vs != []
    ensures Count(vs, v) * rest == (if vs[0] == v then rest else 0) + Count(vs[1..], v) * rest
  {
    assert vs == [vs[0]] + vs[1..];
    Distribute(if vs[0] == v then 1 else 0, Count(vs[1..], v), rest);
  }

  lemma FitsStep(keys: seq<string>, base: Assignment, v: string, m: Assignment)
    requires keys != [] && Distinct(keys)
    ensures Fits(keys[1..], base[keys[0] := v], m) <==> Fits(keys, base, m) && m[keys[0]] == v
  {
  }

  // keys and values are the map's entries, in some order.
  ghost predicate Lists(keys: seq<string>, values: seq<seq<string>>, lists: map<string, seq<string>>) {
    && |keys| == |values| && Distinct(keys)
    && (set k | k in keys) == lists.Keys
    && forall i :: 0 <= i < |keys| ==> keys[i] in lists && values[i] == lists[keys[i]]
  }

  ghost function KeyProduct(keys: seq<string>, w: map<string, nat>): nat
    requires forall i :: 0 <= i < |keys| ==> keys[i] in w
  {
    if keys == [] then 1 else w[keys[0]] * KeyProduct(keys[1..], w)
  }

  lemma {:induction false} KeyProductWithout(keys: seq<string>, w: map<string, nat>, gone: string)
    requires gone !in keys && forall i :: 0 <= i < |keys| ==> keys[i] in w
    ensures KeyProduct(keys, w - {gone}) == KeyProduct(keys, w)
  {
    if keys != [] {
      KeyProductWithout(keys[1..], w, gone);
    }
  }

  lemma {:induction false} KeyProductIsProduct(keys: seq<string>, w: map<string, nat>)
    requires Distinct(keys) && (set k | k in keys) == w.Keys
    ensures forall i :: 0 <= i < |keys| ==> keys[i] in w
    ensures KeyProduct(keys, w) == ProductOf(w)
  {
    assert forall i :: 0 <= i < |keys| ==> keys[i] in (set k | k in keys);
    if keys == [] {
      assert w == map[];
    } else {
      assert keys[0] !in keys[1..];
      assert (set k | k in keys) == {keys[0]} + (set k | k in keys[1..]);
      assert (w - {keys[0]}).Keys == (set k | k in keys[1..]);
      KeyProductIsProduct(keys[1..], w - {keys[0]});
      KeyProductWithout(keys[1..], w, keys[0]);
      Peel(w, keys[0]);
    }
  }

  lemma {:induction false} PicksAreCounts(keys: seq<string>, values: seq<seq<string>>, m: Assignment, w: map<string, nat>)
    requires |keys| == |values| && forall i :: 0 <= i < |keys| ==> keys[i] in m && keys[i] in w && w[keys[i]] == Count(values[i], m[keys[i]])
    ensures Picks(keys, values, m) == KeyProduct(keys, w)
  {
    if keys != [] {
      PicksAreCounts(keys[1..], values[1..], m, w);
    }
  }

  // Whatever the order of the keys, each assignment is emitted exactly as often as the lists can spell it.
  lemma EmitsCartesianProduct(keys: seq<string>, values: seq<seq<string>>, lists: map<string, seq<string>>, m: Assignment)
    requires Lists(keys, values, lists)
    ensures multiset(Product(keys, values, map[]))[m] == Ways(lists, m)
  {
    ProductMultiplicity(keys, values, map[], m);
    if m.Keys == lists.Keys {
      var w := Counts(lists, m);
      assert w.Keys == lists.Keys;
      PicksAreCounts(keys, values, m, w);
      KeyProductIsProduct(keys, w);
    }
  }

  lemma {:induction false} ProductSize(keys: seq<string>, values: seq<seq<string>>, base: Assignment, w: map<string, nat>)
    requires |keys| == |values| && forall i :: 0 <= i < |keys| ==> keys[i] in w && w[keys[i]] == |values[i]|
    ensures |Product(keys, values, base)| == KeyProduct(keys, w)
    decreases |keys|, 1, 0
  {
    if keys != [] {
      SpreadSize(keys, values, base, values[0], w);
    }
  }

  lemma {:induction false} SpreadSize(keys: seq<string>, values: seq<seq<string>>, base: Assignment, vs: seq<string>, w: map<string, nat>)
    requires |keys| == |values| > 0 && forall i :: 0 <= i < |keys| ==> keys[i] in w && w[keys[i]] == |values[i]|
    ensures |Spread(keys, values, base, vs)| == |vs| * KeyProduct(keys[1..], w)
    decreases |keys|, 0, |vs|
  {
    if vs != [] {
      ProductSize(keys[1..], values[1..], base[keys[0] := vs[0]], w);
      SpreadSize(keys, values, base, vs[1..], w);
      Distribute(1, |vs[1..]|, KeyProduct(keys[1..], w));
    }
  }

  lemma EmitsAsManyAsTheLengthsSay(keys: seq<string>, values: seq<seq<string>>, lists: map<string, seq<string>>)
    requires Lists(keys, values, lists)
    ensures |Product(keys, values, map[])| == ProductOf(Lengths(lists))
  {
    var w := Lengths(lists);
    assert w.Keys == lists.Keys;
    ProductSize(keys, values, map[], w);
    KeyProductIsProduct(keys, w);
  }

  lemma EmitsEverything(keys: seq<string>, values: seq<seq<string>>, lists: map<string, seq<string>>)
    requires Lists(keys, values, lists)
    ensures |Product(keys, values, map[])| == ProductOf(Lengths(lists))
    ensures forall m :: multiset(Product(keys, values, map[]))[m] == Ways(lists, m)
  {
    EmitsAsManyAsTheLengthsSay(keys, values, lists);
    forall m
      ensures multiset(Product(keys, values, map[]))[m] == Ways(lists, m)
    {
      EmitsCartesianProduct(keys, values, lists, m);
    }
  }

  lemma ExtendKeys(keys: seq<string>, k: string, seen: set<string>)
    requires Distinct(keys) && (set x | x in keys) == seen && k !in seen
    ensures Distinct(keys + [k]) && (set x | x in keys + [k]) == seen + {k}
  {
  }

  // ---------- Consequences for sets and for lists without repeats ----------

  ghost predicate Positive(w: map<string, nat>) {
    forall k :: k in w ==> w[k] > 0
  }

  lemma {:induction false} ProductPositive(w: map<string, nat>)
    ensures ProductOf(w) > 0 <==> Positive(w)
    decreases |w|
  {
    if w != map[] {
      var k :| k in w;
      assert w.Keys == (w - {k}).Keys + {k};
      Peel(w, k);
      ProductPositive(w - {k});
      assert Positive(w) <==> w[k] > 0 && Positive(w - {k});
    }
  }

  lemma {:induction false} ProductAtMostOne(w: map<string, nat>)
    requires forall k :: k in w ==> w[k] <= 1
    ensures ProductOf(w) <= 1
    decreases |w|
  {
    if w != map[] {
      var k :| k in w;
      assert w.Keys == (w - {k}).Keys + {k};
      Peel(w, k);
      ProductAtMostOne(w - {k});
    }
  }

  // An assignment is registered at all exactly when it takes each label's value from that label's list.
  lemma RegisteredIff(lists: map<string, seq<string>>, m: Assignment)
    ensures Ways(lists, m) > 0 <==> m.Keys == lists.Keys && forall k :: k in lists ==> m[k] in lists[k]
  {
    if m.Keys == lists.Keys {
      var w := Counts(lists, m);
      forall k | k in lists
        ensures k in w && (w[k] > 0 <==> m[k] in lists[k])
      {
      }
      ProductPositive(w);
    }
  }

  // With no repeats in the lists, no assignment is registered twice.
  lemma RegisteredOnce(lists: map<string, seq<string>>, m: Assignment)
    requires forall k :: k in lists ==> Distinct(lists[k])
    ensures Ways(lists, m) <= 1
  {
    if m.Keys == lists.Keys {
      forall k | k in lists
        ensures Count(lists[k], m[k]) <= 1
      {
        CountAtMostOne(lists[k], m[k]);
      }
      ProductAtMostOne(Counts(lists, m));
    }
  }

  lemma {:induction false} CountAtMostOne(vs: seq<string>, v: string)
    requires Distinct(vs)
    ensures Count(vs, v) <= 1
  {
    if vs != [] {
      CountAtMostOne(vs[1..], v);
      assert vs == [vs[0]] + vs[1..];
      if vs[0] == v {
        assert v !in vs[1..];
      }
    }
  }

  // ---------- The code ----------

  method CloneLabels(labels: LabelMap) returns (clone: LabelMap)
    ensures fresh(clone) && clone.m == labels.m
  {
    clone := new LabelMap();
    var left := labels.m.Keys;
    while left != {}
      invariant left <= labels.m.Keys
      invariant clone.m == map k | k in labels.m && k !in left :: labels.m[k]
      decreases left
    {
      var k :| k in left;
      clone.m := clone.m[k := labels.m[k]];
      left := left - {k};
    }
  }

  // One more value of the current key, on a map whose entries under the keys still to be assigned may be stale.
  lemma SpreadStep(keys: seq<string>, values: seq<seq<string>>, base: Assignment, current: Assignment, vs: seq<string>, i: nat)
    requires |keys| == |values| > 0 && i < |vs| && AgreeOff(keys, current, base)
    ensures Spread(keys, values, base, vs[..i + 1])
            == Spread(keys, values, base, vs[..i]) + Product(keys[1..], values[1..], current[keys[0] := vs[i]])
  {
    StaleEntriesIrrelevant(keys[1..], values[1..], current[keys[0] := vs[i]], base[keys[0] := vs[i]]);
    assert vs[..i + 1] == vs[..i] + [vs[i]];
    SpreadConcat(keys, values, base, vs[..i], [vs[i]]);
  }

  method RegisterRecursive(depth: nat, keys: seq<string>, values: seq<seq<string>>, labels: LabelMap, registry: Registry)
    requires depth < |keys| == |values|
    modifies labels, registry
    ensures registry.seen == old(registry.seen) + Product(keys[depth..], values[depth..], old(labels.m))
    ensures AgreeOff(keys[depth..], labels.m, old(labels.m))
    decreases |keys| - depth
  {
    var key := keys[depth];
    var isLeaf := depth == |keys| - 1;
    var vs := values[depth];
    ghost var ks, lists, base := keys[depth..], values[depth..], labels.m;
    assert ks[1..] == keys[depth + 1..] && lists[1..] == values[depth + 1..];
    if isLeaf {
      for i := 0 to |vs|
        invariant registry.seen == old(registry.seen) + Spread(ks, lists, base, vs[..i])
        invariant AgreeOff(ks, labels.m, base)
      {
        SpreadStep(ks, lists, base, labels.m, vs, i);
        labels.m := labels.m[key := vs[i]];
        var clone := CloneLabels(labels);
        registry.Register(clone);
      }
    } else {
      for i := 0 to |vs|
        invariant registry.seen == old(registry.seen) + Spread(ks, lists, base, vs[..i])
        invariant AgreeOff(ks, labels.m, base)
      {
        SpreadStep(ks, lists, base, labels.m, vs, i);
        labels.m := labels.m[key := vs[i]];
        RegisterRecursive(depth + 1, keys, values, labels, registry);
      }
    }
    assert vs[..|vs|] == vs;
  }

  // The loop over the map, which yields the entries in any order.
  method Entries(lists: map<string, seq<string>>) returns (keys: seq<string>, values: seq<seq<string>>)
    ensures Lists(keys, values, lists)
  {
    keys, values := [], [];
    var left := lists.Keys;
    while left != {}
      invariant left <= lists.Keys && |keys| == |values| && Distinct(keys)
      invariant forall i :: 0 <= i < |keys| ==> keys[i] in lists && values[i] == lists[keys[i]]
      invariant (set k | k in keys) == lists.Keys - left
      decreases left
    {
      var k :| k in left;
      ExtendKeys(keys, k, lists.Keys - left);
      keys, values := keys + [k], values + [lists[k]];
      left := left - {k};
    }
  }

  method RegisterLabelPermutations(lists: map<string, seq<string>>, registry: Registry)
    modifies registry
    ensures old(registry.seen) <= registry.seen
    ensures lists == map[] ==> registry.seen == old(registry.seen)
    ensures lists != map[] ==>
              var emitted := registry.seen[|old(registry.seen)|..];
              |emitted| == ProductOf(Lengths(lists)) && forall m :: multiset(emitted)[m] == Ways(lists, m)
  {
    if |lists| == 0 {
      return;
    }
    var keys, values := Entries(lists);
    assert keys != [] by {
      assert lists.Keys != {};
    }
    var labels := new LabelMap();
    RegisterRecursive(0, keys, values, labels, registry);
    ghost var emitted := Product(keys, values, map[]);
    assert keys[0..] == keys && values[0..] == values;
    assert registry.seen == old(registry.seen) + emitted;
    assert registry.seen[|old(registry.seen)|..] == emitted;
    EmitsEverything(keys, values, lists);
  }
}
