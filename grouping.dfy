/**
 * Python's grouping idiom: `d = defaultdict(list)` (or `d = {}` with
 * `setdefault`) followed by `d[key].append(value)` for every item.
 * A Python dict keeps the order in which keys were first inserted, so a
 * grouping is modelled as a list of groups in first-appearance order.
 */
module Grouping {

  datatype Group<K, V> = Group(key: K, values: seq<V>)

  /** No two groups share a key (a dict never holds a key twice). */
  predicate DistinctKeys<K(==), V>(gs: seq<Group<K, V>>) {
    forall i, j :: 0 <= i < j < |gs| ==> gs[i].key != gs[j].key
  }

  /** Position of the group for `k`, or -1. */
  function IndexOf<K(==), V>(gs: seq<Group<K, V>>, k: K): (i: int)
    ensures -1 <= i < |gs|
    ensures i >= 0 ==> gs[i].key == k && forall j :: 0 <= j < i ==> gs[j].key != k
    ensures i == -1 ==> forall j :: 0 <= j < |gs| ==> gs[j].key != k
    decreases |gs|
  {
    if gs == [] then -1
    else if gs[0].key == k then 0
    else
      var i := IndexOf(gs[1..], k);
      if i == -1 then -1 else i + 1
  }

  /** `d.get(k, [])` */
  function Lookup<K(==), V>(gs: seq<Group<K, V>>, k: K): seq<V> {
    var i := IndexOf(gs, k);
    if i < 0 then [] else gs[i].values
  }

  /** `d[k].append(v)` on a defaultdict. */
  function Append<K(==), V>(gs: seq<Group<K, V>>, k: K, v: V): seq<Group<K, V>> {
    var i := IndexOf(gs, k);
    if i < 0 then gs + [Group(k, [v])] else gs[i := Group(k, gs[i].values + [v])]
  }

  /** The grouping of `items`, built by appending them one after another. */
  function GroupItems<K(==), V>(items: seq<(K, V)>): seq<Group<K, V>>
    decreases |items|
  {
    if items == [] then []
    else
      var last := items[|items| - 1];
      Append(GroupItems(items[..|items| - 1]), last.0, last.1)
  }

  /** The values of the items with key `k`, in item order. */
  function ValuesFor<K(==), V>(items: seq<(K, V)>, k: K): seq<V>
    decreases |items|
  {
    if items == [] then []
    else
      var last := items[|items| - 1];
      ValuesFor(items[..|items| - 1], k) + (if last.0 == k then [last.1] else [])
  }

  /** The accumulation loop. */
  method GroupBy<K(==), V>(items: seq<(K, V)>) returns (gs: seq<Group<K, V>>)
    ensures gs == GroupItems(items)
  {
    gs := [];
    for n := 0 to |items|
      invariant gs == GroupItems(items[..n])
    {
      var (k, v) := items[n];
      var j := 0;
      while j < |gs| && gs[j].key != k
        invariant 0 <= j <= |gs|
        invariant forall m :: 0 <= m < j ==> gs[m].key != k
      {
        j := j + 1;
      }
      if j == |gs| {
        gs := gs + [Group(k, [v])];
      } else {
        gs := gs[j := Group(k, gs[j].values + [v])];
      }
      assert items[..n + 1][..n] == items[..n];
    }
    assert items[..|items|] == items;
  }

  lemma AppendDistinct<K, V>(gs: seq<Group<K, V>>, k: K, v: V)
    requires DistinctKeys(gs)
    ensures DistinctKeys(Append(gs, k, v))
  {
  }

  /** The first group with key `k` is the one `IndexOf` finds. */
  lemma IndexOfFirst<K, V>(gs: seq<Group<K, V>>, k: K, i: int)
    requires 0 <= i < |gs| && gs[i].key == k
    requires forall j :: 0 <= j < i ==> gs[j].key != k
    ensures IndexOf(gs, k) == i
  {
  }

  lemma AppendLookup<K, V>(gs: seq<Group<K, V>>, k: K, v: V, q: K)
    requires DistinctKeys(gs)
    ensures Lookup(Append(gs, k, v), q) == Lookup(gs, q) + (if q == k then [v] else [])
  {
    var i := IndexOf(gs, k);
    var gs' := Append(gs, k, v);
    var m := IndexOf(gs, q);
    if i < 0 && q == k {
      IndexOfFirst(gs', q, |gs|);
    } else if m >= 0 {
      IndexOfFirst(gs', q, m);
    } else {
      assert forall j :: 0 <= j < |gs'| ==> gs'[j].key != q;
    }
  }

  lemma AppendKeys<K, V>(gs: seq<Group<K, V>>, k: K, v: V, q: K)
    ensures IndexOf(Append(gs, k, v), q) >= 0 <==> IndexOf(gs, q) >= 0 || q == k
  {
    var i := IndexOf(gs, k);
    var gs' := Append(gs, k, v);
    var m := IndexOf(gs, q);
    if m >= 0 {
      IndexOfFirst(gs', q, m);
    } else if q == k {
      IndexOfFirst(gs', q, |gs|);
    } else {
      assert forall j :: 0 <= j < |gs'| ==> gs'[j].key != q;
    }
  }

  /** A grouping never holds a key twice. */
  lemma {:induction false} GroupItemsDistinct<K, V>(items: seq<(K, V)>)
    ensures DistinctKeys(GroupItems(items))
    decreases |items|
  {
    if items != [] {
      var last := items[|items| - 1];
      GroupItemsDistinct(items[..|items| - 1]);
      AppendDistinct(GroupItems(items[..|items| - 1]), last.0, last.1);
    }
  }

  /** The group for `k` holds exactly the values of the items with key `k`, in order. */
  lemma {:induction false} GroupItemsLookup<K, V>(items: seq<(K, V)>, k: K)
    ensures Lookup(GroupItems(items), k) == ValuesFor(items, k)
    decreases |items|
  {
    if items != [] {
      var last := items[|items| - 1];
      GroupItemsLookup(items[..|items| - 1], k);
      GroupItemsDistinct(items[..|items| - 1]);
      AppendLookup(GroupItems(items[..|items| - 1]), last.0, last.1, k);
    }
  }

  /** Every group's values are exactly its key's values. */
  lemma GroupValues<K, V>(items: seq<(K, V)>, i: int)
    requires 0 <= i < |GroupItems(items)|
    ensures GroupItems(items)[i].values == ValuesFor(items, GroupItems(items)[i].key)
  {
    var gs := GroupItems(items);
    GroupItemsDistinct(items);
    GroupItemsLookup(items, gs[i].key);
    assert IndexOf(gs, gs[i].key) == i;
  }

  /** A key has a group exactly when some item carries it. */
  lemma {:induction false} GroupItemsKeys<K, V>(items: seq<(K, V)>, k: K)
    ensures IndexOf(GroupItems(items), k) >= 0 <==> exists n :: 0 <= n < |items| && items[n].0 == k
    decreases |items|
  {
    if items != [] {
      var init := items[..|items| - 1];
      var last := items[|items| - 1];
      GroupItemsKeys(init, k);
      AppendKeys(GroupItems(init), last.0, last.1, k);
      if IndexOf(GroupItems(init), k) >= 0 {
        var n :| 0 <= n < |init| && init[n].0 == k;
        assert items[n].0 == k;
      }
      if (exists n :: 0 <= n < |items| && items[n].0 == k) && last.0 != k {
        var n :| 0 <= n < |items| && items[n].0 == k;
        assert init[n].0 == k;
      }
    }
  }

  /** Every value filed under `k` comes from an item with key `k`. */
  lemma {:induction false} ValuesForMember<K, V>(items: seq<(K, V)>, k: K, v: V)
    requires v in ValuesFor(items, k)
    ensures exists n :: 0 <= n < |items| && items[n] == (k, v)
    decreases |items|
  {
    var init := items[..|items| - 1];
    var last := items[|items| - 1];
    if v in ValuesFor(init, k) {
      ValuesForMember(init, k, v);
      var n :| 0 <= n < |init| && init[n] == (k, v);
      assert items[n] == (k, v);
    } else {
      assert last == (k, v);
    }
  }

  /** Grouping one more item appends it to its key's group. */
  lemma GroupItemsSnoc<K, V>(items: seq<(K, V)>, k: K, v: V)
    ensures GroupItems(items + [(k, v)]) == Append(GroupItems(items), k, v)
  {
    assert (items + [(k, v)])[..|items|] == items;
  }

  /** Every item's value is filed under its key. */
  lemma {:induction false} ValuesForHas<K, V>(items: seq<(K, V)>, n: int)
    requires 0 <= n < |items|
    ensures items[n].1 in ValuesFor(items, items[n].0)
    decreases |items|
  {
    if n < |items| - 1 {
      var init := items[..|items| - 1];
      assert init[n] == items[n];
      ValuesForHas(init, n);
    }
  }

  /** The keys of a grouping, in group order (`d.keys()`). */
  function Keys<K, V>(gs: seq<Group<K, V>>): (ks: seq<K>)
    ensures |ks| == |gs| && forall i :: 0 <= i < |gs| ==> ks[i] == gs[i].key
  {
    seq(|gs|, i requires 0 <= i < |gs| => gs[i].key)
  }

  /** `k in d`: the grouping has a group for `k` exactly when some item has key `k`, and its values are `k`'s. */
  lemma GroupItemsHas<K, V>(items: seq<(K, V)>, k: K)
    ensures IndexOf(GroupItems(items), k) >= 0 <==> ValuesFor(items, k) != []
    ensures Lookup(GroupItems(items), k) == ValuesFor(items, k)
  {
    GroupItemsKeys(items, k);
    GroupItemsLookup(items, k);
    if IndexOf(GroupItems(items), k) >= 0 {
      var n :| 0 <= n < |items| && items[n].0 == k;
      ValuesForHas(items, n);
    }
    if ValuesFor(items, k) != [] {
      ValuesForMember(items, k, ValuesFor(items, k)[0]);
    }
  }
}
