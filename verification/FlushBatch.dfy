/** The batch a flush draws: the reverse scan that keeps the last mutation of every key. */
module FlushBatch {
  import opened Items

  /** `order` holds, in any order, exactly one item per mutated key of `items`: the last one. */
  ghost predicate KeepsLast(order: seq<Item>, items: seq<Item>) {
    && (forall x :: x in order <==> x.key in Latest(items) && Latest(items)[x.key] == x)
    && (forall i, j :: 0 <= i < j < |order| ==> order[i].key != order[j].key)
  }

  lemma KeepsLastMutations(order: seq<Item>, items: seq<Item>)
    requires KeepsLast(order, items)
    ensures forall x :: x in order ==> IsMutation(x) && x.key in Latest(items) && Latest(items)[x.key] == x
    ensures forall k :: k in Latest(items) ==> Latest(items)[k] in order
  {
    forall x | x in order ensures IsMutation(x) {
      LatestKeys(items, x.key);
    }
    forall k | k in Latest(items) ensures Latest(items)[k] in order {
      LatestKeys(items, k);
    }
    hide Latest;
  }

  /** The last mutation of a key over a suffix is the last one overall. */
  lemma LatestSuffix(items: seq<Item>, i: nat)
    requires i < |items|
    ensures Latest(items[i..]) ==
            if IsMutation(items[i]) && items[i].key !in Latest(items[i + 1..])
            then Latest(items[i + 1..])[items[i].key := items[i]] else Latest(items[i + 1..])
  {
    assert items[i..] == [items[i]] + items[i + 1..];
    LatestConcat([items[i]], items[i + 1..]);
    LatestOne(items[i]);
    hide Latest;
  }

  /** `beginFlush` from the last item to the first: only the first item seen of each key is inserted. */
  method ScanBackwards(items: seq<Item>) returns (itemSet: map<Key, Item>)
    ensures itemSet == Latest(items)
  {
    itemSet := map[];
    var i := |items|;
    assert items[i..] == [];
    while i > 0
      invariant 0 <= i <= |items|
      invariant itemSet == Latest(items[i..])
    {
      i := i - 1;
      LatestSuffix(items, i);
      var qi := items[i];
      if qi.op == OpSet || qi.op == OpDel {
        if qi.key !in itemSet {
          itemSet := itemSet[qi.key := qi];
        }
      }
    }
    assert items[0..] == items;
  }

  /** The deduplicated batch. The store may reorder it, so the order is left open. */
  method Deduplicate(items: seq<Item>) returns (order: seq<Item>)
    ensures KeepsLast(order, items)
  {
    hide Latest;
    var itemSet := ScanBackwards(items);
    order := [];
    var keys := itemSet.Keys;
    while keys != {}
      invariant keys <= itemSet.Keys
      invariant forall x :: x in order <==> x.key in itemSet && x.key !in keys && itemSet[x.key] == x
      invariant forall i, j :: 0 <= i < j < |order| ==> order[i].key != order[j].key
      decreases |keys|
    {
      var k :| k in keys;
      LatestKeys(items, k);
      assert forall i :: 0 <= i < |order| ==> order[i] in order;
      order := order + [itemSet[k]];
      keys := keys - {k};
    }
  }

  /** Any reordering of a deduplicated batch is one. */
  lemma ReorderedBatch(order: seq<Item>, order': seq<Item>, items: seq<Item>)
    requires KeepsLast(order, items) && multiset(order') == multiset(order)
    ensures KeepsLast(order', items)
  {
    hide Latest;
    forall x ensures x in order' <==> x in order {
      assert x in order <==> x in multiset(order);
      assert x in order' <==> x in multiset(order');
    }
    DistinctCounts(order);
    forall i, j | 0 <= i < j < |order'| ensures order'[i].key != order'[j].key {
      if order'[i].key == order'[j].key {
        assert order'[i] in order && order'[j] in order;
        TwiceCounted(order', i, j);
      }
    }
  }

  lemma {:induction false} DistinctCounts(s: seq<Item>)
    requires forall i, j :: 0 <= i < j < |s| ==> s[i].key != s[j].key
    ensures forall x :: multiset(s)[x] <= 1
  {
    if s != [] {
      var n := |s| - 1;
      DistinctCounts(s[..n]);
      assert s == s[..n] + [s[n]];
      assert s[n] !in s[..n];
    }
  }

  lemma TwiceCounted(s: seq<Item>, i: nat, j: nat)
    requires i < j < |s| && s[i] == s[j]
    ensures multiset(s)[s[i]] >= 2
  {
    assert s == s[..j] + [s[j]] + s[j + 1..];
    assert s[i] in s[..j];
  }

  /** Writing a deduplicated batch in any order is replaying everything drawn in order. */
  lemma BatchPreservesMeaning(order: seq<Item>, items: seq<Item>, store: Store)
    requires KeepsLast(order, items)
    ensures Latest(order) == Latest(items) && Replay(store, order) == Replay(store, items)
  {
    KeepsLastMutations(order, items);
    forall k
      ensures k in Latest(order) <==> k in Latest(items)
      ensures k in Latest(order) ==> Latest(order)[k] == Latest(items)[k]
    {
      if k in Latest(order) {
        var j := LatestIndex(order, k);
        assert order[j] in order;
      }
      if k in Latest(items) {
        LatestKeys(items, k);
        var x := Latest(items)[k];
        var j :| 0 <= j < |order| && order[j] == x;
        LatestHas(order, j);
      }
    }
    SameLatestSameStore(store, order, items);
  }
}
