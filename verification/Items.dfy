/** Queued items and what a sequence of them means: the last mutation of every key. */
module Items {

  type Key = string

  datatype Operation =
    | OpSet | OpDel | OpFlush | OpEmpty | OpCommit
    | OpCheckpointStart | OpCheckpointEnd
    | OpOnlineUpdateStart | OpOnlineUpdateEnd | OpOnlineUpdateRevert

  /**
   `value` stands for the blob; on a checkpoint_start or checkpoint_end item it is the checkpoint id. `uid` names
   the queued object, so that equal mutations can be told apart; no operation looks at it.
   */
  datatype Item = Item(op: Operation, key: Key, value: nat, cas: nat, queuedTime: nat, uid: nat)

  predicate IsMutation(x: Item) {
    x.op == OpSet || x.op == OpDel
  }

  const Dummy := Item(OpEmpty, "", 0, 0, 0, 0)

  function StartItem(id: nat): Item {
    Item(OpCheckpointStart, "", id, 0, 0, 0)
  }

  function EndItem(id: nat): Item {
    Item(OpCheckpointEnd, "", id, 0, 0, 0)
  }

  const OnlineStart := Item(OpOnlineUpdateStart, "", 0, 0, 0, 0)
  const OnlineEnd := Item(OpOnlineUpdateEnd, "", 0, 0, 0, 0)

  /** The keys among the items; control items have none. */
  function KeySet(s: seq<Item>): set<Key> {
    set i | 0 <= i < |s| && s[i].key != "" :: s[i].key
  }

  /** The last mutation of every key that `s` mutates. */
  function Latest(s: seq<Item>): map<Key, Item> {
    if s == [] then map[]
    else
      var m := Latest(s[..|s| - 1]);
      var x := s[|s| - 1];
      if IsMutation(x) then m[x.key := x] else m
  }

  /** A key/value store, as a reader of the disk or of a replica sees it. */
  type Store = map<Key, (nat, nat)>

  function Replay(store: Store, s: seq<Item>): Store {
    if s == [] then store
    else
      var m := Replay(store, s[..|s| - 1]);
      var x := s[|s| - 1];
      match x.op
      case OpSet => m[x.key := (x.value, x.cas)]
      case OpDel => m - {x.key}
      case _ => m
  }

  lemma {:induction false} LatestConcat(a: seq<Item>, b: seq<Item>)
    ensures Latest(a + b) == Latest(a) + Latest(b)
  {
    if b == [] {
      assert a + b == a;
    } else {
      var b' := b[..|b| - 1];
      assert (a + b)[..|a + b| - 1] == a + b';
      LatestConcat(a, b');
    }
  }

  lemma Assoc<T>(a: seq<T>, b: seq<T>, c: seq<T>)
    ensures a + (b + c) == a + b + c
  {
  }

  lemma LatestOne(x: Item)
    ensures Latest([x]) == if IsMutation(x) then map[x.key := x] else map[]
  {
    assert [x][..0] == [];
  }

  /** Appending items that are not mutations changes nothing. */
  lemma {:induction false} LatestMeta(s: seq<Item>)
    requires forall i :: 0 <= i < |s| ==> !IsMutation(s[i])
    ensures Latest(s) == map[]
  {
    if s != [] {
      LatestMeta(s[..|s| - 1]);
    }
  }

  /** Superseding: erasing an older copy of a key does not matter once a newer one is appended. */
  lemma LatestSupersede(before: seq<Item>, prior: Item, after: seq<Item>, x: Item)
    requires IsMutation(x) && prior.key == x.key
    ensures Latest(before + after + [x]) == Latest(before + [prior] + after)[x.key := x]
  {
    LatestOne(prior);
    LatestOne(x);
    LatestConcat(before, after);
    LatestConcat(before + after, [x]);
    LatestConcat(before, [prior]);
    LatestConcat(before + [prior], after);
  }

  lemma LatestAppend(s: seq<Item>, x: Item)
    ensures Latest(s + [x]) == if IsMutation(x) then Latest(s)[x.key := x] else Latest(s)
  {
    assert (s + [x])[..|s + [x]| - 1] == s;
  }

  /** Every entry of `Latest` is the item at the last index that mutates the key. */
  lemma {:induction false} LatestIndex(s: seq<Item>, k: Key) returns (j: nat)
    requires k in Latest(s)
    ensures j < |s| && IsMutation(s[j]) && s[j].key == k && Latest(s)[k] == s[j]
    ensures forall i :: j < i < |s| && IsMutation(s[i]) ==> s[i].key != k
  {
    var x := s[|s| - 1];
    if IsMutation(x) && x.key == k {
      j := |s| - 1;
    } else {
      j := LatestIndex(s[..|s| - 1], k);
    }
  }

  lemma {:induction false} LatestHas(s: seq<Item>, i: nat)
    requires i < |s| && IsMutation(s[i])
    ensures s[i].key in Latest(s)
  {
    if i < |s| - 1 {
      LatestHas(s[..|s| - 1], i);
    }
  }

  /** The value of a store after a replay, read off the last mutation of the key. */
  lemma {:induction false} ReplayLatest(store: Store, s: seq<Item>, k: Key)
    ensures k !in Latest(s) ==> (k in Replay(store, s) <==> k in store)
    ensures k !in Latest(s) && k in store ==> Replay(store, s)[k] == store[k]
    ensures k in Latest(s) ==> (k in Replay(store, s) <==> Latest(s)[k].op == OpSet)
    ensures k in Latest(s) && Latest(s)[k].op == OpSet
            ==> Replay(store, s)[k] == (Latest(s)[k].value, Latest(s)[k].cas)
  {
    if s != [] {
      LatestKeys(s[..|s| - 1], k);
      ReplayLatest(store, s[..|s| - 1], k);
    }
  }

  lemma {:induction false} LatestKeys(s: seq<Item>, k: Key)
    ensures k in Latest(s) ==> IsMutation(Latest(s)[k]) && Latest(s)[k].key == k
  {
    if s != [] {
      LatestKeys(s[..|s| - 1], k);
    }
  }

  /** Two histories with the same last mutations leave every store in the same state. */
  lemma SameLatestSameStore(store: Store, s: seq<Item>, t: seq<Item>)
    requires Latest(s) == Latest(t)
    ensures Replay(store, s) == Replay(store, t)
  {
    forall k: Key
      ensures k in Replay(store, s) <==> k in Replay(store, t)
      ensures k in Replay(store, s) ==> Replay(store, s)[k] == Replay(store, t)[k]
    {
      LatestKeys(s, k);
      ReplayLatest(store, s, k);
      ReplayLatest(store, t, k);
    }
  }
}
