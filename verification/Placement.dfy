/**
 Which accepted mutations each checkpoint holds. The mutations accepted into one checkpoint are consecutive; its
 items have the last of every key among them, and its id is the one recorded for them. What persistence was handed
 covers exactly the mutations in front of some index, and the rest of its checkpoint has the last ones after it.
 */
module Placement {
  import opened Items
  import opened UnifiedQueue
  import opened Pending
  import opened Runs
  import opened Delivery
  import opened OnlineUpdate

  /** The end of the mutations of checkpoint `i`. */
  function End(starts: seq<nat>, n: nat, i: nat): nat {
    if i + 1 < |starts| then starts[i + 1] else n
  }

  /** Checkpoint `c` holds the mutations `s` to `e`. */
  predicate SegOk(c: Chk, acc: seq<Item>, ids: seq<nat>, s: nat, e: nat) {
    && s <= e <= |acc| == |ids|
    && Latest(Body(c)) == Latest(acc[s..e])
    && forall j :: s <= j < e ==> ids[j] == c.id
  }

  predicate AllMutations(acc: seq<Item>) {
    forall j :: 0 <= j < |acc| ==> IsMutation(acc[j])
  }

  predicate Lined(chks: seq<Chk>, starts: seq<nat>, acc: seq<Item>, ids: seq<nat>) {
    && |starts| == |chks| && |ids| == |acc| && AllMutations(acc) && Ascending(starts, |acc|)
    && forall i {:trigger chks[i]} :: 0 <= i < |chks| ==> SegOk(chks[i], acc, ids, starts[i], End(starts, |acc|, i))
  }

  /** A cursor at `p` has passed the mutations before `d`, and in its checkpoint has those from `d` on ahead. */
  predicate Passed(chks: seq<Chk>, starts: seq<nat>, acc: seq<Item>, p: Pos, d: nat) {
    && PosOk(chks, p) && |starts| == |chks|
    && var e := End(starts, |acc|, p.chk);
       && starts[p.chk] <= d <= e <= |acc|
       && Latest(chks[p.chk].items[p.at + 1..]) == Latest(acc[d..e])
  }

  lemma NoneLatest(acc: seq<Item>, n: nat)
    requires n <= |acc|
    ensures acc[n..n] == [] && Latest(acc[n..n]) == map[]
  {
    LatestMeta([]);
  }

  lemma EmptyLatest(s: seq<Item>)
    requires AllMutations(s) && Latest(s) == map[]
    ensures s == []
  {
    if s != [] {
      LatestHas(s, 0);
    }
  }

  // ---------------------------------------------------------------- the list changes at its end

  lemma LinedNew(chks: seq<Chk>, starts: seq<nat>, acc: seq<Item>, ids: seq<nat>, c: Chk)
    requires Lined(chks, starts, acc, ids) && Latest(Body(c)) == map[]
    ensures Lined(chks + [c], starts + [|acc|], acc, ids)
  {
    hide Latest, Ascending;
    var chks', starts', n := chks + [c], starts + [|acc|], |acc|;
    assert Ascending(starts', n) by { AscendingMore(starts, n); }
    forall i | 0 <= i < |chks'| ensures SegOk(chks'[i], acc, ids, starts'[i], End(starts', n, i)) {
      if i < |chks| {
        assert SegOk(chks[i], acc, ids, starts[i], End(starts, n, i));
      } else {
        NoneLatest(acc, n);
      }
    }
  }

  lemma AscendingMore(starts: seq<nat>, n: nat)
    requires Ascending(starts, n)
    ensures Ascending(starts + [n], n)
  {
  }

  lemma PassedNew(chks: seq<Chk>, starts: seq<nat>, acc: seq<Item>, c: Chk, p: Pos, d: nat)
    requires Passed(chks, starts, acc, p, d)
    ensures Passed(chks + [c], starts + [|acc|], acc, p, d)
  {
    hide Latest;
  }

  /** A change of the last checkpoint that no mutation is part of. */
  lemma LinedLast(chks: seq<Chk>, starts: seq<nat>, acc: seq<Item>, ids: seq<nat>, c: Chk)
    requires Lined(chks, starts, acc, ids) && chks != []
    requires c.id == Last(chks).id && Latest(Body(c)) == Latest(Body(Last(chks)))
    ensures Lined(chks[|chks| - 1 := c], starts, acc, ids)
  {
    hide Latest, Ascending;
    var chks' := chks[|chks| - 1 := c];
    forall i | 0 <= i < |chks| ensures SegOk(chks'[i], acc, ids, starts[i], End(starts, |acc|, i)) {
      assert SegOk(chks[i], acc, ids, starts[i], End(starts, |acc|, i));
    }
  }

  lemma PassedLast(chks: seq<Chk>, starts: seq<nat>, acc: seq<Item>, c: Chk, p: Pos, d: nat)
    requires Passed(chks, starts, acc, p, d)
    requires p.chk == |chks| - 1 ==>
               p.at < |c.items| && Latest(c.items[p.at + 1..]) == Latest(Last(chks).items[p.at + 1..])
    ensures Passed(chks[|chks| - 1 := c], starts, acc, p, d)
  {
    hide Latest;
  }

  lemma LinedWrite(chks: seq<Chk>, starts: seq<nat>, acc: seq<Item>, ids: seq<nat>, c: Chk, y: Item)
    requires Lined(chks, starts, acc, ids) && chks != [] && IsMutation(y)
    requires c.id == Last(chks).id && Latest(Body(c)) == Latest(Body(Last(chks)))[y.key := y]
    ensures Lined(chks[|chks| - 1 := c], starts, acc + [y], ids + [c.id])
  {
    hide Latest, Ascending, SegOk;
    var chks', acc', ids', n := chks[|chks| - 1 := c], acc + [y], ids + [c.id], |acc|;
    assert Ascending(starts, n + 1) by { AscendingLater(starts, n); }
    forall i | 0 <= i < |chks| ensures SegOk(chks'[i], acc', ids', starts[i], End(starts, n + 1, i)) {
      if i == |chks| - 1 {
        SegGrown(chks[i], c, acc, ids, starts[i], y);
      } else {
        SegKept(chks[i], acc, ids, starts[i], End(starts, n, i), y, c.id);
      }
    }
  }

  lemma SegGrown(c: Chk, c': Chk, acc: seq<Item>, ids: seq<nat>, s: nat, y: Item)
    requires SegOk(c, acc, ids, s, |acc|) && IsMutation(y) && c'.id == c.id
    requires Latest(Body(c')) == Latest(Body(c))[y.key := y]
    ensures SegOk(c', acc + [y], ids + [c.id], s, |acc| + 1)
  {
    hide Latest;
    var n := |acc|;
    assert (acc + [y])[s..n + 1] == acc[s..n] + [y];
    LatestAppend(acc[s..n], y);
  }

  lemma SegKept(c: Chk, acc: seq<Item>, ids: seq<nat>, s: nat, e: nat, y: Item, id: nat)
    requires SegOk(c, acc, ids, s, e)
    ensures SegOk(c, acc + [y], ids + [id], s, e)
  {
    hide Latest;
    assert (acc + [y])[s..e] == acc[s..e];
  }

  lemma AscendingLater(starts: seq<nat>, n: nat)
    requires Ascending(starts, n)
    ensures Ascending(starts, n + 1)
  {
  }

  lemma PassedWrite(chks: seq<Chk>, starts: seq<nat>, acc: seq<Item>, c: Chk, y: Item, p: Pos, p': Pos, d: nat)
    requires Passed(chks, starts, acc, p, d) && IsMutation(y) && p'.chk == p.chk
    requires if p.chk == |chks| - 1
             then p'.at < |c.items| &&
                  Latest(c.items[p'.at + 1..]) == Latest(Last(chks).items[p.at + 1..])[y.key := y]
             else p' == p
    ensures Passed(chks[|chks| - 1 := c], starts, acc + [y], p', d)
  {
    hide Latest;
    var e := End(starts, |acc|, p.chk);
    if p.chk == |chks| - 1 {
      assert (acc + [y])[d..|acc| + 1] == acc[d..|acc|] + [y];
      LatestAppend(acc[d..|acc|], y);
    } else {
      assert (acc + [y])[d..e] == acc[d..e];
    }
  }

  lemma LinedRename(chks: seq<Chk>, starts: seq<nat>, acc: seq<Item>, ids: seq<nat>, c: Chk)
    requires Lined(chks, starts, acc, ids) && chks != [] && Latest(Body(c)) == Latest(Body(Last(chks)))
    ensures Lined(chks[|chks| - 1 := c], starts, acc, Retag(ids, starts[|starts| - 1], c.id))
  {
    hide Latest;
    var chks', ids' := chks[|chks| - 1 := c], Retag(ids, starts[|starts| - 1], c.id);
    forall i | 0 <= i < |chks| ensures SegOk(chks'[i], acc, ids', starts[i], End(starts, |acc|, i)) {
      assert SegOk(chks[i], acc, ids, starts[i], End(starts, |acc|, i));
      assert i < |chks| - 1 ==> End(starts, |acc|, i) <= starts[|starts| - 1];
    }
  }

  // ---------------------------------------------------------------- the list changes at its front, or is cut

  lemma LinedDrop(chks: seq<Chk>, starts: seq<nat>, acc: seq<Item>, ids: seq<nat>, n: nat)
    requires Lined(chks, starts, acc, ids) && n <= |chks|
    ensures Lined(chks[n..], starts[n..], acc, ids)
  {
    hide Latest;
    forall i | 0 <= i < |chks| - n
      ensures SegOk(chks[n..][i], acc, ids, starts[n..][i], End(starts[n..], |acc|, i))
    {
      assert SegOk(chks[n + i], acc, ids, starts[n + i], End(starts, |acc|, n + i));
    }
  }

  lemma PassedDrop(chks: seq<Chk>, starts: seq<nat>, acc: seq<Item>, p: Pos, d: nat, n: nat)
    requires Passed(chks, starts, acc, p, d) && n <= p.chk
    ensures Passed(chks[n..], starts[n..], acc, DropPos(n, p), d)
  {
    hide Latest;
  }

  lemma LinedCut(chks: seq<Chk>, starts: seq<nat>, acc: seq<Item>, ids: seq<nat>, k: nat)
    requires Lined(chks, starts, acc, ids) && k < |chks|
    ensures starts[k] <= |acc| && Lined(chks[..k], starts[..k], acc[..starts[k]], ids[..starts[k]])
  {
    hide SegOk;
    var n := starts[k];
    assert Ascending(starts[..k], n);
    forall i | 0 <= i < k
      ensures SegOk(chks[..k][i], acc[..n], ids[..n], starts[..k][i], End(starts[..k], n, i))
    {
      SegCut(chks[i], acc, ids, starts[i], End(starts, |acc|, i), n);
    }
  }

  lemma SegCut(c: Chk, acc: seq<Item>, ids: seq<nat>, s: nat, e: nat, n: nat)
    requires SegOk(c, acc, ids, s, e) && e <= n <= |acc|
    ensures SegOk(c, acc[..n], ids[..n], s, e)
  {
    hide Latest;
    assert acc[..n][s..e] == acc[s..e];
  }

  lemma PassedCut(chks: seq<Chk>, starts: seq<nat>, acc: seq<Item>, p: Pos, d: nat, k: nat)
    requires Passed(chks, starts, acc, p, d) && p.chk < k < |chks| && Ascending(starts, |acc|)
    ensures starts[k] <= |acc| && Passed(chks[..k], starts[..k], acc[..starts[k]], p, d)
  {
    hide Latest;
    var n, e := starts[k], End(starts, |acc|, p.chk);
    assert e <= n && End(starts[..k], n, p.chk) == e && acc[..n][d..e] == acc[d..e];
  }

  // ---------------------------------------------------------------- cursors at the ends of checkpoints

  lemma PassedStart(chks: seq<Chk>, starts: seq<nat>, acc: seq<Item>, ids: seq<nat>, i: nat)
    requires Lined(chks, starts, acc, ids) && i < |chks| && chks[i].items != []
    ensures Passed(chks, starts, acc, Pos(i, 0), starts[i])
  {
    hide Latest, Ascending;
    assert SegOk(chks[i], acc, ids, starts[i], End(starts, |acc|, i));
  }

  lemma PassedEnd(chks: seq<Chk>, starts: seq<nat>, acc: seq<Item>, ids: seq<nat>)
    requires Lined(chks, starts, acc, ids) && chks != [] && Last(chks).items != []
    ensures Passed(chks, starts, acc, EndPos(chks), |acc|)
  {
    hide Latest, Ascending;
    assert SegOk(Last(chks), acc, ids, starts[|chks| - 1], |acc|);
    NoneLatest(acc, |acc|);
    assert Last(chks).items[|Last(chks).items|..] == [];
  }

  /** At the very end of a checkpoint all its mutations have been passed, so the cursor may step into the next one. */
  lemma PassedHop(chks: seq<Chk>, starts: seq<nat>, acc: seq<Item>, ids: seq<nat>, c: nat, p: Pos, d: nat)
    requires Lined(chks, starts, acc, ids) && Passed(chks, starts, acc, p, d)
    requires forall i :: 0 <= i < |chks| ==> chks[i].items != []
    ensures Passed(chks, starts, acc, HopPos(chks, c, p), d)
  {
    hide Latest, Lined;
    if HopPos(chks, c, p) != p {
      var e := starts[c + 1];
      assert chks[c].items[p.at + 1..] == [];
      assert Latest([]) == map[] by { LatestMeta([]); }
      MutationsOf(chks, starts, acc, ids, d, e);
      EmptyLatest(acc[d..e]);
      PassedStart(chks, starts, acc, ids, c + 1);
    }
  }

  lemma MutationsOf(chks: seq<Chk>, starts: seq<nat>, acc: seq<Item>, ids: seq<nat>, d: nat, e: nat)
    requires Lined(chks, starts, acc, ids) && d <= e <= |acc|
    ensures AllMutations(acc[d..e])
  {
    hide SegOk, Ascending;
  }

  // ---------------------------------------------------------------- what is ahead, and where a mutation is

  lemma {:induction false} FlatLined(chks: seq<Chk>, starts: seq<nat>, acc: seq<Item>, ids: seq<nat>, i: nat)
    requires Lined(chks, starts, acc, ids) && i < |chks|
    ensures starts[i] <= |acc| && Latest(Flat(chks[i..])) == Latest(acc[starts[i]..])
    decreases |chks| - i
  {
    hide Latest, Flat;
    var s, e := starts[i], End(starts, |acc|, i);
    assert SegOk(chks[i], acc, ids, s, e);
    FlatFrom(chks, i);
    LatestConcat(Body(chks[i]), Flat(chks[i + 1..]));
    assert acc[s..] == acc[s..e] + acc[e..];
    LatestConcat(acc[s..e], acc[e..]);
    if i + 1 < |chks| {
      FlatLined(chks, starts, acc, ids, i + 1);
    } else {
      assert chks[i + 1..] == [] && acc[e..] == [];
      FlatNone();
    }
  }

  lemma FlatNone()
    ensures Flat([]) == []
  {
  }

  lemma RestLined(chks: seq<Chk>, starts: seq<nat>, acc: seq<Item>, ids: seq<nat>, c: nat)
    requires Lined(chks, starts, acc, ids) && c < |chks|
    ensures End(starts, |acc|, c) <= |acc|
    ensures Latest(Flat(chks[c + 1..])) == Latest(acc[End(starts, |acc|, c)..])
  {
    hide Latest, Flat, SegOk;
    if c + 1 < |chks| {
      FlatLined(chks, starts, acc, ids, c + 1);
    } else {
      assert chks[c + 1..] == [] && acc[|acc|..] == [];
      FlatNone();
    }
  }

  /** The mutations ahead of a cursor have the last of every key among those it has not passed. */
  lemma AheadPassed(chks: seq<Chk>, starts: seq<nat>, acc: seq<Item>, ids: seq<nat>, p: Pos, d: nat)
    requires Lined(chks, starts, acc, ids) && Passed(chks, starts, acc, p, d)
    ensures Latest(Ahead(chks, p)) == Latest(acc[d..])
  {
    hide Latest, Flat, Lined, End;
    var e := End(starts, |acc|, p.chk);
    RestLined(chks, starts, acc, ids, p.chk);
    LatestConcat(chks[p.chk].items[p.at + 1..], Flat(chks[p.chk + 1..]));
    assert acc[d..] == acc[d..e] + acc[e..];
    LatestConcat(acc[d..e], acc[e..]);
  }

  /** ... and up to the barrier, among those accepted before it. */
  lemma HeldPassed(chks: seq<Chk>, starts: seq<nat>, acc: seq<Item>, ids: seq<nat>, p: Pos, d: nat, b: nat)
    requires Lined(chks, starts, acc, ids) && Passed(chks, starts, acc, p, d) && p.chk < b < |chks|
    ensures d <= starts[b] <= |acc| && PosOk(chks[..b], p)
    ensures Latest(Ahead(chks[..b], p)) == Latest(acc[d..starts[b]])
  {
    hide Latest, Flat, Ahead;
    LinedCut(chks, starts, acc, ids, b);
    PassedCut(chks, starts, acc, p, d, b);
    AheadPassed(chks[..b], starts[..b], acc[..starts[b]], ids[..starts[b]], p, d);
    assert acc[..starts[b]][d..] == acc[d..starts[b]];
  }

  /** A mutation from `starts[c]` on is in checkpoint `c` or a later one, and recorded under its id. */
  lemma {:induction false} InCheckpoint(chks: seq<Chk>, starts: seq<nat>, acc: seq<Item>, ids: seq<nat>, c: nat, j: nat)
    returns (i: nat)
    requires Lined(chks, starts, acc, ids) && c < |chks| && starts[c] <= j < |acc|
    ensures c <= i < |chks| && starts[i] <= j < End(starts, |acc|, i) && ids[j] == chks[i].id
    decreases |chks| - c
  {
    hide Latest, Ascending;
    assert SegOk(chks[c], acc, ids, starts[c], End(starts, |acc|, c));
    i := c;
    if End(starts, |acc|, c) <= j {
      i := InCheckpoint(chks, starts, acc, ids, c + 1, j);
    }
  }

  // ---------------------------------------------------------------- the queue's operations

  /** Everything is in place: the checkpoints, the persistence cursor, and the barrier. */
  predicate Placed(q: Queue, acc: seq<Item>, ids: seq<nat>, starts: seq<nat>, d: nat, t: nat) {
    && Lined(q.chks, starts, acc, ids) && Passed(q.chks, starts, acc, q.persist, d)
    && (q.barrier.Some? ==> q.barrier.value < |starts| && d <= t == starts[q.barrier.value])
  }

  lemma ControlTail(s: seq<Item>, x: Item, at: nat)
    requires at < |s| && !IsMutation(x)
    ensures Latest((s + [x])[at + 1..]) == Latest(s[at + 1..])
  {
    hide Latest;
    assert (s + [x])[at + 1..] == s[at + 1..] + [x];
    LatestAppend(s[at + 1..], x);
  }

  /** Whatever follows position `at` has the same last mutations. */
  predicate TailKept(s: seq<Item>, s': seq<Item>, at: nat) {
    at < |s| <= |s'| ==> Latest(s'[at + 1..]) == Latest(s[at + 1..])
  }

  lemma PlaceLast(q: Queue, c: Chk, acc: seq<Item>, ids: seq<nat>, starts: seq<nat>, d: nat, t: nat)
    requires Placed(q, acc, ids, starts, d, t) && q.chks != [] && Last(q.chks).items != [] && c.id == Last(q.chks).id
    requires |Last(q.chks).items| <= |c.items| && forall at: nat :: TailKept(Last(q.chks).items, c.items, at)
    ensures Placed(q.(chks := q.chks[|q.chks| - 1 := c]), acc, ids, starts, d, t)
  {
    hide Latest, Lined;
    assert TailKept(Last(q.chks).items, c.items, 0);
    LinedLast(q.chks, starts, acc, ids, c);
    assert TailKept(Last(q.chks).items, c.items, q.persist.at);
    PassedLast(q.chks, starts, acc, c, q.persist, d);
  }

  lemma PlaceControl(q: Queue, x: Item, acc: seq<Item>, ids: seq<nat>, starts: seq<nat>, d: nat, t: nat)
    requires Placed(q, acc, ids, starts, d, t) && q.chks != [] && Last(q.chks).items != [] && !IsMutation(x)
    ensures Placed(AppendLast(q, x), acc, ids, starts, d, t)
  {
    hide Latest, Placed;
    var c := Last(q.chks);
    forall at: nat ensures TailKept(c.items, c.items + [x], at) {
      if at < |c.items| {
        ControlTail(c.items, x, at);
      }
    }
    PlaceLast(q, c.(items := c.items + [x]), acc, ids, starts, d, t);
  }

  lemma PlaceClose(q: Queue, acc: seq<Item>, ids: seq<nat>, starts: seq<nat>, d: nat, t: nat)
    requires Placed(q, acc, ids, starts, d, t) && q.chks != [] && Last(q.chks).items != []
    ensures Placed(q.(chks := CloseLast(q.chks)), acc, ids, starts, d, t)
  {
    hide Latest, Placed;
    var c := Last(q.chks);
    forall at: nat ensures TailKept(c.items, Close(c).items, at) {
      if at < |c.items| {
        ControlTail(c.items, EndItem(c.id), at);
      }
    }
    PlaceLast(q, Close(c), acc, ids, starts, d, t);
  }

  lemma PlaceNew(q: Queue, c: Chk, acc: seq<Item>, ids: seq<nat>, starts: seq<nat>, d: nat, t: nat)
    requires Placed(q, acc, ids, starts, d, t) && Latest(Body(c)) == map[]
    ensures Placed(q.(chks := q.chks + [c]), acc, ids, starts + [|acc|], d, t)
  {
    hide Latest, Lined, Passed;
    LinedNew(q.chks, starts, acc, ids, c);
    PassedNew(q.chks, starts, acc, c, q.persist, d);
  }

  lemma NewLatest(id: nat)
    ensures Latest(Body(NewChk(id))) == map[]
  {
    assert Body(NewChk(id)) == [StartItem(id)];
    LatestMeta([StartItem(id)]);
  }

  lemma PlaceTurn(q: Queue, id: nat, acc: seq<Item>, ids: seq<nat>, starts: seq<nat>, d: nat, t: nat)
    requires Placed(q, acc, ids, starts, d, t) && q.chks != [] && Last(q.chks).items != []
    ensures Placed(q.(chks := AddNew(q.chks, id)), acc, ids, starts + [|acc|], d, t)
  {
    hide Latest, Placed;
    PlaceClose(q, acc, ids, starts, d, t);
    NewLatest(id);
    PlaceNew(q.(chks := CloseLast(q.chks)), NewChk(id), acc, ids, starts, d, t);
  }

  /** A write: the mutation goes to the last checkpoint. */
  lemma PlaceWrite(q: Queue, x: Item, acc: seq<Item>, ids: seq<nat>, starts: seq<nat>, d: nat, t: nat)
    requires Placed(q, acc, ids, starts, d, t) && WF(q) && IsMutation(x)
    ensures var c := Last(q.chks);
            Placed(Write(q, x), acc + [Stored(c.items, x)], ids + [c.id], starts, d, t)
  {
    hide Latest, ListOk, Requeue, Flat, Lined;
    ItemsOk(q);
    var c, li := Last(q.chks), |q.chks| - 1;
    var c' := c.(items := Requeue(c.items, x));
    var y, chks' := Stored(c.items, x), q.chks[li := c'];
    StoredMutation(c.items, x);
    AheadWrite(q.chks, x, Pos(li, 0));
    AheadLast(q.chks, Pos(li, 0));
    AheadLast(chks', Pos(li, 0));
    LinedWrite(q.chks, starts, acc, ids, c', y);
    var p' := ShiftPos(q.chks, x.key, q.persist);
    if q.persist.chk == li {
      AheadWrite(q.chks, x, q.persist);
      AheadLast(q.chks, q.persist);
      AheadLast(chks', p');
    }
    PassedWrite(q.chks, starts, acc, c', y, q.persist, p', d);
  }

  lemma PlaceRename(q: Queue, id: nat, acc: seq<Item>, ids: seq<nat>, starts: seq<nat>, d: nat, t: nat)
    requires Placed(q, acc, ids, starts, d, t) && WF(q)
    ensures starts != [] && Placed(Rename(q, id), acc, Retag(ids, starts[|starts| - 1], id), starts, d, t)
  {
    hide Latest, ListOk, Flat, Lined;
    ItemsOk(q);
    LinedSize(q.chks, starts, acc, ids);
    var c, li := Last(q.chks), |q.chks| - 1;
    var c' := Last(Rename(q, id).chks);
    LatestRename(c.items, StartItem(id), 0);
    LinedRename(q.chks, starts, acc, ids, c');
    LatestRename(c.items, StartItem(id), if q.persist.chk == li then q.persist.at else 0);
    PassedLast(q.chks, starts, acc, c', q.persist, d);
  }

  lemma LinedSize(chks: seq<Chk>, starts: seq<nat>, acc: seq<Item>, ids: seq<nat>)
    requires Lined(chks, starts, acc, ids)
    ensures |starts| == |chks| && |ids| == |acc| && AllMutations(acc) && Ascending(starts, |acc|)
  {
  }

  /** A trim's first part: a new checkpoint, and cursors that step into it. */
  lemma PlacePre(q: Queue, create: bool, acc: seq<Item>, ids: seq<nat>, starts: seq<nat>, d: nat, t: nat)
    requires Placed(q, acc, ids, starts, d, t) && WF(q)
    ensures WF(PreTrim(q, create))
    ensures Placed(PreTrim(q, create), acc, ids, if create then starts + [|acc|] else starts, d, t)
  {
    hide Latest, ListOk, Lined, Passed, AddNew;
    PreTrimWF(q, create);
    ItemsOk(q);
    if create {
      PlaceTurn(q, Last(q.chks).id + 1, acc, ids, starts, d, t);
      var q1 := Rollover(q);
      RolloverWF(q);
      ItemsOk(q1);
      PassedHop(q1.chks, starts + [|acc|], acc, ids, |q.chks| - 1, q1.persist, d);
    }
  }

  lemma PlaceDrop(q: Queue, acc: seq<Item>, ids: seq<nat>, starts: seq<nat>, d: nat, t: nat)
    requires Placed(q, acc, ids, starts, d, t) && WF(q)
    ensures var n := FirstReferenced(q, 0); n <= |starts| && Placed(Drop(q, n), acc, ids, starts[n..], d, t)
  {
    hide Latest, ListOk, Lined, Passed, FirstReferenced, Referenced;
    var n := FirstReferenced(q, 0);
    FirstReferencedBounds(q);
    PersistIn(q);
    LinedSize(q.chks, starts, acc, ids);
    LinedDrop(q.chks, starts, acc, ids, n);
    PassedDrop(q.chks, starts, acc, q.persist, d, n);
  }

  // ---------------------------------------------------------------- every event keeps everything in place

  ghost predicate InPlace(h: History) {
    WF(h.q) && Placed(h.q, h.accepted, h.acceptedIn, h.starts, h.drawnUpTo, h.heldAt)
  }

  lemma TailAll(s: seq<nat>)
    ensures Tail(s, |s|) == s
  {
  }

  lemma TailFrom(s: seq<nat>, n: nat)
    requires n <= |s|
    ensures Tail(s, |s| - n) == s[n..]
  {
  }

  /** In place with more mutations, and with the starts that belong to the checkpoints still there. */
  ghost predicate MorePlaced(h: History, q': Queue, acc: seq<Item>, ids: seq<nat>, opens: bool) {
    Placed(q', acc, ids, Tail(if opens then h.starts + [|acc|] else h.starts, |q'.chks|), h.drawnUpTo, h.heldAt)
  }

  lemma PutInPlace(h: History, x: Item, active: bool, roll: bool)
    requires WF(h.q)
    requires InPlace(h) && IsMutation(x) && Accepts(h.q, active) && (active ==> Last(h.q.chks).open)
    ensures MorePlaced(h, QueueDirty(h.q, x, active, roll), h.accepted + [Stored(Last(h.q.chks).items, x)],
                       h.acceptedIn + [Last(h.q.chks).id], roll)
  {
    hide ListOk, Placed, AddNew, Requeue, ShiftPos;
    var q1, c := Write(h.q, x), Last(h.q.chks);
    var acc, ids := h.accepted + [Stored(c.items, x)], h.acceptedIn + [c.id];
    PlaceWrite(h.q, x, h.accepted, h.acceptedIn, h.starts, h.drawnUpTo, h.heldAt);
    if roll {
      WriteWF(h.q, x);
      ItemsOk(q1);
      PlaceTurn(q1, Last(q1.chks).id + 1, acc, ids, h.starts, h.drawnUpTo, h.heldAt);
    }
    var starts := if roll then h.starts + [|acc|] else h.starts;
    PlacedSize(QueueDirty(h.q, x, active, roll), acc, ids, starts, h.drawnUpTo, h.heldAt);
    TailAll(starts);
  }

  /** In place with the same mutations, and with the starts that belong to the checkpoints still there. */
  ghost predicate StillPlaced(h: History, q': Queue, starts: seq<nat>) {
    Placed(q', h.accepted, h.acceptedIn, Tail(starts, |q'.chks|), h.drawnUpTo, h.heldAt)
  }

  function Opened(h: History, opens: bool): seq<nat> {
    if opens then h.starts + [|h.accepted|] else h.starts
  }

  lemma TrimInPlace(h: History, create: bool)
    requires WF(h.q)
    requires InPlace(h)
    ensures StillPlaced(h, Trim(h.q, create), Opened(h, create))
  {
    hide ListOk, Placed, AddNew, FirstReferenced, PreTrim;
    var starts := Opened(h, create);
    PlacePre(h.q, create, h.accepted, h.acceptedIn, h.starts, h.drawnUpTo, h.heldAt);
    var q1 := PreTrim(h.q, create);
    PlaceDrop(q1, h.accepted, h.acceptedIn, starts, h.drawnUpTo, h.heldAt);
    var n := FirstReferenced(q1, 0);
    PlacedSize(q1, h.accepted, h.acceptedIn, starts, h.drawnUpTo, h.heldAt);
    TailFrom(starts, n);
  }

  lemma PlacedSize(q: Queue, acc: seq<Item>, ids: seq<nat>, starts: seq<nat>, d: nat, t: nat)
    requires Placed(q, acc, ids, starts, d, t)
    ensures |starts| == |q.chks| && |ids| == |acc| && d <= |acc| && AllMutations(acc)
  {
    hide Latest;
  }

  lemma TurnInPlace(h: History, id: nat)
    requires InPlace(h)
    ensures StillPlaced(h, h.q.(chks := AddNew(h.q.chks, id)), Opened(h, true))
  {
    hide ListOk, Placed, AddNew;
    ItemsOk(h.q);
    PlaceTurn(h.q, id, h.accepted, h.acceptedIn, h.starts, h.drawnUpTo, h.heldAt);
    PlacedSize(h.q, h.accepted, h.acceptedIn, h.starts, h.drawnUpTo, h.heldAt);
    AddNewAt(h.q.chks, id);
    TailAll(Opened(h, true));
  }

  lemma CloseInPlace(h: History, id: nat)
    requires WF(h.q)
    requires InPlace(h)
    ensures StillPlaced(h, CloseOpen(h.q, id), h.starts)
  {
    hide ListOk, Placed, Close;
    ItemsOk(h.q);
    PlacedSize(h.q, h.accepted, h.acceptedIn, h.starts, h.drawnUpTo, h.heldAt);
    PlaceClose(h.q, h.accepted, h.acceptedIn, h.starts, h.drawnUpTo, h.heldAt);
    TailAll(h.starts);
  }

  lemma SameInPlace(h: History)
    requires InPlace(h)
    ensures StillPlaced(h, h.q, h.starts)
  {
    hide ListOk, Placed;
    PlacedSize(h.q, h.accepted, h.acceptedIn, h.starts, h.drawnUpTo, h.heldAt);
    TailAll(h.starts);
  }

  lemma StopInPlace(h: History)
    requires WF(h.q)
    requires InPlace(h) && (h.q.barrier.Some? ==> Last(h.q.chks).open)
    ensures StillPlaced(h, StopOnline(h.q), Opened(h, h.q.barrier.Some?))
  {
    hide ListOk, Placed, AddNew, Tail, AppendLast;
    if h.q.barrier.Some? {
      ItemsOk(h.q);
      AppendShape(h.q, OnlineEnd);
      var q1 := AppendLast(h.q, OnlineEnd);
      PlaceControl(h.q, OnlineEnd, h.accepted, h.acceptedIn, h.starts, h.drawnUpTo, h.heldAt);
      AppendWF(h.q, OnlineEnd);
      ItemsOk(q1);
      PlaceTurn(q1, Last(q1.chks).id + 1, h.accepted, h.acceptedIn, h.starts, h.drawnUpTo, h.heldAt);
      PlaceFree(Rollover(q1), h.accepted, h.acceptedIn, Opened(h, true), h.drawnUpTo, h.heldAt);
      PlacedSize(h.q, h.accepted, h.acceptedIn, h.starts, h.drawnUpTo, h.heldAt);
      AddNewAt(q1.chks, Last(q1.chks).id + 1);
      TailAll(Opened(h, true));
    } else {
      SameInPlace(h);
    }
  }

  lemma AppendShape(q: Queue, x: Item)
    requires q.chks != []
    ensures |AppendLast(q, x).chks| == |q.chks| && AppendLast(q, x).barrier == q.barrier
  {
  }

  lemma PlaceFree(q: Queue, acc: seq<Item>, ids: seq<nat>, starts: seq<nat>, d: nat, t: nat)
    requires Placed(q, acc, ids, starts, d, t)
    ensures Placed(q.(barrier := None), acc, ids, starts, d, t)
  {
    hide Lined, Passed;
  }

  lemma StartInPlace(h: History)
    requires WF(h.q)
    requires InPlace(h) && h.q.barrier.None?
    ensures Placed(StartOnline(h.q), h.accepted, h.acceptedIn, Opened(h, true), h.drawnUpTo, |h.accepted|)
    ensures Tail(Opened(h, true), |StartOnline(h.q).chks|) == Opened(h, true)
  {
    hide ListOk, Placed, AddNew;
    ItemsOk(h.q);
    var q1, n := Rollover(h.q), |h.accepted|;
    PlaceTurn(h.q, Last(h.q.chks).id + 1, h.accepted, h.acceptedIn, h.starts, h.drawnUpTo, h.heldAt);
    RolloverWF(h.q);
    ItemsOk(q1);
    PlaceControl(q1, OnlineStart, h.accepted, h.acceptedIn, Opened(h, true), h.drawnUpTo, h.heldAt);
    PlacedSize(h.q, h.accepted, h.acceptedIn, h.starts, h.drawnUpTo, h.heldAt);
    AddNewAt(h.q.chks, Last(h.q.chks).id + 1);
    TailAll(Opened(h, true));
    PlaceBarrier(AppendLast(q1, OnlineStart), h.accepted, h.acceptedIn, Opened(h, true), h.drawnUpTo, h.heldAt,
                 |h.q.chks|);
  }

  lemma PlaceBarrier(q: Queue, acc: seq<Item>, ids: seq<nat>, starts: seq<nat>, d: nat, t: nat, b: nat)
    requires Placed(q, acc, ids, starts, d, t) && b < |starts| && d <= starts[b]
    ensures Placed(q.(barrier := Some(b)), acc, ids, starts, d, starts[b])
  {
    hide Lined, Passed;
  }

  lemma CheckpointStartInPlace(h: History, id: nat)
    requires WF(h.q)
    requires InPlace(h) && !RollsBack(h.q, id) && NewId(h.q, CheckpointStart(id)).None?
    ensures StillPlaced(h, CheckAndAdd(h.q, id), Opened(h, id != 0 && Last(h.q.chks).id != 0))
  {
    hide ListOk, Placed, AddNew, KeepBelow;
    if id == 0 {
      SameInPlace(h);
    } else {
      TurnInPlace(h, id);
    }
  }

  // ---------------------------------------------------------------- from queues to histories

  lemma EventInPlace(h: History, e: Event)
    requires InPlace(h) && Enabled(h.q, e) && !Discards(h.q, e) && Concerns(e)
    ensures InPlace(Next(h, e))
  {
    hide ListOk, Placed, Next, Opens, KeepBelow;
    if NewId(h.q, e).Some? {
      RenameNext(h, e);
    } else if e.Put? {
      PutNext(h, e);
    } else {
      OtherNext(h, e);
    }
  }

  lemma RenameNext(h: History, e: Event)
    requires InPlace(h) && Enabled(h.q, e) && !Discards(h.q, e) && Concerns(e) && NewId(h.q, e).Some?
    ensures InPlace(Next(h, e))
  {
    hide ListOk, Placed, Apply, Next, Opens, Tail, RenameLog, ClosedBy, Latest, KeepBelow, Retag;
    NextConcerns(h, e);
    NextIds(h, e);
    NextHeld(h, e);
    RenameInPlace(h, e);
    assert Next(h, e).accepted == h.accepted;
    assert Next(h, e).starts == Tail(h.starts, |Apply(h.q, e).chks|);
  }

  lemma PutNext(h: History, e: Event)
    requires InPlace(h) && Enabled(h.q, e) && !Discards(h.q, e) && e.Put?
    ensures InPlace(Next(h, e))
  {
    hide ListOk, Placed, Apply, Next, Opens, Tail, RenameLog, ClosedBy, Latest, KeepBelow;
    NextConcerns(h, e);
    NextIds(h, e);
    NextHeld(h, e);
    PutEvent(h, e);
  }

  lemma OtherNext(h: History, e: Event)
    requires InPlace(h) && Enabled(h.q, e) && !Discards(h.q, e) && Concerns(e) && NewId(h.q, e).None? && !e.Put?
    ensures InPlace(Next(h, e))
  {
    hide ListOk, Placed, Apply, Next, Opens, Tail, RenameLog, ClosedBy, Latest, KeepBelow;
    NextConcerns(h, e);
    NextIds(h, e);
    OtherInPlace(h, e);
    var h' := Next(h, e);
    assert h'.accepted == h.accepted && h'.acceptedIn == h.acceptedIn;
    assert h'.starts == Tail(Opened(h, Opens(h.q, e)), |h'.q.chks|);
    if e.OnlineStartEvent? && h.q.barrier.None? {
      StartHeldAt(h);
    } else {
      NextHeld(h, e);
    }
  }

  lemma StartHeldAt(h: History)
    requires WF(h.q) && h.q.barrier.None?
    ensures Next(h, OnlineStartEvent).heldAt == |h.accepted|
  {
    hide ListOk, Ahead, Closing, AddNew, Tail;
    ApplyWF(h.q, OnlineStartEvent);
  }

  lemma RenameInPlace(h: History, e: Event)
    requires WF(h.q)
    requires InPlace(h) && Enabled(h.q, e) && NewId(h.q, e).Some?
    ensures h.starts != []
    ensures Placed(Apply(h.q, e), h.accepted, Retag(h.acceptedIn, h.starts[|h.starts| - 1], NewId(h.q, e).value),
                   Tail(h.starts, |Apply(h.q, e).chks|), h.drawnUpTo, h.heldAt)
    ensures !Opens(h.q, e)
  {
    hide ListOk, Placed, KeepBelow;
    var id := NewId(h.q, e).value;
    PlaceRename(h.q, id, h.accepted, h.acceptedIn, h.starts, h.drawnUpTo, h.heldAt);
    PlacedSize(h.q, h.accepted, h.acceptedIn, h.starts, h.drawnUpTo, h.heldAt);
    TailAll(h.starts);
  }

  lemma PutEvent(h: History, e: Event)
    requires WF(h.q)
    requires InPlace(h) && Enabled(h.q, e) && e.Put?
    ensures MorePlaced(h, Apply(h.q, e), h.accepted + (match Accepted(h.q, e) case Some(y) => [y] case None => []),
                       h.acceptedIn + (if Accepted(h.q, e).Some? then [Last(h.q.chks).id] else []), Opens(h.q, e))
  {
    hide ListOk, Placed, QueueDirty, Stored, MorePlaced;
    if Accepts(h.q, e.active) {
      PutInPlace(h, e.x, e.active, e.roll);
    } else {
      PutRefused(h.q, e.x, e.active, e.roll);
      assert h.accepted + [] == h.accepted && h.acceptedIn + [] == h.acceptedIn;
      RefusedInPlace(h);
    }
  }

  lemma RefusedInPlace(h: History)
    requires InPlace(h)
    ensures MorePlaced(h, h.q, h.accepted, h.acceptedIn, false)
  {
    hide ListOk, Placed;
    PlacedSize(h.q, h.accepted, h.acceptedIn, h.starts, h.drawnUpTo, h.heldAt);
    TailAll(h.starts);
  }

  lemma PutRefused(q: Queue, x: Item, active: bool, roll: bool)
    requires q.chks != [] && !Accepts(q, active)
    ensures QueueDirty(q, x, active, roll) == q
  {
  }

  lemma OtherInPlace(h: History, e: Event)
    requires WF(h.q)
    requires InPlace(h) && Enabled(h.q, e) && !Discards(h.q, e) && Concerns(e) && NewId(h.q, e).None? && !e.Put?
    ensures if e.OnlineStartEvent? && h.q.barrier.None?
            then Placed(Apply(h.q, e), h.accepted, h.acceptedIn, Tail(Opened(h, Opens(h.q, e)), |Apply(h.q, e).chks|),
                        h.drawnUpTo, |h.accepted|)
            else StillPlaced(h, Apply(h.q, e), Opened(h, Opens(h.q, e)))
  {
    hide ListOk, Placed, Tail, AddNew, Trim, CheckAndAdd, StopOnline, CloseOpen, KeepBelow;
    match e {
      case RemoveClosed(create) => TrimInPlace(h, create);
      case Roll => TurnInPlace(h, Last(h.q.chks).id + 1);
      case CloseId(id) => CloseInPlace(h, id);
      case CheckpointStart(id) => CheckpointStartInPlace(h, id);
      case OnlineStartEvent => if h.q.barrier.None? { StartInPlace(h); } else { SameInPlace(h); }
      case OnlineStopEvent => StopInPlace(h);
    }
  }

  lemma PersistInPlace(h: History)
    requires InPlace(h) && InFront(h.q)
    ensures InPlace(Next(h, Persist))
  {
    hide ListOk, Lined, Passed, Ahead, Drawn, Tail;
    ApplyWF(h.q, Persist);
    ItemsOk(h.q);
    var h' := Next(h, Persist);
    LinedSize(h.q.chks, h.starts, h.accepted, h.acceptedIn);
    TailAll(h.starts);
    if h.q.barrier.Some? {
      PassedStart(h.q.chks, h.starts, h.accepted, h.acceptedIn, h.q.barrier.value);
    } else {
      PassedEnd(h.q.chks, h.starts, h.accepted, h.acceptedIn);
    }
  }

  lemma ReadInPlace(h: History, e: Event)
    requires InPlace(h) && h.logs.Keys == h.q.taps.Keys
    requires e.TapNext? || e.TapAll? || e.TapBackOff? || e.TapRegister? || e.TapRemove?
    ensures InPlace(Next(h, e))
  {
    hide ListOk, Ahead, Next, Lined, Passed, Tail;
    if e.TapRegister? || e.TapRemove? {
      RegistrationOthers(h, e);
    } else {
      TapReadOthers(h, e, e.name);
    }
    NextHeld(h, e);
    ReadIds(h, e);
    LinedSize(h.q.chks, h.starts, h.accepted, h.acceptedIn);
    TailAll(h.starts);
  }

  lemma ReadIds(h: History, e: Event)
    requires WF(h.q) && (e.TapNext? || e.TapAll? || e.TapBackOff? || e.TapRegister? || e.TapRemove?)
    ensures var h' := Next(h, e);
            && h'.drawnUpTo == h.drawnUpTo && h'.acceptedIn == h.acceptedIn
            && h'.starts == Tail(h.starts, |h'.q.chks|)
  {
    hide ListOk, Apply, Ahead, ClosedAhead, SentBy, Tail;
    ApplyWF(h.q, e);
  }

  /** A clear or rollback cuts the list, and with it the mutations. */
  lemma RestartInPlace(h: History, e: Event)
    requires InPlace(h) && Enabled(h.q, e) && Discards(h.q, e)
    ensures InPlace(Next(h, e))
  {
    hide WF, Apply, Placed;
    ApplyWF(h.q, e);
    if e.ClearAll? {
      ClearInPlace(h, e.active);
    } else {
      RollbackInPlace(h, e.id);
    }
  }

  lemma ClearInPlace(h: History, active: bool)
    requires WF(h.q) && h.q.barrier.None? && WF(Apply(h.q, ClearAll(active)))
    ensures InPlace(Restart(h, ClearAll(active)))
  {
    hide ListOk, Ahead, Latest;
    var id := if active then 1 else 0;
    NewLatest(id);
    var h' := Restart(h, ClearAll(active));
    NoneLatest([], 0);
    LinedNew([], [], [], [], NewChk(id));
    assert [] + [NewChk(id)] == [NewChk(id)] && Lined(h'.q.chks, [0], [], []);
    PassedStart(h'.q.chks, [0], [], [], 0);
  }

  lemma RollbackInPlace(h: History, id: nat)
    requires InPlace(h) && h.q.barrier.None? && RollsBack(h.q, id) && WF(Apply(h.q, CheckpointStart(id)))
    ensures InPlace(Restart(h, CheckpointStart(id)))
  {
    hide ListOk, Ahead, Latest, Lined, Passed, AddNew;
    var k := KeepBelow(h.q.chks, id);
    LinedSize(h.q.chks, h.starts, h.accepted, h.acceptedIn);
    LinedCut(h.q.chks, h.starts, h.accepted, h.acceptedIn, k);
    var n := h.starts[k];
    var chks, starts, acc, ids := h.q.chks[..k], h.starts[..k], h.accepted[..n], h.acceptedIn[..n];
    assert AddNew(chks, id) == chks + [NewChk(id)] by { KeptClosed(h.q, k, id); }
    NewLatest(id);
    LinedNew(chks, starts, acc, ids, NewChk(id));
    if h.q.persist.chk < k {
      PassedCut(h.q.chks, h.starts, h.accepted, h.q.persist, h.drawnUpTo, k);
      PassedNew(chks, starts, acc, NewChk(id), h.q.persist, h.drawnUpTo);
    } else {
      PassedStart(chks + [NewChk(id)], starts + [n], acc, ids, k);
    }
  }

  lemma KeptClosed(q: Queue, k: nat, id: nat)
    requires WF(q) && k < |q.chks|
    ensures AddNew(q.chks[..k], id) == q.chks[..k] + [NewChk(id)]
  {
    hide ChkOk;
    if k > 0 {
      assert !q.chks[k - 1].open && Last(q.chks[..k]) == q.chks[k - 1];
      assert CloseLast(q.chks[..k]) == q.chks[..k];
    }
  }

  lemma InPlaceNext(h: History, e: Event)
    requires LastWriterWins(h) && Barred(h) && InPlace(h) && Enabled(h.q, e)
    ensures InPlace(Next(h, e))
  {
    hide ListOk, Next, TapCaught, PersistenceCaught, Placed, Held, Ahead, Latest, Ascending;
    if Discards(h.q, e) {
      RestartInPlace(h, e);
    } else if Concerns(e) {
      EventInPlace(h, e);
    } else if e.Persist? {
      PersistInPlace(h);
    } else {
      ReadInPlace(h, e);
    }
  }

  // ---------------------------------------------------------------- all invariants of a history

  ghost predicate Sound(h: History) {
    LastWriterWins(h) && Barred(h) && InPlace(h)
  }

  lemma InitSound(id: nat)
    ensures WF(Init(id).q) && Sound(Init(id))
  {
    hide Latest, Ahead, Flat;
    InitBarred(id);
    NewLatest(id);
    LinedNew([], [], [], [], NewChk(id));
    assert [] + [NewChk(id)] == [NewChk(id)];
    PassedStart([NewChk(id)], [0], [], [], 0);
  }

  lemma SoundNext(h: History, e: Event)
    requires Sound(h) && Enabled(h.q, e)
    ensures Sound(Next(h, e))
  {
    hide ListOk, Next, LastWriterWins, Barred, InPlace;
    LastWriterWinsNext(h, e);
    BarredNext(h, e);
    InPlaceNext(h, e);
  }

  lemma {:induction false} SoundRun(h: History, es: seq<Event>)
    requires WF(h.q) && Sound(h) && IsRun(h, es)
    ensures Sound(Exec(h, es))
    decreases |es|
  {
    hide ListOk, LastWriterWins, Barred, InPlace, Next;
    if es != [] {
      NextOk(h, es[0]);
      SoundNext(h, es[0]);
      SoundRun(Next(h, es[0]), es[1..]);
    }
  }

  /** In every run: what lies ahead of persistence has the last of every key among the mutations not covered, ... */
  lemma UncoveredAhead(h: History)
    requires InPlace(h)
    ensures h.drawnUpTo <= |h.accepted|
    ensures Latest(Ahead(h.q.chks, h.q.persist)) == Latest(h.accepted[h.drawnUpTo..])
  {
    hide ListOk, Ahead, Latest;
    AheadPassed(h.q.chks, h.starts, h.accepted, h.acceptedIn, h.q.persist, h.drawnUpTo);
  }

  /** ... and each of those is in the checkpoint persistence is in, or in a later one, under that checkpoint's id. */
  lemma UncoveredIn(h: History, j: nat)
    requires InPlace(h) && h.drawnUpTo <= j < |h.accepted|
    ensures j < |h.acceptedIn| && h.q.chks[h.q.persist.chk].id <= h.acceptedIn[j]
  {
    hide Ahead, Latest, SegOk;
    var i := InCheckpoint(h.q.chks, h.starts, h.accepted, h.acceptedIn, h.q.persist.chk, j);
    assert h.q.chks[h.q.persist.chk].id <= h.q.chks[i].id;
  }

  /** A draw hands out exactly the mutations not covered before, up to those it then covers. */
  lemma DrawFresh(h: History)
    requires Sound(h)
    ensures var h' := Next(h, Persist);
            && h'.accepted == h.accepted && h.drawnUpTo <= h'.drawnUpTo <= |h.accepted|
            && Latest(Drawn(h.q)) == Latest(h.accepted[h.drawnUpTo..h'.drawnUpTo])
  {
    hide ListOk, Latest, Ahead, LastWriterWins, Lined, Passed, Tail;
    ApplyWF(h.q, Persist);
    UncoveredAhead(h);
    if h.q.barrier.None? {
      assert h.accepted[h.drawnUpTo..|h.accepted|] == h.accepted[h.drawnUpTo..];
    } else if h.q.persist.chk < h.q.barrier.value {
      LinedSize(h.q.chks, h.starts, h.accepted, h.acceptedIn);
      HeldPassed(h.q.chks, h.starts, h.accepted, h.acceptedIn, h.q.persist, h.drawnUpTo, h.q.barrier.value);
    } else {
      AtBarrier(h);
      assert Latest([]) == map[] by { LatestMeta([]); }
      NoneLatest(h.accepted, h.heldAt);
    }
  }

  lemma AtBarrier(h: History)
    requires InPlace(h) && h.q.barrier.Some? && h.q.persist == Pos(h.q.barrier.value, 0)
    ensures h.heldAt == h.drawnUpTo <= |h.accepted|
  {
    hide ListOk, Latest, SegOk;
  }
}
