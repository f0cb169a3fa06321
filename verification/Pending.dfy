/** What each queue operation does to the items a cursor has still to visit. */
module Pending {
  import opened Items
  import opened UnifiedQueue

  lemma AheadLast(chks: seq<Chk>, p: Pos)
    requires PosOk(chks, p) && p.chk == |chks| - 1
    ensures Ahead(chks, p) == Last(chks).items[p.at + 1..]
  {
    assert chks[|chks|..] == [];
  }

  lemma FlatFrom(chks: seq<Chk>, b: nat)
    requires b < |chks|
    ensures Flat(chks[b..]) == Body(chks[b]) + Flat(chks[b + 1..])
  {
    assert chks[b..][1..] == chks[b + 1..];
  }

  lemma FlatUpdateLast(chks: seq<Chk>, c: Chk)
    requires chks != []
    ensures Flat(chks[|chks| - 1 := c]) == Flat(chks[..|chks| - 1]) + Body(c)
    ensures Flat(chks) == Flat(chks[..|chks| - 1]) + Body(Last(chks))
  {
    var k := |chks| - 1;
    assert chks[k := c] == chks[..k] + [c];
    FlatConcat(chks[..k], [c]);
    FlatOne(c);
    assert chks == chks[..k] + [Last(chks)];
    FlatConcat(chks[..k], [Last(chks)]);
    FlatOne(Last(chks));
  }

  /** The part of `Ahead` that lies in front of the last checkpoint, for a cursor in an earlier one. */
  lemma AheadSplit(chks: seq<Chk>, p: Pos, c: Chk)
    requires PosOk(chks, p) && p.chk < |chks| - 1
    ensures var r := chks[|chks| - 1 := c];
            && PosOk(r, p)
            && Ahead(r, p) == Ahead(chks[..|chks| - 1], p) + Body(c)
            && Ahead(chks, p) == Ahead(chks[..|chks| - 1], p) + Body(Last(chks))
  {
    hide Flat;
    var k := |chks| - 1;
    var t := chks[p.chk + 1..];
    FlatUpdateLast(t, c);
    assert t[|t| - 1 := c] == chks[k := c][p.chk + 1..];
    assert t[..|t| - 1] == chks[..k][p.chk + 1..];
    assert Last(t) == Last(chks);
  }

  /** Items appended to the last checkpoint are appended to what lies ahead of every cursor. */
  lemma AheadAppend(chks: seq<Chk>, p: Pos, c: Chk, xs: seq<Item>)
    requires PosOk(chks, p) && Last(chks).items != []
    requires c.items == Last(chks).items + xs
    ensures var r := chks[|chks| - 1 := c]; PosOk(r, p) && Ahead(r, p) == Ahead(chks, p) + xs
  {
    if p.chk < |chks| - 1 {
      hide Flat;
      AheadSplit(chks, p, c);
      assert Body(c) == Body(Last(chks)) + xs;
    }
  }

  lemma AheadNew(chks: seq<Chk>, p: Pos, c: Chk)
    requires PosOk(chks, p)
    ensures PosOk(chks + [c], p) && Ahead(chks + [c], p) == Ahead(chks, p) + Body(c)
  {
    hide Flat;
    FlatConcat(chks[p.chk + 1..], [c]);
    FlatOne(c);
    assert (chks + [c])[p.chk + 1..] == chks[p.chk + 1..] + [c];
    Assoc(chks[p.chk].items[p.at + 1..], Flat(chks[p.chk + 1..]), Body(c));
  }

  /** The control items that closing the last checkpoint and opening another adds. */
  function Turnover(chks: seq<Chk>, id: nat): seq<Item>
    requires chks != []
  {
    (if Last(chks).open then [EndItem(Last(chks).id)] else []) + [StartItem(id)]
  }

  lemma AheadExtend(chks: seq<Chk>, id: nat, p: Pos)
    requires PosOk(chks, p) && Last(chks).items != []
    ensures PosOk(AddNew(chks, id), p)
    ensures Ahead(AddNew(chks, id), p) == Ahead(chks, p) + Turnover(chks, id)
  {
    hide Flat;
    var e := if Last(chks).open then [EndItem(Last(chks).id)] else [];
    AheadAppend(chks, p, Close(Last(chks)), e);
    AheadNew(CloseLast(chks), p, NewChk(id));
  }

  /** Is the older copy of key `k` in the last checkpoint still ahead of `p`? */
  predicate CopyAhead(chks: seq<Chk>, k: Key, p: Pos)
    requires chks != []
  {
    var s := Last(chks).items;
    var i := IndexOf(s, k);
    i < |s| && (p.chk < |chks| - 1 || p.at < i)
  }

  lemma RequeueTail(s: seq<Item>, x: Item, at: nat)
    requires at < |s| && s[0].key == ""
    ensures var i := IndexOf(s, x.key);
            var at' := if i < |s| && i <= at then at - 1 else at;
            && at' < |Requeue(s, x)|
            && Requeue(s, x)[at' + 1..] ==
               (if at < i < |s| then s[at + 1..i] + s[i + 1..] else s[at + 1..]) + [Stored(s, x)]
  {
    var i := IndexOf(s, x.key);
    hide IndexOf;
    if i < |s| {
      ErasedTail(s, i, at);
      TailAppend(Without(s, x.key), Stored(s, x), if i <= at then at else at + 1);
    } else {
      TailAppend(s, Stored(s, x), at + 1);
    }
  }

  lemma ErasedTail(s: seq<Item>, i: nat, at: nat)
    requires i < |s| && at < |s|
    ensures i <= at ==> (s[..i] + s[i + 1..])[at..] == s[at + 1..]
    ensures at < i ==> (s[..i] + s[i + 1..])[at + 1..] == s[at + 1..i] + s[i + 1..]
  {
  }

  lemma TailAppend(s: seq<Item>, y: Item, n: nat)
    requires n <= |s|
    ensures (s + [y])[n..] == s[n..] + [y]
  {
  }

  /** An item list around the copy that a requeue erases. */
  lemma RequeueSplit(s: seq<Item>, x: Item, at: nat)
    requires at < IndexOf(s, x.key) < |s| && s[0].key == ""
    ensures var i := IndexOf(s, x.key);
            && s[at + 1..] == s[at + 1..i] + [s[i]] + s[i + 1..]
            && at < |Requeue(s, x)|
            && Requeue(s, x)[at + 1..] == s[at + 1..i] + s[i + 1..] + [Stored(s, x)]
  {
    RequeueTail(s, x, at);
  }

  lemma WriteAheadSplit(chks: seq<Chk>, x: Item, p: Pos) returns (a: seq<Item>, prior: Item, b: seq<Item>)
    requires PosOk(chks, p) && Last(chks).items != [] && Last(chks).items[0].key == ""
    requires CopyAhead(chks, x.key, p)
    ensures prior.key == x.key
    ensures Ahead(chks, p) == a + [prior] + b
    ensures var c := Last(chks);
            var r := chks[|chks| - 1 := c.(items := Requeue(c.items, x))];
            && ShiftPos(chks, x.key, p) == p && PosOk(r, p)
            && Ahead(r, p) == a + b + [Stored(c.items, x)]
  {
    hide Flat;
    hide Ahead;
    hide Requeue;
    var c := Last(chks);
    var s := c.items;
    var i := IndexOf(s, x.key);
    prior := s[i];
    b := s[i + 1..];
    var c' := c.(items := Requeue(s, x));
    if p.chk < |chks| - 1 {
      AheadSplit(chks, p, c');
      RequeueSplit(s, x, 0);
      var pre := Ahead(chks[..|chks| - 1], p);
      a := pre + s[1..i];
      Assoc(pre, s[1..i], b);
      Assoc(pre, s[1..i] + b, [Stored(s, x)]);
      Assoc(pre, s[1..i], [prior]);
      Assoc(pre, s[1..i] + [prior], b);
    } else {
      RequeueSplit(s, x, p.at);
      AheadLast(chks, p);
      AheadLast(chks[|chks| - 1 := c'], p);
      a := s[p.at + 1..i];
    }
  }

  /**
   A write, seen by a cursor: the new item goes last. If the older copy of its key was still ahead it
   disappears from there; either way the last mutations ahead are those before plus the new one.
   */
  lemma AheadWrite(chks: seq<Chk>, x: Item, p: Pos)
    requires PosOk(chks, p) && Last(chks).items != [] && Last(chks).items[0].key == "" && IsMutation(x)
    ensures var c := Last(chks);
            var r := chks[|chks| - 1 := c.(items := Requeue(c.items, x))];
            var p' := ShiftPos(chks, x.key, p);
            && PosOk(r, p')
            && (!CopyAhead(chks, x.key, p) ==> Ahead(r, p') == Ahead(chks, p) + [Stored(c.items, x)])
            && |Ahead(r, p')| == |Ahead(chks, p)| + (if CopyAhead(chks, x.key, p) then 0 else 1)
            && Latest(Ahead(r, p')) == Latest(Ahead(chks, p))[x.key := Stored(c.items, x)]
  {
    hide Flat, Latest, DistinctKeys;
    var c := Last(chks);
    var y := Stored(c.items, x);
    if CopyAhead(chks, x.key, p) {
      var a, prior, b := WriteAheadSplit(chks, x, p);
      hide Requeue;
      LatestSupersede(a, prior, b, y);
    } else {
      if p.chk < |chks| - 1 {
        AheadAppend(chks, p, c.(items := Requeue(c.items, x)), [y]);
      } else {
        RequeueTail(c.items, x, p.at);
        AheadLast(chks, p);
        AheadLast(chks[|chks| - 1 := c.(items := Requeue(c.items, x))], ShiftPos(chks, x.key, p));
      }
      LatestAppend(Ahead(chks, p), y);
    }
  }

  lemma AheadDrop(chks: seq<Chk>, n: nat, p: Pos)
    requires PosOk(chks, p) && n <= p.chk
    ensures PosOk(chks[n..], DropPos(n, p)) && Ahead(chks[n..], DropPos(n, p)) == Ahead(chks, p)
  {
    hide Flat;
    assert chks[n..][p.chk - n + 1..] == chks[p.chk + 1..];
  }

  lemma AheadHop(chks: seq<Chk>, c: nat, p: Pos)
    requires PosOk(chks, p) && forall i :: 0 <= i < |chks| ==> chks[i].items != []
    ensures PosOk(chks, HopPos(chks, c, p)) && Ahead(chks, HopPos(chks, c, p)) == Ahead(chks, p)
  {
    if HopPos(chks, c, p) != p {
      assert chks[c + 1..][1..] == chks[c + 2..];
    }
  }

  /** A draw hands out exactly the front of what lay ahead. */
  lemma AheadDraw(q: Queue)
    requires WF(q)
    ensures PosOk(q.chks, DrawTo(q))
    ensures Drawn(q) + Ahead(q.chks, DrawTo(q)) == Ahead(q.chks, q.persist)
  {
    hide Flat;
    hide ListOk;
    ItemsOk(q);
    if q.barrier.Some? && q.persist.chk < q.barrier.value {
      AheadTo(q.chks, q.persist, q.barrier.value);
    } else if q.barrier.None? {
      AheadLast(q.chks, EndPos(q.chks));
    }
  }

  lemma ItemsOk(q: Queue)
    requires WF(q)
    ensures forall i :: 0 <= i < |q.chks| ==> 2 <= |q.chks[i].items|
    ensures Last(q.chks).items[0] == Dummy && !IsMutation(Last(q.chks).items[1])
  {
  }

  /** Reading up to the start of checkpoint `b`. */
  lemma AheadTo(chks: seq<Chk>, p: Pos, b: nat)
    requires PosOk(chks, p) && p.chk < b < |chks| && chks[b].items != []
    ensures PosOk(chks, Pos(b, 0)) && PosOk(chks[..b], p)
    ensures Ahead(chks[..b], p) + Ahead(chks, Pos(b, 0)) == Ahead(chks, p)
  {
    hide Flat;
    assert chks[p.chk + 1..] == chks[..b][p.chk + 1..] + chks[b..];
    FlatConcat(chks[..b][p.chk + 1..], chks[b..]);
    FlatFrom(chks, b);
  }

  lemma StepIn(chks: seq<Chk>, p: Pos)
    requires PosOk(chks, p) && p.at + 1 < |chks[p.chk].items|
    ensures Ahead(chks, p) == [chks[p.chk].items[p.at + 1]] + Ahead(chks, Pos(p.chk, p.at + 1))
  {
    hide Flat;
    var s := chks[p.chk].items;
    assert s[p.at + 1..] == [s[p.at + 1]] + s[p.at + 2..];
    Assoc([s[p.at + 1]], s[p.at + 2..], Flat(chks[p.chk + 1..]));
  }

  lemma StepOver(chks: seq<Chk>, p: Pos)
    requires PosOk(chks, p) && p.at + 1 == |chks[p.chk].items|
    requires p.chk + 1 < |chks| && 2 <= |chks[p.chk + 1].items|
    ensures Ahead(chks, p) == Ahead(chks, Pos(p.chk + 1, 0))
    ensures Ahead(chks, p) == [chks[p.chk + 1].items[1]] + Ahead(chks, Pos(p.chk + 1, 1))
  {
    hide Flat;
    FlatFrom(chks, p.chk + 1);
    assert Ahead(chks, p) == Ahead(chks, Pos(p.chk + 1, 0));
    hide Ahead;
    StepIn(chks, Pos(p.chk + 1, 0));
  }

  /**
   One `nextItem` hands out the first item ahead, or nothing and nothing changes; unless the cursor is closed-only,
   the latter happens only during backfill or when nothing is ahead.
   */
  lemma AheadStep(chks: seq<Chk>, t: Tap)
    requires chks != [] && PosOk(chks, t.pos)
    requires forall i :: 0 <= i < |chks| ==> 2 <= |chks[i].items|
    ensures PosOk(chks, Step(chks, t).0)
    ensures match Step(chks, t).1
            case Some(x) => Ahead(chks, t.pos) == [x] + Ahead(chks, Step(chks, t).0)
            case None => Ahead(chks, t.pos) == Ahead(chks, Step(chks, t).0)
    ensures !t.closedOnly && (forall i :: 0 <= i < |chks| - 1 ==> !chks[i].open) ==>
            (Step(chks, t).1.Some? <==> Last(chks).id != 0 && Ahead(chks, t.pos) != [])
  {
    hide Flat, Ahead;
    var p := t.pos;
    if p.at + 1 < |chks[p.chk].items| {
      StepIn(chks, p);
    } else if p.chk + 1 < |chks| {
      StepOver(chks, p);
    } else {
      AheadLast(chks, p);
    }
  }

  lemma LatestRename(s: seq<Item>, x: Item, at: nat)
    requires at < |s| && 2 <= |s| && !IsMutation(s[1]) && !IsMutation(x)
    ensures Latest(s[1 := x][at + 1..]) == Latest(s[at + 1..])
  {
    if at == 0 {
      LatestConcat([s[1]], s[2..]);
      LatestConcat([x], s[2..]);
      LatestMeta([s[1]]);
      LatestMeta([x]);
      hide Latest;
      assert s[1..] == [s[1]] + s[2..] && s[1 := x][1..] == [x] + s[2..];
    } else {
      assert s[1 := x][at + 1..] == s[at + 1..];
    }
  }

  /** A new start item in the last checkpoint is the only change a cursor in front of it sees. */
  lemma AheadRestart(chks: seq<Chk>, c: Chk, x: Item, p: Pos)
    requires PosOk(chks, p) && 2 <= |Last(chks).items| && c.items == Last(chks).items[1 := x]
    requires !IsMutation(Last(chks).items[1]) && !IsMutation(x)
    ensures var r := chks[|chks| - 1 := c];
            && PosOk(r, p) && |Ahead(r, p)| == |Ahead(chks, p)| && Latest(Ahead(r, p)) == Latest(Ahead(chks, p))
  {
    hide Latest, Flat, Ahead;
    var r := chks[|chks| - 1 := c];
    if p.chk == |chks| - 1 {
      AheadLast(chks, p);
      AheadLast(r, p);
      LatestRename(Last(chks).items, x, p.at);
    } else {
      AheadSplit(chks, p, c);
      LatestRename(Last(chks).items, x, 0);
      var front := Ahead(chks[..|chks| - 1], p);
      LatestConcat(front, Body(Last(chks)));
      LatestConcat(front, Body(c));
    }
  }

  /** A new id for the last checkpoint leaves what lies ahead as it is, but for the start item. */
  lemma AheadRename(q: Queue, id: nat, p: Pos)
    requires WF(q) && PosOk(q.chks, p)
    ensures PosOk(Rename(q, id).chks, p)
    ensures |Ahead(Rename(q, id).chks, p)| == |Ahead(q.chks, p)|
    ensures Latest(Ahead(Rename(q, id).chks, p)) == Latest(Ahead(q.chks, p))
  {
    hide ListOk, Latest, Flat, Ahead;
    ItemsOk(q);
    AheadRestart(q.chks, Last(Rename(q, id).chks), StartItem(id), p);
  }
}
