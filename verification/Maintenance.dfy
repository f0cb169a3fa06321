/**
 What rollback, the removal of a prefix and the registration of a cursor mean for the checkpoint list and for what
 every cursor has still to visit.
 */
module Maintenance {
  import opened Items
  import opened UnifiedQueue
  import opened Pending

  // ---------------------------------------------------------------- rollback

  /** A checkpoint survives as `c`: the same id and items, closed if it was not. */
  predicate KeptAs(before: Chk, c: Chk) {
    c == if before.open then Chk(before.id, false, before.items + [EndItem(before.id)]) else before
  }

  /**
   The cursor at `p` went to the start of the new checkpoint exactly if its own was dropped. It then has the new
   start item ahead; any other cursor has what lay ahead in the kept checkpoints, and the control items.
   */
  predicate Rewound(chks: seq<Chk>, chks': seq<Chk>, id: nat, p: Pos, p': Pos) {
    && PosOk(chks, p) && 0 < |chks'| <= |chks| + 1 && PosOk(chks', p')
    && var kept := chks[..|chks'| - 1];
       if id <= chks[p.chk].id then p' == Pos(|chks'| - 1, 0) && Ahead(chks', p') == [StartItem(id)]
       else p' == p && PosOk(kept, p) && Ahead(chks', p) == Ahead(kept, p) + Turnover(kept, id)
  }

  /**
   Rolling back to `id` keeps exactly the checkpoints with smaller ids and adds one open checkpoint with that id,
   empty but for its start. Precisely the cursors in dropped checkpoints move, to the start of the new one.
   */
  lemma RollbackCorrect(q: Queue, id: nat)
    requires WF(q) && 0 < id && Last(q.chks).id != 0 && (q.barrier.None? || !RollsBack(q, id))
    ensures var r := CheckAndAdd(q, id);
            && WF(r) && r.barrier == q.barrier
            && |r.chks| - 1 <= |q.chks|
            && (forall i :: 0 <= i < |q.chks| ==> (q.chks[i].id < id <==> i < |r.chks| - 1))
            && (forall i :: 0 <= i < |r.chks| - 1 ==> KeptAs(q.chks[i], r.chks[i]))
            && Last(r.chks) == Chk(id, true, [Dummy, StartItem(id)])
            && Rewound(q.chks, r.chks, id, q.persist, r.persist)
            && r.taps.Keys == q.taps.Keys
            && forall n :: n in q.taps ==>
                 r.taps[n].closedOnly == q.taps[n].closedOnly
                     && Rewound(q.chks, r.chks, id, q.taps[n].pos, r.taps[n].pos)
  {
    hide ListOk, AddNew, KeepBelow, CheckAndAdd, RewindPos, KeptAs, Rewound, RollsBack;
    var k := KeepBelow(q.chks, id);
    CheckAndAddWF(q, id);
    RollbackForm(q, id);
    RollbackList(q.chks, id);
    RollbackCursor(q.chks, id, q.persist);
    forall n | n in q.taps
      ensures Rewound(q.chks, AddNew(q.chks[..k], id), id, q.taps[n].pos, RewindPos(k, q.taps[n].pos)) {
      RollbackCursor(q.chks, id, q.taps[n].pos);
    }
  }

  /**
   A checkpoint start with id 0 is ignored. At the end of backfill, when the last id is 0, it names the last checkpoint:
   that and its start item change, and nothing else.
   */
  lemma StartNames(q: Queue, id: nat)
    requires WF(q) && (id == 0 || Last(q.chks).id == 0)
    ensures id == 0 ==> CheckAndAdd(q, id) == q
    ensures id > 0 ==>
              var r, li := CheckAndAdd(q, id), |q.chks| - 1;
              && r == q.(chks := r.chks) && |r.chks| == |q.chks|
              && (forall i :: 0 <= i < li ==> r.chks[i] == q.chks[i])
              && r.chks[li].id == id && r.chks[li].open == q.chks[li].open
              && |r.chks[li].items| == |q.chks[li].items| && r.chks[li].items[1] == StartItem(id)
              && forall j :: 0 <= j < |q.chks[li].items| && j != 1 ==> r.chks[li].items[j] == q.chks[li].items[j]
  {
    hide ListOk;
    ItemsOk(q);
  }

  lemma RollbackForm(q: Queue, id: nat)
    requires WF(q) && 0 < id && Last(q.chks).id != 0
    ensures var r, k := CheckAndAdd(q, id), KeepBelow(q.chks, id);
            && r.chks == AddNew(q.chks[..k], id) && r.barrier == q.barrier
            && r.persist == RewindPos(k, q.persist) && r.taps.Keys == q.taps.Keys
            && forall n :: n in q.taps ==> r.taps[n] == q.taps[n].(pos := RewindPos(k, q.taps[n].pos))
  {
    hide ListOk, AddNew;
    assert q.chks[..|q.chks|] == q.chks;
  }

  lemma RollbackList(chks: seq<Chk>, id: nat)
    requires ListOk(chks)
    ensures var r, k := AddNew(chks[..KeepBelow(chks, id)], id), KeepBelow(chks, id);
            && |r| == k + 1 && Last(r) == Chk(id, true, [Dummy, StartItem(id)])
            && (forall i :: 0 <= i < |chks| ==> (chks[i].id < id <==> i < k))
            && (forall i :: 0 <= i < k ==> KeptAs(chks[i], r[i]))
  {
    hide AddNew, ListOk, KeptAs;
    var k := KeepBelow(chks, id);
    AddNewAt(chks[..k], id);
    var r := AddNew(chks[..k], id);
    forall i | 0 <= i < |chks| ensures chks[i].id < id <==> i < k {
      Split(chks, id, i);
    }
    forall i | 0 <= i < k ensures KeptAs(chks[i], r[i]) {
      Kept(chks, k, id, i);
    }
  }

  lemma Split(chks: seq<Chk>, id: nat, i: nat)
    requires ListOk(chks) && i < |chks|
    ensures chks[i].id < id <==> i < KeepBelow(chks, id)
  {
    hide ChkOk;
    var k := KeepBelow(chks, id);
    assert k < i ==> chks[k].id < chks[i].id;
  }

  lemma Kept(chks: seq<Chk>, k: nat, id: nat, i: nat)
    requires ListOk(chks) && i < k <= |chks|
    ensures |AddNew(chks[..k], id)| == k + 1 && KeptAs(chks[i], AddNew(chks[..k], id)[i])
  {
    hide ChkOk, AddNew;
    AddNewAt(chks[..k], id);
  }

  lemma RollbackCursor(chks: seq<Chk>, id: nat, p: Pos)
    requires ListOk(chks) && PosOk(chks, p)
    ensures Rewound(chks, AddNew(chks[..KeepBelow(chks, id)], id), id, p, RewindPos(KeepBelow(chks, id), p))
  {
    hide ListOk, AddNew, KeptAs, Ahead, Turnover, Flat;
    var k := KeepBelow(chks, id);
    var chks' := AddNew(chks[..k], id);
    RollbackList(chks, id);
    if k <= p.chk {
      AheadLast(chks', Pos(k, 0));
    } else {
      assert PosOk(chks[..k], p);
      NotEmpty(chks, k - 1);
      AheadExtend(chks[..k], id, p);
    }
  }

  lemma NotEmpty(chks: seq<Chk>, i: nat)
    requires ListOk(chks) && i < |chks|
    ensures chks[i].items != []
  {
  }

  // ---------------------------------------------------------------- dropping a prefix

  /** The control items that a trim adds behind everything a cursor has still to visit. */
  function Added(q: Queue, create: bool): seq<Item>
    requires q.chks != []
  {
    if create then Turnover(q.chks, Last(q.chks).id + 1) else []
  }

  /** What a cursor at `p` before, and `p'` after, has still to visit is the same but for added control items. */
  predicate StillAhead(q: Queue, r: Queue, create: bool, p: Pos, p': Pos)
    requires q.chks != []
  {
    PosOk(q.chks, p) && PosOk(r.chks, p') && Ahead(r.chks, p') == Ahead(q.chks, p) + Added(q, create)
  }

  /**
   Where a trim leaves a cursor: in its checkpoint, renumbered, but a cursor on the very last item steps from the
   last checkpoint, when that was closed already, into the one created.
   */
  predicate Stepped(q: Queue, chks': seq<Chk>, create: bool, p: Pos, p': Pos)
    requires q.chks != []
  {
    if create && Last(q.chks).id != 0 && !Last(q.chks).open
       && p.chk == |q.chks| - 1 && p.at == |Last(q.chks).items| - 1
    then chks' != [] && p' == Pos(|chks'| - 1, 0) && Last(chks').id == Last(q.chks).id + 1
    else p'.at == p.at && |chks'| - p'.chk == |q.chks| + (if create then 1 else 0) - p.chk
  }

  lemma PreTrimCursors(q: Queue, create: bool)
    requires q.chks != []
    ensures var q0 := PreTrim(q, create);
            && q0.persist == PrePos(q, create, q.persist) && q0.taps.Keys == q.taps.Keys
            && forall m :: m in q.taps ==> q0.taps[m] == q.taps[m].(pos := PrePos(q, create, q.taps[m].pos))
  {
    hide AddNew, HopPos;
  }

  lemma PreTrimAhead(q: Queue, create: bool, p: Pos)
    requires WF(q) && PosOk(q.chks, p)
    ensures PosOk(PreTrim(q, create).chks, PrePos(q, create, p))
    ensures Ahead(PreTrim(q, create).chks, PrePos(q, create, p)) == Ahead(q.chks, p) + Added(q, create)
  {
    hide WF, Ahead, AddNew, Flat, Turnover;
    ItemsOk(q);
    PreTrimWF(q, create);
    ItemsOk(PreTrim(q, create));
    if create {
      AheadExtend(q.chks, Last(q.chks).id + 1, p);
      AheadHop(Rollover(q).chks, |q.chks| - 1, p);
    } else {
      assert Ahead(q.chks, p) + [] == Ahead(q.chks, p);
    }
  }

  lemma TrimPrefix(q: Queue)
    requires WF(q)
    ensures var n := FirstReferenced(q, 0);
            var r := Drop(q, n);
            && n < |q.chks| && r.chks == q.chks[n..] && Referenced(r, 0)
            && (forall i :: 0 <= i < n ==> !q.chks[i].open && !Referenced(q, i))
            && n <= q.persist.chk && (forall m :: m in q.taps ==> n <= q.taps[m].pos.chk)
  {
    hide ChkOk;
    var n := FirstReferenced(q, 0);
    FirstReferencedBounds(q);
    var r := Drop(q, n);
    if m :| m in q.taps && q.taps[m].pos.chk == n {
      assert r.taps[m].pos.chk == 0;
    }
  }

  lemma TrimAhead(q: Queue, create: bool, p: Pos, n: nat)
    requires WF(q) && PosOk(q.chks, p) && WF(PreTrim(q, create))
    requires n <= PrePos(q, create, p).chk
    ensures var q0 := PreTrim(q, create);
            var p' := DropPos(n, PrePos(q, create, p));
            && n <= |q0.chks| && PosOk(q0.chks[n..], p')
                && Ahead(q0.chks[n..], p') == Ahead(q.chks, p) + Added(q, create)
  {
    PreTrimAhead(q, create, p);
    hide WF, Ahead, Flat, PreTrim, PrePos, Added;
    AheadDrop(PreTrim(q, create).chks, n, PrePos(q, create, p));
  }

  /**
   A trim frees only closed checkpoints that no cursor is in, stops at one that some cursor is in, and takes
   nothing away from what any cursor has still to visit.
   */
  lemma TrimSafe(q: Queue, create: bool)
    requires WF(q)
    ensures WF(PreTrim(q, create)) && WF(Trim(q, create))
    ensures var q0, r := PreTrim(q, create), Trim(q, create);
            var n := FirstReferenced(q0, 0);
            && n < |q0.chks| && r.chks == q0.chks[n..] && Referenced(r, 0)
            && (forall i :: 0 <= i < n ==> !q0.chks[i].open && !Referenced(q0, i))
    ensures StillAhead(q, Trim(q, create), create, q.persist, Trim(q, create).persist)
    ensures Stepped(q, Trim(q, create).chks, create, q.persist, Trim(q, create).persist)
    ensures Trim(q, create).taps.Keys == q.taps.Keys
    ensures forall m :: m in q.taps ==>
            && StillAhead(q, Trim(q, create), create, q.taps[m].pos, Trim(q, create).taps[m].pos)
            && Stepped(q, Trim(q, create).chks, create, q.taps[m].pos, Trim(q, create).taps[m].pos)
  {
    hide ListOk, Referenced, FirstReferenced, PosOk, Ahead, PreTrim, DropPos, PrePos, Added, Stepped;
    PreTrimWF(q, create);
    TrimWF(q, create);
    var q0 := PreTrim(q, create);
    var n := FirstReferenced(q0, 0);
    TrimPrefix(q0);
    PreTrimCursors(q, create);
    TrimAhead(q, create, q.persist, n);
    TrimStepped(q, create, q.persist, n);
    forall m | m in q.taps
      ensures StillAhead(q, Trim(q, create), create, q.taps[m].pos, Trim(q, create).taps[m].pos)
      ensures Stepped(q, Trim(q, create).chks, create, q.taps[m].pos, Trim(q, create).taps[m].pos)
    {
      TrimAhead(q, create, q.taps[m].pos, n);
      TrimStepped(q, create, q.taps[m].pos, n);
    }
  }

  lemma TrimStepped(q: Queue, create: bool, p: Pos, n: nat)
    requires WF(q) && PosOk(q.chks, p) && WF(PreTrim(q, create))
    requires n <= PrePos(q, create, p).chk && PosOk(PreTrim(q, create).chks, PrePos(q, create, p))
    ensures var q0 := PreTrim(q, create);
            n <= |q0.chks| && Stepped(q, q0.chks[n..], create, p, DropPos(n, PrePos(q, create, p)))
  {
    hide ListOk, AddNew;
    ItemsOk(q);
    AddNewAt(q.chks, Last(q.chks).id + 1);
  }

  // ---------------------------------------------------------------- registration

  /**
   A cursor registered for a known id will visit exactly the checkpoints with that id and higher ones; for an unknown
   id, the last checkpoint. Only one that is already inside the checkpoint, and is not to begin anew, goes on from
   where it is.
   */
  lemma RegistrationAhead(q: Queue, name: string, id: nat, closedOnly: bool, fromBeginning: bool)
    requires WF(q)
    ensures var r, i := Register(q, name, id, closedOnly, fromBeginning), FindId(q.chks, id);
            var p := r.taps[name].pos;
            && r == q.(taps := q.taps[name := Tap(p, closedOnly)]) && PosOk(q.chks, p)
            && (i < |q.chks| ==> forall j :: 0 <= j < |q.chks| ==> (id <= q.chks[j].id <==> i <= j))
            && (i == |q.chks| ==>
                (forall j :: 0 <= j < |q.chks| ==> q.chks[j].id != id) && Ahead(q.chks, p) == Body(Last(q.chks)))
            && (i < |q.chks| ==>
                  if !fromBeginning && name in q.taps && q.taps[name].pos.chk == i then p == q.taps[name].pos
                  else p == Pos(i, 0) && Ahead(q.chks, p) == Flat(q.chks[i..]))
  {
    hide Ahead, Flat, ListOk;
    ItemsOk(q);
    var i, li := FindId(q.chks, id), |q.chks| - 1;
    if i < |q.chks| {
      IdsFrom(q.chks, id);
      AheadStart(q.chks, i);
    } else {
      AheadStart(q.chks, li);
      assert q.chks[li..] == [Last(q.chks)];
      FlatOne(Last(q.chks));
    }
  }

  lemma AheadStart(chks: seq<Chk>, i: nat)
    requires i < |chks| && chks[i].items != []
    ensures Ahead(chks, Pos(i, 0)) == Flat(chks[i..])
  {
    hide Flat;
    FlatFrom(chks, i);
  }

  lemma IdsFrom(chks: seq<Chk>, id: nat)
    requires ListOk(chks) && FindId(chks, id) < |chks|
    ensures forall j :: 0 <= j < |chks| ==> (id <= chks[j].id <==> FindId(chks, id) <= j)
  {
    hide ChkOk;
  }

  // ---------------------------------------------------------------- clearing, and online update

  /** Clearing leaves one open checkpoint, with its start item ahead of every cursor. */
  lemma ClearCorrect(q: Queue, active: bool)
    ensures var r, id := Clear(q, active), if active then 1 else 0;
            && r.chks == [Chk(id, true, [Dummy, StartItem(id)])]
            && PosOk(r.chks, r.persist) && Ahead(r.chks, r.persist) == [StartItem(id)]
            && r.taps.Keys == q.taps.Keys && r.barrier == q.barrier
            && forall n :: n in q.taps ==>
                 && r.taps[n].closedOnly == q.taps[n].closedOnly && PosOk(r.chks, r.taps[n].pos)
                 && Ahead(r.chks, r.taps[n].pos) == [StartItem(id)]
  {
    hide Flat;
    AheadLast(Clear(q, active).chks, Pos(0, 0));
  }

  /**
   Online update begins with a checkpoint of its own, which is the barrier: everything that was ahead of persistence
   lies in front of it and can still be drawn.
   */
  lemma StartRaises(q: Queue)
    requires WF(q) && q.barrier.None?
    ensures WF(StartOnline(q))
    ensures var r, id := StartOnline(q), Last(q.chks).id + 1;
            && r == q.(chks := r.chks, barrier := Some(|q.chks|)) && |r.chks| == |q.chks| + 1
            && Last(r.chks) == Chk(id, true, [Dummy, StartItem(id), OnlineStart])
            && (forall p :: PosOk(q.chks, p) ==>
                  PosOk(r.chks, p) && Ahead(r.chks, p) == Ahead(q.chks, p) + Turnover(q.chks, id) + [OnlineStart])
            && Drawn(r) == Ahead(q.chks, q.persist) + (if Last(q.chks).open then [EndItem(Last(q.chks).id)] else [])
  {
    hide ListOk, Ahead, Flat, AddNew;
    StartOnlineWF(q);
    ItemsOk(q);
    var r, id := StartOnline(q), Last(q.chks).id + 1;
    AddNewAt(q.chks, id);
    forall p | PosOk(q.chks, p)
      ensures PosOk(r.chks, p) && Ahead(r.chks, p) == Ahead(q.chks, p) + Turnover(q.chks, id) + [OnlineStart]
    {
      AheadExtend(q.chks, id, p);
      AheadAppend(AddNew(q.chks, id), p, Last(r.chks), [OnlineStart]);
    }
    assert r.chks[..|q.chks|] == CloseLast(q.chks);
    AheadAppend(q.chks, q.persist, Close(Last(q.chks)), if Last(q.chks).open then [EndItem(Last(q.chks).id)] else []);
  }

  /** Its end puts the end marker behind everything, opens another checkpoint and lets persistence read on. */
  lemma StopLowers(q: Queue)
    requires WF(q) && q.barrier.Some? && Last(q.chks).open
    ensures WF(StopOnline(q))
    ensures var r, id := StopOnline(q), Last(q.chks).id;
            && r == q.(chks := r.chks, barrier := None) && |r.chks| == |q.chks| + 1
            && (forall p :: PosOk(q.chks, p) ==>
                  && PosOk(r.chks, p)
                  && Ahead(r.chks, p) == Ahead(q.chks, p) + [OnlineEnd, EndItem(id), StartItem(id + 1)])
            && Drawn(r) == Ahead(r.chks, q.persist)
  {
    hide ListOk, Ahead, Flat, AddNew;
    StopOnlineWF(q);
    ItemsOk(q);
    var r, id := StopOnline(q), Last(q.chks).id;
    var q1 := AppendLast(q, OnlineEnd);
    AddNewAt(q1.chks, id + 1);
    forall p | PosOk(q.chks, p)
      ensures PosOk(r.chks, p)
      ensures Ahead(r.chks, p) == Ahead(q.chks, p) + [OnlineEnd, EndItem(id), StartItem(id + 1)]
    {
      AheadAppend(q.chks, p, Last(q1.chks), [OnlineEnd]);
      AheadExtend(q1.chks, id + 1, p);
    }
  }
}
