/**
 The concrete steps on the manager's state keep it consistent, keep its counters exact, and do to the
 abstract queue what `UnifiedQueue` says.
 */
module CheckpointRefinement {
  import opened Items
  import opened UnifiedQueue
  import opened Pending
  import opened CheckpointState

  // ---------------------------------------------------------------- queueing

  function Decr(offset: int, d: int, clamp: bool): int {
    if clamp && 0 < d && offset < d then 0 else offset - d
  }

  /** A cursor after the copy of key `k` in checkpoint `li` is erased; only persistence clamps at 0. */
  function Adjusted(c: Checkpoint, li: nat, k: Key, cur: Cursor, clamp: bool): Cursor
    requires cur.checkpoint == li ==> cur.pos < |c.toWrite|
  {
    if cur.checkpoint != li || k !in c.keyIndex then cur
    else cur.(pos := ErasedPos(c.keyIndex[k].position, cur.pos),
              offset := if NotAfter(c, k, cur.pos) then Decr(cur.offset, 1, clamp) else cur.offset)
  }

  function AdjustedTaps(c: Checkpoint, li: nat, k: Key, taps: map<string, Cursor>): map<string, Cursor>
    requires forall n :: n in taps && taps[n].checkpoint == li ==> taps[n].pos < |c.toWrite|
  {
    map n | n in taps :: Adjusted(c, li, k, taps[n], false)
  }

  ghost predicate CursorsOk(s: State) {
    && PosOk(AbsList(s.list), AbsPos(s.persist))
    && forall n :: n in s.taps ==> PosOk(AbsList(s.list), AbsPos(s.taps[n]))
  }

  lemma ConsistentCursors(s: State)
    requires Consistent(s)
    ensures s.list != [] && CursorsOk(s)
  {
    hide ListOk, IndexOk, RefsOk;
    assert forall n :: n in s.taps ==> n in AbsTaps(s.taps);
  }

  /** The state after an item is queued in the last checkpoint and counted if its key is new there. */
  function Queued(s: State, x: Item): State
    requires s.list != [] && CursorsOk(s) && Indexed(s.list, s.mutationCounter)
  {
    var li := |s.list| - 1;
    var c := s.list[li];
    State(s.list[li := Push(c, x, s.mutationCounter + 1)],
          s.numItems + One(x.key !in c.keyIndex),
          s.mutationCounter + 1,
          Adjusted(c, li, x.key, s.persist, true),
          AdjustedTaps(c, li, x.key, s.taps),
          s.online)
  }

  lemma NamesSame(taps: map<string, Cursor>, taps': map<string, Cursor>, i: nat)
    requires taps'.Keys == taps.Keys && forall n :: n in taps ==> taps'[n].checkpoint == taps[n].checkpoint
    ensures NamesAt(taps', i) == NamesAt(taps, i)
  {
  }

  /** References are unaffected when no cursor changes checkpoint. */
  lemma RefsSame(s: State, s': State)
    requires RefsOk(s) && |s'.list| == |s.list| && s'.online == s.online
    requires s'.persist.checkpoint == s.persist.checkpoint
    requires s'.taps.Keys == s.taps.Keys && forall n :: n in s.taps ==> s'.taps[n].checkpoint == s.taps[n].checkpoint
    requires forall i :: 0 <= i < |s.list| ==> s'.list[i].referenceCounter == s.list[i].referenceCounter
    ensures RefsOk(s')
  {
    forall i | 0 <= i < |s'.list|
      ensures s'.list[i].referenceCounter == CursorsAt(i, s'.persist.checkpoint, s'.taps, s'.online)
    {
      NamesSame(s.taps, s'.taps, i);
    }
  }

  lemma AdjustedAbs(s: State, x: Item, cur: Cursor, clamp: bool)
    requires s.list != [] && Indexed(s.list, s.mutationCounter) && PosOk(AbsList(s.list), AbsPos(cur))
    ensures var c := s.list[|s.list| - 1];
            && AbsPos(Adjusted(c, |s.list| - 1, x.key, cur, clamp)) == ShiftPos(AbsList(s.list), x.key, AbsPos(cur))
            && Adjusted(c, |s.list| - 1, x.key, cur, clamp).closedOnly == cur.closedOnly
  {
    hide IndexOk;
    var c := s.list[|s.list| - 1];
    IndexPosition(c, s.mutationCounter, x.key);
  }

  lemma QueuedAbs(s: State, x: Item)
    requires s.list != [] && CursorsOk(s) && Indexed(s.list, s.mutationCounter)
    ensures Abstract(Queued(s, x)) == Write(Abstract(s), x)
  {
    hide Requeue, Adjusted, ShiftPos, IndexComplete, IndexOrdered, PosOk, AbsList;
    QueuedChks(s, x);
    hide Push;
    AdjustedAbs(s, x, s.persist, true);
    QueuedTaps(s, x);
  }

  lemma QueuedChks(s: State, x: Item)
    requires s.list != [] && CursorsOk(s) && Indexed(s.list, s.mutationCounter)
    ensures AbsList(Queued(s, x).list) == Write(Abstract(s), x).chks
  {
    hide Requeue, Adjusted, ShiftPos, IndexComplete, IndexOrdered, PosOk;
    var li := |s.list| - 1;
    var c := s.list[li];
    PushAbs(c, s.mutationCounter, x, s.mutationCounter + 1);
    hide Push;
    AbsUpdate(s.list, li, Push(c, x, s.mutationCounter + 1));
  }

  lemma QueuedTaps(s: State, x: Item)
    requires s.list != [] && CursorsOk(s) && Indexed(s.list, s.mutationCounter)
    ensures AbsTaps(Queued(s, x).taps) == Write(Abstract(s), x).taps
  {
    hide Requeue, ShiftPos, IndexOk, Adjusted, Push, PosOk;
    var li := |s.list| - 1;
    var c := s.list[li];
    var a, b := AbsTaps(Queued(s, x).taps), Write(Abstract(s), x).taps;
    assert a.Keys == s.taps.Keys == b.Keys;
    forall n | n in s.taps ensures a[n] == b[n] {
      AdjustedAbs(s, x, s.taps[n], false);
    }
  }

  lemma AdjustedKeeps(s: State, x: Item)
    requires s.list != [] && CursorsOk(s) && Indexed(s.list, s.mutationCounter)
    ensures var s' := Queued(s, x);
            && s'.taps.Keys == s.taps.Keys && s'.persist.checkpoint == s.persist.checkpoint
            && forall n :: n in s.taps ==>
                 s'.taps[n].checkpoint == s.taps[n].checkpoint && s'.taps[n].closedOnly == s.taps[n].closedOnly
  {
    hide IndexOk, NotAfter, PosOk;
  }

  lemma IndexedPush(s: State, x: Item)
    requires s.list != [] && Indexed(s.list, s.mutationCounter)
    ensures Indexed(s.list[|s.list| - 1 := Push(s.list[|s.list| - 1], x, s.mutationCounter + 1)], s.mutationCounter + 1)
  {
    IndexedLater(s.list, s.mutationCounter, s.mutationCounter + 1);
    hide IndexSound, IndexComplete, IndexOrdered, KeysCounted;
    PushIndex(s.list[|s.list| - 1], s.mutationCounter, x, s.mutationCounter + 1);
    hide Push;
  }

  lemma IndexedLater(l: seq<Checkpoint>, counter: nat, counter': nat)
    requires Indexed(l, counter) && counter <= counter'
    ensures Indexed(l, counter')
  {
    hide IndexComplete, IndexOrdered;
  }

  lemma QueuedConsistent(s: State, x: Item)
    requires Consistent(s) && s.list[|s.list| - 1].state.Opened? && IsMutation(x)
    ensures CursorsOk(s) && Consistent(Queued(s, x))
    ensures Abstract(Queued(s, x)) == Write(Abstract(s), x)
  {
    hide ListOk, IndexOk, PosOk, RefsOk;
    ConsistentCursors(s);
    var s' := Queued(s, x);
    QueuedAbs(s, x);
    IndexedPush(s, x);
    AdjustedKeeps(s, x);
    hide Adjusted, NotAfter;
    RefsSame(s, s');
    assert WF(Abstract(s')) by { QueuedWF(s, x); }
  }

  lemma QueuedWF(s: State, x: Item)
    requires Consistent(s) && s.list[|s.list| - 1].state.Opened? && IsMutation(x)
    ensures WF(Write(Abstract(s), x))
  {
    hide RefsOk, IndexOk, ChkOk;
    WriteWF(Abstract(s), x);
  }

  /** A counter decremented on the strength of mutation ids stays exact. */
  lemma AdjustedExact(s: State, x: Item, cur: Cursor, clamp: bool)
    requires Consistent(s) && Exact(s) && s.list[|s.list| - 1].state.Opened? && IsMutation(x)
    requires OffsetOk(AbsList(s.list), cur)
    ensures var c := s.list[|s.list| - 1];
            OffsetOk(Write(Abstract(s), x).chks, Adjusted(c, |s.list| - 1, x.key, cur, clamp))
  {
    hide Flat, Ahead, RefsOk, IndexSound, IndexComplete, IndexOrdered, Behind, Requeue, ChkOk, ListOk, CopyAhead;
    var chks := AbsList(s.list);
    var li := |s.list| - 1;
    var c := s.list[li];
    WriteLengths(s, x, cur);
    AdjustedAbs(s, x, cur, clamp);
    OffsetAhead(chks, cur);
    OffsetAhead(Write(Abstract(s), x).chks, Adjusted(c, li, x.key, cur, clamp));
    if cur.checkpoint == li && x.key in c.keyIndex {
      LastChkOk(s);
      NotAfterPosition(c, s.mutationCounter, x.key, cur.pos);
      assert cur.offset >= cur.pos by { BehindSome(chks, cur); }
    }
  }

  /** The lengths after a write, for the whole list and for what lies ahead of one cursor. */
  lemma WriteLengths(s: State, x: Item, cur: Cursor)
    requires Consistent(s) && IsMutation(x) && PosOk(AbsList(s.list), AbsPos(cur))
    ensures var chks := AbsList(s.list);
            var chks' := Write(Abstract(s), x).chks;
            var p' := ShiftPos(chks, x.key, AbsPos(cur));
            var c := s.list[|s.list| - 1];
            && PosOk(chks', p')
            && |Flat(chks')| == |Flat(chks)| + One(x.key !in c.keyIndex)
            && |Ahead(chks', p')| == |Ahead(chks, AbsPos(cur))| + 1 - One(CopyAhead(chks, x.key, AbsPos(cur)))
            && (x.key in c.keyIndex ==> 2 <= c.keyIndex[x.key].position)
            && (CopyAhead(chks, x.key, AbsPos(cur)) <==>
                x.key in c.keyIndex && (cur.checkpoint < |s.list| - 1 || cur.pos < c.keyIndex[x.key].position))
  {
    hide Flat, Ahead, RefsOk, IndexSound, IndexComplete, IndexOrdered, Requeue, DistinctKeys, Latest;
    LastChkOk(s);
    hide ListOk;
    var c := s.list[|s.list| - 1];
    QueuedFlat(s, x);
    IndexPosition(c, s.mutationCounter, x.key);
    assert c.toWrite[0] == Dummy && c.toWrite[1] == StartItem(c.id);
    hide ChkOk;
    AheadWrite(AbsList(s.list), x, AbsPos(cur));
  }

  lemma BehindSome(chks: seq<Chk>, c: Cursor)
    requires OffsetOk(chks, c)
    ensures c.offset >= c.pos
  {
    hide Flat;
  }

  lemma LastChkOk(s: State)
    requires Consistent(s)
    ensures ChkOk(AbsChk(s.list[|s.list| - 1]))
  {
    hide RefsOk, IndexOk, ChkOk;
    assert AbsList(s.list)[|s.list| - 1] == AbsChk(s.list[|s.list| - 1]);
  }

  lemma QueuedFlat(s: State, x: Item)
    requires Consistent(s)
    ensures |Flat(Write(Abstract(s), x).chks)| == |Flat(AbsList(s.list))| + One(x.key !in s.list[|s.list| - 1].keyIndex)
  {
    hide Flat, RefsOk, DistinctKeys, IndexOk;
    LastChkOk(s);
    hide ListOk;
    var c := s.list[|s.list| - 1];
    IndexPosition(c, s.mutationCounter, x.key);
    RequeueAt(c.toWrite, x);
    hide Requeue;
    FlatLast(AbsList(s.list), AbsChk(c).(items := Requeue(c.toWrite, x)));
  }

  lemma QueuedTidy(s: State, x: Item)
    requires Consistent(s) && Exact(s) && s.list[|s.list| - 1].state.Opened? && IsMutation(x) && x.key != ""
    ensures Tidy(Push(s.list[|s.list| - 1], x, s.mutationCounter + 1))
  {
    hide Flat, RefsOk, OffsetOk, DistinctKeys;
    LastChkOk(s);
    hide ListOk;
  }

  lemma QueuedExact(s: State, x: Item)
    requires Consistent(s) && Exact(s) && s.list[|s.list| - 1].state.Opened? && IsMutation(x) && x.key != ""
    ensures CursorsOk(s) && Exact(Queued(s, x))
  {
    hide Flat, Ahead, Behind, RefsOk, IndexOk, Requeue, OffsetOk, ListOk;
    ConsistentCursors(s);
    QueuedAbs(s, x);
    QueuedFlat(s, x);
    QueuedTidy(s, x);
    hide Tidy, Push;
    AdjustedExact(s, x, s.persist, true);
    var c, li := s.list[|s.list| - 1], |s.list| - 1;
    forall n | n in s.taps
      ensures OffsetOk(Write(Abstract(s), x).chks, Adjusted(c, li, x.key, s.taps[n], false))
    {
      AdjustedExact(s, x, s.taps[n], false);
    }
  }

  // ---------------------------------------------------------------- closing and opening checkpoints

  function NewCheckpoint(id: nat): Checkpoint {
    Checkpoint(id, Opened, 0, 0, [Dummy, StartItem(id)], map[])
  }

  function ClosedCheckpoint(c: Checkpoint): Checkpoint {
    if c.state.Closed? then c else c.(state := Closed, toWrite := c.toWrite + [EndItem(c.id)])
  }

  /** The state after the last checkpoint is closed, if it is open. */
  function Sealed(s: State): State
    requires s.list != []
  {
    var li := |s.list| - 1;
    var d := One(s.list[li].state.Opened?);
    s.(list := s.list[li := ClosedCheckpoint(s.list[li])],
       numItems := s.numItems + d, mutationCounter := s.mutationCounter + d)
  }

  /** ... and a new one with this id is opened. */
  function Turned(s: State, id: nat): State
    requires s.list != []
  {
    var t := Sealed(s);
    t.(list := t.list + [NewCheckpoint(id)], numItems := t.numItems + 1, mutationCounter := t.mutationCounter + 2)
  }

  lemma ClosedIndex(c: Checkpoint, counter: nat)
    requires IndexOk(c, counter)
    ensures IndexOk(ClosedCheckpoint(c), counter)
    ensures AbsChk(ClosedCheckpoint(c)) == Close(AbsChk(c))
    ensures Tidy(c) ==> Tidy(ClosedCheckpoint(c))
  {
  }

  lemma NewIndex(id: nat, counter: nat)
    ensures IndexOk(NewCheckpoint(id), counter) && Tidy(NewCheckpoint(id))
    ensures AbsChk(NewCheckpoint(id)) == NewChk(id)
  {
  }

  lemma SealedAbs(s: State)
    requires s.list != [] && Indexed(s.list, s.mutationCounter)
    ensures AbsList(Sealed(s).list) == CloseLast(AbsList(s.list))
    ensures Indexed(Sealed(s).list, Sealed(s).mutationCounter)
    ensures (forall i :: 0 <= i < |s.list| ==> Tidy(s.list[i])) ==>
              forall i :: 0 <= i < |s.list| ==> Tidy(Sealed(s).list[i])
  {
    hide IndexSound, IndexComplete, IndexOrdered, Tidy, Close;
    var li := |s.list| - 1;
    ClosedIndex(s.list[li], s.mutationCounter);
    hide ClosedCheckpoint;
    IndexedLater(s.list, s.mutationCounter, Sealed(s).mutationCounter);
    ClosedIndex(s.list[li], Sealed(s).mutationCounter);
    AbsUpdate(s.list, li, ClosedCheckpoint(s.list[li]));
  }

  lemma TurnedAbs(s: State, id: nat)
    requires s.list != [] && Indexed(s.list, s.mutationCounter)
    ensures AbsList(Turned(s, id).list) == AddNew(AbsList(s.list), id)
    ensures Indexed(Turned(s, id).list, Turned(s, id).mutationCounter)
    ensures (forall i :: 0 <= i < |s.list| ==> Tidy(s.list[i])) ==>
              forall i :: 0 <= i < |Turned(s, id).list| ==> Tidy(Turned(s, id).list[i])
  {
    hide IndexOk, Tidy, CloseLast, AbsList;
    SealedAbs(s);
    hide Sealed;
    var t, t' := Sealed(s), Turned(s, id);
    NewIndex(id, t'.mutationCounter);
    IndexedLater(t.list, t.mutationCounter, t'.mutationCounter);
    AbsConcat(t.list, [NewCheckpoint(id)]);
    AbsSingle(NewCheckpoint(id));
  }

  lemma AbsSingle(c: Checkpoint)
    ensures AbsList([c]) == [AbsChk(c)]
  {
  }

  lemma ClosedRefs(c: Checkpoint)
    ensures ClosedCheckpoint(c).referenceCounter == c.referenceCounter
  {
  }

  lemma SealedConsistent(s: State)
    requires Consistent(s)
    ensures Consistent(Sealed(s))
    ensures Abstract(Sealed(s)) == CloseOpen(Abstract(s), s.list[|s.list| - 1].id)
  {
    hide IndexOk, RefsOk, ListOk;
    SealedAbs(s);
    ClosedRefs(s.list[|s.list| - 1]);
    RefsSame(s, Sealed(s));
    CloseOpenWF(Abstract(s), s.list[|s.list| - 1].id);
    hide ClosedCheckpoint, CloseLast;
  }

  lemma NoCursors(s: State)
    requires Consistent(s)
    ensures CursorsAt(|s.list|, s.persist.checkpoint, s.taps, s.online) == 0
  {
    hide IndexOk, ListOk, RefsOk;
    ConsistentCursors(s);
    assert NamesAt(s.taps, |s.list|) == {};
  }

  lemma TurnedConsistent(s: State, id: nat)
    requires Consistent(s) && s.list[|s.list| - 1].id < id
    ensures Consistent(Turned(s, id))
    ensures Abstract(Turned(s, id)) == Abstract(s).(chks := AddNew(AbsList(s.list), id))
  {
    hide IndexOk, ListOk, CloseLast;
    TurnedAbs(s, id);
    SealedConsistent(s);
    NoCursors(s);
    ExtendWF(Abstract(s), id);
    hide WF, AddNew;
  }

  lemma FlatTurn(chks: seq<Chk>, id: nat)
    requires chks != [] && Last(chks).items != []
    ensures |Flat(AddNew(chks, id))| == |Flat(chks)| + |Turnover(chks, id)|
    ensures |Flat(CloseLast(chks))| == |Flat(chks)| + |Turnover(chks, id)| - 1
  {
    hide Flat;
    FlatLast(chks, Close(Last(chks)));
    FlatConcat(CloseLast(chks), [NewChk(id)]);
    FlatOne(NewChk(id));
  }

  lemma TurnedExact(s: State, id: nat)
    requires Consistent(s) && Exact(s)
    ensures Exact(Turned(s, id))
  {
    hide IndexOk, RefsOk, Flat, Ahead, Behind, Tidy, ListOk, AddNew, PosOk;
    var chks := AbsList(s.list);
    assert Last(chks).items != [] by { LastItemsOk(s); }
    TurnedAbs(s, id);
    FlatTurn(chks, id);
    TurnedCursor(s, id, s.persist);
    forall n | n in s.taps ensures OffsetOk(AddNew(chks, id), s.taps[n]) {
      TurnedCursor(s, id, s.taps[n]);
    }
    hide AbsList;
  }

  lemma LastItemsOk(s: State)
    requires Consistent(s)
    ensures s.list != [] && 2 <= |Last(AbsList(s.list)).items|
  {
    hide IndexOk, RefsOk;
  }

  lemma TurnedCursor(s: State, id: nat, c: Cursor)
    requires Consistent(s) && OffsetOk(AbsList(s.list), c)
    ensures OffsetOk(AddNew(AbsList(s.list), id), c)
  {
    hide IndexOk, RefsOk, Flat, Ahead, Behind, ListOk, AddNew;
    LastItemsOk(s);
    var chks := AbsList(s.list);
    FlatTurn(chks, id);
    AheadExtend(chks, id, AbsPos(c));
    OffsetKept(chks, c, AddNew(chks, id), c);
  }

  lemma SealedExact(s: State)
    requires Consistent(s) && Exact(s)
    ensures Exact(Sealed(s))
  {
    hide IndexOk, RefsOk, Flat, Ahead, Behind, Tidy, ListOk;
    var chks := AbsList(s.list);
    LastItemsOk(s);
    SealedAbs(s);
    FlatTurn(chks, 0);
    SealedCursor(s, s.persist);
    forall n | n in s.taps ensures OffsetOk(CloseLast(chks), s.taps[n]) {
      SealedCursor(s, s.taps[n]);
    }
    hide AbsList, ClosedCheckpoint;
  }

  lemma SealedCursor(s: State, c: Cursor)
    requires Consistent(s) && OffsetOk(AbsList(s.list), c)
    ensures OffsetOk(CloseLast(AbsList(s.list)), c)
  {
    hide IndexOk, RefsOk, Flat, Ahead, Behind, ListOk;
    LastItemsOk(s);
    var chks := AbsList(s.list);
    FlatTurn(chks, 0);
    AheadAppend(chks, AbsPos(c), Close(Last(chks)), if Last(chks).open then [EndItem(Last(chks).id)] else []);
    OffsetKept(chks, c, CloseLast(chks), c);
  }

  // ---------------------------------------------------------------- moving cursors

  function DecrRef(l: seq<Checkpoint>, i: nat): seq<Checkpoint>
    requires i < |l|
  {
    if l[i].referenceCounter == 0 then l else l[i := l[i].(referenceCounter := l[i].referenceCounter - 1)]
  }

  function IncrRef(l: seq<Checkpoint>, i: nat): seq<Checkpoint>
    requires i < |l|
  {
    l[i := l[i].(referenceCounter := l[i].referenceCounter + 1)]
  }

  /** Everything but the reference counters is the same. */
  predicate SameButRefs(l: seq<Checkpoint>, l': seq<Checkpoint>) {
    |l'| == |l| && forall i :: 0 <= i < |l| ==> l'[i] == l[i].(referenceCounter := l'[i].referenceCounter)
  }

  lemma SameAbs(l: seq<Checkpoint>, l': seq<Checkpoint>, counter: nat)
    requires SameButRefs(l, l')
    ensures AbsList(l') == AbsList(l)
    ensures Indexed(l, counter) ==> Indexed(l', counter)
    ensures (forall i :: 0 <= i < |l| ==> Tidy(l[i])) ==> forall i :: 0 <= i < |l'| ==> Tidy(l'[i])
  {
    forall i | 0 <= i < |l'| ensures AbsChk(l'[i]) == AbsChk(l[i]) {
    }
    hide Indexed, Tidy;
    SameIndexed(l, l', counter);
    SameTidy(l, l');
  }

  lemma SameIndexed(l: seq<Checkpoint>, l': seq<Checkpoint>, counter: nat)
    requires SameButRefs(l, l')
    ensures Indexed(l, counter) ==> Indexed(l', counter)
  {
    if Indexed(l, counter) {
      forall i | 0 <= i < |l'| ensures IndexOk(l'[i], counter) {
        SameIndex(l[i], l'[i], counter);
      }
    }
  }

  lemma SameIndex(c: Checkpoint, c': Checkpoint, counter: nat)
    requires c' == c.(referenceCounter := c'.referenceCounter)
    ensures IndexOk(c, counter) <==> IndexOk(c', counter)
    ensures Tidy(c) <==> Tidy(c')
  {
    assert c'.toWrite == c.toWrite && c'.keyIndex == c.keyIndex && c'.numItems == c.numItems && c'.state == c.state;
  }

  lemma SameTidy(l: seq<Checkpoint>, l': seq<Checkpoint>)
    requires SameButRefs(l, l')
    ensures (forall i :: 0 <= i < |l| ==> Tidy(l[i])) ==> forall i :: 0 <= i < |l'| ==> Tidy(l'[i])
  {
    hide Tidy;
    forall i | 0 <= i < |l'| ensures Tidy(l[i]) <==> Tidy(l'[i]) {
      SameIndex(l[i], l'[i], 0);
    }
  }

  lemma NamesUpdate(taps: map<string, Cursor>, n: string, c: Cursor, i: nat)
    ensures |NamesAt(taps[n := c], i)| + One(n in taps && taps[n].checkpoint == i) ==
            |NamesAt(taps, i)| + One(c.checkpoint == i)
  {
    var a, b := NamesAt(taps, i), NamesAt(taps[n := c], i);
    assert a - {n} == b - {n};
    assert n in a <==> n in taps && taps[n].checkpoint == i;
    assert n in b <==> c.checkpoint == i;
    hide NamesAt;
    SetMinus(a, n);
    SetMinus(b, n);
  }

  lemma SetMinus(a: set<string>, n: string)
    ensures |a - {n}| + One(n in a) == |a|
  {
    if n !in a {
      assert a - {n} == a;
    }
  }

  lemma NamesRemove(taps: map<string, Cursor>, n: string, i: nat)
    requires n in taps
    ensures |NamesAt(taps - {n}, i)| + One(taps[n].checkpoint == i) == |NamesAt(taps, i)|
  {
    var a, b := NamesAt(taps, i), NamesAt(taps - {n}, i);
    assert b == a - {n};
    assert n in a <==> taps[n].checkpoint == i;
  }

  /** The list after a cursor moves from checkpoint `a` to checkpoint `b`. */
  function Moved(l: seq<Checkpoint>, a: nat, b: nat): seq<Checkpoint>
    requires a < |l| && b < |l|
  {
    IncrRef(DecrRef(l, a), b)
  }

  lemma MovedNowhere(l: seq<Checkpoint>, a: nat)
    requires a < |l| && l[a].referenceCounter > 0
    ensures Moved(l, a, a) == l
  {
  }

  /** Hopping to the next checkpoint, on top of earlier hops. */
  lemma MovedHop(l: seq<Checkpoint>, a: nat, b: nat)
    requires a < |l| && b + 1 < |l| && l[a].referenceCounter > 0
    ensures IncrRef(DecrRef(Moved(l, a, b), b), b + 1) == Moved(l, a, b + 1)
  {
    var m := Moved(l, a, b);
    assert m[b].referenceCounter > 0;
    var r := IncrRef(DecrRef(m, b), b + 1);
    forall i | 0 <= i < |l| ensures r[i] == Moved(l, a, b + 1)[i] {
    }
  }

  lemma MovedSame(l: seq<Checkpoint>, a: nat, b: nat)
    requires a < |l| && b < |l|
    ensures SameButRefs(l, Moved(l, a, b)) && SameButRefs(l, IncrRef(l, b)) && SameButRefs(l, DecrRef(l, a))
  {
  }

  lemma CursorRef(s: State)
    requires Consistent(s)
    ensures CursorsOk(s) && s.list[s.persist.checkpoint].referenceCounter > 0
    ensures forall n :: n in s.taps ==> s.list[s.taps[n].checkpoint].referenceCounter > 0
  {
    hide IndexOk, ListOk;
    ConsistentCursors(s);
    forall n | n in s.taps ensures s.list[s.taps[n].checkpoint].referenceCounter > 0 {
      assert n in NamesAt(s.taps, s.taps[n].checkpoint);
    }
  }

  /** The persistence cursor moved to `c`. */
  function PersistAt(s: State, c: Cursor): State
    requires s.persist.checkpoint < |s.list| && c.checkpoint < |s.list|
  {
    s.(list := Moved(s.list, s.persist.checkpoint, c.checkpoint), persist := c)
  }

  lemma PersistAtRefs(s: State, c: Cursor)
    requires Consistent(s) && c.checkpoint < |s.list| && s.persist.checkpoint < |s.list|
    ensures RefsOk(PersistAt(s, c))
  {
    hide IndexOk, ListOk, NamesAt;
    CursorRef(s);
  }

  lemma PersistAtConsistent(s: State, c: Cursor)
    requires Consistent(s) && PosOk(AbsList(s.list), AbsPos(c))
    ensures s.persist.checkpoint < |s.list| && Consistent(PersistAt(s, c))
    ensures Abstract(PersistAt(s, c)) == Abstract(s).(persist := AbsPos(c))
    ensures Exact(s) && OffsetOk(AbsList(s.list), c) ==> Exact(PersistAt(s, c))
  {
    hide IndexOk, ListOk, Tidy, Flat, Behind;
    ConsistentCursors(s);
    PersistAtRefs(s, c);
    MovedSame(s.list, s.persist.checkpoint, c.checkpoint);
    hide Moved, RefsOk;
    SameAbs(s.list, PersistAt(s, c).list, s.mutationCounter);
    hide AbsList, SameButRefs;
  }

  /** The TAP cursor `n` set to `c`, whether or not it existed. */
  function TapAt(s: State, n: string, c: Cursor): State
    requires c.checkpoint < |s.list| && (n in s.taps ==> s.taps[n].checkpoint < |s.list|)
  {
    s.(list := IncrRef(if n in s.taps then DecrRef(s.list, s.taps[n].checkpoint) else s.list, c.checkpoint),
       taps := s.taps[n := c])
  }

  lemma TapAtRefs(s: State, n: string, c: Cursor)
    requires Consistent(s) && c.checkpoint < |s.list| && (n in s.taps ==> s.taps[n].checkpoint < |s.list|)
    ensures RefsOk(TapAt(s, n, c))
  {
    hide IndexOk, ListOk, NamesAt;
    CursorRef(s);
    forall i | 0 <= i < |s.list|
      ensures TapAt(s, n, c).list[i].referenceCounter ==
              CursorsAt(i, s.persist.checkpoint, TapAt(s, n, c).taps, s.online)
    {
      NamesUpdate(s.taps, n, c, i);
    }
  }

  lemma TapAtConsistent(s: State, n: string, c: Cursor)
    requires Consistent(s) && PosOk(AbsList(s.list), AbsPos(c))
    ensures (n in s.taps ==> s.taps[n].checkpoint < |s.list|) && Consistent(TapAt(s, n, c))
    ensures Abstract(TapAt(s, n, c)) == Abstract(s).(taps := AbsTaps(s.taps)[n := Tap(AbsPos(c), c.closedOnly)])
  {
    hide IndexOk, ListOk, RefsOk;
    ConsistentCursors(s);
    TapAtRefs(s, n, c);
    TapAtSame(s, n, c);
    hide IncrRef, DecrRef;
    SameAbs(s.list, TapAt(s, n, c).list, s.mutationCounter);
    AbsTapsUpdate(s.taps, n, c);
    hide AbsList, SameButRefs, AbsTaps, PosOk, Tidy;
  }

  lemma AbsTapsUpdate(taps: map<string, Cursor>, n: string, c: Cursor)
    ensures AbsTaps(taps[n := c]) == AbsTaps(taps)[n := Tap(AbsPos(c), c.closedOnly)]
    ensures AbsTaps(taps - {n}) == AbsTaps(taps) - {n}
  {
  }

  lemma TapAtExact(s: State, n: string, c: Cursor)
    requires Consistent(s) && PosOk(AbsList(s.list), AbsPos(c)) && Exact(s)
    ensures (n in s.taps ==> s.taps[n].checkpoint < |s.list|)
    ensures Exact(TapAt(s, n, c)) <==> OffsetOk(AbsList(s.list), c)
  {
    hide IndexOk, ListOk, RefsOk, Tidy, Flat, OffsetOk;
    ConsistentCursors(s);
    TapAtSame(s, n, c);
    hide IncrRef, DecrRef;
    SameAbs(s.list, TapAt(s, n, c).list, s.mutationCounter);
    hide AbsList, SameButRefs;
    var t := TapAt(s, n, c);
    assert n in t.taps && t.taps[n] == c;
  }

  lemma TapAtSame(s: State, n: string, c: Cursor)
    requires c.checkpoint < |s.list| && (n in s.taps ==> s.taps[n].checkpoint < |s.list|)
    ensures SameButRefs(s.list, TapAt(s, n, c).list)
  {
  }

  function TapGone(s: State, n: string): State
    requires n in s.taps && s.taps[n].checkpoint < |s.list|
  {
    s.(list := DecrRef(s.list, s.taps[n].checkpoint), taps := s.taps - {n})
  }

  lemma TapGoneConsistent(s: State, n: string)
    requires Consistent(s) && n in s.taps
    ensures s.taps[n].checkpoint < |s.list| && Consistent(TapGone(s, n))
    ensures Abstract(TapGone(s, n)) == Unregister(Abstract(s), n)
  {
    hide IndexOk, ListOk, RefsOk;
    ConsistentCursors(s);
    TapGoneRefs(s, n);
    MovedSame(s.list, s.taps[n].checkpoint, 0);
    hide DecrRef;
    SameAbs(s.list, TapGone(s, n).list, s.mutationCounter);
    AbsTapsUpdate(s.taps, n, s.taps[n]);
    hide AbsList, SameButRefs, AbsTaps, PosOk, Tidy;
  }

  lemma TapGoneExact(s: State, n: string)
    requires Consistent(s) && n in s.taps && Exact(s)
    ensures s.taps[n].checkpoint < |s.list| && Exact(TapGone(s, n))
  {
    hide IndexOk, ListOk, RefsOk, Tidy, Flat, OffsetOk;
    ConsistentCursors(s);
    MovedSame(s.list, s.taps[n].checkpoint, 0);
    hide DecrRef;
    SameAbs(s.list, TapGone(s, n).list, s.mutationCounter);
    hide AbsList, SameButRefs;
  }

  lemma TapGoneRefs(s: State, n: string)
    requires Consistent(s) && n in s.taps && s.taps[n].checkpoint < |s.list|
    ensures RefsOk(TapGone(s, n))
  {
    hide IndexOk, ListOk, NamesAt;
    CursorRef(s);
    forall i | 0 <= i < |s.list|
      ensures TapGone(s, n).list[i].referenceCounter ==
              CursorsAt(i, s.persist.checkpoint, TapGone(s, n).taps, s.online)
    {
      NamesRemove(s.taps, n, i);
    }
  }
}
