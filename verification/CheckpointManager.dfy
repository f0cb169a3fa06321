/**
 The checkpoint manager of one vbucket, as it updates its fields in place. Every method is proved against
 `UnifiedQueue`: it keeps the manager consistent, does to the abstract queue what the function says, and
 keeps the incrementally maintained counters exact.

 Iterators are list indices. Erasing a node renumbers the positions behind it, and dropping the front of
 the checkpoint list renumbers the checkpoints; both renumberings are written out.
 */
module CheckpointManagement {
  import opened Items
  import opened UnifiedQueue
  import opened Pending
  import opened Progress
  import opened CheckpointState
  import opened CheckpointRefinement
  import opened CheckpointDropping
  import opened CheckpointSteps

  class CheckpointManager {
    var checkpointList: seq<Checkpoint>
    var numItems: int
    var mutationCounter: nat
    var persistenceCursor: Cursor
    var tapCursors: map<string, Cursor>
    var onlineUpdateCursor: Cursor
    var doOnlineUpdate: bool
    const checkpointMaxItems: nat
    const maxCheckpoints: nat

    function Now(): State
      reads this
    {
      State(checkpointList, numItems, mutationCounter, persistenceCursor, tapCursors,
            if doOnlineUpdate then Some(onlineUpdateCursor.checkpoint) else None)
    }

    ghost predicate Valid()
      reads this
    {
      Consistent(Now())
    }

    ghost predicate CountersExact()
      reads this
    {
      Exact(Now())
    }

    function View(): Queue
      reads this
    {
      Abstract(Now())
    }

    constructor (id: nat, maxItems: nat, maxChk: nat)
      ensures Valid() && CountersExact()
      ensures View() == Queue([NewChk(id)], Pos(0, 0), map[], None)
      ensures checkpointMaxItems == maxItems && maxCheckpoints == maxChk
    {
      checkpointMaxItems, maxCheckpoints := maxItems, maxChk;
      checkpointList := [NewCheckpoint(id).(referenceCounter := 1)];
      numItems, mutationCounter := 1, 2;
      persistenceCursor := Cursor(0, 0, 0, false);
      onlineUpdateCursor := Cursor(0, 0, 0, false);
      tapCursors := map[];
      doOnlineUpdate := false;
      new;
      StartedOk(Now(), id);
    }

    // -------------------------------------------------------------- queueing

    method DecrPersistenceCursorOffset(decr: int)
      requires decr > 0
      modifies this`persistenceCursor
      ensures persistenceCursor == old(persistenceCursor).(offset := Decr(old(persistenceCursor.offset), decr, true))
    {
      if persistenceCursor.offset >= decr {
        persistenceCursor := persistenceCursor.(offset := persistenceCursor.offset - decr);
      } else {
        persistenceCursor := persistenceCursor.(offset := 0);
      }
    }

    method DecrPersistenceCursorPos()
      modifies this`persistenceCursor
      ensures var pos := old(persistenceCursor.pos);
              persistenceCursor == old(persistenceCursor).(pos := if pos > 0 then pos - 1 else 0)
    {
      if persistenceCursor.pos != 0 {
        persistenceCursor := persistenceCursor.(pos := persistenceCursor.pos - 1);
      }
    }

    /** The persistence cursor's share of a requeue. */
    method ShiftPersistenceCursor(li: nat, c: Checkpoint, k: Key)
      requires k in c.keyIndex && 0 < c.keyIndex[k].position
      requires persistenceCursor.checkpoint == li ==> persistenceCursor.pos < |c.toWrite|
      modifies this`persistenceCursor
      ensures persistenceCursor == Shifted(c, li, k, old(persistenceCursor), true)
      ensures IndexOk(c, mutationCounter) && ChkOk(AbsChk(c)) && c.state.Opened? && Tidy(c)
              && old(persistenceCursor.checkpoint) == li ==>
                var before := old(persistenceCursor);
                persistenceCursor.offset ==
                if c.keyIndex[k].position <= before.pos then Decr(before.offset, 1, true) else before.offset
    {
      if IndexOk(c, mutationCounter) && ChkOk(AbsChk(c)) && c.state.Opened? && Tidy(c)
          && persistenceCursor.checkpoint == li {
        NotAfterPosition(c, mutationCounter, k, persistenceCursor.pos);
      }
      hide IndexOk, ChkOk, Tidy;
      if persistenceCursor.checkpoint == li {
        // the copy lies at or left of the cursor if its mutation id is no larger
        var at := c.toWrite[persistenceCursor.pos].key;
        if at in c.keyIndex && c.keyIndex[k].mutationId <= c.keyIndex[at].mutationId {
          DecrPersistenceCursorOffset(1);
        }
        if persistenceCursor.pos == c.keyIndex[k].position {
          DecrPersistenceCursorPos();
        }
      }
    }

    /** The TAP cursors' share of a requeue. */
    method ShiftTapCursors(li: nat, c: Checkpoint, k: Key)
      requires k in c.keyIndex && 0 < c.keyIndex[k].position
      requires forall n :: n in tapCursors && tapCursors[n].checkpoint == li ==> tapCursors[n].pos < |c.toWrite|
      modifies this`tapCursors
      ensures tapCursors.Keys == old(tapCursors.Keys)
      ensures forall n :: n in tapCursors ==> tapCursors[n] == Shifted(c, li, k, old(tapCursors)[n], false)
    {
      var names := tapCursors.Keys;
      while names != {}
        invariant names <= tapCursors.Keys == old(tapCursors.Keys)
        invariant forall n :: n in tapCursors ==>
          tapCursors[n] == if n in names then old(tapCursors)[n] else Shifted(c, li, k, old(tapCursors)[n], false)
        decreases |names|
      {
        var n :| n in names;
        var cur := tapCursors[n];
        if cur.checkpoint == li {
          var at := c.toWrite[cur.pos].key;
          if at in c.keyIndex && c.keyIndex[k].mutationId <= c.keyIndex[at].mutationId {
            cur := cur.(offset := cur.offset - 1);
          }
          if cur.pos == c.keyIndex[k].position {
            cur := cur.(pos := cur.pos - 1);
          }
        }
        tapCursors := tapCursors[n := cur];
        names := names - {n};
      }
    }

    /** All cursors around the erasure of the older copy of `k`: shifted by the code, renumbered by the erasure. */
    method ShiftCursors(li: nat, c: Checkpoint, k: Key)
      requires k in c.keyIndex && 0 < c.keyIndex[k].position
      requires persistenceCursor.checkpoint == li ==> persistenceCursor.pos < |c.toWrite|
      requires forall n :: n in tapCursors && tapCursors[n].checkpoint == li ==> tapCursors[n].pos < |c.toWrite|
      modifies this`persistenceCursor, this`tapCursors
      ensures persistenceCursor == Adjusted(c, li, k, old(persistenceCursor), true)
      ensures tapCursors == AdjustedTaps(c, li, k, old(tapCursors))
    {
      hide NotAfter, Decr;
      var i := c.keyIndex[k].position;
      ShiftPersistenceCursor(li, c, k);
      ShiftTapCursors(li, c, k);
      persistenceCursor := Renumbered(persistenceCursor, li, i);
      tapCursors := map n | n in tapCursors :: Renumbered(tapCursors[n], li, i);
    }

    /** `Checkpoint::queueDirty` on the last checkpoint; the caller counts the item. */
    method QueueInLast(x: Item) returns (isNew: bool)
      requires Valid() && checkpointList[|checkpointList| - 1].state.Opened?
      modifies this`checkpointList, this`mutationCounter, this`persistenceCursor, this`tapCursors
      ensures CursorsOk(old(Now()))
      ensures Now() == Queued(old(Now()), x).(numItems := old(numItems))
      ensures isNew <==> x.key !in old(checkpointList[|checkpointList| - 1].keyIndex)
    {
      hide WF, IndexOk, RefsOk, AbsTaps, Adjusted, PosOk, NotAfter;
      QueuePre(Now(), x);
      mutationCounter := mutationCounter + 1;
      var li := |checkpointList| - 1;
      var c := checkpointList[li];
      var item := x;
      var toWrite, keyIndex, count := c.toWrite, c.keyIndex, c.numItems;
      if x.key in c.keyIndex {
        var i := c.keyIndex[x.key].position;
        ShiftCursors(li, c, x.key);
        item := x.(queuedTime := c.toWrite[i].queuedTime);
        toWrite := toWrite[..i] + toWrite[i + 1..];
        keyIndex := Reindex(keyIndex, i);
        isNew := false;
      } else {
        if x.key != "" {
          count := count + 1;
        }
        isNew := true;
        NothingAdjusted(c, li, x.key, persistenceCursor, tapCursors);
      }
      toWrite := toWrite + [item];
      if x.key != "" {
        keyIndex := keyIndex[x.key := IndexEntry(|toWrite| - 1, mutationCounter)];
      }
      checkpointList := checkpointList[li := c.(toWrite := toWrite, keyIndex := keyIndex, numItems := count)];
    }

    // -------------------------------------------------------------- opening and closing checkpoints

    method CloseOpenCheckpoint(id: nat) returns (ok: bool)
      requires checkpointList != [] && checkpointList[|checkpointList| - 1].state.Opened? ==> Valid()
      modifies this`checkpointList, this`numItems, this`mutationCounter, this`persistenceCursor, this`tapCursors
      ensures ok <==> checkpointList != []
      ensures |checkpointList| == old(|checkpointList|)
      ensures Now() == if old(checkpointList) != [] && id == old(checkpointList[|checkpointList| - 1].id)
                       then Sealed(old(Now())) else old(Now())
      ensures old(Valid()) ==> Valid() && old(View()).chks != [] && View() == CloseOpen(old(View()), id)
      ensures old(Valid() && CountersExact()) ==> CountersExact()
    {
      hide Consistent, Queued, Abstract, Exact, CloseOpen;
      if checkpointList == [] {
        EmptyInconsistent(Now());
        return false;
      }
      if Consistent(Now()) {
        SealedStep(Now());
      }
      var li := |checkpointList| - 1;
      if id != checkpointList[li].id || checkpointList[li].state.Closed? {
        return true;
      }
      QueuedKeyless(Now(), EndItem(id));
      var isNew := QueueInLast(EndItem(id));
      numItems := numItems + 1;
      checkpointList := checkpointList[li := checkpointList[li].(state := Closed)];
      return true;
    }

    method AddNewCheckpoint(id: nat)
      requires checkpointList != [] && checkpointList[|checkpointList| - 1].state.Opened? ==> Valid()
      modifies this`checkpointList, this`numItems, this`mutationCounter, this`persistenceCursor, this`tapCursors
      ensures old(checkpointList) != [] ==> Now() == Turned(old(Now()), id)
      ensures old(checkpointList) == [] ==>
                Now() == old(Now()).(list := [NewCheckpoint(id)], numItems := old(numItems) + 1,
                                     mutationCounter := old(mutationCounter) + 2)
    {
      hide Consistent;
      if checkpointList != [] && checkpointList[|checkpointList| - 1].state.Opened? {
        var closed := CloseOpenCheckpoint(checkpointList[|checkpointList| - 1].id);
      }
      // the dummy lets a cursor on the first real item be shifted left when that item is requeued
      var checkpoint := Checkpoint(id, Opened, 0, 0, [], map[]);
      checkpoint := Push(checkpoint, Dummy, mutationCounter + 1);
      checkpoint := Push(checkpoint, StartItem(id), mutationCounter + 2);
      assert checkpoint.toWrite == [Dummy, StartItem(id)];
      mutationCounter := mutationCounter + 2;
      numItems := numItems + 1;
      checkpointList := checkpointList + [checkpoint];
      assert old(checkpointList) == [] ==> checkpointList == [NewCheckpoint(id)];
    }

    /** `elapsed`: the open checkpoint is older than the checkpoint period. */
    method CheckOpenCheckpoint(force: bool, elapsed: bool) returns (oldId: nat)
      requires Valid()
      modifies this`checkpointList, this`numItems, this`mutationCounter, this`persistenceCursor, this`tapCursors
      ensures Valid() && (old(CountersExact()) ==> CountersExact())
      ensures old(View()).chks != []
      ensures var last := Last(old(View()).chks);
              var create := force || Full(last, checkpointMaxItems, elapsed);
              && oldId == (if create then last.id else 0)
              && View() == (if create then Rollover(old(View())) else old(View()))
              && (!create ==> Now() == old(Now()))
    {
      hide Consistent, Exact, Turned, Sealed, Abstract, Rollover, Full;
      ghost var s := Now();
      RolledOver(s);
      RemovePre(s);
      LastFull(s, checkpointMaxItems, elapsed);
      oldId := 0;
      var last := checkpointList[|checkpointList| - 1];
      if force || last.numItems >= checkpointMaxItems || (last.numItems > 0 && elapsed) {
        oldId := last.id;
        SealedTurned(s, oldId + 1);
        var ok := CloseOpenCheckpoint(oldId);
        AddNewCheckpoint(oldId + 1);
      }
    }

    // -------------------------------------------------------------- writing

    method GetNumItemsForPersistence() returns (n: int)
      ensures n == Backlog(numItems, persistenceCursor.offset)
      ensures Valid() && CountersExact() ==> WF(View()) && n == |Ahead(View().chks, View().persist)|
    {
      hide WF, Exact, Ahead;
      if Consistent(Now()) && Exact(Now()) {
        BacklogExact(Now());
        LastOpen(Now());
      }
      n := if numItems > persistenceCursor.offset then numItems - persistenceCursor.offset else 0;
    }

    /**
     `grew` compares unsigned sizes, so it is true whenever the backlog changed. With exact counters that
     means that it grew by one: the key was new to the checkpoint, or its copy had already been passed.
     */
    method QueueDirty(x: Item, active: bool, inconsistentSlave: bool, elapsed: bool) returns (grew: bool)
      requires Valid() && IsMutation(x)
      requires active ==> checkpointList[|checkpointList| - 1].state.Opened?
      modifies this`checkpointList, this`numItems, this`mutationCounter, this`persistenceCursor, this`tapCursors
      ensures Valid()
      ensures old(CountersExact()) && x.key != "" ==> CountersExact()
      ensures old(View()).chks != [] && Write(old(View()), x).chks != []
      ensures View() == UnifiedQueue.QueueDirty(old(View()), x, active,
                          active && !inconsistentSlave && |old(checkpointList)| < maxCheckpoints
                              && Full(Last(Write(old(View()), x).chks), checkpointMaxItems, elapsed))
      ensures !active && !Last(old(View()).chks).open ==> Now() == old(Now()) && !grew
      ensures active || Last(old(View()).chks).open ==>
                var n := |old(checkpointList)|;
                && n <= |checkpointList| <= n + 1 && LastWritten(checkpointList[n - 1].toWrite, x)
                && var keys := |KeySet(checkpointList[n - 1].toWrite)|;
                   |checkpointList| == n + 1 <==>
                   active && !inconsistentSlave && n < maxCheckpoints
                   && (keys >= checkpointMaxItems || (keys >= 1 && elapsed))
      ensures old(CountersExact()) && (active || Last(old(View()).chks).open) && x.key != "" ==>
                && (grew <==> !old(CopyAhead(View().chks, x.key, View().persist)))
                && WF(old(View())) && WF(Write(old(View()), x))
                && |Ahead(Write(old(View()), x).chks, Write(old(View()), x).persist)| ==
                   |Ahead(old(View()).chks, old(View()).persist)| + One(grew)
    {
      hide Consistent, Exact, Ahead, CopyAhead, Write, Abstract, WF, Rollover, Full, KeySet, LastWritten;
      ghost var s := Now();
      LastOpen(s);
      AbsItems(s, 0);
      WriteLength(View(), x, active, inconsistentSlave, elapsed, checkpointMaxItems, maxCheckpoints);
      WriteLast(View(), x, active, active && !inconsistentSlave && |checkpointList| < maxCheckpoints
                                   && Full(Last(Write(View(), x).chks), checkpointMaxItems, elapsed));
      if !active && checkpointList[|checkpointList| - 1].state.Closed? {
        return false;
      }
      grew := QueueAccepted(x, active && !inconsistentSlave, elapsed);
      AbsItems(Now(), |s.list| - 1);
    }

    /** The item is queued; where the vbucket opens checkpoints itself, the open one is checked. */
    method QueueAccepted(x: Item, opens: bool, elapsed: bool) returns (grew: bool)
      requires Valid() && IsMutation(x) && checkpointList[|checkpointList| - 1].state.Opened?
      modifies this`checkpointList, this`numItems, this`mutationCounter, this`persistenceCursor, this`tapCursors
      ensures Valid()
      ensures old(CountersExact()) && x.key != "" ==> CountersExact()
      ensures old(View()).chks != [] && Write(old(View()), x).chks != []
      ensures var q' := Write(old(View()), x);
              View() == if opens && |old(checkpointList)| < maxCheckpoints
                           && Full(Last(q'.chks), checkpointMaxItems, elapsed) then Rollover(q') else q'
      ensures old(CountersExact()) && x.key != "" ==>
                && (grew <==> !old(CopyAhead(View().chks, x.key, View().persist)))
                && WF(old(View())) && WF(Write(old(View()), x))
                && |Ahead(Write(old(View()), x).chks, Write(old(View()), x).persist)| ==
                   |Ahead(old(View()).chks, old(View()).persist)| + One(grew)
    {
      hide Consistent, Exact, Ahead, CopyAhead, Write, Queued, Abstract, CursorsOk, WF, Rollover, Full;
      ghost var s := Now();
      LastOpen(s);
      AbsItems(s, 0);
      QueuedConsistent(s, x);
      if Exact(s) && x.key != "" {
        QueuedExact(s, x);
        BacklogGrowth(s, x);
      }
      grew := Enqueue(x);
      LastOpen(Now());
      AbsItems(Now(), 0);
      WriteKeeps(Abstract(s), x);
      if opens && |checkpointList| < maxCheckpoints {
        var oldId := CheckOpenCheckpoint(false, elapsed);
      }
    }

    /** Queue and count an item, and compare the backlog before and after. */
    method Enqueue(x: Item) returns (grew: bool)
      requires Valid() && checkpointList[|checkpointList| - 1].state.Opened?
      modifies this`checkpointList, this`numItems, this`mutationCounter, this`persistenceCursor, this`tapCursors
      ensures CursorsOk(old(Now())) && Now() == Queued(old(Now()), x)
      ensures grew <==> Backlog(numItems, persistenceCursor.offset) != old(Backlog(numItems, persistenceCursor.offset))
    {
      hide Consistent, AdjustedTaps, Adjusted, Push;
      var before := GetNumItemsForPersistence();
      var isNew := QueueInLast(x);
      if isNew {
        numItems := numItems + 1;
      }
      var after := GetNumItemsForPersistence();
      grew := after != before;
    }

    // -------------------------------------------------------------- reading

    method MoveCursorToNextCheckpoint(cur: Cursor) returns (moved: bool, next: Cursor)
      requires cur.checkpoint < |checkpointList|
      modifies this`checkpointList
      ensures moved <==> old(checkpointList[cur.checkpoint].state.Closed?) && cur.checkpoint + 1 < |old(checkpointList)|
      ensures !moved ==> next == cur && checkpointList == old(checkpointList)
      ensures moved ==> next == cur.(checkpoint := cur.checkpoint + 1, pos := 0)
      ensures moved ==> checkpointList == IncrRef(DecrRef(old(checkpointList), cur.checkpoint), cur.checkpoint + 1)
    {
      if checkpointList[cur.checkpoint].state.Opened? || cur.checkpoint + 1 == |checkpointList| {
        return false, cur;
      }
      checkpointList := DecrRef(checkpointList, cur.checkpoint);
      next := cur.(checkpoint := cur.checkpoint + 1, pos := 0);
      checkpointList := IncrRef(checkpointList, next.checkpoint);
      return true, next;
    }

    /** Reads to the tail, or to the first checkpoint with an id of at least `barrier` if that is positive. */
    method GetAllItemsFromCurrentPosition(start: Cursor, barrier: nat) returns (cur: Cursor, items: seq<Item>, id: nat)
      requires Readable(AbsList(checkpointList), AbsPos(start))
      requires checkpointList[start.checkpoint].referenceCounter > 0
      modifies this`checkpointList
      ensures PosOk(AbsList(old(checkpointList)), AbsPos(cur))
              && cur == start.(checkpoint := cur.checkpoint, pos := cur.pos)
      ensures checkpointList == Moved(old(checkpointList), start.checkpoint, cur.checkpoint)
      ensures items + Ahead(AbsList(old(checkpointList)), AbsPos(cur)) ==
              Ahead(AbsList(old(checkpointList)), AbsPos(start))
      ensures AbsPos(cur) == StopAt(AbsList(old(checkpointList)), AbsPos(start), barrier)
      ensures id == if old(checkpointList[cur.checkpoint].id) > 0 then old(checkpointList[cur.checkpoint].id) - 1 else 0
    {
      hide Ahead, StopAt, Moved, AbsList;
      ghost var l := checkpointList;
      ghost var chks := AbsList(l);
      MovedNowhere(l, start.checkpoint);
      cur, items := start, [];
      var stop := false;
      while !stop
        invariant Readable(chks, AbsPos(cur)) && cur == start.(checkpoint := cur.checkpoint, pos := cur.pos)
        invariant checkpointList == Moved(l, start.checkpoint, cur.checkpoint)
        invariant items + Ahead(chks, AbsPos(cur)) == Ahead(chks, AbsPos(start))
        invariant StopAt(chks, AbsPos(start), barrier) ==
                  if stop then AbsPos(cur) else StopAt(chks, AbsPos(cur), barrier)
        decreases |l| - cur.checkpoint, !stop
      {
        MovedAbs(l, start.checkpoint, cur.checkpoint, cur.checkpoint);
        ReadStep(chks, AbsPos(cur), barrier, items);
        if barrier > 0 && checkpointList[cur.checkpoint].id >= barrier {
          stop := true;
        } else {
          var last, next, read := ReadAndMove(cur);
          items := items + read;
          if !last {
            MovedHop(l, start.checkpoint, cur.checkpoint);
          }
          stop, cur := last, next;
        }
      }
      MovedAbs(l, start.checkpoint, cur.checkpoint, cur.checkpoint);
      id := if checkpointList[cur.checkpoint].id > 0 then checkpointList[cur.checkpoint].id - 1 else 0;
    }

    /** Reads the cursor's checkpoint to its end and moves on, if the checkpoint is closed and not the last. */
    method ReadAndMove(cur: Cursor) returns (last: bool, next: Cursor, read: seq<Item>)
      requires cur.checkpoint < |checkpointList| && cur.pos < |checkpointList[cur.checkpoint].toWrite|
      modifies this`checkpointList
      ensures var c := old(checkpointList[cur.checkpoint]);
              && read == c.toWrite[cur.pos + 1..]
              && (last <==> c.state.Opened? || cur.checkpoint + 1 == |old(checkpointList)|)
              && next == (if last then cur.(pos := |c.toWrite| - 1)
                          else cur.(checkpoint := cur.checkpoint + 1, pos := 0))
      ensures last ==> checkpointList == old(checkpointList)
      ensures !last ==> checkpointList == IncrRef(DecrRef(old(checkpointList), cur.checkpoint), cur.checkpoint + 1)
    {
      read := ReadCheckpoint(cur);
      next := cur.(pos := |checkpointList[cur.checkpoint].toWrite|);
      last := true;
      if checkpointList[cur.checkpoint].state.Closed? {
        var moved;
        moved, next := MoveCursorToNextCheckpoint(next);
        last := !moved;
      }
      if last {
        next := next.(pos := next.pos - 1);
      }
    }

    /** The items behind the cursor's position in its checkpoint, one by one. */
    method ReadCheckpoint(cur: Cursor) returns (items: seq<Item>)
      requires cur.checkpoint < |checkpointList| && cur.pos < |checkpointList[cur.checkpoint].toWrite|
      ensures items == checkpointList[cur.checkpoint].toWrite[cur.pos + 1..]
    {
      items := [];
      var s := checkpointList[cur.checkpoint].toWrite;
      var pos := cur.pos + 1;
      while pos != |s|
        invariant cur.pos + 1 <= pos <= |s|
        invariant items == s[cur.pos + 1..pos]
        decreases |s| - pos
      {
        items := items + [s[pos]];
        pos := pos + 1;
      }
    }

    method GetAllItemsForPersistence() returns (items: seq<Item>, id: nat)
      requires Valid()
      modifies this`checkpointList, this`persistenceCursor
      ensures Valid() && (old(CountersExact()) ==> CountersExact())
      ensures WF(old(View())) && items == Drawn(old(View())) && id == DrawnId(old(View()))
      ensures View() == Draw(old(View())) && PosOk(View().chks, View().persist)
      ensures !doOnlineUpdate ==>
                items == Ahead(old(View()).chks, old(View()).persist) && Ahead(View().chks, View().persist) == []
      ensures old(CountersExact()) ==> |items| == old(Backlog(numItems, persistenceCursor.offset))
    {
      hide Consistent, Exact, Abstract, Ahead, Moved, StopAt, WF, Drawn, Draw, DrawTo;
      ghost var s := Now();
      PersistPre(s);
      DrawLeaves(Abstract(s));
      DrawShape(Abstract(s));
      var barrier := 0;
      if doOnlineUpdate {
        barrier := checkpointList[onlineUpdateCursor.checkpoint].id;
      }
      var cur;
      cur, items, id := GetAllItemsFromCurrentPosition(persistenceCursor, barrier);
      if doOnlineUpdate {
        cur := cur.(offset := cur.offset + |items|);
      } else {
        cur := cur.(offset := numItems);
      }
      persistenceCursor := cur;
      PersistStep(s, cur, items);
    }

    method GetAllItemsForTapConnection(name: string) returns (items: seq<Item>, id: nat)
      requires Valid()
      modifies this`checkpointList, this`tapCursors
      ensures Valid() && (old(CountersExact()) ==> CountersExact())
      ensures WF(old(View()))
      ensures name !in old(View()).taps ==> items == [] && id == 0 && Now() == old(Now())
      ensures name in old(View()).taps ==>
                && items == Ahead(old(View()).chks, old(View()).taps[name].pos) && View() == ReadAll(old(View()), name)
                && name in View().taps && PosOk(View().chks, View().taps[name].pos)
                && Ahead(View().chks, View().taps[name].pos) == []
                && var last := Last(old(View()).chks).id; id == if last > 0 then last - 1 else 0
    {
      hide Consistent, Exact, Abstract, Ahead, Moved, IncrRef, DecrRef, StopAt, WF, ReadAll;
      ghost var s := Now();
      TapPre(s, name);
      if name !in tapCursors {
        return [], 0;
      }
      var cur;
      cur, items, id := GetAllItemsFromCurrentPosition(tapCursors[name], 0);
      cur := cur.(offset := numItems);
      tapCursors := tapCursors[name := cur];
      TapAllStep(s, name, cur, items);
      ReadAllLeaves(Abstract(s), name);
      RemovePre(s);
      TapPre(Now(), name);
    }

    /** Is the item under the cursor the last one before the end of its checkpoint? */
    method IsLastMutationItemInCheckpoint(cur: Cursor) returns (b: bool)
      requires cur.checkpoint < |checkpointList| && cur.pos < |checkpointList[cur.checkpoint].toWrite|
      ensures b <==> AtLastMutation(checkpointList[cur.checkpoint].toWrite, cur.pos)
      ensures Valid() ==> (b <==> NothingButEnd(checkpointList[cur.checkpoint].toWrite, cur.pos))
    {
      hide Consistent;
      if Consistent(Now()) {
        LastMutationMeans(Now(), cur);
      }
      var s := checkpointList[cur.checkpoint].toWrite;
      b := cur.pos + 1 == |s| || s[cur.pos + 1].op == OpCheckpointEnd;
    }

    method NextItemFromOpenedCheckpoint(cur: Cursor) returns (next: Cursor, item: Item, isLast: bool)
      requires cur.checkpoint < |checkpointList| && cur.pos < |checkpointList[cur.checkpoint].toWrite|
      ensures var s := checkpointList[cur.checkpoint].toWrite;
              if cur.closedOnly || cur.pos + 1 == |s| then next == cur && item == Dummy && !isLast
              else next == cur.(pos := cur.pos + 1, offset := cur.offset + 1) && item == s[cur.pos + 1]
                   && (isLast <==> AtLastMutation(s, cur.pos + 1))
    {
      next, item, isLast := cur, Dummy, false;
      if cur.closedOnly {
        return;
      }
      next := cur.(pos := cur.pos + 1);
      if next.pos != |checkpointList[cur.checkpoint].toWrite| {
        next := next.(offset := next.offset + 1);
        isLast := IsLastMutationItemInCheckpoint(next);
        item := checkpointList[next.checkpoint].toWrite[next.pos];
      } else {
        next := next.(pos := next.pos - 1);
      }
    }

    method NextItemFromClosedCheckpoint(cur: Cursor) returns (next: Cursor, item: Item, isLast: bool)
      requires Readable(AbsList(checkpointList), AbsPos(cur))
      requires forall i :: 0 <= i < |checkpointList| ==> 2 <= |checkpointList[i].toWrite|
      requires checkpointList[cur.checkpoint].state.Closed? && checkpointList[cur.checkpoint].referenceCounter > 0
      requires Last(AbsList(checkpointList)).id != 0
      modifies this`checkpointList
      ensures StepDone(old(checkpointList), cur, next, item, isLast)
      ensures checkpointList == Moved(old(checkpointList), cur.checkpoint, next.checkpoint)
      ensures var l, c := old(checkpointList), cur.checkpoint;
              if cur.pos + 1 < |l[c].toWrite| then next.checkpoint == c && item == l[c].toWrite[cur.pos + 1]
              else if c + 1 == |l| then next == cur && item == Dummy
              else && next.checkpoint == c + 1
                   && item == if cur.closedOnly && l[c + 1].state.Opened? then Dummy else l[c + 1].toWrite[1]
    {
      MovedNowhere(checkpointList, cur.checkpoint);
      item, isLast := Dummy, false;
      next := cur.(pos := cur.pos + 1);
      if next.pos != |checkpointList[cur.checkpoint].toWrite| {
        next := next.(offset := next.offset + 1);
        isLast := IsLastMutationItemInCheckpoint(next);
        item := checkpointList[next.checkpoint].toWrite[next.pos];
      } else {
        var moved;
        moved, next := MoveCursorToNextCheckpoint(next);
        if !moved {
          next := next.(pos := next.pos - 1);
        } else if checkpointList[next.checkpoint].state.Closed? {
          next := next.(pos := next.pos + 1, offset := next.offset + 1);
          isLast := IsLastMutationItemInCheckpoint(next);
          item := checkpointList[next.checkpoint].toWrite[next.pos];
        } else {
          next, item, isLast := NextItemFromOpenedCheckpoint(next);
        }
      }
    }

    method NextItem(name: string) returns (item: Item, isLast: bool)
      requires Valid()
      modifies this`checkpointList, this`tapCursors
      ensures Valid() && (old(CountersExact()) ==> CountersExact())
      ensures WF(old(View()))
      ensures name !in old(View()).taps ==> item == Dummy && !isLast && Now() == old(Now())
      ensures name in old(View()).taps ==> Handed(old(View()), View(), name, item, isLast)
      ensures name in old(View()).taps ==> Served(old(View()), View(), name, item)
    {
      hide Consistent, Exact, Abstract, Moved, IncrRef, DecrRef, WF, StepDone, Handed, AbsList, Readable, Served;
      ghost var s := Now();
      TapPre(s, name);
      item, isLast := Dummy, false;
      if name !in tapCursors {
        return;
      }
      var cur := tapCursors[name];
      if checkpointList[|checkpointList| - 1].id == 0 {
        NextWaits(s, name);
        HandedServed(Abstract(s), View(), name, item, isLast);
        return;
      }
      var next;
      if checkpointList[cur.checkpoint].state.Closed? {
        next, item, isLast := NextItemFromClosedCheckpoint(cur);
      } else {
        next, item, isLast := NextItemFromOpenedCheckpoint(cur);
        OpenStep(checkpointList, cur, next, item, isLast);
      }
      tapCursors := tapCursors[name := next];
      NextStep(s, name, next, item, isLast);
      HandedServed(Abstract(s), View(), name, item, isLast);
    }

    /** Lets a TAP cursor see the checkpoint_end item again. */
    method DecrTapCursorFromCheckpointEnd(name: string)
      requires Valid()
      modifies this`tapCursors
      ensures Valid() && (old(CountersExact()) ==> CountersExact())
      ensures WF(old(View()))
      ensures View() == if name in old(View()).taps then BackOff(old(View()), name) else old(View())
    {
      hide Consistent, Exact, Abstract, WF;
      ghost var s := Now();
      TapPre(s, name);
      if name in tapCursors {
        BackOffStep(s, name);
        var cur := tapCursors[name];
        if checkpointList[cur.checkpoint].toWrite[cur.pos].op == OpCheckpointEnd {
          tapCursors := tapCursors[name := cur.(offset := cur.offset - 1, pos := cur.pos - 1)];
        }
      }
    }

    /** False exactly when the cursor is at the tail of an open checkpoint. */
    method HasNextForPersistence() returns (more: bool)
      requires Valid()
      ensures WF(View())
      ensures more <==> Ahead(View().chks, View().persist) != [] || !Last(View().chks).open
    {
      hide IndexOk, RefsOk;
      MoreAhead(View());
      hide Ahead;
      more := true;
      var c := checkpointList[persistenceCursor.checkpoint];
      if persistenceCursor.pos + 1 == |c.toWrite| && c.state.Opened? {
        more := false;
      }
    }

    // -------------------------------------------------------------- TAP cursors

    /**
     For an id that is not there the offset assumes an open last checkpoint: it counts one control item.
     So the new cursor's offset is exact if and only if the id was found or the last checkpoint is open.
     */
    method RegisterTapCursor(name: string, checkpointId: nat, closedOnly: bool, alwaysFromBeginning: bool)
      returns (found: bool)
      requires Valid()
      modifies this`checkpointList, this`tapCursors
      ensures Valid()
      ensures found <==> HasId(old(View()).chks, checkpointId)
      ensures old(View()).chks != [] && View() ==
              Register(old(View()), name, checkpointId, closedOnly, alwaysFromBeginning)
      ensures old(CountersExact()) ==> (CountersExact() <==> found || Last(old(View()).chks).open)
    {
      hide Consistent, Exact, Abstract, Register, AbsList, FindId, Unreferenced, HasId;
      ghost var s := Now();
      FindIdHas(s, checkpointId);
      TapPre(s, name);
      var i := FindCheckpoint(checkpointId);
      found := i < |checkpointList|;
      RegisterStep(s, name, checkpointId, closedOnly, alwaysFromBeginning, i);
      var known := name in tapCursors;
      if known {
        checkpointList := DecrRef(checkpointList, tapCursors[name].checkpoint);
        DecrSame(s.list, tapCursors[name].checkpoint, i);
      }
      var cursor;
      if !found {
        i := |checkpointList| - 1;
        cursor := Cursor(i, 0, numItems - (checkpointList[i].numItems + 1), closedOnly);
      } else if !alwaysFromBeginning && known
          && checkpointList[tapCursors[name].checkpoint].id == checkpointList[i].id {
        cursor := Cursor(i, tapCursors[name].pos, tapCursors[name].offset, closedOnly);
      } else {
        var offset := CountBefore(i);
        cursor := Cursor(i, 0, offset, closedOnly);
      }
      tapCursors := tapCursors[name := cursor];
      checkpointList := IncrRef(checkpointList, i);
    }

    method FindCheckpoint(id: nat) returns (i: nat)
      ensures i == FindId(AbsList(checkpointList), id)
    {
      i := 0;
      while i < |checkpointList| && checkpointList[i].id != id
        invariant i <= |checkpointList|
        invariant forall j :: 0 <= j < i ==> AbsList(checkpointList)[j].id != id
      {
        i := i + 1;
      }
      FindIdUnique(AbsList(checkpointList), id, i);
    }

    /** Items in front of checkpoint `i`, counting start and end of each. */
    method CountBefore(i: nat) returns (offset: nat)
      requires i <= |checkpointList|
      ensures offset == Unreferenced(checkpointList[..i])
    {
      offset := 0;
      var p := 0;
      while p != i
        invariant p <= i && offset == Unreferenced(checkpointList[..p])
      {
        assert checkpointList[..p + 1][..p] == checkpointList[..p];
        offset := offset + checkpointList[p].numItems + 2;
        p := p + 1;
      }
    }

    method RemoveTapCursor(name: string) returns (removed: bool)
      requires Valid()
      modifies this`checkpointList, this`tapCursors
      ensures Valid() && (old(CountersExact()) ==> CountersExact())
      ensures removed <==> name in old(View()).taps
      ensures View() == Unregister(old(View()), name)
      ensures tapCursors == old(tapCursors) - {name}
    {
      hide Consistent, Exact, Abstract;
      ghost var s := Now();
      TapPre(s, name);
      if name !in tapCursors {
        UnregisterNone(s, name);
        return false;
      }
      TapGoneConsistent(s, name);
      if Exact(s) {
        TapGoneExact(s, name);
      }
      checkpointList := DecrRef(checkpointList, tapCursors[name].checkpoint);
      tapCursors := tapCursors - {name};
      return true;
    }

    // -------------------------------------------------------------- removing closed checkpoints

    /** Moves a cursor that has read its checkpoint `c` to the end into the next one. */
    method HopCursor(cur: Cursor, oldId: nat, ghost c: nat) returns (next: Cursor)
      requires cur.checkpoint < |checkpointList| && cur.pos < |checkpointList[cur.checkpoint].toWrite|
      requires c + 1 < |checkpointList| && checkpointList[c].state.Closed?
      requires forall i :: 0 <= i < |checkpointList| ==> (checkpointList[i].id == oldId <==> i == c)
      requires checkpointList[cur.checkpoint].referenceCounter > 0
      modifies this`checkpointList
      ensures next == HoppedCursor(old(checkpointList), c, cur) && next.checkpoint < |old(checkpointList)|
      ensures checkpointList == Moved(old(checkpointList), cur.checkpoint, next.checkpoint)
    {
      next := cur;
      MovedNowhere(checkpointList, cur.checkpoint);
      if checkpointList[cur.checkpoint].id == oldId {
        next := next.(pos := next.pos + 1);
        if next.pos == |checkpointList[next.checkpoint].toWrite| {
          var moved;
          moved, next := MoveCursorToNextCheckpoint(next);
        } else {
          next := next.(pos := next.pos - 1);
        }
      }
    }

    method HopTapCursor(n: string, oldId: nat, ghost c: nat)
      requires Valid() && n in tapCursors && |checkpointList| == c + 2
      requires checkpointList[c].state.Closed? && checkpointList[c].id == oldId
      modifies this`checkpointList, this`tapCursors
      ensures Valid() && (old(CountersExact()) ==> CountersExact())
      ensures SameButRefs(old(checkpointList), checkpointList)
      ensures tapCursors == old(tapCursors)[n := HoppedCursor(old(checkpointList), c, old(tapCursors[n]))]
    {
      hide Consistent, Exact, HoppedCursor, IncrRef, DecrRef, SameButRefs;
      ghost var s := Now();
      SameSelf(s.list);
      HopPre(s, c, s);
      HopTap(s, c, n);
      var cur := HopCursor(tapCursors[n], oldId, c);
      tapCursors := tapCursors[n := cur];
      MovedSame(s.list, s.taps[n].checkpoint, cur.checkpoint);
    }

    method HopPersistenceCursor(oldId: nat, ghost c: nat)
      requires Valid() && |checkpointList| == c + 2
      requires checkpointList[c].state.Closed? && checkpointList[c].id == oldId
      modifies this`checkpointList, this`persistenceCursor
      ensures Valid() && (old(CountersExact()) ==> CountersExact())
      ensures SameButRefs(old(checkpointList), checkpointList)
      ensures persistenceCursor == HoppedCursor(old(checkpointList), c, old(persistenceCursor))
    {
      hide Consistent, Exact, HoppedCursor, SameButRefs, Moved;
      ghost var s := Now();
      SameSelf(s.list);
      HopPre(s, c, s);
      HopPersist(s, c);
      persistenceCursor := HopCursor(persistenceCursor, oldId, c);
    }

    method HopCursors(oldId: nat, ghost c: nat)
      requires Valid() && |checkpointList| == c + 2 && checkpointList[c].state.Closed? && checkpointList[c].id == oldId
      modifies this`checkpointList, this`persistenceCursor, this`tapCursors
      ensures Valid() && (old(CountersExact()) ==> CountersExact())
      ensures SameButRefs(old(checkpointList), checkpointList)
      ensures persistenceCursor == HoppedCursor(old(checkpointList), c, old(persistenceCursor))
      ensures tapCursors.Keys == old(tapCursors.Keys)
      ensures forall n :: n in tapCursors ==> tapCursors[n] == HoppedCursor(old(checkpointList), c, old(tapCursors)[n])
    {
      hide Consistent, Exact, HoppedCursor, SameButRefs;
      ghost var s := Now();
      SameSelf(s.list);
      HopPersistenceCursor(oldId, c);
      var names := tapCursors.Keys;
      while names != {}
        invariant Valid() && (Exact(s) ==> CountersExact())
        invariant SameButRefs(s.list, checkpointList)
        invariant names <= tapCursors.Keys == s.taps.Keys
        invariant forall n :: n in s.taps ==>
          tapCursors[n] == if n in names then s.taps[n] else HoppedCursor(s.list, c, s.taps[n])
        decreases |names|
        modifies this`checkpointList, this`tapCursors
      {
        var n :| n in names;
        ghost var l := checkpointList;
        SameFields(s.list, l, c);
        HoppedSame(s.list, l, c, tapCursors[n]);
        HopTapCursor(n, oldId, c);
        SameTrans(s.list, l, checkpointList);
        names := names - {n};
      }
    }

    /** The leading checkpoints without a cursor, and the items the remover counts for them. */
    method CountUnreferenced() returns (i: nat, numUnref: nat)
      ensures i <= |checkpointList| && (forall j :: 0 <= j < i ==> checkpointList[j].referenceCounter == 0)
      ensures i < |checkpointList| ==> checkpointList[i].referenceCounter > 0
      ensures numUnref == Unreferenced(checkpointList[..i])
    {
      i, numUnref := 0, 0;
      while i < |checkpointList| && checkpointList[i].referenceCounter == 0
        invariant i <= |checkpointList|
        invariant forall j :: 0 <= j < i ==> checkpointList[j].referenceCounter == 0
        invariant numUnref == Unreferenced(checkpointList[..i])
      {
        UnreferencedNext(checkpointList, i);
        numUnref := numUnref + checkpointList[i].numItems + 2;
        i := i + 1;
      }
    }

    method LowerOffsets(k: nat)
      requires k > 0
      modifies this`persistenceCursor, this`tapCursors
      ensures persistenceCursor == old(persistenceCursor).(offset := Decr(old(persistenceCursor.offset), k, true))
      ensures tapCursors == LoweredTaps(old(tapCursors), k)
    {
      DecrPersistenceCursorOffset(k);
      ghost var taps := tapCursors;
      var names := tapCursors.Keys;
      while names != {}
        invariant names <= tapCursors.Keys == taps.Keys
        invariant forall m :: m in taps ==>
          tapCursors[m] == if m in names then taps[m] else taps[m].(offset := taps[m].offset - k)
        decreases |names|
        modifies this`tapCursors
      {
        var m :| m in names;
        tapCursors := tapCursors[m := tapCursors[m].(offset := tapCursors[m].offset - k)];
        names := names - {m};
      }
    }

    /** Drops the checkpoints in front of the first referenced one. */
    method DropUnreferenced() returns (numUnref: nat, ghost n: nat)
      requires Valid()
      modifies this`checkpointList, this`numItems, this`persistenceCursor, this`tapCursors, this`onlineUpdateCursor
      ensures WF(old(View())) && n == FirstReferenced(old(View()), 0) && n <= |old(checkpointList)|
      ensures numUnref == Unreferenced(old(checkpointList)[..n])
      ensures Now() == Dropped(old(Now()), n, numUnref)
    {
      hide Consistent, Abstract, FirstReferenced, WF, Unreferenced, LoweredTaps, Dropped;
      ghost var s := Now();
      DropPre(s);
      var i;
      i, numUnref := CountUnreferenced();
      n := i;
      DropCount(s, i);
      UnreferencedPositive(s.list, i);
      LoweredNone(s.taps);
      if numUnref > 0 {
        numItems := numItems - numUnref;
        LowerOffsets(numUnref);
      }
      // splice the front off; the checkpoints behind it are renumbered
      checkpointList := checkpointList[i..];
      persistenceCursor := persistenceCursor.(checkpoint := persistenceCursor.checkpoint - i);
      tapCursors := RenumberedTaps(tapCursors, i);
      if doOnlineUpdate {
        onlineUpdateCursor := onlineUpdateCursor.(checkpoint := onlineUpdateCursor.checkpoint - i);
      }
      DroppedShape(s, i, numUnref);
    }

    method RemoveClosedUnrefCheckpoints(active: bool, inconsistentSlave: bool, force: bool, elapsed: bool)
      returns (numUnref: nat, created: bool)
      requires Valid()
      modifies this`checkpointList, this`numItems, this`mutationCounter, this`persistenceCursor, this`tapCursors,
               this`onlineUpdateCursor
      ensures Valid() && (old(CountersExact()) ==> CountersExact())
      ensures WF(old(View()))
      ensures var last := Last(old(View()).chks);
              var create := active && !inconsistentSlave && |old(checkpointList)| < maxCheckpoints &&
                            (force || Full(last, checkpointMaxItems, elapsed));
              && (created <==> create && last.id > 0)
              && View() == Trim(old(View()), create)
              && Freed(PreTrim(old(View()), create).chks, View().chks, numUnref, old(CountersExact()))
    {
      hide Consistent, Exact, Abstract, Rollover, PreTrim, Drop, FirstReferenced, WF, Dropped, Unreferenced, Full;
      hide Freed;
      ghost var s := Now();
      RemovePre(s);
      var oldId := 0;
      ghost var create := false;
      if active && !inconsistentSlave && |checkpointList| < maxCheckpoints {
        create := force || Full(Last(View().chks), checkpointMaxItems, elapsed);
        oldId := CheckOpenCheckpoint(force, elapsed);
      }
      created := oldId > 0;
      ghost var s1 := Now();
      if oldId > 0 {
        RolledShape(s, s1);
        HopCursors(oldId, |s.list| - 1);
        HopView(s, s1, Now());
      } else {
        NoHopView(s, create);
      }
      ghost var s2 := Now();
      ghost var n;
      numUnref, n := DropUnreferenced();
      TrimStep(s, create, s2, n, numUnref);
      FreedCount(s, create, s2, n, numUnref, Exact(s));
    }

    // -------------------------------------------------------------- rollback and clear

    method SetOpenCheckpointId(id: nat)
      requires Valid() && CanRename(View(), id)
      modifies this`checkpointList
      ensures Valid() && (old(CountersExact()) ==> CountersExact())
      ensures WF(old(View())) && View() == Rename(old(View()), id)
    {
      hide Consistent, Exact, Abstract, Rename, WF, CanRename;
      ghost var s := Now();
      RemovePre(s);
      RenamedOk(s, id);
      var li := |checkpointList| - 1;
      checkpointList := checkpointList[li := checkpointList[li].(id := id)];
      var toWrite := checkpointList[li].toWrite[1 := StartItem(id)];
      checkpointList := checkpointList[li := checkpointList[li].(toWrite := toWrite)];
      assert checkpointList == s.list[li := s.list[li].(id := id, toWrite := s.list[li].toWrite[1 := StartItem(id)])];
    }

    method NamesInCheckpoint(c: nat) returns (found: set<string>)
      ensures found == NamesAt(tapCursors, c)
    {
      found := {};
      var names := tapCursors.Keys;
      while names != {}
        invariant names <= tapCursors.Keys
        invariant found == set n | n in NamesAt(tapCursors, c) && n !in names
        decreases |names|
      {
        var n :| n in names;
        if tapCursors[n].checkpoint == c {
          found := found + {n};
        }
        names := names - {n};
      }
    }

    /** Who sits in checkpoints `k` onwards, and what is left of the item count without them. */
    method SurveyFrom(k: nat) returns (persistence: bool, taps: set<string>, left: int)
      requires k <= |checkpointList|
      ensures persistence <==> k <= persistenceCursor.checkpoint < |checkpointList|
      ensures taps == set n | n in tapCursors && k <= tapCursors[n].checkpoint < |checkpointList|
      ensures left == numItems - Discarded(checkpointList[k..])
    {
      persistence, taps, left := false, {}, numItems;
      var curr := k;
      while curr < |checkpointList|
        invariant k <= curr <= |checkpointList|
        invariant persistence <==> k <= persistenceCursor.checkpoint < curr
        invariant taps == set n | n in tapCursors && k <= tapCursors[n].checkpoint < curr
        invariant left == numItems - Discarded(checkpointList[k..curr])
      {
        if persistenceCursor.checkpoint == curr {
          persistence := true;
        }
        var here := NamesInCheckpoint(curr);
        taps := taps + here;
        var c := checkpointList[curr];
        assert checkpointList[k..curr + 1][..curr - k] == checkpointList[k..curr];
        if c.state.Closed? {
          left := left - (c.numItems + 2);
        } else {
          left := left - (c.numItems + 1);
        }
        curr := curr + 1;
      }
      assert checkpointList[k..|checkpointList|] == checkpointList[k..];
    }

    /** Puts the named TAP cursors at the start of the last checkpoint. */
    method RewindTaps(clients: set<string>)
      requires checkpointList != [] && clients <= tapCursors.Keys
      modifies this`checkpointList, this`tapCursors
      ensures var li := |old(checkpointList)| - 1; var c := old(checkpointList[li]);
              checkpointList == old(checkpointList)[li := c.(referenceCounter := c.referenceCounter + |clients|)]
      ensures tapCursors == RewoundTaps(old(tapCursors), clients, |old(checkpointList)| - 1, numItems - 1)
    {
      ghost var taps, l := tapCursors, checkpointList;
      var li := |checkpointList| - 1;
      var todo := clients;
      while todo != {}
        invariant todo <= clients && tapCursors.Keys == taps.Keys
        invariant checkpointList == l[li := l[li].(referenceCounter := l[li].referenceCounter + |clients| - |todo|)]
        invariant forall n :: n in taps ==>
          tapCursors[n] ==
          if n in clients && n !in todo then Cursor(li, 0, numItems - 1, taps[n].closedOnly) else taps[n]
        decreases |todo|
        modifies this`checkpointList, this`tapCursors
      {
        var n :| n in todo;
        tapCursors := tapCursors[n := Cursor(li, 0, numItems - 1, tapCursors[n].closedOnly)];
        checkpointList := IncrRef(checkpointList, li);
        todo := todo - {n};
      }
    }

    /** Replaces checkpoints `k` onwards by a new open one and moves the cursors that were in them to its start. */
    method RollBackTo(k: nat, id: nat) returns (repositioned: bool)
      requires Valid() && !doOnlineUpdate && k < |checkpointList|
      modifies this`checkpointList, this`numItems, this`mutationCounter, this`persistenceCursor, this`tapCursors
      ensures Now() == RolledBack(old(Now()), id, k)
      ensures repositioned <==> k <= old(persistenceCursor.checkpoint)
    {
      hide Consistent, Discarded, RolledBack, RewoundTaps, Turned;
      ghost var s := Now();
      RollbackPre(s, k);
      var clients, left;
      repositioned, clients, left := SurveyFrom(k);
      numItems := left;
      checkpointList := checkpointList[..k];
      AddNewCheckpoint(id);
      TurnedClosed(s.(list := s.list[..k], numItems := left), id);
      if repositioned {
        persistenceCursor := Cursor(k, 0, numItems - 1, persistenceCursor.closedOnly);
        checkpointList := IncrRef(checkpointList, k);
      }
      RewindTaps(clients);
      RolledBackShape(s, id, k);
    }

    method CheckAndAddNewCheckpoint(id: nat) returns (ok: bool, repositioned: bool)
      requires Valid() && (doOnlineUpdate ==> !RollsBack(View(), id))
      modifies this`checkpointList, this`numItems, this`mutationCounter, this`persistenceCursor, this`tapCursors
      ensures ok && Valid() && (old(CountersExact()) ==> CountersExact())
      ensures WF(old(View())) && View() == CheckAndAdd(old(View()), id)
      ensures var q := old(View()); var k := KeepBelow(q.chks, id);
              repositioned <==> id != 0 && (Last(q.chks).id == 0 || k <= q.persist.chk)
    {
      hide Consistent, Exact, Abstract, Rename, WF, RolledBack, Turned, AbsList, KeepBelow, RollsBack, CanRename;
      ghost var s := Now();
      StartPre(s, id);
      if id == 0 {
        return true, false;
      }
      if checkpointList[|checkpointList| - 1].id == 0 {
        SetOpenCheckpointId(id);
        return true, true;
      }
      var k := CountBelow(id);
      if k == |checkpointList| {
        ExtendedStep(s, id);
        AddNewCheckpoint(id);
        return true, false;
      }
      RolledBackConsistent(s, id, k);
      if Exact(s) {
        RolledBackExact(s, id, k);
      }
      repositioned := RollBackTo(k, id);
      ok := true;
    }

    method CountBelow(id: nat) returns (k: nat)
      ensures k == KeepBelow(AbsList(checkpointList), id)
    {
      k := 0;
      while k < |checkpointList| && !(id <= checkpointList[k].id)
        invariant k <= |checkpointList|
        invariant forall j :: 0 <= j < k ==> AbsList(checkpointList)[j].id < id
      {
        k := k + 1;
      }
      KeepUnique(AbsList(checkpointList), id, k);
    }

    method Clear(active: bool)
      requires Valid() && !doOnlineUpdate
      modifies this`checkpointList, this`numItems, this`mutationCounter, this`persistenceCursor, this`tapCursors
      ensures Valid() && CountersExact()
      ensures View() == UnifiedQueue.Clear(old(View()), active)
    {
      hide Consistent, Exact, RewoundTaps;
      ghost var s := Now();
      ClearedAbs(s, active);
      ClearedConsistent(s, active);
      checkpointList := [];
      numItems := 0;
      mutationCounter := 0;
      AddNewCheckpoint(if active then 1 else 0);
      persistenceCursor := Cursor(0, 0, 0, persistenceCursor.closedOnly);
      checkpointList := IncrRef(checkpointList, 0);
      RewindTaps(tapCursors.Keys);
      ClearedShape(s, active);
      assert checkpointList == Cleared(s, active).list;
    }

    // -------------------------------------------------------------- online update

    /** Queue and count a control item. */
    method MarkLast(x: Item)
      requires Valid() && checkpointList[|checkpointList| - 1].state.Opened?
      requires x.key == "" && x.op != OpEmpty && x.op != OpCheckpointEnd
      modifies this`checkpointList, this`numItems, this`mutationCounter, this`persistenceCursor, this`tapCursors
      ensures Valid() && old(View()).chks != [] && View() == AppendLast(old(View()), x)
      ensures |checkpointList| == |old(checkpointList)|
      ensures forall i :: 0 <= i < |checkpointList| ==> checkpointList[i].id == old(checkpointList)[i].id
    {
      hide Consistent, Abstract, AppendLast, Queued, Marked;
      ghost var s := Now();
      RemovePre(s);
      MarkedConsistent(s, x);
      QueuedKeyless(s, x);
      MarkedShape(s, x);
      var isNew := QueueInLast(x);
      numItems := numItems + 1;
    }

    method StartOnlineUpdate() returns (supported: bool)
      requires Valid()
      modifies this`checkpointList, this`numItems, this`mutationCounter, this`persistenceCursor, this`tapCursors,
               this`onlineUpdateCursor, this`doOnlineUpdate
      ensures Valid() && doOnlineUpdate && (supported <==> !old(doOnlineUpdate)) && (!supported ==> Now() == old(Now()))
      ensures old(View()).chks != [] && View() == StartOnline(old(View()))
    {
      hide Consistent, Abstract, Rollover, AppendLast, IncrRef;
      ghost var s := Now();
      RemovePre(s);
      if doOnlineUpdate {
        StartedTwice(s);
        return false;
      }
      var oldId := CheckOpenCheckpoint(true, true);
      ghost var s1 := Now();
      OpenedShape(s, s1);
      MarkLast(OnlineStart);
      ghost var s2 := Now();
      var li := |checkpointList| - 1;
      onlineUpdateCursor := Cursor(li, 0, 0, false);
      checkpointList := IncrRef(checkpointList, li);
      doOnlineUpdate := true;
      StartStep(s, s2, Now());
      supported := true;
    }

    method StopOnlineUpdate() returns (supported: bool)
      requires Valid() && (doOnlineUpdate ==> checkpointList[|checkpointList| - 1].state.Opened?)
      modifies this`checkpointList, this`numItems, this`mutationCounter, this`persistenceCursor, this`tapCursors,
               this`doOnlineUpdate
      ensures Valid() && !doOnlineUpdate && (supported <==> old(doOnlineUpdate)) && (!supported ==> Now() == old(Now()))
      ensures old(View()).chks != [] && View() == StopOnline(old(View()))
    {
      hide Consistent, Abstract, Rollover, AppendLast, LoweredTaps, DecrRef;
      ghost var s := Now();
      RemovePre(s);
      if !doOnlineUpdate {
        StoppedTwice(s);
        return false;
      }
      MarkLast(OnlineEnd);
      var oldId := CheckOpenCheckpoint(true, true);
      ghost var s2 := Now();
      OnlineInList(s2);
      checkpointList := DecrRef(checkpointList, onlineUpdateCursor.checkpoint);
      numItems := numItems - 2;
      LowerOffsets(2);
      doOnlineUpdate := false;
      LoweredAbs(s2.taps, 2);
      StopStep(s, s2, Now());
      supported := true;
    }

    // -------------------------------------------------------------- residency

    method GetCasForKey(c: Checkpoint, key: Key) returns (cas: nat)
      requires key in c.keyIndex ==> c.keyIndex[key].position < |c.toWrite|
      ensures cas == CasFor(c, key)
      ensures IndexOk(c, mutationCounter) && key != "" ==>
                && (forall i :: 0 <= i < |c.toWrite| && c.toWrite[i].key == key ==> cas == c.toWrite[i].cas)
                && ((forall i :: 0 <= i < |c.toWrite| ==> c.toWrite[i].key != key) ==> cas == 0)
    {
      cas := 0;
      if key in c.keyIndex {
        cas := c.toWrite[c.keyIndex[key].position].cas;
      }
    }

    /** The scan stops at the first CAS that is not smaller; `ResidencyComplete` says when that misses nothing. */
    method IsKeyResidentInCheckpoints(key: Key, cas: nat) returns (found: bool)
      requires Valid()
      ensures WF(View()) && found == Resident(checkpointList, FirstReferenced(View(), 0), key, cas)
    {
      hide Consistent, Abstract, FirstReferenced, WF;
      DropPre(Now());
      ResidentPre(Now(), key);
      var i := 0;
      while i < |checkpointList| && !(checkpointList[i].referenceCounter > 0)
        invariant i <= |checkpointList|
        invariant forall j :: 0 <= j < i ==> checkpointList[j].referenceCounter == 0
      {
        i := i + 1;
      }
      DropCount(Now(), i);
      ghost var f := i;
      found := false;
      while i < |checkpointList|
        invariant f <= i <= |checkpointList|
        invariant forall j :: f <= j < i ==> CasFor(checkpointList[j], key) < cas
      {
        var here := GetCasForKey(checkpointList[i], key);
        if cas == here {
          return true;
        } else if cas < here {
          return false;
        }
        i := i + 1;
      }
    }
  }
}
