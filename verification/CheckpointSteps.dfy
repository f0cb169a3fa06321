/**
 The steps of the checkpoint manager's methods, one lemma each: what a method does to the fields keeps the
 state consistent and its counters exact, and refines the abstract queue operation.
 */
module CheckpointSteps {
  import opened Items
  import opened UnifiedQueue
  import opened Pending
  import opened Progress
  import opened CheckpointState
  import opened CheckpointRefinement
  import opened CheckpointDropping

  // ---------------------------------------------------------------- residency

  function CasFor(c: Checkpoint, key: Key): nat {
    if key in c.keyIndex && c.keyIndex[key].position < |c.toWrite| then c.toWrite[c.keyIndex[key].position].cas else 0
  }

  /**
   Some checkpoint from `f` on has the key with this CAS, and all between have it with a smaller one or not at all.
   */
  predicate Resident(l: seq<Checkpoint>, f: nat, key: Key, cas: nat) {
    exists i :: f <= i < |l| && CasFor(l[i], key) == cas && forall j :: f <= j < i ==> CasFor(l[j], key) < cas
  }

  lemma ResidentPre(s: State, key: Key)
    requires Consistent(s)
    ensures forall i :: 0 <= i < |s.list| && key in s.list[i].keyIndex ==>
            s.list[i].keyIndex[key].position < |s.list[i].toWrite|
  {
    hide WF, RefsOk, IndexComplete, IndexOrdered;
  }

  /** The early exit finds the key with this CAS exactly when some checkpoint has it with no larger one in front. */
  lemma ResidencyExact(l: seq<Checkpoint>, f: nat, key: Key, cas: nat)
    ensures Resident(l, f, key, cas) <==>
            exists i :: f <= i < |l| && CasFor(l[i], key) == cas && forall j :: f <= j < i ==> CasFor(l[j], key) <= cas
  {
    if i :| f <= i < |l| && CasFor(l[i], key) == cas && forall j :: f <= j < i ==> CasFor(l[j], key) <= cas {
      var k := FirstWith(l, f, i, key, cas);
      assert forall j :: f <= j < k ==> CasFor(l[j], key) < cas;
    }
  }

  /** So it loses nothing when the non-zero CAS values of a key never decrease along the list. */
  lemma ResidencyComplete(l: seq<Checkpoint>, f: nat, key: Key, cas: nat)
    requires cas != 0
    requires forall i, j :: f <= i < j < |l| && CasFor(l[i], key) != 0 && CasFor(l[j], key) != 0 ==>
               CasFor(l[i], key) <= CasFor(l[j], key)
    ensures Resident(l, f, key, cas) <==> exists i :: f <= i < |l| && CasFor(l[i], key) == cas
  {
    if i :| f <= i < |l| && CasFor(l[i], key) == cas {
      var k := FirstWith(l, f, i, key, cas);
      assert forall j :: f <= j < k ==> CasFor(l[j], key) < cas;
    }
  }

  lemma {:induction false} FirstWith(l: seq<Checkpoint>, f: nat, i: nat, key: Key, cas: nat) returns (k: nat)
    requires f <= i < |l| && CasFor(l[i], key) == cas
    ensures f <= k <= i && CasFor(l[k], key) == cas && forall j :: f <= j < k ==> CasFor(l[j], key) != cas
    decreases i
  {
    k := i;
    if j :| f <= j < i && CasFor(l[j], key) == cas {
      k := FirstWith(l, f, j, key, cas);
    }
  }

  // ---------------------------------------------------------------- rollback, clear, online update: steps

  lemma RenamedOk(s: State, id: nat)
    requires Consistent(s) && CanRename(Abstract(s), id)
    ensures WF(Abstract(s)) && 2 <= |s.list[|s.list| - 1].toWrite|
    ensures var li := |s.list| - 1;
            var c := s.list[li].(id := id, toWrite := s.list[li].toWrite[1 := StartItem(id)]);
            var t := s.(list := s.list[li := c]);
            Consistent(t) && Abstract(t) == Rename(Abstract(s), id) && (Exact(s) ==> Exact(t))
  {
    hide ListOk, IndexOk, RefsOk, Exact;
    TapPre(s, "");
    var li := |s.list| - 1;
    var c := s.list[li].(id := id, toWrite := s.list[li].toWrite[1 := StartItem(id)]);
    var t := s.(list := s.list[li := c]);
    AbsUpdate(s.list, li, c);
    LastOpen(s);
    RenameWF(Abstract(s), id);
    LastChkOk(s);
    RenamedIndex(s.list[li], id, s.mutationCounter);
    RefsSame(s, t);
    if Exact(s) {
      RenamedExact(s, id, t);
    }
    hide AbsList, AbsTaps;
  }

  lemma RenamedIndex(c: Checkpoint, id: nat, counter: nat)
    requires IndexOk(c, counter) && ChkOk(AbsChk(c))
    ensures var d := c.(id := id, toWrite := c.toWrite[1 := StartItem(id)]);
            IndexOk(d, counter) && (Tidy(c) ==> Tidy(d))
  {
    hide DistinctKeys;
    var d := c.(id := id, toWrite := c.toWrite[1 := StartItem(id)]);
    assert c.toWrite[1].key == "";
    assert forall i :: 0 <= i < |c.toWrite| && i != 1 ==> d.toWrite[i] == c.toWrite[i];
    hide ChkOk;
  }

  lemma RenamedExact(s: State, id: nat, t: State)
    requires Consistent(s) && Exact(s)
    requires Abstract(t) == Rename(Abstract(s), id) && t.numItems == s.numItems && t.persist == s.persist
             && t.taps == s.taps
    requires |t.list| == |s.list| && t.online == s.online
    requires forall i :: 0 <= i < |s.list| && i != |s.list| - 1 ==> t.list[i] == s.list[i]
    requires Tidy(s.list[|s.list| - 1]) ==> Tidy(t.list[|s.list| - 1])
    ensures Exact(t)
  {
    hide ListOk, IndexOk, RefsOk, Tidy, Flat, Behind, Ahead, Rename, AbsTaps;
    LastItemsOk(s);
    RenamedFlat(s, id);
    RenamedCursor(s, id, s.persist);
    forall n | n in s.taps ensures OffsetOk(Rename(Abstract(s), id).chks, s.taps[n]) {
      RenamedCursor(s, id, s.taps[n]);
    }
    hide AbsList, OffsetOk;
  }

  lemma RenamedFlat(s: State, id: nat)
    requires Consistent(s)
    ensures |Flat(Rename(Abstract(s), id).chks)| == |Flat(AbsList(s.list))|
  {
    hide ListOk, IndexOk, RefsOk, Flat;
    LastItemsOk(s);
    FlatLast(AbsList(s.list), Last(Rename(Abstract(s), id).chks));
  }

  lemma RenamedCursor(s: State, id: nat, c: Cursor)
    requires Consistent(s) && OffsetOk(AbsList(s.list), c)
    ensures OffsetOk(Rename(Abstract(s), id).chks, c)
  {
    hide ListOk, IndexOk, RefsOk, Flat, Behind, Ahead, Rename, Latest;
    LastOpen(s);
    LastItemsOk(s);
    AheadRename(Abstract(s), id, AbsPos(c));
    RenamedFlat(s, id);
    OffsetKept(AbsList(s.list), c, Rename(Abstract(s), id).chks, c);
  }

  lemma RollbackPre(s: State, k: nat)
    requires Consistent(s) && k < |s.list|
    ensures forall i :: 0 <= i < k ==> s.list[i].state.Closed?
    ensures s.persist.checkpoint < |s.list| && forall n :: n in s.taps ==> s.taps[n].checkpoint < |s.list|
  {
    hide IndexOk, RefsOk, ChkOk;
    ConsistentCursors(s);
    assert forall i :: 0 <= i < k ==> AbsList(s.list)[i] == AbsChk(s.list[i]);
  }

  function RewoundTaps(taps: map<string, Cursor>, clients: set<string>, li: nat, offset: int): map<string, Cursor> {
    map n | n in taps :: if n in clients then Cursor(li, 0, offset, taps[n].closedOnly) else taps[n]
  }

  /** Adding a checkpoint behind a closed one. */
  lemma TurnedClosed(s: State, id: nat)
    requires s.list != [] ==> s.list[|s.list| - 1].state.Closed?
    ensures s.list != [] ==>
              Turned(s, id) == s.(list := s.list + [NewCheckpoint(id)], numItems := s.numItems + 1,
                  mutationCounter := s.mutationCounter + 2)
  {
  }

  lemma RolledBackShape(s: State, id: nat, k: nat)
    requires k < |s.list| && s.persist.checkpoint < |s.list|
    requires forall n :: n in s.taps ==> s.taps[n].checkpoint < |s.list|
    ensures var total := s.numItems - Discarded(s.list[k..]) + 1;
            var clients := set n | n in s.taps && k <= s.taps[n].checkpoint < |s.list|;
            RolledBack(s, id, k) ==
            State(s.list[..k] + [NewCheckpoint(id).(referenceCounter := One(k <= s.persist.checkpoint) + |clients|)],
                  total, s.mutationCounter + 2,
                  if k <= s.persist.checkpoint then Cursor(k, 0, total - 1, s.persist.closedOnly) else s.persist,
                  RewoundTaps(s.taps, clients, k, total - 1), s.online)
  {
    var clients := set n | n in s.taps && k <= s.taps[n].checkpoint < |s.list|;
    assert clients == NamesFrom(s.taps, k);
    hide NamesFrom, Discarded;
    var total := s.numItems - Discarded(s.list[k..]) + 1;
    assert RolledBack(s, id, k).taps == RewoundTaps(s.taps, clients, k, total - 1);
  }

  lemma StartPre(s: State, id: nat)
    requires Consistent(s)
    ensures s.list != [] && WF(Abstract(s)) && Abstract(s).chks == AbsList(s.list)
    ensures Last(Abstract(s).chks).id == s.list[|s.list| - 1].id && |AbsList(s.list)| == |s.list|
    ensures Abstract(s).persist.chk == s.persist.checkpoint < |s.list|
    ensures id == 0 ==> CheckAndAdd(Abstract(s), id) == Abstract(s)
    ensures id != 0 && s.list[|s.list| - 1].id == 0 ==>
              CheckAndAdd(Abstract(s), id) == Rename(Abstract(s), id) && CanRename(Abstract(s), id)
    ensures RollsBack(Abstract(s), id) <==>
            id != 0 && s.list[|s.list| - 1].id != 0 && KeepBelow(AbsList(s.list), id) < |s.list|
  {
    hide IndexOk, RefsOk, ListOk, KeepBelow;
    if s.list[|s.list| - 1].id == 0 {
      LastIdZero(Abstract(s));
    }
    assert 2 <= |Last(AbsList(s.list)).items| by { ItemsOk(Abstract(s)); }
  }

  lemma EmptyInconsistent(s: State)
    requires s.list == []
    ensures !Consistent(s)
  {
  }

  /** Closing the last checkpoint, if it is open and the id is its own. */
  lemma SealedStep(s: State)
    requires Consistent(s)
    ensures s.list != [] && Abstract(s).chks != [] && Consistent(Sealed(s))
    ensures Abstract(Sealed(s)) == CloseOpen(Abstract(s), s.list[|s.list| - 1].id)
    ensures forall id :: id != s.list[|s.list| - 1].id ==> CloseOpen(Abstract(s), id) == Abstract(s)
    ensures Exact(s) ==> Exact(Sealed(s))
  {
    hide ListOk, IndexOk, RefsOk, Exact, ClosedCheckpoint, Close;
    LastOpen(s);
    SealedConsistent(s);
    SealedAbs(s);
    if Exact(s) {
      SealedExact(s);
    }
    hide AbsTaps;
  }

  lemma ExtendedStep(s: State, id: nat)
    requires Consistent(s) && id != 0 && s.list[|s.list| - 1].id != 0 && KeepBelow(AbsList(s.list), id) == |s.list|
    ensures Consistent(Turned(s, id)) && Abstract(Turned(s, id)) == CheckAndAdd(Abstract(s), id)
    ensures Exact(s) ==> Exact(Turned(s, id))
  {
    hide IndexOk, RefsOk, ListOk, Exact, Turned, AddNew;
    LastOpen(s);
    assert s.list[|s.list| - 1].id < id by { assert AbsList(s.list)[|s.list| - 1].id < id; }
    TurnedConsistent(s, id);
    if Exact(s) {
      TurnedExact(s, id);
    }
  }

  lemma KeepUnique(chks: seq<Chk>, id: nat, k: nat)
    requires k <= |chks| && (k < |chks| ==> id <= chks[k].id) && forall j :: 0 <= j < k ==> chks[j].id < id
    ensures k == KeepBelow(chks, id)
  {
    var f := KeepBelow(chks, id);
    assert f < |chks| ==> id <= chks[f].id;
    assert k < |chks| ==> id <= chks[k].id;
  }

  lemma ClearedShape(s: State, active: bool)
    ensures Cleared(s, active) ==
            State([NewCheckpoint(if active then 1 else 0).(referenceCounter := 1 + |s.taps.Keys|)], 1, 2,
                  Cursor(0, 0, 0, s.persist.closedOnly), RewoundTaps(s.taps, s.taps.Keys, 0, 0), s.online)
  {
    assert Cleared(s, active).taps == RewoundTaps(s.taps, s.taps.Keys, 0, 0);
  }

  lemma StartedTwice(s: State)
    requires Abstract(s).chks != [] && s.online.Some?
    ensures StartOnline(Abstract(s)) == Abstract(s)
  {
  }

  lemma StoppedTwice(s: State)
    requires Abstract(s).chks != [] && s.online.None?
    ensures StopOnline(Abstract(s)) == Abstract(s)
  {
  }

  lemma OpenedShape(s: State, t: State)
    requires Consistent(s) && Consistent(t) && Abstract(t) == Rollover(Abstract(s))
    ensures t.list != [] && t.list[|t.list| - 1].state.Opened? && t.list[|t.list| - 1].id > 0
  {
    hide ListOk, IndexOk, RefsOk;
    var chks, chks' := AbsList(s.list), AbsList(t.list);
    AddNewAt(chks, Last(chks).id + 1);
    assert chks'[|chks|] == AbsChk(t.list[|chks|]);
  }

  lemma MarkedShape(s: State, x: Item)
    requires s.list != []
    ensures Marked(s, x).numItems == s.numItems + 1 && |Marked(s, x).list| == |s.list|
    ensures forall i :: 0 <= i < |s.list| ==> Marked(s, x).list[i].id == s.list[i].id
  {
  }

  lemma StartStep(s: State, t: State, u: State)
    requires Consistent(s) && Consistent(t) && s.online.None? && t.online.None?
    requires Abstract(s).chks != []
    requires Abstract(t) == AppendLast(Rollover(Abstract(s)), OnlineStart) && t.list != []
    requires u == t.(list := IncrRef(t.list, |t.list| - 1), online := Some(|t.list| - 1))
    requires t.list[|t.list| - 1].id > 0
    ensures Consistent(u) && Abstract(u) == StartOnline(Abstract(s))
  {
    hide ListOk, IndexOk, RefsOk, AddNew, IncrRef;
    OnlineRefs(t, u);
    assert |Abstract(t).chks| == |t.list|;
    hide AbsList, AbsTaps, Rollover, AppendLast;
  }

  lemma OnlineInList(s: State)
    requires Consistent(s)
    ensures s.online.Some? ==> s.online.value < |s.list|
  {
    hide ListOk, IndexOk, RefsOk;
  }

  lemma LoweredAbs(taps: map<string, Cursor>, k: int)
    ensures AbsTaps(LoweredTaps(taps, k)) == AbsTaps(taps)
  {
  }

  lemma StopStep(s: State, t: State, u: State)
    requires Consistent(s) && Consistent(t) && s.online.Some? && t.online.Some? && t.online.value < |t.list|
    requires Abstract(s).chks != [] && Abstract(t) == Rollover(AppendLast(Abstract(s), OnlineEnd))
    requires u.list == DecrRef(t.list, t.online.value) && u.online.None? && u.mutationCounter == t.mutationCounter
    requires AbsPos(u.persist) == AbsPos(t.persist) && AbsTaps(u.taps) == AbsTaps(t.taps)
    ensures Consistent(u) && Abstract(u) == StopOnline(Abstract(s))
  {
    hide ListOk, IndexOk, RefsOk, AddNew, DecrRef;
    OnlineRefs(t, u);
    hide AbsList, AbsTaps, Rollover, AppendLast;
  }

  lemma HopPre(s: State, c: nat, t: State)
    requires Consistent(t) && SameButRefs(s.list, t.list) && |s.list| == c + 2 && s.list[c].state.Closed?
    ensures forall i :: 0 <= i < |t.list| ==> (t.list[i].id == t.list[c].id <==> i == c)
    ensures t.persist.checkpoint < |t.list| && t.persist.pos < |t.list[t.persist.checkpoint].toWrite|
    ensures t.list[t.persist.checkpoint].referenceCounter > 0
    ensures forall n :: n in t.taps ==>
              && t.taps[n].checkpoint < |t.list| && t.taps[n].pos < |t.list[t.taps[n].checkpoint].toWrite|
              && t.list[t.taps[n].checkpoint].referenceCounter > 0
    ensures t.list[c].state.Closed? && t.list[c].id == s.list[c].id
  {
    hide WF, IndexOk, RefsOk;
    forall i | 0 <= i < |t.list| ensures t.list[i].id == t.list[c].id <==> i == c {
      SameIdSame(t, i, c);
    }
    CursorRef(t);
  }

  lemma HopPersist(s: State, c: nat)
    requires Consistent(s) && s.persist.checkpoint < |s.list|
    ensures HoppedCursor(s.list, c, s.persist).checkpoint < |s.list|
    ensures var t := PersistAt(s, HoppedCursor(s.list, c, s.persist));
            Consistent(t) && (Exact(s) ==> Exact(t)) && SameButRefs(s.list, t.list)
  {
    hide ListOk, IndexOk, RefsOk, Tidy, Flat, Behind;
    ItemsOk(Abstract(s));
    var d := HoppedCursor(s.list, c, s.persist);
    StartPosOk(s);
    ConsistentCursors(s);
    PersistAtConsistent(s, d);
    MovedSame(s.list, s.persist.checkpoint, d.checkpoint);
    if Exact(s) {
      HoppedExact(AbsList(s.list), s.list, c, s.persist);
    }
    hide Exact, PersistAt, Moved;
  }

  lemma HopTap(s: State, c: nat, n: string)
    requires Consistent(s) && n in s.taps && s.taps[n].checkpoint < |s.list|
    ensures HoppedCursor(s.list, c, s.taps[n]).checkpoint < |s.list|
    ensures var d := HoppedCursor(s.list, c, s.taps[n]); var t := TapAt(s, n, d);
            && Consistent(t) && (Exact(s) ==> Exact(t))
            && t.list == Moved(s.list, s.taps[n].checkpoint, d.checkpoint)
  {
    hide ListOk, IndexOk, RefsOk, Tidy, Flat, Behind;
    ItemsOk(Abstract(s));
    var d := HoppedCursor(s.list, c, s.taps[n]);
    StartPosOk(s);
    ConsistentCursors(s);
    TapAtConsistent(s, n, d);
    if Exact(s) {
      HoppedExact(AbsList(s.list), s.list, c, s.taps[n]);
      TapAtExact(s, n, d);
    }
    hide Exact, IncrRef, DecrRef;
  }

  lemma SameSelf(l: seq<Checkpoint>)
    ensures SameButRefs(l, l)
  {
  }

  lemma SameFields(l: seq<Checkpoint>, l': seq<Checkpoint>, c: nat)
    requires SameButRefs(l, l') && c < |l|
    ensures |l'| == |l| && l'[c].state == l[c].state && l'[c].id == l[c].id
  {
  }

  lemma HoppedSame(l: seq<Checkpoint>, l': seq<Checkpoint>, c: nat, cur: Cursor)
    requires SameButRefs(l, l') && c < |l|
    ensures HoppedCursor(l', c, cur) == HoppedCursor(l, c, cur)
  {
    assert l'[c].toWrite == l[c].toWrite;
  }

  lemma SameTrans(a: seq<Checkpoint>, b: seq<Checkpoint>, c: seq<Checkpoint>)
    requires SameButRefs(a, b) && SameButRefs(b, c)
    ensures SameButRefs(a, c)
  {
    forall i | 0 <= i < |a| ensures c[i] == a[i].(referenceCounter := c[i].referenceCounter) {
      assert b[i] == a[i].(referenceCounter := b[i].referenceCounter);
      assert c[i] == b[i].(referenceCounter := c[i].referenceCounter);
    }
  }

  function LoweredTaps(taps: map<string, Cursor>, k: int): map<string, Cursor> {
    map m | m in taps :: taps[m].(offset := taps[m].offset - k)
  }

  function RenumberedTaps(taps: map<string, Cursor>, n: nat): map<string, Cursor> {
    map m | m in taps ::
      taps[m].(checkpoint := if n <= taps[m].checkpoint then taps[m].checkpoint - n else taps[m].checkpoint)
  }

  lemma LoweredNone(taps: map<string, Cursor>)
    ensures LoweredTaps(taps, 0) == taps
  {
  }

  lemma DroppedShape(s: State, n: nat, k: int)
    requires n <= |s.list| && AllFrom(s, n)
    ensures Dropped(s, n, k) ==
            State(s.list[n..], s.numItems - k, s.mutationCounter,
                  s.persist.(offset := Decr(s.persist.offset, k, true), checkpoint := s.persist.checkpoint - n),
                  RenumberedTaps(LoweredTaps(s.taps, k), n),
                  if s.online.Some? then Some(s.online.value - n) else None)
  {
    assert Dropped(s, n, k).taps == RenumberedTaps(LoweredTaps(s.taps, k), n);
  }

  lemma UnreferencedNext(l: seq<Checkpoint>, i: nat)
    requires i < |l|
    ensures Unreferenced(l[..i + 1]) == Unreferenced(l[..i]) + l[i].numItems + 2
  {
    assert l[..i + 1][..i] == l[..i];
  }

  lemma UnreferencedPositive(l: seq<Checkpoint>, i: nat)
    requires i <= |l|
    ensures Unreferenced(l[..i]) > 0 <==> i > 0
  {
  }

  lemma DropPre(s: State)
    requires Consistent(s)
    ensures WF(Abstract(s)) && s.list != []
  {
  }

  lemma DropCount(s: State, i: nat)
    requires Consistent(s) && i <= |s.list| && forall j :: 0 <= j < i ==> s.list[j].referenceCounter == 0
    requires i < |s.list| ==> s.list[i].referenceCounter > 0
    ensures i < |s.list| && i == FirstReferenced(Abstract(s), 0) && AllFrom(s, i)
  {
    hide ListOk, IndexOk, RefsOk;
    var q := Abstract(s);
    CursorRef(s);
    var f := FirstReferenced(q, 0);
    assert f < |s.list|;
    RefsReferenced(s, f);
    if i < |s.list| {
      RefsReferenced(s, i);
    }
    FirstReferencedBounds(q);
    forall m | m in s.taps ensures f <= s.taps[m].checkpoint {
      assert m in q.taps && q.taps[m].pos.chk == s.taps[m].checkpoint;
    }
    hide Referenced;
  }

  lemma RemovePre(s: State)
    requires Consistent(s)
    ensures s.list != [] && WF(Abstract(s)) && Last(Abstract(s).chks).id == s.list[|s.list| - 1].id
    ensures |Abstract(s).chks| == |s.list|
  {
    hide ListOk, IndexOk, RefsOk;
  }

  /** After a rollover, the old last checkpoint is closed and second to last. */
  lemma RolledShape(s: State, t: State)
    requires Consistent(s) && Consistent(t) && Abstract(t) == Rollover(Abstract(s))
    ensures |t.list| == |s.list| + 1
    ensures t.list[|s.list| - 1].state.Closed? && t.list[|s.list| - 1].id == s.list[|s.list| - 1].id
  {
    hide ListOk, IndexOk, RefsOk;
    var chks, chks' := AbsList(s.list), AbsList(t.list);
    AddNewAt(chks, Last(chks).id + 1);
    assert chks'[|s.list| - 1] == AbsChk(t.list[|s.list| - 1]);
  }

  lemma HopView(s: State, t: State, u: State)
    requires Consistent(s) && Consistent(t) && Abstract(t) == Rollover(Abstract(s)) && s.list[|s.list| - 1].id > 0
    requires u.online == t.online && SameButRefs(t.list, u.list)
    requires u.persist == HoppedCursor(t.list, |s.list| - 1, t.persist) && u.taps.Keys == t.taps.Keys
    requires forall n :: n in t.taps ==> u.taps[n] == HoppedCursor(t.list, |s.list| - 1, t.taps[n])
    ensures Abstract(u) == PreTrim(Abstract(s), true)
  {
    hide ListOk, IndexOk, RefsOk, AddNew, HopPos, Tidy, Indexed, AbsTaps, HoppedCursor, SameButRefs, AbsList,
            Rollover, PreTrim;
    var c := |s.list| - 1;
    SameAbs(t.list, u.list, 0);
    HoppedAbs(t, c, t.persist);
    HopTaps(t, u, c);
    PreTrimShape(s);
  }

  lemma PreTrimShape(s: State)
    requires Consistent(s) && s.list[|s.list| - 1].id > 0
    ensures var q1 := Rollover(Abstract(s));
            PreTrim(Abstract(s), true) == q1.Reposition(q1.chks, p => HopPos(q1.chks, |s.list| - 1, p), q1.barrier)
  {
    hide ListOk, IndexOk, RefsOk, AddNew, HopPos;
  }

  lemma HopTaps(t: State, u: State, c: nat)
    requires u.taps.Keys == t.taps.Keys
    requires forall n :: n in t.taps ==> u.taps[n] == HoppedCursor(t.list, c, t.taps[n])
    ensures AbsTaps(u.taps) ==
            map n | n in AbsTaps(t.taps) ::
              AbsTaps(t.taps)[n].(pos := HopPos(AbsList(t.list), c, AbsTaps(t.taps)[n].pos))
  {
    hide HopPos;
    forall n | n in t.taps
      ensures AbsPos(u.taps[n]) == HopPos(AbsList(t.list), c, AbsPos(t.taps[n]))
              && u.taps[n].closedOnly == t.taps[n].closedOnly
    {
      HoppedAbs(t, c, t.taps[n]);
    }
    hide HoppedCursor;
  }

  lemma NoHopView(s: State, create: bool)
    requires Consistent(s) && (create ==> s.list[|s.list| - 1].id == 0)
    ensures PreTrim(Abstract(s), create) == if create then Rollover(Abstract(s)) else Abstract(s)
  {
    hide ListOk, IndexOk, RefsOk, AddNew;
  }

  lemma TrimStep(s: State, create: bool, t: State, n: nat, k: nat)
    requires Consistent(s) && Consistent(t) && Abstract(t) == PreTrim(Abstract(s), create)
    requires n <= |t.list| && n == FirstReferenced(Abstract(t), 0) && k == Unreferenced(t.list[..n])
    ensures Consistent(Dropped(t, n, k)) && Abstract(Dropped(t, n, k)) == Trim(Abstract(s), create)
    ensures Exact(t) ==> Exact(Dropped(t, n, k))
  {
    hide ListOk, IndexOk, RefsOk, PreTrim, Dropped, Unreferenced, Exact, FirstReferenced, Drop;
    AllFromFirst(t);
    DropWF(Abstract(t));
    DroppedAbs(t, n, k);
    DroppedConsistent(t, n, k);
    if Exact(t) {
      DroppedExact(t, n);
      PrefixCount(t, n);
    }
  }

  lemma AllFromFirst(s: State)
    requires Consistent(s)
    ensures AllFrom(s, FirstReferenced(Abstract(s), 0))
  {
    hide ListOk, IndexOk, RefsOk;
    var q := Abstract(s);
    FirstReferencedBounds(q);
    hide Referenced;
    forall m | m in s.taps ensures FirstReferenced(q, 0) <= s.taps[m].checkpoint {
      assert m in q.taps && q.taps[m].pos.chk == s.taps[m].checkpoint;
    }
  }

  lemma FreedCount(s: State, create: bool, t: State, n: nat, k: nat, exact: bool)
    requires exact ==> Exact(t)
    requires Consistent(s) && Consistent(t) && Abstract(t) == PreTrim(Abstract(s), create)
    requires n <= |t.list| && n == FirstReferenced(Abstract(t), 0) && k == Unreferenced(t.list[..n])
    ensures Freed(PreTrim(Abstract(s), create).chks, Trim(Abstract(s), create).chks, k, exact)
  {
    hide ListOk, IndexOk, RefsOk, PreTrim, Unreferenced, Exact, FirstReferenced, KeysAndMarkers, Flat;
    var chks := AbsList(t.list);
    assert Trim(Abstract(s), create).chks == chks[n..];
    assert n < |t.list|;
    UnreferencedKeys(t.list[..n], t.mutationCounter);
    AbsSlice(t.list, 0, n);
    assert t.list[..n] == t.list[0..n] && chks[..n] == chks[0..n];
    if exact {
      PrefixCount(t, n);
    }
  }

  lemma PrefixCount(s: State, n: nat)
    requires Consistent(s) && Exact(s) && n < |s.list|
    ensures Unreferenced(s.list[..n]) == |Flat(AbsList(s.list)[..n])|
  {
    hide IndexOk, RefsOk, Flat, Unreferenced;
    PrefixExact(s, n);
  }

  lemma UnregisterNone(s: State, n: string)
    requires n !in s.taps
    ensures Unregister(Abstract(s), n) == Abstract(s)
  {
    assert AbsTaps(s.taps) - {n} == AbsTaps(s.taps);
  }

  lemma MoreAhead(q: Queue)
    requires WF(q)
    ensures var p := q.persist; var c := q.chks[p.chk];
            (c.open && p.at + 1 == |c.items|) <==> (Ahead(q.chks, p) == [] && Last(q.chks).open)
  {
    var p := q.persist;
    ItemsOk(q);
    if p.chk + 1 < |q.chks| {
      FlatFrom(q.chks, p.chk + 1);
      assert |Body(q.chks[p.chk + 1])| > 0;
    } else {
      AheadLast(q.chks, p);
    }
    hide ChkOk;
  }

  lemma BackOffStep(s: State, n: string)
    requires Consistent(s) && n in s.taps
    requires s.taps[n].checkpoint < |s.list| && s.taps[n].pos < |s.list[s.taps[n].checkpoint].toWrite|
    ensures WF(Abstract(s)) && n in Abstract(s).taps
    ensures var c := s.taps[n];
            if s.list[c.checkpoint].toWrite[c.pos].op == OpCheckpointEnd then
              && c.pos > 0
              && var t := s.(taps := s.taps[n := c.(offset := c.offset - 1, pos := c.pos - 1)]);
                 Consistent(t) && Abstract(t) == BackOff(Abstract(s), n) && (Exact(s) ==> Exact(t))
            else BackOff(Abstract(s), n) == Abstract(s)
  {
    hide ListOk, IndexOk, RefsOk, Exact, IncrRef, DecrRef;
    TapPre(s, n);
    var c := s.taps[n];
    if s.list[c.checkpoint].toWrite[c.pos].op == OpCheckpointEnd {
      assert c.pos > 0 by { EndNotFirst(s, c); }
      var d := c.(offset := c.offset - 1, pos := c.pos - 1);
      TapAtConsistent(s, n, d);
      MovedNowhere(s.list, c.checkpoint);
      assert TapAt(s, n, d).list == Moved(s.list, c.checkpoint, c.checkpoint);
      if Exact(s) {
        BackOffExact(s, c, d);
        TapAtExact(s, n, d);
      }
    }
  }

  lemma EndNotFirst(s: State, c: Cursor)
    requires Consistent(s) && PosOk(AbsList(s.list), AbsPos(c))
    requires s.list[c.checkpoint].toWrite[c.pos].op == OpCheckpointEnd
    ensures c.pos > 0
  {
    hide IndexOk, RefsOk;
    assert ChkOk(AbsList(s.list)[c.checkpoint]);
  }

  lemma BackOffExact(s: State, c: Cursor, d: Cursor)
    requires Exact(s) && exists n :: n in s.taps && s.taps[n] == c
    requires c.pos > 0 && d == c.(offset := c.offset - 1, pos := c.pos - 1)
    ensures OffsetOk(AbsList(s.list), d)
  {
    hide Flat, Tidy;
    assert OffsetOk(AbsList(s.list), c);
  }

  lemma FindIdUnique(chks: seq<Chk>, id: nat, i: nat)
    requires i <= |chks| && (i < |chks| ==> chks[i].id == id) && forall j :: 0 <= j < i ==> chks[j].id != id
    ensures i == FindId(chks, id)
  {
    var f := FindId(chks, id);
    assert f < |chks| ==> chks[f].id == id;
    assert i < |chks| ==> chks[i].id == id;
  }

  predicate HasId(chks: seq<Chk>, id: nat) {
    exists i :: 0 <= i < |chks| && chks[i].id == id
  }

  lemma FindIdHas(s: State, id: nat)
    ensures FindId(AbsList(s.list), id) < |s.list| <==> HasId(Abstract(s).chks, id)
  {
  }

  lemma DecrSame(l: seq<Checkpoint>, a: nat, i: nat)
    requires a < |l| && i <= |l|
    ensures SameButRefs(l, DecrRef(l, a)) && Unreferenced(DecrRef(l, a)[..i]) == Unreferenced(l[..i])
  {
    UnreferencedSame(l[..i], DecrRef(l, a)[..i]);
  }

  lemma {:induction false} UnreferencedSame(l: seq<Checkpoint>, l': seq<Checkpoint>)
    requires SameButRefs(l, l')
    ensures Unreferenced(l') == Unreferenced(l)
  {
    if l != [] {
      UnreferencedSame(l[..|l| - 1], l'[..|l| - 1]);
    }
  }

  /** The cursor that a registration installs; `i` is the index of the checkpoint, or the length. */
  function Installed(s: State, n: string, closedOnly: bool, always: bool, i: nat): Cursor
    requires s.list != [] && i <= |s.list|
  {
    var li := |s.list| - 1;
    if i == |s.list| then Cursor(li, 0, s.numItems - (s.list[li].numItems + 1), closedOnly)
    else if !always && n in s.taps && s.taps[n].checkpoint == i
    then Cursor(i, s.taps[n].pos, s.taps[n].offset, closedOnly)
    else Cursor(i, 0, Unreferenced(s.list[..i]), closedOnly)
  }

  lemma RegisterStep(s: State, n: string, id: nat, closedOnly: bool, always: bool, i: nat)
    requires Consistent(s) && i == FindId(AbsList(s.list), id)
    ensures s.list != [] && (n in s.taps ==> s.taps[n].checkpoint < |s.list|) && i <= |s.list|
    ensures i < |s.list| && n in s.taps ==>
              (s.list[s.taps[n].checkpoint].id == s.list[i].id <==> s.taps[n].checkpoint == i)
    ensures var c := Installed(s, n, closedOnly, always, i);
            && c.checkpoint < |s.list| && Abstract(s).chks != []
            && Consistent(TapAt(s, n, c))
            && Abstract(TapAt(s, n, c)) == Register(Abstract(s), n, id, closedOnly, always)
            && (Exact(s) ==> (Exact(TapAt(s, n, c)) <==> i < |s.list| || Last(Abstract(s).chks).open))
  {
    hide IndexOk, RefsOk, Exact, ListOk, TapAt, Unreferenced;
    TapPre(s, n);
    var c := Installed(s, n, closedOnly, always, i);
    if i < |s.list| && n in s.taps {
      SameIdSame(s, s.taps[n].checkpoint, i);
    }
    StartPosOk(s);
    TapAtConsistent(s, n, c);
    if Exact(s) {
      RegisterExact(s, n, i, c, closedOnly);
      TapAtExact(s, n, c);
    }
  }

  lemma SameIdSame(s: State, i: nat, j: nat)
    requires Consistent(s) && i < |s.list| && j < |s.list|
    ensures s.list[i].id == s.list[j].id <==> i == j
  {
    hide IndexOk, RefsOk, ChkOk;
    var chks := AbsList(s.list);
    assert chks[i].id == s.list[i].id && chks[j].id == s.list[j].id;
  }

  lemma StartPosOk(s: State)
    requires Consistent(s)
    ensures forall i :: 0 <= i < |s.list| ==> PosOk(AbsList(s.list), Pos(i, 0))
  {
    hide IndexOk, RefsOk;
    ItemsOk(Abstract(s));
    hide ListOk;
  }

  lemma RegisterExact(s: State, n: string, i: nat, c: Cursor, closedOnly: bool)
    requires Consistent(s) && Exact(s) && i <= |s.list|
    requires var li := |s.list| - 1;
             if i == |s.list| then c == Cursor(li, 0, s.numItems - (s.list[li].numItems + 1), closedOnly)
             else c == Cursor(i, 0, Unreferenced(s.list[..i]), closedOnly)
                  || (n in s.taps && s.taps[n].checkpoint == i && c == s.taps[n].(closedOnly := closedOnly))
    ensures PosOk(AbsList(s.list), AbsPos(c))
    ensures OffsetOk(AbsList(s.list), c) <==> i < |s.list| || s.list[|s.list| - 1].state.Opened?
  {
    hide IndexOk, RefsOk, Flat, ChkOk;
    StartPosOk(s);
    if n in s.taps && c == s.taps[n].(closedOnly := closedOnly) && i < |s.list| {
      hide ListOk, Tidy;
      assert AbsPos(c) == AbsPos(s.taps[n]);
    } else if i < |s.list| {
      PrefixExact(s, i);
    } else {
      hide ListOk;
      LastExact(s);
    }
  }

  lemma PrefixExact(s: State, i: nat)
    requires Consistent(s) && Exact(s) && i < |s.list|
    ensures PosOk(AbsList(s.list), Pos(i, 0)) && |Behind(AbsList(s.list), Pos(i, 0))| == Unreferenced(s.list[..i])
  {
    hide IndexOk, RefsOk, Flat, ChkOk, Tidy, OffsetOk;
    StartPosOk(s);
    var chks := AbsList(s.list);
    assert forall j :: 0 <= j < i ==> !chks[j].open;
    assert forall j :: 0 <= j < i ==> chks[j] == AbsChk(s.list[j]) && s.list[j].state.Closed? && Tidy(s.list[j]);
    hide ListOk;
    UnreferencedFlat(s.list[..i]);
    AbsSlice(s.list, 0, i);
    assert s.list[..i] == s.list[0..i] && chks[..i] == chks[0..i];
  }

  lemma LastExact(s: State)
    requires Consistent(s) && Exact(s)
    ensures var li := |s.list| - 1; var chks := AbsList(s.list);
            && PosOk(chks, Pos(li, 0))
            && |Behind(chks, Pos(li, 0))| ==
               s.numItems - (s.list[li].numItems + 1) - One(s.list[li].state.Closed?)
  {
    hide IndexOk, RefsOk, Flat, OffsetOk;
    StartPosOk(s);
    hide ListOk;
    var chks := AbsList(s.list);
    FlatUpdateLast(chks, Last(chks));
  }

  predicate AtLastMutation(s: seq<Item>, pos: nat) {
    pos + 1 >= |s| || s[pos + 1].op == OpCheckpointEnd
  }

  /** Only the end item, if any, follows. */
  predicate NothingButEnd(s: seq<Item>, pos: nat) {
    forall j :: pos < j < |s| ==> s[j].op == OpCheckpointEnd
  }

  lemma LastMutationMeans(s: State, cur: Cursor)
    requires Consistent(s) && cur.checkpoint < |s.list| && cur.pos < |s.list[cur.checkpoint].toWrite|
    ensures var w := s.list[cur.checkpoint].toWrite; AtLastMutation(w, cur.pos) <==> NothingButEnd(w, cur.pos)
  {
    hide Indexed, RefsOk, DistinctKeys;
    var c := AbsList(s.list)[cur.checkpoint];
    assert ChkOk(c) && c.items == s.list[cur.checkpoint].toWrite;
    if cur.pos + 1 < |c.items| && c.items[cur.pos + 1].op == OpCheckpointEnd {
      assert cur.pos + 1 == |c.items| - 1;
    }
  }

  /** A cursor advanced as `Step` says, its offset counting the item handed out. */
  ghost predicate StepDone(l: seq<Checkpoint>, cur: Cursor, next: Cursor, item: Item, isLast: bool) {
    var chks := AbsList(l);
    && l != [] && PosOk(chks, AbsPos(cur)) && (forall i :: 0 <= i < |chks| ==> 2 <= |chks[i].items|)
    && var r := Step(chks, Tap(AbsPos(cur), cur.closedOnly));
       && AbsPos(next) == r.0 && next.closedOnly == cur.closedOnly && PosOk(chks, r.0)
       && next.offset == cur.offset + One(r.1.Some?)
       && (r.1.None? ==> item == Dummy && !isLast)
       && (r.1.Some? ==> item == r.1.value && (isLast <==> AtLastMutation(chks[r.0.chk].items, r.0.at)))
  }

  /** `nextItem` as the queue defines it, with the flag that says whether the item is its checkpoint's last mutation. */
  ghost predicate Handed(q: Queue, q': Queue, n: string, item: Item, isLast: bool) {
    && WF(q) && n in q.taps && q' == UnifiedQueue.NextItem(q, n)
    && var (p, x) := Step(q.chks, q.taps[n]);
       if x.None? then item == Dummy && !isLast
       else item == x.value && PosOk(q.chks, p) && (isLast <==> AtLastMutation(q.chks[p.chk].items, p.at))
  }

  lemma HandedServed(q: Queue, q': Queue, n: string, item: Item, isLast: bool)
    requires Handed(q, q', n, item, isLast)
    ensures Served(q, q', n, item)
  {
    hide WF, Step, Served;
    StepServed(q, n);
  }

  lemma OpenStep(l: seq<Checkpoint>, cur: Cursor, next: Cursor, item: Item, isLast: bool)
    requires l != [] && Readable(AbsList(l), AbsPos(cur)) && l[cur.checkpoint].state.Opened?
    requires forall i :: 0 <= i < |l| ==> 2 <= |l[i].toWrite|
    requires l[|l| - 1].id != 0 && l[cur.checkpoint].referenceCounter > 0
    requires var s := l[cur.checkpoint].toWrite;
             if cur.closedOnly || cur.pos + 1 == |s| then next == cur && item == Dummy && !isLast
             else next == cur.(pos := cur.pos + 1, offset := cur.offset + 1) && item == s[cur.pos + 1]
                  && (isLast <==> AtLastMutation(s, cur.pos + 1))
    ensures StepDone(l, cur, next, item, isLast) && l == Moved(l, cur.checkpoint, next.checkpoint)
  {
    MovedNowhere(l, cur.checkpoint);
  }

  lemma PersistPre(s: State)
    requires Consistent(s)
    ensures WF(Abstract(s)) && Readable(AbsList(s.list), AbsPos(s.persist)) && Abstract(s).barrier == s.online
    ensures s.list[s.persist.checkpoint].referenceCounter > 0
    ensures s.online.Some? ==> s.online.value < |s.list|
  {
    hide IndexOk, ListOk;
    CursorRef(s);
    ItemsOk(Abstract(s));
  }

  lemma TapPre(s: State, name: string)
    requires Consistent(s)
    ensures WF(Abstract(s)) && s.list != []
    ensures name in Abstract(s).taps <==> name in s.taps
    ensures forall i :: 0 <= i < |s.list| ==> 2 <= |s.list[i].toWrite|
    ensures Last(AbsList(s.list)).id == s.list[|s.list| - 1].id
    ensures name in s.taps ==>
              && s.taps[name].checkpoint < |s.list| && s.taps[name].pos < |s.list[s.taps[name].checkpoint].toWrite|
              && Readable(AbsList(s.list), AbsPos(s.taps[name]))
              && s.list[s.taps[name].checkpoint].referenceCounter > 0
              && Abstract(s).taps[name].pos == AbsPos(s.taps[name])
  {
    hide IndexOk, ListOk;
    CursorRef(s);
    ItemsOk(Abstract(s));
    assert forall i :: 0 <= i < |s.list| ==> AbsList(s.list)[i].items == s.list[i].toWrite;
  }

  lemma {:induction false} StopAtEnd(chks: seq<Chk>, p: Pos)
    requires Readable(chks, p) && forall i :: 0 <= i < |chks| - 1 ==> !chks[i].open
    ensures StopAt(chks, p, 0) == EndPos(chks)
    decreases |chks| - p.chk
  {
    if p.chk + 1 < |chks| {
      StopAtEnd(chks, Pos(p.chk + 1, 0));
    }
  }

  lemma {:induction false} StopAtBarrier(chks: seq<Chk>, p: Pos, b: nat)
    requires Readable(chks, p) && forall i :: 0 <= i < |chks| - 1 ==> !chks[i].open
    requires forall i, j :: 0 <= i < j < |chks| ==> chks[i].id < chks[j].id
    requires b < |chks| && chks[b].id > 0
    ensures StopAt(chks, p, chks[b].id) == if p.chk < b then Pos(b, 0) else p
    decreases |chks| - p.chk
  {
    if p.chk < b {
      StopAtBarrier(chks, Pos(p.chk + 1, 0), b);
    }
  }

  lemma StopAtDraw(q: Queue)
    requires WF(q)
    ensures Readable(q.chks, q.persist)
    ensures StopAt(q.chks, q.persist, if q.barrier.Some? then q.chks[q.barrier.value].id else 0) == DrawTo(q)
  {
    ItemsOk(q);
    hide ChkOk, StopAt;
    if q.barrier.Some? {
      StopAtBarrier(q.chks, q.persist, q.barrier.value);
    } else {
      StopAtEnd(q.chks, q.persist);
    }
  }

  lemma PersistStep(s: State, c: Cursor, items: seq<Item>)
    requires Consistent(s)
    requires Readable(AbsList(s.list), AbsPos(s.persist)) && PosOk(AbsList(s.list), AbsPos(c))
    requires s.online.Some? ==> s.online.value < |s.list|
    requires AbsPos(c) == StopAt(AbsList(s.list), AbsPos(s.persist),
                                 if s.online.Some? then s.list[s.online.value].id else 0)
    requires items + Ahead(AbsList(s.list), AbsPos(c)) == Ahead(AbsList(s.list), AbsPos(s.persist))
    requires s.online.None? ==> c.offset == s.numItems
    ensures WF(Abstract(s)) && AbsPos(c) == DrawTo(Abstract(s)) && items == Drawn(Abstract(s))
    ensures s.list[c.checkpoint].id == Abstract(s).chks[c.checkpoint].id
    ensures Consistent(PersistAt(s, c)) && Abstract(PersistAt(s, c)) == Draw(Abstract(s))
    ensures Exact(s) ==> Exact(PersistAt(s, c)) && |items| == Backlog(s.numItems, s.persist.offset)
  {
    hide ListOk, IndexOk, RefsOk, Tidy, OffsetOk, Flat, Ahead, StopAt, PersistAt, Drawn;
    var q := Abstract(s);
    StopAtDraw(q);
    AheadDraw(q);
    SameFront(items, Drawn(q), Ahead(q.chks, AbsPos(c)));
    PersistAtConsistent(s, c);
    if Exact(s) {
      DrawExact(s, c);
      BacklogExact(s);
    }
  }

  lemma SameFront(a: seq<Item>, b: seq<Item>, t: seq<Item>)
    requires a + t == b + t
    ensures a == b
  {
    assert |a| == |b|;
    assert a == (a + t)[..|a|] && b == (b + t)[..|b|];
  }

  lemma DrawExact(s: State, c: Cursor)
    requires Consistent(s) && Exact(s) && AbsPos(c) == DrawTo(Abstract(s)) && c.offset == s.numItems
    ensures OffsetOk(AbsList(s.list), c)
    ensures Ahead(AbsList(s.list), AbsPos(c)) == []
  {
    hide IndexOk, RefsOk, Tidy, Ahead, Flat, Behind;
    ItemsOk(Abstract(s));
    hide ListOk;
    var chks := AbsList(s.list);
    AheadLast(chks, EndPos(chks));
    OffsetAhead(chks, c);
  }

  lemma TapAllStep(s: State, n: string, c: Cursor, items: seq<Item>)
    requires Consistent(s) && n in s.taps
    requires Readable(AbsList(s.list), AbsPos(s.taps[n])) && PosOk(AbsList(s.list), AbsPos(c))
    requires AbsPos(c) == StopAt(AbsList(s.list), AbsPos(s.taps[n]), 0) && c.offset == s.numItems
    requires c.closedOnly == s.taps[n].closedOnly
    requires items + Ahead(AbsList(s.list), AbsPos(c)) == Ahead(AbsList(s.list), AbsPos(s.taps[n]))
    ensures WF(Abstract(s)) && n in Abstract(s).taps
    ensures items == Ahead(Abstract(s).chks, Abstract(s).taps[n].pos)
    ensures s.taps[n].checkpoint < |s.list| && Consistent(TapAt(s, n, c))
    ensures Abstract(TapAt(s, n, c)) == ReadAll(Abstract(s), n)
    ensures Moved(s.list, s.taps[n].checkpoint, c.checkpoint) == TapAt(s, n, c).list
    ensures Exact(s) ==> Exact(TapAt(s, n, c))
  {
    hide IndexOk, RefsOk, Exact, Ahead, StopAt, Flat, ChkOk;
    var chks := AbsList(s.list);
    ItemsOk(Abstract(s));
    StopAtEnd(chks, AbsPos(s.taps[n]));
    hide ListOk;
    AheadLast(chks, EndPos(chks));
    assert items + [] == items;
    TapAtConsistent(s, n, c);
    if Exact(s) {
      EndExact(s, c);
      TapAtExact(s, n, c);
    }
  }

  lemma EndExact(s: State, c: Cursor)
    requires Consistent(s) && Exact(s) && PosOk(AbsList(s.list), AbsPos(c)) && c.offset == s.numItems
    requires Ahead(AbsList(s.list), AbsPos(c)) == []
    ensures OffsetOk(AbsList(s.list), c)
  {
    hide ListOk, IndexOk, RefsOk, Tidy, Ahead, Flat, Behind;
    OffsetAhead(AbsList(s.list), c);
  }

  lemma NextWaits(s: State, n: string)
    requires Consistent(s) && n in s.taps && s.list[|s.list| - 1].id == 0
    ensures Handed(Abstract(s), Abstract(s), n, Dummy, false)
  {
    hide ListOk, IndexOk, RefsOk;
  }

  lemma NextStep(s: State, n: string, c: Cursor, item: Item, isLast: bool)
    requires Consistent(s) && n in s.taps && StepDone(s.list, s.taps[n], c, item, isLast)
    ensures s.taps[n].checkpoint < |s.list| && c.checkpoint < |s.list| && Consistent(TapAt(s, n, c))
    ensures Handed(Abstract(s), Abstract(TapAt(s, n, c)), n, item, isLast)
    ensures Moved(s.list, s.taps[n].checkpoint, c.checkpoint) == TapAt(s, n, c).list
    ensures Exact(s) ==> Exact(TapAt(s, n, c))
  {
    hide ListOk, IndexOk, RefsOk, Exact, Step, AtLastMutation;
    ConsistentCursors(s);
    TapAtConsistent(s, n, c);
    if Exact(s) {
      StepExact(s, n, c, item, isLast);
      TapAtExact(s, n, c);
    }
  }

  lemma StepExact(s: State, n: string, c: Cursor, item: Item, isLast: bool)
    requires Consistent(s) && Exact(s) && n in s.taps && StepDone(s.list, s.taps[n], c, item, isLast)
    ensures OffsetOk(AbsList(s.list), c)
  {
    hide ListOk, IndexOk, RefsOk, Tidy, Ahead, Flat, Behind, Step, AtLastMutation;
    var chks := AbsList(s.list);
    var t := Tap(AbsPos(s.taps[n]), s.taps[n].closedOnly);
    AheadStep(chks, t);
    OffsetAhead(chks, s.taps[n]);
    OffsetAhead(chks, c);
  }

  predicate Readable(chks: seq<Chk>, p: Pos) {
    PosOk(chks, p) && forall i :: 0 <= i < |chks| ==> chks[i].items != []
  }

  /** Where a read from `p` stops: in front of the barrier id, or at the very end. */
  function StopAt(chks: seq<Chk>, p: Pos, barrier: nat): Pos
    requires Readable(chks, p)
    decreases |chks| - p.chk
  {
    var c := chks[p.chk];
    if barrier > 0 && c.id >= barrier then p
    else if !c.open && p.chk + 1 < |chks| then StopAt(chks, Pos(p.chk + 1, 0), barrier)
    else Pos(p.chk, |c.items| - 1)
  }

  /** One turn of the reading loop. */
  lemma ReadStep(chks: seq<Chk>, p: Pos, barrier: nat, items: seq<Item>)
    requires Readable(chks, p)
    ensures var c := chks[p.chk];
            if barrier > 0 && c.id >= barrier then StopAt(chks, p, barrier) == p
            else if !c.open && p.chk + 1 < |chks| then
              var n := Pos(p.chk + 1, 0);
              && Readable(chks, n)
              && StopAt(chks, p, barrier) == StopAt(chks, n, barrier)
              && items + c.items[p.at + 1..] + Ahead(chks, n) == items + Ahead(chks, p)
            else
              var e := Pos(p.chk, |c.items| - 1);
              && Readable(chks, e) && StopAt(chks, p, barrier) == e
              && items + c.items[p.at + 1..] + Ahead(chks, e) == items + Ahead(chks, p)
  {
    hide Ahead, Flat;
    ReadOut(chks, p, items);
    if p.chk + 1 < |chks| {
      HopAhead(chks, Pos(p.chk, |chks[p.chk].items| - 1));
    }
  }

  lemma MovedAbs(l: seq<Checkpoint>, a: nat, b: nat, i: nat)
    requires a < |l| && b < |l| && i < |l|
    ensures |Moved(l, a, b)| == |l|
    ensures AbsChk(Moved(l, a, b)[i]) == AbsList(l)[i]
    ensures AbsChk(l[i]) == AbsList(l)[i]
  {
  }

  lemma ReadOut(chks: seq<Chk>, p: Pos, items: seq<Item>)
    requires PosOk(chks, p)
    ensures var s := chks[p.chk].items; var e := Pos(p.chk, |s| - 1);
            items + Ahead(chks, p) == items + s[p.at + 1..] + Ahead(chks, e)
  {
    hide Flat;
    var s := chks[p.chk].items;
    assert s[|s|..] == [];
    assert Ahead(chks, Pos(p.chk, |s| - 1)) == Flat(chks[p.chk + 1..]);
    Assoc(items, s[p.at + 1..], Flat(chks[p.chk + 1..]));
  }

  lemma HopAhead(chks: seq<Chk>, p: Pos)
    requires PosOk(chks, p) && p.at + 1 == |chks[p.chk].items| && p.chk + 1 < |chks| && chks[p.chk + 1].items != []
    ensures PosOk(chks, Pos(p.chk + 1, 0)) && Ahead(chks, Pos(p.chk + 1, 0)) == Ahead(chks, p)
  {
    hide Flat;
    FlatFrom(chks, p.chk + 1);
  }

  lemma LastOpen(s: State)
    requires Consistent(s)
    ensures s.list != [] && Abstract(s).chks != [] && Indexed(s.list, s.mutationCounter)
    ensures Last(Abstract(s).chks).open <==> s.list[|s.list| - 1].state.Opened?
  {
    hide ListOk, IndexOk, RefsOk;
  }

  /** The counter of the last checkpoint tells whether it is full. */
  lemma LastFull(s: State, maxItems: nat, elapsed: bool)
    requires Consistent(s)
    ensures s.list != [] && Abstract(s).chks != []
    ensures var n := s.list[|s.list| - 1].numItems;
            Full(Last(Abstract(s).chks), maxItems, elapsed) <==> n >= maxItems || (n > 0 && elapsed)
  {
    hide WF, RefsOk, IndexOk;
    LastOpen(s);
    CountsKeys(s.list[|s.list| - 1], s.mutationCounter);
  }

  /** Closing a checkpoint and adding another leaves its keys alone. */
  lemma RolloverKeys(q: Queue)
    requires q.chks != []
    ensures var n := |q.chks|; var chks' := Rollover(q).chks;
            |chks'| == n + 1 && KeySet(chks'[n - 1].items) == KeySet(Last(q.chks).items)
  {
    var c := Last(q.chks);
    assert Rollover(q).chks[|q.chks| - 1] == Close(c);
    var s, s' := c.items, Close(c).items;
    forall k | k in KeySet(s) ensures k in KeySet(s') {
      var i :| 0 <= i < |s| && s[i].key != "" && s[i].key == k;
      assert s'[i] == s[i];
    }
  }

  /** A write opens a checkpoint exactly where the limits ask for one, and none beyond `maxChk`. */
  lemma WriteLength(q: Queue, x: Item, active: bool, inconsistentSlave: bool, elapsed: bool, maxItems: nat, maxChk: nat)
    requires q.chks != []
    ensures Write(q, x).chks != []
    ensures var roll := active && !inconsistentSlave && |q.chks| < maxChk
                        && Full(Last(Write(q, x).chks), maxItems, elapsed);
            var n, chks' := |q.chks|, UnifiedQueue.QueueDirty(q, x, active, roll).chks;
            && n <= |chks'| <= n + 1
            && (active || Last(q.chks).open ==>
                  var keys := |KeySet(chks'[n - 1].items)|;
                  |chks'| == n + 1 <==>
                  active && !inconsistentSlave && n < maxChk && (keys >= maxItems || (keys >= 1 && elapsed)))
  {
    hide Rollover, KeySet;
    RolloverKeys(Write(q, x));
  }

  /** An item is refused exactly by a closed last checkpoint of a vbucket that is not active. */
  lemma WriteLast(q: Queue, x: Item, active: bool, roll: bool)
    requires q.chks != [] && (active ==> Last(q.chks).open) && IsMutation(x)
    ensures var n, q' := |q.chks|, UnifiedQueue.QueueDirty(q, x, active, roll);
            if !active && !Last(q.chks).open then q' == q
            else && |q'.chks| >= n
                 && LastWritten(q'.chks[n - 1].items, x)
  {
    var w := Write(q, x);
    assert Last(w.chks).items[|Last(w.chks).items| - 1] == Stored(Last(q.chks).items, x);
    if roll && (active || Last(q.chks).open) {
      assert Rollover(w).chks[|q.chks| - 1] == Close(Last(w.chks));
    }
  }

  /** The item, but for its queueing time, is the last one in front of the end item, if there is one. */
  predicate LastWritten(s: seq<Item>, x: Item) {
    var k := if s != [] && s[|s| - 1].op == OpCheckpointEnd then |s| - 2 else |s| - 1;
    0 <= k && s[k] == x.(queuedTime := s[k].queuedTime)
  }

  lemma WriteKeeps(q: Queue, x: Item)
    requires q.chks != []
    ensures |Write(q, x).chks| == |q.chks|
  {
  }

  lemma AbsItems(s: State, i: nat)
    ensures |Abstract(s).chks| == |s.list| && (i < |s.list| ==> Abstract(s).chks[i].items == s.list[i].toWrite)
  {
  }

  function Backlog(numItems: int, offset: int): int {
    if numItems > offset then numItems - offset else 0
  }

  /** With exact counters the reported backlog is exactly what lies ahead of the persistence cursor. */
  lemma BacklogExact(s: State)
    requires Consistent(s) && Exact(s)
    ensures PosOk(AbsList(s.list), AbsPos(s.persist))
    ensures Backlog(s.numItems, s.persist.offset) == |Ahead(AbsList(s.list), AbsPos(s.persist))|
  {
    hide WF, IndexOk, RefsOk, Ahead, Flat, Behind, Tidy;
    OffsetAhead(AbsList(s.list), s.persist);
  }

  lemma BacklogGrowth(s: State, x: Item)
    requires Consistent(s) && Exact(s) && s.list[|s.list| - 1].state.Opened? && IsMutation(x) && x.key != ""
    ensures CursorsOk(s)
    ensures var s' := Queued(s, x);
            var q, q' := Abstract(s), Write(Abstract(s), x);
            && WF(q) && WF(q')
            && Backlog(s'.numItems, s'.persist.offset) ==
               Backlog(s.numItems, s.persist.offset) + One(!CopyAhead(q.chks, x.key, q.persist))
            && |Ahead(q'.chks, q'.persist)| ==
               |Ahead(q.chks, q.persist)| + One(!CopyAhead(q.chks, x.key, q.persist))
  {
    hide ListOk, IndexOk, RefsOk, Exact, Ahead, Flat, CopyAhead, Requeue, ShiftPos;
    ConsistentCursors(s);
    QueuedConsistent(s, x);
    QueuedExact(s, x);
    WriteLengths(s, x, s.persist);
    BacklogExact(s);
    BacklogExact(Queued(s, x));
    hide Queued;
  }

  lemma QueuedKeyless(s: State, x: Item)
    requires Consistent(s) && x.key == ""
    ensures CursorsOk(s) && Queued(s, x) == Marked(s, x)
  {
    hide WF, IndexOk, RefsOk, PosOk;
    QueuePre(s, x);
    NothingAdjusted(s.list[|s.list| - 1], |s.list| - 1, "", s.persist, s.taps);
    hide Adjusted;
  }

  lemma SealedTurned(s: State, id: nat)
    requires s.list != []
    ensures Turned(Sealed(s), id) == Turned(s, id)
    ensures |Sealed(s).list| == |s.list| && Sealed(s).list[|s.list| - 1].state.Closed?
  {
  }

  lemma RolledOver(s: State)
    requires Consistent(s)
    ensures s.list != [] && Abstract(s).chks != []
    ensures var t := Turned(s, s.list[|s.list| - 1].id + 1);
            Consistent(t) && Abstract(t) == Rollover(Abstract(s)) && (Exact(s) ==> Exact(t))
  {
    hide ListOk, IndexOk, RefsOk, Exact, AddNew, Turned;
    var id := s.list[|s.list| - 1].id + 1;
    TurnedConsistent(s, id);
    if Exact(s) {
      TurnedExact(s, id);
    }
  }

  /** A cursor after the shift the code makes, before the erasure renumbers it. */
  function Shifted(c: Checkpoint, li: nat, k: Key, cur: Cursor, clamp: bool): Cursor
    requires k in c.keyIndex && (cur.checkpoint == li ==> cur.pos < |c.toWrite|)
  {
    if cur.checkpoint != li then cur
    else cur.(pos := if cur.pos == c.keyIndex[k].position && cur.pos > 0 then cur.pos - 1 else cur.pos,
              offset := if NotAfter(c, k, cur.pos) then Decr(cur.offset, 1, clamp) else cur.offset)
  }

  /** Erasing node `i` of checkpoint `li` moves every later node one index down. */
  function Renumbered(cur: Cursor, li: nat, i: nat): Cursor {
    if cur.checkpoint == li && cur.pos > i then cur.(pos := cur.pos - 1) else cur
  }

  lemma NothingAdjusted(c: Checkpoint, li: nat, k: Key, persist: Cursor, taps: map<string, Cursor>)
    requires k !in c.keyIndex
    requires persist.checkpoint == li ==> persist.pos < |c.toWrite|
    requires forall n :: n in taps && taps[n].checkpoint == li ==> taps[n].pos < |c.toWrite|
    ensures Adjusted(c, li, k, persist, true) == persist && AdjustedTaps(c, li, k, taps) == taps
  {
  }

  lemma QueuePre(s: State, x: Item)
    requires Consistent(s)
    ensures s.list != [] && CursorsOk(s)
    ensures var c := s.list[|s.list| - 1];
            x.key in c.keyIndex ==> 0 < c.keyIndex[x.key].position < |c.toWrite| && x.key != ""
    ensures s.persist.checkpoint == |s.list| - 1 ==> s.persist.pos < |s.list[|s.list| - 1].toWrite|
    ensures forall n :: n in s.taps && s.taps[n].checkpoint == |s.list| - 1 ==>
            s.taps[n].pos < |s.list[|s.list| - 1].toWrite|
  {
    hide RefsOk, IndexComplete, IndexOrdered, KeysCounted;
    ConsistentCursors(s);
    LastChkOk(s);
    hide ListOk;
  }

  lemma StartedOk(s: State, id: nat)
    requires s == State([NewCheckpoint(id).(referenceCounter := 1)], 1, 2, Cursor(0, 0, 0, false), map[], None)
    ensures Consistent(s) && Exact(s)
    ensures Abstract(s) == Queue([NewChk(id)], Pos(0, 0), map[], None)
  {
    hide ChkOk, IndexOk, Tidy, Flat, AbsList;
    NewIndex(id, 2);
    NewOk(id);
    SameIndex(NewCheckpoint(id), s.list[0], 2);
    AbsSingle(s.list[0]);
    FlatOne(NewChk(id));
    assert NamesAt(s.taps, 0) == {};
    assert [NewChk(id)][..0] == [];
    FlatEmpty();
    assert AbsTaps(map[]) == map[];
  }
}
