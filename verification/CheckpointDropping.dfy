/** Dropping checkpoints: the unreferenced prefix, a rolled-back suffix, or everything; and online update. */
module CheckpointDropping {
  import opened Items
  import opened UnifiedQueue
  import opened Pending
  import opened CheckpointState
  import opened CheckpointRefinement

  // ---------------------------------------------------------------- the unreferenced prefix

  /** What the remover counts for closed checkpoints: their items plus start and end. */
  function Unreferenced(l: seq<Checkpoint>): nat {
    if l == [] then 0 else Unreferenced(l[..|l| - 1]) + l[|l| - 1].numItems + 2
  }

  lemma {:induction false} UnreferencedFlat(l: seq<Checkpoint>)
    requires forall i :: 0 <= i < |l| ==> Tidy(l[i]) && l[i].state.Closed?
    ensures Unreferenced(l) == |Flat(AbsList(l))|
  {
    if l != [] {
      var m := |l| - 1;
      UnreferencedFlat(l[..m]);
      FlatUpdateLast(AbsList(l), AbsList(l)[m]);
      AbsSlice(l, 0, m);
      assert l[..m] == l[0..m] && AbsList(l)[..m] == AbsList(l)[0..m];
    }
  }

  /** The keys of the checkpoints, and a start and an end item for each. */
  function KeysAndMarkers(chks: seq<Chk>): nat {
    if chks == [] then 0 else KeysAndMarkers(chks[..|chks| - 1]) + |KeySet(Last(chks).items)| + 2
  }

  lemma {:induction false} UnreferencedKeys(l: seq<Checkpoint>, counter: nat)
    requires Indexed(l, counter)
    ensures Unreferenced(l) == KeysAndMarkers(AbsList(l))
  {
    if l != [] {
      hide IndexOk;
      var m := |l| - 1;
      UnreferencedKeys(l[..m], counter);
      CountsKeys(l[m], counter);
      assert AbsList(l)[..m] == AbsList(l[..m]);
    }
  }

  /** What the remover reports: the items in the checkpoints that it freed, from the front of `before`. */
  ghost predicate Freed(before: seq<Chk>, after: seq<Chk>, numUnref: nat, exact: bool) {
    && |after| <= |before| && after == before[|before| - |after|..]
    && var freed := before[..|before| - |after|];
       numUnref == KeysAndMarkers(freed) && (exact ==> numUnref == |Flat(freed)|)
  }

  /** A reference counter is positive just when some cursor is in the checkpoint. */
  lemma RefsReferenced(s: State, i: nat)
    requires RefsOk(s) && i < |s.list|
    ensures s.list[i].referenceCounter > 0 <==> Referenced(Abstract(s), i)
  {
    var q := Abstract(s);
    if n :| n in s.taps && s.taps[n].checkpoint == i {
      assert n in NamesAt(s.taps, i);
      assert n in q.taps && q.taps[n].pos.chk == i;
    } else {
      assert NamesAt(s.taps, i) == {};
    }
  }

  function DroppedCursor(c: Cursor, n: nat, k: int, clamp: bool): Cursor {
    c.(checkpoint := if n <= c.checkpoint then c.checkpoint - n else c.checkpoint, offset := Decr(c.offset, k, clamp))
  }

  /** The state without its first `n` checkpoints, counters lowered by `k`. */
  function Dropped(s: State, n: nat, k: int): State
    requires n <= |s.list|
  {
    State(s.list[n..], s.numItems - k, s.mutationCounter,
          DroppedCursor(s.persist, n, k, true),
          map m | m in s.taps :: DroppedCursor(s.taps[m], n, k, false),
          match s.online case Some(b) => Some(if n <= b then b - n else b) case None => None)
  }

  ghost predicate AllFrom(s: State, n: nat) {
    && n <= s.persist.checkpoint
    && (forall m :: m in s.taps ==> n <= s.taps[m].checkpoint)
    && (s.online.Some? ==> n <= s.online.value)
  }

  lemma NamesDropped(taps: map<string, Cursor>, n: nat, k: int, i: nat)
    requires forall m :: m in taps ==> n <= taps[m].checkpoint
    ensures NamesAt(map m | m in taps :: DroppedCursor(taps[m], n, k, false), i) == NamesAt(taps, n + i)
  {
  }

  lemma DroppedRefs(s: State, n: nat, k: int)
    requires RefsOk(s) && AllFrom(s, n) && n <= |s.list|
    ensures RefsOk(Dropped(s, n, k))
  {
    var t := Dropped(s, n, k);
    forall i | 0 <= i < |t.list|
      ensures t.list[i].referenceCounter == CursorsAt(i, t.persist.checkpoint, t.taps, t.online)
    {
      NamesDropped(s.taps, n, k, i);
      hide NamesAt;
      assert t.list[i] == s.list[n + i];
    }
  }

  lemma DroppedAbs(s: State, n: nat, k: int)
    requires n <= |s.list|
    ensures Abstract(Dropped(s, n, k)) == Drop(Abstract(s), n)
  {
    hide AbsList, Decr;
    AbsSlice(s.list, n, |s.list|);
    assert s.list[n..|s.list|] == s.list[n..];
    var a, b := Abstract(Dropped(s, n, k)), Drop(Abstract(s), n);
    assert AbsList(s.list)[n..|s.list|] == AbsList(s.list)[n..];
    assert a.taps.Keys == s.taps.Keys == b.taps.Keys;
    forall m | m in s.taps ensures a.taps[m] == b.taps[m] {
    }
  }

  lemma DroppedConsistent(s: State, n: nat, k: int)
    requires Consistent(s) && AllFrom(s, n) && n <= |s.list|
    requires WF(Drop(Abstract(s), n))
    ensures Consistent(Dropped(s, n, k))
  {
    hide ListOk, IndexOk, RefsOk, Decr;
    DroppedAbs(s, n, k);
    hide AbsList;
    DroppedRefs(s, n, k);
    hide Drop, WF;
  }

  lemma DroppedCursorExact(s: State, n: nat, c: Cursor, clamp: bool)
    requires n <= c.checkpoint && OffsetOk(AbsList(s.list), c)
    ensures var chks := AbsList(s.list);
            n <= |chks| && OffsetOk(chks[n..], DroppedCursor(c, n, |Flat(chks[..n])|, clamp))
  {
    hide Flat, Ahead, Behind;
    var chks := AbsList(s.list);
    var k := |Flat(chks[..n])|;
    var d := DroppedCursor(c, n, k, clamp);
    FlatConcat(chks[..n], chks[n..]);
    assert chks[..n] + chks[n..] == chks;
    AheadDrop(chks, n, AbsPos(c));
    OffsetAhead(chks, c);
    assert k <= c.offset by { BehindPrefix(chks, n, AbsPos(c)); }
    assert AbsPos(d) == DropPos(n, AbsPos(c));
    OffsetAhead(chks[n..], d);
  }

  /** Everything in front of a cursor's checkpoint has been passed. */
  lemma BehindPrefix(chks: seq<Chk>, n: nat, p: Pos)
    requires PosOk(chks, p) && n <= p.chk
    ensures |Flat(chks[..n])| <= |Behind(chks, p)|
  {
    hide Flat;
    assert chks[..p.chk] == chks[..n] + chks[n..p.chk];
    FlatConcat(chks[..n], chks[n..p.chk]);
  }

  lemma DroppedExact(s: State, n: nat)
    requires Consistent(s) && Exact(s) && AllFrom(s, n) && n <= |s.list|
    ensures Exact(Dropped(s, n, |Flat(AbsList(s.list)[..n])|))
  {
    hide Flat, OffsetOk, Tidy, ListOk, IndexOk, RefsOk;
    var chks := AbsList(s.list);
    var k := |Flat(chks[..n])|;
    DroppedAbs(s, n, k);
    FlatConcat(chks[..n], chks[n..]);
    assert chks[..n] + chks[n..] == chks;
    DroppedCursorExact(s, n, s.persist, true);
    forall m | m in s.taps ensures OffsetOk(chks[n..], DroppedCursor(s.taps[m], n, k, false)) {
      DroppedCursorExact(s, n, s.taps[m], false);
    }
    hide DroppedCursor;
    var t := Dropped(s, n, k);
    assert forall i :: 0 <= i < |t.list| ==> t.list[i] == s.list[n + i];
  }

  // ---------------------------------------------------------------- hopping out of a finished checkpoint

  function HoppedCursor(l: seq<Checkpoint>, c: nat, cur: Cursor): Cursor {
    if cur.checkpoint == c && c + 1 < |l| && cur.pos + 1 == |l[c].toWrite| then cur.(checkpoint := c + 1, pos := 0)
    else cur
  }

  lemma HoppedAbs(s: State, c: nat, cur: Cursor)
    ensures AbsPos(HoppedCursor(s.list, c, cur)) == HopPos(AbsList(s.list), c, AbsPos(cur))
  {
  }

  /** A hop passes nothing, so the offset stays as it is. */
  lemma HoppedExact(chks: seq<Chk>, l: seq<Checkpoint>, c: nat, cur: Cursor)
    requires chks == AbsList(l) && OffsetOk(chks, cur)
    requires forall i :: 0 <= i < |chks| ==> chks[i].items != []
    ensures OffsetOk(chks, HoppedCursor(l, c, cur))
  {
    hide Flat, Ahead, Behind;
    AheadHop(chks, c, AbsPos(cur));
    OffsetAhead(chks, cur);
    OffsetAhead(chks, HoppedCursor(l, c, cur));
  }

  // ---------------------------------------------------------------- a rolled-back suffix

  /** What rollback subtracts for the dropped checkpoints. */
  function Discarded(l: seq<Checkpoint>): nat {
    if l == [] then 0
    else Discarded(l[..|l| - 1]) + l[|l| - 1].numItems + 1 + One(l[|l| - 1].state.Closed?)
  }

  lemma {:induction false} DiscardedFlat(l: seq<Checkpoint>)
    requires forall i :: 0 <= i < |l| ==> Tidy(l[i])
    ensures Discarded(l) == |Flat(AbsList(l))|
  {
    if l != [] {
      var m := |l| - 1;
      DiscardedFlat(l[..m]);
      FlatUpdateLast(AbsList(l), AbsList(l)[m]);
      AbsSlice(l, 0, m);
      assert l[..m] == l[0..m] && AbsList(l)[..m] == AbsList(l)[0..m];
    }
  }

  function RewoundCursor(c: Cursor, k: nat, offset: int): Cursor {
    if k <= c.checkpoint then Cursor(k, 0, offset, c.closedOnly) else c
  }

  /** The names of the cursors that sit in a dropped checkpoint. */
  function NamesFrom(taps: map<string, Cursor>, k: nat): set<string> {
    set n | n in taps && k <= taps[n].checkpoint
  }

  /** The state after checkpoints `k` onwards are replaced by a new one. */
  function RolledBack(s: State, id: nat, k: nat): State
    requires k <= |s.list|
  {
    var total := s.numItems - Discarded(s.list[k..]) + 1;
    var refs := One(k <= s.persist.checkpoint) + |NamesFrom(s.taps, k)|;
    State(s.list[..k] + [NewCheckpoint(id).(referenceCounter := refs)], total, s.mutationCounter + 2,
          RewoundCursor(s.persist, k, total - 1),
          map n | n in s.taps :: RewoundCursor(s.taps[n], k, total - 1),
          s.online)
  }

  lemma RolledBackRefs(s: State, id: nat, k: nat)
    requires Consistent(s) && s.online.None? && k < |s.list|
    ensures RefsOk(RolledBack(s, id, k))
  {
    hide ListOk, IndexOk, Discarded;
    ConsistentCursors(s);
    var t := RolledBack(s, id, k);
    forall i | 0 <= i < |t.list|
      ensures t.list[i].referenceCounter == CursorsAt(i, t.persist.checkpoint, t.taps, t.online)
    {
      NamesRewound(s.taps, t.taps, k, i);
      hide NamesAt, NamesFrom;
    }
  }

  lemma NamesRewound(taps: map<string, Cursor>, taps': map<string, Cursor>, k: nat, i: nat)
    requires taps'.Keys == taps.Keys && i <= k
    requires forall n :: n in taps ==> taps'[n].checkpoint == if k <= taps[n].checkpoint then k else taps[n].checkpoint
    ensures NamesAt(taps', i) == if i < k then NamesAt(taps, i) else NamesFrom(taps, k)
  {
  }

  lemma RolledBackAbs(s: State, id: nat, k: nat)
    requires Consistent(s) && k < |s.list| && KeepBelow(AbsList(s.list), id) == k
    requires id != 0 && s.list[|s.list| - 1].id != 0
    ensures Abstract(RolledBack(s, id, k)) == CheckAndAdd(Abstract(s), id)
  {
    hide IndexOk, RefsOk, ListOk, RewindPos, RolledBack, CheckAndAdd;
    RolledBackChks(s, id, k);
    RolledBackCursors(s, id, k);
    RollbackShape(Abstract(s), id);
  }

  lemma RollbackShape(q: Queue, id: nat)
    requires WF(q) && KeepBelow(q.chks, id) < |q.chks| && id != 0 && Last(q.chks).id != 0
    ensures var k := KeepBelow(q.chks, id);
            CheckAndAdd(q, id) == q.Reposition(q.chks[..k] + [NewChk(id)], p => RewindPos(k, p), q.barrier)
  {
    hide ChkOk;
    var k := KeepBelow(q.chks, id);
    assert CloseLast(q.chks[..k]) == q.chks[..k];
  }

  lemma RolledBackChks(s: State, id: nat, k: nat)
    requires k < |s.list|
    ensures AbsList(RolledBack(s, id, k).list) == AbsList(s.list)[..k] + [NewChk(id)]
  {
    hide Discarded, NamesFrom;
    var t := RolledBack(s, id, k);
    AbsSlice(s.list, 0, k);
    assert s.list[..k] == s.list[0..k];
    AbsConcat(s.list[..k], [t.list[k]]);
    AbsSingle(t.list[k]);
  }

  lemma RolledBackCursors(s: State, id: nat, k: nat)
    requires k < |s.list|
    ensures var t := RolledBack(s, id, k);
            && AbsPos(t.persist) == RewindPos(k, AbsPos(s.persist)) && t.online == s.online
            && AbsTaps(t.taps) ==
               map n | n in AbsTaps(s.taps) :: AbsTaps(s.taps)[n].(pos := RewindPos(k, AbsTaps(s.taps)[n].pos))
  {
    hide Discarded, NamesFrom;
  }

  lemma RolledBackConsistent(s: State, id: nat, k: nat)
    requires Consistent(s) && s.online.None? && k < |s.list| && KeepBelow(AbsList(s.list), id) == k
    requires id != 0 && s.list[|s.list| - 1].id != 0
    ensures Consistent(RolledBack(s, id, k))
    ensures Abstract(RolledBack(s, id, k)) == CheckAndAdd(Abstract(s), id)
  {
    hide ListOk, IndexOk, RefsOk, AbsList, KeepBelow;
    RolledBackAbs(s, id, k);
    RolledBackRefs(s, id, k);
    CheckAndAddWF(Abstract(s), id);
    var t := RolledBack(s, id, k);
    IndexedLater(s.list, s.mutationCounter, t.mutationCounter);
    assert IndexOk(t.list[k], t.mutationCounter) by {
      NewIndex(id, t.mutationCounter);
      SameIndex(NewCheckpoint(id), t.list[k], t.mutationCounter);
    }
    hide WF, CheckAndAdd;
  }

  lemma RolledBackExact(s: State, id: nat, k: nat)
    requires Consistent(s) && Exact(s) && k < |s.list| && KeepBelow(AbsList(s.list), id) == k
    requires id != 0 && s.list[|s.list| - 1].id != 0
    ensures Exact(RolledBack(s, id, k))
  {
    hide ListOk, IndexOk, RefsOk, Tidy, Flat, OffsetOk, AbsList, NamesFrom;
    var chks := AbsList(s.list);
    var t := RolledBack(s, id, k);
    RolledBackChks(s, id, k);
    RolledBackTotal(s, id, k);
    hide Discarded;
    NewIndex(id, 0);
    SameIndex(NewCheckpoint(id), t.list[k], 0);
    RewoundExact(chks, id, k, s.persist);
    forall n | n in s.taps ensures OffsetOk(chks[..k] + [NewChk(id)], RewoundCursor(s.taps[n], k, t.numItems - 1)) {
      RewoundExact(chks, id, k, s.taps[n]);
    }
    hide RewoundCursor;
  }

  lemma RolledBackTotal(s: State, id: nat, k: nat)
    requires Exact(s) && k < |s.list|
    ensures var chks := AbsList(s.list);
            RolledBack(s, id, k).numItems == |Flat(chks[..k])| + 1 == |Flat(chks[..k] + [NewChk(id)])|
  {
    hide Tidy, Flat, OffsetOk, NamesFrom;
    var chks := AbsList(s.list);
    AbsSlice(s.list, k, |s.list|);
    assert s.list[k..] == s.list[k..|s.list|] && chks[k..] == chks[k..|chks|];
    assert chks == chks[..k] + chks[k..];
    FlatConcat(chks[..k], chks[k..]);
    DiscardedFlat(s.list[k..]);
    FlatConcat(chks[..k], [NewChk(id)]);
    FlatOne(NewChk(id));
  }

  lemma RewoundExact(chks: seq<Chk>, id: nat, k: nat, c: Cursor)
    requires OffsetOk(chks, c) && k < |chks|
    ensures OffsetOk(chks[..k] + [NewChk(id)], RewoundCursor(c, k, |Flat(chks[..k])|))
  {
    hide Flat;
    var chks' := chks[..k] + [NewChk(id)];
    if k <= c.checkpoint {
      assert chks'[..k] == chks[..k];
    } else {
      assert chks'[..c.checkpoint] == chks[..c.checkpoint];
    }
  }

  // ---------------------------------------------------------------- clearing

  function Cleared(s: State, active: bool): State {
    State([NewCheckpoint(if active then 1 else 0).(referenceCounter := 1 + |s.taps|)], 1, 2,
          Cursor(0, 0, 0, s.persist.closedOnly),
          map n | n in s.taps :: Cursor(0, 0, 0, s.taps[n].closedOnly),
          s.online)
  }

  lemma ClearedAbs(s: State, active: bool)
    ensures AbsList(Cleared(s, active).list) == [NewChk(if active then 1 else 0)]
    ensures Abstract(Cleared(s, active)) == Clear(Abstract(s), active)
  {
    AbsSingle(Cleared(s, active).list[0]);
    hide AbsList;
  }

  lemma ClearedConsistent(s: State, active: bool)
    requires s.online.None?
    ensures Consistent(Cleared(s, active)) && Exact(Cleared(s, active))
  {
    hide ChkOk, IndexOk, Tidy, AbsList, Flat, NamesAt;
    ClearedAbs(s, active);
    var id := if active then 1 else 0;
    var t := Cleared(s, active);
    NewIndex(id, 2);
    NewOk(id);
    SameIndex(NewCheckpoint(id), t.list[0], 2);
    FlatOne(NewChk(id));
    assert NamesAt(t.taps, 0) == s.taps.Keys by { NamesAll(t.taps); }
    assert forall c: Cursor :: c.checkpoint == 0 && c.pos == 0 && c.offset == 0 ==> OffsetOk([NewChk(id)], c) by {
      assert [NewChk(id)][..0] == [];
      FlatEmpty();
    }
    hide OffsetOk;
  }

  lemma NamesAll(taps: map<string, Cursor>)
    requires forall n :: n in taps ==> taps[n].checkpoint == 0
    ensures NamesAt(taps, 0) == taps.Keys
  {
  }

  lemma FlatEmpty()
    ensures Flat([]) == []
  {
  }

  // ---------------------------------------------------------------- online update

  /** The last checkpoint gets a control item. */
  function Marked(s: State, x: Item): State
    requires s.list != []
  {
    var li := |s.list| - 1;
    s.(list := s.list[li := s.list[li].(toWrite := s.list[li].toWrite + [x])],
       numItems := s.numItems + 1, mutationCounter := s.mutationCounter + 1)
  }

  lemma MarkedIndex(c: Checkpoint, counter: nat, x: Item)
    requires IndexOk(c, counter) && x.key == ""
    ensures IndexOk(c.(toWrite := c.toWrite + [x]), counter)
  {
  }

  lemma MarkedConsistent(s: State, x: Item)
    requires Consistent(s) && s.list[|s.list| - 1].state.Opened?
    requires x.key == "" && x.op != OpEmpty && x.op != OpCheckpointEnd
    ensures Consistent(Marked(s, x))
    ensures Abstract(Marked(s, x)) == AppendLast(Abstract(s), x)
  {
    hide ListOk, IndexOk, RefsOk;
    var li := |s.list| - 1;
    var t := Marked(s, x);
    AbsUpdate(s.list, li, t.list[li]);
    AppendWF(Abstract(s), x);
    IndexedLater(s.list, s.mutationCounter, t.mutationCounter);
    MarkedIndex(s.list[li], t.mutationCounter, x);
    RefsSame(s, t);
    hide WF;
  }

  /** The online-update cursor appears at checkpoint `b`, or goes away. */
  lemma OnlineRefs(s: State, t: State)
    requires Consistent(s)
    requires s.online.None? ==> t.online.Some? && t.online.value < |s.list| && t.list == IncrRef(s.list, t.online.value)
    requires s.online.Some? ==> s.online.value < |s.list| && t.online.None? && t.list == DecrRef(s.list, s.online.value)
    requires t.online.Some? ==> s.list[t.online.value].id > 0
    requires t.persist.checkpoint == s.persist.checkpoint && t.persist.pos == s.persist.pos
    requires AbsTaps(t.taps) == AbsTaps(s.taps) && t.mutationCounter == s.mutationCounter
    ensures Consistent(t)
    ensures Abstract(t) == Abstract(s).(barrier := t.online)
  {
    hide ListOk, IndexOk;
    OnlineSame(s, t);
    OnlineCounts(s, t);
    hide IncrRef, DecrRef, RefsOk;
    SameAbs(s.list, t.list, s.mutationCounter);
    hide SameButRefs, AbsTaps, PosOk, Tidy;
  }

  lemma OnlineSame(s: State, t: State)
    requires s.online.None? ==> t.online.Some? && t.online.value < |s.list| && t.list == IncrRef(s.list, t.online.value)
    requires s.online.Some? ==> s.online.value < |s.list| && t.online.None? && t.list == DecrRef(s.list, s.online.value)
    ensures SameButRefs(s.list, t.list)
  {
  }

  lemma OnlineCounts(s: State, t: State)
    requires RefsOk(s)
    requires s.online.None? ==> t.online.Some? && t.online.value < |s.list| && t.list == IncrRef(s.list, t.online.value)
    requires s.online.Some? ==> s.online.value < |s.list| && t.online.None? && t.list == DecrRef(s.list, s.online.value)
    requires t.persist.checkpoint == s.persist.checkpoint && AbsTaps(t.taps) == AbsTaps(s.taps)
    ensures RefsOk(t)
  {
    forall i | 0 <= i < |t.list|
      ensures t.list[i].referenceCounter == CursorsAt(i, t.persist.checkpoint, t.taps, t.online)
    {
      NamesFromAbs(s.taps, t.taps, i);
      hide NamesAt;
    }
  }

  lemma NamesFromAbs(a: map<string, Cursor>, b: map<string, Cursor>, i: nat)
    requires AbsTaps(a) == AbsTaps(b)
    ensures NamesAt(a, i) == NamesAt(b, i)
  {
    assert a.Keys == AbsTaps(a).Keys && b.Keys == AbsTaps(b).Keys;
    forall n | n in a ensures a[n].checkpoint == b[n].checkpoint {
      assert AbsTaps(a)[n] == AbsTaps(b)[n];
    }
  }
}
