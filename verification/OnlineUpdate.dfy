/**
 The online-update barrier: from the start of an online update until it stops, persistence is handed nothing
 that was queued after the start, and afterwards all of it is still ahead.
 */
module OnlineUpdate {
  import opened Items
  import opened UnifiedQueue
  import opened Pending
  import opened Runs
  import opened Delivery

  /** Persistence is in front of the barrier or exactly at its start. */
  predicate InFront(q: Queue) {
    q.barrier.Some? ==>
      q.persist.chk < q.barrier.value || q.persist == Pos(q.barrier.value, 0)
  }

  predicate Quiet(e: Event) {
    Concerns(e) && !e.OnlineStartEvent? && !e.OnlineStopEvent?
  }

  predicate BarrierLast(q: Queue) {
    q.barrier == Some(|q.chks| - 1)
  }

  /** The id of the barrier checkpoint after the event: its own, unless it is the last one and gets another. */
  function BarrierIdAfter(q: Queue, e: Event): nat
    requires WF(q) && q.barrier.Some?
  {
    match NewId(q, e)
    case Some(id) => if BarrierLast(q) then id else q.chks[q.barrier.value].id
    case None => q.chks[q.barrier.value].id
  }

  /** Writes, turnover, removal and new ids keep the barrier and everything in front of it. */
  lemma BarrierKept(q: Queue, e: Event)
    requires WF(q) && q.barrier.Some? && InFront(q) && Enabled(q, e) && Quiet(e) && !Discards(q, e)
    ensures WF(Apply(q, e)) && InFront(Apply(q, e))
    ensures var q' := Apply(q, e);
            && q'.barrier.Some? && Held(q') == Held(q)
            && PosAfter(q, e, Pos(q.barrier.value, 0)) == Pos(q'.barrier.value, 0)
            && q'.chks[q'.barrier.value].id == BarrierIdAfter(q, e)
            && (BarrierLast(q') <==> BarrierLast(q) && !Opens(q, e))
  {
    hide ListOk, Ahead, Flat, FirstReferenced;
    ApplyWF(q, e);
    match e {
      case Put(x, active, roll) => BarrierPut(q, x, active, roll);
      case RemoveClosed(create) => BarrierTrim(q, create);
      case Roll => BarrierTurn(q, Last(q.chks).id + 1);
      case CloseId(id) => BarrierClose(q, id);
      case CheckpointStart(id) => BarrierStart(q, id);
      case SetId(id) => BarrierRename(q, id);
    }
  }

  lemma BarrierStart(q: Queue, id: nat)
    requires WF(q) && q.barrier.Some? && InFront(q) && !RollsBack(q, id)
    ensures var q' := CheckAndAdd(q, id); var b := q.barrier.value;
            && q' == q.(chks := q'.chks) && b < |q'.chks| && q'.chks[..b] == q.chks[..b]
                && q'.chks[b].id == q.chks[b].id
            && |q'.chks| == |q.chks| + (if id == 0 then 0 else 1) && Last(q.chks).id != 0
  {
    if Last(q.chks).id == 0 {
      LastIdZero(q);
    }
    hide ListOk;
    BarrierTurn(q, id);
    AddNewAt(q.chks, id);
  }

  lemma BarrierRename(q: Queue, id: nat)
    requires WF(q) && q.barrier.Some?
    ensures var q' := Rename(q, id); var b := q.barrier.value;
            && q' == q.(chks := q'.chks) && |q'.chks| == |q.chks| && q'.chks[..b] == q.chks[..b]
            && q'.chks[b].id == if b == |q.chks| - 1 then id else q.chks[b].id
  {
    hide ListOk;
    ItemsOk(q);
  }

  lemma BarrierTurn(q: Queue, id: nat)
    requires WF(q) && q.barrier.Some? && InFront(q)
    ensures var cs := AddNew(q.chks, id); var b := q.barrier.value;
            |cs| == |q.chks| + 1 && cs[..b] == q.chks[..b] && cs[b].id == q.chks[b].id
  {
    hide ListOk;
    AddNewAt(q.chks, id);
  }

  lemma BarrierClose(q: Queue, id: nat)
    requires WF(q) && q.barrier.Some?
    ensures var cs := CloseOpen(q, id).chks; var b := q.barrier.value;
            cs[..b] == q.chks[..b] && cs[b].id == q.chks[b].id
  {
    hide ListOk;
  }

  lemma BarrierPut(q: Queue, x: Item, active: bool, roll: bool)
    requires WF(q) && q.barrier.Some? && InFront(q) && IsMutation(x) && (active ==> Last(q.chks).open)
    ensures var q' := QueueDirty(q, x, active, roll); var b := q.barrier.value;
            && q'.persist == q.persist && q'.barrier == q.barrier
            && ShiftPos(q.chks, x.key, Pos(b, 0)) == Pos(b, 0)
            && q'.chks[..b] == q.chks[..b] && q'.chks[b].id == q.chks[b].id
            && |q'.chks| == |q.chks| + (if Accepts(q, active) && roll then 1 else 0)
  {
    hide ListOk, Requeue;
    if Accepts(q, active) {
      WriteWF(q, x);
      BarrierTurn(Write(q, x), Last(q.chks).id + 1);
    }
  }

  lemma BarrierPre(q: Queue, create: bool)
    requires WF(q) && q.barrier.Some? && InFront(q)
    ensures var q2 := PreTrim(q, create); var b := q.barrier.value;
            && q2.persist == q.persist && q2.barrier == q.barrier && b < |q2.chks|
            && |q2.chks| == |q.chks| + (if create then 1 else 0)
            && PrePos(q, create, Pos(b, 0)) == Pos(b, 0)
            && q2.chks[..b] == q.chks[..b] && q2.chks[b].id == q.chks[b].id
  {
    ItemsOk(q);
    hide ListOk;
    if create {
      BarrierTurn(q, Last(q.chks).id + 1);
      AddNewAt(q.chks, Last(q.chks).id + 1);
    }
  }

  lemma BarrierTrim(q: Queue, create: bool)
    requires WF(q) && q.barrier.Some? && InFront(q)
    ensures var q' := Trim(q, create);
            && WF(q') && q'.barrier.Some? && InFront(q') && Held(q') == Held(q)
            && PosAfter(q, RemoveClosed(create), Pos(q.barrier.value, 0)) == Pos(q'.barrier.value, 0)
            && q'.chks[q'.barrier.value].id == q.chks[q.barrier.value].id
            && (BarrierLast(q') <==> BarrierLast(q) && !create)
  {
    hide ListOk, Ahead, PreTrim, FirstReferenced, PrePos, Referenced;
    TrimWF(q, create);
    PreTrimWF(q, create);
    BarrierPre(q, create);
    var q2 := PreTrim(q, create);
    FirstReferencedBounds(q2);
    HeldDrop(q2, FirstReferenced(q2, 0));
    hide Held;
    assert Held(q2) == Held(q) by { HeldFront(q, q2); }
  }

  lemma HeldFront(q: Queue, q2: Queue)
    requires WF(q) && WF(q2) && q.barrier.Some? && q2.barrier == q.barrier && q2.persist == q.persist
    requires q2.chks[..q.barrier.value] == q.chks[..q.barrier.value]
    ensures Held(q2) == Held(q)
  {
    hide ListOk, Ahead;
  }

  lemma HeldDrop(q: Queue, n: nat)
    requires WF(q) && q.barrier.Some? && InFront(q) && n <= q.persist.chk && n <= q.barrier.value
    requires WF(Drop(q, n))
    ensures InFront(Drop(q, n)) && Held(Drop(q, n)) == Held(q)
    ensures Drop(q, n).chks[q.barrier.value - n] == q.chks[q.barrier.value]
  {
    hide ListOk, Ahead, Flat;
    var b := q.barrier.value;
    assert q.chks[n..][..b - n] == q.chks[..b][n..];
    if q.persist.chk < b {
      AheadDrop(q.chks[..b], n, q.persist);
    }
  }

  // ---------------------------------------------------------------- the invariant

  ghost predicate Barred(h: History) {
    && WF(h.q) && InFront(h.q)
    && (h.q.barrier.Some? ==>
          && h.since <= h.heldAt <= |h.accepted|
          && h.drawn + Held(h.q) == h.held
          && Latest(h.held) == Latest(h.base + h.accepted[h.since..h.heldAt])
          && Latest(Ahead(h.q.chks, Pos(h.q.barrier.value, 0))) == Latest(h.accepted[h.heldAt..]))
  }

  lemma BarredQuiet(h: History, e: Event)
    requires Barred(h) && Enabled(h.q, e) && !Discards(h.q, e) && Quiet(e)
    ensures Barred(Next(h, e))
  {
    hide ListOk, Ahead, Flat, Latest, Apply, PosAfter, Next, Held, ClosedBy;
    NextConcerns(h, e);
    NextHeld(h, e);
    var h' := Next(h, e);
    if h.q.barrier.Some? {
      var b := Pos(h.q.barrier.value, 0);
      BarrierKept(h.q, e);
      assert PosOk(h.q.chks, b) by { ItemsOk(h.q); }
      EventLatest(h.q, e, b);
      assert h'.accepted[h.since..h.heldAt] == h.accepted[h.since..h.heldAt];
      match Accepted(h.q, e) {
        case Some(y) =>
          StoredMutation(Last(h.q.chks).items, e.x);
          assert h'.accepted[h.heldAt..] == h.accepted[h.heldAt..] + [y];
          LatestAppend(h.accepted[h.heldAt..], y);
        case None => assert h'.accepted == h.accepted;
      }
    } else {
      BarrierNone(h.q, e);
    }
  }

  lemma NextHeld(h: History, e: Event)
    requires WF(h.q) && Enabled(h.q, e) && !Discards(h.q, e) && !(e.OnlineStartEvent? && h.q.barrier.None?)
    ensures Next(h, e).held == h.held && Next(h, e).heldAt == h.heldAt
    ensures Next(h, e).base == h.base && Next(h, e).since == h.since
  {
    hide ListOk, Apply, Closing, Stored, Tail;
    ApplyWF(h.q, e);
  }

  lemma BarrierNone(q: Queue, e: Event)
    requires WF(q) && q.barrier.None? && Enabled(q, e) && Quiet(e)
    ensures Apply(q, e).barrier.None?
  {
    hide ListOk, FirstReferenced, AddNew;
  }

  lemma BarredPersist(h: History)
    requires Barred(h)
    ensures Barred(Next(h, Persist))
  {
    hide ListOk, Ahead, Flat, Latest;
    ApplyWF(h.q, Persist);
    if h.q.barrier.Some? {
      assert Drawn(h.q) == Held(h.q);
      assert (h.drawn + Held(h.q)) + [] == h.held;
    }
  }

  lemma BarredRead(h: History, e: Event)
    requires Barred(h) && h.logs.Keys == h.q.taps.Keys
    requires e.TapNext? || e.TapAll? || e.TapBackOff? || e.TapRegister? || e.TapRemove?
    ensures Barred(Next(h, e))
  {
    hide ListOk, Ahead, Next, InFront, Held;
    if e.TapRegister? || e.TapRemove? {
      RegistrationOthers(h, e);
    } else {
      TapReadOthers(h, e, e.name);
    }
    NextHeld(h, e);
    BarredSame(h, Next(h, e));
  }

  lemma RegistrationOthers(h: History, e: Event)
    requires WF(h.q) && (e.TapRegister? || e.TapRemove?)
    ensures var h' := Next(h, e);
            && WF(h'.q) && h'.q == h.q.(taps := h'.q.taps)
            && h'.accepted == h.accepted && h'.drawn == h.drawn
  {
    hide ListOk, Ahead, ClosedAhead, RegisterPos;
    ApplyWF(h.q, e);
  }

  lemma BarredSame(h: History, h': History)
    requires Barred(h) && WF(h'.q)
    requires h'.q.chks == h.q.chks && h'.q.persist == h.q.persist && h'.q.barrier == h.q.barrier
    requires h'.accepted == h.accepted && h'.drawn == h.drawn && h'.base == h.base && h'.since == h.since
    requires h'.held == h.held && h'.heldAt == h.heldAt
    ensures Barred(h')
  {
    hide ListOk, Ahead, Latest;
  }

  lemma BarredStart(h: History)
    requires Barred(h) && PersistenceCaught(h)
    ensures Barred(Next(h, OnlineStartEvent))
  {
    hide ListOk, Ahead, Flat, Latest, AddNew, Closing, Caught;
    ApplyWF(h.q, OnlineStartEvent);
    var h' := Next(h, OnlineStartEvent);
    if h.q.barrier.None? {
      var b := |h.q.chks|;
      StartFacts(h.q);
      var n := |h.accepted|;
      assert h'.accepted[h.since..n] == h.accepted[h.since..] && h'.accepted[n..] == [];
      HeldAtStart(h.q, h.drawn);
      assert Latest([]) == map[] by { LatestMeta([]); }
      PersistenceEvent(h, OnlineStartEvent);
      assert Caught(h.drawn, Ahead(h'.q.chks, h'.q.persist), h.base, h.accepted[h.since..]);
      CaughtLatest(h.drawn, Ahead(h'.q.chks, h'.q.persist), h.base, h.accepted[h.since..]);
    }
  }

  lemma CaughtLatest(done: seq<Item>, ahead: seq<Item>, base: seq<Item>, acc: seq<Item>)
    requires Caught(done, ahead, base, acc)
    ensures Latest(done + ahead) == Latest(base + acc)
  {
  }

  /** The barrier checkpoint as it is created. */
  lemma StartFacts(q: Queue)
    requires WF(q) && q.barrier.None?
    ensures var q' := StartOnline(q); var b := |q.chks|;
            && WF(q') && q'.barrier == Some(b) && q'.persist == q.persist && |q'.chks| == b + 1
            && q'.chks[b].items == [Dummy, StartItem(Last(q.chks).id + 1), OnlineStart]
            && q'.chks[b].id == Last(q.chks).id + 1
  {
    hide ListOk;
    StartOnlineWF(q);
    AddNewAt(q.chks, Last(q.chks).id + 1);
  }

  lemma HeldAtStart(q: Queue, drawn: seq<Item>)
    requires WF(q) && q.barrier.None?
    ensures var q' := StartOnline(q); var b := |q.chks|;
            && WF(q') && q'.barrier == Some(b) && PosOk(q'.chks, Pos(b, 0))
            && Latest(Ahead(q'.chks, Pos(b, 0))) == map[]
            && Latest(drawn + Held(q')) == Latest(drawn + Ahead(q'.chks, q'.persist))
  {
    hide ListOk, Ahead, Flat, StartOnline;
    StartFacts(q);
    var q' := StartOnline(q);
    var b := |q.chks|;
    AheadLast(q'.chks, Pos(b, 0));
    LatestMeta(Ahead(q'.chks, Pos(b, 0)));
    AheadTo(q'.chks, q'.persist, b);
    Assoc(drawn, Held(q'), Ahead(q'.chks, Pos(b, 0)));
    LatestConcat(drawn + Held(q'), Ahead(q'.chks, Pos(b, 0)));
  }

  lemma BarredStop(h: History)
    requires Barred(h) && Enabled(h.q, OnlineStopEvent)
    ensures Barred(Next(h, OnlineStopEvent))
  {
    hide ListOk, Ahead, Flat, Latest, AddNew, Closing;
    ApplyWF(h.q, OnlineStopEvent);
  }

  lemma BarredNext(h: History, e: Event)
    requires LastWriterWins(h) && Barred(h) && Enabled(h.q, e)
    ensures Barred(Next(h, e))
  {
    hide ListOk, Apply, ClosedBy, Held, Ahead, TapCaught, PersistenceCaught;
    ApplyWF(h.q, e);
    if Discards(h.q, e) {
      DiscardNone(h.q, e);
    } else if Quiet(e) {
      BarredQuiet(h, e);
    } else if e.Persist? {
      BarredPersist(h);
    } else if e.OnlineStartEvent? {
      BarredStart(h);
    } else if e.OnlineStopEvent? {
      BarredStop(h);
    } else {
      BarredRead(h, e);
    }
  }

  lemma DiscardNone(q: Queue, e: Event)
    requires WF(q) && Enabled(q, e) && Discards(q, e)
    ensures Apply(q, e).barrier.None?
  {
    hide ListOk, AddNew;
  }

  /**
   After the update stops, what persistence has still to read is what was held back in front of the
   barrier followed by the barrier checkpoint onwards, and that has the last mutation of every key
   mutated since the start.
   */
  lemma StopReleases(h: History)
    requires WF(h.q) && Barred(h) && h.q.barrier.Some? && Last(h.q.chks).open
    ensures var q' := StopOnline(h.q); var b := h.q.barrier.value;
            && PosOk(q'.chks, Pos(b, 0)) && PosOk(q'.chks, q'.persist)
            && Ahead(q'.chks, q'.persist) == Held(h.q) + Ahead(q'.chks, Pos(b, 0))
            && Latest(Ahead(q'.chks, Pos(b, 0))) == Latest(h.accepted[h.heldAt..])
  {
    hide ListOk, Ahead, Flat, Latest, StopOnline;
    var q' := StopOnline(h.q);
    var b := h.q.barrier.value;
    assert PosOk(h.q.chks, Pos(b, 0)) by { ItemsOk(h.q); }
    StopLatest(h.q, Pos(b, 0));
    StopLatest(h.q, h.q.persist);
    StopFront(h.q);
    if h.q.persist.chk < b {
      AheadTo(q'.chks, q'.persist, b);
    }
  }

  lemma StopFront(q: Queue)
    requires WF(q) && q.barrier.Some? && Last(q.chks).open
    ensures var q' := StopOnline(q); var b := q.barrier.value;
            b < |q'.chks| && q'.persist == q.persist && q'.chks[..b] == q.chks[..b]
  {
    hide ListOk;
    AddNewAt(AppendLast(q, OnlineEnd).chks, Last(AppendLast(q, OnlineEnd).chks).id + 1);
  }

  // ---------------------------------------------------------------- every run

  lemma InitBarred(id: nat)
    ensures WF(Init(id).q) && LastWriterWins(Init(id)) && Barred(Init(id))
  {
    hide Ahead, Flat, Latest;
    assert WF(Queue([NewChk(id)], Pos(0, 0), map[], None)) by { NewOk(id); }
    InitCaught(id);
  }

  lemma {:induction false} BarredRun(h: History, es: seq<Event>)
    requires LastWriterWins(h) && Barred(h) && IsRun(h, es)
    ensures LastWriterWins(Exec(h, es)) && Barred(Exec(h, es))
    decreases |es|
  {
    hide ListOk, TapCaught, PersistenceCaught, Next, Ascending, Held, Ahead, Latest;
    if es != [] {
      NextOk(h, es[0]);
      LastWriterWinsNext(h, es[0]);
      BarredNext(h, es[0]);
      BarredRun(Next(h, es[0]), es[1..]);
    }
  }

  /**
   In every run, at any moment during an online update: everything persistence was handed so far was
   queued in front of the barrier, and the items from the barrier on have the last mutation of every key
   mutated since the update started.
   */
  lemma BarrierHolds(id: nat, es: seq<Event>)
    requires WF(Init(id).q) && IsRun(Init(id), es) && Exec(Init(id), es).q.barrier.Some?
    ensures var h := Exec(Init(id), es); var b := h.q.barrier.value;
            && WF(h.q) && PosOk(h.q.chks, Pos(b, 0)) && h.since <= h.heldAt <= |h.accepted|
            && h.drawn <= h.held
            && Latest(h.held) == Latest(h.base + h.accepted[h.since..h.heldAt])
            && Latest(Ahead(h.q.chks, Pos(b, 0))) == Latest(h.accepted[h.heldAt..])
  {
    hide ListOk, Apply, Exec, IsRun, Ahead, Flat, Latest, TapCaught, PersistenceCaught;
    InitBarred(id);
    BarredRun(Init(id), es);
    ItemsOk(Exec(Init(id), es).q);
  }
}
