/**
 Closed-only TAP cursors: a cursor registered as closed-only at the start of a checkpoint and read by
 `nextItem` is sent, exactly once and in order, the final contents of successive closed checkpoints.
 */
module ClosedOnly {
  import opened Items
  import opened UnifiedQueue
  import opened Pending
  import opened Runs
  import opened Delivery

  /** Where a strict cursor may sit: anywhere in a closed checkpoint, else at the very start. */
  predicate Settled(chks: seq<Chk>, p: Pos) {
    PosOk(chks, p) && (p.at == 0 || p.chk < |ClosedPart(chks)|)
  }

  /** `nextItem` never hands a closed-only cursor an item of an open checkpoint. */
  lemma NeverFromOpen(chks: seq<Chk>, t: Tap)
    requires chks != [] && PosOk(chks, t.pos) && t.closedOnly
    requires forall i :: 0 <= i < |chks| ==> 2 <= |chks[i].items|
    requires Step(chks, t).1.Some?
    ensures var p' := Step(chks, t).0;
            !chks[p'.chk].open && Step(chks, t).1.value == chks[p'.chk].items[p'.at]
  {
  }

  lemma ClosedTurn(chks: seq<Chk>, id: nat, p: Pos)
    requires chks != [] && Settled(chks, p) && Last(chks).items != []
    ensures Settled(AddNew(chks, id), p)
    ensures ClosedAhead(AddNew(chks, id), p) == ClosedAhead(chks, p) + Closing(Last(chks))
  {
    hide Flat, Ahead;
    var k := |chks| - 1;
    AddNewAt(chks, id);
    assert ClosedPart(AddNew(chks, id)) == CloseLast(chks);
    if Last(chks).open {
      if p.chk < k {
        AheadSplit(chks, p, Close(Last(chks)));
      } else {
        AheadLast(CloseLast(chks), p);
      }
    } else {
      assert CloseLast(chks) == chks;
      assert ClosedAhead(chks, p) + [] == ClosedAhead(chks, p);
    }
  }

  lemma ClosedClose(chks: seq<Chk>, p: Pos)
    requires chks != [] && Settled(chks, p) && Last(chks).items != []
    ensures Settled(CloseLast(chks), p)
    ensures ClosedAhead(CloseLast(chks), p) == ClosedAhead(chks, p) + Closing(Last(chks))
  {
    hide Flat, Ahead;
    var k := |chks| - 1;
    assert ClosedPart(CloseLast(chks)) == CloseLast(chks);
    if Last(chks).open {
      if p.chk < k {
        AheadSplit(chks, p, Close(Last(chks)));
      } else {
        AheadLast(CloseLast(chks), p);
      }
    } else {
      assert CloseLast(chks) == chks;
      assert ClosedAhead(chks, p) + [] == ClosedAhead(chks, p);
    }
  }

  /** Changing the items of an open last checkpoint is invisible. */
  lemma ClosedUpdate(chks: seq<Chk>, c: Chk, p: Pos)
    requires chks != [] && Settled(chks, p) && Last(chks).open && c.open && c.items != []
    ensures Settled(chks[|chks| - 1 := c], p)
    ensures ClosedAhead(chks[|chks| - 1 := c], p) == ClosedAhead(chks, p)
  {
    hide Flat, Ahead;
    assert ClosedPart(chks[|chks| - 1 := c]) == ClosedPart(chks);
  }

  lemma ClosedDrop(chks: seq<Chk>, n: nat, p: Pos)
    requires Settled(chks, p) && n <= p.chk
    ensures Settled(chks[n..], DropPos(n, p))
    ensures ClosedAhead(chks[n..], DropPos(n, p)) == ClosedAhead(chks, p)
  {
    hide Flat, Ahead;
    var k := |chks| - 1;
    assert Last(chks[n..]) == Last(chks);
    assert Last(chks).open ==> chks[n..][..k - n] == chks[..k][n..];
    assert ClosedPart(chks[n..]) == ClosedPart(chks)[n..];
    if p.chk < |ClosedPart(chks)| {
      AheadDrop(ClosedPart(chks), n, p);
    }
  }

  /** Stepping from the end of the last closed checkpoint to the start of the open one. */
  lemma ClosedHop(chks: seq<Chk>, c: nat, p: Pos)
    requires Settled(chks, p) && |chks| == c + 2 && Last(chks).open && !chks[c].open && Last(chks).items != []
    ensures Settled(chks, HopPos(chks, c, p))
    ensures ClosedAhead(chks, HopPos(chks, c, p)) == ClosedAhead(chks, p)
  {
    if HopPos(chks, c, p) != p {
      AheadLast(ClosedPart(chks), p);
    }
  }

  lemma ClosedTrim(q: Queue, create: bool, p: Pos)
    requires WF(q) && IsCursor(q, p) && Settled(q.chks, p)
    ensures Settled(Trim(q, create).chks, PosAfter(q, RemoveClosed(create), p))
    ensures ClosedAhead(Trim(q, create).chks, PosAfter(q, RemoveClosed(create), p)) ==
            ClosedAhead(q.chks, p) + ClosedBy(q, RemoveClosed(create))
  {
    hide ListOk, Flat, Ahead, ClosedAhead, Settled, FirstReferenced, PrePos, ClosedBy;
    ClosedPre(q, create, p);
    TrimCursor(q, create, p);
    var q2 := PreTrim(q, create);
    ClosedDrop(q2.chks, FirstReferenced(q2, 0), PrePos(q, create, p));
  }

  lemma ClosedPre(q: Queue, create: bool, p: Pos)
    requires WF(q) && Settled(q.chks, p)
    ensures Settled(PreTrim(q, create).chks, PrePos(q, create, p))
    ensures ClosedAhead(PreTrim(q, create).chks, PrePos(q, create, p)) ==
            ClosedAhead(q.chks, p) + ClosedBy(q, RemoveClosed(create))
  {
    hide ListOk, Flat, Ahead, ClosedAhead, AddNew;
    ItemsOk(q);
    if create {
      var chks' := Rollover(q).chks;
      ClosedTurn(q.chks, Last(q.chks).id + 1, p);
      AddNewAt(q.chks, Last(q.chks).id + 1);
      ClosedHop(chks', |q.chks| - 1, p);
    } else {
      assert ClosedAhead(q.chks, p) + [] == ClosedAhead(q.chks, p);
    }
  }

  lemma ClosedPut(q: Queue, x: Item, active: bool, roll: bool, p: Pos)
    requires WF(q) && Settled(q.chks, p) && IsMutation(x) && Accepts(q, active) && (active ==> Last(q.chks).open)
    ensures var e := Put(x, active, roll);
            && Settled(QueueDirty(q, x, active, roll).chks, PosAfter(q, e, p))
            && ClosedAhead(QueueDirty(q, x, active, roll).chks, PosAfter(q, e, p)) ==
               ClosedAhead(q.chks, p) + ClosedBy(q, e)
  {
    hide ListOk, Flat, Ahead, ClosedAhead, AddNew, Requeue;
    WriteWF(q, x);
    ItemsOk(Write(q, x));
    assert ShiftPos(q.chks, x.key, p) == p;
    ClosedUpdate(q.chks, Last(Write(q, x).chks), p);
    if roll {
      ClosedTurn(Write(q, x).chks, Last(q.chks).id + 1, p);
    }
    assert ClosedAhead(q.chks, p) + [] == ClosedAhead(q.chks, p);
  }

  lemma ClosedOnline(q: Queue, e: Event, p: Pos)
    requires WF(q) && Settled(q.chks, p) && Enabled(q, e) && (e.OnlineStartEvent? || e.OnlineStopEvent?)
    ensures Settled(Apply(q, e).chks, p)
    ensures ClosedAhead(Apply(q, e).chks, p) == ClosedAhead(q.chks, p) + ClosedBy(q, e)
  {
    hide ListOk, Flat, Ahead, ClosedAhead, AddNew;
    ItemsOk(q);
    assert ClosedAhead(q.chks, p) + [] == ClosedAhead(q.chks, p);
    if e.OnlineStartEvent? && q.barrier.None? {
      ClosedTurn(q.chks, Last(q.chks).id + 1, p);
      AddNewAt(q.chks, Last(q.chks).id + 1);
      var chks' := Rollover(q).chks;
      ClosedUpdate(chks', Last(chks').(items := Last(chks').items + [OnlineStart]), p);
    } else if e.OnlineStopEvent? && q.barrier.Some? {
      var q1 := AppendLast(q, OnlineEnd);
      ClosedUpdate(q.chks, Last(q1.chks), p);
      ClosedTurn(q1.chks, Last(q1.chks).id + 1, p);
    }
  }

  lemma ClosedStart(q: Queue, id: nat, p: Pos)
    requires WF(q) && Settled(q.chks, p) && !RollsBack(q, id) && NewId(q, CheckpointStart(id)).None?
    ensures Settled(CheckAndAdd(q, id).chks, p)
    ensures ClosedAhead(CheckAndAdd(q, id).chks, p) == ClosedAhead(q.chks, p) + ClosedBy(q, CheckpointStart(id))
  {
    hide ListOk, Flat, Ahead, ClosedAhead, AddNew;
    ItemsOk(q);
    assert ClosedAhead(q.chks, p) + [] == ClosedAhead(q.chks, p);
    if id != 0 {
      ClosedTurn(q.chks, id, p);
    }
  }

  /** One event, one settled cursor: the closed items ahead grow by the checkpoint it closes. */
  lemma EventClosed(q: Queue, e: Event, p: Pos)
    requires WF(q) && Enabled(q, e) && !Discards(q, e) && Concerns(e) && NewId(q, e).None?
    requires Settled(q.chks, p) && IsCursor(q, p)
    ensures Settled(Apply(q, e).chks, PosAfter(q, e, p))
    ensures ClosedAhead(Apply(q, e).chks, PosAfter(q, e, p)) == ClosedAhead(q.chks, p) + ClosedBy(q, e)
  {
    hide ListOk, Flat, Ahead, ClosedAhead, AddNew, FirstReferenced, Closing;
    assert ClosedAhead(q.chks, p) + [] == ClosedAhead(q.chks, p);
    ItemsOk(q);
    match e {
      case Put(x, active, roll) => if Accepts(q, active) { ClosedPut(q, x, active, roll, p); }
      case RemoveClosed(create) => ClosedTrim(q, create, p);
      case Roll => ClosedTurn(q.chks, Last(q.chks).id + 1, p);
      case CloseId(id) => ClosedClose(q.chks, p);
      case CheckpointStart(id) => ClosedStart(q, id, p);
      case OnlineStartEvent => ClosedOnline(q, e, p);
      case OnlineStopEvent => ClosedOnline(q, e, p);
    }
  }

  /** The closed items ahead, once the last checkpoint has a new start item. */
  function Restarted(s: seq<Item>, c: Chk, id: nat): seq<Item> {
    var k := |s| - |Body(c)|;
    if !c.open && 0 <= k < |s| then s[k := StartItem(id)] else s
  }

  /** A new id changes exactly the start item, and only where it is still ahead in a closed checkpoint. */
  lemma ClosedRename(q: Queue, id: nat, p: Pos)
    requires WF(q) && Settled(q.chks, p)
    ensures Settled(Rename(q, id).chks, p)
    ensures ClosedAhead(Rename(q, id).chks, p) == Restarted(ClosedAhead(q.chks, p), Last(q.chks), id)
  {
    hide ListOk, Flat, Ahead;
    ItemsOk(q);
    var c, c', n := Last(q.chks), Last(Rename(q, id).chks), |q.chks|;
    if c.open {
      ClosedUpdate(q.chks, c', p);
    } else {
      assert ClosedPart(q.chks) == q.chks && ClosedPart(Rename(q, id).chks) == Rename(q, id).chks;
      assert Body(c') == Body(c)[0 := StartItem(id)];
      if p.chk < n - 1 {
        AheadSplit(q.chks, p, c');
      } else {
        AheadLast(q.chks, p);
        AheadLast(Rename(q, id).chks, p);
      }
    }
  }

  lemma RestartedLog(l: TapLog, rest: seq<Item>, c: Chk, id: nat)
    requires l.sent + rest == l.closed
    ensures l.sent + Restarted(rest, c, id) == RenameLog(l, c, id).closed
  {
  }

  lemma StepClosed(chks: seq<Chk>, t: Tap)
    requires chks != [] && Settled(chks, t.pos) && t.closedOnly
    requires forall i :: 0 <= i < |chks| ==> 2 <= |chks[i].items|
    requires forall i :: 0 <= i < |chks| - 1 ==> !chks[i].open
    ensures Settled(chks, Step(chks, t).0)
    ensures match Step(chks, t).1
            case Some(x) => ClosedAhead(chks, t.pos) == [x] + ClosedAhead(chks, Step(chks, t).0)
            case None => ClosedAhead(chks, t.pos) == ClosedAhead(chks, Step(chks, t).0)
  {
    hide Flat, Ahead;
    var p, cs := t.pos, ClosedPart(chks);
    if p.chk < |cs| {
      if p.at + 1 < |cs[p.chk].items| {
        StepIn(cs, p);
      } else if p.chk + 1 < |cs| {
        StepOver(cs, p);
      } else {
        AheadLast(cs, p);
      }
    }
  }

  ghost predicate StrictOk(h: History, n: string) {
    && WF(h.q) && n in h.q.taps && n in h.logs
    && (h.logs[n].strict ==>
          && h.q.taps[n].closedOnly
          && Settled(h.q.chks, h.q.taps[n].pos)
          && h.logs[n].sent + ClosedAhead(h.q.chks, h.q.taps[n].pos) == h.logs[n].closed)
  }

  ghost predicate AllStrict(h: History) {
    WF(h.q) && h.logs.Keys == h.q.taps.Keys && forall n :: n in h.q.taps ==> StrictOk(h, n)
  }

  lemma StrictEvent(h: History, e: Event, n: string)
    requires StrictOk(h, n) && Enabled(h.q, e) && !Discards(h.q, e) && Concerns(e)
    ensures StrictOk(Next(h, e), n)
  {
    hide ListOk, Ahead, Flat, ClosedAhead, Apply, PosAfter, Next, ClosedBy, Settled, RenameLog, Restarted;
    NextConcerns(h, e);
    LogFlags(h.logs[n], h.q, e);
    var h' := Next(h, e);
    EventCursors(h.q, e);
    var p, l := h.q.taps[n].pos, h.logs[n];
    if h'.logs[n].strict {
      assert IsCursor(h.q, p);
      if NewId(h.q, e).Some? {
        var id := NewId(h.q, e).value;
        RenameEvent(h.q, e, p);
        ClosedRename(h.q, id, p);
        RestartedLog(l, ClosedAhead(h.q.chks, p), Last(h.q.chks), id);
      } else {
        EventClosed(h.q, e, p);
        Assoc(l.sent, ClosedAhead(h.q.chks, p), ClosedBy(h.q, e));
      }
    }
  }

  lemma RenameEvent(q: Queue, e: Event, p: Pos)
    requires WF(q) && NewId(q, e).Some?
    ensures Apply(q, e) == Rename(q, NewId(q, e).value) && PosAfter(q, e, p) == p
  {
    hide ListOk;
  }

  lemma LogFlags(l: TapLog, q: Queue, e: Event)
    requires WF(q)
    ensures var l' := LogAfter(l, q, e); l'.strict == l.strict && l'.sent == l.sent
  {
    hide ListOk, ClosedBy;
  }

  lemma StrictNext(h: History, n: string)
    requires StrictOk(h, n) && h.logs.Keys == h.q.taps.Keys
    ensures StrictOk(Next(h, TapNext(n)), n)
  {
    hide ListOk, Ahead, Flat, ClosedAhead, Step, ClosedPart;
    ApplyWF(h.q, TapNext(n));
    if h.logs[n].strict {
      ItemsOk(h.q);
      assert forall i :: 0 <= i < |h.q.chks| - 1 ==> !h.q.chks[i].open by { ClosedButLast(h.q); }
      StepClosed(h.q.chks, h.q.taps[n]);
      var rest := ClosedAhead(h.q.chks, Step(h.q.chks, h.q.taps[n]).0);
      TakeSent(SentBy(h.q, n), ClosedAhead(h.q.chks, h.q.taps[n].pos), rest);
      Assoc(h.logs[n].sent, SentBy(h.q, n), rest);
    }
  }

  lemma ClosedButLast(q: Queue)
    requires WF(q)
    ensures forall i :: 0 <= i < |q.chks| - 1 ==> !q.chks[i].open
  {
  }

  lemma StrictFrame(h: History, h': History, m: string)
    requires WF(h'.q) && StrictOk(h, m) && h'.q.chks == h.q.chks
    requires m in h'.q.taps && h'.q.taps[m] == h.q.taps[m]
    requires m in h'.logs && h'.logs[m] == h.logs[m]
    ensures StrictOk(h', m)
  {
  }

  lemma StrictTapRead(h: History, e: Event, n: string)
    requires AllStrict(h) && (e == TapNext(n) || e == TapAll(n) || e == TapBackOff(n))
    ensures AllStrict(Next(h, e))
  {
    hide ListOk, StrictOk, Next;
    TapReadOthers(h, e, n);
    var h' := Next(h, e);
    forall m | m in h.q.taps && m != n ensures StrictOk(h', m) {
      StrictFrame(h, h', m);
    }
    if n in h.q.taps {
      if e.TapNext? {
        StrictNext(h, n);
      } else {
        NotStrict(h, e, n);
      }
    }
  }

  lemma NotStrict(h: History, e: Event, n: string)
    requires WF(h.q) && n in h.q.taps && n in h.logs && h.logs.Keys == h.q.taps.Keys
    requires e == TapAll(n) || e == TapBackOff(n)
    ensures StrictOk(Next(h, e), n)
  {
    hide ListOk, Ahead, ClosedAhead, Settled, ReadAll, BackOff;
    ApplyWF(h.q, e);
    TapReadFrame(h.q, n);
  }

  lemma StrictPersist(h: History)
    requires AllStrict(h)
    ensures AllStrict(Next(h, Persist))
  {
    hide ListOk, StrictOk, Ahead, DrawTo, Drawn;
    ApplyWF(h.q, Persist);
    var h' := Next(h, Persist);
    forall m | m in h.q.taps ensures StrictOk(h', m) {
      StrictFrame(h, h', m);
    }
  }

  lemma StrictRegistration(h: History, e: Event)
    requires AllStrict(h) && (e.TapRegister? || e.TapRemove?)
    ensures AllStrict(Next(h, e))
  {
    hide ListOk, Ahead, ClosedAhead, RegisterPos, StrictOk;
    ApplyWF(h.q, e);
    var h' := Next(h, e);
    forall m | m in h'.q.taps && m != e.name ensures StrictOk(h', m) {
      StrictFrame(h, h', m);
    }
    if e.TapRegister? {
      StrictNew(h', e.name);
    }
  }

  lemma StrictNew(h: History, n: string)
    requires WF(h.q) && n in h.q.taps && n in h.logs
    requires h.logs[n].strict ==> h.q.taps[n].closedOnly && h.q.taps[n].pos.at == 0
    requires h.logs[n].sent == [] && h.logs[n].closed == ClosedAhead(h.q.chks, h.q.taps[n].pos)
    ensures StrictOk(h, n)
  {
    hide ListOk, Ahead, ClosedAhead;
    var c := ClosedAhead(h.q.chks, h.q.taps[n].pos);
    assert [] + c == c;
  }

  lemma AllStrictNext(h: History, e: Event)
    requires AllStrict(h) && Enabled(h.q, e)
    ensures AllStrict(Next(h, e))
  {
    hide ListOk, StrictOk, Apply, ClosedBy;
    ApplyWF(h.q, e);
    if Discards(h.q, e) {
      RestartStrict(h, e);
    } else if Concerns(e) {
      StrictEvents(h, e);
    } else if e.Persist? {
      StrictPersist(h);
    } else if e.TapRegister? || e.TapRemove? {
      StrictRegistration(h, e);
    } else {
      StrictTapRead(h, e, e.name);
    }
  }

  lemma StrictEvents(h: History, e: Event)
    requires AllStrict(h) && Enabled(h.q, e) && !Discards(h.q, e) && Concerns(e)
    ensures AllStrict(Next(h, e))
  {
    hide ListOk, StrictOk, Apply, Next;
    NextConcerns(h, e);
    EventCursors(h.q, e);
    forall n | n in h.q.taps ensures StrictOk(Next(h, e), n) {
      StrictEvent(h, e, n);
    }
  }

  /** After a clear or rollback no log is strict. */
  lemma RestartStrict(h: History, e: Event)
    requires WF(h.q) && WF(Apply(h.q, e))
    ensures AllStrict(Restart(h, e))
  {
    hide ListOk, Apply, Ahead, ClosedAhead, Settled, KeptMutations, KeptChks, Head;
  }

  lemma {:induction false} AllStrictRun(h: History, es: seq<Event>)
    requires AllStrict(h) && IsRun(h, es)
    ensures AllStrict(Exec(h, es))
    decreases |es|
  {
    hide ListOk, StrictOk, Next;
    if es != [] {
      ApplyWF(h.q, es[0]);
      AllStrictNext(h, es[0]);
      AllStrictRun(Next(h, es[0]), es[1..]);
    }
  }

  /**
   In every run: what a strict cursor was sent, followed by the closed items still ahead of it, is exactly
   what lay ahead of it in closed checkpoints when it was registered followed by the final contents of
   every checkpoint closed since, in order.
   */
  lemma ClosedOnlyDelivery(id: nat, es: seq<Event>, n: string)
    requires WF(Init(id).q) && IsRun(Init(id), es)
    requires n in Exec(Init(id), es).logs && Exec(Init(id), es).logs[n].strict
    ensures var h := Exec(Init(id), es);
            && WF(h.q) && n in h.q.taps
            && h.logs[n].sent + ClosedAhead(h.q.chks, h.q.taps[n].pos) == h.logs[n].closed
  {
    hide ListOk, Apply, Exec, IsRun, ClosedAhead;
    AllStrictRun(Init(id), es);
    assert StrictOk(Exec(Init(id), es), n);
  }
}
