/**
 Last-writer-wins delivery: in every run, what a cursor has been handed followed by what lies ahead of
 it has the same last mutation of every key as the mutations accepted, in the order they were accepted.
 */
module Delivery {
  import opened Items
  import opened UnifiedQueue
  import opened Pending
  import opened Runs

  ghost predicate Caught(done: seq<Item>, ahead: seq<Item>, base: seq<Item>, accepted: seq<Item>) {
    Latest(done + ahead) == Latest(base + accepted)
  }

  lemma CaughtSame(done: seq<Item>, ahead: seq<Item>, ahead': seq<Item>, base: seq<Item>, acc: seq<Item>)
    requires Caught(done, ahead, base, acc) && Latest(ahead) == Latest(ahead')
    ensures Caught(done, ahead', base, acc)
  {
    hide Latest;
    LatestConcat(done, ahead);
    LatestConcat(done, ahead');
  }

  lemma CaughtPut(done: seq<Item>, ahead: seq<Item>, ahead': seq<Item>, base: seq<Item>, acc: seq<Item>, y: Item)
    requires Caught(done, ahead, base, acc) && IsMutation(y)
    requires Latest(ahead') == Latest(ahead)[y.key := y]
    ensures Caught(done, ahead', base, acc + [y])
  {
    hide Latest;
    LatestConcat(done, ahead);
    LatestConcat(done, ahead');
    Assoc(base, acc, [y]);
    LatestAppend(base + acc, y);
  }

  lemma CaughtTake(done: seq<Item>, xs: seq<Item>, ahead': seq<Item>, base: seq<Item>, acc: seq<Item>)
    requires Caught(done, xs + ahead', base, acc)
    ensures Caught(done + xs, ahead', base, acc)
  {
    Assoc(done, xs, ahead');
  }

  // ---------------------------------------------------------------- events that concern every cursor

  predicate Concerns(e: Event) {
    || e.Put? || e.RemoveClosed? || e.Roll? || e.CloseId? || e.CheckpointStart? || e.SetId?
    || e.OnlineStartEvent? || e.OnlineStopEvent?
  }

  /** Where such an event leaves a cursor. */
  function PosAfter(q: Queue, e: Event, p: Pos): Pos
    requires WF(q)
  {
    match e
    case Put(x, active, _) => if Accepts(q, active) then ShiftPos(q.chks, x.key, p) else p
    case RemoveClosed(create) =>
      PreTrimWF(q, create);
      DropPos(FirstReferenced(PreTrim(q, create), 0), PrePos(q, create, p))
    case _ => p
  }

  /** `p` is where some cursor of the queue sits. */
  ghost predicate IsCursor(q: Queue, p: Pos) {
    || q.persist == p
    || (exists n :: n in q.taps && q.taps[n].pos == p)
    || (q.barrier == Some(p.chk) && p.at == 0)
  }

  lemma TurnLatest(chks: seq<Chk>, id: nat, p: Pos)
    requires PosOk(chks, p) && Last(chks).items != []
    ensures PosOk(AddNew(chks, id), p)
    ensures Latest(Ahead(AddNew(chks, id), p)) == Latest(Ahead(chks, p))
  {
    hide AddNew, Latest, Ahead, Flat;
    AheadExtend(chks, id, p);
    LatestMeta(Turnover(chks, id));
    LatestConcat(Ahead(chks, p), Turnover(chks, id));
  }

  lemma AppendLatest(q: Queue, x: Item, p: Pos)
    requires WF(q) && PosOk(q.chks, p) && !IsMutation(x)
    ensures PosOk(AppendLast(q, x).chks, p)
    ensures Latest(Ahead(AppendLast(q, x).chks, p)) == Latest(Ahead(q.chks, p))
  {
    hide ListOk, Ahead, Latest, Flat;
    ItemsOk(q);
    AheadAppend(q.chks, p, Last(q.chks).(items := Last(q.chks).items + [x]), [x]);
    LatestAppend(Ahead(q.chks, p), x);
  }

  lemma PutLatest(q: Queue, x: Item, active: bool, roll: bool, p: Pos)
    requires WF(q) && PosOk(q.chks, p) && IsMutation(x) && Accepts(q, active) && (active ==> Last(q.chks).open)
    ensures var q' := QueueDirty(q, x, active, roll);
            var p' := ShiftPos(q.chks, x.key, p);
            && PosOk(q'.chks, p')
            && Latest(Ahead(q'.chks, p')) == Latest(Ahead(q.chks, p))[x.key := Stored(Last(q.chks).items, x)]
  {
    hide ListOk, Ahead, Latest, Flat;
    ItemsOk(q);
    AheadWrite(q.chks, x, p);
    var q1 := Write(q, x);
    WriteWF(q, x);
    ItemsOk(q1);
    TurnLatest(q1.chks, Last(q1.chks).id + 1, ShiftPos(q.chks, x.key, p));
  }

  lemma PrePosLatest(q: Queue, create: bool, p: Pos)
    requires WF(q) && PosOk(q.chks, p)
    ensures PosOk(PreTrim(q, create).chks, PrePos(q, create, p))
    ensures Latest(Ahead(PreTrim(q, create).chks, PrePos(q, create, p))) == Latest(Ahead(q.chks, p))
  {
    hide WF, Ahead, Latest, AddNew, Flat;
    ItemsOk(q);
    PreTrimWF(q, create);
    ItemsOk(PreTrim(q, create));
    if create {
      TurnLatest(q.chks, Last(q.chks).id + 1, p);
      AheadHop(Rollover(q).chks, |q.chks| - 1, p);
    }
  }

  /** The dropped prefix ends at or before the checkpoint of every cursor. */
  lemma TrimCursor(q: Queue, create: bool, p: Pos)
    requires WF(q) && IsCursor(q, p)
    ensures WF(PreTrim(q, create))
    ensures FirstReferenced(PreTrim(q, create), 0) <= PrePos(q, create, p).chk
  {
    hide ListOk, AddNew, HopPos;
    PreTrimWF(q, create);
    var q2 := PreTrim(q, create);
    FirstReferencedBounds(q2);
    if n :| n in q.taps && q.taps[n].pos == p {
      assert q2.taps[n].pos == PrePos(q, create, p);
    }
    assert p.chk <= PrePos(q, create, p).chk by { PreHop(q, create, p); }
  }

  lemma PreHop(q: Queue, create: bool, p: Pos)
    requires q.chks != []
    ensures p.chk <= PrePos(q, create, p).chk
  {
  }

  lemma TrimLatest(q: Queue, create: bool, p: Pos)
    requires WF(q) && PosOk(q.chks, p) && IsCursor(q, p)
    ensures PosOk(Trim(q, create).chks, PosAfter(q, RemoveClosed(create), p))
    ensures Latest(Ahead(Trim(q, create).chks, PosAfter(q, RemoveClosed(create), p))) == Latest(Ahead(q.chks, p))
  {
    hide FirstReferenced, WF, Ahead, Latest, Flat;
    PrePosLatest(q, create, p);
    TrimCursor(q, create, p);
    var q2 := PreTrim(q, create);
    AheadDrop(q2.chks, FirstReferenced(q2, 0), PrePos(q, create, p));
  }

  lemma CloseLatest(q: Queue, id: nat, p: Pos)
    requires WF(q) && PosOk(q.chks, p)
    ensures PosOk(CloseOpen(q, id).chks, p)
    ensures Latest(Ahead(CloseOpen(q, id).chks, p)) == Latest(Ahead(q.chks, p))
  {
    hide ListOk, Ahead, Latest, Flat;
    ItemsOk(q);
    var c := Last(q.chks);
    var e := if c.open then [EndItem(c.id)] else [];
    AheadAppend(q.chks, p, Close(c), e);
    LatestConcat(Ahead(q.chks, p), e);
    assert Latest(e) == map[] by { LatestMeta(e); }
  }

  lemma StartLatest(q: Queue, p: Pos)
    requires WF(q) && PosOk(q.chks, p)
    ensures PosOk(StartOnline(q).chks, p)
    ensures Latest(Ahead(StartOnline(q).chks, p)) == Latest(Ahead(q.chks, p))
  {
    hide WF, Ahead, Latest, AddNew, Flat;
    ItemsOk(q);
    RolloverWF(q);
    TurnLatest(q.chks, Last(q.chks).id + 1, p);
    AppendLatest(Rollover(q), OnlineStart, p);
  }

  lemma StopLatest(q: Queue, p: Pos)
    requires WF(q) && PosOk(q.chks, p) && (q.barrier.Some? ==> Last(q.chks).open)
    ensures PosOk(StopOnline(q).chks, p)
    ensures Latest(Ahead(StopOnline(q).chks, p)) == Latest(Ahead(q.chks, p))
  {
    hide WF, Ahead, Latest, AddNew, Flat;
    if q.barrier.Some? {
      var q1 := AppendLast(q, OnlineEnd);
      AppendWF(q, OnlineEnd);
      ItemsOk(q1);
      AppendLatest(q, OnlineEnd, p);
      TurnLatest(q1.chks, Last(q1.chks).id + 1, p);
    }
  }

  lemma CheckpointStartLatest(q: Queue, id: nat, p: Pos)
    requires WF(q) && PosOk(q.chks, p) && !RollsBack(q, id)
    ensures PosOk(CheckAndAdd(q, id).chks, p)
    ensures Latest(Ahead(CheckAndAdd(q, id).chks, p)) == Latest(Ahead(q.chks, p))
  {
    hide ListOk, Ahead, Latest, AddNew, Flat;
    ItemsOk(q);
    if id != 0 {
      if Last(q.chks).id == 0 {
        AheadRename(q, id, p);
      } else {
        TurnLatest(q.chks, id, p);
      }
    }
  }

  /** The mutation an event accepts, as stored. */
  function Accepted(q: Queue, e: Event): Option<Item>
    requires WF(q)
  {
    if e.Put? && Accepts(q, e.active) then Some(Stored(Last(q.chks).items, e.x)) else None
  }

  /** One event, one cursor: what lies ahead changes its last mutations by the accepted one alone. */
  lemma EventLatest(q: Queue, e: Event, p: Pos)
    requires WF(q) && Enabled(q, e) && !Discards(q, e) && Concerns(e)
    requires PosOk(q.chks, p) && IsCursor(q, p)
    ensures PosOk(Apply(q, e).chks, PosAfter(q, e, p))
    ensures Latest(Ahead(Apply(q, e).chks, PosAfter(q, e, p))) ==
            match Accepted(q, e)
            case Some(y) => Latest(Ahead(q.chks, p))[y.key := y]
            case None => Latest(Ahead(q.chks, p))
  {
    hide ListOk, Ahead, Latest, AddNew, Flat;
    match e {
      case Put(x, active, roll) => if Accepts(q, active) { PutLatest(q, x, active, roll, p); }
      case RemoveClosed(create) => TrimLatest(q, create, p);
      case Roll => TurnOk(q, p);
      case CloseId(id) => CloseLatest(q, id, p);
      case CheckpointStart(id) => CheckpointStartLatest(q, id, p);
      case SetId(id) => AheadRename(q, id, p);
      case OnlineStartEvent => StartLatest(q, p);
      case OnlineStopEvent => StopLatest(q, p);
    }
  }

  lemma TurnOk(q: Queue, p: Pos)
    requires WF(q) && PosOk(q.chks, p)
    ensures PosOk(Rollover(q).chks, p) && Latest(Ahead(Rollover(q).chks, p)) == Latest(Ahead(q.chks, p))
  {
    hide ListOk, AddNew;
    ItemsOk(q);
    TurnLatest(q.chks, Last(q.chks).id + 1, p);
  }

  /** Such an event moves the cursors as `PosAfter` says and keeps their names and flags. */
  lemma EventCursors(q: Queue, e: Event)
    requires WF(q) && Enabled(q, e) && !Discards(q, e) && Concerns(e)
    ensures var q' := Apply(q, e);
            && q'.persist == PosAfter(q, e, q.persist)
            && q'.taps.Keys == q.taps.Keys
            && forall n :: n in q.taps ==> q'.taps[n] == q.taps[n].(pos := PosAfter(q, e, q.taps[n].pos))
  {
    hide ListOk, AddNew, ShiftPos, FirstReferenced;
  }

  // ---------------------------------------------------------------- the invariant and the theorems

  ghost predicate PersistenceCaught(h: History) {
    WF(h.q) && h.since <= |h.accepted| && Caught(h.drawn, Ahead(h.q.chks, h.q.persist), h.base, h.accepted[h.since..])
  }

  ghost predicate TapCaught(h: History, n: string) {
    && WF(h.q) && n in h.q.taps && n in h.logs && h.logs[n].since <= |h.accepted|
    && Caught(h.logs[n].sent, Ahead(h.q.chks, h.q.taps[n].pos), h.logs[n].base, h.accepted[h.logs[n].since..])
  }

  /** The starts of checkpoints are indices of mutations, in order. */
  predicate Ascending(starts: seq<nat>, n: nat) {
    && (forall i :: 0 <= i < |starts| ==> starts[i] <= n)
    && (forall i, j :: 0 <= i < j < |starts| ==> starts[i] <= starts[j])
  }

  lemma AscendingTail(h: History, opens: bool, starts: seq<nat>, n: nat)
    requires Ascending(starts, n) && n <= |h.accepted|
    ensures Ascending(Advanced(h, opens, starts).starts, |h.accepted|)
  {
  }

  lemma AscendingHead(starts: seq<nat>, n: nat, k: nat)
    requires Ascending(starts, n) && k < |starts|
    ensures starts[k] <= n && Ascending(Head(starts, k) + [starts[k]], starts[k])
  {
  }

  lemma LoggedGrows(h: History, e: Event)
    requires WF(h.q) && Enabled(h.q, e) && !Discards(h.q, e) && WF(Apply(h.q, e))
    ensures h.accepted <= Logged(h, e).accepted
  {
    hide ListOk, Apply, Closing, Ahead, ClosedAhead, SentBy, Held, RenameLog, Drawn;
  }

  lemma AscendingNext(h: History, e: Event)
    requires WF(h.q) && Enabled(h.q, e) && Ascending(h.starts, |h.accepted|)
    ensures Ascending(Next(h, e).starts, |Next(h, e).accepted|)
  {
    hide ListOk, Apply, Logged, Opens, KeptChks, Tail, Ascending, Enabled, RollsBack, Ahead;
    ApplyWF(h.q, e);
    if Discards(h.q, e) {
      RestartAscending(h, e);
    } else {
      LoggedGrows(h, e);
      var l := Logged(h, e);
      assert Next(h, e) == Advanced(l, Opens(h.q, e), h.starts);
      AscendingTail(l, Opens(h.q, e), h.starts, |h.accepted|);
    }
  }

  lemma RestartAscending(h: History, e: Event)
    requires WF(h.q) && WF(Apply(h.q, e)) && Ascending(h.starts, |h.accepted|) && (e.ClearAll? || e.CheckpointStart?)
    ensures KeptMutations(h, e) <= |h.accepted| && Ascending(Restart(h, e).starts, |Restart(h, e).accepted|)
  {
    hide WF, Apply, Ahead;
    var k := KeptChks(h.q, e);
    if k < |h.starts| {
      AscendingHead(h.starts, |h.accepted|, k);
    }
  }

  ghost predicate LastWriterWins(h: History) {
    && WF(h.q) && Ascending(h.starts, |h.accepted|)
    && PersistenceCaught(h)
    && h.logs.Keys == h.q.taps.Keys
    && forall n :: n in h.q.taps ==> TapCaught(h, n)
  }

  lemma InitCaught(id: nat)
    requires WF(Init(id).q)
    ensures LastWriterWins(Init(id))
  {
    hide ListOk, Ahead, Latest, Flat, Caught;
    RegisterCaught(Init(id).base);
  }

  /** After a clear or rollback: nothing was handed out since, and nothing accepted. */
  lemma RestartCaught(h: History, e: Event)
    requires WF(h.q) && WF(Apply(h.q, e)) && KeptMutations(h, e) <= |h.accepted|
    requires Ascending(Restart(h, e).starts, |Restart(h, e).accepted|)
    ensures LastWriterWins(Restart(h, e))
  {
    hide Ascending, ListOk, Apply, Ahead, Latest, Flat, Caught, KeptMutations, KeptChks, ClosedAhead;
    var h' := Restart(h, e);
    RegisterCaught(h'.base);
    assert h'.accepted[h'.since..] == [];
    forall n | n in h'.q.taps ensures TapCaught(h', n) {
      NewTapCaught(h', n);
    }
  }

  /** The cursor of `n` and its log before and after an event that concerns every cursor. */
  lemma TapEvent(h: History, e: Event, n: string)
    requires WF(h.q) && Enabled(h.q, e) && !Discards(h.q, e) && Concerns(e) && TapCaught(h, n)
    ensures TapCaught(Next(h, e), n)
  {
    hide ListOk, Ahead, Latest, Flat, AddNew, Apply, PosAfter, Caught, Stored, ClosedBy, Next;
    NextConcerns(h, e);
    var h' := Next(h, e);
    var p := h.q.taps[n].pos;
    assert IsCursor(h.q, p);
    EventCursors(h.q, e);
    EventLatest(h.q, e, p);
    var l := h.logs[n];
    var ahead, ahead' := Ahead(h.q.chks, p), Ahead(h'.q.chks, PosAfter(h.q, e, p));
    match Accepted(h.q, e) {
      case Some(y) =>
        StoredMutation(Last(h.q.chks).items, e.x);
        CaughtPut(l.sent, ahead, ahead', l.base, h.accepted[l.since..], y);
        assert h'.accepted[l.since..] == h.accepted[l.since..] + [y];
      case None =>
        CaughtSame(l.sent, ahead, ahead', l.base, h.accepted[l.since..]);
        assert h'.accepted == h.accepted;
    }
  }

  lemma StoredMutation(s: seq<Item>, x: Item)
    requires IsMutation(x)
    ensures IsMutation(Stored(s, x)) && Stored(s, x).key == x.key
  {
  }

  lemma PersistenceEvent(h: History, e: Event)
    requires WF(h.q) && Enabled(h.q, e) && !Discards(h.q, e) && Concerns(e) && PersistenceCaught(h)
    ensures PersistenceCaught(Next(h, e))
  {
    hide ListOk, Ahead, Latest, Flat, AddNew, Apply, PosAfter, Caught, Stored, ClosedBy, Next;
    NextConcerns(h, e);
    var h' := Next(h, e);
    var p := h.q.persist;
    EventCursors(h.q, e);
    EventLatest(h.q, e, p);
    var ahead, ahead' := Ahead(h.q.chks, p), Ahead(h'.q.chks, PosAfter(h.q, e, p));
    match Accepted(h.q, e) {
      case Some(y) =>
        StoredMutation(Last(h.q.chks).items, e.x);
        CaughtPut(h.drawn, ahead, ahead', h.base, h.accepted[h.since..], y);
        assert h'.accepted[h.since..] == h.accepted[h.since..] + [y];
      case None =>
        CaughtSame(h.drawn, ahead, ahead', h.base, h.accepted[h.since..]);
        assert h'.accepted == h.accepted;
    }
  }

  /** A cursor that an event does not touch. */
  lemma TapFrame(h: History, h': History, m: string)
    requires WF(h'.q) && TapCaught(h, m)
    requires h'.q.chks == h.q.chks && h'.accepted == h.accepted
    requires m in h'.q.taps && h'.q.taps[m] == h.q.taps[m]
    requires m in h'.logs && h'.logs[m] == h.logs[m]
    ensures TapCaught(h', m)
  {
  }

  /** Reading: the reader's log grows by what leaves the items ahead of it; nobody else is affected. */
  lemma PersistCaught(h: History)
    requires LastWriterWins(h)
    ensures LastWriterWins(Next(h, Persist))
  {
    hide Ascending, Tail, ListOk, Ahead, Latest, Flat, Caught, TapCaught, DrawTo, Drawn;
    AscendingNext(h, Persist);
    ApplyWF(h.q, Persist);
    var h' := Next(h, Persist);
    AheadDraw(h.q);
    CaughtTake(h.drawn, Drawn(h.q), Ahead(h.q.chks, DrawTo(h.q)), h.base, h.accepted[h.since..]);
    forall m | m in h.q.taps ensures TapCaught(h', m) {
      TapFrame(h, h', m);
    }
  }

  lemma RegistrationCaught(h: History, e: Event)
    requires LastWriterWins(h) && (e.TapRegister? || e.TapRemove?)
    ensures LastWriterWins(Next(h, e))
  {
    hide Ascending, Tail, ListOk, Ahead, Latest, Flat, Caught, TapCaught, ClosedAhead, RegisterPos;
    AscendingNext(h, e);
    ApplyWF(h.q, e);
    var h' := Next(h, e);
    forall m | m in h'.q.taps && m != e.name ensures TapCaught(h', m) {
      TapFrame(h, h', m);
    }
    if e.TapRegister? {
      NewTapCaught(h', e.name);
    }
  }

  lemma NewTapCaught(h: History, n: string)
    requires WF(h.q) && n in h.q.taps && n in h.logs
    requires h.logs[n].sent == [] && h.logs[n].since == |h.accepted|
    requires h.logs[n].base == Ahead(h.q.chks, h.q.taps[n].pos)
    ensures TapCaught(h, n)
  {
    hide Caught, Ahead, ListOk;
    RegisterCaught(h.logs[n].base);
    assert h.accepted[|h.accepted|..] == [];
  }

  lemma RegisterCaught(base: seq<Item>)
    ensures Caught([], base, base, [])
  {
    assert [] + base == base + [];
  }

  lemma TapReadCaught(h: History, e: Event, n: string)
    requires LastWriterWins(h) && (e == TapNext(n) || e == TapAll(n) || e == TapBackOff(n))
    ensures LastWriterWins(Next(h, e))
  {
    hide Ascending, Tail, ListOk, Ahead, Latest, Flat, Caught, TapCaught, Next;
    AscendingNext(h, e);
    ApplyWF(h.q, e);
    var h' := Next(h, e);
    TapReadOthers(h, e, n);
    forall m | m in h.q.taps && m != n ensures TapCaught(h', m) {
      TapFrame(h, h', m);
    }
    if n in h.q.taps {
      match e {
        case TapNext(_) => NextCaught(h, n);
        case TapAll(_) => AllCaught(h, n);
        case TapBackOff(_) => BackOffCaught(h, n);
      }
    }
  }

  /** A TAP read leaves everything but the reader's own cursor and log alone. */
  lemma TapReadOthers(h: History, e: Event, n: string)
    requires WF(h.q) && h.logs.Keys == h.q.taps.Keys
    requires e == TapNext(n) || e == TapAll(n) || e == TapBackOff(n)
    ensures var h' := Next(h, e);
            && WF(h'.q) && SameBut(h.q, h'.q, n) && h'.logs.Keys == h.logs.Keys
            && h'.accepted == h.accepted && h'.drawn == h.drawn && h'.base == h.base && h'.since == h.since
            && forall m :: m in h.q.taps && m != n ==> h'.logs[m] == h.logs[m]
  {
    hide ListOk, Ahead, ClosedAhead, SentBy, SameBut, NextItem, ReadAll, BackOff;
    ApplyWF(h.q, e);
    if n in h.q.taps {
      TapReadFrame(h.q, n);
    } else {
      SameButSelf(h.q, n);
    }
  }

  lemma SameButSelf(q: Queue, n: string)
    ensures SameBut(q, q, n)
  {
  }

  predicate SameBut(q: Queue, q': Queue, n: string) {
    && q'.chks == q.chks && q'.persist == q.persist && q'.barrier == q.barrier && q'.taps.Keys == q.taps.Keys
    && forall m :: m in q.taps && m != n ==> q'.taps[m] == q.taps[m]
  }

  lemma TapReadFrame(q: Queue, n: string)
    requires WF(q) && n in q.taps
    ensures SameBut(q, NextItem(q, n), n) && SameBut(q, ReadAll(q, n), n) && SameBut(q, BackOff(q, n), n)
  {
    hide ListOk, Step;
  }

  lemma NextCaught(h: History, n: string)
    requires WF(h.q) && TapCaught(h, n)
    ensures TapCaught(Next(h, TapNext(n)), n)
  {
    hide ListOk, Ahead, Latest, Flat, Caught, Step;
    ApplyWF(h.q, TapNext(n));
    ItemsOk(h.q);
    var t, l := h.q.taps[n], h.logs[n];
    AheadStep(h.q.chks, t);
    var ahead' := Ahead(h.q.chks, Step(h.q.chks, t).0);
    TakeSent(SentBy(h.q, n), Ahead(h.q.chks, t.pos), ahead');
    CaughtTake(l.sent, SentBy(h.q, n), ahead', l.base, h.accepted[l.since..]);
  }

  lemma AllCaught(h: History, n: string)
    requires WF(h.q) && TapCaught(h, n)
    ensures TapCaught(Next(h, TapAll(n)), n)
  {
    hide ListOk, Ahead, Latest, Flat, Caught;
    ApplyWF(h.q, TapAll(n));
    ItemsOk(h.q);
    var l := h.logs[n];
    var ahead := Ahead(h.q.chks, h.q.taps[n].pos);
    AheadLast(h.q.chks, EndPos(h.q.chks));
    assert Ahead(h.q.chks, EndPos(h.q.chks)) == [];
    assert ahead == ahead + [];
    CaughtTake(l.sent, ahead, [], l.base, h.accepted[l.since..]);
  }

  lemma BackOffCaught(h: History, n: string)
    requires WF(h.q) && TapCaught(h, n)
    ensures TapCaught(Next(h, TapBackOff(n)), n)
  {
    hide ListOk, Ahead, Latest, Flat, Caught, BackOff;
    ApplyWF(h.q, TapBackOff(n));
    var l := h.logs[n];
    var q' := BackOff(h.q, n);
    BackOffLatest(h.q, n);
    assert q'.taps.Keys == h.q.taps.Keys by { TapReadFrame(h.q, n); }
    CaughtSame(l.sent, Ahead(h.q.chks, h.q.taps[n].pos), Ahead(q'.chks, q'.taps[n].pos), l.base,
               h.accepted[l.since..]);
  }

  lemma TakeSent(xs: seq<Item>, ahead: seq<Item>, ahead': seq<Item>)
    requires xs == [] ==> ahead == ahead'
    requires |xs| == 1 ==> ahead == [xs[0]] + ahead'
    requires |xs| <= 1
    ensures ahead == xs + ahead'
  {
  }

  lemma BackOffLatest(q: Queue, n: string)
    requires WF(q) && n in q.taps
    ensures var q' := BackOff(q, n);
            PosOk(q'.chks, q'.taps[n].pos) &&
            Latest(Ahead(q'.chks, q'.taps[n].pos)) == Latest(Ahead(q.chks, q.taps[n].pos))
  {
    hide ListOk, Latest, Flat;
    var q' := BackOff(q, n);
    var p := q.taps[n].pos;
    if q'.taps[n].pos != p {
      var s := q.chks[p.chk].items;
      assert s[p.at..] == [s[p.at]] + s[p.at + 1..];
      Assoc([s[p.at]], s[p.at + 1..], Flat(q.chks[p.chk + 1..]));
      LatestConcat([s[p.at]], Ahead(q.chks, p));
      assert Latest([s[p.at]]) == map[] by { LatestMeta([s[p.at]]); }
    }
  }

  /** What such an event makes of a TAP log. */
  function LogAfter(l: TapLog, q: Queue, e: Event): TapLog
    requires WF(q)
  {
    match NewId(q, e)
    case Some(id) => RenameLog(l, Last(q.chks), id)
    case None => l.(closed := l.closed + ClosedBy(q, e))
  }

  lemma NextConcerns(h: History, e: Event)
    requires WF(h.q) && Enabled(h.q, e) && !Discards(h.q, e) && Concerns(e)
    ensures var h' := Next(h, e);
            && h'.q == Apply(h.q, e) && WF(h'.q)
            && h'.logs.Keys == h.logs.Keys
            && (forall n :: n in h.logs ==> h'.logs[n] == LogAfter(h.logs[n], h.q, e))
            && h'.drawn == h.drawn && h'.base == h.base && h'.since == h.since && h'.drawnUpTo == h.drawnUpTo
            && h'.accepted == h.accepted + (match Accepted(h.q, e) case Some(y) => [y] case None => [])
  {
    hide ListOk, Apply, Stored, Closing, RenameLog, Retag, Tail;
    ApplyWF(h.q, e);
    assert forall s: seq<Item> :: s + [] == s;
  }

  /** The checkpoints that mutations are in. */
  lemma NextIds(h: History, e: Event)
    requires WF(h.q) && Enabled(h.q, e) && !Discards(h.q, e) && Concerns(e)
    ensures var h' := Next(h, e);
            && h'.starts == Tail(if Opens(h.q, e) then h.starts + [|h'.accepted|] else h.starts, |h'.q.chks|)
            && match NewId(h.q, e)
               case Some(id) =>
                 && h'.acceptedIn == Retag(h.acceptedIn, if h.starts == [] then 0 else h.starts[|h.starts| - 1], id)
                 && Accepted(h.q, e).None?
               case None =>
                 h'.acceptedIn == h.acceptedIn + (if Accepted(h.q, e).Some? then [Last(h.q.chks).id] else [])
  {
    hide ListOk, Apply, Stored, Closing, RenameLog, Retag, Tail;
    ApplyWF(h.q, e);
  }

  lemma EventCaught(h: History, e: Event)
    requires LastWriterWins(h) && Enabled(h.q, e) && !Discards(h.q, e) && Concerns(e)
    ensures LastWriterWins(Next(h, e))
  {
    hide Ascending, Tail, ListOk, TapCaught, PersistenceCaught, Apply, Next;
    AscendingNext(h, e);
    NextConcerns(h, e);
    PersistenceEvent(h, e);
    EventCursors(h.q, e);
    forall n | n in h.q.taps ensures TapCaught(Next(h, e), n) {
      TapEvent(h, e, n);
    }
  }

  lemma LastWriterWinsNext(h: History, e: Event)
    requires LastWriterWins(h) && Enabled(h.q, e)
    ensures LastWriterWins(Next(h, e))
  {
    hide ListOk, TapCaught, PersistenceCaught, Apply, ClosedBy, Tail, Head, KeptChks;
    ApplyWF(h.q, e);
    AscendingNext(h, e);
    if Discards(h.q, e) {
      RestartAscending(h, e);
      RestartCaught(h, e);
    } else if Concerns(e) {
      EventCaught(h, e);
    } else if e.Persist? {
      PersistCaught(h);
    } else if e.TapRegister? || e.TapRemove? {
      RegistrationCaught(h, e);
    } else {
      TapReadCaught(h, e, e.name);
    }
  }

  lemma {:induction false} LastWriterWinsRun(h: History, es: seq<Event>)
    requires LastWriterWins(h) && IsRun(h, es)
    ensures LastWriterWins(Exec(h, es))
    decreases |es|
  {
    hide ListOk, TapCaught, PersistenceCaught, Next, Ascending;
    if es != [] {
      ApplyWF(h.q, es[0]);
      LastWriterWinsNext(h, es[0]);
      LastWriterWinsRun(Next(h, es[0]), es[1..]);
    }
  }

  /** A run in which nothing discards queued items. */
  ghost predicate Lossless(h: History, es: seq<Event>)
    requires WF(h.q) && IsRun(h, es)
    decreases |es|
  {
    es == [] ||
    (!Discards(h.q, es[0]) && (NextOk(h, es[0]); Lossless(Next(h, es[0]), es[1..])))
  }

  lemma {:induction false} LosslessBase(h: History, es: seq<Event>)
    requires WF(h.q) && IsRun(h, es) && Lossless(h, es)
    ensures Exec(h, es).base == h.base && Exec(h, es).since == h.since
    decreases |es|
  {
    hide WF, Apply, Enabled, Tail;
    if es != [] {
      ApplyWF(h.q, es[0]);
      NextOk(h, es[0]);
      LosslessBase(Next(h, es[0]), es[1..]);
    }
  }

  /**
   Persistence misses nothing: in every lossless run of a new manager, replaying on any store what
   persistence was handed followed by what lies ahead of it gives the same store as replaying every
   accepted mutation in order.
   */
  lemma PersistenceDelivery(id: nat, es: seq<Event>, store: Store)
    requires WF(Init(id).q) && IsRun(Init(id), es) && Lossless(Init(id), es)
    ensures var h := Exec(Init(id), es);
            && WF(h.q)
            && Latest(h.drawn + Ahead(h.q.chks, h.q.persist)) == Latest(h.accepted)
            && Replay(store, h.drawn + Ahead(h.q.chks, h.q.persist)) == Replay(store, h.accepted)
  {
    hide ListOk, Ahead, Flat, Latest, Apply, Exec, IsRun, Lossless;
    var h0 := Init(id);
    InitCaught(id);
    LastWriterWinsRun(h0, es);
    LosslessBase(h0, es);
    var h := Exec(h0, es);
    assert Latest(h0.base) == map[] by { InitBase(id); }
    assert h.accepted[0..] == h.accepted;
    LatestConcat(h.base, h.accepted);
    SameLatestSameStore(store, h.drawn + Ahead(h.q.chks, h.q.persist), h.accepted);
  }

  lemma InitBase(id: nat)
    requires WF(Init(id).q)
    ensures Latest(Init(id).base) == map[]
  {
    AheadLast(Init(id).q.chks, Pos(0, 0));
    LatestMeta([StartItem(id)]);
    assert Init(id).base == [StartItem(id)];
  }

  /**
   A TAP cursor misses nothing: replaying what it was sent since it was registered followed by what lies
   ahead of it equals replaying what lay ahead of it then followed by the mutations accepted since.
   */
  lemma TapDelivery(id: nat, es: seq<Event>, n: string, store: Store)
    requires WF(Init(id).q) && IsRun(Init(id), es)
    requires n in Exec(Init(id), es).q.taps
    ensures var h := Exec(Init(id), es);
            && WF(h.q) && n in h.logs && h.logs[n].since <= |h.accepted|
            && var l := h.logs[n];
               Replay(store, l.sent + Ahead(h.q.chks, h.q.taps[n].pos)) ==
               Replay(store, l.base + h.accepted[l.since..])
  {
    hide ListOk, Ahead, Flat, Latest, Apply, Exec, IsRun;
    InitCaught(id);
    LastWriterWinsRun(Init(id), es);
    var h := Exec(Init(id), es);
    assert TapCaught(h, n);
    var l := h.logs[n];
    SameLatestSameStore(store, l.sent + Ahead(h.q.chks, h.q.taps[n].pos), l.base + h.accepted[l.since..]);
  }
}
