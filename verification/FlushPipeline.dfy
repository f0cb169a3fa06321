/**
 The flush pipeline: persistence batches of all vbuckets go through one write queue and one reject queue,
 and the checkpoint id drawn with a batch is published when both are empty. Writers, TAP readers and
 checkpoint maintenance of every vbucket interleave freely with the flusher's steps.
 */
module FlushPipeline {
  import opened Items
  import opened UnifiedQueue
  import opened Pending
  import opened Runs
  import opened Delivery
  import opened OnlineUpdate
  import opened Placement
  import opened FlushBatch

  type Vb = nat

  datatype VItem = VItem(vb: Vb, x: Item)

  /**
   One vbucket: its queue with history, everything drawn for it in order (backfill first, then the
   checkpoint items of each batch), what was processed, how many mutations were ever offered, and the id drawn
   and the id published.
   */
  datatype Lane = Lane(h: History, log: seq<Item>, processed: seq<Item>, stamp: nat, pending: nat, published: nat)

  datatype Phase = Idle | Drawing(todo: set<Vb>) | Flushing

  datatype Pipe = Pipe(lanes: map<Vb, Lane>, phase: Phase, writing: seq<VItem>, rejects: seq<VItem>)

  /**
   `FlushOne`: how many copies of the item went to the reject queue, and whether it was written anyway. `Publish`:
   a caller sets the persisted checkpoint id itself, as warm-up, a vbucket reset and a repositioning rollback do.
   */
  datatype PipeEvent =
    | QueueEvent(vb: Vb, e: Event)
    | Begin
    | DrawVb(vb: Vb, backfill: seq<Item>, order: seq<Item>)
    | SkipVb(vb: Vb)
    | DrawDone
    | FlushOne(copies: nat, wrote: bool)
    | RejectAll
    | RequeueRejects
    | Complete(alive: set<Vb>)
    | Publish(vb: Vb, id: nat)

  function Tagged(vb: Vb, xs: seq<Item>): (r: seq<VItem>)
    ensures |r| == |xs| && forall i :: 0 <= i < |xs| ==> r[i] == VItem(vb, xs[i])
  {
    seq(|xs|, i requires 0 <= i < |xs| => VItem(vb, xs[i]))
  }

  function Copies(v: VItem, n: nat): (r: seq<VItem>)
    ensures |r| == n && forall i :: 0 <= i < n ==> r[i] == v
  {
    seq(n, i => v)
  }

  predicate PipeOk(p: Pipe) {
    && (forall vb :: vb in p.lanes ==> WF(p.lanes[vb].h.q))
    && (forall i :: 0 <= i < |p.writing| ==> p.writing[i].vb in p.lanes)
    && (forall i :: 0 <= i < |p.rejects| ==> p.rejects[i].vb in p.lanes)
  }

  ghost predicate Can(p: Pipe, e: PipeEvent)
    requires PipeOk(p)
  {
    match e
    case QueueEvent(vb, qe) => vb in p.lanes && !qe.Persist? && Enabled(p.lanes[vb].h.q, qe)
    case Begin => p.phase.Idle?
    case DrawVb(vb, backfill, order) =>
      && p.phase.Drawing? && vb in p.phase.todo && vb in p.lanes
      && KeepsLast(order, backfill + Drawn(p.lanes[vb].h.q)) && NotQueued(backfill)
    case SkipVb(vb) => p.phase.Drawing? && vb in p.phase.todo
    case DrawDone => p.phase.Drawing? && p.phase.todo == {}
    case FlushOne(_, _) => p.phase.Flushing? && p.writing != []
    case RejectAll => p.phase.Flushing?
    case RequeueRejects => p.phase.Flushing?
    case Complete(alive) => p.phase.Flushing? && p.writing == [] && p.rejects == []
    case Publish(vb, _) => vb in p.lanes
  }

  /** Backfill items were never queued in a checkpoint: they have no number. */
  predicate NotQueued(xs: seq<Item>) {
    forall i :: 0 <= i < |xs| ==> xs[i].uid == 0
  }

  /** Every mutation offered to the queue is a new object, and gets the next number. */
  function Stamped(l: Lane, e: Event): Event {
    match e
    case Put(x, active, roll) => Put(x.(uid := l.stamp + 1), active, roll)
    case _ => e
  }

  function LaneQueue(l: Lane, e: Event): Lane
    requires WF(l.h.q) && Enabled(l.h.q, e)
  {
    l.(h := Next(l.h, Stamped(l, e)), stamp := if e.Put? then l.stamp + 1 else l.stamp)
  }

  function LaneDraw(l: Lane, backfill: seq<Item>): Lane
    requires WF(l.h.q)
  {
    l.(h := Next(l.h, Persist), log := l.log + (backfill + Drawn(l.h.q)), pending := DrawnId(l.h.q))
  }

  function LanePublish(l: Lane): Lane {
    if l.pending > 0 then l.(published := l.pending) else l
  }

  ghost function Do(p: Pipe, e: PipeEvent): Pipe
    requires PipeOk(p) && Can(p, e)
  {
    match e
    case QueueEvent(vb, qe) => p.(lanes := p.lanes[vb := LaneQueue(p.lanes[vb], qe)])
    case Begin => p.(phase := Drawing(p.lanes.Keys))
    case DrawVb(vb, backfill, order) =>
      p.(lanes := p.lanes[vb := LaneDraw(p.lanes[vb], backfill)],
         phase := Drawing(p.phase.todo - {vb}),
         writing := p.writing + Tagged(vb, order))
    case SkipVb(vb) => p.(phase := Drawing(p.phase.todo - {vb}))
    case DrawDone => p.(phase := Flushing)
    case FlushOne(copies, wrote) =>
      var v := p.writing[0];
      var l := p.lanes[v.vb];
      p.(writing := p.writing[1..], rejects := p.rejects + Copies(v, copies),
         lanes := if wrote || copies == 0 then p.lanes[v.vb := l.(processed := l.processed + [v.x])] else p.lanes)
    case RejectAll => p.(writing := [], rejects := p.rejects + p.writing)
    case RequeueRejects => p.(writing := p.writing + p.rejects, rejects := [])
    case Complete(alive) =>
      p.(phase := Idle,
         lanes := map vb | vb in p.lanes :: if vb in alive then LanePublish(p.lanes[vb]) else p.lanes[vb])
    case Publish(vb, id) => p.(lanes := p.lanes[vb := p.lanes[vb].(published := id)])
  }

  // ---------------------------------------------------------------- the invariant

  ghost predicate InFlight(w: seq<VItem>, r: seq<VItem>, vb: Vb, x: Item) {
    VItem(vb, x) in w || VItem(vb, x) in r
  }

  /** Mutation `j` was processed, or a later one of its key was. */
  ghost predicate Settled(l: Lane, j: nat)
    requires j < |l.h.accepted|
  {
    exists k :: 0 <= k < |l.processed| && Supersedes(l.processed[k], l.h.accepted[j])
  }

  /** `y` is the mutation `x`, or a later one of its key. */
  predicate Supersedes(y: Item, x: Item) {
    y.key == x.key && x.uid <= y.uid
  }

  /** Numbers follow the order of acceptance; none is 0, and none is above the lane's. */
  predicate Numbered(acc: seq<Item>, stamp: nat) {
    && (forall j :: 0 <= j < |acc| ==> 0 < acc[j].uid <= stamp)
    && (forall i, j :: 0 <= i < j < |acc| ==> acc[i].uid < acc[j].uid)
  }

  ghost predicate HistoryOk(l: Lane) {
    && WF(l.h.q) && Sound(l.h) && Numbered(l.h.accepted, l.stamp)
    && forall i :: 0 <= i < |l.processed| ==> l.processed[i].uid <= l.stamp
  }

  /** What is in flight is the last of its key ever drawn; what is not in flight has been processed last. */
  ghost predicate BatchOk(l: Lane, w: seq<VItem>, r: seq<VItem>, vb: Vb) {
    && (forall x :: InFlight(w, r, vb, x) ==> IsMutation(x) && x.key in Latest(l.log) && Latest(l.log)[x.key] == x)
    && (forall k :: k in Latest(l.log) ==>
          InFlight(w, r, vb, Latest(l.log)[k])
              || (k in Latest(l.processed) && Latest(l.processed)[k] == Latest(l.log)[k]))
    && Latest(l.processed).Keys <= Latest(l.log).Keys
  }

  /** Every mutation covered by what was drawn has settled, or it or a later one of its key is in flight. */
  ghost predicate DrawnOk(l: Lane, w: seq<VItem>, r: seq<VItem>, vb: Vb) {
    && l.h.drawnUpTo <= |l.h.accepted|
    && (forall x :: InFlight(w, r, vb, x) ==> x.uid <= l.stamp)
    && forall j :: 0 <= j < l.h.drawnUpTo ==> Settled(l, j) || Flying(l, w, r, vb, j)
  }

  ghost predicate Flying(l: Lane, w: seq<VItem>, r: seq<VItem>, vb: Vb, j: nat)
    requires j < |l.h.accepted|
  {
    exists x :: InFlight(w, r, vb, x) && Supersedes(x, l.h.accepted[j])
  }

  /** Nothing processed or in flight is as new as mutation `j`. */
  ghost predicate Newer(l: Lane, w: seq<VItem>, r: seq<VItem>, vb: Vb, j: nat)
    requires j < |l.h.accepted|
  {
    && (forall k :: 0 <= k < |l.processed| ==> l.processed[k].uid < l.h.accepted[j].uid)
    && (forall x :: InFlight(w, r, vb, x) ==> x.uid < l.h.accepted[j].uid)
  }

  /** A mutation not covered by what was drawn is newer than all that was. */
  ghost predicate AheadOk(l: Lane, w: seq<VItem>, r: seq<VItem>, vb: Vb) {
    forall j :: l.h.drawnUpTo <= j < |l.h.accepted| ==> Newer(l, w, r, vb, j)
  }

  /** What holds of a vbucket whatever happens to it. */
  ghost predicate LaneOk(l: Lane, w: seq<VItem>, r: seq<VItem>, vb: Vb) {
    HistoryOk(l) && BatchOk(l, w, r, vb) && DrawnOk(l, w, r, vb) && AheadOk(l, w, r, vb)
  }

  ghost predicate PhaseOk(p: Pipe) {
    && (p.phase.Idle? ==> p.writing == [] && p.rejects == [])
    && (p.phase.Drawing? ==>
          && p.rejects == []
          && (forall i :: 0 <= i < |p.writing| ==> p.writing[i].vb !in p.phase.todo))
  }

  /** Kept by every step, whatever is discarded or renamed. */
  ghost predicate PipeInv(p: Pipe) {
    && PipeOk(p) && PhaseOk(p)
    && forall vb :: vb in p.lanes ==> LaneOk(p.lanes[vb], p.writing, p.rejects, vb)
  }

  // ---------------------------------------------------------------- queue events

  /** What an event of the queue makes of the accepted mutations: more, fewer, or the same. */
  lemma AcceptedAfter(h: History, e: Event)
    requires WF(h.q) && Enabled(h.q, e) && InPlace(h)
    ensures var h' := Next(h, e);
            && (if e.Put? && |h'.accepted| == |h.accepted| + 1
                then h'.accepted[..|h.accepted|] == h.accepted && h'.accepted[|h.accepted|].uid == e.x.uid
                else h'.accepted <= h.accepted)
            && (!e.Persist? ==>
                  && h'.drawnUpTo <= h.drawnUpTo
                  && (h'.drawnUpTo == h.drawnUpTo || h'.drawnUpTo == |h'.accepted|))
  {
    hide ListOk, Apply, Closing, Ahead, ClosedAhead, SentBy, Held, RenameLog, Drawn, Placed, Tail;
    ApplyWF(h.q, e);
    if Discards(h.q, e) {
      hide Discards;
      RestartCovers(h, e);
    }
  }

  lemma RestartCovers(h: History, e: Event)
    requires InPlace(h) && WF(Apply(h.q, e)) && (e.CheckpointStart? || e.ClearAll?)
    ensures var h' := Restart(h, e);
            && h'.accepted <= h.accepted && h'.drawnUpTo <= h.drawnUpTo
            && (h'.drawnUpTo == h.drawnUpTo || h'.drawnUpTo == |h'.accepted|)
  {
    hide ListOk, Apply, Ahead, SegOk, Latest;
    var k := KeptChks(h.q, e);
    if e.CheckpointStart? && k <= h.q.persist.chk {
      assert h.starts[k] <= h.starts[h.q.persist.chk] <= h.drawnUpTo;
    }
  }

  lemma SettledKept(l: Lane, l': Lane, j: nat)
    requires j < |l.h.accepted| && j < |l'.h.accepted| && l'.h.accepted[j] == l.h.accepted[j]
    requires Settled(l, j) && l.processed <= l'.processed
    ensures Settled(l', j)
  {
    var k :| 0 <= k < |l.processed| && Supersedes(l.processed[k], l.h.accepted[j]);
    assert l'.processed[k] == l.processed[k];
  }

  lemma FlyingKept(l: Lane, l': Lane, w: seq<VItem>, r: seq<VItem>, vb: Vb, j: nat)
    requires j < |l.h.accepted| && j < |l'.h.accepted| && l'.h.accepted[j] == l.h.accepted[j]
    requires Flying(l, w, r, vb, j)
    ensures Flying(l', w, r, vb, j)
  {
    hide InFlight;
  }

  lemma NumberedMore(acc: seq<Item>, acc': seq<Item>, stamp: nat, stamp': nat)
    requires Numbered(acc, stamp) && stamp <= stamp'
    requires || acc' <= acc
             || (|acc'| == |acc| + 1 && acc'[..|acc|] == acc && acc'[|acc|].uid == stamp' == stamp + 1)
    ensures Numbered(acc', stamp')
  {
    assert forall j :: 0 <= j < |acc'| && j < |acc| ==> acc'[j] == acc[j];
  }

  /** Any event of the queue, those that discard items or lower ids included. */
  lemma QueueLane(l: Lane, e: Event, w: seq<VItem>, r: seq<VItem>, vb: Vb)
    requires LaneOk(l, w, r, vb) && !e.Persist? && Enabled(l.h.q, e)
    ensures LaneOk(LaneQueue(l, e), w, r, vb)
  {
    hide ListOk, Next, LastWriterWins, Barred, Placed, InFlight, Latest, Settled, Flying, Numbered, BatchOk, AheadOk;
    var l', e' := LaneQueue(l, e), Stamped(l, e);
    StampedEnabled(l, e);
    QueueAhead(l, e, w, r, vb);
    SoundNext(l.h, e');
    AcceptedAfter(l.h, e');
    NumberedMore(l.h.accepted, l'.h.accepted, l.stamp, l'.stamp);
    assert BatchOk(l', w, r, vb) by { SameBatch(l, l', w, r, vb); }
    DrawnBounds(l'.h);
    forall j | 0 <= j < l'.h.drawnUpTo ensures Settled(l', j) || Flying(l', w, r, vb, j) {
      assert l'.h.accepted[j] == l.h.accepted[j];
      if Settled(l, j) {
        SettledKept(l, l', j);
      } else {
        FlyingKept(l, l', w, r, vb, j);
      }
    }
  }

  /** A new mutation is newer than everything; the others, if still there, are covered as before. */
  lemma QueueAhead(l: Lane, e: Event, w: seq<VItem>, r: seq<VItem>, vb: Vb)
    requires LaneOk(l, w, r, vb) && !e.Persist? && Enabled(l.h.q, e)
    ensures AheadOk(LaneQueue(l, e), w, r, vb)
  {
    hide ListOk, Next, LastWriterWins, Barred, Placed, InFlight, Latest, Settled, Flying, Numbered, BatchOk;
    var l', e' := LaneQueue(l, e), Stamped(l, e);
    StampedEnabled(l, e);
    AcceptedAfter(l.h, e');
    forall j | l'.h.drawnUpTo <= j < |l'.h.accepted| ensures Newer(l', w, r, vb, j) {
      if j < |l.h.accepted| {
        assert l'.h.accepted[j] == l.h.accepted[j] && Newer(l, w, r, vb, j);
      }
    }
  }

  lemma StampedEnabled(l: Lane, e: Event)
    requires WF(l.h.q) && Enabled(l.h.q, e)
    ensures Enabled(l.h.q, Stamped(l, e))
  {
    hide ListOk, KeepBelow;
  }

  lemma SameBatch(l: Lane, l': Lane, w: seq<VItem>, r: seq<VItem>, vb: Vb)
    requires BatchOk(l, w, r, vb) && l'.log == l.log && l'.processed == l.processed
    ensures BatchOk(l', w, r, vb)
  {
    hide InFlight, Latest;
  }

  lemma DrawnBounds(h: History)
    requires InPlace(h)
    ensures h.drawnUpTo <= |h.accepted| == |h.acceptedIn| && AllMutations(h.accepted)
  {
    hide ListOk, Lined, Passed;
    PlacedSize(h.q, h.accepted, h.acceptedIn, h.starts, h.drawnUpTo, h.heldAt);
  }

  // ---------------------------------------------------------------- drawing a batch

  lemma DrawBatch(l: Lane, backfill: seq<Item>, order: seq<Item>, w: seq<VItem>, vb: Vb)
    requires LaneOk(l, w, [], vb) && KeepsLast(order, backfill + Drawn(l.h.q))
    requires forall i :: 0 <= i < |w| ==> w[i].vb != vb
    ensures BatchOk(LaneDraw(l, backfill), w + Tagged(vb, order), [], vb)
  {
    hide ListOk, Next, HistoryOk, DrawnOk, AheadOk, Latest, Drawn;
    assert WF(l.h.q) by { HistoryWF(l); }
    var items := backfill + Drawn(l.h.q);
    var w' := w + Tagged(vb, order);
    LatestConcat(l.log, items);
    forall x ensures InFlight(w', [], vb, x) <==> x in order {
      TaggedIn(w, order, vb, x);
    }
    hide InFlight;
    KeepsLastMutations(order, items);
  }

  lemma HistoryWF(l: Lane)
    requires HistoryOk(l)
    ensures WF(l.h.q)
  {
  }

  lemma TaggedIn(w: seq<VItem>, order: seq<Item>, vb: Vb, x: Item)
    requires forall i :: 0 <= i < |w| ==> w[i].vb != vb
    ensures InFlight(w + Tagged(vb, order), [], vb, x) <==> x in order
  {
    if x in order {
      var i :| 0 <= i < |order| && order[i] == x;
      assert (w + Tagged(vb, order))[|w| + i] == VItem(vb, x);
    }
  }

  lemma DrawDrawn(l: Lane, backfill: seq<Item>, order: seq<Item>, w: seq<VItem>, vb: Vb)
    requires LaneOk(l, w, [], vb) && KeepsLast(order, backfill + Drawn(l.h.q)) && NotQueued(backfill)
    requires forall i :: 0 <= i < |w| ==> w[i].vb != vb
    ensures DrawnOk(LaneDraw(l, backfill), w + Tagged(vb, order), [], vb)
  {
    hide ListOk, BatchOk, Latest, Drawn, LastWriterWins, Barred, Placed, Settled, Flying, Next, KeepsLast, NotQueued;
    hide AheadOk;
    DrawFresh(l.h);
    DrawnBounds(l.h);
    var l', w' := LaneDraw(l, backfill), w + Tagged(vb, order);
    forall x | InFlight(w', [], vb, x) ensures x.uid <= l.stamp {
      TaggedIn(w, order, vb, x);
      DrawnUid(l, backfill, order, x);
    }
    hide InFlight;
    forall j | 0 <= j < l'.h.drawnUpTo ensures Settled(l', j) || Flying(l', w', [], vb, j) {
      DrawOne(l, backfill, order, w, vb, j);
    }
  }

  /** A drawn item is an accepted mutation that the draw covers, or from the backfill. */
  lemma DrawnUid(l: Lane, backfill: seq<Item>, order: seq<Item>, x: Item)
    requires HistoryOk(l) && KeepsLast(order, backfill + Drawn(l.h.q)) && NotQueued(backfill) && x in order
    ensures x.uid <= l.stamp
    ensures forall j :: Next(l.h, Persist).drawnUpTo <= j < |l.h.accepted| ==> x.uid < l.h.accepted[j].uid
  {
    hide ListOk, Latest, Drawn, LastWriterWins, Barred, Placed, Next, KeepsLast;
    DrawFresh(l.h);
    var items, acc := Drawn(l.h.q), l.h.accepted[l.h.drawnUpTo..Next(l.h, Persist).drawnUpTo];
    KeepsLastMutations(order, backfill + items);
    LatestConcat(backfill, items);
    if x.key in Latest(items) {
      var i := LatestIndex(acc, x.key);
      assert acc[i] == l.h.accepted[l.h.drawnUpTo + i];
    } else {
      var i := LatestIndex(backfill, x.key);
    }
  }

  lemma DrawAhead(l: Lane, backfill: seq<Item>, order: seq<Item>, w: seq<VItem>, vb: Vb)
    requires LaneOk(l, w, [], vb) && KeepsLast(order, backfill + Drawn(l.h.q)) && NotQueued(backfill)
    requires forall i :: 0 <= i < |w| ==> w[i].vb != vb
    ensures AheadOk(LaneDraw(l, backfill), w + Tagged(vb, order), [], vb)
  {
    hide ListOk, BatchOk, Latest, Drawn, LastWriterWins, Barred, Placed, Next, KeepsLast, NotQueued, DrawnOk, Numbered;
    DrawFresh(l.h);
    var l', w' := LaneDraw(l, backfill), w + Tagged(vb, order);
    forall j | l'.h.drawnUpTo <= j < |l'.h.accepted| ensures Newer(l', w', [], vb, j) {
      assert Newer(l, w, [], vb, j);
      forall x | InFlight(w', [], vb, x) ensures x.uid < l'.h.accepted[j].uid {
        TaggedIn(w, order, vb, x);
        DrawnUid(l, backfill, order, x);
      }
    }
  }

  /** One mutation covered by the new draw: its key is in the batch, or it had settled before. */
  lemma DrawOne(l: Lane, backfill: seq<Item>, order: seq<Item>, w: seq<VItem>, vb: Vb, j: nat)
    requires LaneOk(l, w, [], vb) && KeepsLast(order, backfill + Drawn(l.h.q))
    requires forall i :: 0 <= i < |w| ==> w[i].vb != vb
    requires j < LaneDraw(l, backfill).h.drawnUpTo
    ensures j < |l.h.accepted| == |LaneDraw(l, backfill).h.accepted|
    ensures Settled(LaneDraw(l, backfill), j) || Flying(LaneDraw(l, backfill), w + Tagged(vb, order), [], vb, j)
  {
    hide ListOk, BatchOk, Latest, Drawn, LastWriterWins, Barred, Placed, Settled, Next, KeepsLast, AheadOk;
    DrawFresh(l.h);
    DrawnBounds(l.h);
    var l', acc, items := LaneDraw(l, backfill), l.h.accepted, Drawn(l.h.q);
    var n, n', k := l.h.drawnUpTo, l'.h.drawnUpTo, acc[j].key;
    if k in Latest(items) {
      LatestConcat(backfill, items);
      KeepsLastMutations(order, backfill + items);
      var x := Latest(items)[k];
      TaggedIn(w, order, vb, x);
      Later(acc, n, n', j, x);
    } else {
      if j >= n {
        LatestHas(acc[n..n'], j - n);
      }
      assert Settled(l, j) by {
        assert Settled(l, j) || Flying(l, w, [], vb, j);
      }
      SettledKept(l, l', j);
    }
  }

  /** The last of a key from `n` on supersedes any earlier one, and any before `n`. */
  lemma Later(acc: seq<Item>, n: nat, n': nat, j: nat, x: Item)
    requires n <= n' <= |acc| && j < n' && AllMutations(acc)
    requires forall i, j :: 0 <= i < j < |acc| ==> acc[i].uid < acc[j].uid
    requires acc[j].key in Latest(acc[n..n']) && x == Latest(acc[n..n'])[acc[j].key]
    ensures Supersedes(x, acc[j])
  {
    var s := acc[n..n'];
    var i := LatestIndex(s, acc[j].key);
    assert s[i] == acc[n + i] && (j >= n ==> s[j - n] == acc[j]);
  }

  lemma PersistDrawn(h: History)
    requires WF(h.q)
    ensures Next(h, Persist).drawn == h.drawn + Drawn(h.q) && Next(h, Persist).q == Draw(h.q)
    ensures Next(h, Persist).accepted == h.accepted && Next(h, Persist).acceptedIn == h.acceptedIn
  {
    hide ListOk, Drawn, DrawTo, Tail;
    ApplyWF(h.q, Persist);
  }

  lemma DrawLane(l: Lane, backfill: seq<Item>, order: seq<Item>, w: seq<VItem>, vb: Vb)
    requires LaneOk(l, w, [], vb) && KeepsLast(order, backfill + Drawn(l.h.q)) && NotQueued(backfill)
    requires forall i :: 0 <= i < |w| ==> w[i].vb != vb
    ensures LaneOk(LaneDraw(l, backfill), w + Tagged(vb, order), [], vb)
  {
    hide ListOk, Sound, InFlight, Latest, KeepsLast, Drawn, DrawnId, BatchOk, DrawnOk, Next, NotQueued, Numbered;
    hide AheadOk;
    DrawBatch(l, backfill, order, w, vb);
    DrawAhead(l, backfill, order, w, vb);
    DrawDrawn(l, backfill, order, w, vb);
    SoundNext(l.h, Persist);
    NextOk(l.h, Persist);
    PersistDrawn(l.h);
  }

  // ---------------------------------------------------------------- queues that agree

  /** A lane sees the queues only through what is in flight for it. */
  lemma SameFlight(l: Lane, w: seq<VItem>, r: seq<VItem>, w': seq<VItem>, r': seq<VItem>, vb: Vb)
    requires LaneOk(l, w, r, vb) && forall x :: InFlight(w', r', vb, x) <==> InFlight(w, r, vb, x)
    ensures LaneOk(l, w', r', vb)
  {
    hide HistoryOk, InFlight, Latest, Settled;
    forall j | l.h.drawnUpTo <= j < |l.h.accepted| ensures Newer(l, w', r', vb, j) {
      assert Newer(l, w, r, vb, j);
    }
  }

  lemma OtherTagged(w: seq<VItem>, r: seq<VItem>, vb: Vb, order: seq<Item>, o: Vb, x: Item)
    requires o != vb
    ensures InFlight(w + Tagged(vb, order), r, o, x) <==> InFlight(w, r, o, x)
  {
    if VItem(o, x) in w {
      var i :| 0 <= i < |w| && w[i] == VItem(o, x);
      assert (w + Tagged(vb, order))[i] == VItem(o, x);
    }
  }

  lemma HeadFlight(w: seq<VItem>, r: seq<VItem>, n: nat, o: Vb, x: Item)
    requires w != []
    ensures InFlight(w[1..], r + Copies(w[0], n), o, x) ==> InFlight(w, r, o, x)
    ensures InFlight(w, r, o, x) && (VItem(o, x) != w[0] || n > 0) ==> InFlight(w[1..], r + Copies(w[0], n), o, x)
  {
    var v := VItem(o, x);
    var r' := r + Copies(w[0], n);
    if v in r {
      var i :| 0 <= i < |r| && r[i] == v;
      assert r'[i] == v;
    }
    if v == w[0] && n > 0 {
      assert r'[|r|] == v;
    }
    if v in w && v != w[0] {
      var i :| 0 <= i < |w| && w[i] == v;
      assert w[1..][i - 1] == v;
    }
  }

  // ---------------------------------------------------------------- flushing one item

  lemma FlushLane(l: Lane, w: seq<VItem>, r: seq<VItem>, n: nat, wrote: bool)
    requires w != [] && LaneOk(l, w, r, w[0].vb)
    ensures var l' := if wrote || n == 0 then l.(processed := l.processed + [w[0].x]) else l;
            LaneOk(l', w[1..], r + Copies(w[0], n), w[0].vb)
  {
    hide Sound, Latest, InFlight, DrawnOk, Settled, Numbered, WF, AheadOk;
    var v := w[0];
    forall x
      ensures InFlight(w[1..], r + Copies(v, n), v.vb, x) ==> InFlight(w, r, v.vb, x)
      ensures InFlight(w, r, v.vb, x) && (x != v.x || n > 0) ==> InFlight(w[1..], r + Copies(v, n), v.vb, x)
    {
      HeadFlight(w, r, n, v.vb, x);
    }
    assert InFlight(w, r, v.vb, v.x) by { HeadIn(w, r); }
    FlushDrawn(l, w, r, n, wrote);
    FlushAhead(l, w, r, n, wrote);
    if wrote || n == 0 {
      var l' := l.(processed := l.processed + [v.x]);
      LatestAppend(l.processed, v.x);
      assert v.x.uid <= l.stamp by { FlyingUid(l, w, r, v.vb, v.x); }
      forall k | k in Latest(l.log) ensures Latest(l.log)[k].key == k {
        LatestKeys(l.log, k);
      }
      assert BatchOk(l', w[1..], r + Copies(v, n), v.vb);
    }
  }

  lemma FlyingUid(l: Lane, w: seq<VItem>, r: seq<VItem>, vb: Vb, x: Item)
    requires DrawnOk(l, w, r, vb) && InFlight(w, r, vb, x)
    ensures x.uid <= l.stamp
  {
    hide Settled, Flying, InFlight;
  }

  /** The mutations that the processed item settles leave the queues, unless copies of it stay. */
  lemma FlushDrawn(l: Lane, w: seq<VItem>, r: seq<VItem>, n: nat, wrote: bool)
    requires w != [] && DrawnOk(l, w, r, w[0].vb)
    ensures var l' := if wrote || n == 0 then l.(processed := l.processed + [w[0].x]) else l;
            DrawnOk(l', w[1..], r + Copies(w[0], n), w[0].vb)
  {
    hide InFlight, Settled, Flying;
    var v, w', r' := w[0], w[1..], r + Copies(w[0], n);
    var l' := if wrote || n == 0 then l.(processed := l.processed + [v.x]) else l;
    forall x | InFlight(w', r', v.vb, x) ensures x.uid <= l.stamp {
      HeadFlight(w, r, n, v.vb, x);
    }
    forall j | 0 <= j < l.h.drawnUpTo ensures Settled(l', j) || Flying(l', w', r', v.vb, j) {
      if Settled(l, j) {
        SettledKept(l, l', j);
      } else {
        FlyOn(l, l', w, r, n, j);
      }
    }
  }

  lemma FlushAhead(l: Lane, w: seq<VItem>, r: seq<VItem>, n: nat, wrote: bool)
    requires w != [] && AheadOk(l, w, r, w[0].vb)
    ensures var l' := if wrote || n == 0 then l.(processed := l.processed + [w[0].x]) else l;
            AheadOk(l', w[1..], r + Copies(w[0], n), w[0].vb)
  {
    hide InFlight;
    var v, w', r' := w[0], w[1..], r + Copies(w[0], n);
    var l' := if wrote || n == 0 then l.(processed := l.processed + [v.x]) else l;
    HeadIn(w, r);
    forall j | l.h.drawnUpTo <= j < |l.h.accepted| ensures Newer(l', w', r', v.vb, j) {
      assert Newer(l, w, r, v.vb, j);
      forall x | InFlight(w', r', v.vb, x) ensures x.uid < l.h.accepted[j].uid {
        HeadFlight(w, r, n, v.vb, x);
      }
    }
  }

  lemma FlyOn(l: Lane, l': Lane, w: seq<VItem>, r: seq<VItem>, n: nat, j: nat)
    requires w != [] && j < |l.h.accepted| && Flying(l, w, r, w[0].vb, j)
    requires l' == l.(processed := l.processed + [w[0].x]) || (l' == l && n > 0)
    ensures Settled(l', j) || Flying(l', w[1..], r + Copies(w[0], n), w[0].vb, j)
  {
    hide InFlight;
    var x :| InFlight(w, r, w[0].vb, x) && Supersedes(x, l.h.accepted[j]);
    HeadFlight(w, r, n, w[0].vb, x);
    if x == w[0].x && n == 0 {
      assert l'.processed[|l.processed|] == x;
    }
  }

  lemma HeadIn(w: seq<VItem>, r: seq<VItem>)
    requires w != []
    ensures InFlight(w, r, w[0].vb, w[0].x)
  {
    assert w[0] == VItem(w[0].vb, w[0].x);
  }

  // ---------------------------------------------------------------- publishing

  lemma PublishFlow(l: Lane, w: seq<VItem>, r: seq<VItem>, vb: Vb, id: nat)
    requires LaneOk(l, w, r, vb)
    ensures LaneOk(l.(published := id), w, r, vb)
  {
    hide Sound, WF, InFlight, Latest, Numbered;
    var l' := l.(published := id);
    forall j | 0 <= j < |l.h.accepted| ensures Settled(l, j) ==> Settled(l', j) { }
    forall j | 0 <= j < |l.h.accepted| ensures Flying(l, w, r, vb, j) ==> Flying(l', w, r, vb, j) { }
    assert forall j :: l.h.drawnUpTo <= j < |l.h.accepted| && Newer(l, w, r, vb, j) ==> Newer(l', w, r, vb, j);
    hide Settled, Flying, Newer;
  }

  // ---------------------------------------------------------------- every event keeps the invariant

  lemma QueueStep(p: Pipe, vb: Vb, e: Event)
    requires PipeInv(p) && Can(p, QueueEvent(vb, e))
    ensures PipeInv(Do(p, QueueEvent(vb, e)))
  {
    hide WF, LaneOk;
    LaneWF(p, vb);
    QueueLane(p.lanes[vb], e, p.writing, p.rejects, vb);
    StampedEnabled(p.lanes[vb], e);
    NextOk(p.lanes[vb].h, Stamped(p.lanes[vb], e));
    hide Next, Enabled, Stamped;
  }

  lemma LaneWF(p: Pipe, vb: Vb)
    requires PipeInv(p) && vb in p.lanes
    ensures WF(p.lanes[vb].h.q) && LaneOk(p.lanes[vb], p.writing, p.rejects, vb)
  {
  }

  lemma DrawStep(p: Pipe, vb: Vb, backfill: seq<Item>, order: seq<Item>)
    requires PipeInv(p) && Can(p, DrawVb(vb, backfill, order))
    ensures PipeInv(Do(p, DrawVb(vb, backfill, order)))
  {
    hide WF, LaneOk, KeepsLast, Drawn, DrawnId, Next, NotQueued;
    LaneWF(p, vb);
    DrawLane(p.lanes[vb], backfill, order, p.writing, vb);
    NextOk(p.lanes[vb].h, Persist);
    var p' := Do(p, DrawVb(vb, backfill, order));
    forall o | o in p.lanes && o != vb ensures LaneOk(p'.lanes[o], p'.writing, p'.rejects, o) {
      forall x ensures InFlight(p'.writing, [], o, x) <==> InFlight(p.writing, [], o, x) {
        OtherTagged(p.writing, [], vb, order, o, x);
      }
      SameFlight(p.lanes[o], p.writing, [], p'.writing, [], o);
    }
  }

  lemma FlushStep(p: Pipe, copies: nat, wrote: bool)
    requires PipeInv(p) && Can(p, FlushOne(copies, wrote))
    ensures PipeInv(Do(p, FlushOne(copies, wrote)))
  {
    hide WF, LaneOk;
    var v := p.writing[0];
    var p' := Do(p, FlushOne(copies, wrote));
    FlushLane(p.lanes[v.vb], p.writing, p.rejects, copies, wrote);
    forall o | o in p.lanes && o != v.vb ensures LaneOk(p'.lanes[o], p'.writing, p'.rejects, o) {
      forall x ensures InFlight(p'.writing, p'.rejects, o, x) <==> InFlight(p.writing, p.rejects, o, x) {
        HeadFlight(p.writing, p.rejects, copies, o, x);
      }
      SameFlight(p.lanes[o], p.writing, p.rejects, p'.writing, p'.rejects, o);
    }
  }

  /** Moving items between the queues changes nothing that is in flight. */
  lemma MoveStep(p: Pipe, e: PipeEvent)
    requires PipeInv(p) && Can(p, e) && (e.RejectAll? || e.RequeueRejects?)
    ensures PipeInv(Do(p, e))
  {
    hide WF, LaneOk;
    var p' := Do(p, e);
    forall o | o in p.lanes ensures LaneOk(p'.lanes[o], p'.writing, p'.rejects, o) {
      forall x ensures InFlight(p'.writing, p'.rejects, o, x) <==> InFlight(p.writing, p.rejects, o, x) {
      }
      SameFlight(p.lanes[o], p.writing, p.rejects, p'.writing, p'.rejects, o);
    }
  }

  lemma CompleteStep(p: Pipe, alive: set<Vb>)
    requires PipeInv(p) && Can(p, Complete(alive))
    ensures PipeInv(Do(p, Complete(alive)))
  {
    hide WF, LaneOk;
    forall o | o in p.lanes ensures LaneOk(Do(p, Complete(alive)).lanes[o], [], [], o) {
      PublishFlow(p.lanes[o], [], [], o, p.lanes[o].pending);
    }
  }

  lemma PublishStep(p: Pipe, vb: Vb, id: nat)
    requires PipeInv(p) && Can(p, Publish(vb, id))
    ensures PipeInv(Do(p, Publish(vb, id)))
  {
    hide WF, LaneOk;
    PublishFlow(p.lanes[vb], p.writing, p.rejects, vb, id);
  }

  /** Every step, whatever is discarded, renamed or published. */
  lemma PipeStep(p: Pipe, e: PipeEvent)
    requires PipeInv(p) && Can(p, e)
    ensures PipeInv(Do(p, e))
  {
    hide WF, LaneOk;
    match e {
      case QueueEvent(vb, qe) => hide PipeInv; QueueStep(p, vb, qe);
      case DrawVb(vb, backfill, order) => hide PipeInv; DrawStep(p, vb, backfill, order);
      case FlushOne(copies, wrote) => hide PipeInv; FlushStep(p, copies, wrote);
      case RejectAll => hide PipeInv; MoveStep(p, e);
      case RequeueRejects => hide PipeInv; MoveStep(p, e);
      case Complete(alive) => hide PipeInv; CompleteStep(p, alive);
      case Publish(vb, id) => hide PipeInv; PublishStep(p, vb, id);
      case Begin =>
      case SkipVb(vb) =>
      case DrawDone =>
    }
  }

  // ---------------------------------------------------------------- runs

  lemma DoOk(p: Pipe, e: PipeEvent)
    requires PipeOk(p) && Can(p, e)
    ensures PipeOk(Do(p, e))
  {
    hide WF, KeepsLast, Drawn, DrawnId;
    match e {
      case QueueEvent(vb, qe) =>
        StampedEnabled(p.lanes[vb], qe);
        NextOk(p.lanes[vb].h, Stamped(p.lanes[vb], qe));
        hide Next, Enabled, Stamped;
      case DrawVb(vb, _, _) => NextOk(p.lanes[vb].h, Persist); hide Next;
      case _ =>
    }
  }

  ghost predicate IsPipeRun(p: Pipe, es: seq<PipeEvent>)
    requires PipeOk(p)
    decreases |es|
  {
    es == [] || (Can(p, es[0]) && (DoOk(p, es[0]); IsPipeRun(Do(p, es[0]), es[1..])))
  }

  ghost function ExecPipe(p: Pipe, es: seq<PipeEvent>): Pipe
    requires PipeOk(p) && IsPipeRun(p, es)
    decreases |es|
  {
    if es == [] then p else (DoOk(p, es[0]); ExecPipe(Do(p, es[0]), es[1..]))
  }

  /** New managers for these vbuckets, nothing drawn. */
  function InitPipe(ids: map<Vb, nat>): Pipe {
    Pipe(map vb | vb in ids :: Lane(Runs.Init(ids[vb]), [], [], 0, 0, 0), Idle, [], [])
  }

  lemma InitInv(ids: map<Vb, nat>)
    ensures PipeInv(InitPipe(ids))
  {
    hide LaneOk, WF, Runs.Init;
    var p := InitPipe(ids);
    forall vb | vb in ids
      ensures WF(p.lanes[vb].h.q) && LaneOk(p.lanes[vb], [], [], vb)
    {
      InitLane(ids[vb], vb);
    }
  }

  lemma InitLane(id: nat, vb: Vb)
    ensures var l := Lane(Runs.Init(id), [], [], 0, 0, 0);
            WF(l.h.q) && LaneOk(l, [], [], vb)
  {
    hide Runs.Init, Sound, WF, Latest;
    assert Latest([]) == map[] by { LatestMeta([]); }
    InitSound(id);
    InitLogs(id);
  }

  lemma InitLogs(id: nat)
    ensures var h := Runs.Init(id);
            h.accepted == [] && h.acceptedIn == [] && h.drawnUpTo == 0 && h.q.chks != []
  {
    assert WF(Queue([NewChk(id)], Pos(0, 0), map[], None)) by { NewOk(id); }
    hide WF, Ahead;
  }

  lemma {:induction false} PipeRun(p: Pipe, es: seq<PipeEvent>)
    requires PipeInv(p) && IsPipeRun(p, es)
    ensures PipeInv(ExecPipe(p, es))
    decreases |es|
  {
    hide LaneOk, WF, Do, Can;
    if es != [] {
      DoOk(p, es[0]);
      PipeStep(p, es[0]);
      PipeRun(Do(p, es[0]), es[1..]);
    }
  }

  /**
   Flush cycles lose nothing and reorder no key: between cycles, replaying what was processed gives the
   same store as replaying everything drawn, in the order it was drawn.
   */
  lemma CyclesComplete(ids: map<Vb, nat>, es: seq<PipeEvent>, vb: Vb, store: Store)
    requires PipeOk(InitPipe(ids)) && IsPipeRun(InitPipe(ids), es) && vb in ExecPipe(InitPipe(ids), es).lanes
    requires ExecPipe(InitPipe(ids), es).phase.Idle?
    ensures var l := ExecPipe(InitPipe(ids), es).lanes[vb];
            Replay(store, l.processed) == Replay(store, l.log)
  {
    hide HistoryOk, DrawnOk, WF, InitPipe, IsPipeRun, ExecPipe, Latest;
    InitInv(ids);
    PipeRun(InitPipe(ids), es);
    var l := ExecPipe(InitPipe(ids), es).lanes[vb];
    assert BatchOk(l, [], [], vb);
    assert Latest(l.processed) == Latest(l.log);
    SameLatestSameStore(store, l.processed, l.log);
  }

  /** No batch is drawn for a vbucket while any of its items is still in a queue. */
  lemma NoOverlap(ids: map<Vb, nat>, es: seq<PipeEvent>, e: PipeEvent, x: Item)
    requires PipeOk(InitPipe(ids)) && IsPipeRun(InitPipe(ids), es)
    requires e.DrawVb? && PipeOk(ExecPipe(InitPipe(ids), es)) && Can(ExecPipe(InitPipe(ids), es), e)
    ensures var p := ExecPipe(InitPipe(ids), es); !InFlight(p.writing, p.rejects, e.vb, x)
  {
    hide LaneOk, WF, InitPipe, IsPipeRun, ExecPipe;
    InitInv(ids);
    PipeRun(InitPipe(ids), es);
  }

  lemma OkOf(p: Pipe)
    requires PipeInv(p)
    ensures PipeOk(p)
  {
    hide LaneOk;
  }
}
