/**
 When a published checkpoint id is true: every mutation recorded under that id or a lower one was processed, or a
 later one of its key was. The drawn id of a vbucket is published when a cycle completes, and callers publish ids
 themselves; meanwhile the queue may be rolled back, cleared or given other ids. The guard says of each step, from
 what is known before it, whether it keeps published ids true: no more and no less.
 */
module PublishedIds {
  import opened Items
  import opened UnifiedQueue
  import opened Pending
  import opened Runs
  import opened Delivery
  import opened OnlineUpdate
  import opened Placement
  import opened FlushBatch
  import opened FlushPipeline

  /** Will the drawn id be published when the cycle completes, without another draw? */
  predicate Armed(phase: Phase, vb: Vb) {
    phase.Flushing? || (phase.Drawing? && vb !in phase.todo)
  }

  /** Publishing `id` says that the mutations recorded under `tag` are persisted; 0 says nothing. */
  predicate Claims(id: nat, tag: nat) {
    0 < id && tag <= id
  }

  /** Mutation `j`, recorded under `tag`: the published id is true of it, and so will the drawn one be. */
  ghost predicate Honest(l: Lane, armed: bool, tag: nat, j: nat)
    requires j < |l.h.accepted|
  {
    (Claims(l.published, tag) ==> Settled(l, j)) && (armed && Claims(l.pending, tag) ==> j < l.h.drawnUpTo)
  }

  ghost predicate LaneTrue(l: Lane, armed: bool) {
    && |l.h.acceptedIn| == |l.h.accepted|
    && forall j :: 0 <= j < |l.h.accepted| ==> Honest(l, armed, l.h.acceptedIn[j], j)
  }

  /** Everything published is true, and everything about to be. */
  ghost predicate Truthful(p: Pipe) {
    forall vb :: vb in p.lanes ==> LaneTrue(p.lanes[vb], Armed(p.phase, vb))
  }

  /** The published id, or a drawn one about to be published, covers checkpoint `id`. */
  predicate Claimed(l: Lane, armed: bool, id: nat) {
    Claims(l.published, id) || (armed && Claims(l.pending, id))
  }

  /** The first mutation of the last checkpoint. */
  function LastFrom(h: History): nat {
    if h.starts == [] then 0 else h.starts[|h.starts| - 1]
  }

  /**
   A mutation must not go to a checkpoint that is, or is about to be, published; nor may a checkpoint be given the
   id of one, but for mutations in it that have settled, or were drawn. Whatever discards items is safe.
   */
  ghost predicate QueueGuard(l: Lane, e: Event, armed: bool)
    requires WF(l.h.q)
  {
    if Discards(l.h.q, e) then true
    else if e.Put? then Accepts(l.h.q, e.active) ==> !Claimed(l, armed, Last(l.h.q.chks).id)
    else if NewId(l.h.q, e).Some? then
      forall j :: LastFrom(l.h) <= j < |l.h.accepted| ==> Honest(l, armed, NewId(l.h.q, e).value, j)
    else true
  }

  /** Everything recorded under `id` or a lower one was drawn. */
  predicate DrawnTo(l: Lane, id: nat) {
    forall j :: 0 <= j < |l.h.accepted| && j < |l.h.acceptedIn| && Claims(id, l.h.acceptedIn[j]) ==> j < l.h.drawnUpTo
  }

  /** None of the first `n` mutations that `id` covers is still in a queue without having been written. */
  ghost predicate FlushedTo(l: Lane, w: seq<VItem>, r: seq<VItem>, vb: Vb, n: nat, id: nat) {
    forall j :: 0 <= j < n && j < |l.h.accepted| && j < |l.h.acceptedIn| && Claims(id, l.h.acceptedIn[j]) ==>
      !Flying(l, w, r, vb, j) || Settled(l, j)
  }

  /**
   What keeps published ids true, and can be checked before each step: the condition on queue events; a vbucket
   passed over in a draw has nothing ahead that its outdated drawn id covers; and a caller publishes only what was
   drawn and has left the queues.
   */
  ghost predicate Guard(p: Pipe, e: PipeEvent)
    requires PipeOk(p) && Can(p, e)
  {
    match e
    case QueueEvent(vb, qe) => QueueGuard(p.lanes[vb], qe, Armed(p.phase, vb))
    case SkipVb(vb) => vb in p.lanes ==> DrawnTo(p.lanes[vb], p.lanes[vb].pending)
    case Publish(vb, id) =>
      var l := p.lanes[vb];
      DrawnTo(l, id) && FlushedTo(l, p.writing, p.rejects, vb, |l.h.accepted|, id)
    case _ => true
  }

  // ---------------------------------------------------------------- settled and drawn mutations

  lemma LaneSizes(l: Lane, w: seq<VItem>, r: seq<VItem>, vb: Vb)
    requires LaneOk(l, w, r, vb)
    ensures WF(l.h.q) && l.h.drawnUpTo <= |l.h.accepted| == |l.h.acceptedIn|
  {
    hide ListOk, LastWriterWins, Barred, Placed, BatchOk, DrawnOk, AheadOk, Numbered;
    DrawnBounds(l.h);
  }

  /** A mutation has settled exactly if it was drawn and does not wait in a queue without having been written. */
  lemma SettledIff(l: Lane, w: seq<VItem>, r: seq<VItem>, vb: Vb, j: nat)
    requires LaneOk(l, w, r, vb) && j < |l.h.accepted|
    ensures Settled(l, j) <==> j < l.h.drawnUpTo && (!Flying(l, w, r, vb, j) || Settled(l, j))
  {
    hide HistoryOk, BatchOk, Flying, InFlight;
    if j < l.h.drawnUpTo {
      assert Settled(l, j) || Flying(l, w, r, vb, j);
    } else {
      assert Newer(l, w, r, vb, j);
    }
  }

  lemma HonestKept(l: Lane, l': Lane, armed: bool, tag: nat, j: nat)
    requires j < |l.h.accepted| && j < |l'.h.accepted| && l'.h.accepted[j] == l.h.accepted[j]
    requires l'.processed == l.processed && l'.published == l.published && l'.pending == l.pending
    requires l'.h.drawnUpTo == l.h.drawnUpTo || (l'.h.drawnUpTo == |l'.h.accepted| <= l.h.drawnUpTo)
    ensures Honest(l', armed, tag, j) <==> Honest(l, armed, tag, j)
  {
  }

  // ---------------------------------------------------------------- queue events

  /** What an event makes of the ids that mutations are recorded under. */
  lemma TagsAfter(h: History, e: Event)
    requires WF(h.q) && Enabled(h.q, e) && InPlace(h) && !e.Persist?
    ensures var h' := Next(h, e);
            if e.Put? && Accepts(h.q, e.active) then
              |h'.accepted| == |h.accepted| + 1 && h'.acceptedIn == h.acceptedIn + [Last(h.q.chks).id]
            else if !Discards(h.q, e) && NewId(h.q, e).Some? then
              h'.accepted == h.accepted && h'.acceptedIn == Retag(h.acceptedIn, LastFrom(h), NewId(h.q, e).value)
            else h'.accepted <= h.accepted && h'.acceptedIn <= h.acceptedIn
  {
    hide ListOk, Closing, Ahead, ClosedAhead, SentBy, Held, RenameLog, Drawn, Placed, Tail, KeepBelow, Apply;
    ApplyWF(h.q, e);
    DrawnBounds(h);
  }

  lemma QueueFrame(l: Lane, e: Event, w: seq<VItem>, r: seq<VItem>, vb: Vb)
    requires LaneOk(l, w, r, vb) && !e.Persist? && Enabled(l.h.q, e)
    ensures var l' := LaneQueue(l, e);
            && LaneOk(l', w, r, vb)
            && l'.h.drawnUpTo <= |l'.h.accepted| == |l'.h.acceptedIn|
            && (l'.h.drawnUpTo == l.h.drawnUpTo || (l'.h.drawnUpTo == |l'.h.accepted| <= l.h.drawnUpTo))
            && (forall j :: 0 <= j < |l.h.accepted| && j < |l'.h.accepted| ==> l'.h.accepted[j] == l.h.accepted[j])
            && TagsOf(l, e, l')
  {
    hide ListOk, Next, LastWriterWins, Barred, Placed, BatchOk, DrawnOk, AheadOk, Numbered, Discards, NewId, LastFrom;
    var l', e' := LaneQueue(l, e), Stamped(l, e);
    QueueLane(l, e, w, r, vb);
    StampedEnabled(l, e);
    StampedSame(l, e);
    AcceptedAfter(l.h, e');
    TagsAfter(l.h, e');
    LaneSizes(l', w, r, vb);
  }

  lemma StampedSame(l: Lane, e: Event)
    requires WF(l.h.q)
    ensures Discards(l.h.q, Stamped(l, e)) == Discards(l.h.q, e) && NewId(l.h.q, Stamped(l, e)) == NewId(l.h.q, e)
    ensures Stamped(l, e).Put? == e.Put? && (e.Put? ==> Stamped(l, e).active == e.active)
    ensures Stamped(l, e).Persist? == e.Persist?
  {
    hide ListOk, KeepBelow;
  }

  /** The ids recorded for the mutations after a queue event. */
  predicate TagsOf(l: Lane, e: Event, l': Lane)
    requires WF(l.h.q)
  {
    if e.Put? && Accepts(l.h.q, e.active) then
      |l'.h.accepted| == |l.h.accepted| + 1 && l'.h.acceptedIn == l.h.acceptedIn + [Last(l.h.q.chks).id]
    else if !Discards(l.h.q, e) && NewId(l.h.q, e).Some? then
      && l'.h.accepted == l.h.accepted
      && l'.h.acceptedIn == Retag(l.h.acceptedIn, LastFrom(l.h), NewId(l.h.q, e).value)
    else l'.h.accepted <= l.h.accepted && l'.h.acceptedIn <= l.h.acceptedIn
  }

  /** A queue event keeps what is or will be published true exactly if it meets its guard. */
  lemma QueueTrue(l: Lane, e: Event, w: seq<VItem>, r: seq<VItem>, vb: Vb, armed: bool)
    requires WF(l.h.q)
    requires LaneOk(l, w, r, vb) && LaneTrue(l, armed) && !e.Persist? && Enabled(l.h.q, e)
    ensures LaneTrue(LaneQueue(l, e), armed) <==> QueueGuard(l, e, armed)
  {
    hide ListOk, Next, Sound, BatchOk, DrawnOk, AheadOk, Numbered, Enabled, Honest, LastFrom;
    var l' := LaneQueue(l, e);
    QueueFrame(l, e, w, r, vb);
    LaneSizes(l, w, r, vb);
    forall j, tag | 0 <= j < |l.h.accepted| && j < |l'.h.accepted|
      ensures Honest(l', armed, tag, j) <==> Honest(l, armed, tag, j)
    {
      HonestKept(l, l', armed, tag, j);
    }
    assert forall j :: 0 <= j < |l.h.accepted| ==> Honest(l, armed, l.h.acceptedIn[j], j);
    var n := |l.h.accepted|;
    if e.Put? && Accepts(l.h.q, e.active) {
      WriteHonest(l, e, w, r, vb, armed);
      assert LaneTrue(l', armed) <==> Honest(l', armed, l'.h.acceptedIn[n], n);
    } else if !Discards(l.h.q, e) && NewId(l.h.q, e).Some? {
      var id, s := NewId(l.h.q, e).value, LastFrom(l.h);
      forall j | s <= j < n && LaneTrue(l', armed) ensures Honest(l', armed, id, j) {
        assert l'.h.acceptedIn[j] == id;
      }
      assert forall j :: 0 <= j < n ==> l'.h.acceptedIn[j] == if j >= s then id else l.h.acceptedIn[j];
    } else {
      assert forall j :: 0 <= j < |l'.h.accepted| ==> l'.h.acceptedIn[j] == l.h.acceptedIn[j];
    }
  }

  /** The new mutation is neither settled nor drawn, so nothing may claim it. */
  lemma WriteHonest(l: Lane, e: Event, w: seq<VItem>, r: seq<VItem>, vb: Vb, armed: bool)
    requires WF(l.h.q)
    requires LaneOk(l, w, r, vb) && e.Put? && Accepts(l.h.q, e.active) && Enabled(l.h.q, e)
    ensures var l', n := LaneQueue(l, e), |l.h.accepted|;
            && n < |l'.h.accepted| && !Settled(l', n)
            && (Honest(l', armed, Last(l.h.q.chks).id, n) <==> !Claimed(l, armed, Last(l.h.q.chks).id))
  {
    hide ListOk, Next, Sound, BatchOk, DrawnOk, AheadOk, Settled, Enabled;
    var l', n := LaneQueue(l, e), |l.h.accepted|;
    QueueFrame(l, e, w, r, vb);
    LaneSizes(l, w, r, vb);
    SettledIff(l', w, r, vb, n);
    QueueDrawn(l, e, w, r, vb);
  }

  lemma QueueDrawn(l: Lane, e: Event, w: seq<VItem>, r: seq<VItem>, vb: Vb)
    requires LaneOk(l, w, r, vb) && e.Put? && Enabled(l.h.q, e)
    ensures LaneQueue(l, e).h.drawnUpTo <= l.h.drawnUpTo
  {
    hide ListOk, Next, LastWriterWins, Barred, Placed, BatchOk, DrawnOk, AheadOk, Numbered;
    StampedEnabled(l, e);
    AcceptedAfter(l.h, Stamped(l, e));
  }

  // ---------------------------------------------------------------- the other steps

  /** The id of the checkpoint that persistence is in. */
  function PersistId(q: Queue): nat
    requires WF(q)
  {
    q.chks[q.persist.chk].id
  }

  lemma DrawIds(q: Queue)
    requires WF(q)
    ensures WF(Draw(q)) && PersistId(q) <= PersistId(Draw(q)) && (DrawnId(q) > 0 ==> DrawnId(q) < PersistId(Draw(q)))
  {
    hide ChkOk;
    ApplyWF(q, Persist);
    assert q.persist.chk <= DrawTo(q).chk < |q.chks|;
  }

  /** What is recorded under an id below the checkpoint persistence is in was drawn. */
  lemma LeftBehind(l: Lane, w: seq<VItem>, r: seq<VItem>, vb: Vb, id: nat)
    requires WF(l.h.q)
    requires LaneOk(l, w, r, vb) && (id > 0 ==> id < PersistId(l.h.q))
    ensures DrawnTo(l, id)
  {
    hide ListOk, LastWriterWins, Barred, Placed, BatchOk, DrawnOk, AheadOk, Numbered;
    forall j | l.h.drawnUpTo <= j < |l.h.accepted| && j < |l.h.acceptedIn|
      ensures !Claims(id, l.h.acceptedIn[j])
    {
      UncoveredIn(l.h, j);
    }
  }

  /** The drawn id is below the checkpoint that the draw stopped in. */
  lemma DrawTrue(l: Lane, backfill: seq<Item>, w: seq<VItem>, vb: Vb, armed: bool, w': seq<VItem>, r': seq<VItem>)
    requires LaneOk(l, w, [], vb) && LaneTrue(l, armed) && LaneOk(LaneDraw(l, backfill), w', r', vb)
    ensures LaneTrue(LaneDraw(l, backfill), true)
  {
    hide ListOk, Next, Sound, BatchOk, DrawnOk, AheadOk, Numbered, Settled, Draw, Drawn, DrawnId;
    var l' := LaneDraw(l, backfill);
    PersistDrawn(l.h);
    NextOk(l.h, Persist);
    DrawIds(l.h.q);
    LeftBehind(l', w', r', vb, l'.pending);
    forall j | 0 <= j < |l.h.accepted| ensures Honest(l', true, l.h.acceptedIn[j], j) {
      assert Honest(l, armed, l.h.acceptedIn[j], j);
      if Settled(l, j) {
        SettledKept(l, l', j);
      }
    }
  }

  lemma FlushTrue(l: Lane, x: Item, armed: bool)
    requires LaneTrue(l, armed)
    ensures LaneTrue(l.(processed := l.processed + [x]), armed)
  {
    hide Settled;
    var l' := l.(processed := l.processed + [x]);
    forall j | 0 <= j < |l.h.accepted| ensures Honest(l', armed, l.h.acceptedIn[j], j) {
      assert Honest(l, armed, l.h.acceptedIn[j], j);
      if Settled(l, j) {
        SettledKept(l, l', j);
      }
    }
  }

  /** An id may be published exactly if what it covers was drawn and has left the queues. */
  lemma PublishTrue(l: Lane, w: seq<VItem>, r: seq<VItem>, vb: Vb, armed: bool, id: nat)
    requires LaneOk(l, w, r, vb) && LaneTrue(l, armed)
    ensures LaneTrue(l.(published := id), armed) <==> DrawnTo(l, id) && FlushedTo(l, w, r, vb, |l.h.accepted|, id)
  {
    hide HistoryOk, BatchOk, DrawnOk, AheadOk, Flying;
    var l' := l.(published := id);
    forall j | 0 <= j < |l.h.accepted|
      ensures Settled(l', j) <==> Settled(l, j)
      ensures Settled(l, j) <==> j < l.h.drawnUpTo && (!Flying(l, w, r, vb, j) || Settled(l, j))
    {
      SettledIff(l, w, r, vb, j);
    }
    hide Settled;
    forall j | 0 <= j < |l.h.accepted|
      ensures Honest(l', armed, l.h.acceptedIn[j], j) <==> (Claims(id, l.h.acceptedIn[j]) ==> Settled(l, j))
    {
      assert Honest(l, armed, l.h.acceptedIn[j], j);
    }
    hide Honest, Claims;
  }

  /** What was drawn has settled once nothing is in flight, so the drawn id may be published. */
  lemma CompleteTrue(l: Lane, vb: Vb)
    requires LaneOk(l, [], [], vb) && LaneTrue(l, true)
    ensures LaneTrue(LanePublish(l), false) && LaneTrue(l, false)
  {
    hide LaneOk, Settled;
    forall j | 0 <= j < |l.h.accepted| ensures Honest(l, false, l.h.acceptedIn[j], j) {
      assert Honest(l, true, l.h.acceptedIn[j], j);
    }
    forall j | 0 <= j < |l.h.accepted| && j < |l.h.acceptedIn| && Claims(l.pending, l.h.acceptedIn[j])
      ensures j < l.h.drawnUpTo
    {
      assert Honest(l, true, l.h.acceptedIn[j], j);
    }
    hide Honest;
    PublishTrue(l, [], [], vb, false, l.pending);
  }

  lemma SkipTrue(l: Lane)
    requires LaneTrue(l, false)
    ensures LaneTrue(l, true) <==> DrawnTo(l, l.pending)
  {
    hide Settled;
    forall j | 0 <= j < |l.h.accepted|
      ensures Honest(l, true, l.h.acceptedIn[j], j) <==> (Claims(l.pending, l.h.acceptedIn[j]) ==> j < l.h.drawnUpTo)
    {
      assert Honest(l, false, l.h.acceptedIn[j], j);
    }
    hide Honest, Claims;
  }

  // ---------------------------------------------------------------- every step

  lemma TruthfulQueue(p: Pipe, vb: Vb, e: Event)
    requires PipeInv(p) && Truthful(p) && Can(p, QueueEvent(vb, e))
    ensures Truthful(Do(p, QueueEvent(vb, e))) <==> Guard(p, QueueEvent(vb, e))
  {
    hide WF, LaneOk, LaneTrue, Enabled, QueueGuard, LaneQueue;
    LaneWF(p, vb);
    QueueTrue(p.lanes[vb], e, p.writing, p.rejects, vb, Armed(p.phase, vb));
    assert Do(p, QueueEvent(vb, e)).lanes[vb] == LaneQueue(p.lanes[vb], e);
  }

  lemma TruthfulDraw(p: Pipe, vb: Vb, backfill: seq<Item>, order: seq<Item>)
    requires PipeInv(p) && Truthful(p) && Can(p, DrawVb(vb, backfill, order))
    ensures Truthful(Do(p, DrawVb(vb, backfill, order)))
  {
    hide WF, LaneOk, LaneTrue, KeepsLast, Drawn, DrawnId, NotQueued, LaneDraw;
    var p' := Do(p, DrawVb(vb, backfill, order));
    PipeStep(p, DrawVb(vb, backfill, order));
    LaneWF(p', vb);
    LaneWF(p, vb);
    DrawTrue(p.lanes[vb], backfill, p.writing, vb, Armed(p.phase, vb), p'.writing, p'.rejects);
  }

  lemma TruthfulFlush(p: Pipe, copies: nat, wrote: bool)
    requires PipeInv(p) && Truthful(p) && Can(p, FlushOne(copies, wrote))
    ensures Truthful(Do(p, FlushOne(copies, wrote)))
  {
    hide WF, LaneOk, LaneTrue;
    FlushTrue(p.lanes[p.writing[0].vb], p.writing[0].x, Armed(p.phase, p.writing[0].vb));
  }

  lemma TruthfulComplete(p: Pipe, alive: set<Vb>)
    requires PipeInv(p) && Truthful(p) && Can(p, Complete(alive))
    ensures Truthful(Do(p, Complete(alive)))
  {
    hide WF, LaneOk, LaneTrue;
    forall o | o in p.lanes ensures LaneTrue(Do(p, Complete(alive)).lanes[o], false) {
      CompleteTrue(p.lanes[o], o);
    }
  }

  lemma TruthfulPublish(p: Pipe, vb: Vb, id: nat)
    requires PipeInv(p) && Truthful(p) && Can(p, Publish(vb, id))
    ensures Truthful(Do(p, Publish(vb, id))) <==> Guard(p, Publish(vb, id))
  {
    hide WF, LaneOk, LaneTrue, DrawnTo, FlushedTo;
    LaneWF(p, vb);
    PublishTrue(p.lanes[vb], p.writing, p.rejects, vb, Armed(p.phase, vb), id);
    assert Do(p, Publish(vb, id)).lanes[vb] == p.lanes[vb].(published := id);
  }

  lemma TruthfulSkip(p: Pipe, vb: Vb)
    requires PipeInv(p) && Truthful(p) && Can(p, SkipVb(vb))
    ensures Truthful(Do(p, SkipVb(vb))) <==> Guard(p, SkipVb(vb))
  {
    hide WF, LaneOk, LaneTrue, DrawnTo;
    if vb in p.lanes {
      SkipTrue(p.lanes[vb]);
      assert Do(p, SkipVb(vb)).lanes[vb] == p.lanes[vb];
    }
  }

  lemma TruthfulPhase(p: Pipe, e: PipeEvent)
    requires PipeInv(p) && Truthful(p) && Can(p, e)
    requires e.Begin? || e.DrawDone? || e.RejectAll? || e.RequeueRejects?
    ensures Truthful(Do(p, e))
  {
    hide WF, LaneOk, LaneTrue;
  }

  /** A step keeps everything published, or about to be, true if and only if it meets its guard. */
  lemma TruthfulStep(p: Pipe, e: PipeEvent)
    requires PipeInv(p) && Truthful(p) && PipeOk(p) && Can(p, e)
    ensures PipeOk(Do(p, e)) && (Truthful(Do(p, e)) <==> Guard(p, e))
  {
    hide WF, LaneOk, Truthful, PhaseOk;
    DoOk(p, e);
    if e.QueueEvent? {
      TruthfulQueue(p, e.vb, e.e);
    } else if e.DrawVb? {
      TruthfulDraw(p, e.vb, e.backfill, e.order);
    } else if e.SkipVb? {
      TruthfulSkip(p, e.vb);
    } else if e.FlushOne? {
      TruthfulFlush(p, e.copies, e.wrote);
    } else if e.Complete? {
      TruthfulComplete(p, e.alive);
    } else if e.Publish? {
      TruthfulPublish(p, e.vb, e.id);
    } else {
      TruthfulPhase(p, e);
    }
  }

  // ---------------------------------------------------------------- runs

  /** A run in which every step meets its guard. */
  ghost predicate Guarded(p: Pipe, es: seq<PipeEvent>)
    requires PipeOk(p) && IsPipeRun(p, es)
    decreases |es|
  {
    es == [] || (Guard(p, es[0]) && (DoOk(p, es[0]); Guarded(Do(p, es[0]), es[1..])))
  }

  /** A run in every state of which everything published, or about to be, is true. */
  ghost predicate StaysTrue(p: Pipe, es: seq<PipeEvent>)
    requires PipeOk(p) && IsPipeRun(p, es)
    decreases |es|
  {
    Truthful(p) && (es == [] || (DoOk(p, es[0]); StaysTrue(Do(p, es[0]), es[1..])))
  }

  /** The guard is exact over whole runs. */
  lemma {:induction false} TruthfulRun(p: Pipe, es: seq<PipeEvent>)
    requires PipeInv(p) && Truthful(p) && PipeOk(p) && IsPipeRun(p, es)
    ensures StaysTrue(p, es) <==> Guarded(p, es)
    ensures Guarded(p, es) ==> Truthful(ExecPipe(p, es))
    decreases |es|
  {
    hide LaneOk, WF, Do, Can, Truthful, Guard;
    if es != [] {
      DoOk(p, es[0]);
      PipeStep(p, es[0]);
      TruthfulStep(p, es[0]);
      if Guard(p, es[0]) {
        TruthfulRun(Do(p, es[0]), es[1..]);
      }
    }
  }

  lemma InitTrue(ids: map<Vb, nat>)
    ensures PipeInv(InitPipe(ids)) && PipeOk(InitPipe(ids)) && Truthful(InitPipe(ids))
  {
    hide LaneOk, WF, Runs.Init;
    InitInv(ids);
    forall vb | vb in ids ensures LaneTrue(InitPipe(ids).lanes[vb], false) {
      InitLogs(ids[vb]);
    }
  }

  /**
   Persisted-checkpoint soundness: in every state of a guarded run, whatever checkpoint id is published for a
   vbucket, every mutation in a checkpoint with that id or a lower one has been processed, or a later one of the
   same key has.
   */
  lemma PublishedCheckpointsPersisted(ids: map<Vb, nat>, es: seq<PipeEvent>, vb: Vb, j: nat)
    requires PipeOk(InitPipe(ids)) && IsPipeRun(InitPipe(ids), es) && Guarded(InitPipe(ids), es)
    requires vb in ExecPipe(InitPipe(ids), es).lanes
    requires var l := ExecPipe(InitPipe(ids), es).lanes[vb];
             j < |l.h.accepted| && j < |l.h.acceptedIn| && 0 < l.published && l.h.acceptedIn[j] <= l.published
    ensures Settled(ExecPipe(InitPipe(ids), es).lanes[vb], j)
  {
    hide Settled, WF, InitPipe, IsPipeRun, ExecPipe, Guarded;
    InitTrue(ids);
    TruthfulRun(InitPipe(ids), es);
    var l := ExecPipe(InitPipe(ids), es).lanes[vb];
    assert exists armed :: LaneTrue(l, armed);
    var armed :| LaneTrue(l, armed);
    assert Honest(l, armed, l.h.acceptedIn[j], j);
  }

  // ---------------------------------------------------------------- the guard is necessary

  /** A published id that is not true. */
  ghost predicate Belied(p: Pipe, vb: Vb, j: nat) {
    && vb in p.lanes
    && var l := p.lanes[vb];
       && j < |l.h.accepted| && j < |l.h.acceptedIn|
       && Claims(l.published, l.h.acceptedIn[j]) && !Settled(l, j)
  }

  /** A drawn id that will not be true once it is published. */
  predicate Doomed(l: Lane, j: nat) {
    l.h.drawnUpTo <= j < |l.h.accepted| && j < |l.h.acceptedIn| && Claims(l.pending, l.h.acceptedIn[j])
  }

  /** The flusher's own steps that draw nothing. */
  predicate OwnStep(e: PipeEvent) {
    e.SkipVb? || e.DrawDone? || e.FlushOne? || e.RequeueRejects? || e.Complete?
  }

  predicate AllFlush(es: seq<PipeEvent>) {
    forall i :: 0 <= i < |es| ==> OwnStep(es[i])
  }

  /** The flusher's next step towards the end of the cycle, if nothing is rejected any more. */
  ghost function Onward(p: Pipe, vb: Vb): PipeEvent {
    if p.phase.Drawing? && p.phase.todo != {} then var o :| o in p.phase.todo; SkipVb(o)
    else if p.phase.Drawing? then DrawDone
    else if p.writing != [] then FlushOne(0, true)
    else if p.rejects != [] then RequeueRejects
    else Complete({vb})
  }

  ghost function Togo(p: Pipe): nat {
    2 * |p.rejects| + |p.writing| + (if p.phase.Drawing? then 1 + |p.phase.todo| else 0)
  }

  lemma OnwardStep(p: Pipe, vb: Vb, j: nat)
    requires PipeInv(p) && PipeOk(p) && vb in p.lanes && Armed(p.phase, vb) && Doomed(p.lanes[vb], j)
    ensures Can(p, Onward(p, vb)) && OwnStep(Onward(p, vb))
    ensures var p' := Do(p, Onward(p, vb));
            && vb in p'.lanes && PipeInv(p') && PipeOk(p')
            && if Onward(p, vb).Complete? then Belied(p', vb, j)
               else Armed(p'.phase, vb) && Doomed(p'.lanes[vb], j) && Togo(p') < Togo(p)
  {
    hide WF, LaneOk, Settled;
    var e := Onward(p, vb);
    var p' := Do(p, e);
    assert Can(p, e);
    PipeStep(p, e);
    DoOk(p, e);
    if e.SkipVb? {
      assert |p'.phase.todo| == |p.phase.todo| - 1;
    } else if e.Complete? {
      SettledIff(p'.lanes[vb], p'.writing, p'.rejects, vb, j);
    }
  }

  lemma FirstStep(p: Pipe, e: PipeEvent, es: seq<PipeEvent>)
    requires PipeOk(p) && Can(p, e) && PipeOk(Do(p, e)) && IsPipeRun(Do(p, e), es)
    ensures IsPipeRun(p, [e] + es) && ExecPipe(p, [e] + es) == ExecPipe(Do(p, e), es)
    ensures Guarded(p, [e] + es) <==> Guard(p, e) && Guarded(Do(p, e), es)
  {
    hide PipeOk, Can, Do, Guard;
    assert ([e] + es)[1..] == es;
    DoOk(p, e);
  }

  lemma LastStep(p: Pipe, e: PipeEvent)
    requires PipeOk(p) && Can(p, e)
    ensures IsPipeRun(p, [e]) && ExecPipe(p, [e]) == Do(p, e) && (Guarded(p, [e]) <==> Guard(p, e))
  {
    hide PipeOk, Can, Do, Guard;
    assert [e][1..] == [];
    DoOk(p, e);
  }

  /** Nothing but the flusher's own steps is needed to publish a doomed id. */
  lemma Finish(p: Pipe, vb: Vb, j: nat) returns (es: seq<PipeEvent>)
    requires PipeInv(p) && PipeOk(p) && vb in p.lanes && Armed(p.phase, vb) && Doomed(p.lanes[vb], j)
    ensures IsPipeRun(p, es) && AllFlush(es) && Belied(ExecPipe(p, es), vb, j)
    decreases Togo(p)
  {
    hide PipeInv, PipeOk, Can, Do, Onward, Togo, Belied, Armed, Doomed, Guard;
    var e := Onward(p, vb);
    OnwardStep(p, vb, j);
    var rest := [];
    if !e.Complete? {
      rest := Finish(Do(p, e), vb, j);
    }
    FirstStep(p, e, rest);
    es := [e] + rest;
  }

  /** A step that fails its guard leads, by the flusher's own steps alone, to a published id that is not true. */
  lemma GuardNecessary(p: Pipe, e: PipeEvent) returns (vb: Vb, j: nat, es: seq<PipeEvent>)
    requires PipeInv(p) && Truthful(p) && PipeOk(p) && Can(p, e) && !Guard(p, e)
    ensures AllFlush(es) && IsPipeRun(p, [e] + es) && Belied(ExecPipe(p, [e] + es), vb, j)
  {
    hide WF, LaneOk, Guard, Can, Do, Settled;
    TruthfulStep(p, e);
    PipeStep(p, e);
    var p' := Do(p, e);
    vb :| vb in p'.lanes && !LaneTrue(p'.lanes[vb], Armed(p'.phase, vb));
    var l := p'.lanes[vb];
    LaneSizes(l, p'.writing, p'.rejects, vb);
    j :| 0 <= j < |l.h.accepted| && !Honest(l, Armed(p'.phase, vb), l.h.acceptedIn[j], j);
    es := [];
    if !Belied(p', vb, j) {
      es := Finish(p', vb, j);
    }
    FirstStep(p, e, es);
  }

  // ---------------------------------------------------------------- how the callers keep to the guard

  /**
   The checkpoint persistence is in has an id above a drawn one about to be published, and above the published one,
   unless a lower one is owed.
   */
  predicate Low(l: Lane, armed: bool, owed: bool)
    requires WF(l.h.q)
  {
    && !(armed && Claims(l.pending, PersistId(l.h.q)))
    && (!owed ==> !Claims(l.published, PersistId(l.h.q)))
  }

  /** So it is for every vbucket; those in `owed` wait for a lower id to be published. */
  ghost predicate AllLow(p: Pipe, owed: set<Vb>)
    requires PipeOk(p)
  {
    forall vb :: vb in p.lanes ==> Low(p.lanes[vb], Armed(p.phase, vb), vb in owed)
  }

  /** The checkpoint start discards the checkpoint persistence is in; the code reports this to its caller. */
  predicate Repositions(q: Queue, id: nat)
    requires q.chks != []
  {
    RollsBack(q, id) && KeepBelow(q.chks, id) <= q.persist.chk
  }

  /** Nothing is written, renamed or discarded. */
  predicate Silent(q: Queue, e: Event)
    requires WF(q)
  {
    !Discards(q, e) && NewId(q, e).None? && (e.Put? ==> !Accepts(q, e.active))
  }

  /**
   What callers do to a queue: while a lower id is owed, nothing of consequence; otherwise a new id or a clear gives
   no id that is claimed, and a rollback none that a drawn id about to be published covers.
   */
  predicate PlainQueue(l: Lane, e: Event, armed: bool, owed: bool)
    requires WF(l.h.q)
  {
    if owed then Silent(l.h.q, e)
    else
      match e
      case SetId(id) => !Claimed(l, armed, id)
      case ClearAll(active) => !Claimed(l, armed, if active then 1 else 0)
      case CheckpointStart(id) => Repositions(l.h.q, id) ==> !(armed && Claims(l.pending, id))
      case _ => true
  }

  /** The checkpoint persistence is in never gets a lower id, but by a new id or when it is discarded. */
  lemma PersistIdAfter(q: Queue, e: Event)
    requires WF(q) && Enabled(q, e) && !e.Persist?
    ensures WF(Apply(q, e))
    ensures PersistId(Apply(q, e)) < PersistId(q) ==>
              Apply(q, e).persist.chk == |Apply(q, e).chks| - 1 && (e.SetId? || Discards(q, e))
  {
    hide ListOk, QueueDirty, Trim, CheckAndAdd, Rename, StartOnline, StopOnline, AddNew, NextItem, BackOff, KeepBelow;
    ApplyWF(q, e);
    if e.Put? {
      PutIds(q, e.x, e.active, e.roll);
    } else if e.RemoveClosed? {
      TrimIds(q, e.create);
    } else if e.Roll? {
      TurnIds(q, Last(q.chks).id + 1);
    } else if e.CheckpointStart? {
      StartIds(q, e.id);
    } else if e.SetId? {
      RenameIds(q, e.id);
    } else if e.OnlineStartEvent? || e.OnlineStopEvent? {
      OnlineIds(q);
    } else if (e.TapNext? || e.TapBackOff?) && e.name in q.taps {
      TapReadFrame(q, e.name);
    }
  }

  lemma TurnIds(q: Queue, id: nat)
    requires WF(q) && WF(q.(chks := AddNew(q.chks, id)))
    ensures PersistId(q.(chks := AddNew(q.chks, id))) == PersistId(q)
  {
    hide ListOk, AddNew;
    AddNewAt(q.chks, id);
  }

  lemma PutIds(q: Queue, x: Item, active: bool, roll: bool)
    requires WF(q) && WF(QueueDirty(q, x, active, roll))
    ensures PersistId(QueueDirty(q, x, active, roll)) == PersistId(q)
  {
    hide ListOk, AddNew, Requeue;
    if Accepts(q, active) {
      AddNewAt(Write(q, x).chks, Last(q.chks).id + 1);
    }
  }

  lemma TrimIds(q: Queue, create: bool)
    requires WF(q) && WF(Trim(q, create))
    ensures PersistId(q) <= PersistId(Trim(q, create))
  {
    hide ListOk, AddNew, PreTrim, FirstReferenced, Drop;
    PreTrimWF(q, create);
    PreTrimIds(q, create);
    DropIds(PreTrim(q, create));
  }

  /** A cursor that steps into the new checkpoint gets a higher id. */
  lemma PreTrimIds(q: Queue, create: bool)
    requires WF(q) && WF(PreTrim(q, create))
    ensures PersistId(q) <= PersistId(PreTrim(q, create))
  {
    hide ListOk, AddNew;
    AddNewAt(q.chks, Last(q.chks).id + 1);
    BelowLast(q);
  }

  lemma DropIds(q: Queue)
    requires WF(q) && FirstReferenced(q, 0) <= q.persist.chk && WF(Drop(q, FirstReferenced(q, 0)))
    ensures PersistId(Drop(q, FirstReferenced(q, 0))) == PersistId(q)
  {
    hide ListOk, FirstReferenced;
  }

  lemma BelowLast(q: Queue)
    requires WF(q)
    ensures forall i :: 0 <= i < |q.chks| ==> q.chks[i].id <= Last(q.chks).id
  {
    hide ChkOk;
  }

  lemma StartIds(q: Queue, id: nat)
    requires WF(q) && WF(CheckAndAdd(q, id))
    ensures var q' := CheckAndAdd(q, id);
            PersistId(q) <= PersistId(q') || (RollsBack(q, id) && q'.persist.chk == |q'.chks| - 1)
  {
    hide ListOk, AddNew, KeepBelow, Rename, PersistId, RewindPos;
    if id != 0 && Last(q.chks).id == 0 {
      BelowLast(q);
      PersistLeast(q);
    } else if id != 0 && !RollsBack(q, id) {
      TurnIds(q, id);
    } else if id != 0 {
      RollbackIds(q, id);
    }
  }

  lemma PersistLeast(q: Queue)
    requires WF(q) && Last(q.chks).id == 0
    ensures PersistId(q) == 0
  {
    hide ListOk;
    BelowLast(q);
  }

  lemma RollbackIds(q: Queue, id: nat)
    requires WF(q) && RollsBack(q, id) && WF(CheckAndAdd(q, id))
    ensures var q' := CheckAndAdd(q, id);
            PersistId(q) == PersistId(q') || q'.persist.chk == |q'.chks| - 1
  {
    hide ListOk, AddNew;
    var k := KeepBelow(q.chks, id);
    AddNewAt(q.chks[..k], id);
    assert CheckAndAdd(q, id).chks == AddNew(q.chks[..k], id);
    if q.persist.chk < k {
      KeptIds(q, id);
    }
  }

  lemma RenameIds(q: Queue, id: nat)
    requires WF(q) && WF(Rename(q, id))
    ensures q.persist.chk < |q.chks| - 1 ==> PersistId(Rename(q, id)) == PersistId(q)
    ensures Rename(q, id).persist == q.persist && |Rename(q, id).chks| == |q.chks|
  {
    hide ListOk;
  }

  lemma OnlineIds(q: Queue)
    requires WF(q)
    ensures WF(StartOnline(q)) ==> PersistId(StartOnline(q)) == PersistId(q)
    ensures WF(StopOnline(q)) ==> PersistId(StopOnline(q)) == PersistId(q)
  {
    hide ListOk, AddNew;
    AddNewAt(q.chks, Last(q.chks).id + 1);
    AddNewAt(AppendLast(q, OnlineEnd).chks, Last(q.chks).id + 1);
  }

  lemma KeptIds(q: Queue, id: nat)
    requires WF(q) && RollsBack(q, id) && q.persist.chk < KeepBelow(q.chks, id) && WF(Apply(q, CheckpointStart(id)))
    ensures PersistId(Apply(q, CheckpointStart(id))) == PersistId(q)
  {
    hide ListOk;
    KeptClosed(q, KeepBelow(q.chks, id), id);
    hide AddNew;
  }

  lemma RepositionedId(q: Queue, id: nat)
    requires WF(q) && RollsBack(q, id) && KeepBelow(q.chks, id) <= q.persist.chk && WF(Apply(q, CheckpointStart(id)))
    ensures PersistId(Apply(q, CheckpointStart(id))) == id
  {
    hide ListOk, AddNew;
    AddNewAt(q.chks[..KeepBelow(q.chks, id)], id);
  }

  lemma PersistBelowLast(q: Queue)
    requires WF(q)
    ensures PersistId(q) <= Last(q.chks).id
  {
    hide ChkOk;
  }

  /** A rollback below the published id makes a lower one owed; any other event leaves things as they are. */
  lemma LowQueue(l: Lane, e: Event, armed: bool, owed: bool)
    requires WF(l.h.q)
    requires Low(l, armed, owed) && Enabled(l.h.q, e) && !e.Persist? && PlainQueue(l, e, armed, owed)
    ensures WF(LaneQueue(l, e).h.q)
    ensures Low(LaneQueue(l, e), armed, owed || (e.CheckpointStart? && Repositions(l.h.q, e.id)))
    ensures QueueGuard(l, e, armed)
  {
    hide ListOk, Next, Settled, PersistId, KeepBelow, Apply;
    var e' := Stamped(l, e);
    StampedEnabled(l, e);
    NextOk(l.h, e');
    PersistIdAfter(l.h.q, e');
    PersistBelowLast(l.h.q);
    if e.SetId? {
      RenamedIds(l.h.q, e.id);
    } else if e.ClearAll? {
      ClearedId(l.h.q, e.active);
    } else if e.CheckpointStart? && RollsBack(l.h.q, e.id) {
      if Repositions(l.h.q, e.id) {
        RepositionedId(l.h.q, e.id);
      } else {
        KeptIds(l.h.q, e.id);
      }
    } else if NewId(l.h.q, e).Some? {
      PersistLeast(l.h.q);
    }
  }

  lemma RenamedIds(q: Queue, id: nat)
    requires WF(q) && WF(Apply(q, SetId(id)))
    ensures PersistId(Apply(q, SetId(id))) == if q.persist.chk < |q.chks| - 1 then PersistId(q) else id
  {
    hide ListOk;
    LastLong(q);
  }

  lemma ClearedId(q: Queue, active: bool)
    requires WF(q) && WF(Apply(q, ClearAll(active)))
    ensures PersistId(Apply(q, ClearAll(active))) == if active then 1 else 0
  {
    hide ListOk;
  }

  /**
   The steps as the code's callers make them. A caller may always publish 0; otherwise an id below the checkpoint
   persistence is in once nothing it covers waits in a queue, or, with nothing owed, a lower one than before.
   */
  ghost predicate Plain(p: Pipe, e: PipeEvent, owed: set<Vb>)
    requires PipeOk(p) && Can(p, e)
  {
    match e
    case QueueEvent(vb, qe) => PlainQueue(p.lanes[vb], qe, Armed(p.phase, vb), vb in owed)
    case SkipVb(vb) => vb in p.lanes ==> Low(p.lanes[vb], true, vb in owed)
    case Publish(vb, id) =>
      var l := p.lanes[vb];
      || id == 0
      || (vb !in owed && id <= l.published)
      || (id < PersistId(l.h.q) && FlushedTo(l, p.writing, p.rejects, vb, |l.h.accepted|, id))
    case _ => true
  }

  /** The vbuckets for which a lower id is owed after the step. */
  function Owes(p: Pipe, e: PipeEvent, owed: set<Vb>): set<Vb>
    requires PipeOk(p)
  {
    match e
    case QueueEvent(vb, qe) =>
      if vb in p.lanes && qe.CheckpointStart? && Repositions(p.lanes[vb].h.q, qe.id) then owed + {vb} else owed
    case Publish(vb, _) => owed - {vb}
    case _ => owed
  }

  lemma LowPublish(l: Lane, w: seq<VItem>, r: seq<VItem>, vb: Vb, armed: bool, owed: bool, id: nat)
    requires WF(l.h.q)
    requires LaneOk(l, w, r, vb) && LaneTrue(l, armed) && Low(l, armed, owed)
    requires || id == 0 || (!owed && id <= l.published)
             || (id < PersistId(l.h.q) && FlushedTo(l, w, r, vb, |l.h.accepted|, id))
    ensures Low(l.(published := id), armed, false) && DrawnTo(l, id) && FlushedTo(l, w, r, vb, |l.h.accepted|, id)
  {
    hide WF, LaneOk, PersistId, Settled, Flying;
    if id <= l.published {
      forall j | 0 <= j < |l.h.accepted| && Claims(id, l.h.acceptedIn[j])
        ensures j < l.h.drawnUpTo && Settled(l, j)
      {
        assert Honest(l, armed, l.h.acceptedIn[j], j);
        SettledIff(l, w, r, vb, j);
      }
    } else {
      LeftBehind(l, w, r, vb, id);
    }
  }

  lemma LowDraw(l: Lane, backfill: seq<Item>, armed: bool, owed: bool)
    requires WF(l.h.q) && Low(l, armed, owed)
    ensures WF(LaneDraw(l, backfill).h.q) && Low(LaneDraw(l, backfill), true, owed)
  {
    hide ListOk, Next, Draw, Drawn, DrawnId, PersistId;
    NextOk(l.h, Persist);
    PersistDrawn(l.h);
    DrawIds(l.h.q);
  }

  lemma PlainEvent(p: Pipe, vb: Vb, e: Event, owed: set<Vb>)
    requires PipeOk(p) && AllLow(p, owed) && Can(p, QueueEvent(vb, e)) && Plain(p, QueueEvent(vb, e), owed)
    requires PipeOk(Do(p, QueueEvent(vb, e)))
    ensures Guard(p, QueueEvent(vb, e))
    ensures AllLow(Do(p, QueueEvent(vb, e)), Owes(p, QueueEvent(vb, e), owed))
  {
    hide WF, Low, QueueGuard, LaneQueue, Enabled, PlainQueue, Repositions;
    LowQueue(p.lanes[vb], e, Armed(p.phase, vb), vb in owed);
  }

  lemma PlainDraw(p: Pipe, vb: Vb, backfill: seq<Item>, order: seq<Item>, owed: set<Vb>)
    requires PipeOk(p) && AllLow(p, owed) && Can(p, DrawVb(vb, backfill, order))
    requires PipeOk(Do(p, DrawVb(vb, backfill, order)))
    ensures AllLow(Do(p, DrawVb(vb, backfill, order)), owed)
  {
    hide WF, Low, LaneDraw, KeepsLast, Drawn, NotQueued;
    LowDraw(p.lanes[vb], backfill, Armed(p.phase, vb), vb in owed);
  }

  /** A plain step meets its guard, and the next one can be plain again. */
  lemma PlainStep(p: Pipe, e: PipeEvent, owed: set<Vb>)
    requires PipeInv(p) && Truthful(p) && PipeOk(p) && AllLow(p, owed) && Can(p, e) && Plain(p, e, owed)
    ensures Guard(p, e) && PipeOk(Do(p, e)) && AllLow(Do(p, e), Owes(p, e, owed))
  {
    hide WF, LaneOk, LaneTrue, Low, QueueGuard, LaneQueue, LaneDraw, KeepsLast, Drawn, NotQueued, Enabled, DrawnTo;
    hide FlushedTo, PlainQueue, PersistId, Repositions;
    DoOk(p, e);
    match e {
      case QueueEvent(vb, qe) =>
        PlainEvent(p, vb, qe, owed);
      case DrawVb(vb, backfill, order) =>
        PlainDraw(p, vb, backfill, order, owed);
      case SkipVb(vb) =>
        if vb in p.lanes {
          LaneWF(p, vb);
          SkipLow(p.lanes[vb], p.writing, p.rejects, vb, vb in owed);
        }
      case FlushOne(_, _) =>
        var vb := p.writing[0].vb;
        FlushLow(p.lanes[vb], p.writing[0].x, Armed(p.phase, vb), vb in owed);
      case Complete(alive) =>
        forall vb | vb in p.lanes ensures Low(Do(p, e).lanes[vb], false, vb in owed) {
          CompleteLow(p.lanes[vb], vb in owed);
        }
      case Publish(vb, id) =>
        LaneWF(p, vb);
        LowPublish(p.lanes[vb], p.writing, p.rejects, vb, Armed(p.phase, vb), vb in owed, id);
      case Begin =>
        forall vb | vb in p.lanes ensures Low(p.lanes[vb], false, vb in owed) { }
      case DrawDone =>
      case RejectAll =>
      case RequeueRejects =>
    }
  }

  lemma SkipLow(l: Lane, w: seq<VItem>, r: seq<VItem>, vb: Vb, owed: bool)
    requires WF(l.h.q)
    requires LaneOk(l, w, r, vb) && Low(l, true, owed)
    ensures DrawnTo(l, l.pending)
  {
    hide WF, LaneOk, PersistId;
    LeftBehind(l, w, r, vb, l.pending);
  }

  lemma FlushLow(l: Lane, x: Item, armed: bool, owed: bool)
    requires WF(l.h.q) && Low(l, armed, owed)
    ensures Low(l.(processed := l.processed + [x]), armed, owed)
  {
    hide WF;
  }

  lemma CompleteLow(l: Lane, owed: bool)
    requires WF(l.h.q) && Low(l, true, owed)
    ensures Low(LanePublish(l), false, owed) && Low(l, false, owed)
  {
    hide WF, PersistId;
  }

  /** A run as the code's callers make it. */
  ghost predicate Tame(p: Pipe, es: seq<PipeEvent>, owed: set<Vb>)
    requires PipeOk(p) && IsPipeRun(p, es)
    decreases |es|
  {
    es == [] || (Plain(p, es[0], owed) && (DoOk(p, es[0]); Tame(Do(p, es[0]), es[1..], Owes(p, es[0], owed))))
  }

  lemma {:induction false} TameGuarded(p: Pipe, es: seq<PipeEvent>, owed: set<Vb>)
    requires PipeInv(p) && Truthful(p) && PipeOk(p) && AllLow(p, owed) && IsPipeRun(p, es) && Tame(p, es, owed)
    ensures Guarded(p, es)
    decreases |es|
  {
    hide PipeInv, PipeOk, Do, Can, Truthful, Guard, AllLow, Plain, Owes;
    if es != [] {
      DoOk(p, es[0]);
      PlainStep(p, es[0], owed);
      PipeStep(p, es[0]);
      TruthfulStep(p, es[0]);
      TameGuarded(Do(p, es[0]), es[1..], Owes(p, es[0], owed));
    }
  }

  /**
   Whatever the callers do by these rules, and however other vbuckets and the flusher interleave: every step meets
   its guard, so everything published is true in every state of the run.
   */
  lemma CallersKeepTrue(ids: map<Vb, nat>, es: seq<PipeEvent>)
    requires PipeOk(InitPipe(ids)) && IsPipeRun(InitPipe(ids), es) && Tame(InitPipe(ids), es, {})
    ensures Guarded(InitPipe(ids), es) && StaysTrue(InitPipe(ids), es)
  {
    hide InitPipe, IsPipeRun, StaysTrue, Tame, Guarded, PipeInv, Truthful, PipeOk, AllLow;
    InitTrue(ids);
    InitLow(ids);
    TameGuarded(InitPipe(ids), es, {});
    TruthfulRun(InitPipe(ids), es);
  }

  lemma InitLow(ids: map<Vb, nat>)
    requires PipeOk(InitPipe(ids))
    ensures AllLow(InitPipe(ids), {})
  {
    hide WF, Runs.Init;
  }

  // ---------------------------------------------------------------- a rollback that its caller answers

  /** The lane after a rollback that repositions persistence: all that is kept has been drawn. */
  lemma Repositioned(l: Lane, id: nat, w: seq<VItem>, r: seq<VItem>, vb: Vb)
    requires LaneOk(l, w, r, vb) && Enabled(l.h.q, CheckpointStart(id)) && Repositions(l.h.q, id)
    ensures var l', n := LaneQueue(l, CheckpointStart(id)), KeptMutations(l.h, CheckpointStart(id));
            && n <= |l.h.accepted| == |l.h.acceptedIn| && l'.h.drawnUpTo == n
            && l'.h.accepted == l.h.accepted[..n] && l'.h.acceptedIn == l.h.acceptedIn[..n]
            && WF(l'.h.q) && PersistId(l'.h.q) == id == Last(l'.h.q.chks).id && Last(l'.h.q.chks).open
            && l' == l.(h := l'.h)
  {
    hide ListOk, LastWriterWins, Barred, Placed, BatchOk, DrawnOk, AheadOk, Numbered, Ahead, AddNew;
    LaneSizes(l, w, r, vb);
    NextOk(l.h, CheckpointStart(id));
    RepositionedId(l.h.q, id);
    KeptCount(l.h, id);
    AddNewAt(l.h.q.chks[..KeepBelow(l.h.q.chks, id)], id);
  }

  lemma KeptCount(h: History, id: nat)
    requires InPlace(h) && RollsBack(h.q, id)
    ensures KeptMutations(h, CheckpointStart(id)) <= |h.accepted|
  {
    hide ListOk, SegOk, Latest;
  }

  /** What is kept is as much in flight after the rollback as before it. */
  lemma KeptFlushed(l: Lane, l': Lane, w: seq<VItem>, r: seq<VItem>, vb: Vb, n: nat, id: nat)
    requires n <= |l.h.accepted| == |l.h.acceptedIn| && l' == l.(h := l'.h)
    requires l'.h.accepted == l.h.accepted[..n] && l'.h.acceptedIn == l.h.acceptedIn[..n]
    ensures FlushedTo(l', w, r, vb, |l'.h.accepted|, id) <==> FlushedTo(l, w, r, vb, n, id)
  {
    forall j | 0 <= j < n
      ensures l'.h.acceptedIn[j] == l.h.acceptedIn[j]
      ensures (Settled(l', j) <==> Settled(l, j)) && (Flying(l', w, r, vb, j) <==> Flying(l, w, r, vb, j))
    {
      assert l'.h.accepted[j] == l.h.accepted[j];
    }
    hide Settled, Flying, Claims;
  }

  /** The two steps of a checkpoint start that repositions persistence: the rollback, and the id before is published. */
  function Answer(vb: Vb, id: nat): seq<PipeEvent> {
    [QueueEvent(vb, CheckpointStart(id)), Publish(vb, if id > 0 then id - 1 else 0)]
  }

  /** A write to this vbucket is safe. */
  ghost predicate Writable(l: Lane, armed: bool)
    requires WF(l.h.q)
  {
    forall x, active, roll :: Enabled(l.h.q, Put(x, active, roll)) ==> QueueGuard(l, Put(x, active, roll), armed)
  }

  /**
   Whatever is published when a rollback repositions persistence: the rollback is safe, and the answer to it is safe
   exactly if nothing of the kept checkpoints is still in a queue without having been written. After it the next
   writes are safe exactly if no drawn id that covers the new checkpoint is about to be published.
   */
  lemma RollbackAnswered(p: Pipe, vb: Vb, id: nat)
    requires PipeInv(p) && Truthful(p) && PipeOk(p) && Can(p, QueueEvent(vb, CheckpointStart(id)))
    requires Repositions(p.lanes[vb].h.q, id)
    ensures IsPipeRun(p, Answer(vb, id)) && Guard(p, Answer(vb, id)[0])
    ensures Guarded(p, Answer(vb, id)) <==>
            FlushedTo(p.lanes[vb], p.writing, p.rejects, vb,
                      KeptMutations(p.lanes[vb].h, CheckpointStart(id)), id - 1)
    ensures var p', l, armed := ExecPipe(p, Answer(vb, id)), p.lanes[vb], Armed(p.phase, vb);
            && PipeOk(p') && p'.phase == p.phase && p'.lanes.Keys == p.lanes.Keys
            && (forall o :: o in p.lanes && o != vb ==> p'.lanes[o] == p.lanes[o])
            && p'.lanes[vb].published == id - 1
            && (Writable(p'.lanes[vb], armed) <==> !(armed && Claims(l.pending, id)))
            && (Low(p'.lanes[vb], armed, false) <==> !(armed && Claims(l.pending, id)))
  {
    hide WF, LaneOk, LaneTrue, Enabled, LaneQueue, Repositions, Low, FlushedTo, KeptMutations;
    hide IsPipeRun, ExecPipe, Guarded, Writable, DrawnTo, QueueGuard;
    var e, e' := Answer(vb, id)[0], Answer(vb, id)[1];
    var l := p.lanes[vb];
    LaneWF(p, vb);
    RollbackLane(l, id, p.writing, p.rejects, vb, Armed(p.phase, vb));
    var p1 := Do(p, e);
    DoOk(p, e);
    assert p1.lanes[vb] == LaneQueue(l, CheckpointStart(id));
    DoOk(p1, e');
    LastStep(p1, e');
    FirstStep(p, e, [e']);
    assert [e] + [e'] == Answer(vb, id);
  }

  /** The same for the lane alone. */
  lemma RollbackLane(l: Lane, id: nat, w: seq<VItem>, r: seq<VItem>, vb: Vb, armed: bool)
    requires WF(l.h.q)
    requires LaneOk(l, w, r, vb) && Enabled(l.h.q, CheckpointStart(id)) && Repositions(l.h.q, id)
    ensures id > 0 && QueueGuard(l, CheckpointStart(id), armed)
    ensures var l1 := LaneQueue(l, CheckpointStart(id));
            && DrawnTo(l1, id - 1)
            && (FlushedTo(l1, w, r, vb, |l1.h.accepted|, id - 1) <==>
                FlushedTo(l, w, r, vb, KeptMutations(l.h, CheckpointStart(id)), id - 1))
            && var l2 := l1.(published := id - 1);
               && WF(l2.h.q)
               && (Writable(l2, armed) <==> !(armed && Claims(l.pending, id)))
               && (Low(l2, armed, false) <==> !(armed && Claims(l.pending, id)))
  {
    hide WF, LaneOk, Enabled, LaneQueue, Repositions, PersistId, FlushedTo, KeptMutations, Writable;
    Repositioned(l, id, w, r, vb);
    Rolls(l.h.q, id);
    var l1 := LaneQueue(l, CheckpointStart(id));
    KeptFlushed(l, l1, w, r, vb, KeptMutations(l.h, CheckpointStart(id)), id - 1);
    WritableIff(l1.(published := id - 1), armed);
  }

  lemma Rolls(q: Queue, id: nat)
    requires WF(q) && Repositions(q, id)
    ensures id > 0 && Discards(q, CheckpointStart(id))
  {
    hide ListOk, KeepBelow;
  }

  lemma WritableIff(l: Lane, armed: bool)
    requires WF(l.h.q) && Last(l.h.q.chks).open
    ensures Writable(l, armed) <==> !Claimed(l, armed, Last(l.h.q.chks).id)
  {
    hide ListOk, Claimed;
    var x := Item(OpSet, "", 0, 0, 0, 0);
    assert Enabled(l.h.q, Put(x, false, false));
  }

  /** The two steps of a vbucket reset. */
  function Reset(vb: Vb, active: bool): seq<PipeEvent> {
    [Publish(vb, 0), QueueEvent(vb, ClearAll(active))]
  }

  /** A reset is safe, and so are writes after it exactly if no drawn id is about to be published. */
  lemma ResetAnswered(p: Pipe, vb: Vb, active: bool)
    requires PipeOk(p) && vb in p.lanes && p.lanes[vb].h.q.barrier.None?
    ensures IsPipeRun(p, Reset(vb, active)) && Guarded(p, Reset(vb, active))
    ensures var p', l, armed := ExecPipe(p, Reset(vb, active)), p.lanes[vb], Armed(p.phase, vb);
            && PipeOk(p') && vb in p'.lanes && p'.phase == p.phase
            && (Writable(p'.lanes[vb], armed) <==> !(armed && l.pending > 0))
  {
    hide WF, LaneQueue, FlushedTo, DrawnTo, Writable, QueueGuard, Enabled, IsPipeRun, ExecPipe, Guarded;
    var e, e' := Publish(vb, 0), QueueEvent(vb, ClearAll(active));
    ResetLane(p.lanes[vb], active, p.writing, p.rejects, vb, Armed(p.phase, vb));
    DoOk(p, e);
    var p1 := Do(p, e);
    assert p1.lanes[vb] == p.lanes[vb].(published := 0);
    DoOk(p1, e');
    LastStep(p1, e');
    FirstStep(p, e, [e']);
    assert [e] + [e'] == Reset(vb, active);
  }

  lemma ResetLane(l: Lane, active: bool, w: seq<VItem>, r: seq<VItem>, vb: Vb, armed: bool)
    requires WF(l.h.q) && l.h.q.barrier.None?
    ensures DrawnTo(l, 0) && FlushedTo(l, w, r, vb, |l.h.accepted|, 0)
    ensures var l0 := l.(published := 0);
            && Enabled(l0.h.q, ClearAll(active)) && QueueGuard(l0, ClearAll(active), armed)
            && var l1 := LaneQueue(l0, ClearAll(active));
               WF(l1.h.q) && (Writable(l1, armed) <==> !(armed && l.pending > 0))
  {
    hide ListOk, Next, Flying, Settled, Writable;
    NextOk(l.h, ClearAll(active));
    WritableIff(LaneQueue(l.(published := 0), ClearAll(active)), armed);
  }

  // ---------------------------------------------------------------- a run in which the guard fails

  /** One open checkpoint with id 5, and a draw that found nothing but its start item. */
  ghost predicate DrawnAt5(l: Lane) {
    && WF(l.h.q) && l.h.q.chks == [NewChk(5)] && l.h.q.barrier.None? && l.pending == 4 && l.published == 0
  }

  lemma DrawAt5()
    ensures var l := Lane(Runs.Init(5), [], [], 0, 0, 0);
            WF(l.h.q) && KeepsLast([], [] + Drawn(l.h.q)) && DrawnAt5(LaneDraw(l, []))
  {
    var h := Runs.Init(5);
    InitSound(5);
    hide Sound;
    DrawsStart(h.q);
    hide ListOk, Next, Drawn, DrawnId, KeepsLast;
    PersistDrawn(h);
    NextOk(h, Persist);
  }

  lemma DrawsStart(q: Queue)
    requires WF(q) && q.chks == [NewChk(5)] && q.barrier.None? && q.persist == Pos(0, 0)
    ensures DrawnId(q) == 4 && KeepsLast([], [] + Drawn(q))
  {
    hide ListOk;
    AheadLast(q.chks, Pos(0, 0));
    LatestMeta([StartItem(5)]);
    assert [] + Drawn(q) == [StartItem(5)];
  }

  lemma LowersQueue(q: Queue, e: Event)
    requires WF(q) && q.chks == [NewChk(5)] && q.barrier.None?
    requires e == CheckpointStart(3) || e == SetId(3) || e == ClearAll(true)
    ensures Enabled(q, e) && WF(Apply(q, e)) && Apply(q, e).chks == [NewChk(if e.ClearAll? then 1 else 3)]
  {
    hide ListOk;
    assert KeepBelow(q.chks, 3) == 0 && q.chks[..0] == [];
    ApplyWF(q, e);
    if e.SetId? {
      assert NewChk(5).items[1 := StartItem(3)] == NewChk(3).items;
    }
  }

  /** Events that leave one open checkpoint with a lower id. */
  predicate Lowers(e: Event) {
    e == CheckpointStart(3) || e == SetId(3) || e == ClearAll(true)
  }

  /** A lane with one empty open checkpoint, and 4 about to be published. */
  ghost predicate EmptyBelow(l: Lane) {
    && WF(l.h.q) && Last(l.h.q.chks).open && Last(l.h.q.chks).id <= 4 && l.pending == 4
    && l.h.accepted == [] && l.h.drawnUpTo == 0
  }

  lemma LoweredLane(l: Lane, e: Event, w: seq<VItem>, r: seq<VItem>, vb: Vb)
    requires LaneOk(l, w, r, vb) && DrawnAt5(l) && l.h.accepted == [] && Lowers(e)
    ensures Enabled(l.h.q, e) && QueueGuard(l, e, true) && EmptyBelow(LaneQueue(l, e))
  {
    hide ListOk, Next, Apply, Sound, BatchOk, DrawnOk, AheadOk;
    LowersQueue(l.h.q, e);
    NextOk(l.h, e);
    QueueFrame(l, e, w, r, vb);
    LaneSizes(l, w, r, vb);
  }

  lemma WrittenLane(l: Lane, x: Item, w: seq<VItem>, r: seq<VItem>, vb: Vb)
    requires LaneOk(l, w, r, vb) && EmptyBelow(l) && IsMutation(x)
    ensures var e := Put(x, false, false);
            Enabled(l.h.q, e) && !QueueGuard(l, e, true) && Doomed(LaneQueue(l, e), 0)
  {
    hide ListOk, Next, Sound, BatchOk, DrawnOk, AheadOk;
    QueueFrame(l, Put(x, false, false), w, r, vb);
  }

  /** The flusher has drawn checkpoint 5 and is about to publish 4. */
  lemma DrawnState() returns (p: Pipe)
    ensures PipeOk(InitPipe(map[0 := 5])) && IsPipeRun(InitPipe(map[0 := 5]), [Begin, DrawVb(0, [], [])])
    ensures Guarded(InitPipe(map[0 := 5]), [Begin, DrawVb(0, [], [])])
    ensures p == ExecPipe(InitPipe(map[0 := 5]), [Begin, DrawVb(0, [], [])]) && PipeInv(p) && PipeOk(p)
    ensures p.phase == Drawing({}) && p.writing == [] && p.rejects == []
    ensures p.lanes.Keys == {0} && DrawnAt5(p.lanes[0]) && p.lanes[0].h.accepted == []
  {
    hide WF, KeepsLast, Drawn, LaneOk, DrawnAt5, LaneDraw, IsPipeRun, ExecPipe, Guarded, InitPipe, Can, Do, PipeInv;
    var p0, e, e' := InitPipe(map[0 := 5]), Begin, DrawVb(0, [], []);
    InitInv(map[0 := 5]);
    BeginsAt5();
    var p1 := Do(p0, e);
    DoOk(p0, e);
    DrawsAt5(p1);
    LastStep(p1, e');
    FirstStep(p0, e, [e']);
    assert [e] + [e'] == [e, e'];
    PipeRun(p0, [e, e']);
    p := Do(p1, e');
    OkOf(p);
  }

  lemma BeginsAt5()
    ensures var p := InitPipe(map[0 := 5]);
            && PipeOk(p) && Can(p, Begin) && Guard(p, Begin)
            && Do(p, Begin) == Pipe(map[0 := Lane(Runs.Init(5), [], [], 0, 0, 0)], Drawing({0}), [], [])
  {
    hide WF, Runs.Init, LaneOk;
    InitInv(map[0 := 5]);
    var p := InitPipe(map[0 := 5]);
    assert p.lanes == map[0 := Lane(Runs.Init(5), [], [], 0, 0, 0)] && p.lanes.Keys == {0};
  }

  lemma DrawsAt5(p: Pipe)
    requires PipeOk(p) && p == Pipe(map[0 := Lane(Runs.Init(5), [], [], 0, 0, 0)], Drawing({0}), [], [])
    ensures Can(p, DrawVb(0, [], [])) && Guard(p, DrawVb(0, [], []))
    ensures var p' := Do(p, DrawVb(0, [], []));
            && p'.phase == Drawing({}) && p'.writing == [] && p'.rejects == []
            && p'.lanes.Keys == {0} && DrawnAt5(p'.lanes[0]) && p'.lanes[0].h.accepted == []
  {
    hide WF, KeepsLast, Drawn, Runs.Init, DrawnAt5, LaneDraw;
    InitLogs(5);
    DrawAt5();
    DrawnEmpty(p.lanes[0]);
    assert Tagged(0, []) == [];
  }

  lemma DrawnEmpty(l: Lane)
    requires WF(l.h.q)
    ensures LaneDraw(l, []).h.accepted == l.h.accepted
  {
    hide WF, Next, Drawn, DrawnId;
    PersistDrawn(l.h);
  }

  /** The steps from there: the id is lowered, the caller publishes `c`, and a mutation is written. */
  function Lowering(e: Event, c: nat): seq<PipeEvent> {
    [QueueEvent(0, e), Publish(0, c)]
  }

  function Lying(x: Item): seq<PipeEvent> {
    [QueueEvent(0, Put(x, false, false)), DrawDone, Complete({0})]
  }

  /** Whatever the caller publishes, the write goes to a checkpoint that the flusher then publishes as persisted. */
  lemma WriteBelied(p: Pipe, x: Item)
    requires PipeInv(p) && PipeOk(p) && 0 in p.lanes && EmptyBelow(p.lanes[0]) && IsMutation(x)
    requires p.phase == Drawing({}) && p.writing == [] && p.rejects == []
    ensures IsPipeRun(p, Lying(x)) && !Guard(p, Lying(x)[0]) && Belied(ExecPipe(p, Lying(x)), 0, 0)
  {
    hide LaneOk, EmptyBelow, Doomed, Belied, LaneQueue, QueueGuard, WF, Enabled, IsPipeRun, ExecPipe, Guarded;
    var e := QueueEvent(0, Put(x, false, false));
    LaneWF(p, 0);
    WrittenLane(p.lanes[0], x, p.writing, p.rejects, 0);
    DoOk(p, e);
    PipeStep(p, e);
    var p1 := Do(p, e);
    assert Onward(p1, 0) == DrawDone;
    OnwardStep(p1, 0, 0);
    var p2 := Do(p1, DrawDone);
    assert Onward(p2, 0) == Complete({0});
    OnwardStep(p2, 0, 0);
    LastStep(p2, Complete({0}));
    FirstStep(p1, DrawDone, [Complete({0})]);
    assert [DrawDone] + [Complete({0})] == [DrawDone, Complete({0})];
    FirstStep(p, e, [DrawDone, Complete({0})]);
    assert [e] + [DrawDone, Complete({0})] == Lying(x);
  }

  /**
   The guard can fail, and then the published id is false: with 4 about to be published, a checkpoint start with id 3,
   a new id 3 or a clear, answered by its caller or not, and the next write.
   */
  lemma UnguardedLies(e: Event, c: nat, x: Item) returns (p: Pipe, p': Pipe)
    requires Lowers(e) && IsMutation(x)
    ensures PipeOk(InitPipe(map[0 := 5])) && IsPipeRun(InitPipe(map[0 := 5]), [Begin, DrawVb(0, [], [])])
    ensures p == ExecPipe(InitPipe(map[0 := 5]), [Begin, DrawVb(0, [], [])]) && PipeOk(p)
    ensures IsPipeRun(p, Lowering(e, c)) && Guarded(p, Lowering(e, c)) && p' == ExecPipe(p, Lowering(e, c))
    ensures PipeOk(p') && IsPipeRun(p', Lying(x)) && !Guard(p', Lying(x)[0]) && Belied(ExecPipe(p', Lying(x)), 0, 0)
  {
    hide LaneOk, DrawnAt5, EmptyBelow, Belied, LaneQueue, QueueGuard, WF, Enabled, InitPipe, Lowers, Flying, Settled;
    hide FlushedTo, DrawnTo, IsPipeRun, ExecPipe, Guarded;
    p := DrawnState();
    var e1, e2 := QueueEvent(0, e), Publish(0, c);
    LaneWF(p, 0);
    LoweredLane(p.lanes[0], e, p.writing, p.rejects, 0);
    assert !e.Persist? by { NotPersist(e); }
    DoOk(p, e1);
    PipeStep(p, e1);
    var p1 := Do(p, e1);
    assert p1.lanes[0] == LaneQueue(p.lanes[0], e);
    Answerable(p1.lanes[0], c, p1.writing, p1.rejects);
    DoOk(p1, e2);
    PipeStep(p1, e2);
    p' := Do(p1, e2);
    LastStep(p1, e2);
    FirstStep(p, e1, [e2]);
    assert [e1] + [e2] == Lowering(e, c);
    WriteBelied(p', x);
  }

  lemma NotPersist(e: Event)
    requires Lowers(e)
    ensures !e.Persist?
  {
  }

  /** With nothing accepted anything may be published. */
  lemma Answerable(l: Lane, c: nat, w: seq<VItem>, r: seq<VItem>)
    requires EmptyBelow(l)
    ensures EmptyBelow(l.(published := c)) && DrawnTo(l, c) && FlushedTo(l, w, r, 0, |l.h.accepted|, c)
  {
    hide WF;
  }
}
