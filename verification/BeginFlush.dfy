/**
 `beginFlush` over the managers of all vbuckets: it reads each persistence cursor, deduplicates what was read and
 puts it in the write queue, and is a run of the pipeline.
 */
module BeginFlush {
  import opened Items
  import opened UnifiedQueue
  import opened FlushBatch
  import opened FlushPipeline
  import opened FlusherCycle
  import Runs
  import opened CheckpointState
  import opened CheckpointManagement

  /** The batch of one vbucket is an event of the pipeline, for the manager and for the lane that stands for it. */
  method DrawVbucket(m: CheckpointManager, vb: Vb, backfill: seq<Item>, ghost p: Pipe)
    returns (order: seq<Item>, id: nat)
    requires m.Valid() && PipeOk(p) && vb in p.lanes && p.lanes[vb].h.q == m.View() && NotQueued(backfill)
    requires p.phase.Drawing? && vb in p.phase.todo
    modifies m
    ensures m.Valid() && Can(p, DrawVb(vb, backfill, order))
    ensures var l := LaneDraw(p.lanes[vb], backfill); l.h.q == m.View() && l.pending == id
  {
    hide KeepsLast, UnifiedQueue.Drawn, DrawnId, Draw, WF, Consistent, Abstract;
    var items;
    items, id := m.GetAllItemsForPersistence();
    PersistDrawn(p.lanes[vb].h);
    order := Deduplicate(backfill + items);
  }

  /** Every manager is the queue of its lane. */
  ghost predicate Stand(ms: map<Vb, CheckpointManager>, p: Pipe)
    reads ms.Values
  {
    ms.Keys == p.lanes.Keys && forall vb :: vb in ms ==> ms[vb].Valid() && p.lanes[vb].h.q == ms[vb].View()
  }

  /** The drawn ids are those of the lanes. */
  ghost predicate Ids(drawnIds: map<Vb, nat>, p: Pipe) {
    drawnIds.Keys == p.lanes.Keys && forall vb :: vb in drawnIds ==> drawnIds[vb] == p.lanes[vb].pending
  }

  predicate Distinct(ms: map<Vb, CheckpointManager>) {
    forall a, b :: a in ms && b in ms && a != b ==> ms[a] != ms[b]
  }

  /** Where a draw over the vbuckets stands: `todo` are still to be visited. */
  ghost predicate Drawn(p: Pipe, todo: set<Vb>, writing: seq<VItem>) {
    PipeOk(p) && p.phase == Drawing(todo) && p.writing == writing && p.rejects == []
  }

  /** What one lane is like after the draw: everything it may hand out was drawn, or it was passed over. */
  ghost predicate LaneDrawn(l: Lane, l': Lane, skipped: bool) {
    if skipped then l' == l
    else WF(l.h.q) && l'.h.q == Draw(l.h.q) && l'.pending == DrawnId(l.h.q)
  }

  /** The vbuckets that are not in `todo` have been drawn, but for those that are dead. */
  ghost predicate DrawnBut(p: Pipe, p': Pipe, todo: set<Vb>, dead: set<Vb>) {
    && p'.lanes.Keys == p.lanes.Keys
    && forall vb :: vb in p.lanes ==> LaneDrawn(p.lanes[vb], p'.lanes[vb], vb in todo || vb in dead)
  }

  lemma DrawnNone(p: Pipe, p': Pipe, dead: set<Vb>)
    requires p'.lanes == p.lanes
    ensures DrawnBut(p, p', p.lanes.Keys, dead)
  {
  }

  lemma DrawnOne(p: Pipe, p1: Pipe, p2: Pipe, todo: set<Vb>, dead: set<Vb>, vb: Vb)
    requires DrawnBut(p, p1, todo, dead) && vb in todo && p2.lanes.Keys == p1.lanes.Keys
    requires forall o :: o in p1.lanes && o != vb ==> p2.lanes[o] == p1.lanes[o]
    requires vb in p1.lanes ==> LaneDrawn(p1.lanes[vb], p2.lanes[vb], vb in dead)
    ensures DrawnBut(p, p2, todo - {vb}, dead)
  {
    hide Draw, DrawnId, WF;
  }

  /** One manager and its lane have gone on alike, the other managers were left alone. */
  lemma StandsOn(ms: map<Vb, CheckpointManager>, vb: Vb, p: Pipe, p': Pipe)
    requires vb in ms && ms.Keys == p.lanes.Keys == p'.lanes.Keys
    requires forall o :: o in p.lanes && o != vb ==> p'.lanes[o] == p.lanes[o]
    requires forall o :: o in ms && o != vb ==> HasQueue(ms[o], p.lanes[o].h.q)
    requires HasQueue(ms[vb], p'.lanes[vb].h.q)
    ensures Stand(ms, p')
  {
    hide Consistent, Abstract;
  }

  /** The manager is consistent and has this queue. */
  ghost predicate HasQueue(m: CheckpointManager, q: Queue)
    reads m
  {
    m.Valid() && q == m.View()
  }

  lemma StandAll(ms: map<Vb, CheckpointManager>, p: Pipe)
    requires Stand(ms, p)
    ensures ms.Keys == p.lanes.Keys && forall o :: o in ms ==> HasQueue(ms[o], p.lanes[o].h.q)
  {
    hide Consistent, Abstract;
  }

  lemma IdsDraw(drawnIds: map<Vb, nat>, p: Pipe, p': Pipe, vb: Vb, id: nat)
    requires Ids(drawnIds, p) && vb in p.lanes && p'.lanes.Keys == p.lanes.Keys && p'.lanes[vb].pending == id
    requires forall o :: o in p.lanes && o != vb ==> p'.lanes[o] == p.lanes[o]
    ensures Ids(drawnIds[vb := id], p')
  {
  }

  /** One vbucket is drawn, the others are left alone. */
  method DrawNext(ms: map<Vb, CheckpointManager>, vb: Vb, backfill: seq<Item>, ghost p: Pipe, ghost todo: set<Vb>,
                  ghost writing: seq<VItem>)
    returns (order: seq<Item>, id: nat)
    requires Distinct(ms) && Stand(ms, p) && vb in ms && vb in todo && Drawn(p, todo, writing) && NotQueued(backfill)
    modifies ms.Values
    ensures Can(p, DrawVb(vb, backfill, order)) && Stand(ms, Do(p, DrawVb(vb, backfill, order)))
    ensures PipeOk(Do(p, DrawVb(vb, backfill, order)))
    ensures Drawn(Do(p, DrawVb(vb, backfill, order)), todo - {vb}, writing + Tagged(vb, order))
    ensures Drew(p, Do(p, DrawVb(vb, backfill, order)))
    ensures var p' := Do(p, DrawVb(vb, backfill, order));
            && p'.lanes.Keys == p.lanes.Keys && vb in p.lanes && p'.lanes[vb].pending == id
            && LaneDrawn(p.lanes[vb], p'.lanes[vb], false)
            && forall o :: o in p.lanes && o != vb ==> p'.lanes[o] == p.lanes[o]
  {
    hide PipeOk, LaneDraw, NotQueued, Can, Do, Consistent, Abstract, WF, Stand, Drew, LaneDrawn;
    Others(ms, vb);
    StandAll(ms, p);
    order, id := DrawVbucket(ms[vb], vb, backfill, p);
    Draws(p, todo, writing, vb, backfill, order);
    StandsOn(ms, vb, p, Do(p, DrawVb(vb, backfill, order)));
  }

  lemma Draws(p: Pipe, todo: set<Vb>, writing: seq<VItem>, vb: Vb, backfill: seq<Item>, order: seq<Item>)
    requires Drawn(p, todo, writing) && vb in todo && vb in p.lanes && Can(p, DrawVb(vb, backfill, order))
    ensures WF(p.lanes[vb].h.q) && PipeOk(Do(p, DrawVb(vb, backfill, order)))
    ensures Drawn(Do(p, DrawVb(vb, backfill, order)), todo - {vb}, writing + Tagged(vb, order))
    ensures Do(p, DrawVb(vb, backfill, order)).lanes == p.lanes[vb := LaneDraw(p.lanes[vb], backfill)]
    ensures Drew(p, Do(p, DrawVb(vb, backfill, order)))
    ensures LaneDrawn(p.lanes[vb], LaneDraw(p.lanes[vb], backfill), false)
  {
    hide KeepsLast, UnifiedQueue.Drawn, DrawnId, NotQueued, WF, Runs.Next;
    DoOk(p, DrawVb(vb, backfill, order));
    Runs.NextOk(p.lanes[vb].h, Runs.Persist);
  }

  method Visit(ms: map<Vb, CheckpointManager>, vb: Vb, backfill: seq<Item>, dead: bool, writing: seq<VItem>,
               drawnIds: map<Vb, nat>, ghost todo: set<Vb>, ghost ids: map<Vb, nat>, ghost trace: seq<PipeEvent>,
               ghost es: seq<PipeEvent>)
    returns (writing': seq<VItem>, drawnIds': map<Vb, nat>, ghost es': seq<PipeEvent>)
    requires Distinct(ms) && vb in ms && vb in todo && NotQueued(backfill) && Traces(ids, trace + es)
    requires Ids(drawnIds, Reached(ids, trace + es))
    requires Stand(ms, Reached(ids, trace + es)) && Drawn(Reached(ids, trace + es), todo, writing)
    modifies ms.Values
    ensures Traces(ids, trace + es') && Stand(ms, Reached(ids, trace + es'))
    ensures Drawn(Reached(ids, trace + es'), todo - {vb}, writing')
    ensures Ids(drawnIds', Reached(ids, trace + es')) && Drew(Reached(ids, trace + es), Reached(ids, trace + es'))
    ensures AllDraws(es) ==> AllDraws(es')
    ensures es <= es' && Visited(es', vb, backfill, dead)
    ensures var p, p' := Reached(ids, trace + es), Reached(ids, trace + es');
            && p'.lanes.Keys == p.lanes.Keys && vb in p.lanes && LaneDrawn(p.lanes[vb], p'.lanes[vb], dead)
            && forall o :: o in p.lanes && o != vb ==> p'.lanes[o] == p.lanes[o]
  {
    hide PipeOk, Traces, Reached, Distinct, Can, Do, NotQueued, Consistent, Abstract, Drew, LaneDrawn, Stand;
    ghost var p := Reached(ids, trace + es);
    if dead {
      Skips(p, todo, writing, vb);
      es' := Append(ids, trace, es, SkipVb(vb));
      assert IsVisit(es'[|es|], vb, backfill, dead);
      writing', drawnIds' := writing, drawnIds;
      SameLanesDrew(p, Do(p, SkipVb(vb)));
      Passed(ms, p, Do(p, SkipVb(vb)), vb);
    } else {
      var order, id := DrawNext(ms, vb, backfill, p, todo, writing);
      es' := Append(ids, trace, es, DrawVb(vb, backfill, order));
      assert IsVisit(es'[|es|], vb, backfill, dead);
      writing', drawnIds' := writing + Tagged(vb, order), drawnIds[vb := id];
      IdsDraw(drawnIds, p, Do(p, DrawVb(vb, backfill, order)), vb, id);
    }
  }

  lemma Passed(ms: map<Vb, CheckpointManager>, p: Pipe, p': Pipe, vb: Vb)
    requires Stand(ms, p) && vb in ms && p'.lanes == p.lanes
    ensures Stand(ms, p') && vb in p.lanes && LaneDrawn(p.lanes[vb], p'.lanes[vb], true)
  {
    hide Consistent, Abstract;
  }

  lemma SameLanesDrew(p: Pipe, p': Pipe)
    requires p'.lanes == p.lanes
    ensures Drew(p, p')
  {
  }

  lemma DrewOn(p: Pipe, p1: Pipe, p2: Pipe)
    requires Drew(p, p1) && Drew(p1, p2)
    ensures Drew(p, p2)
  {
  }

  /**
   The new write queue, from the vbuckets that are not dead. `trace` and `es` are what happened before and now: the
   events are enabled, lead to a flush with this write queue, and leave every manager with the queue of its lane; the
   ids drawn are remembered, those of vbuckets passed over as they were.
   */
  method Begin(ms: map<Vb, CheckpointManager>, backfill: map<Vb, seq<Item>>, dead: set<Vb>, drawnIds: map<Vb, nat>,
               ghost ids: map<Vb, nat>, ghost trace: seq<PipeEvent>)
    returns (writing: seq<VItem>, drawnIds': map<Vb, nat>, ghost es: seq<PipeEvent>)
    requires Distinct(ms) && Traces(ids, trace) && Stand(ms, Reached(ids, trace)) && Reached(ids, trace).phase.Idle?
    requires forall vb :: vb in backfill ==> NotQueued(backfill[vb])
    requires Ids(drawnIds, Reached(ids, trace))
    modifies ms.Values
    ensures Traces(ids, trace + es) && Stand(ms, Reached(ids, trace + es))
    ensures var p := Reached(ids, trace + es); p.phase.Flushing? && p.writing == writing && p.rejects == []
    ensures Ids(drawnIds', Reached(ids, trace + es)) && Drew(Reached(ids, trace), Reached(ids, trace + es))
    ensures AllDraws(es) && AllVisited(es, ms.Keys, backfill, dead)
    ensures DrawnBut(Reached(ids, trace), Reached(ids, trace + es), {}, dead)
  {
    hide PipeOk, Traces, Reached, Distinct, NotQueued, Stand, Drawn, Ids, Drew, AllDraws, AllVisited, Visited, At;
    hide LaneDrawn, DrawnBut;
    ghost var p := Reached(ids, trace);
    es := Opening(ms, drawnIds, ids, trace);
    DrawnNone(p, Reached(ids, trace + es), dead);
    Managed(ms, p);
    writing, drawnIds' := [], drawnIds;
    var todo := ms.Keys;
    NoneVisited(es, ms.Keys, backfill, dead);
    AtIn(ids, trace, es, drawnIds, todo, writing);
    while todo != {}
      invariant todo <= ms.Keys && Traces(ids, trace + es) && Stand(ms, Reached(ids, trace + es))
      invariant At(ids, trace, es, drawnIds', todo, writing) && AllVisited(es, ms.Keys - todo, backfill, dead)
      invariant DrawnBut(p, Reached(ids, trace + es), todo, dead)
      decreases |todo|
    {
      var vb :| vb in todo;
      var items := BackfillOf(backfill, vb);
      assert NotQueued(items) by { NoneQueued(); }
      ghost var before := es;
      AtOut(ids, trace, es, drawnIds', todo, writing);
      writing, drawnIds', es := Visit(ms, vb, items, vb in dead, writing, drawnIds', todo, ids, trace, es);
      VisitedMore(before, es, ms.Keys, todo, vb, backfill, dead);
      AtMore(ids, trace, before, es, drawnIds', todo - {vb}, writing);
      DrawnOne(p, Reached(ids, trace + before), Reached(ids, trace + es), todo, dead, vb);
      todo := todo - {vb};
    }
    ghost var before := es;
    AtOut(ids, trace, es, drawnIds', todo, writing);
    es := Closing(ms, writing, drawnIds', ids, trace, es);
    DrawnSame(p, Reached(ids, trace + before), Reached(ids, trace + es), todo, dead);
    assert ms.Keys - todo == ms.Keys;
    StillVisited(before, es, ms.Keys, backfill, dead);
  }

  lemma DrawnSame(p: Pipe, p1: Pipe, p2: Pipe, todo: set<Vb>, dead: set<Vb>)
    requires DrawnBut(p, p1, todo, dead) && p2.lanes == p1.lanes
    ensures DrawnBut(p, p2, todo, dead)
  {
  }

  lemma Managed(ms: map<Vb, CheckpointManager>, p: Pipe)
    requires Stand(ms, p)
    ensures p.lanes.Keys == ms.Keys
  {
    hide Consistent, Abstract;
  }

  /** Where the draw stands. */
  ghost predicate At(ids: map<Vb, nat>, trace: seq<PipeEvent>, es: seq<PipeEvent>, drawnIds: map<Vb, nat>,
                     todo: set<Vb>, writing: seq<VItem>) {
    && Traces(ids, trace) && Traces(ids, trace + es) && AllDraws(es)
    && Drawn(Reached(ids, trace + es), todo, writing) && Ids(drawnIds, Reached(ids, trace + es))
    && Drew(Reached(ids, trace), Reached(ids, trace + es))
  }

  lemma AtIn(ids: map<Vb, nat>, trace: seq<PipeEvent>, es: seq<PipeEvent>, drawnIds: map<Vb, nat>, todo: set<Vb>,
             writing: seq<VItem>)
    requires Traces(ids, trace) && Traces(ids, trace + es) && AllDraws(es)
    requires Drawn(Reached(ids, trace + es), todo, writing) && Ids(drawnIds, Reached(ids, trace + es))
    requires Drew(Reached(ids, trace), Reached(ids, trace + es))
    ensures At(ids, trace, es, drawnIds, todo, writing)
  {
    hide Traces, Reached, Drawn, Ids, Drew, AllDraws;
  }

  lemma AtOut(ids: map<Vb, nat>, trace: seq<PipeEvent>, es: seq<PipeEvent>, drawnIds: map<Vb, nat>, todo: set<Vb>,
              writing: seq<VItem>)
    requires At(ids, trace, es, drawnIds, todo, writing)
    ensures Traces(ids, trace) && Traces(ids, trace + es) && AllDraws(es)
    ensures Drawn(Reached(ids, trace + es), todo, writing) && Ids(drawnIds, Reached(ids, trace + es))
    ensures Drew(Reached(ids, trace), Reached(ids, trace + es))
  {
    hide Traces, Reached, Drawn, Ids, Drew, AllDraws;
  }

  lemma AtMore(ids: map<Vb, nat>, trace: seq<PipeEvent>, es: seq<PipeEvent>, es': seq<PipeEvent>,
               drawnIds: map<Vb, nat>, todo: set<Vb>, writing: seq<VItem>)
    requires Traces(ids, trace) && Traces(ids, trace + es) && Traces(ids, trace + es') && AllDraws(es')
    requires Drawn(Reached(ids, trace + es'), todo, writing) && Ids(drawnIds, Reached(ids, trace + es'))
    requires Drew(Reached(ids, trace), Reached(ids, trace + es))
    requires Drew(Reached(ids, trace + es), Reached(ids, trace + es'))
    ensures At(ids, trace, es', drawnIds, todo, writing)
  {
    hide Traces, Reached, Drawn, Ids, Drew, AllDraws;
    DrewOn(Reached(ids, trace), Reached(ids, trace + es), Reached(ids, trace + es'));
  }

  /** The vbucket was drawn with this backfill, or passed over because it is dead. */
  predicate Visited(es: seq<PipeEvent>, vb: Vb, backfill: seq<Item>, dead: bool) {
    exists i :: 0 <= i < |es| && IsVisit(es[i], vb, backfill, dead)
  }

  predicate IsVisit(e: PipeEvent, vb: Vb, backfill: seq<Item>, dead: bool) {
    if dead then e == SkipVb(vb) else e.DrawVb? && e.vb == vb && e.backfill == backfill
  }

  lemma VisitedStill(es: seq<PipeEvent>, es': seq<PipeEvent>, vb: Vb, backfill: seq<Item>, dead: bool)
    requires es <= es' && Visited(es, vb, backfill, dead)
    ensures Visited(es', vb, backfill, dead)
  {
    var i :| 0 <= i < |es| && IsVisit(es[i], vb, backfill, dead);
    assert es'[i] == es[i];
  }

  function BackfillOf(backfill: map<Vb, seq<Item>>, vb: Vb): seq<Item> {
    if vb in backfill then backfill[vb] else []
  }

  /** All the vbuckets `vbs` were visited. */
  predicate AllVisited(es: seq<PipeEvent>, vbs: set<Vb>, backfill: map<Vb, seq<Item>>, dead: set<Vb>) {
    forall vb :: vb in vbs ==> Visited(es, vb, BackfillOf(backfill, vb), vb in dead)
  }

  lemma VisitedMore(es: seq<PipeEvent>, es': seq<PipeEvent>, vbs: set<Vb>, todo: set<Vb>, vb: Vb,
                    backfill: map<Vb, seq<Item>>, dead: set<Vb>)
    requires es <= es' && AllVisited(es, vbs - todo, backfill, dead)
    requires Visited(es', vb, BackfillOf(backfill, vb), vb in dead)
    ensures AllVisited(es', vbs - (todo - {vb}), backfill, dead)
  {
    hide Visited;
    forall o | o in vbs - todo ensures Visited(es', o, BackfillOf(backfill, o), o in dead) {
      VisitedStill(es, es', o, BackfillOf(backfill, o), o in dead);
    }
  }

  /** The steps of a draw. */
  predicate AllDraws(es: seq<PipeEvent>) {
    forall i :: 0 <= i < |es| ==> es[i].Begin? || es[i].DrawVb? || es[i].SkipVb? || es[i].DrawDone?
  }

  ghost method Opening(ms: map<Vb, CheckpointManager>, drawnIds: map<Vb, nat>, ids: map<Vb, nat>,
                       trace: seq<PipeEvent>)
    returns (es: seq<PipeEvent>)
    requires Traces(ids, trace) && Ids(drawnIds, Reached(ids, trace))
    requires Stand(ms, Reached(ids, trace)) && Reached(ids, trace).phase.Idle?
    ensures Traces(ids, trace + es) && Stand(ms, Reached(ids, trace + es))
    ensures Drawn(Reached(ids, trace + es), ms.Keys, []) && AllDraws(es)
    ensures Ids(drawnIds, Reached(ids, trace + es)) && Drew(Reached(ids, trace), Reached(ids, trace + es))
    ensures Reached(ids, trace + es).lanes == Reached(ids, trace).lanes
  {
    hide PipeOk, Traces, Reached, Can, Do, Consistent, Abstract, Drew;
    StartsDrawing(ids, trace);
    es := Append(ids, trace, [], PipeEvent.Begin);
    SameLanesDrew(Reached(ids, trace), Reached(ids, trace + es));
  }

  ghost method Closing(ms: map<Vb, CheckpointManager>, writing: seq<VItem>, drawnIds: map<Vb, nat>,
                       ids: map<Vb, nat>, trace: seq<PipeEvent>, es: seq<PipeEvent>)
    returns (es': seq<PipeEvent>)
    requires Traces(ids, trace) && Traces(ids, trace + es) && AllDraws(es)
    requires Ids(drawnIds, Reached(ids, trace + es)) && Drew(Reached(ids, trace), Reached(ids, trace + es))
    requires Stand(ms, Reached(ids, trace + es))
    requires Drawn(Reached(ids, trace + es), {}, writing)
    ensures Traces(ids, trace + es') && Stand(ms, Reached(ids, trace + es'))
    ensures var p := Reached(ids, trace + es'); p.phase.Flushing? && p.writing == writing && p.rejects == []
    ensures Ids(drawnIds, Reached(ids, trace + es')) && Drew(Reached(ids, trace), Reached(ids, trace + es'))
    ensures AllDraws(es') && es <= es' && Reached(ids, trace + es').lanes == Reached(ids, trace + es).lanes
  {
    hide PipeOk, Traces, Reached, Can, Do, Consistent, Abstract;
    Stops(Reached(ids, trace + es), writing);
    es' := Append(ids, trace, es, DrawDone);
  }

  lemma NoneVisited(es: seq<PipeEvent>, vbs: set<Vb>, backfill: map<Vb, seq<Item>>, dead: set<Vb>)
    ensures AllVisited(es, vbs - vbs, backfill, dead)
  {
  }

  lemma StillVisited(es: seq<PipeEvent>, es': seq<PipeEvent>, vbs: set<Vb>, backfill: map<Vb, seq<Item>>,
                     dead: set<Vb>)
    requires es <= es' && AllVisited(es, vbs, backfill, dead)
    ensures AllVisited(es', vbs, backfill, dead)
  {
    hide Visited;
    forall o | o in vbs ensures Visited(es', o, BackfillOf(backfill, o), o in dead) {
      VisitedStill(es, es', o, BackfillOf(backfill, o), o in dead);
    }
  }

  lemma NoneQueued()
    ensures NotQueued([])
  {
  }

  lemma StartsDrawing(ids: map<Vb, nat>, trace: seq<PipeEvent>)
    requires Traces(ids, trace) && Reached(ids, trace).phase.Idle?
    ensures trace + [] == trace && PipeOk(Reached(ids, trace)) && Can(Reached(ids, trace), PipeEvent.Begin)
    ensures var p, p' := Reached(ids, trace), Do(Reached(ids, trace), PipeEvent.Begin);
            Drawn(p', p.lanes.Keys, []) && p'.lanes == p.lanes
  {
    hide LaneOk, Traces, Reached;
    ReachedInv(ids, trace);
    hide WF;
  }

  lemma Skips(p: Pipe, todo: set<Vb>, writing: seq<VItem>, vb: Vb)
    requires Drawn(p, todo, writing) && vb in todo
    ensures Can(p, SkipVb(vb)) && Drawn(Do(p, SkipVb(vb)), todo - {vb}, writing) && Do(p, SkipVb(vb)).lanes == p.lanes
  {
    hide WF;
  }

  lemma Stops(p: Pipe, writing: seq<VItem>)
    requires Drawn(p, {}, writing)
    ensures Can(p, DrawDone)
    ensures var p' := Do(p, DrawDone);
            p'.phase.Flushing? && p'.writing == writing && p'.rejects == [] && p'.lanes == p.lanes
  {
    hide WF;
  }

  lemma Others(ms: map<Vb, CheckpointManager>, vb: Vb)
    requires Distinct(ms) && vb in ms
    ensures forall o :: o in ms && o != vb ==> ms[o] != ms[vb]
  {
  }

  ghost method Append(ids: map<Vb, nat>, trace: seq<PipeEvent>, es: seq<PipeEvent>, e: PipeEvent)
    returns (es': seq<PipeEvent>)
    requires Traces(ids, trace + es) && PipeOk(Reached(ids, trace + es)) && Can(Reached(ids, trace + es), e)
    ensures es' == es + [e] && Traces(ids, trace + es') && PipeOk(Reached(ids, trace + es'))
    ensures Reached(ids, trace + es') == Do(Reached(ids, trace + es), e)
  {
    hide PipeOk, Traces, Reached, Can, Do;
    TraceMore(ids, trace + es, e);
    es' := es + [e];
    assert trace + es' == trace + es + [e];
  }
}
