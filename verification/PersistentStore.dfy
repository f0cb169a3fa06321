/**
 The store that owns the checkpoint managers and the flusher: calls on the managers, checkpoint starts, vbucket
 resets and flush passes in any order. Its life is a run of the pipeline, so its fields, the real managers and what
 the flusher really processed have what the theorems about published ids say.
 */
module PersistentStore {
  import opened Items
  import opened UnifiedQueue
  import opened Pending
  import opened Runs
  import opened FlushPipeline
  import opened PublishedIds
  import opened FlusherCycle
  import opened BeginFlush
  import Progress
  import opened CheckpointState
  import opened CheckpointManagement
  import opened ManagerRuns

  /** The events of a vbucket's queue, as events of the pipeline. */
  function OnQueue(vb: Vb, es: seq<Event>): (r: seq<PipeEvent>)
    ensures |r| == |es| && forall i :: 0 <= i < |es| ==> r[i] == QueueEvent(vb, es[i])
  {
    seq(|es|, i requires 0 <= i < |es| => QueueEvent(vb, es[i]))
  }

  /** Every mutation is a new object: it gets the next number. */
  function NumberedCall(c: Call, n: nat): Call {
    match c
    case QueueDirtyCall(x, active, inconsistentSlave, elapsed) =>
      QueueDirtyCall(x.(uid := n), active, inconsistentSlave, elapsed)
    case _ => c
  }

  /** The published ids and the numbers given out are those of the lanes. */
  ghost predicate Books(persistedIds: map<Vb, nat>, offered: map<Vb, nat>, p: Pipe) {
    && persistedIds.Keys == offered.Keys == p.lanes.Keys
    && forall vb :: vb in p.lanes ==> persistedIds[vb] == p.lanes[vb].published && offered[vb] == p.lanes[vb].stamp
  }

  /** A checkpoint start reports that persistence was repositioned: by a rollback, or at the end of backfill. */
  predicate Reports(q: Queue, id: nat)
    requires q.chks != []
  {
    id != 0 && (Last(q.chks).id == 0 || KeepBelow(q.chks, id) <= q.persist.chk)
  }

  /** The events of a checkpoint start: the queue's, and the published id if a reposition was reported. */
  function StartEvents(vb: Vb, q: Queue, id: nat): seq<PipeEvent>
    requires q.chks != []
  {
    [QueueEvent(vb, CheckpointStart(id))] + if Reports(q, id) then [Publish(vb, id - 1)] else []
  }

  // ---------------------------------------------------------------- managers and lanes

  lemma StandSame(ms: map<Vb, CheckpointManager>, p: Pipe, p': Pipe)
    requires Stand(ms, p) && p'.lanes.Keys == p.lanes.Keys
    requires forall vb :: vb in p.lanes ==> p'.lanes[vb].h == p.lanes[vb].h
    ensures Stand(ms, p')
  {
    hide Consistent, Abstract;
  }

  lemma StandOne(ms: map<Vb, CheckpointManager>, p: Pipe, vb: Vb)
    requires Stand(ms, p) && vb in ms
    ensures vb in p.lanes && ms[vb].Valid() && p.lanes[vb].h.q == ms[vb].View()
  {
    hide Consistent, Abstract;
  }

  lemma StandKeys(ms: map<Vb, CheckpointManager>, p: Pipe)
    requires Stand(ms, p)
    ensures ms.Keys == p.lanes.Keys
  {
    hide Consistent, Abstract;
  }

  lemma StandQueues(ms: map<Vb, CheckpointManager>, p: Pipe, qs: map<Vb, Queue>)
    requires Stand(ms, p) && qs.Keys == ms.Keys && forall vb :: vb in ms ==> qs[vb] == ms[vb].View()
    ensures qs.Keys == p.lanes.Keys && forall vb :: vb in qs ==> qs[vb] == p.lanes[vb].h.q
  {
    hide Consistent, Abstract;
  }

  lemma BooksAt(persistedIds: map<Vb, nat>, offered: map<Vb, nat>, p: Pipe, vb: Vb)
    requires Books(persistedIds, offered, p) && vb in p.lanes
    ensures vb in offered && offered[vb] == p.lanes[vb].stamp && vb in persistedIds
  {
  }

  lemma NumberedAllowed(q: Queue, c: Call, n: nat)
    requires q.chks != [] && Allowed(q, c)
    ensures Allowed(q, NumberedCall(c, n))
  {
  }

  lemma NoDraws()
    ensures AllDraws([])
  {
  }

  // ---------------------------------------------------------------- one event of a vbucket

  /** The event is possible for the lane as it is for the manager, and both end in the same queue. */
  lemma EventHere(p: Pipe, vb: Vb, e: Event, q': Queue)
    requires PipeOk(p) && vb in p.lanes && !e.Persist? && WF(p.lanes[vb].h.q)
    requires Enabled(p.lanes[vb].h.q, e) && q' == Apply(p.lanes[vb].h.q, e)
    requires e.Put? ==> e.x.uid == p.lanes[vb].stamp + 1
    ensures Can(p, QueueEvent(vb, e))
    ensures var p' := Do(p, QueueEvent(vb, e));
            OneLane(p, p', vb, e.Put?) && p'.lanes[vb].h.q == q'
  {
    hide WF, Next, Apply, Enabled;
    assert Stamped(p.lanes[vb], e) == e;
    NextOk(p.lanes[vb].h, e);
  }

  lemma BooksEvent(p: Pipe, p': Pipe, vb: Vb, put: bool, drawnIds: map<Vb, nat>, persistedIds: map<Vb, nat>,
                   offered: map<Vb, nat>)
    requires OneLane(p, p', vb, put) && Ids(drawnIds, p) && Books(persistedIds, offered, p)
    ensures Ids(drawnIds, p')
    ensures Books(persistedIds, if put then offered[vb := offered[vb] + 1] else offered, p')
  {
  }

  lemma BooksPublish(p: Pipe, vb: Vb, id: nat, drawnIds: map<Vb, nat>, persistedIds: map<Vb, nat>,
                     offered: map<Vb, nat>)
    requires PipeOk(p) && vb in p.lanes && Ids(drawnIds, p) && Books(persistedIds, offered, p)
    ensures Can(p, Publish(vb, id))
    ensures var p' := Do(p, Publish(vb, id));
            && Ids(drawnIds, p') && Books(persistedIds[vb := id], offered, p') && p'.lanes.Keys == p.lanes.Keys
            && forall o :: o in p.lanes ==> p'.lanes[o].h == p.lanes[o].h
  {
    hide PipeOk;
  }

  lemma BooksDrew(p: Pipe, p': Pipe, persistedIds: map<Vb, nat>, offered: map<Vb, nat>)
    requires Drew(p, p') && Books(persistedIds, offered, p)
    ensures Books(persistedIds, offered, p')
  {
  }

  /** The published ids after a cycle: the drawn ones of the vbuckets alive, where one was drawn. */
  function Completed(persistedIds: map<Vb, nat>, drawnIds: map<Vb, nat>, alive: set<Vb>): map<Vb, nat> {
    map vb | vb in persistedIds ::
      if vb in alive && vb in drawnIds && drawnIds[vb] > 0 then drawnIds[vb] else persistedIds[vb]
  }

  lemma BooksPass(p: Pipe, p': Pipe, completed: bool, alive: set<Vb>, drawnIds: map<Vb, nat>,
                  persistedIds: map<Vb, nat>, offered: map<Vb, nat>)
    requires PassOver(p, p', completed, alive) && Ids(drawnIds, p) && Books(persistedIds, offered, p)
    ensures Ids(drawnIds, p') && p'.lanes.Keys == p.lanes.Keys
    ensures Books(if completed then Completed(persistedIds, drawnIds, alive) else persistedIds, offered, p')
    ensures forall vb :: vb in p.lanes ==> p'.lanes[vb].h == p.lanes[vb].h
  {
  }

  /** A call on one manager, and what it does to the lane that stands for it. */
  method CallOne(ms: map<Vb, CheckpointManager>, vb: Vb, c: Call, ghost p: Pipe) returns (ghost es: seq<Event>)
    requires Distinct(ms) && Stand(ms, p) && PipeOk(p) && vb in ms && !c.PersistenceCall?
    requires ms[vb].View().chks != [] && Allowed(ms[vb].View(), c)
    requires c.QueueDirtyCall? ==> c.x.uid == p.lanes[vb].stamp + 1
    modifies ms.Values
    ensures p.lanes[vb].h.q.chks != [] && es == EventsOf(p.lanes[vb].h.q, c, LimitsOf(ms[vb]))
    ensures es == [] ==> Stand(ms, p) && !c.QueueDirtyCall?
    ensures es != [] ==>
              && |es| == 1 && es[0].Put? == c.QueueDirtyCall? && Can(p, QueueEvent(vb, es[0]))
              && Stand(ms, Do(p, QueueEvent(vb, es[0])))
              && OneLane(p, Do(p, QueueEvent(vb, es[0])), vb, es[0].Put?)
  {
    hide PipeOk, Can, Do, Consistent, Abstract, WF, Allowed, Exact, Recorded, Enabled, Apply, Stand, OneLane;
    hide EventsOf;
    Others(ms, vb);
    StandAll(ms, p);
    var m := ms[vb];
    var t;
    t, es := Perform(m, c, Traffic([], [], map[]));
    CallEvents(p.lanes[vb].h.q, c, LimitsOf(m), es);
    if es != [] {
      EventHere(p, vb, es[0], m.View());
    }
    ghost var p' := if es == [] then p else Do(p, QueueEvent(vb, es[0]));
    SameOthers(p, p', vb, c.QueueDirtyCall?);
    StandsOn(ms, vb, p, p');
  }

  lemma SameOthers(p: Pipe, p': Pipe, vb: Vb, put: bool)
    requires p' == p || OneLane(p, p', vb, put)
    ensures p'.lanes.Keys == p.lanes.Keys && forall o :: o in p.lanes && o != vb ==> p'.lanes[o] == p.lanes[o]
  {
  }

  /** A checkpoint start on one manager: an event of its lane, and whether persistence was repositioned. */
  method StartOne(ms: map<Vb, CheckpointManager>, vb: Vb, id: nat, ghost p: Pipe) returns (repositioned: bool)
    requires Distinct(ms) && Stand(ms, p) && PipeOk(p) && vb in ms && ms[vb].View().chks != []
    requires Allowed(ms[vb].View(), CheckpointStartCall(id))
    modifies ms.Values
    ensures repositioned <==> Reports(p.lanes[vb].h.q, id)
    ensures Can(p, QueueEvent(vb, CheckpointStart(id))) && Stand(ms, Do(p, QueueEvent(vb, CheckpointStart(id))))
    ensures OneLane(p, Do(p, QueueEvent(vb, CheckpointStart(id))), vb, false)
  {
    hide PipeOk, Can, Do, Consistent, Abstract, WF, Exact, KeepBelow, CheckAndAdd, Stand, OneLane, RollsBack;
    Others(ms, vb);
    StandAll(ms, p);
    var m := ms[vb];
    ValidQueue(m);
    var ok;
    ok, repositioned := m.CheckAndAddNewCheckpoint(id);
    EventHere(p, vb, CheckpointStart(id), m.View());
    SameOthers(p, Do(p, QueueEvent(vb, CheckpointStart(id))), vb, false);
    StandsOn(ms, vb, p, Do(p, QueueEvent(vb, CheckpointStart(id))));
  }

  /** What the event of a call can be. */
  lemma CallEvents(q: Queue, c: Call, lim: Limits, es: seq<Event>)
    requires q.chks != [] && es == EventsOf(q, c, lim) && !c.PersistenceCall?
    ensures |es| <= 1 && (es == [] ==> !c.QueueDirtyCall?)
    ensures es != [] ==> !es[0].Persist? && es[0].Put? == c.QueueDirtyCall?
    ensures es != [] && es[0].Put? ==> es[0].x == c.x
  {
  }

  /** One lane changes, in its history and perhaps in the number of mutations offered. */
  ghost predicate OneLane(p: Pipe, p': Pipe, vb: Vb, put: bool) {
    && vb in p.lanes && p'.lanes.Keys == p.lanes.Keys
    && (forall o :: o in p.lanes && o != vb ==> p'.lanes[o] == p.lanes[o])
    && p'.lanes[vb] == p.lanes[vb].(h := p'.lanes[vb].h,
                                    stamp := if put then p.lanes[vb].stamp + 1 else p.lanes[vb].stamp)
  }

  function Zeros(vbs: set<Vb>): map<Vb, nat> {
    map vb | vb in vbs :: 0
  }

  lemma InitBooks(ids: map<Vb, nat>)
    ensures var p := InitPipe(ids); Ids(Zeros(p.lanes.Keys), p) && Books(Zeros(p.lanes.Keys), Zeros(p.lanes.Keys), p)
  {
    hide Runs.Init;
  }

  lemma ReachedNone(ids: map<Vb, nat>)
    ensures Traces(ids, []) && Reached(ids, []) == InitPipe(ids)
  {
    hide InitPipe, PipeInv, PipeOk;
    InitTrue(ids);
  }

  /** A batch was drawn: from every queue but those of dead vbuckets, all that persistence may be handed. */
  ghost predicate AllDrawn(qs: map<Vb, Queue>, qs': map<Vb, Queue>, drawnIds: map<Vb, nat>, dead: set<Vb>) {
    && qs'.Keys == qs.Keys == drawnIds.Keys
    && forall vb :: vb in qs ==>
         if vb in dead then qs'[vb] == qs[vb]
         else WF(qs[vb]) && qs'[vb] == Draw(qs[vb]) && drawnIds[vb] == DrawnId(qs[vb])
  }

  lemma BatchDrawn(p: Pipe, p': Pipe, qs: map<Vb, Queue>, qs': map<Vb, Queue>, drawnIds: map<Vb, nat>, dead: set<Vb>)
    requires DrawnBut(p, p', {}, dead) && Ids(drawnIds, p') && qs.Keys == p.lanes.Keys && qs'.Keys == p'.lanes.Keys
    requires forall vb :: vb in qs ==> qs[vb] == p.lanes[vb].h.q && qs'[vb] == p'.lanes[vb].h.q
    ensures AllDrawn(qs, qs', drawnIds, dead)
  {
    hide WF, Draw, DrawnId;
    forall vb | vb in qs && vb !in dead
      ensures WF(qs[vb]) && qs'[vb] == Draw(qs[vb]) && drawnIds[vb] == DrawnId(qs[vb])
    {
      assert LaneDrawn(p.lanes[vb], p'.lanes[vb], false);
    }
  }

  /** Once a batch is drawn, nothing is left ahead of persistence but what an online update holds back. */
  lemma NothingLeft(qs: map<Vb, Queue>, qs': map<Vb, Queue>, drawnIds: map<Vb, nat>, dead: set<Vb>, vb: Vb)
    requires AllDrawn(qs, qs', drawnIds, dead) && vb in qs && vb !in dead && qs[vb].barrier.None?
    ensures PosOk(qs'[vb].chks, qs'[vb].persist) && Ahead(qs'[vb].chks, qs'[vb].persist) == []
    ensures qs[vb].chks != [] && qs'[vb].chks == qs[vb].chks
    ensures var id := Last(qs[vb].chks).id; drawnIds[vb] == if id > 0 then id - 1 else 0
  {
    hide WF, DrawnId, Ahead, DrawTo;
    Progress.DrawLeaves(qs[vb]);
    Progress.DrawShape(qs[vb]);
    NotEmpty(qs[vb]);
  }

  lemma NotEmpty(q: Queue)
    requires WF(q)
    ensures q.chks != []
  {
  }

  /** All managers of a store share its configuration. */
  ghost predicate Configured(ms: map<Vb, CheckpointManager>, lim: Limits) {
    forall vb :: vb in ms ==> LimitsOf(ms[vb]) == lim
  }

  class EventuallyPersistentStore {
    const managers: map<Vb, CheckpointManager>
    const flusher: Flusher
    const limits: Limits
    var drawnIds: map<Vb, nat>
    var persistedIds: map<Vb, nat>
    var offered: map<Vb, nat>

    ghost function Here(): Pipe
      requires Traces(flusher.ids, flusher.trace)
      reads this, flusher
    {
      Reached(flusher.ids, flusher.trace)
    }

    /** The queues of the vbuckets. */
    ghost function Views(): map<Vb, Queue>
      reads managers.Values
    {
      map vb | vb in managers :: managers[vb].View()
    }

    ghost predicate Valid()
      reads this, flusher, managers.Values
    {
      Distinct(managers) && Configured(managers, limits) && flusher.Valid() && Standing(flusher.trace)
    }

    /** The managers, and the ids, are those of the state after these events. */
    ghost predicate Standing(trace: seq<PipeEvent>)
      reads this, managers.Values
    {
      && Traces(flusher.ids, trace)
      && var p := Reached(flusher.ids, trace);
         Stand(managers, p) && Ids(drawnIds, p) && Books(persistedIds, offered, p)
    }

    constructor (ids: map<Vb, nat>, ms: map<Vb, CheckpointManager>, lim: Limits)
      requires Distinct(ms) && Configured(ms, lim) && PipeOk(InitPipe(ids)) && Stand(ms, InitPipe(ids))
      ensures Valid() && flusher.ids == ids && flusher.trace == [] && managers == ms && fresh(flusher)
      ensures limits == lim
    {
      hide Stand, PipeOk, Books, Ids, InitPipe, Traces, Reached, Distinct, Configured;
      managers, limits := ms, lim;
      flusher := new Flusher(ids);
      drawnIds := Zeros(ms.Keys);
      persistedIds := Zeros(ms.Keys);
      offered := Zeros(ms.Keys);
      new;
      ReachedNone(ids);
      StandKeys(ms, InitPipe(ids));
      InitBooks(ids);
    }

    /** Any call on a manager but the flusher's own read; it is an event of the run, or none. */
    method CallOn(vb: Vb, c: Call) returns (ghost es: seq<Event>)
      requires Valid() && vb in managers && !c.PersistenceCall?
      requires managers[vb].View().chks != [] && Allowed(managers[vb].View(), c)
      modifies this`offered, managers.Values, flusher`trace
      ensures Valid() && vb in old(Here()).lanes && old(Here()).lanes[vb].h.q.chks != []
      ensures var l := old(Here()).lanes[vb]; es == EventsOf(l.h.q, NumberedCall(c, l.stamp + 1), limits)
      ensures flusher.trace == old(flusher.trace) + OnQueue(vb, es)
    {
      hide Stand, Ids, Books, PipeOk, Traces, Reached, EventsOf, Allowed, OneLane, Can, Do;
      ghost var p := Here();
      StandKeys(managers, p);
      BooksAt(persistedIds, offered, p, vb);
      var c' := NumberedCall(c, offered[vb] + 1);
      NumberedAllowed(managers[vb].View(), c, offered[vb] + 1);
      es := CallOne(managers, vb, c', p);
      if c.QueueDirtyCall? {
        offered := offered[vb := offered[vb] + 1];
      }
      if es != [] {
        flusher.Meanwhile(QueueEvent(vb, es[0]));
        BooksEvent(p, Here(), vb, c.QueueDirtyCall?, drawnIds, persistedIds, old(offered));
        assert OnQueue(vb, es) == [QueueEvent(vb, es[0])];
      } else {
        assert OnQueue(vb, es) == [] && flusher.trace + [] == flusher.trace;
      }
    }

    /** A caller publishes a checkpoint id itself. */
    method SetPersistenceCheckpointId(vb: Vb, id: nat)
      requires Valid() && vb in managers
      modifies this`persistedIds, flusher`trace
      ensures Valid() && persistedIds == old(persistedIds)[vb := id]
      ensures flusher.trace == old(flusher.trace) + [Publish(vb, id)]
    {
      hide Stand, Ids, Books, PipeOk, Traces, Reached, Can, Do;
      ghost var p := Here();
      StandKeys(managers, p);
      BooksPublish(p, vb, id, drawnIds, persistedIds, offered);
      flusher.Meanwhile(Publish(vb, id));
      persistedIds := persistedIds[vb := id];
      StandSame(managers, p, Here());
    }

    /** A checkpoint start from the active vbucket: where it repositions persistence, the id before is published. */
    method ProcessCheckpointStart(vb: Vb, id: nat)
      requires Valid() && vb in managers && managers[vb].View().chks != []
      requires Allowed(managers[vb].View(), CheckpointStartCall(id))
      modifies this`persistedIds, managers.Values, flusher`trace
      ensures Valid() && old(managers[vb].View()).chks != []
      ensures flusher.trace == old(flusher.trace) + StartEvents(vb, old(managers[vb].View()), id)
      ensures var q := old(managers[vb].View());
              persistedIds == if id != 0 && (Last(q.chks).id == 0 || KeepBelow(q.chks, id) <= q.persist.chk)
                              then old(persistedIds)[vb := id - 1] else old(persistedIds)
    {
      hide Stand, Ids, Books, PipeOk, Traces, Reached, Can, Do, Allowed, OneLane, Consistent, Abstract, KeepBelow;
      ghost var p := Here();
      StandOne(managers, p, vb);
      var repositioned := StartOne(managers, vb, id, p);
      ghost var e := QueueEvent(vb, CheckpointStart(id));
      flusher.Meanwhile(e);
      BooksEvent(p, Here(), vb, false, drawnIds, persistedIds, offered);
      if repositioned {
        SetPersistenceCheckpointId(vb, id - 1);
        assert old(flusher.trace) + [e] + [Publish(vb, id - 1)] == old(flusher.trace) + [e, Publish(vb, id - 1)];
      }
    }

    /** The vbucket starts anew: nothing is persisted, and its checkpoints are cleared. */
    method ResetVBucket(vb: Vb, active: bool)
      requires Valid() && vb in managers && managers[vb].View().chks != [] && managers[vb].View().barrier.None?
      modifies this`persistedIds, this`offered, managers.Values, flusher`trace
      ensures Valid() && persistedIds == old(persistedIds)[vb := 0]
      ensures flusher.trace == old(flusher.trace) + Reset(vb, active)
    {
      hide Stand, Ids, Books, PipeOk, Traces, Reached, Distinct, Consistent, Abstract;
      SetPersistenceCheckpointId(vb, 0);
      ghost var es := CallOn(vb, ClearCall(active));
      assert es == [ClearAll(active)] && OnQueue(vb, es) == [QueueEvent(vb, ClearAll(active))];
      assert old(flusher.trace) + [Publish(vb, 0)] + OnQueue(vb, es) == old(flusher.trace) + Reset(vb, active);
    }

    /** Some vbucket that is not dead has something to persist. */
    ghost predicate AnyItems(backfill: map<Vb, seq<Item>>, dead: set<Vb>)
      reads this, managers.Values
    {
      exists vb :: vb in managers && vb !in dead && HasItems(managers[vb].View(), BackfillOf(backfill, vb))
    }

    /** Is there anything to persist, in a checkpoint or from a backfill, for a vbucket that is not dead? */
    method HasItemsForPersistence(backfill: map<Vb, seq<Item>>, dead: set<Vb>) returns (has: bool)
      requires Valid()
      ensures has <==> AnyItems(backfill, dead)
    {
      hide Ids, Books, PipeOk, Traces, Reached, Consistent, Abstract, Ahead, BackfillOf;
      has := false;
      var todo := managers.Keys;
      while todo != {} && !has
        invariant todo <= managers.Keys
        invariant has ==>
          exists vb :: vb in managers && vb !in dead && HasItems(managers[vb].View(), BackfillOf(backfill, vb))
        invariant !has ==>
          forall vb :: vb in managers && vb !in todo && vb !in dead ==>
            !HasItems(managers[vb].View(), BackfillOf(backfill, vb))
        decreases |todo|
      {
        var vb :| vb in todo;
        todo := todo - {vb};
        if vb !in dead {
          var more := managers[vb].HasNextForPersistence();
          has := more || BackfillOf(backfill, vb) != [];
          assert has <==> HasItems(managers[vb].View(), BackfillOf(backfill, vb));
        }
      }
    }

    /** On a fresh entry a batch is drawn, if there is anything to persist. */
    method DrawBatch(backfill: map<Vb, seq<Item>>, dead: set<Vb>)
      returns (batch: Option<seq<VItem>>, ghost draw: seq<PipeEvent>)
      requires Valid() && !flusher.flushing && forall vb :: vb in backfill ==> NotQueued(backfill[vb])
      modifies this`drawnIds, managers.Values
      ensures Distinct(managers) && flusher.Valid() && Standing(flusher.trace + draw) && AllDraws(draw)
      ensures batch.None? ==> draw == [] && drawnIds == old(drawnIds) && Views() == old(Views())
      ensures batch.Some? ==>
                && Traces(flusher.ids, flusher.trace)
                && var p := Reached(flusher.ids, flusher.trace + draw);
                   && p.phase.Flushing? && p.writing == batch.value && p.rejects == [] && Drew(Here(), p)
                   && AllVisited(draw, managers.Keys, backfill, dead)
      ensures batch.Some? ==> AllDrawn(old(Views()), Views(), drawnIds, dead)
      ensures batch.Some? <==> old(AnyItems(backfill, dead))
    {
      hide Stand, Ids, Books, PipeOk, Traces, Reached, Distinct, NotQueued, HasItems, Drew, AllVisited, BackfillOf;
      hide Consistent, Abstract, Processes, AllDraws, AnyItems, DrawnBut, AllDrawn;
      NoDraws();
      ghost var p, qs := Here(), Views();
      StandQueues(managers, p, qs);
      batch, draw := None, [];
      var has := HasItemsForPersistence(backfill, dead);
      assert flusher.trace + [] == flusher.trace;
      if has {
        var writing;
        writing, drawnIds, draw := BeginFlush.Begin(managers, backfill, dead, drawnIds, flusher.ids, flusher.trace);
        batch := Some(writing);
        ghost var p' := Reached(flusher.ids, flusher.trace + draw);
        BooksDrew(Here(), p', persistedIds, offered);
        StandQueues(managers, p', Views());
        BatchDrawn(p, p', qs, Views(), drawnIds, dead);
      }
    }

    lemma PassStands(start: seq<PipeEvent>, completed: bool, alive: set<Vb>)
      requires Standing(start) && Traces(flusher.ids, flusher.trace)
      requires PassOver(Reached(flusher.ids, start), Here(), completed, alive)
      ensures !completed ==> Standing(flusher.trace)
      ensures Stand(managers, Here()) && Ids(drawnIds, Here())
      ensures Books(if completed then Completed(persistedIds, drawnIds, alive) else persistedIds, offered, Here())
    {
      hide Stand, Ids, Books, Traces, Reached, Completed, PassOver;
      BooksPass(Reached(flusher.ids, start), Here(), completed, alive, drawnIds, persistedIds, offered);
      StandSame(managers, Reached(flusher.ids, start), Here());
    }

    /** The flusher's part: a fresh batch if its queues are empty, and one pass. */
    method FlushPass(backfill: map<Vb, seq<Item>>, dead: set<Vb>, began: bool, os: seq<Outcome>, ghost alive: set<Vb>)
      returns (completed: bool, ghost batch: Option<seq<VItem>>, ghost draw: seq<PipeEvent>)
      requires Valid() && forall vb :: vb in backfill ==> NotQueued(backfill[vb])
      modifies this`drawnIds, managers.Values, flusher
      ensures flusher.Valid() && Flushes(old(flusher.trace) + draw, flusher.trace) && AllDraws(draw)
      ensures batch.Some? <==> !old(flusher.flushing) && old(AnyItems(backfill, dead))
      ensures if batch.Some? then AllVisited(draw, managers.Keys, backfill, dead)
              else draw == [] && drawnIds == old(drawnIds)
      ensures batch.Some? ==> AllDrawn(old(Views()), Views(), drawnIds, dead)
      ensures old(flusher.flushing) || batch.Some? ==>
                var start := if batch.Some? then Queues(batch.value, [], old(flusher.processed))
                             else old(flusher.Contents());
                && flusher.Contents() == Requeued(SomeFlushed(start, began, os))
                && flusher.processed == start.processed + (if began then Written(start.writing, os) else [])
                && (completed <==> Completes(start, began, os))
                && (completed ==> flusher.processed == start.processed + start.writing)
      ensures completed <==> (old(flusher.flushing) || batch.Some?) && !flusher.flushing
      ensures Standing(old(flusher.trace) + draw)
      ensures if old(flusher.flushing) || batch.Some?
              then PassOver(Reached(flusher.ids, old(flusher.trace) + draw), Here(), completed, alive)
              else flusher.trace == old(flusher.trace)
    {
      hide Stand, Ids, Books, PipeOk, Traces, Reached, Distinct, NotQueued, HasItems, Drew, Completed, BackfillOf;
      hide Requeued, SomeFlushed, Written, Completes, Processes, PassOver, AllVisited, AllDraws, Flushes, AnyItems;
      hide AllDrawn, Configured;
      batch, draw := None, [];
      NoDraws();
      ghost var trace := flusher.trace;
      assert trace + [] == trace;
      var drawn: Option<seq<VItem>> := None;
      if !flusher.flushing {
        drawn, draw := DrawBatch(backfill, dead);
      }
      batch := drawn;
      completed := flusher.DoFlush(drawn, draw, began, os, alive);
    }

    /**
     One pass of the flusher, over what it has in its queues or else over a fresh batch; when both queues are empty,
     the drawn ids of the vbuckets that are not dead then are published.
     */
    method DoFlush(backfill: map<Vb, seq<Item>>, dead: set<Vb>, began: bool, os: seq<Outcome>, deadAtEnd: set<Vb>)
      returns (completed: bool, ghost batch: Option<seq<VItem>>, ghost draw: seq<PipeEvent>)
      requires Valid() && forall vb :: vb in backfill ==> NotQueued(backfill[vb])
      modifies this`drawnIds, this`persistedIds, managers.Values, flusher
      ensures Valid() && Flushes(old(flusher.trace) + draw, flusher.trace) && AllDraws(draw)
      ensures batch.Some? <==> !old(flusher.flushing) && old(AnyItems(backfill, dead))
      ensures if batch.Some? then AllVisited(draw, managers.Keys, backfill, dead)
              else draw == [] && drawnIds == old(drawnIds)
      ensures batch.Some? ==> AllDrawn(old(Views()), Views(), drawnIds, dead)
      ensures old(flusher.flushing) || batch.Some? ==>
                var start := if batch.Some? then Queues(batch.value, [], old(flusher.processed))
                             else old(flusher.Contents());
                && flusher.Contents() == Requeued(SomeFlushed(start, began, os))
                && flusher.processed == start.processed + (if began then Written(start.writing, os) else [])
                && (completed <==> Completes(start, began, os))
                && (completed ==> flusher.processed == start.processed + start.writing)
      ensures completed <==> (old(flusher.flushing) || batch.Some?) && !flusher.flushing
      ensures persistedIds == if completed then Completed(old(persistedIds), drawnIds, managers.Keys - deadAtEnd)
                              else old(persistedIds)
      ensures forall vb :: vb in managers ==>
                && vb in persistedIds && vb in old(persistedIds) && vb in drawnIds
                && persistedIds[vb] == if completed && vb !in deadAtEnd && drawnIds[vb] > 0 then drawnIds[vb]
                                       else old(persistedIds)[vb]
    {
      hide Stand, Ids, Books, PipeOk, Traces, Reached, Distinct, NotQueued, HasItems, Drew, Completed, BackfillOf;
      hide Requeued, SomeFlushed, Written, Completes, Processes, PassOver, AllVisited, AllDraws, Flushes, AnyItems;
      hide AllDrawn, Configured, Views;
      BooksKeys(managers, Here(), persistedIds, drawnIds, offered);
      ghost var trace, passes := flusher.trace, flusher.flushing;
      var alive := managers.Keys - deadAtEnd;
      completed, batch, draw := FlushPass(backfill, dead, began, os, alive);
      assert trace + [] == trace;
      if passes || batch.Some? {
        PassStands(trace + draw, completed, alive);
      }
      if completed {
        persistedIds := Completed(persistedIds, drawnIds, alive);
      }
      BooksKeys(managers, Here(), persistedIds, drawnIds, offered);
      CompletedAt(old(persistedIds), drawnIds, alive);
    }
  }

  lemma BooksKeys(ms: map<Vb, CheckpointManager>, p: Pipe, persistedIds: map<Vb, nat>, drawnIds: map<Vb, nat>,
                  offered: map<Vb, nat>)
    requires Stand(ms, p) && Ids(drawnIds, p) && Books(persistedIds, offered, p)
    ensures ms.Keys == persistedIds.Keys == drawnIds.Keys
  {
    hide Consistent, Abstract;
  }

  lemma CompletedAt(persistedIds: map<Vb, nat>, drawnIds: map<Vb, nat>, alive: set<Vb>)
    requires persistedIds.Keys == drawnIds.Keys
    ensures var r := Completed(persistedIds, drawnIds, alive);
            && r.Keys == persistedIds.Keys
            && forall vb :: vb in r ==>
                 r[vb] == if vb in alive && drawnIds[vb] > 0 then drawnIds[vb] else persistedIds[vb]
  {
  }

  predicate HasItems(q: Queue, backfill: seq<Item>) {
    WF(q) && (Ahead(q.chks, q.persist) != [] || !Last(q.chks).open || backfill != [])
  }

  // ---------------------------------------------------------------- whole lives of the store

  /** What can be asked of the store, with what the environment decides. */
  datatype Act =
    | CallAct(vb: Vb, c: Call)
    | StartAct(vb: Vb, id: nat)
    | ResetAct(vb: Vb, active: bool)
    | PublishAct(vb: Vb, id: nat)
    | FlushAct(backfill: map<Vb, seq<Item>>, dead: set<Vb>, began: bool, os: seq<Outcome>, deadAtEnd: set<Vb>)

  /** What callers guarantee. */
  predicate Permitted(p: Pipe, a: Act)
    requires PipeOk(p)
  {
    match a
    case CallAct(vb, c) => vb in p.lanes && !c.PersistenceCall? && Allowed(p.lanes[vb].h.q, c)
    case StartAct(vb, id) => vb in p.lanes && Allowed(p.lanes[vb].h.q, CheckpointStartCall(id))
    case ResetAct(vb, _) => vb in p.lanes && p.lanes[vb].h.q.barrier.None?
    case PublishAct(vb, _) => vb in p.lanes
    case FlushAct(backfill, _, _, _, _) => forall vb :: vb in backfill ==> NotQueued(backfill[vb])
  }

  /** The events of the pipeline that an act stands for. */
  ghost predicate Records(p: Pipe, lim: Limits, a: Act, es: seq<PipeEvent>)
    requires PipeOk(p) && Permitted(p, a)
  {
    match a
    case CallAct(vb, c) =>
      var l := p.lanes[vb];
      es == OnQueue(vb, EventsOf(l.h.q, NumberedCall(c, l.stamp + 1), lim))
    case StartAct(vb, id) => es == StartEvents(vb, p.lanes[vb].h.q, id)
    case ResetAct(vb, active) => es == Reset(vb, active)
    case PublishAct(vb, id) => es == [Publish(vb, id)]
    case FlushAct(backfill, dead, _, _, _) => exists draw :: Passes(p, backfill, dead, draw, es)
  }

  /** The events of a pass: a draw of all vbuckets if a cycle begins and there is something to persist, and flushing. */
  ghost predicate Passes(p: Pipe, backfill: map<Vb, seq<Item>>, dead: set<Vb>, draw: seq<PipeEvent>,
                         es: seq<PipeEvent>) {
    && AllDraws(draw) && Flushes(draw, es)
    && if p.phase.Idle? && AnyIn(p, backfill, dead) then AllVisited(draw, p.lanes.Keys, backfill, dead) else draw == []
  }

  ghost predicate AnyIn(p: Pipe, backfill: map<Vb, seq<Item>>, dead: set<Vb>) {
    exists vb :: vb in p.lanes && vb !in dead && HasItems(p.lanes[vb].h.q, BackfillOf(backfill, vb))
  }

  lemma AnyHere(s: EventuallyPersistentStore, backfill: map<Vb, seq<Item>>, dead: set<Vb>)
    requires s.Valid()
    ensures s.AnyItems(backfill, dead) <==> AnyIn(s.Here(), backfill, dead)
    ensures s.flusher.flushing <==> !s.Here().phase.Idle?
  {
    hide Ids, Books, PipeOk, Traces, Reached, Stand, HasItems, BackfillOf, Processes;
    StandAll(s.managers, s.Here());
  }

  /** The act, after the events `before`, contributes its events, or none if its callers rule it out. */
  ghost predicate ActAt(ids: map<Vb, nat>, lim: Limits, a: Act, before: seq<PipeEvent>, es: seq<PipeEvent>) {
    && Traces(ids, before) && PipeOk(Reached(ids, before))
    && if Permitted(Reached(ids, before), a) then Records(Reached(ids, before), lim, a, es) else es == []
  }

  ghost predicate Acted(ids: map<Vb, nat>, lim: Limits, acts: seq<Act>, ess: seq<seq<PipeEvent>>) {
    |ess| == |acts| && forall i :: 0 <= i < |acts| ==> ActAt(ids, lim, acts[i], Cat(ess[..i]), ess[i])
  }

  lemma ActedMore(ids: map<Vb, nat>, lim: Limits, acts: seq<Act>, ess: seq<seq<PipeEvent>>, n: nat, es: seq<PipeEvent>)
    requires n < |acts| && Acted(ids, lim, acts[..n], ess) && ActAt(ids, lim, acts[n], Cat(ess), es)
    ensures Acted(ids, lim, acts[..n + 1], ess + [es]) && Cat(ess + [es]) == Cat(ess) + es
  {
    hide ActAt, Cat;
    var ess', acts' := ess + [es], acts[..n + 1];
    forall i | 0 <= i < |acts'| ensures ActAt(ids, lim, acts'[i], Cat(ess'[..i]), ess'[i]) {
      if i < n {
        assert acts[..n][i] == acts'[i] && ess'[..i] == ess[..i];
      } else {
        assert ess'[..n] == ess;
      }
    }
    CatMore(ess, es);
  }

  lemma ActedNone(ids: map<Vb, nat>, lim: Limits, acts: seq<Act>)
    ensures Acted(ids, lim, acts[..0], []) && Cat<PipeEvent>([]) == []
  {
  }

  /** A manager's queue is never empty, and is that of its lane. */
  lemma QueueOf(s: EventuallyPersistentStore, vb: Vb)
    requires s.Valid() && vb in s.managers
    ensures PipeOk(s.Here()) && vb in s.Here().lanes && s.managers[vb].View() == s.Here().lanes[vb].h.q
    ensures s.managers[vb].View().chks != []
  {
    hide Ids, Books, PipeOk, Traces, Reached, Consistent, Abstract;
    StandOne(s.managers, s.Here(), vb);
    ValidQueue(s.managers[vb]);
  }

  lemma KeysOf(s: EventuallyPersistentStore)
    requires s.Valid()
    ensures PipeOk(s.Here()) && s.managers.Keys == s.Here().lanes.Keys
  {
    hide Ids, Books, PipeOk, Traces, Reached, Consistent, Abstract;
    StandKeys(s.managers, s.Here());
  }

  /** One act on a vbucket. */
  method ActOn(s: EventuallyPersistentStore, a: Act) returns (ghost es: seq<PipeEvent>)
    requires s.Valid() && !a.FlushAct? && a.vb in s.managers && PipeOk(s.Here())
    modifies s`persistedIds, s`offered, s.managers.Values, s.flusher`trace
    ensures s.Valid() && s.flusher.trace == old(s.flusher.trace) + es
    ensures if Permitted(old(s.Here()), a) then Records(old(s.Here()), s.limits, a, es) else es == []
  {
    hide Stand, Ids, Books, PipeOk, Traces, Reached, Distinct, Consistent, Abstract, Allowed, StartEvents, EventsOf;
    QueueOf(s, a.vb);
    es := [];
    ghost var trace := s.flusher.trace;
    var q := s.managers[a.vb].View();
    match a {
      case CallAct(vb, c) =>
        if !c.PersistenceCall? && Allowed(q, c) {
          ghost var qs := s.CallOn(vb, c);
          es := OnQueue(vb, qs);
        }
      case StartAct(vb, id) =>
        if Allowed(q, CheckpointStartCall(id)) {
          s.ProcessCheckpointStart(vb, id);
          es := StartEvents(vb, q, id);
        }
      case ResetAct(vb, active) =>
        if q.barrier.None? {
          s.ResetVBucket(vb, active);
          es := Reset(vb, active);
        }
      case PublishAct(vb, id) =>
        s.SetPersistenceCheckpointId(vb, id);
        es := [Publish(vb, id)];
    }
    assert trace + [] == trace;
  }

  method DoAct(s: EventuallyPersistentStore, a: Act) returns (ghost es: seq<PipeEvent>)
    requires s.Valid()
    modifies s, s.managers.Values, s.flusher
    ensures s.Valid() && s.flusher.trace == old(s.flusher.trace) + es
    ensures ActAt(s.flusher.ids, s.limits, a, old(s.flusher.trace), es)
  {
    hide Stand, Ids, Books, PipeOk, Traces, Reached, Distinct, Consistent, Abstract, Allowed, NotQueued, Records;
    hide AllVisited, AnyIn, Requeued, SomeFlushed, Completed, Flushes, AllDraws, Processes;
    KeysOf(s);
    ghost var trace, p := s.flusher.trace, s.Here();
    es := [];
    if a.FlushAct? {
      if forall vb :: vb in a.backfill ==> NotQueued(a.backfill[vb]) {
        AnyHere(s, a.backfill, a.dead);
        ghost var batch, draw;
        var completed;
        completed, batch, draw := s.DoFlush(a.backfill, a.dead, a.began, a.os, a.deadAtEnd);
        FlushesMore(trace, draw, s.flusher.trace);
        es := s.flusher.trace[|trace|..];
        PassRecorded(p, s.limits, a, trace, draw, s.flusher.trace);
      }
    } else if a.vb in s.managers {
      es := ActOn(s, a);
    }
    assert trace + [] == trace;
  }

  lemma FlushesMore(trace: seq<PipeEvent>, draw: seq<PipeEvent>, trace': seq<PipeEvent>)
    requires Flushes(trace + draw, trace')
    ensures trace <= trace'
  {
    assert (trace + draw)[..|trace|] == trace;
  }

  lemma PassRecorded(p: Pipe, lim: Limits, a: Act, trace: seq<PipeEvent>, draw: seq<PipeEvent>, trace': seq<PipeEvent>)
    requires PipeOk(p) && a.FlushAct? && Permitted(p, a) && AllDraws(draw) && Flushes(trace + draw, trace')
    requires if p.phase.Idle? && AnyIn(p, a.backfill, a.dead) then AllVisited(draw, p.lanes.Keys, a.backfill, a.dead)
             else draw == []
    ensures Records(p, lim, a, trace'[|trace|..]) && trace + trace'[|trace|..] == trace'
  {
    hide PipeOk, AnyIn, AllVisited, AllDraws;
    var es := trace'[|trace|..];
    assert draw == es[..|draw|];
    assert Flushes(draw, es) by {
      forall i | |draw| <= i < |es| ensures es[i] == trace'[|trace| + i] { }
    }
    assert Passes(p, a.backfill, a.dead, draw, es);
  }

  /** New managers for these vbuckets. */
  method NewManagers(ids: map<Vb, nat>, maxItems: nat, maxChk: nat) returns (ms: map<Vb, CheckpointManager>)
    ensures Distinct(ms) && Stand(ms, InitPipe(ids)) && fresh(ms.Values)
    ensures Configured(ms, Limits(maxItems, maxChk))
  {
    hide Consistent, Abstract, InitPipe, Stand, Distinct, Exact;
    ms := map[];
    DistinctNone();
    var todo := ids.Keys;
    while todo != {}
      invariant todo <= ids.Keys && ms.Keys == ids.Keys - todo && Distinct(ms)
      invariant forall vb :: vb in ms ==> fresh(ms[vb]) && IsNew(ms[vb], ids[vb])
      invariant Configured(ms, Limits(maxItems, maxChk))
      decreases |todo|
    {
      var vb :| vb in todo;
      var m := NewManager(ids[vb], maxItems, maxChk);
      DistinctMore(ms, vb, m);
      ms := ms[vb := m];
      todo := todo - {vb};
    }
    NewStand(ids, ms);
  }

  ghost predicate IsNew(m: CheckpointManager, id: nat)
    reads m
  {
    m.Valid() && m.View() == Queue([NewChk(id)], Pos(0, 0), map[], None)
  }

  lemma NewStand(ids: map<Vb, nat>, ms: map<Vb, CheckpointManager>)
    requires ms.Keys == ids.Keys && forall vb :: vb in ms ==> IsNew(ms[vb], ids[vb])
    ensures Stand(ms, InitPipe(ids))
  {
    hide Consistent, Abstract;
  }

  lemma DistinctNone()
    ensures Distinct(map[])
  {
  }

  lemma DistinctMore(ms: map<Vb, CheckpointManager>, vb: Vb, m: CheckpointManager)
    requires Distinct(ms) && forall o :: o in ms ==> ms[o] != m
    ensures Distinct(ms[vb := m])
  {
  }

  /** What is published for a vbucket is persisted: each mutation it covers was processed, or a later one of its key. */
  ghost predicate Persisted(s: EventuallyPersistentStore, vb: Vb)
    requires s.Valid() && vb in s.managers && vb in s.Here().lanes && vb in s.persistedIds
    reads s, s.flusher, s.managers.Values
  {
    var h := s.Here().lanes[vb].h;
    forall j :: 0 <= j < |h.accepted| && j < |h.acceptedIn| && Claims(s.persistedIds[vb], h.acceptedIn[j]) ==>
      exists k :: 0 <= k < |s.flusher.processed| && s.flusher.processed[k].vb == vb
                  && Supersedes(s.flusher.processed[k].x, h.accepted[j])
  }

  lemma PersistedTrue(s: EventuallyPersistentStore, vb: Vb)
    requires s.Valid() && vb in s.managers && Guarded(InitPipe(s.flusher.ids), s.flusher.trace)
    ensures vb in s.Here().lanes && vb in s.persistedIds && Persisted(s, vb)
  {
    hide Stand, Ids, PipeOk, IsPipeRun, ExecPipe, InitPipe, Guarded, Of;
    StandKeys(s.managers, s.Here());
    var h := s.Here().lanes[vb].h;
    forall j | 0 <= j < |h.accepted| && j < |h.acceptedIn| && Claims(s.persistedIds[vb], h.acceptedIn[j])
      ensures exists k :: 0 <= k < |s.flusher.processed| && s.flusher.processed[k].vb == vb
                          && Supersedes(s.flusher.processed[k].x, h.accepted[j])
    {
      s.flusher.PublishedPersisted(vb, j);
    }
  }

  /**
   Any acts on a new store: its life is the run of the events they stand for, in order, but for acts that its callers
   rule out. If every step of the run meets its guard, as it does when callers keep to their rules, what the store
   has published is persisted, for every vbucket.
   */
  method RunStore(ids: map<Vb, nat>, maxItems: nat, maxChk: nat, acts: seq<Act>)
    returns (s: EventuallyPersistentStore, ghost ess: seq<seq<PipeEvent>>)
    ensures s.Valid() && s.flusher.ids == ids && s.flusher.trace == Cat(ess)
    ensures Acted(ids, Limits(maxItems, maxChk), acts, ess)
    ensures s.managers.Keys == s.persistedIds.Keys == s.Here().lanes.Keys == ids.Keys
    ensures Tame(InitPipe(ids), Cat(ess), {}) ==> Guarded(InitPipe(ids), Cat(ess))
    ensures Guarded(InitPipe(ids), Cat(ess)) ==> forall vb :: vb in s.managers ==> Persisted(s, vb)
  {
    hide Stand, PipeOk, Traces, Reached, Distinct, Books, Ids, Acted, ActAt, Cat, InitPipe, Persisted, Guarded, Tame;
    hide IsPipeRun, Processes, Configured;
    InitTrue(ids);
    InitKeys(ids);
    var ms := NewManagers(ids, maxItems, maxChk);
    StandKeys(ms, InitPipe(ids));
    s := new EventuallyPersistentStore(ids, ms, Limits(maxItems, maxChk));
    ess := RunActs(s, acts);
    KeysHere(s);
    TracesRun(ids, Cat(ess));
    RulesGuard(ids, Cat(ess));
    AllPersisted(s);
  }

  method RunActs(s: EventuallyPersistentStore, acts: seq<Act>) returns (ghost ess: seq<seq<PipeEvent>>)
    requires s.Valid() && s.flusher.trace == []
    modifies s, s.managers.Values, s.flusher
    ensures s.Valid() && s.flusher.trace == Cat(ess) && Acted(s.flusher.ids, s.limits, acts, ess)
  {
    hide Stand, PipeOk, Traces, Reached, Distinct, Books, Ids, Acted, ActAt, Cat, InitPipe, IsPipeRun, Processes;
    ess := [];
    ActedNone(s.flusher.ids, s.limits, acts);
    var i := 0;
    while i < |acts|
      invariant 0 <= i <= |acts|
      invariant s.Valid() && s.flusher.trace == Cat(ess) && Acted(s.flusher.ids, s.limits, acts[..i], ess)
    {
      ghost var es := DoAct(s, acts[i]);
      ActedMore(s.flusher.ids, s.limits, acts, ess, i, es);
      ess := ess + [es];
      i := i + 1;
    }
    assert acts[..|acts|] == acts;
  }

  lemma RulesGuard(ids: map<Vb, nat>, trace: seq<PipeEvent>)
    requires PipeOk(InitPipe(ids)) && IsPipeRun(InitPipe(ids), trace)
    ensures Tame(InitPipe(ids), trace, {}) ==> Guarded(InitPipe(ids), trace)
  {
    hide PipeOk, InitPipe, IsPipeRun, Tame, Guarded;
    if Tame(InitPipe(ids), trace, {}) {
      CallersKeepTrue(ids, trace);
    }
  }

  lemma AllPersisted(s: EventuallyPersistentStore)
    requires s.Valid() && PipeOk(InitPipe(s.flusher.ids)) && IsPipeRun(InitPipe(s.flusher.ids), s.flusher.trace)
    requires s.managers.Keys == s.persistedIds.Keys == s.Here().lanes.Keys
    ensures Guarded(InitPipe(s.flusher.ids), s.flusher.trace) ==> forall vb :: vb in s.managers ==> Persisted(s, vb)
  {
    hide Stand, PipeOk, Traces, Reached, Distinct, Books, Ids, InitPipe, Persisted, Guarded, IsPipeRun, Processes;
    if Guarded(InitPipe(s.flusher.ids), s.flusher.trace) {
      forall vb | vb in s.managers ensures Persisted(s, vb) {
        PersistedTrue(s, vb);
      }
    }
  }

  lemma InitKeys(ids: map<Vb, nat>)
    ensures InitPipe(ids).lanes.Keys == ids.Keys
  {
    hide Runs.Init;
  }

  lemma TracesRun(ids: map<Vb, nat>, trace: seq<PipeEvent>)
    requires Traces(ids, trace)
    ensures PipeOk(InitPipe(ids)) && IsPipeRun(InitPipe(ids), trace)
  {
    hide PipeOk, InitPipe, IsPipeRun;
  }

  lemma KeysHere(s: EventuallyPersistentStore)
    requires s.Valid()
    ensures s.managers.Keys == s.persistedIds.Keys == s.Here().lanes.Keys
  {
    hide Ids, PipeOk, Traces, Reached, Stand;
    StandKeys(s.managers, s.Here());
  }
}
