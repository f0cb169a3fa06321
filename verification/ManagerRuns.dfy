/**
 Every run of the real checkpoint manager is a run of the queue: whatever calls are made, in whatever order, the
 manager's fields stand for the state that the same events lead to, what it hands to persistence is what the run
 says, and its counters are exact.
 */
module ManagerRuns {
  import opened Items
  import opened UnifiedQueue
  import opened Runs
  import opened Delivery
  import opened ClosedOnly
  import opened OnlineUpdate
  import opened Placement
  import opened Progress
  import opened CheckpointState
  import opened CheckpointSteps
  import opened CheckpointManagement
  import CheckpointDropping

  /** Calls of the manager's operations, with what the environment decides for each. */
  datatype Call =
    | QueueDirtyCall(x: Item, active: bool, inconsistentSlave: bool, elapsed: bool)
    | PersistenceCall
    | NextItemCall(name: string)
    | TapItemsCall(name: string)
    | BackOffCall(name: string)
    | RegisterCall(name: string, id: nat, closedOnly: bool, fromBeginning: bool)
    | RemoveCall(name: string)
    | TrimCall(active: bool, inconsistentSlave: bool, force: bool, elapsed: bool)
    | CheckOpenCall(force: bool, elapsed: bool)
    | CloseCall(id: nat)
    | SetIdCall(id: nat)
    | CheckpointStartCall(id: nat)
    | StartOnlineCall
    | StopOnlineCall
    | ClearCall(active: bool)

  /**
   What callers guarantee: mutations only, an open checkpoint on active vbuckets, ids that fit, no rollback or clear
   during online update, and an open checkpoint when it stops.
   */
  predicate Allowed(q: Queue, c: Call)
    requires q.chks != []
  {
    match c
    case QueueDirtyCall(x, active, _, _) => IsMutation(x) && (active ==> Last(q.chks).open)
    case CheckpointStartCall(id) => q.barrier.Some? ==> !RollsBack(q, id)
    case SetIdCall(id) => CanRename(q, id)
    case StopOnlineCall => q.barrier.Some? ==> Last(q.chks).open
    case ClearCall(_) => q.barrier.None?
    case _ => true
  }

  /** The limits a manager is configured with. */
  datatype Limits = Limits(maxItems: nat, maxCheckpoints: nat)

  function LimitsOf(m: CheckpointManager): Limits {
    Limits(m.checkpointMaxItems, m.maxCheckpoints)
  }

  /**
   The events that a call stands for: its own, and for a check of the open checkpoint one or none. Writers and the
   remover open a new checkpoint on active, consistent vbuckets, below the limit, and only when it is called for.
   */
  function EventsOf(q: Queue, c: Call, lim: Limits): (es: seq<Event>)
    requires q.chks != []
    ensures |es| <= 1 && (es == [] ==> c.CheckOpenCall?)
  {
    match c
    case QueueDirtyCall(x, active, inconsistentSlave, elapsed) =>
      [Put(x, active, active && !inconsistentSlave && |q.chks| < lim.maxCheckpoints
                      && Full(Last(Write(q, x).chks), lim.maxItems, elapsed))]
    case PersistenceCall => [Persist]
    case NextItemCall(n) => [TapNext(n)]
    case TapItemsCall(n) => [TapAll(n)]
    case BackOffCall(n) => [TapBackOff(n)]
    case RegisterCall(n, id, closedOnly, fromBeginning) => [TapRegister(n, id, closedOnly, fromBeginning)]
    case RemoveCall(n) => [TapRemove(n)]
    case TrimCall(active, inconsistentSlave, force, elapsed) =>
      [RemoveClosed(active && !inconsistentSlave && |q.chks| < lim.maxCheckpoints
                    && (force || Full(Last(q.chks), lim.maxItems, elapsed)))]
    case CheckOpenCall(force, elapsed) =>
      if force || Full(Last(q.chks), lim.maxItems, elapsed) then [Roll] else []
    case CloseCall(id) => [CloseId(id)]
    case SetIdCall(id) => [SetId(id)]
    case CheckpointStartCall(id) => [CheckpointStart(id)]
    case StartOnlineCall => [OnlineStartEvent]
    case StopOnlineCall => [OnlineStopEvent]
    case ClearCall(active) => [ClearAll(active)]
  }

  /** Calls that open a new checkpoint whatever the limit. */
  predicate OpensAnyway(c: Call) {
    c.CheckOpenCall? || c.CheckpointStartCall? || c.StartOnlineCall? || c.StopOnlineCall?
  }

  /** No other call takes the list beyond the limit. */
  lemma WithinLimit(q: Queue, c: Call, lim: Limits)
    requires WF(q) && Allowed(q, c) && !OpensAnyway(c)
    ensures EventsOf(q, c, lim) != []
    ensures var q' := Apply(q, EventsOf(q, c, lim)[0]);
            |q'.chks| <= |q.chks| || |q'.chks| <= lim.maxCheckpoints
  {
    hide ListOk, Full;
  }

  /** The call was one event of the queue, or none. */
  ghost predicate Matches(q: Queue, q': Queue, es: seq<Event>) {
    WF(q) && if es == [] then q' == q else |es| == 1 && Enabled(q, es[0]) && q' == Apply(q, es[0])
  }

  /** Events after which the counters are exact if they were before. */
  predicate Counted(q: Queue, e: Event)
    requires q.chks != []
  {
    match e
    case Put(x, _, _) => x.key != ""
    case TapRegister(_, id, _, _) => HasId(q.chks, id) || Last(q.chks).open
    case OnlineStartEvent => q.barrier.Some?
    case OnlineStopEvent => q.barrier.None?
    case _ => true
  }

  lemma ValidQueue(m: CheckpointManager)
    requires m.Valid()
    ensures WF(m.View()) && m.View().chks != [] && m.checkpointList != []
    ensures |m.View().chks| == |m.checkpointList|
    ensures Last(m.View().chks).open <==> m.checkpointList[|m.checkpointList| - 1].state.Opened?
    ensures m.View().barrier.None? <==> !m.doOnlineUpdate
  {
    LastOpen(m.Now());
  }

  /** The invariants kept by a call that stands for `es`. */
  twostate predicate Kept(m: CheckpointManager, es: seq<Event>)
    reads m
  {
    && m.Valid() && Matches(old(m.View()), m.View(), es)
    && (old(m.CountersExact()) && (es == [] || Counted(old(m.View()), es[0])) ==> m.CountersExact())
  }

  /** The events are those of the call on the queue as it was. */
  twostate predicate EventsHere(m: CheckpointManager, c: Call, es: seq<Event>)
    reads m
  {
    old(m.View()).chks != [] && es == EventsOf(old(m.View()), c, LimitsOf(m))
  }

  /** What the manager accepted and handed out: to persistence, and to every TAP cursor since it was registered. */
  datatype Traffic = Traffic(written: seq<Item>, persisted: seq<Item>, sent: map<string, seq<Item>>)

  /** What a reading event hands out. */
  function ReadBy(q: Queue, e: Event): seq<Item>
    requires WF(q)
  {
    match e
    case Persist => Drawn(q)
    case TapNext(n) => if n in q.taps then SentBy(q, n) else []
    case TapAll(n) => if n in q.taps then Ahead(q.chks, q.taps[n].pos) else []
    case _ => []
  }

  function Sent(sent: map<string, seq<Item>>, n: string, out: seq<Item>): map<string, seq<Item>> {
    if n in sent then sent[n := sent[n] + out] else sent
  }

  /** The traffic after an event. */
  function Recorded(t: Traffic, q: Queue, e: Event): Traffic
    requires WF(q)
  {
    match e
    case Put(x, active, _) => if Accepts(q, active) then t.(written := t.written + [x]) else t
    case Persist => t.(persisted := t.persisted + ReadBy(q, e))
    case TapNext(n) => t.(sent := Sent(t.sent, n, ReadBy(q, e)))
    case TapAll(n) => t.(sent := Sent(t.sent, n, ReadBy(q, e)))
    case TapRegister(n, _, _, _) => t.(sent := t.sent[n := []])
    case TapRemove(n) => t.(sent := t.sent - {n})
    case _ => t
  }

  // ---------------------------------------------------------------- one call is one event

  method PerformWrite(m: CheckpointManager, c: Call) returns (ghost es: seq<Event>)
    requires m.Valid() && m.View().chks != [] && Allowed(m.View(), c) && c.QueueDirtyCall?
    modifies m
    ensures Kept(m, es)
    ensures EventsHere(m, c, es)
  {
    hide WF, Consistent, Abstract, Exact, UnifiedQueue.QueueDirty, Full, Write, Ahead, KeySet;
    ValidQueue(m);
    es := EventsOf(m.View(), c, LimitsOf(m));
    var _ := m.QueueDirty(c.x, c.active, c.inconsistentSlave, c.elapsed);
  }

  method PerformTurnover(m: CheckpointManager, c: Call) returns (ghost es: seq<Event>)
    requires m.Valid() && m.View().chks != [] && Allowed(m.View(), c) && (c.TrimCall? || c.CheckOpenCall?)
    modifies m
    ensures Kept(m, es)
    ensures EventsHere(m, c, es)
  {
    hide WF, Consistent, Abstract, Exact, Trim, PreTrim, Rollover, Full, CheckpointDropping.Freed;
    ValidQueue(m);
    es := EventsOf(m.View(), c, LimitsOf(m));
    if c.TrimCall? {
      var _, _ := m.RemoveClosedUnrefCheckpoints(c.active, c.inconsistentSlave, c.force, c.elapsed);
    } else {
      var _ := m.CheckOpenCheckpoint(c.force, c.elapsed);
    }
  }

  method PerformIds(m: CheckpointManager, c: Call) returns (ghost es: seq<Event>)
    requires m.Valid() && m.View().chks != [] && Allowed(m.View(), c) && (c.CloseCall? || c.SetIdCall?)
    modifies m
    ensures Kept(m, es)
    ensures EventsHere(m, c, es)
  {
    hide WF, Consistent, Abstract, Exact, CloseOpen, Rename, Full, Write, CanRename;
    ValidQueue(m);
    es := EventsOf(m.View(), c, LimitsOf(m));
    if c.CloseCall? {
      var _ := m.CloseOpenCheckpoint(c.id);
    } else {
      m.SetOpenCheckpointId(c.id);
    }
  }

  method PerformRead(m: CheckpointManager, c: Call) returns (out: seq<Item>, ghost es: seq<Event>)
    requires m.Valid() && m.View().chks != [] && Allowed(m.View(), c)
             && (c.PersistenceCall? || c.NextItemCall? || c.TapItemsCall?)
    modifies m
    ensures Kept(m, es)
    ensures EventsHere(m, c, es)
    ensures WF(old(m.View())) && out == ReadBy(old(m.View()), es[0])
  {
    hide WF, Consistent, Abstract, Exact, Draw, Drawn, UnifiedQueue.NextItem, ReadAll, SentBy, Handed, Ahead;
    ValidQueue(m);
    ghost var q := m.View();
    if c.PersistenceCall? {
      es := [Persist];
      var id;
      out, id := m.GetAllItemsForPersistence();
    } else if c.NextItemCall? {
      es := [TapNext(c.name)];
      var item, isLast := m.NextItem(c.name);
      out := if item.op == OpEmpty then [] else [item];
      HandedSent(q, m.View(), c.name, item, isLast);
    } else {
      es := [TapAll(c.name)];
      var id;
      out, id := m.GetAllItemsForTapConnection(c.name);
    }
  }

  /** The empty item means that nothing was handed out: no item in a list is empty but the dummy. */
  lemma HandedSent(q: Queue, q': Queue, n: string, item: Item, isLast: bool)
    requires WF(q) && (n !in q.taps ==> item == Dummy)
    requires n in q.taps ==> Handed(q, q', n, item, isLast)
    ensures n in q.taps ==>
            SentBy(q, n) == (if item.op == OpEmpty then [] else [item]) && q' == UnifiedQueue.NextItem(q, n)
    ensures n !in q.taps ==> item.op == OpEmpty
  {
    if n in q.taps {
      StepNotEmpty(q, q.taps[n]);
    }
    hide ListOk;
  }

  /** The cursor was handed `out`, the first `k` items due to it, or all of them; the rest is still due. */
  ghost predicate ServedMany(q: Queue, q': Queue, n: string, out: seq<Item>, k: nat) {
    && n in q.taps && PosOk(q.chks, q.taps[n].pos) && n in q'.taps && PosOk(q.chks, q'.taps[n].pos)
    && q' == q.(taps := q.taps[n := q.taps[n].(pos := q'.taps[n].pos)])
    && var due := Due(q.chks, q.taps[n]);
       out == Head(due, k) && Due(q.chks, q'.taps[n]) == due[|out|..]
  }

  /** `k` calls of `nextItem` in a row, outside backfill, hand out the items due to the cursor until none is left. */
  method NextItems(m: CheckpointManager, name: string, k: nat) returns (out: seq<Item>)
    requires m.Valid()
    modifies m
    ensures m.Valid() && WF(old(m.View())) && WF(m.View())
    ensures name in old(m.View()).taps && Last(old(m.View()).chks).id != 0 ==>
              ServedMany(old(m.View()), m.View(), name, out, k)
  {
    hide WF, Consistent, Abstract, Exact, Handed, Served, ServedMany;
    ValidQueue(m);
    TapPre(m.Now(), name);
    RemovePre(m.Now());
    ghost var q := m.View();
    out := [];
    if name !in m.tapCursors || m.checkpointList[|m.checkpointList| - 1].id == 0 {
      return;
    }
    ServedNone(q, name);
    var i := 0;
    while i < k
      invariant i <= k && m.Valid() && WF(m.View()) && ServedMany(q, m.View(), name, out, i)
    {
      ghost var q1 := m.View();
      ServedShape(q, q1, name, out, i);
      var item, isLast := m.NextItem(name);
      ServedNext(q, q1, m.View(), name, item, out, i);
      if item.op != OpEmpty {
        out := out + [item];
      }
      i := i + 1;
      ValidQueue(m);
    }
  }

  lemma ServedNone(q: Queue, n: string)
    requires WF(q) && n in q.taps
    ensures ServedMany(q, q, n, [], 0)
  {
    hide WF, Due;
    TapIn(q, n);
    assert q.taps[n := q.taps[n]] == q.taps;
  }

  lemma ServedShape(q: Queue, q1: Queue, n: string, out: seq<Item>, i: nat)
    requires ServedMany(q, q1, n, out, i)
    ensures q1.chks == q.chks && n in q1.taps
  {
  }

  lemma ServedNext(q: Queue, q1: Queue, q2: Queue, n: string, item: Item, out: seq<Item>, i: nat)
    requires q.chks != [] && Last(q.chks).id != 0 && ServedMany(q, q1, n, out, i) && Served(q1, q2, n, item)
    ensures ServedMany(q, q2, n, if item.op != OpEmpty then out + [item] else out, i + 1)
  {
    hide Due;
    var due := Due(q.chks, q.taps[n]);
    assert q1.taps[n := q1.taps[n].(pos := q2.taps[n].pos)] == q.taps[n := q.taps[n].(pos := q2.taps[n].pos)];
    assert due[|out|..] != [] ==> due[|out|..][1..] == due[|out| + 1..];
  }

  method PerformCursor(m: CheckpointManager, c: Call) returns (ghost es: seq<Event>)
    requires m.Valid() && m.View().chks != [] && Allowed(m.View(), c)
             && (c.BackOffCall? || c.RegisterCall? || c.RemoveCall?)
    modifies m
    ensures Kept(m, es)
    ensures EventsHere(m, c, es)
  {
    hide WF, Consistent, Abstract, Exact, HasId, BackOff, Register, Unregister;
    ValidQueue(m);
    if c.BackOffCall? {
      es := [TapBackOff(c.name)];
      m.DecrTapCursorFromCheckpointEnd(c.name);
    } else if c.RegisterCall? {
      es := [TapRegister(c.name, c.id, c.closedOnly, c.fromBeginning)];
      var _ := m.RegisterTapCursor(c.name, c.id, c.closedOnly, c.fromBeginning);
    } else {
      es := [TapRemove(c.name)];
      var _ := m.RemoveTapCursor(c.name);
    }
  }

  method PerformReset(m: CheckpointManager, c: Call) returns (ghost es: seq<Event>)
    requires m.Valid() && m.View().chks != [] && Allowed(m.View(), c)
    requires c.CheckpointStartCall? || c.ClearCall? || c.StartOnlineCall? || c.StopOnlineCall?
    modifies m
    ensures Kept(m, es)
    ensures EventsHere(m, c, es)
  {
    hide WF, Consistent, Abstract, Exact, CheckAndAdd, UnifiedQueue.Clear, StartOnline, StopOnline, RollsBack;
    ValidQueue(m);
    if c.CheckpointStartCall? {
      es := [CheckpointStart(c.id)];
      var _, _ := m.CheckAndAddNewCheckpoint(c.id);
    } else if c.ClearCall? {
      es := [ClearAll(c.active)];
      m.Clear(c.active);
    } else if c.StartOnlineCall? {
      es := [OnlineStartEvent];
      var _ := m.StartOnlineUpdate();
    } else {
      es := [OnlineStopEvent];
      var _ := m.StopOnlineUpdate();
    }
  }

  /** One call, and the traffic with what it accepted or handed out. */
  method Perform(m: CheckpointManager, c: Call, t: Traffic) returns (t': Traffic, ghost es: seq<Event>)
    requires m.Valid() && m.View().chks != [] && Allowed(m.View(), c)
    modifies m
    ensures Kept(m, es)
    ensures EventsHere(m, c, es)
    ensures WF(old(m.View())) && t' == if es == [] then t else Recorded(t, old(m.View()), es[0])
    ensures !OpensAnyway(c) ==>
              |m.checkpointList| <= |old(m.checkpointList)| || |m.checkpointList| <= m.maxCheckpoints
  {
    hide WF, Matches, Exact, Consistent, ReadBy, Counted, EventsOf, Allowed, Abstract;
    ValidQueue(m);
    ghost var q := m.View();
    t' := t;
    if c.PersistenceCall? || c.NextItemCall? || c.TapItemsCall? {
      var out;
      out, es := PerformRead(m, c);
      t' := if c.PersistenceCall? then t.(persisted := t.persisted + out) else t.(sent := Sent(t.sent, c.name, out));
    } else if c.BackOffCall? || c.RegisterCall? || c.RemoveCall? {
      es := PerformCursor(m, c);
      if c.RegisterCall? {
        t' := t.(sent := t.sent[c.name := []]);
      } else if c.RemoveCall? {
        t' := t.(sent := t.sent - {c.name});
      }
    } else if c.CheckpointStartCall? || c.ClearCall? || c.StartOnlineCall? || c.StopOnlineCall? {
      es := PerformReset(m, c);
    } else if c.QueueDirtyCall? {
      if c.active || m.checkpointList[|m.checkpointList| - 1].state.Opened? {
        t' := t.(written := t.written + [c.x]);
      }
      es := PerformWrite(m, c);
    } else if c.TrimCall? || c.CheckOpenCall? {
      es := PerformTurnover(m, c);
    } else {
      es := PerformIds(m, c);
    }
    EventShape(q, c, LimitsOf(m));
    ValidQueue(m);
    LimitKept(q, m.View(), c, LimitsOf(m), es);
  }

  /** What the event of a call looks like, as far as the traffic is concerned. */
  lemma EventShape(q: Queue, c: Call, lim: Limits)
    requires q.chks != []
    ensures var es := EventsOf(q, c, lim);
            es != [] ==>
              && (es[0].Put? <==> c.QueueDirtyCall?) && (es[0].Put? ==> es[0].x == c.x && es[0].active == c.active)
              && (es[0].Persist? <==> c.PersistenceCall?)
              && (es[0].TapNext? <==> c.NextItemCall?) && (es[0].TapAll? <==> c.TapItemsCall?)
              && (es[0].TapRegister? <==> c.RegisterCall?) && (es[0].TapRemove? <==> c.RemoveCall?)
              && (c.NextItemCall? || c.TapItemsCall? || c.RegisterCall? || c.RemoveCall? ==> es[0].name == c.name)
  {
    hide Full, Write;
  }

  lemma LimitKept(q: Queue, q': Queue, c: Call, lim: Limits, es: seq<Event>)
    requires q.chks != [] && Allowed(q, c) && es == EventsOf(q, c, lim) && Matches(q, q', es)
    ensures !OpensAnyway(c) ==> |q'.chks| <= |q.chks| || |q'.chks| <= lim.maxCheckpoints
  {
    hide WF, Enabled, Apply, EventsOf, Allowed;
    if !OpensAnyway(c) {
      WithinLimit(q, c, lim);
    }
  }

  /** Writes, reads, removals and whatever else does not open a checkpoint outright stay within the limit. */
  method MakeCalls(m: CheckpointManager, calls: seq<Call>)
    requires m.Valid() && forall i :: 0 <= i < |calls| ==> !OpensAnyway(calls[i])
    modifies m
    ensures m.Valid()
    ensures |m.checkpointList| <= |old(m.checkpointList)| || |m.checkpointList| <= m.maxCheckpoints
  {
    hide WF, Matches, Exact, Consistent, Counted, EventsOf, Recorded;
    var i := 0;
    while i < |calls|
      invariant 0 <= i <= |calls| && m.Valid()
      invariant |m.checkpointList| <= |old(m.checkpointList)| || |m.checkpointList| <= m.maxCheckpoints
    {
      ValidQueue(m);
      if Allowed(m.View(), calls[i]) {
        var t, es := Perform(m, calls[i], Traffic([], [], map[]));
      }
      i := i + 1;
    }
  }

  // ---------------------------------------------------------------- runs grow at the end

  lemma {:induction false} RunMore(h: History, es: seq<Event>, e: Event)
    requires WF(h.q) && IsRun(h, es) && WF(Exec(h, es).q) && Enabled(Exec(h, es).q, e)
    ensures IsRun(h, es + [e]) && Exec(h, es + [e]) == Next(Exec(h, es), e)
    ensures Lossless(h, es + [e]) <==> Lossless(h, es) && !Discards(Exec(h, es).q, e)
    ensures Countable(h, es + [e]) <==> Countable(h, es) && Counted(Exec(h, es).q, e)
    decreases |es|
  {
    hide WF, Next, Enabled, Discards, Apply, Counted;
    if es == [] {
      assert ([e])[1..] == [];
      RunOne(h, e);
    } else {
      assert (es + [e])[1..] == es[1..] + [e];
      NextOk(h, es[0]);
      RunMore(Next(h, es[0]), es[1..], e);
    }
  }

  lemma RunOne(h: History, e: Event)
    requires WF(h.q) && Enabled(h.q, e)
    ensures IsRun(h, [e]) && Exec(h, [e]) == Next(h, e)
    ensures (Lossless(h, [e]) <==> !Discards(h.q, e)) && (Countable(h, [e]) <==> Counted(h.q, e))
  {
    hide WF, Enabled, Discards, Counted, Next;
    NextOk(h, e);
    assert [e][1..] == [];
  }

  /** A run in which the counters stay exact. */
  ghost predicate Countable(h: History, es: seq<Event>)
    requires WF(h.q) && IsRun(h, es)
    decreases |es|
  {
    es == [] || (Counted(h.q, es[0]) && (NextOk(h, es[0]); Countable(Next(h, es[0]), es[1..])))
  }

  // ---------------------------------------------------------------- the traffic is what the history logs

  predicate SameEffect(a: seq<Item>, b: seq<Item>) {
    |a| == |b| && forall i :: 0 <= i < |a| ==>
      a[i].op == b[i].op && a[i].key == b[i].key && a[i].value == b[i].value && a[i].cas == b[i].cas
  }

  lemma {:induction false} SameReplay(store: Store, a: seq<Item>, b: seq<Item>)
    requires SameEffect(a, b)
    ensures Replay(store, a) == Replay(store, b)
  {
    if a != [] {
      SameReplay(store, a[..|a| - 1], b[..|b| - 1]);
    }
  }

  predicate Sends(sent: map<string, seq<Item>>, logs: map<string, TapLog>) {
    sent.Keys == logs.Keys && forall n :: n in sent ==> sent[n] == logs[n].sent
  }

  /** The traffic is what the history logs, up to the queueing time that a stored item inherits. */
  predicate Logs(t: Traffic, h: History) {
    t.persisted == h.drawn && SameEffect(t.written, h.accepted) && Sends(t.sent, h.logs)
  }

  lemma LogsEvent(h: History, e: Event, t: Traffic)
    requires WF(h.q) && Enabled(h.q, e) && !Discards(h.q, e) && Concerns(e) && Logs(t, h)
    ensures Logs(Recorded(t, h.q, e), Next(h, e))
  {
    hide ListOk, Apply, Next, ClosedBy, RenameLog, Opens;
    NextConcerns(h, e);
    forall n | n in h.logs ensures Next(h, e).logs[n].sent == h.logs[n].sent {
      LogFlags(h.logs[n], h.q, e);
    }
  }

  lemma LogsPersist(h: History, t: Traffic)
    requires WF(h.q) && Logs(t, h)
    ensures Logs(Recorded(t, h.q, Persist), Next(h, Persist))
  {
    hide ListOk, Drawn, DrawTo;
    ApplyWF(h.q, Persist);
  }

  lemma LogsRead(h: History, e: Event, t: Traffic)
    requires WF(h.q) && Logs(t, h) && h.logs.Keys == h.q.taps.Keys
    requires e.TapNext? || e.TapAll? || e.TapBackOff? || e.TapRegister? || e.TapRemove?
    ensures Logs(Recorded(t, h.q, e), Next(h, e))
  {
    hide ListOk, Ahead, SentBy, ClosedAhead, Apply;
    ApplyWF(h.q, e);
  }

  lemma LogsNext(h: History, e: Event, t: Traffic)
    requires LastWriterWins(h) && Enabled(h.q, e) && !Discards(h.q, e) && Logs(t, h)
    ensures Logs(Recorded(t, h.q, e), Next(h, e))
  {
    hide ListOk, Next, Logs, Recorded, TapCaught, PersistenceCaught;
    if Concerns(e) {
      LogsEvent(h, e, t);
    } else if e.Persist? {
      LogsPersist(h, t);
    } else {
      LogsRead(h, e, t);
    }
  }

  // ---------------------------------------------------------------- the manager through a whole run

  /** What a run of calls has to agree with: the history of its events. */
  ghost predicate Agrees(id: nat, es: seq<Event>, q: Queue, t: Traffic) {
    && WF(Init(id).q) && IsRun(Init(id), es)
    && var h := Exec(Init(id), es);
       LastWriterWins(h) && h.q == q && (Lossless(Init(id), es) ==> Logs(t, h))
  }

  lemma AgreesStep(id: nat, es: seq<Event>, q: Queue, t: Traffic, e: Event)
    requires Agrees(id, es, q, t) && WF(q) && Enabled(q, e)
    ensures Agrees(id, es + [e], Apply(q, e), Recorded(t, q, e))
    ensures WF(Init(id).q) && IsRun(Init(id), es) && IsRun(Init(id), es + [e])
    ensures Countable(Init(id), es + [e]) <==> Countable(Init(id), es) && Counted(q, e)
  {
    hide ListOk, Next, Enabled, Discards, Apply, Counted, IsRun, Exec, Lossless, Init, Logs, Recorded, Countable;
    hide TapCaught, PersistenceCaught;
    var h := Exec(Init(id), es);
    RunMore(Init(id), es, e);
    NextOk(h, e);
    LastWriterWinsNext(h, e);
    if !Discards(q, e) && Lossless(Init(id), es) {
      LogsNext(h, e, t);
    }
  }

  lemma AgreesInit(id: nat)
    ensures Agrees(id, [], Queue([NewChk(id)], Pos(0, 0), map[], None), Traffic([], [], map[]))
    ensures WF(Init(id).q) && IsRun(Init(id), []) && Countable(Init(id), [])
  {
    InitSound(id);
    hide TapCaught, PersistenceCaught, Ahead;
  }

  /** Replaying either on any store gives the same store. */
  ghost predicate SameReplays(a: seq<Item>, b: seq<Item>) {
    forall store :: Replay(store, a) == Replay(store, b)
  }

  /** Replaying what persistence was handed, and what lies ahead of it, is replaying what was written. */
  ghost predicate PersistenceServed(q: Queue, t: Traffic)
    requires WF(q)
  {
    SameReplays(t.persisted + Ahead(q.chks, q.persist), t.written)
  }

  /**
   Replaying what the cursor was sent, and what lies ahead, is replaying what lay ahead of it and what was written
   since.
   */
  ghost predicate TapServed(q: Queue, t: Traffic, n: string, l: TapLog)
    requires WF(q) && n in q.taps
  {
    && n in t.sent && l.since <= |t.written|
    && SameReplays(t.sent[n] + Ahead(q.chks, q.taps[n].pos), l.base + t.written[l.since..])
    && (l.strict ==> t.sent[n] + ClosedAhead(q.chks, q.taps[n].pos) == l.closed)
  }

  lemma PersistenceServedRun(id: nat, es: seq<Event>, q: Queue, t: Traffic)
    requires Agrees(id, es, q, t) && WF(q) && Lossless(Init(id), es)
    ensures PersistenceServed(q, t)
  {
    hide ListOk, IsRun, Lossless, Init, Exec, Ahead, Replay, SameEffect, LastWriterWins;
    forall store: Store ensures Replay(store, t.persisted + Ahead(q.chks, q.persist)) == Replay(store, t.written) {
      PersistenceDelivery(id, es, store);
      SameReplay(store, t.written, Exec(Init(id), es).accepted);
    }
  }

  lemma TapServedRun(id: nat, es: seq<Event>, q: Queue, t: Traffic, n: string)
    requires Agrees(id, es, q, t) && WF(q) && Lossless(Init(id), es) && n in q.taps
    ensures n in Exec(Init(id), es).logs && TapServed(q, t, n, Exec(Init(id), es).logs[n])
  {
    hide ListOk, IsRun, Lossless, Init, Exec, Ahead, Replay, LastWriterWins, ClosedAhead;
    var h := Exec(Init(id), es);
    TapDelivery(id, es, n, map[]);
    var l := h.logs[n];
    forall store: Store
      ensures Replay(store, t.sent[n] + Ahead(q.chks, q.taps[n].pos)) == Replay(store, l.base + t.written[l.since..])
    {
      TapDelivery(id, es, n, store);
      SameReplay(store, l.base + t.written[l.since..], l.base + h.accepted[l.since..]);
    }
    if l.strict {
      ClosedOnlyDelivery(id, es, n);
    }
  }

  // ---------------------------------------------------------------- calls and their events

  function Cat<T>(ess: seq<seq<T>>): seq<T> {
    if ess == [] then [] else Cat(ess[..|ess| - 1]) + ess[|ess| - 1]
  }

  /** After the events `before`, call `c` stands for `es`, or is ruled out and stands for nothing. */
  ghost predicate CallAt(id: nat, lim: Limits, c: Call, before: seq<Event>, es: seq<Event>) {
    && WF(Init(id).q) && IsRun(Init(id), before) && WF(Exec(Init(id), before).q)
    && var q := Exec(Init(id), before).q;
       es == if Allowed(q, c) then EventsOf(q, c, lim) else []
  }

  /** Every call that its callers do not rule out, and no other, contributes its event, in order. */
  ghost predicate Follows(id: nat, lim: Limits, calls: seq<Call>, ess: seq<seq<Event>>) {
    |ess| == |calls| && forall i :: 0 <= i < |calls| ==> CallAt(id, lim, calls[i], Cat(ess[..i]), ess[i])
  }

  lemma FollowsMore(id: nat, lim: Limits, calls: seq<Call>, ess: seq<seq<Event>>, n: nat, es: seq<Event>)
    requires n < |calls| && Follows(id, lim, calls[..n], ess) && CallAt(id, lim, calls[n], Cat(ess), es)
    ensures Follows(id, lim, calls[..n + 1], ess + [es]) && Cat(ess + [es]) == Cat(ess) + es
  {
    hide CallAt, Cat;
    var ess', calls' := ess + [es], calls[..n + 1];
    forall i | 0 <= i < |calls'| ensures CallAt(id, lim, calls'[i], Cat(ess'[..i]), ess'[i]) {
      if i < n {
        assert calls[..n][i] == calls'[i] && ess'[..i] == ess[..i];
      } else {
        assert ess'[..n] == ess;
      }
    }
    CatMore(ess, es);
  }

  lemma CatMore<T>(ess: seq<seq<T>>, es: seq<T>)
    ensures Cat(ess + [es]) == Cat(ess) + es
  {
    assert (ess + [es])[..|ess|] == ess;
  }

  /**
   Calls on a new manager. The events `ess` are those the calls stand for, in order, but for calls that its callers
   rule out. The manager ends in the state that this run leads to, and its counters are exact if every event counts.
   If nothing was discarded, the items it really handed to persistence and to each TAP cursor, with what lies ahead,
   amount to the mutations it really accepted; and a closed-only cursor was sent the final contents of successive
   closed checkpoints.
   */
  method RunManager(id: nat, maxItems: nat, maxChk: nat, calls: seq<Call>)
    returns (m: CheckpointManager, t: Traffic, ghost ess: seq<seq<Event>>)
    ensures LimitsOf(m) == Limits(maxItems, maxChk) && Follows(id, LimitsOf(m), calls, ess)
    ensures (forall c :: c in calls ==> !OpensAnyway(c)) ==> |m.checkpointList| <= 1 || |m.checkpointList| <= maxChk
    ensures m.Valid() && WF(m.View()) && Agrees(id, Cat(ess), m.View(), t)
    ensures Countable(Init(id), Cat(ess)) ==> m.CountersExact()
    ensures Lossless(Init(id), Cat(ess)) ==> PersistenceServed(m.View(), t)
    ensures Lossless(Init(id), Cat(ess)) ==> forall n :: n in m.View().taps ==>
              n in Exec(Init(id), Cat(ess)).logs && TapServed(m.View(), t, n, Exec(Init(id), Cat(ess)).logs[n])
  {
    hide WF, Agrees, Countable, Exact, Consistent, Init, IsRun, Lossless, Exec, Abstract, Apply, Counted, Recorded;
    hide PersistenceServed, TapServed, Follows, CallAt, EventsOf;
    m := NewManager(id, maxItems, maxChk);
    t, ess := Traffic([], [], map[]), [];
    AgreesInit(id);
    ghost var lim := LimitsOf(m);
    var i := 0;
    FollowsNone(id, lim, calls);
    while i < |calls|
      invariant 0 <= i <= |calls| && fresh(m) && Follows(id, lim, calls[..i], ess)
      invariant m.Valid() && Agrees(id, Cat(ess), m.View(), t)
      invariant (forall j :: 0 <= j < i ==> !OpensAnyway(calls[j])) ==>
                  |m.checkpointList| <= 1 || |m.checkpointList| <= maxChk
      invariant WF(Init(id).q) && IsRun(Init(id), Cat(ess)) && (Countable(Init(id), Cat(ess)) ==> m.CountersExact())
    {
      ghost var q := m.View();
      ValidQueue(m);
      ghost var e: seq<Event> := [];
      ghost var before := t;
      var allowed := Allowed(m.View(), calls[i]);
      if allowed {
        t, e := Perform(m, calls[i], t);
      }
      CallHere(id, lim, calls[i], Cat(ess), q, before, e);
      FollowsMore(id, lim, calls, ess, i, e);
      if e != [] {
        AgreesStep(id, Cat(ess), q, before, e[0]);
        assert e == [e[0]];
      } else {
        assert Cat(ess) + e == Cat(ess);
      }
      ess := ess + [e];
      i := i + 1;
    }
    assert calls[..|calls|] == calls;
    ValidQueue(m);
    ghost var es := Cat(ess);
    if Lossless(Init(id), es) {
      PersistenceServedRun(id, es, m.View(), t);
      forall n | n in m.View().taps
        ensures n in Exec(Init(id), es).logs && TapServed(m.View(), t, n, Exec(Init(id), es).logs[n])
      {
        TapServedRun(id, es, m.View(), t, n);
      }
    }
  }

  method NewManager(id: nat, maxItems: nat, maxChk: nat) returns (m: CheckpointManager)
    ensures fresh(m) && m.Valid() && m.CountersExact() && LimitsOf(m) == Limits(maxItems, maxChk)
    ensures m.View() == Queue([NewChk(id)], Pos(0, 0), map[], None) && |m.checkpointList| == 1
  {
    hide Consistent, Exact;
    m := new CheckpointManager(id, maxItems, maxChk);
    ValidQueue(m);
  }

  lemma FollowsNone(id: nat, lim: Limits, calls: seq<Call>)
    ensures Follows(id, lim, calls[..0], []) && Cat<Event>([]) == []
  {
  }

  lemma CallHere(id: nat, lim: Limits, c: Call, before: seq<Event>, q: Queue, t: Traffic, es: seq<Event>)
    requires Agrees(id, before, q, t) && WF(q) && es == if Allowed(q, c) then EventsOf(q, c, lim) else []
    ensures CallAt(id, lim, c, before, es)
  {
    hide ListOk, Init, IsRun, Exec, Lossless, EventsOf, Allowed, Logs, TapCaught, PersistenceCaught;
  }

  /** The case that does not count: an unknown id is registered behind a closed last checkpoint. */
  method UncountedRegistration(maxItems: nat, maxChk: nat, name: string) returns (m: CheckpointManager)
    ensures m.Valid() && !m.CountersExact() && !m.doOnlineUpdate
  {
    m := new CheckpointManager(1, maxItems, maxChk);
    hide Consistent, Exact;
    assert Last(m.View().chks) == NewChk(1);
    var _ := m.CloseOpenCheckpoint(1);
    assert m.View().chks == [Close(NewChk(1))];
    var _ := m.RegisterTapCursor(name, 7, false, true);
  }
}
