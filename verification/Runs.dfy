/**
 Whole runs of a unified queue: any interleaving of writers, the persistence reader, TAP readers, the
 checkpoint remover, checkpoint turnover and online update, with logs of what was accepted and read.
 */
module Runs {
  import opened Items
  import opened UnifiedQueue

  datatype Event =
    | Put(x: Item, active: bool, roll: bool)
    | Persist
    | TapNext(name: string)
    | TapAll(name: string)
    | TapBackOff(name: string)
    | TapRegister(name: string, id: nat, closedOnly: bool, fromBeginning: bool)
    | TapRemove(name: string)
    | RemoveClosed(create: bool)
    | Roll
    | CloseId(id: nat)
    | CheckpointStart(id: nat)
    | SetId(id: nat)
    | OnlineStartEvent
    | OnlineStopEvent
    | ClearAll(active: bool)

  /**
   What is remembered of a TAP cursor since it was last registered: what it was sent, what lay ahead of
   it then and how many mutations had been accepted by then. `strict` says that it was registered as
   closed-only at the start of a checkpoint and has been read by `nextItem` alone; `closed` is what lay
   ahead in closed checkpoints then, plus the final contents of every checkpoint closed since.
   */
  datatype TapLog = TapLog(sent: seq<Item>, base: seq<Item>, since: nat, strict: bool, closed: seq<Item>)

  /**
   `accepted` with `acceptedIn`: the stored mutations, but for those that a clear or rollback discarded, and the
   ids of their checkpoints; `starts`: for each checkpoint of the list, how many mutations had been accepted
   before its first. `drawn`: what persistence was handed since the last clear or rollback; `base` and `since`:
   what lay ahead of it then, and how many mutations were kept. `drawnUpTo`: how many mutations are covered by
   what persistence was handed. `held` and `heldAt`: what persistence may be handed during online update, and how
   many mutations had been accepted at its start.
   */
  datatype History = History(
    q: Queue, accepted: seq<Item>, acceptedIn: seq<nat>, starts: seq<nat>, drawn: seq<Item>, base: seq<Item>,
    since: nat, drawnUpTo: nat, held: seq<Item>, heldAt: nat, logs: map<string, TapLog>)

  /** The closed checkpoints: all, or all but the open last one. */
  function ClosedPart(chks: seq<Chk>): seq<Chk> {
    if chks != [] && Last(chks).open then chks[..|chks| - 1] else chks
  }

  function ClosedAhead(chks: seq<Chk>, p: Pos): seq<Item>
    requires PosOk(chks, p)
  {
    if p.chk < |ClosedPart(chks)| then Ahead(ClosedPart(chks), p) else []
  }

  function NewLog(q: Queue, n: string, since: nat, strict: bool): TapLog
    requires n in q.taps && PosOk(q.chks, q.taps[n].pos)
  {
    TapLog([], Ahead(q.chks, q.taps[n].pos), since, strict, ClosedAhead(q.chks, q.taps[n].pos))
  }

  /** A new manager: one open checkpoint, the persistence cursor at its start. */
  function Init(id: nat): History {
    var q := Queue([NewChk(id)], Pos(0, 0), map[], None);
    History(q, [], [], [0], [], Ahead(q.chks, q.persist), 0, 0, [], 0, map[])
  }

  /** The id that an event gives to the last checkpoint, if it gives one. */
  function NewId(q: Queue, e: Event): Option<nat>
    requires q.chks != []
  {
    match e
    case SetId(id) => Some(id)
    case CheckpointStart(id) => if id != 0 && Last(q.chks).id == 0 then Some(id) else None
    case _ => None
  }

  /** What the callers of each operation guarantee. */
  predicate Enabled(q: Queue, e: Event)
    requires WF(q)
  {
    match e
    case Put(x, active, _) => IsMutation(x) && (active ==> Last(q.chks).open)
    case CheckpointStart(id) => q.barrier.None? || !RollsBack(q, id)
    case SetId(id) => CanRename(q, id)
    case OnlineStopEvent => q.barrier.Some? ==> Last(q.chks).open
    case ClearAll(_) => q.barrier.None?
    case _ => true
  }

  /** Events that discard queued items. */
  predicate Discards(q: Queue, e: Event)
    requires WF(q)
  {
    match e
    case CheckpointStart(id) => RollsBack(q, id)
    case ClearAll(_) => true
    case _ => false
  }

  function Apply(q: Queue, e: Event): Queue
    requires WF(q)
  {
    match e
    case Put(x, active, roll) => QueueDirty(q, x, active, roll)
    case Persist => Draw(q)
    case TapNext(n) => if n in q.taps then NextItem(q, n) else q
    case TapAll(n) => if n in q.taps then ReadAll(q, n) else q
    case TapBackOff(n) => if n in q.taps then BackOff(q, n) else q
    case TapRegister(n, id, closedOnly, fromBeginning) => Register(q, n, id, closedOnly, fromBeginning)
    case TapRemove(n) => Unregister(q, n)
    case RemoveClosed(create) => Trim(q, create)
    case Roll => Rollover(q)
    case CloseId(id) => CloseOpen(q, id)
    case CheckpointStart(id) => CheckAndAdd(q, id)
    case SetId(id) => Rename(q, id)
    case OnlineStartEvent => StartOnline(q)
    case OnlineStopEvent => StopOnline(q)
    case ClearAll(active) => Clear(q, active)
  }

  lemma ApplyWF(q: Queue, e: Event)
    requires WF(q) && Enabled(q, e)
    ensures WF(Apply(q, e))
  {
    hide WF, KeepBelow;
    match e {
      case Put(x, active, roll) => QueueDirtyWF(q, x, active, roll);
      case Persist => DrawWF(q);
      case TapNext(n) => if n in q.taps { NextWF(q, n); }
      case TapAll(n) => if n in q.taps { ReadAllWF(q, n); }
      case TapBackOff(n) => if n in q.taps { BackOffWF(q, n); }
      case TapRegister(n, id, closedOnly, fromBeginning) => RegisterWF(q, n, id, closedOnly, fromBeginning);
      case TapRemove(n) => RemoveWF(q, n);
      case RemoveClosed(create) => TrimWF(q, create);
      case Roll => RolloverWF(q);
      case CloseId(id) => CloseOpenWF(q, id);
      case CheckpointStart(id) => CheckAndAddWF(q, id);
      case SetId(id) => RenameWF(q, id);
      case OnlineStartEvent => StartOnlineWF(q);
      case OnlineStopEvent => StopOnlineWF(q);
      case ClearAll(active) => ClearWF(q, active);
    }
  }

  lemma DrawWF(q: Queue)
    requires WF(q)
    ensures WF(Draw(q))
  {
    assert forall i :: 0 <= i < |q.chks| ==> 2 <= |q.chks[i].items|;
    hide ListOk;
  }

  lemma NextWF(q: Queue, n: string)
    requires WF(q) && n in q.taps
    ensures WF(NextItem(q, n))
  {
    assert forall i :: 0 <= i < |q.chks| ==> 2 <= |q.chks[i].items|;
    hide ListOk;
  }

  lemma ReadAllWF(q: Queue, n: string)
    requires WF(q) && n in q.taps
    ensures WF(ReadAll(q, n))
  {
    hide ListOk;
    assert PosOk(q.chks, EndPos(q.chks)) by { LastItems(q); }
  }

  lemma LastItems(q: Queue)
    requires WF(q)
    ensures 2 <= |Last(q.chks).items|
  {
  }

  lemma BackOffWF(q: Queue, n: string)
    requires WF(q) && n in q.taps
    ensures WF(BackOff(q, n))
  {
    hide ListOk;
  }

  lemma RemoveWF(q: Queue, n: string)
    requires WF(q)
    ensures WF(Unregister(q, n))
  {
    hide ListOk;
  }

  lemma ClearWF(q: Queue, active: bool)
    requires WF(q) && q.barrier.None?
    ensures WF(Clear(q, active))
  {
    hide ChkOk;
    NewOk(if active then 1 else 0);
  }

  lemma RegisterWF(q: Queue, n: string, id: nat, closedOnly: bool, fromBeginning: bool)
    requires WF(q)
    ensures WF(Register(q, n, id, closedOnly, fromBeginning))
  {
    assert forall i :: 0 <= i < |q.chks| ==> PosOk(q.chks, Pos(i, 0));
    hide ListOk;
  }

  /** The final contents of the checkpoint that the event closes, if it closes one. */
  function ClosedBy(q: Queue, e: Event): seq<Item>
    requires WF(q)
  {
    match e
    case Put(x, active, roll) =>
      if Accepts(q, active) && roll then Closing(Last(Write(q, x).chks)) else []
    case RemoveClosed(create) => if create then Closing(Last(q.chks)) else []
    case Roll => Closing(Last(q.chks))
    case CloseId(id) => if id == Last(q.chks).id then Closing(Last(q.chks)) else []
    case CheckpointStart(id) =>
      if id != 0 && Last(q.chks).id != 0 && !RollsBack(q, id) then Closing(Last(q.chks)) else []
    case OnlineStartEvent => if q.barrier.None? then Closing(Last(q.chks)) else []
    case OnlineStopEvent => if q.barrier.Some? then Closing(Last(AppendLast(q, OnlineEnd).chks)) else []
    case _ => []
  }

  function Closing(c: Chk): seq<Item> {
    if c.open then Body(Close(c)) else []
  }

  /** Does the event open a new last checkpoint? */
  predicate Opens(q: Queue, e: Event)
    requires q.chks != []
  {
    match e
    case Put(_, active, roll) => Accepts(q, active) && roll
    case RemoveClosed(create) => create
    case Roll => true
    case CheckpointStart(id) => id != 0 && Last(q.chks).id != 0
    case OnlineStartEvent => q.barrier.None?
    case OnlineStopEvent => q.barrier.Some?
    case _ => false
  }

  /** The ids of the checkpoints that mutations are in, once the last one has been given a new id. */
  function Retag(ids: seq<nat>, lastFrom: nat, id: nat): (r: seq<nat>)
    ensures |r| == |ids| && forall j :: 0 <= j < |r| ==> r[j] == if j >= lastFrom then id else ids[j]
  {
    seq(|ids|, j requires 0 <= j < |ids| => if j >= lastFrom then id else ids[j])
  }

  /**
   The closed contents a cursor gets, once closed checkpoint `c` at their end has a new start item it was not sent
   yet.
   */
  function RenameLog(l: TapLog, c: Chk, id: nat): TapLog {
    var k := |l.closed| - |Body(c)|;
    if !c.open && |l.sent| <= k < |l.closed| then l.(closed := l.closed[k := StartItem(id)]) else l
  }

  function Renamed(h: History, c: Chk, id: nat): History {
    h.(acceptedIn := Retag(h.acceptedIn, if h.starts == [] then 0 else h.starts[|h.starts| - 1], id),
       logs := map n | n in h.logs :: RenameLog(h.logs[n], c, id))
  }

  function LogClosed(logs: map<string, TapLog>, xs: seq<Item>): map<string, TapLog> {
    map n | n in logs :: logs[n].(closed := logs[n].closed + xs)
  }

  function SentBy(q: Queue, n: string): seq<Item>
    requires WF(q) && n in q.taps
  {
    match Step(q.chks, q.taps[n]).1
    case Some(x) => [x]
    case None => []
  }

  /** The number of checkpoints that a discarding event keeps. */
  function KeptChks(q: Queue, e: Event): nat {
    match e
    case CheckpointStart(id) => KeepBelow(q.chks, id)
    case _ => 0
  }

  /** The number of mutations that a discarding event keeps: none, or those up to the last kept checkpoint. */
  function KeptMutations(h: History, e: Event): nat {
    var k := KeptChks(h.q, e);
    if e.ClearAll? then 0 else if k < |h.starts| then h.starts[k] else |h.accepted|
  }

  /** The history after items were discarded: what is kept stays accepted, and the logs begin anew. */
  function Restart(h: History, e: Event): History
    requires WF(h.q) && WF(Apply(h.q, e))
  {
    var q', k, n := Apply(h.q, e), KeptChks(h.q, e), KeptMutations(h, e);
    History(q', Head(h.accepted, n), Head(h.acceptedIn, n), Head(h.starts, k) + [n], [], Ahead(q'.chks, q'.persist), n,
            if h.q.persist.chk < k then h.drawnUpTo else n, [], 0,
            map m | m in q'.taps :: NewLog(q', m, n, false))
  }

  /** The `n` first elements. */
  function Head<T>(s: seq<T>, n: nat): seq<T> {
    if n <= |s| then s[..n] else s
  }

  /** The `n` last elements. */
  function Tail(s: seq<nat>, n: nat): seq<nat> {
    if n <= |s| then s[|s| - n..] else s
  }

  /** The starts of the checkpoints, in front of which some may have been dropped. */
  function Advanced(h: History, opens: bool, starts: seq<nat>): History {
    h.(starts := Tail(if opens then starts + [|h.accepted|] else starts, |h.q.chks|))
  }

  function Next(h: History, e: Event): History
    requires WF(h.q) && Enabled(h.q, e)
  {
    ApplyWF(h.q, e);
    if Discards(h.q, e) then Restart(h, e) else Advanced(Logged(h, e), Opens(h.q, e), h.starts)
  }

  /** What an event that discards nothing adds to the logs. */
  function Logged(h: History, e: Event): History
    requires WF(h.q) && Enabled(h.q, e) && !Discards(h.q, e) && WF(Apply(h.q, e))
  {
    var q' := Apply(h.q, e);
    var h' := h.(q := q');
    match e
    case Put(x, active, _) =>
      if !Accepts(h.q, active) then h'
      else
        var c := Last(h.q.chks);
        h'.(logs := LogClosed(h.logs, ClosedBy(h.q, e)),
            accepted := h.accepted + [Stored(c.items, x)], acceptedIn := h.acceptedIn + [c.id])
    case Persist =>
      h'.(drawn := h.drawn + Drawn(h.q),
          drawnUpTo := if h.q.barrier.Some? then h.heldAt else |h.accepted|)
    case TapNext(n) =>
      if n in h.q.taps && n in h.logs
      then h'.(logs := h.logs[n := h.logs[n].(sent := h.logs[n].sent + SentBy(h.q, n))]) else h'
    case TapAll(n) =>
      if n in h.q.taps && n in h.logs
      then h'.(logs := h.logs[n := h.logs[n].(sent := h.logs[n].sent + Ahead(h.q.chks, h.q.taps[n].pos),
          strict := false)])
      else h'
    case TapBackOff(n) =>
      if n in h.logs then h'.(logs := h.logs[n := h.logs[n].(strict := false)]) else h'
    case TapRegister(n, id, closedOnly, fromBeginning) =>
      h'.(logs := h.logs[n := NewLog(q', n, |h.accepted|, closedOnly && q'.taps[n].pos.at == 0)])
    case TapRemove(n) => h'.(logs := h.logs - {n})
    case OnlineStartEvent =>
      if h.q.barrier.Some? then h'
      else h'.(held := h.drawn + Held(q'), heldAt := |h.accepted|, logs := LogClosed(h.logs, ClosedBy(h.q, e)))
    case SetId(id) => Renamed(h', Last(h.q.chks), id)
    case CheckpointStart(id) =>
      if NewId(h.q, e).Some? then Renamed(h', Last(h.q.chks), id)
      else h'.(logs := LogClosed(h.logs, ClosedBy(h.q, e)))
    case _ => h'.(logs := LogClosed(h.logs, ClosedBy(h.q, e)))
  }

  /** What persistence may still be handed in front of the barrier. */
  function Held(q: Queue): seq<Item>
    requires WF(q) && q.barrier.Some?
  {
    if q.persist.chk < q.barrier.value then Ahead(q.chks[..q.barrier.value], q.persist) else []
  }

  lemma NextOk(h: History, e: Event)
    requires WF(h.q) && Enabled(h.q, e)
    ensures WF(Next(h, e).q) && Next(h, e).q == Apply(h.q, e)
  {
    hide ListOk, Apply, Closing, Ahead, ClosedAhead, SentBy, Held, Tail, Head;
    ApplyWF(h.q, e);
  }

  /** A run: every event is enabled when it happens. */
  predicate IsRun(h: History, es: seq<Event>)
    requires WF(h.q)
    decreases |es|
  {
    es == [] ||
    (Enabled(h.q, es[0]) && (NextOk(h, es[0]); IsRun(Next(h, es[0]), es[1..])))
  }

  function Exec(h: History, es: seq<Event>): History
    requires WF(h.q) && IsRun(h, es)
    decreases |es|
  {
    if es == [] then h else (NextOk(h, es[0]); Exec(Next(h, es[0]), es[1..]))
  }
}
