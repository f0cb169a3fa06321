/** The flusher's cycle over its write queue and reject queue, as `doFlush` steps through it. */
module FlusherCycle {
  import opened Items
  import opened FlushPipeline
  import opened PublishedIds
  import Runs
  import UnifiedQueue

  /** The result of one `flushOne`: copies pushed to the reject queue, and whether it was written all the same. */
  datatype Outcome = Outcome(copies: nat, wrote: bool)

  datatype Queues = Queues(writing: seq<VItem>, rejects: seq<VItem>, processed: seq<VItem>)

  /** One `flushOne` on the front item. */
  function Flushed(q: Queues, o: Outcome): Queues
    requires q.writing != []
  {
    var v := q.writing[0];
    Queues(q.writing[1..], q.rejects + Copies(v, o.copies),
           if o.wrote || o.copies == 0 then q.processed + [v] else q.processed)
  }

  /** A transaction's worth of `flushOne` calls; it ends early when the queue is empty. */
  function FlushedAll(q: Queues, os: seq<Outcome>): Queues
    decreases |os|
  {
    if os == [] || q.writing == [] then q else FlushedAll(Flushed(q, os[0]), os[1..])
  }

  /** One transaction; if it could not begin, every item is rejected. */
  function SomeFlushed(q: Queues, began: bool, os: seq<Outcome>): Queues {
    if began then FlushedAll(q, os) else Queues([], q.rejects + q.writing, q.processed)
  }

  /** Once the write queue is empty, the rejected items go back to it. */
  function Requeued(q: Queues): Queues {
    if q.writing == [] then Queues(q.rejects, [], q.processed) else q
  }

  ghost predicate Queued(q: Queues, v: VItem) {
    v in q.writing || v in q.rejects
  }

  lemma FlushedKeeps(q: Queues, o: Outcome, v: VItem)
    requires q.writing != []
    ensures Queued(q, v) ==> Queued(Flushed(q, o), v) || v in Flushed(q, o).processed
    ensures Queued(Flushed(q, o), v) ==> Queued(q, v)
    ensures v in q.processed ==> v in Flushed(q, o).processed
    ensures v in Flushed(q, o).processed ==> v in q.processed || Queued(q, v)
  {
    var r := Flushed(q, o);
    HeadFlight(q.writing, q.rejects, o.copies, v.vb, v.x);
    if v == q.writing[0] && (o.wrote || o.copies == 0) {
      assert r.processed[|q.processed|] == v;
    }
  }

  /** Whatever the outcomes: an item leaves the queues only by being processed, and none is made up. */
  lemma {:induction false} CycleLosesNothing(q: Queues, os: seq<Outcome>, v: VItem)
    ensures Queued(q, v) ==> Queued(FlushedAll(q, os), v) || v in FlushedAll(q, os).processed
    ensures Queued(FlushedAll(q, os), v) ==> Queued(q, v)
    ensures v in q.processed ==> v in FlushedAll(q, os).processed
    ensures v in FlushedAll(q, os).processed ==> v in q.processed || Queued(q, v)
    decreases |os|
  {
    if os != [] && q.writing != [] {
      FlushedKeeps(q, os[0], v);
      CycleLosesNothing(Flushed(q, os[0]), os[1..], v);
    }
  }

  /** Nothing is lost in a whole pass. */
  lemma PassKeeps(q: Queues, began: bool, os: seq<Outcome>)
    ensures var r := Requeued(SomeFlushed(q, began, os));
            && (forall v :: Queued(q, v) ==> Queued(r, v) || v in r.processed)
            && (forall v :: v in q.processed ==> v in r.processed)
    ensures q.writing == [] ==> SomeFlushed(q, began, os) == q
  {
    var m := SomeFlushed(q, began, os);
    forall v
      ensures Queued(q, v) ==> Queued(m, v) || v in m.processed
      ensures v in q.processed ==> v in m.processed
    {
      CycleLosesNothing(q, os, v);
    }
  }

  // ---------------------------------------------------------------- what a transaction does, outcome by outcome

  /** Of the items with an outcome, those that were written or dropped for good, in order. */
  function Written(xs: seq<VItem>, os: seq<Outcome>): seq<VItem> {
    if xs == [] || os == [] then []
    else (if os[0].wrote || os[0].copies == 0 then [xs[0]] else []) + Written(xs[1..], os[1..])
  }

  /** As many copies of each item as its outcome asks for, in order. */
  function Rejected(xs: seq<VItem>, os: seq<Outcome>): seq<VItem> {
    if xs == [] || os == [] then [] else Copies(xs[0], os[0].copies) + Rejected(xs[1..], os[1..])
  }

  /** How many items a transaction gets to. */
  function Attempted(xs: seq<VItem>, os: seq<Outcome>): nat {
    if |os| < |xs| then |os| else |xs|
  }

  /** A transaction that began decides item by item; one that could not begin rejects all of them. */
  ghost predicate Transacted(q: Queues, r: Queues, began: bool, os: seq<Outcome>) {
    if began then
      && r.writing == q.writing[Attempted(q.writing, os)..]
      && r.processed == q.processed + Written(q.writing, os)
      && r.rejects == q.rejects + Rejected(q.writing, os)
    else r == Queues([], q.rejects + q.writing, q.processed)
  }

  lemma {:induction false} AllTransacted(q: Queues, os: seq<Outcome>)
    ensures Transacted(q, FlushedAll(q, os), true, os)
    decreases |os|
  {
    hide FlushedAll, Written, Rejected, Transacted, Flushed;
    FlushedFirst(q, os);
    if os == [] || q.writing == [] {
      TransactedNone(q, os);
    } else {
      AllTransacted(Flushed(q, os[0]), os[1..]);
      TransactedFirst(q, FlushedAll(q, os), os);
    }
  }

  lemma FlushedFirst(q: Queues, os: seq<Outcome>)
    ensures FlushedAll(q, os) == if os == [] || q.writing == [] then q else FlushedAll(Flushed(q, os[0]), os[1..])
  {
  }

  lemma TransactedNone(q: Queues, os: seq<Outcome>)
    requires os == [] || q.writing == []
    ensures Transacted(q, q, true, os)
  {
    assert q.rejects + [] == q.rejects && q.processed + [] == q.processed;
  }

  lemma TransactedFirst(q: Queues, r: Queues, os: seq<Outcome>)
    requires os != [] && q.writing != [] && Transacted(Flushed(q, os[0]), r, true, os[1..])
    ensures Transacted(q, r, true, os)
  {
    var xs, n := q.writing, Attempted(q.writing, os);
    assert n == 1 + Attempted(xs[1..], os[1..]) && xs[1..][n - 1..] == xs[n..];
  }

  lemma SomeTransacted(q: Queues, began: bool, os: seq<Outcome>)
    ensures Transacted(q, SomeFlushed(q, began, os), began, os)
  {
    AllTransacted(q, os);
  }

  /** Exactly the items with an outcome that was not a mere rejection are written, and none is written twice. */
  lemma {:induction false} WrittenExactly(xs: seq<VItem>, os: seq<Outcome>, v: VItem)
    ensures |Written(xs, os)| <= Attempted(xs, os)
    ensures v in Written(xs, os) <==>
            exists i :: 0 <= i < |xs| && i < |os| && xs[i] == v && (os[i].wrote || os[i].copies == 0)
  {
    if xs != [] && os != [] {
      WrittenExactly(xs[1..], os[1..], v);
      if i :| 0 <= i < |xs| && i < |os| && xs[i] == v && (os[i].wrote || os[i].copies == 0) {
        if i > 0 {
          assert xs[1..][i - 1] == v && os[1..][i - 1] == os[i];
        }
      }
      if v in Written(xs[1..], os[1..]) {
        var i :| 0 <= i < |xs| - 1 && i < |os| - 1 && xs[1..][i] == v && (os[1..][i].wrote || os[1..][i].copies == 0);
        assert xs[i + 1] == v && os[i + 1] == os[1..][i];
      }
    }
  }

  lemma {:induction false} NothingRejected(xs: seq<VItem>, os: seq<Outcome>)
    ensures Rejected(xs, os) == [] <==> forall i :: 0 <= i < |xs| && i < |os| ==> os[i].copies == 0
    ensures Rejected(xs, os) == [] && |os| >= |xs| ==> Written(xs, os) == xs
  {
    if xs != [] && os != [] {
      NothingRejected(xs[1..], os[1..]);
      if forall i :: 0 <= i < |xs| && i < |os| ==> os[i].copies == 0 {
        assert Copies(xs[0], os[0].copies) == [];
        forall i | 0 <= i < |xs| - 1 && i < |os| - 1 ensures os[1..][i].copies == 0 {
          assert os[1..][i] == os[i + 1];
        }
      } else {
        var i :| 0 <= i < |xs| && i < |os| && os[i].copies != 0;
        assert i > 0 ==> os[1..][i - 1] == os[i];
      }
    }
  }

  /** The pass in which both queues run empty. */
  ghost predicate Completes(q: Queues, began: bool, os: seq<Outcome>) {
    && q.rejects == []
    && (q.writing == [] || (began && |os| >= |q.writing| && forall i :: 0 <= i < |q.writing| ==> os[i].copies == 0))
  }

  /** A cycle completes exactly in a pass that attempts all items and rejects none; all of them are then written. */
  lemma CompletesExactly(q: Queues, began: bool, os: seq<Outcome>)
    ensures Requeued(SomeFlushed(q, began, os)).writing == [] <==> Completes(q, began, os)
    ensures Completes(q, began, os) ==> SomeFlushed(q, began, os) == Queues([], [], q.processed + q.writing)
  {
    SomeTransacted(q, began, os);
    NothingRejected(q.writing, os);
  }

  // ---------------------------------------------------------------- runs of the pipeline grow at the end

  lemma {:induction false} PipeMore(p: Pipe, es: seq<PipeEvent>, e: PipeEvent)
    requires PipeOk(p) && IsPipeRun(p, es) && PipeOk(ExecPipe(p, es)) && Can(ExecPipe(p, es), e)
    ensures IsPipeRun(p, es + [e]) && ExecPipe(p, es + [e]) == Do(ExecPipe(p, es), e)
    decreases |es|
  {
    hide PipeOk, Can, Do;
    if es == [] {
      assert [e][1..] == [];
      PipeFirst(p, e);
    } else {
      assert (es + [e])[1..] == es[1..] + [e];
      DoOk(p, es[0]);
      PipeMore(Do(p, es[0]), es[1..], e);
    }
  }

  lemma PipeFirst(p: Pipe, e: PipeEvent)
    requires PipeOk(p) && Can(p, e)
    ensures IsPipeRun(p, [e]) && ExecPipe(p, [e]) == Do(p, e)
  {
    hide PipeOk, Can, Do;
    DoOk(p, e);
    assert [e][1..] == [];
  }

  /** `trace` is a run of the pipeline for new managers with these ids. */
  ghost predicate Traces(ids: map<Vb, nat>, trace: seq<PipeEvent>) {
    PipeOk(InitPipe(ids)) && IsPipeRun(InitPipe(ids), trace)
  }

  ghost function Reached(ids: map<Vb, nat>, trace: seq<PipeEvent>): Pipe
    requires Traces(ids, trace)
  {
    ExecPipe(InitPipe(ids), trace)
  }

  lemma ReachedInv(ids: map<Vb, nat>, trace: seq<PipeEvent>)
    requires Traces(ids, trace)
    ensures PipeInv(Reached(ids, trace)) && PipeOk(Reached(ids, trace))
  {
    hide PipeOk, LaneOk, InitPipe, IsPipeRun, ExecPipe;
    InitInv(ids);
    PipeRun(InitPipe(ids), trace);
  }

  lemma TraceMore(ids: map<Vb, nat>, trace: seq<PipeEvent>, e: PipeEvent)
    requires Traces(ids, trace) && PipeOk(Reached(ids, trace)) && Can(Reached(ids, trace), e)
    ensures Traces(ids, trace + [e]) && Reached(ids, trace + [e]) == Do(Reached(ids, trace), e)
    ensures PipeOk(Reached(ids, trace + [e]))
  {
    hide PipeOk, InitPipe, IsPipeRun, ExecPipe, Can, Do;
    PipeMore(InitPipe(ids), trace, e);
    DoOk(Reached(ids, trace), e);
  }

  // ---------------------------------------------------------------- what the flusher does to the vbuckets

  /** The items among `xs` that belong to a vbucket, in order. */
  function Of(vb: Vb, xs: seq<VItem>): seq<Item> {
    if xs == [] then []
    else
      var v := xs[|xs| - 1];
      Of(vb, xs[..|xs| - 1]) + if v.vb == vb then [v.x] else []
  }

  /** What was processed for each vbucket is in `processed`. */
  ghost predicate Processes(p: Pipe, processed: seq<VItem>) {
    forall vb :: vb in p.lanes ==> p.lanes[vb].processed == Of(vb, processed)
  }

  lemma ProcessesMore(p: Pipe, processed: seq<VItem>, copies: nat, wrote: bool)
    requires PipeOk(p) && Can(p, PipeEvent.FlushOne(copies, wrote)) && Processes(p, processed)
    ensures var p', v := Do(p, PipeEvent.FlushOne(copies, wrote)), p.writing[0];
            && Quiet(p, p')
            && Processes(p', if wrote || copies == 0 then processed + [v] else processed)
  {
    hide UnifiedQueue.WF;
    var v := p.writing[0];
    assert (processed + [v])[..|processed|] == processed;
  }

  /** What happens to a queue, or to a published id, processes nothing. */
  lemma ProcessesSame(p: Pipe, processed: seq<VItem>, e: PipeEvent)
    requires PipeOk(p) && Can(p, e) && (e.QueueEvent? || e.Publish?) && Processes(p, processed)
    ensures var p' := Do(p, e);
            Processes(p', processed) && p'.phase == p.phase && p'.writing == p.writing && p'.rejects == p.rejects
  {
    hide UnifiedQueue.WF, Runs.Enabled, Runs.Next;
  }

  /** Only what was processed may differ. */
  ghost predicate Quiet(p: Pipe, p': Pipe) {
    && p'.lanes.Keys == p.lanes.Keys
    && forall vb :: vb in p.lanes ==> p'.lanes[vb] == p.lanes[vb].(processed := p'.lanes[vb].processed)
  }

  /** A draw touches the queues and the drawn ids alone. */
  ghost predicate Drew(p: Pipe, p': Pipe) {
    && p'.lanes.Keys == p.lanes.Keys
    && forall vb :: vb in p.lanes ==>
         var l, l' := p.lanes[vb], p'.lanes[vb];
         l' == l.(h := l'.h, log := l'.log, pending := l'.pending)
  }

  /** One pass: some items are processed, and at the end of a cycle the drawn ids of `alive` are published. */
  ghost predicate PassOver(p: Pipe, p': Pipe, completed: bool, alive: set<Vb>) {
    && p'.lanes.Keys == p.lanes.Keys
    && forall vb :: vb in p.lanes ==>
         var l := if completed && vb in alive then LanePublish(p.lanes[vb]) else p.lanes[vb];
         p'.lanes[vb] == l.(processed := p'.lanes[vb].processed)
  }

  /** What was added to the trace are steps of the flush. */
  predicate Flushes(trace: seq<PipeEvent>, trace': seq<PipeEvent>) {
    && trace <= trace'
    && forall i :: |trace| <= i < |trace'| ==>
         var e := trace'[i]; e.FlushOne? || e.RejectAll? || e.RequeueRejects? || e.Complete?
  }

  lemma QuietPass(p: Pipe, p1: Pipe, p2: Pipe, completed: bool, alive: set<Vb>)
    requires Quiet(p, p1) && PassOver(p1, p2, completed, alive)
    ensures PassOver(p, p2, completed, alive)
  {
  }

  lemma SamePipe(p: Pipe)
    ensures Quiet(p, p)
  {
  }

  lemma DrewProcesses(p: Pipe, p': Pipe, processed: seq<VItem>)
    requires Drew(p, p') && Processes(p, processed)
    ensures Processes(p', processed)
  {
  }

  /**
   The flusher's own queues. `trace` records every event of the pipeline: the flusher's steps, and those of the
   vbuckets' queues in between. The queues are those of the state it leads to, so the theorems about pipelines
   hold of the flusher.
   */
  class Flusher {
    var flushing: bool
    var writing: seq<VItem>
    var rejects: seq<VItem>
    ghost var processed: seq<VItem>
    ghost const ids: map<Vb, nat>
    ghost var trace: seq<PipeEvent>

    ghost function Contents(): Queues
      reads this
    {
      Queues(writing, rejects, processed)
    }

    ghost predicate Valid()
      reads this
    {
      && Traces(ids, trace)
      && var p := Reached(ids, trace);
         && PipeOk(p) && p.writing == writing && p.rejects == rejects && Processes(p, processed)
         && if flushing then p.phase.Flushing? else p.phase.Idle? && writing == [] && rejects == []
    }

    constructor (ids: map<Vb, nat>)
      ensures Valid() && !flushing && Contents() == Queues([], [], []) && this.ids == ids && trace == []
    {
      flushing, writing, rejects, processed := false, [], [], [];
      this.ids, trace := ids, [];
      new;
      InitInv(ids);
      assert Processes(InitPipe(ids), []);
    }

    /** Anything that happens to a vbucket between two steps of the flusher: to its queue, or to its published id. */
    ghost method Meanwhile(e: PipeEvent)
      requires Valid() && Can(Reached(ids, trace), e) && (e.QueueEvent? || e.Publish?)
      modifies this`trace
      ensures Valid() && trace == old(trace) + [e]
      ensures Reached(ids, trace) == Do(Reached(ids, old(trace)), e)
    {
      hide PipeOk, Traces, Reached, Can, Do, Processes;
      ProcessesSame(Reached(ids, trace), processed, e);
      TraceMore(ids, trace, e);
      trace := trace + [e];
    }

    /** `began`: the transaction could be started; otherwise every item is rejected. */
    method FlushSome(began: bool, os: seq<Outcome>)
      requires Valid() && flushing
      modifies this`writing, this`rejects, this`processed, this`trace
      ensures Valid() && Flushes(old(trace), trace)
      ensures Contents() == SomeFlushed(old(Contents()), began, os)
      ensures Transacted(old(Contents()), Contents(), began, os)
      ensures Quiet(Reached(ids, old(trace)), Reached(ids, trace))
    {
      hide PipeOk, Traces, Reached;
      SomeTransacted(Contents(), began, os);
      if !began {
        TraceMore(ids, trace, RejectAll);
        trace := trace + [RejectAll];
        while writing != []
          invariant rejects + writing == old(rejects + writing) && processed == old(processed)
          invariant trace == old(trace) + [RejectAll]
          decreases |writing|
        {
          rejects := rejects + [writing[0]];
          writing := writing[1..];
        }
        return;
      }
      var completed := 0;
      while completed < |os| && writing != []
        invariant 0 <= completed <= |os| && Valid() && Flushes(old(trace), trace)
        invariant FlushedAll(Contents(), os[completed..]) == FlushedAll(old(Contents()), os)
        invariant Quiet(Reached(ids, old(trace)), Reached(ids, trace))
      {
        assert os[completed..][1..] == os[completed + 1..];
        FlushOne(os[completed]);
        completed := completed + 1;
      }
    }

    method FlushOne(o: Outcome)
      requires Valid() && flushing && writing != []
      modifies this`writing, this`rejects, this`processed, this`trace
      ensures Valid() && trace == old(trace) + [PipeEvent.FlushOne(o.copies, o.wrote)]
      ensures Contents() == Flushed(old(Contents()), o)
      ensures Quiet(Reached(ids, old(trace)), Reached(ids, trace))
    {
      hide PipeOk, Traces, Reached;
      ProcessesMore(Reached(ids, trace), processed, o.copies, o.wrote);
      TraceMore(ids, trace, PipeEvent.FlushOne(o.copies, o.wrote));
      trace := trace + [PipeEvent.FlushOne(o.copies, o.wrote)];
      var qi := writing[0];
      writing := writing[1..];
      rejects := rejects + Copies(qi, o.copies);
      if o.wrote || o.copies == 0 {
        processed := processed + [qi];
      }
    }

    method RequeueRejectedItems()
      requires Valid() && flushing
      modifies this`writing, this`rejects, this`trace
      ensures Valid() && trace == old(trace) + [RequeueRejects]
      ensures writing == old(writing + rejects) && rejects == []
      ensures Reached(ids, trace).lanes == Reached(ids, old(trace)).lanes
    {
      hide PipeOk, Traces, Reached;
      TraceMore(ids, trace, RequeueRejects);
      trace := trace + [RequeueRejects];
      while rejects != []
        invariant writing + rejects == old(writing + rejects) && trace == old(trace) + [RequeueRejects]
        decreases |rejects|
      {
        writing := writing + [rejects[0]];
        rejects := rejects[1..];
      }
      assert writing + rejects == writing;
    }

    /** The end of a pass: rejected items are tried again, or the cycle is complete. */
    method FinishPass(ghost alive: set<Vb>) returns (completed: bool)
      requires Valid() && flushing
      modifies this`flushing, this`writing, this`rejects, this`trace
      ensures Valid() && Flushes(old(trace), trace) && Contents() == Requeued(old(Contents()))
      ensures (flushing <==> writing != []) && (completed <==> !flushing)
      ensures completed ==> trace != [] && trace[|trace| - 1] == Complete(alive)
      ensures PassOver(Reached(ids, old(trace)), Reached(ids, trace), completed, alive)
    {
      hide PipeOk, Traces, Reached;
      completed := false;
      if writing == [] {
        if rejects != [] {
          RequeueRejectedItems();
        } else {
          TraceMore(ids, trace, Complete(alive));
          trace := trace + [Complete(alive)];
          completed := true;
          flushing := false;
        }
      }
    }

    /**
     `batch` is what `beginFlush` would return now (`None`: nothing to persist), drawn from the vbuckets by the
     events `draw`, which process nothing; it is asked for only on a fresh entry. A cycle completes, and the drawn
     checkpoint ids of the vbuckets `alive` are published, exactly when both queues are empty.
     */
    method DoFlush(batch: UnifiedQueue.Option<seq<VItem>>, ghost draw: seq<PipeEvent>, began: bool, os: seq<Outcome>,
                   ghost alive: set<Vb>)
      returns (completed: bool)
      requires Valid()
      requires !flushing && batch.Some? ==>
                 && Traces(ids, trace + draw)
                 && var p := Reached(ids, trace + draw);
                    p.phase.Flushing? && p.writing == batch.value && p.rejects == [] && Drew(Reached(ids, trace), p)
      modifies this
      ensures Valid() && old(trace) <= trace
      ensures completed <==> (old(flushing) || batch.Some?) && !flushing
      ensures completed ==> trace != [] && trace[|trace| - 1] == Complete(alive)
      ensures old(flushing) || batch.Some? ==>
                var start := if old(flushing) then old(Contents()) else Queues(batch.value, [], old(processed));
                && Contents() == Requeued(SomeFlushed(start, began, os)) && (flushing <==> writing != [])
                && processed == start.processed + (if began then Written(start.writing, os) else [])
                && (completed <==> Completes(start, began, os))
                && (completed ==> processed == start.processed + start.writing)
      ensures forall v :: old(flushing && Queued(Contents(), v)) ==> Queued(Contents(), v) || v in processed
      ensures !old(flushing) && batch.Some? ==> forall v :: v in batch.value ==> Queued(Contents(), v) || v in processed
      ensures forall v :: v in old(processed) ==> v in processed
      ensures !old(flushing) && batch.None? ==> Contents() == old(Contents()) && !flushing && trace == old(trace)
      ensures old(flushing) ==> PassOver(Reached(ids, old(trace)), Reached(ids, trace), completed, alive)
      ensures !old(flushing) && batch.Some? ==>
                PassOver(Reached(ids, old(trace) + draw), Reached(ids, trace), completed, alive)
      ensures Flushes(if !old(flushing) && batch.Some? then old(trace) + draw else old(trace), trace)
    {
      hide PipeOk, Traces, Reached, Processes, Quiet, PassOver, Drew, SomeFlushed, Written, Completes;
      completed := false;
      if !flushing {
        if batch.Some? {
          DrewProcesses(Reached(ids, trace), Reached(ids, trace + draw), processed);
          writing, rejects, flushing := batch.value, [], true;
          trace := trace + draw;
          ReachedInv(ids, trace);
        }
      }
      ghost var start := Contents();
      ghost var p := Reached(ids, trace);
      SamePipe(p);
      if flushing {
        PassKeeps(start, began, os);
        SomeTransacted(start, began, os);
        CompletesExactly(start, began, os);
        if writing != [] {
          FlushSome(began, os);
        }
        ghost var p1 := Reached(ids, trace);
        completed := FinishPass(alive);
        QuietPass(p, p1, Reached(ids, trace), completed, alive);
      }
    }

    /**
     What the flusher has published is persisted, as long as every step met its guard: the mutation is among the
     items it processed, or a later one of its key is.
     */
    lemma PublishedPersisted(vb: Vb, j: nat)
      requires Valid() && Guarded(InitPipe(ids), trace) && vb in Reached(ids, trace).lanes
      requires var l := Reached(ids, trace).lanes[vb];
               j < |l.h.accepted| && j < |l.h.acceptedIn| && 0 < l.published && l.h.acceptedIn[j] <= l.published
      ensures exists k :: 0 <= k < |processed| && processed[k].vb == vb
                          && Supersedes(processed[k].x, Reached(ids, trace).lanes[vb].h.accepted[j])
    {
      hide PipeOk, IsPipeRun, ExecPipe, InitPipe, Guarded, Of;
      PublishedCheckpointsPersisted(ids, trace, vb, j);
      var l := Reached(ids, trace).lanes[vb];
      var i :| 0 <= i < |l.processed| && Supersedes(l.processed[i], l.h.accepted[j]);
      var k := OfAt(vb, processed, i);
    }
  }

  lemma {:induction false} OfAt(vb: Vb, xs: seq<VItem>, i: nat) returns (k: nat)
    requires i < |Of(vb, xs)|
    ensures k < |xs| && xs[k] == VItem(vb, Of(vb, xs)[i])
  {
    var n := |xs| - 1;
    if i < |Of(vb, xs[..n])| {
      k := OfAt(vb, xs[..n], i);
    } else {
      k := n;
    }
  }
}
