/**
 Readers get on: nothing that a reader may be handed is withheld from it, and a cursor that is read often enough
 has been sent everything that lay ahead of it.
 */
module Progress {
  import opened Items
  import opened UnifiedQueue
  import opened Pending
  import opened Runs

  // ---------------------------------------------------------------- one `nextItem`

  /** What `nextItem` has still to hand to a cursor: all items ahead, or those in closed checkpoints. */
  function Due(chks: seq<Chk>, t: Tap): seq<Item>
    requires PosOk(chks, t.pos)
  {
    if t.closedOnly then ClosedAhead(chks, t.pos) else Ahead(chks, t.pos)
  }

  lemma AllButLastClosed(q: Queue)
    requires WF(q)
    ensures forall i :: 0 <= i < |q.chks| - 1 ==> !q.chks[i].open
  {
  }

  /**
   Outside backfill, something is handed out exactly if something is due: the first item due, which leaves the
   others. During backfill, when the last id is 0, nothing is.
   */
  lemma DueStep(q: Queue, t: Tap)
    requires WF(q) && PosOk(q.chks, t.pos)
    ensures forall i :: 0 <= i < |q.chks| ==> 2 <= |q.chks[i].items|
    ensures var (p, x) := Step(q.chks, t);
            && PosOk(q.chks, p)
            && (x.Some? <==> Last(q.chks).id != 0 && Due(q.chks, t) != [])
            && Due(q.chks, t) == (if x.Some? then [x.value] else []) + Due(q.chks, t.(pos := p))
            && (Last(q.chks).id == 0 ==> p == t.pos)
  {
    ItemsOk(q);
    AllButLastClosed(q);
    hide WF, ClosedAhead, Ahead, Step;
    if Last(q.chks).id == 0 {
      WaitStep(q.chks, t);
    } else if t.closedOnly {
      ClosedStep(q.chks, t);
    } else {
      AheadStep(q.chks, t);
    }
  }

  /** One `nextItem` of a known cursor, as its reader sees it; `Dummy` is the empty item. */
  ghost predicate Served(q: Queue, q': Queue, n: string, item: Item) {
    && n in q.taps && PosOk(q.chks, q.taps[n].pos) && q.chks != [] && n in q'.taps
    && q' == q.(taps := q.taps[n := q.taps[n].(pos := q'.taps[n].pos)]) && PosOk(q.chks, q'.taps[n].pos)
    && var due, due' := Due(q.chks, q.taps[n]), Due(q.chks, q'.taps[n]);
       if Last(q.chks).id != 0 && due != [] then item == due[0] && item.op != OpEmpty && due' == due[1..]
       else item == Dummy && due' == due
  }

  lemma StepServed(q: Queue, n: string)
    requires WF(q) && n in q.taps
    ensures Served(q, NextItem(q, n), n,
                   match Step(q.chks, q.taps[n]).1 case Some(x) => x case None => Dummy)
  {
    hide Due;
    var t := q.taps[n];
    DueStep(q, t);
    StepNotEmpty(q, t);
    hide Step, WF;
  }

  lemma StepNotEmpty(q: Queue, t: Tap)
    requires WF(q) && PosOk(q.chks, t.pos)
    ensures Step(q.chks, t).1.Some? ==> Step(q.chks, t).1.value.op != OpEmpty
  {
    hide DistinctKeys;
    var r := Step(q.chks, t);
    if r.1.Some? {
      assert ChkOk(q.chks[r.0.chk]) && r.1.value == q.chks[r.0.chk].items[r.0.at] && r.0.at >= 1;
    }
  }

  lemma WaitStep(chks: seq<Chk>, t: Tap)
    requires chks != [] && PosOk(chks, t.pos) && Last(chks).id == 0
    requires forall i :: 0 <= i < |chks| ==> 2 <= |chks[i].items|
    ensures Step(chks, t) == (t.pos, None) && [] + Due(chks, t) == Due(chks, t)
  {
    hide Due;
  }

  lemma ClosedStep(chks: seq<Chk>, t: Tap)
    requires chks != [] && PosOk(chks, t.pos) && t.closedOnly && Last(chks).id != 0
    requires forall i :: 0 <= i < |chks| ==> 2 <= |chks[i].items|
    requires forall i :: 0 <= i < |chks| - 1 ==> !chks[i].open
    ensures var (p, x) := Step(chks, t);
            && PosOk(chks, p) && (x.Some? <==> Due(chks, t) != [])
            && Due(chks, t) == (if x.Some? then [x.value] else []) + Due(chks, t.(pos := p))
  {
    hide Flat, Ahead;
    var p, cs := t.pos, ClosedPart(chks);
    if p.chk < |cs| {
      if p.at + 1 < |cs[p.chk].items| {
        StepIn(cs, p);
      } else if p.chk + 1 < |cs| {
        StepOver(cs, p);
      } else {
        AheadLast(cs, p);
      }
    }
  }

  // ---------------------------------------------------------------- many of them

  /** `k` calls of `nextItem` in a row. */
  function NextCalls(n: string, k: nat): seq<Event> {
    seq(k, _ => TapNext(n))
  }

  lemma NextLogged(h: History, n: string)
    requires WF(h.q) && n in h.q.taps && n in h.logs
    ensures var h', t := Next(h, TapNext(n)), h.q.taps[n];
            && WF(h'.q) && n in h'.logs
            && h'.q == h.q.(taps := h.q.taps[n := t.(pos := Step(h.q.chks, t).0)])
            && h'.logs[n].sent == h.logs[n].sent + SentBy(h.q, n)
  {
    hide ListOk, Tail, Step;
    ApplyWF(h.q, TapNext(n));
  }

  /**
   In any state that runs can reach, `k` calls of `nextItem` send the cursor the `k` first items due to it, if there
   are as many; the rest stays due, and nothing else in the queue changes. So as many calls as there are items due
   send exactly what lay ahead.
   */
  lemma {:induction false} NextSends(h: History, n: string, k: nat)
    requires WF(h.q) && n in h.q.taps && n in h.logs && Last(h.q.chks).id != 0
    requires k <= |Due(h.q.chks, h.q.taps[n])|
    ensures IsRun(h, NextCalls(n, k))
    ensures var h', due := Exec(h, NextCalls(n, k)), Due(h.q.chks, h.q.taps[n]);
            && WF(h'.q) && n in h'.q.taps && n in h'.logs
            && h'.q == h.q.(taps := h.q.taps[n := h.q.taps[n].(pos := h'.q.taps[n].pos)])
            && h'.logs[n].sent == h.logs[n].sent + due[..k]
            && Due(h'.q.chks, h'.q.taps[n]) == due[k..]
    decreases k
  {
    hide WF, Due, Step, Next;
    TapIn(h.q, n);
    var es, due := NextCalls(n, k), Due(h.q.chks, h.q.taps[n]);
    if k == 0 {
      assert due[..0] == [] && due[0..] == due && h.logs[n].sent + [] == h.logs[n].sent;
      assert h.q.taps[n := h.q.taps[n]] == h.q.taps;
    } else {
      DueStep(h.q, h.q.taps[n]);
      NextLogged(h, n);
      var h1 := Next(h, TapNext(n));
      assert es[0] == TapNext(n) && es[1..] == NextCalls(n, k - 1);
      NextSends(h1, n, k - 1);
      SentFirst(h.logs[n].sent, due, k);
    }
  }

  lemma TapIn(q: Queue, n: string)
    requires WF(q) && n in q.taps
    ensures PosOk(q.chks, q.taps[n].pos)
  {
    hide ListOk;
  }

  lemma SentFirst(sent: seq<Item>, due: seq<Item>, k: nat)
    requires 0 < k <= |due|
    ensures sent + [due[0]] + due[1..][..k - 1] == sent + due[..k] && due[1..][k - 1..] == due[k..]
  {
  }

  // ---------------------------------------------------------------- the other readers

  /** Outside online update a draw leaves nothing behind; during online update, exactly what is behind the barrier. */
  lemma DrawLeaves(q: Queue)
    requires WF(q)
    ensures PosOk(q.chks, DrawTo(q))
    ensures q.barrier.None? ==> Drawn(q) == Ahead(q.chks, q.persist) && Ahead(q.chks, DrawTo(q)) == []
    ensures q.barrier.None? ==> DrawnId(q) == if Last(q.chks).id > 0 then Last(q.chks).id - 1 else 0
    ensures q.barrier.Some? && q.persist.chk < q.barrier.value ==>
              Ahead(q.chks, DrawTo(q)) == Flat(q.chks[q.barrier.value..])
    ensures q.barrier.Some? && q.barrier.value <= q.persist.chk ==> Drawn(q) == [] && DrawTo(q) == q.persist
    ensures q.barrier.Some? && q.persist.chk < q.barrier.value ==> DrawnId(q) + 1 == q.chks[q.barrier.value].id
  {
    hide Flat, ListOk;
    ItemsOk(q);
    if q.barrier.Some? && q.persist.chk < q.barrier.value {
      FlatFrom(q.chks, q.barrier.value);
    } else if q.barrier.None? {
      AheadLast(q.chks, EndPos(q.chks));
    }
  }

  lemma DrawShape(q: Queue)
    requires WF(q)
    ensures Draw(q).chks == q.chks && Draw(q).persist == DrawTo(q)
  {
    hide WF;
  }

  /** Reading everything leaves a TAP cursor on the last item. */
  lemma ReadAllLeaves(q: Queue, n: string)
    requires WF(q) && n in q.taps
    ensures n in ReadAll(q, n).taps && PosOk(q.chks, ReadAll(q, n).taps[n].pos) && ReadAll(q, n).chks == q.chks
    ensures Ahead(q.chks, ReadAll(q, n).taps[n].pos) == [] && ReadAll(q, n).taps[n].pos.chk == |q.chks| - 1
  {
    hide ListOk, Flat;
    ItemsOk(q);
    AheadLast(q.chks, EndPos(q.chks));
  }

  /** Backing off from an end item makes it the next one due again; elsewhere it changes nothing. */
  lemma BackOffResends(q: Queue, n: string)
    requires WF(q) && n in q.taps
    ensures WF(BackOff(q, n)) && n in BackOff(q, n).taps && PosOk(q.chks, q.taps[n].pos)
    ensures var q', p := BackOff(q, n), q.taps[n].pos;
            var x, p' := q.chks[p.chk].items[p.at], q'.taps[n].pos;
            && q' == q.(taps := q.taps[n := q.taps[n].(pos := p')]) && PosOk(q.chks, p')
            && Ahead(q.chks, p') == (if x.op == OpCheckpointEnd then [x] else []) + Ahead(q.chks, p)
  {
    hide WF, Ahead, Flat;
    BackOffWF(q, n);
    TapIn(q, n);
    var p := q.taps[n].pos;
    EndNotFirst(q, p);
    BackOffAt(q, n);
    if q.chks[p.chk].items[p.at].op == OpCheckpointEnd {
      StepIn(q.chks, Pos(p.chk, p.at - 1));
    } else {
      assert [] + Ahead(q.chks, p) == Ahead(q.chks, p);
    }
  }

  lemma BackOffAt(q: Queue, n: string)
    requires WF(q) && n in q.taps && PosOk(q.chks, q.taps[n].pos)
    ensures var p := q.taps[n].pos;
            var p' := if q.chks[p.chk].items[p.at].op == OpCheckpointEnd && p.at > 0 then Pos(p.chk, p.at - 1) else p;
            BackOff(q, n) == q.(taps := q.taps[n := q.taps[n].(pos := p')])
  {
    hide WF;
    assert q.taps[n := q.taps[n]] == q.taps;
  }

  lemma EndNotFirst(q: Queue, p: Pos)
    requires WF(q) && PosOk(q.chks, p)
    ensures q.chks[p.chk].items[p.at].op == OpCheckpointEnd ==> p.at > 0
  {
    hide DistinctKeys;
    assert ChkOk(q.chks[p.chk]);
  }
}
