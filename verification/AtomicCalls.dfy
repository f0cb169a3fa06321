/**
 Whole calls on the lock-free queue: what `push`, `pushQueue` and `getAll` have brought about by the time they
 return, whatever the other threads did meanwhile, and that a call which is left alone does return.
 */
module AtomicCalls {
  import opened AtomicQueues
  import opened Sums

  // ---------------------------------------------------------------- calls as stretches of a run

  function PhaseIn(s: State, t: nat): Phase {
    if t < |s.threads| then s.threads[t].phase else Idle
  }

  /** `more` is the beginning of one call of thread `t`: its first turn starts `op`, and the call is under way since. */
  ghost predicate OneCall(threads: nat, turns: seq<Turn>, more: seq<Turn>, t: nat, op: Op) {
    && t < threads <= MaxThreads && more != [] && more[0] == Turn(t, op) && PhaseIn(Exec(threads, turns), t).Idle?
    && forall k :: 0 < k < |more| ==> !PhaseIn(Exec(threads, turns + more[..k]), t).Idle?
  }

  /** `more` is one whole call of thread `t`, with the turns other threads took in between. */
  ghost predicate WholeCall(threads: nat, turns: seq<Turn>, more: seq<Turn>, t: nat, op: Op) {
    OneCall(threads, turns, more, t, op) && PhaseIn(Exec(threads, turns + more), t).Idle?
  }

  lemma ExecStep(threads: nat, turns: seq<Turn>, turn: Turn)
    requires threads <= MaxThreads
    ensures var s, s' := Exec(threads, turns), Exec(threads, turns + [turn]);
            && Inv(s) && |s.threads| == threads && Inv(s') && |s'.threads| == threads
            && if turn.thread < threads then Safe(s, turn.thread) && s' == Step(s, turn.thread, turn.op) else s' == s
  {
    hide Inv, Safe, Step;
    RunInv(threads, turns);
    RunInv(threads, turns + [turn]);
    assert (turns + [turn])[..|turns + [turn]| - 1] == turns;
  }

  // ---------------------------------------------------------------- what a step leaves alone

  /** Thread `t`, what it pushed and what was taken from it, before and after a step of thread `u`. */
  ghost predicate Framed(s: State, s': State, u: nat, t: nat) {
    && |s'.threads| == |s.threads| && t < |s.threads| && Sized(s) && Sized(s')
    && s.owner <= s'.owner && s.drawn[t] <= s'.drawn[t] && s.threads[t].out <= s'.threads[t].out
    && (t != u ==> s'.threads[t] == s.threads[t] && s'.pushed[t] == s.pushed[t])
    && (forall k :: |s.drawn[t]| <= k < |s'.drawn[t]| ==> s'.drawn[t][k] == u)
  }

  lemma StepFramed(s: State, u: nat, op: Op, t: nat)
    requires Safe(s, u) && Sized(s) && Sized(Step(s, u, op)) && t < |s.threads|
    ensures Framed(s, Step(s, u, op), u, t)
  {
  }

  // ---------------------------------------------------------------- pushing

  function Size(op: Op): nat {
    match op
    case Push => 1
    case PushQueue(n) => n
    case GetAll => 0
  }

  /** The thread is inside a call of `op`, or at its end. */
  predicate InCall(ph: Phase, op: Op) {
    match ph
    case Idle => true
    case Allocated(o, _) => o == op
    case Numbered(o, _, _) => o == op
    case StealLoad(o) => o == op
    case StealCas(o, _) => o == op
    case Filling(o, _, left, _) => o == op && !op.GetAll? && left <= Size(op)
    case ReturnLoad(_, _, consumer) => consumer == op.GetAll?
    case ReturnCas(_, _, consumer, _) => consumer == op.GetAll?
    case _ => op.GetAll?
  }

  /** How many items the call has pushed. */
  function PushedBy(ph: Phase, op: Op): int {
    match ph
    case Allocated(_, _) => 0
    case Numbered(_, _, _) => 0
    case StealLoad(_) => 0
    case StealCas(_, _) => 0
    case Filling(_, _, left, _) => Size(op) - left
    case _ => Size(op)
  }

  /** Thread `t` is in a call of `op` that began when it had pushed `n` items. */
  ghost predicate Pushing(s: State, t: nat, op: Op, n: nat) {
    && t < |s.threads| == |s.pushed|
    && InCall(s.threads[t].phase, op) && s.pushed[t] == n + PushedBy(s.threads[t].phase, op)
  }

  lemma StartPushing(s: State, t: nat, op: Op)
    requires Safe(s, t) && s.threads[t].phase.Idle?
    ensures Pushing(Step(s, t, op), t, op, s.pushed[t]) && !PhaseIn(Step(s, t, op), t).Idle?
  {
  }

  lemma StepPushing(s: State, t: nat, op: Op, o: Op, n: nat)
    requires Safe(s, t) && Pushing(s, t, op, n) && !s.threads[t].phase.Idle?
    ensures Pushing(Step(s, t, o), t, op, n)
  {
    if s.threads[t].phase.Filling? {
      StepFilling(s, t, op, o, n);
    } else {
      hide Fill;
    }
  }

  lemma StepFilling(s: State, t: nat, op: Op, o: Op, n: nat)
    requires Safe(s, t) && Pushing(s, t, op, n) && s.threads[t].phase.Filling?
    ensures Pushing(Step(s, t, o), t, op, n)
  {
  }

  /** The state in the middle of a call, and the turn that led to it. */
  lemma Midway(threads: nat, turns: seq<Turn>, more: seq<Turn>, t: nat, op: Op, k: nat)
    requires OneCall(threads, turns, more, t, op) && 0 < k <= |more|
    ensures var s, s', turn := Exec(threads, turns + more[..k - 1]), Exec(threads, turns + more[..k]), more[k - 1];
            && Inv(s) && Inv(s') && |s.threads| == |s'.threads| == threads
            && (if turn.thread < threads then Safe(s, turn.thread) && s' == Step(s, turn.thread, turn.op) else s' == s)
            && (s.threads[t].phase.Idle? <==> k == 1) && (k == 1 ==> turn == Turn(t, op) && s == Exec(threads, turns))
  {
    hide Inv, Safe, Step, Exec;
    ExecStep(threads, turns + more[..k - 1], more[k - 1]);
    assert turns + more[..k - 1] + [more[k - 1]] == turns + more[..k];
    assert k == 1 ==> turns + more[..0] == turns;
  }

  lemma {:induction false} PushingRun(threads: nat, turns: seq<Turn>, more: seq<Turn>, t: nat, op: Op, k: nat)
    requires OneCall(threads, turns, more, t, op) && 0 < k <= |more|
    ensures t < |Exec(threads, turns).pushed|
    ensures Pushing(Exec(threads, turns + more[..k]), t, op, Exec(threads, turns).pushed[t])
  {
    hide Inv, Safe, Step, Exec, Pushing;
    Midway(threads, turns, more, t, op, k);
    Midway(threads, turns, more, t, op, 1);
    var s, turn := Exec(threads, turns + more[..k - 1]), more[k - 1];
    InvSized(Exec(threads, turns));
    InvSized(s);
    InvSized(Exec(threads, turns + more[..k]));
    if k == 1 {
      StartPushing(s, t, op);
    } else {
      PushingRun(threads, turns, more, t, op, k - 1);
      var n := Exec(threads, turns).pushed[t];
      if turn.thread == t {
        StepPushing(s, t, op, turn.op, n);
      } else if turn.thread < threads {
        StepFramed(s, turn.thread, turn.op, t);
        SamePushing(s, Step(s, turn.thread, turn.op), turn.thread, t, op, n);
      }
    }
  }

  lemma SamePushing(s: State, s': State, u: nat, t: nat, op: Op, n: nat)
    requires Framed(s, s', u, t) && t != u && Pushing(s, t, op, n)
    ensures Pushing(s', t, op, n)
  {
  }

  /** By the time it returns, a call has pushed its items, and no other thread pushes in its name. */
  lemma CallPushes(threads: nat, turns: seq<Turn>, more: seq<Turn>, t: nat, op: Op)
    requires WholeCall(threads, turns, more, t, op)
    ensures var s, s' := Exec(threads, turns), Exec(threads, turns + more);
            t < |s.pushed| == |s'.pushed| && s'.pushed[t] == s.pushed[t] + Size(op)
  {
    hide Inv, Safe, Step, Exec;
    PushingRun(threads, turns, more, t, op, |more|);
    assert more[..|more|] == more;
    RunInv(threads, turns);
    RunInv(threads, turns + more);
    InvSized(Exec(threads, turns));
    InvSized(Exec(threads, turns + more));
  }

  // ---------------------------------------------------------------- taking everything

  /** A `getAll` at this point is done with slot `i`; with the caller's own once it has stolen its queue. */
  predicate DoneWith(ph: Phase, i: nat, own: bool) {
    match ph
    case DrainOwn(_, _) => own
    case Visit(_, j, _, _) => own || i < j
    case VisitCas(_, j, _, _, _) => own || i < j
    case DrainSlot(_, j, _, _) => own || i <= j
    case ReturnLoad(_, _, _) => true
    case ReturnCas(_, _, _, _) => true
    case Settle(_) => true
    case Idle => true
    case _ => false
  }

  /** It will still come to slot `i`, or has done so. */
  predicate Includes(ph: Phase, i: nat) {
    match ph
    case Visit(_, _, c, _) => i < c
    case VisitCas(_, _, c, _, _) => i < c
    case DrainSlot(_, _, c, _) => i < c
    case _ => true
  }

  /** The `getAll` of thread `t` has left nothing of the first `n` items of `p` in slot `i` if it is done with it. */
  ghost predicate Clearing(s: State, t: nat, p: nat, i: nat, n: nat) {
    && Sized(s) && t < |s.threads| && p < |s.threads| && i < s.counter && s.owner[i] == p
    && InCall(s.threads[t].phase, GetAll) && Includes(s.threads[t].phase, i)
    && (DoneWith(s.threads[t].phase, i, t == p) ==> n <= |s.drawn[p]|)
  }

  lemma StartClearing(s: State, t: nat, p: nat, i: nat, n: nat)
    requires Safe(s, t) && Sized(s) && Sized(Step(s, t, GetAll)) && s.threads[t].phase.Idle?
    requires p < |s.threads| && i < s.counter && s.owner[i] == p
    ensures Clearing(Step(s, t, GetAll), t, p, i, n)
  {
  }

  lemma StepClearing(s: State, t: nat, op: Op, p: nat, i: nat, n: nat)
    requires Safe(s, t) && Sized(s) && Sized(Step(s, t, op)) && Clearing(s, t, p, i, n) && !s.threads[t].phase.Idle?
    requires n <= s.pushed[p] && |s.drawn[p]| <= s.pushed[p] && (p != t ==> s.slots[i].Ref?)
    ensures Clearing(Step(s, t, op), t, p, i, n)
  {
    hide Sized;
  }

  lemma SameClearing(s: State, s': State, u: nat, t: nat, p: nat, i: nat, n: nat)
    requires Framed(s, s', u, t) && Framed(s, s', u, p) && t != u && Clearing(s, t, p, i, n)
    ensures Clearing(s', t, p, i, n)
  {
  }

  /** A thread that takes no turn stays where it is, and its slot keeps its queue, or another one in its place. */
  lemma {:induction false} StillRun(threads: nat, turns: seq<Turn>, more: seq<Turn>, p: nat)
    requires p < threads <= MaxThreads && forall k :: 0 <= k < |more| ==> more[k].thread != p
    ensures var s, s' := Exec(threads, turns), Exec(threads, turns + more);
            && Inv(s) && Inv(s') && |s.threads| == |s'.threads| == threads && Sized(s) && Sized(s')
            && s'.threads[p] == s.threads[p] && s'.pushed[p] == s.pushed[p] && s.drawn[p] <= s'.drawn[p]
  {
    hide Inv, Safe, Step, Exec;
    RunInv(threads, turns);
    InvSized(Exec(threads, turns));
    if more == [] {
      assert turns + more == turns;
    } else {
      var n := |more| - 1;
      StillRun(threads, turns, more[..n], p);
      ExecStep(threads, turns + more[..n], more[n]);
      assert turns + more[..n] + [more[n]] == turns + more;
      InvSized(Exec(threads, turns + more));
      if more[n].thread < threads {
        StepFramed(Exec(threads, turns + more[..n]), more[n].thread, more[n].op, p);
      }
    }
  }

  lemma SlotFull(s: State, i: nat)
    requires Inv(s) && i < s.counter
    ensures i < |s.owner| && s.owner[i] < |s.threads| && i < |s.slots|
    ensures |s.drawn| == |s.pushed| == |s.threads|
    ensures |s.drawn[s.owner[i]]| <= s.pushed[s.owner[i]]
    ensures s.slots[i].Ref? <==> Held(s.threads[s.owner[i]].phase).Null?
  {
    hide Owned, Contents, Counts, Deliveries;
    HoldsOf(s, s.owner[i]);
  }

  /** Slot `i` belongs to the caller, or to a thread that takes no turn meanwhile and has its queue in the slot. */
  ghost predicate Clearable(threads: nat, turns: seq<Turn>, more: seq<Turn>, t: nat, i: nat) {
    var s := Exec(threads, turns);
    && i < |s.owner| && i < |s.slots|
    && (s.owner[i] == t || (s.slots[i].Ref? && forall k :: 0 <= k < |more| ==> more[k].thread != s.owner[i]))
  }

  /** What slot `i` is like in the middle of the call. */
  lemma ClearableMidway(threads: nat, turns: seq<Turn>, more: seq<Turn>, t: nat, i: nat, k: nat)
    requires OneCall(threads, turns, more, t, GetAll) && Clearable(threads, turns, more, t, i) && 0 < k <= |more|
    ensures var s0, s := Exec(threads, turns), Exec(threads, turns + more[..k]);
            && Inv(s0) && Inv(s) && |s0.threads| == |s.threads| == threads && i < s0.counter && i < |s0.owner|
            && var p := s0.owner[i];
               && p < threads && |s0.pushed| == |s.pushed| == threads && s.pushed[p] == s0.pushed[p]
               && (p != t ==> Held(s.threads[p].phase).Null?)
  {
    hide Inv, Safe, Step, Exec;
    Midway(threads, turns, more, t, GetAll, k);
    RunInv(threads, turns);
    var s0, s := Exec(threads, turns), Exec(threads, turns + more[..k]);
    InvSized(s0);
    InvSized(s);
    SlotFull(s0, i);
    if s0.owner[i] == t {
      PushingRun(threads, turns, more, t, GetAll, k);
    } else {
      StillRun(threads, turns, more[..k], s0.owner[i]);
    }
  }

  lemma {:induction false} ClearingRun(threads: nat, turns: seq<Turn>, more: seq<Turn>, t: nat, i: nat, k: nat)
    requires OneCall(threads, turns, more, t, GetAll) && Clearable(threads, turns, more, t, i) && 0 < k <= |more|
    ensures var s0 := Exec(threads, turns);
            && s0.owner[i] < |s0.pushed|
            && Clearing(Exec(threads, turns + more[..k]), t, s0.owner[i], i, s0.pushed[s0.owner[i]])
  {
    hide Inv, Safe, Step, Exec, Clearing, Clearable;
    Midway(threads, turns, more, t, GetAll, k);
    ClearableMidway(threads, turns, more, t, i, k);
    var s0, s, s', turn := Exec(threads, turns), Exec(threads, turns + more[..k - 1]), Exec(threads, turns + more[..k]),
                           more[k - 1];
    var p, n := s0.owner[i], s0.pushed[s0.owner[i]];
    InvSized(s);
    InvSized(s');
    if k == 1 {
      StartClearing(s, t, p, i, n);
    } else {
      ClearingRun(threads, turns, more, t, i, k - 1);
      ClearableMidway(threads, turns, more, t, i, k - 1);
      if turn.thread == t {
        ClearingSlot(s, t, p, i, n);
        SlotFull(s, i);
        StepClearing(s, t, turn.op, p, i, n);
      } else if turn.thread < threads {
        StepFramed(s, turn.thread, turn.op, t);
        StepFramed(s, turn.thread, turn.op, p);
        SameClearing(s, s', turn.thread, t, p, i, n);
      }
    }
  }

  lemma ClearingSlot(s: State, t: nat, p: nat, i: nat, n: nat)
    requires Clearing(s, t, p, i, n)
    ensures i < s.counter && i < |s.owner| && s.owner[i] == p
  {
  }

  /** Item `x` lies in slot `i`. */
  predicate LiesIn(s: State, i: nat, x: Item) {
    i < |s.slots| && s.slots[i].Ref? && s.slots[i].id < |s.heap| && x in s.heap[s.slots[i].id]
  }

  lemma LiesWith(s: State, i: nat, x: Item)
    requires Inv(s) && LiesIn(s, i, x)
    ensures i < s.counter && i < |s.owner| && s.owner[i] == x.producer && x.producer < |s.pushed| == |s.drawn|
    ensures |s.drawn[x.producer]| <= x.index < s.pushed[x.producer]
  {
    hide Counts, Deliveries, Contents, Owned;
    assert i < s.counter;
    SlotHolds(s, i);
    var k :| 0 <= k < |s.heap[s.slots[i].id]| && s.heap[s.slots[i].id][k] == x;
  }

  /** Somebody has taken the item: it was received, or is about to be by the thread that took it, and is in no slot. */
  ghost predicate Gone(s: State, x: Item) {
    && Sized(s) && x.producer < |s.drawn| && x.index < |s.drawn[x.producer]| && (forall i :: !LiesIn(s, i, x))
    && var c := s.drawn[x.producer][x.index];
       c < |s.threads| && x in Grabbed(s, c) && (s.threads[c].phase.Idle? ==> x in s.threads[c].out)
  }

  lemma TakenGone(s: State, x: Item)
    requires Inv(s) && x.producer < |s.threads| && Sized(s) && x.index < |s.drawn[x.producer]|
    ensures Gone(s, x)
  {
    hide LiesIn, Homes, Owned, Contents, Counts;
    assert x == Item(x.producer, x.index);
    forall i ensures !LiesIn(s, i, x) {
      if LiesIn(s, i, x) {
        LiesWith(s, i, x);
        assert false;
      }
    }
  }

  /**
   By the time a `getAll` returns, every item that lay in a slot when it began has been taken, by it or by another
   consumer, unless the slot's own thread took a turn meanwhile: it may have stolen its queue back to push.
   */
  lemma GetAllTakes(threads: nat, turns: seq<Turn>, more: seq<Turn>, t: nat, i: nat, x: Item)
    requires WholeCall(threads, turns, more, t, GetAll) && LiesIn(Exec(threads, turns), i, x)
    requires x.producer == t || forall k :: 0 <= k < |more| ==> more[k].thread != x.producer
    ensures Gone(Exec(threads, turns + more), x)
  {
    hide Inv, Safe, Step, Exec, Gone, LiesIn;
    RunInv(threads, turns);
    RunInv(threads, turns + more);
    var s0, s := Exec(threads, turns), Exec(threads, turns + more);
    LiesWith(s0, i, x);
    InvSized(s);
    SlotFull(s0, i);
    LiesHere(s0, i, x);
    ClearingRun(threads, turns, more, t, i, |more|);
    assert more[..|more|] == more;
    TakenGone(s, x);
  }

  lemma LiesHere(s: State, i: nat, x: Item)
    requires LiesIn(s, i, x)
    ensures i < |s.slots| && s.slots[i].Ref?
  {
  }

  // ---------------------------------------------------------------- left alone

  /** Only thread `t` takes turns. */
  predicate Alone(more: seq<Turn>, t: nat) {
    forall k :: 0 <= k < |more| ==> more[k].thread == t
  }

  /** Where thread `p` holds its queue, nobody can take anything out of its slot. */
  lemma HeldLeft(s: State, t: nat, op: Op, p: nat)
    requires Inv(s) && Safe(s, t) && p < |s.threads| && p != t && Held(s.threads[p].phase).Ref?
    ensures p < |s.drawn| == |Step(s, t, op).drawn| && Step(s, t, op).drawn[p] == s.drawn[p]
  {
    hide Owned, Contents, Counts, Deliveries;
  }

  /** What was taken from `p` since `s0`, by `t` alone. */
  ghost predicate TookAlone(s0: State, s: State, t: nat, p: nat) {
    && Sized(s0) && Sized(s) && |s.threads| == |s0.threads| && p < |s.threads| && t < |s.threads|
    && s0.drawn[p] <= s.drawn[p] && (forall k :: |s0.drawn[p]| <= k < |s.drawn[p]| ==> s.drawn[p][k] == t)
    && s0.threads[t].out <= s.threads[t].out
    && (p != t ==> s.threads[p] == s0.threads[p] && s.pushed[p] == s0.pushed[p])
    && (p != t && Held(s0.threads[p].phase).Ref? ==> s.drawn[p] == s0.drawn[p])
  }

  lemma TookMore(s0: State, s: State, s': State, t: nat, p: nat)
    requires TookAlone(s0, s, t, p) && Framed(s, s', t, p) && Framed(s, s', t, t)
    requires p != t && Held(s.threads[p].phase).Ref? ==> s'.drawn[p] == s.drawn[p]
    ensures TookAlone(s0, s', t, p)
  {
  }

  lemma {:induction false} AloneRun(threads: nat, turns: seq<Turn>, more: seq<Turn>, t: nat, p: nat)
    requires t < threads <= MaxThreads && p < threads && Alone(more, t)
    ensures TookAlone(Exec(threads, turns), Exec(threads, turns + more), t, p)
  {
    hide Inv, Safe, Step, Exec;
    RunInv(threads, turns);
    var s0 := Exec(threads, turns);
    InvSized(s0);
    if more == [] {
      assert turns + more == turns;
    } else {
      var n := |more| - 1;
      AloneRun(threads, turns, more[..n], t, p);
      ExecStep(threads, turns + more[..n], more[n]);
      assert turns + more[..n] + [more[n]] == turns + more;
      var s := Exec(threads, turns + more[..n]);
      InvSized(Exec(threads, turns + more));
      StepFramed(s, t, more[n].op, p);
      StepFramed(s, t, more[n].op, t);
      if p != t && Held(s.threads[p].phase).Ref? {
        HeldLeft(s, t, more[n].op, p);
      }
      hide TookAlone, Framed;
      TookMore(s0, s, Exec(threads, turns + more), t, p);
    }
  }

  /**
   A `getAll` that no other thread interferes with takes everything that was not taken before from exactly the
   threads that do not hold their queue at that time, in the middle of a call of their own.
   */
  lemma AloneTakes(threads: nat, turns: seq<Turn>, more: seq<Turn>, t: nat, p: nat)
    requires WholeCall(threads, turns, more, t, GetAll) && Alone(more, t) && p < threads
    ensures var s0, s := Exec(threads, turns), Exec(threads, turns + more);
            && TookAlone(s0, s, t, p) && s.pushed[p] == s0.pushed[p]
            && (p == t || Held(s0.threads[p].phase).Null? ==> |s.drawn[p]| == s.pushed[p])
            && (p != t && Held(s0.threads[p].phase).Ref? ==> s.drawn[p] == s0.drawn[p])
  {
    hide Inv, Safe, Step, Exec, HoldsOk;
    var s0, s := Exec(threads, turns), Exec(threads, turns + more);
    AloneRun(threads, turns, more, t, p);
    CallPushes(threads, turns, more, t, GetAll);
    RunInv(threads, turns);
    RunInv(threads, turns + more);
    AtMostPushed(s0, p);
    AtMostPushed(s, p);
    if (p == t || Held(s0.threads[p].phase).Null?) && s0.threads[p].home.Ref? {
      var i := s0.threads[p].home.id;
      HomeSlot(s0, p);
      ClearingRun(threads, turns, more, t, i, |more|);
      assert more[..|more|] == more;
    }
  }

  lemma AtMostPushed(s: State, p: nat)
    requires Inv(s) && p < |s.threads|
    ensures Sized(s) && |s.drawn[p]| <= s.pushed[p] && (s.threads[p].home.Null? ==> |s.drawn[p]| == s.pushed[p])
  {
    hide Owned, Contents, Counts, Deliveries, Homes;
    HoldsOf(s, p);
  }

  lemma HomeSlot(s: State, p: nat)
    requires Inv(s) && p < |s.threads| && s.threads[p].home.Ref? && Held(s.threads[p].phase).Null?
    ensures Sized(s)
    ensures var i := s.threads[p].home.id; i < s.counter && s.owner[i] == p && s.slots[i].Ref?
  {
    hide Owned, Contents, Counts, Deliveries;
    SlotCounted(s, p);
  }

  /** The history decides what an idle thread has received, and it received nothing twice. */
  lemma Received(s: State, t: nat, x: Item)
    requires Inv(s) && t < |s.threads| && s.threads[t].phase.Idle?
    ensures Sized(s)
    ensures x in s.threads[t].out <==>
            x.producer < |s.threads| && x.index < |s.drawn[x.producer]| && s.drawn[x.producer][x.index] == t
    ensures forall a, b :: 0 <= a < b < |s.threads[t].out| ==> s.threads[t].out[a] != s.threads[t].out[b]
  {
    hide Homes, Owned, Contents, Counts;
    assert Grabbed(s, t) == s.threads[t].out;
    assert InPushOrder(Grabbed(s, t)) && TakenBy(Grabbed(s, t), s.drawn, t);
    assert x == Item(x.producer, x.index);
  }

  /** Not taken in `s0`, and in the slot of a thread other than `t` or with `t` itself. */
  predicate Available(s0: State, t: nat, x: Item) {
    && IsPushed(s0, x) && x.producer < |s0.drawn| && x.producer < |s0.threads|
    && |s0.drawn[x.producer]| <= x.index && (x.producer == t || Held(s0.threads[x.producer].phase).Null?)
  }

  /** What the caller receives from an undisturbed `getAll`: each item that was available, once, and nothing else. */
  lemma AloneReceives(threads: nat, turns: seq<Turn>, more: seq<Turn>, t: nat, x: Item)
    requires WholeCall(threads, turns, more, t, GetAll) && Alone(more, t)
    ensures var s0, s := Exec(threads, turns), Exec(threads, turns + more);
            && t < |s.threads| == |s0.threads| && s0.threads[t].out <= s.threads[t].out
            && var received := s.threads[t].out[|s0.threads[t].out|..];
               && (x in received <==> Available(s0, t, x))
               && forall a, b :: 0 <= a < b < |received| ==> received[a] != received[b]
  {
    hide Inv, Safe, Step, Exec;
    var s0, s := Exec(threads, turns), Exec(threads, turns + more);
    RunInv(threads, turns);
    RunInv(threads, turns + more);
    AloneTakes(threads, turns, more, t, t);
    Received(s0, t, x);
    Received(s, t, x);
    if x.producer < threads {
      AloneTakes(threads, turns, more, t, x.producer);
    }
    hide OneCall;
    NewOnly(s0.threads[t].out, s.threads[t].out, x);
  }

  lemma NewOnly(out: seq<Item>, out': seq<Item>, x: Item)
    requires out <= out' && forall a, b :: 0 <= a < b < |out'| ==> out'[a] != out'[b]
    ensures x in out'[|out|..] <==> x in out' && x !in out
  {
    if x in out'[|out|..] {
      var k :| 0 <= k < |out'[|out|..]| && out'[|out|..][k] == x;
      assert out'[|out| + k] == x;
    }
    if x in out' && x !in out {
      var k :| 0 <= k < |out'| && out'[k] == x;
      assert k >= |out| && out'[|out|..][k - |out|] == x;
    }
  }

  /** With every other thread idle, it leaves every slot empty and the count at zero. */
  lemma AloneEmpties(threads: nat, turns: seq<Turn>, more: seq<Turn>, t: nat)
    requires WholeCall(threads, turns, more, t, GetAll) && Alone(more, t)
    requires forall p :: 0 <= p < threads ==> PhaseIn(Exec(threads, turns), p).Idle?
    ensures var s := Exec(threads, turns + more);
            && s.numItems == 0 && (forall i, x :: !LiesIn(s, i, x))
            && |s.drawn| == |s.pushed| == threads && forall p :: 0 <= p < threads ==> |s.drawn[p]| == s.pushed[p]
  {
    hide Inv, Safe, Step, Exec, LiesIn, SlotSize;
    var s0, s := Exec(threads, turns), Exec(threads, turns + more);
    RunInv(threads, turns);
    RunInv(threads, turns + more);
    InvSized(s);
    forall p | 0 <= p < threads ensures |s.drawn[p]| == s.pushed[p] && s.threads[p].phase.Idle? {
      assert PhaseIn(s0, p).Idle?;
      AloneTakes(threads, turns, more, t, p);
    }
    hide OneCall;
    forall i, x ensures !LiesIn(s, i, x) {
      if LiesIn(s, i, x) {
        LiesWith(s, i, x);
        assert false;
      }
    }
    forall i | 0 <= i < |s.slots| ensures SlotSize(s, i) == 0 {
      NothingIn(s, i);
    }
    SumZero(SlotSizes(s));
    SizeCoversSlots(threads, turns + more);
  }

  lemma NothingIn(s: State, i: nat)
    requires i < |s.slots| && forall x :: !LiesIn(s, i, x)
    ensures SlotSize(s, i) == 0
  {
    if s.slots[i].Ref? && s.slots[i].id < |s.heap| && s.heap[s.slots[i].id] != [] {
      assert LiesIn(s, i, s.heap[s.slots[i].id][0]);
    }
  }

  // ---------------------------------------------------------------- a call left alone returns

  /** What the thread read last is still what is there, so that its compare-and-swap will succeed. */
  ghost predicate Undisputed(s: State, t: nat)
    requires t < |s.threads|
  {
    var th := s.threads[t];
    match th.phase
    case StealCas(_, seen) => th.home.Ref? && th.home.id < |s.slots| && s.slots[th.home.id] == seen
    case VisitCas(_, i, _, _, found) => i < |s.slots| && s.slots[i] == Ref(found)
    case ReturnCas(_, _, _, seen) => th.home.Ref? && th.home.id < |s.slots| && s.slots[th.home.id] == seen
    case _ => true
  }

  /** Stages of a call, items or slots to go within the stage, and items to go for the slot. */
  function StageOf(ph: Phase): nat {
    match ph
    case Idle => 0
    case Settle(_) => 1
    case ReturnCas(_, _, _, _) => 2
    case ReturnLoad(_, _, _) => 3
    case Visit(_, _, _, _) => 4
    case VisitCas(_, _, _, _, _) => 4
    case DrainSlot(_, _, _, _) => 4
    case DrainOwn(_, _) => 5
    case Filling(_, _, _, _) => 5
    case StealCas(_, _) => 6
    case StealLoad(_) => 7
    case Numbered(_, _, _) => 8
    case Allocated(_, _) => 9
  }

  function ToGo(ph: Phase): int {
    match ph
    case Visit(_, i, c, _) => 3 * (c - i) + 2
    case VisitCas(_, i, c, _, _) => 3 * (c - i) + 1
    case DrainSlot(_, i, c, _) => 3 * (c - i)
    case Filling(_, _, left, due) => left + if due > 0 then 1 else 0
    case _ => 0
  }

  function ToPop(s: State, t: nat): nat
    requires t < |s.threads|
  {
    var ph := s.threads[t].phase;
    if Draining(ph) && ph.q < |s.heap| then |s.heap[ph.q]| else 0
  }

  /** The call in `s'` is nearer to its end than in `s`. */
  ghost predicate IsNearer(s: State, s': State, t: nat) {
    && t < |s.threads| == |s'.threads| && Undisputed(s', t)
    && var ph, ph' := s.threads[t].phase, s'.threads[t].phase;
       && ToGo(ph) >= 0 && ToGo(ph') >= 0
       && (|| StageOf(ph') < StageOf(ph)
           || (StageOf(ph') == StageOf(ph) && ToGo(ph') < ToGo(ph))
           || (StageOf(ph') == StageOf(ph) && ToGo(ph') == ToGo(ph) && ToPop(s', t) < ToPop(s, t)))
  }

  lemma Nearer(s: State, t: nat, op: Op)
    requires Safe(s, t) && Undisputed(s, t) && !s.threads[t].phase.Idle?
    ensures IsNearer(s, Step(s, t, op), t)
  {
    hide Step, IsNearer, Undisputed;
    var ph := s.threads[t].phase;
    if Draining(ph) {
      DrainNearer(s, t, op);
    } else if ph.Filling? {
      FillNearer(s, t, op);
    } else if ph.Visit? || ph.VisitCas? {
      VisitNearer(s, t, op);
    } else {
      SwapNearer(s, t, op);
    }
  }

  lemma DrainNearer(s: State, t: nat, op: Op)
    requires Safe(s, t) && Draining(s.threads[t].phase)
    ensures IsNearer(s, Step(s, t, op), t)
  {
  }

  lemma FillNearer(s: State, t: nat, op: Op)
    requires Safe(s, t) && s.threads[t].phase.Filling?
    ensures IsNearer(s, Step(s, t, op), t)
  {
  }

  lemma VisitNearer(s: State, t: nat, op: Op)
    requires Safe(s, t) && (s.threads[t].phase.Visit? || s.threads[t].phase.VisitCas?) && Undisputed(s, t)
    ensures IsNearer(s, Step(s, t, op), t)
  {
  }

  lemma SwapNearer(s: State, t: nat, op: Op)
    requires Safe(s, t) && Undisputed(s, t)
    requires var ph := s.threads[t].phase;
             !Draining(ph) && !ph.Filling? && !ph.Visit? && !ph.VisitCas? && !ph.Idle?
    ensures IsNearer(s, Step(s, t, op), t)
  {
  }

  lemma CallGoesOn(threads: nat, turns: seq<Turn>, more: seq<Turn>, t: nat, op: Op, turn: Turn)
    requires OneCall(threads, turns, more, t, op) && !PhaseIn(Exec(threads, turns + more), t).Idle?
    ensures OneCall(threads, turns, more + [turn], t, op)
  {
    hide Exec;
    var more' := more + [turn];
    forall k | 0 < k < |more'| ensures !PhaseIn(Exec(threads, turns + more'[..k]), t).Idle? {
      assert more'[..k] == if k < |more| then more[..k] else more;
    }
  }

  /** The rest of a call that is left alone, as turns of its thread. */
  lemma {:induction false} Completed(threads: nat, turns: seq<Turn>, more: seq<Turn>, t: nat, op: Op)
    returns (whole: seq<Turn>)
    requires OneCall(threads, turns, more, t, op)
    requires |Exec(threads, turns + more).threads| == threads && Undisputed(Exec(threads, turns + more), t)
    requires Inv(Exec(threads, turns + more)) && ToGo(PhaseIn(Exec(threads, turns + more), t)) >= 0
    ensures WholeCall(threads, turns, whole, t, op) && more <= whole && Alone(whole[|more|..], t)
    decreases StageOf(PhaseIn(Exec(threads, turns + more), t)), ToGo(PhaseIn(Exec(threads, turns + more), t)),
              ToPop(Exec(threads, turns + more), t)
  {
    hide Inv, Safe, Step, Exec, Undisputed, StageOf, ToGo, ToPop;
    var s := Exec(threads, turns + more);
    if s.threads[t].phase.Idle? {
      whole := more;
    } else {
      var turn := Turn(t, op);
      ExecStep(threads, turns + more, turn);
      assert turns + more + [turn] == turns + (more + [turn]);
      CallGoesOn(threads, turns, more, t, op, turn);
      Nearer(s, t, op);
      whole := Completed(threads, turns, more + [turn], t, op);
    }
  }

  /** In any state that runs can reach, a call that is left alone returns. */
  lemma CallReturns(threads: nat, turns: seq<Turn>, t: nat, op: Op)
    requires t < threads <= MaxThreads && PhaseIn(Exec(threads, turns), t).Idle?
    ensures exists whole :: WholeCall(threads, turns, whole, t, op) && Alone(whole, t)
  {
    hide Inv, Safe, Step, Exec, Undisputed, StageOf, ToGo, ToPop, WholeCall;
    var s, turn := Exec(threads, turns), Turn(t, op);
    RunInv(threads, turns);
    ExecStep(threads, turns, turn);
    Begun(s, t, op);
    var whole := Completed(threads, turns, [turn], t, op);
    assert whole == [turn] + whole[1..];
  }

  lemma Begun(s: State, t: nat, op: Op)
    requires Safe(s, t) && s.threads[t].phase.Idle?
    ensures var s' := Step(s, t, op); |s'.threads| == |s.threads| && Undisputed(s', t) && ToGo(PhaseIn(s', t)) >= 0
  {
  }

  // ---------------------------------------------------------------- why the producer must not take a turn

  /** Thread `p` steals its queue, to push. */
  function StealsBack(p: nat): seq<Turn> {
    [Turn(p, Push), Turn(p, Push), Turn(p, Push)]
  }

  /** The three steps of an idle thread that lead to its queue in its hands. */
  lemma StealSteps(s: State, p: nat)
    requires Inv(s) && p < |s.threads| && s.threads[p].phase.Idle? && s.threads[p].home.Ref?
    ensures Safe(s, p)
    ensures var s1 := Step(s, p, Push);
            && Inv(s1) && p < |s1.threads| && Safe(s1, p) && s1.drawn == s.drawn
            && var s2 := Step(s1, p, Push);
               && Inv(s2) && p < |s2.threads| && Safe(s2, p) && s2.drawn == s.drawn
               && var s3 := Step(s2, p, Push);
                  && Inv(s3) && p < |s3.threads| && s3.drawn == s.drawn && Held(s3.threads[p].phase).Ref?
  {
    hide Inv;
    StepInv(s, p, Push);
    var s1 := Step(s, p, Push);
    StepInv(s1, p, Push);
    var s2 := Step(s1, p, Push);
    StepInv(s2, p, Push);
  }

  lemma ExecSteals(threads: nat, turns: seq<Turn>, p: nat)
    requires threads <= MaxThreads && p < threads
    requires PhaseIn(Exec(threads, turns), p).Idle?
    requires |Exec(threads, turns).threads| == threads && Exec(threads, turns).threads[p].home.Ref?
    ensures var s, s' := Exec(threads, turns), Exec(threads, turns + StealsBack(p));
            && |s'.threads| == threads && s'.drawn == s.drawn && Held(s'.threads[p].phase).Ref?
  {
    hide Inv, Safe, Step, Exec;
    var turn := Turn(p, Push);
    RunInv(threads, turns);
    StealSteps(Exec(threads, turns), p);
    ExecStep(threads, turns, turn);
    ExecStep(threads, turns + [turn], turn);
    ExecStep(threads, turns + [turn] + [turn], turn);
    assert turns + [turn] + [turn] + [turn] == turns + StealsBack(p);
  }

  /**
   The condition of `GetAllTakes` is needed in every state: if the producer of an item is idle and begins to push once
   the consumer has begun, the item may still be with the producer when the consumer returns.
   */
  lemma ProducerKeeps(threads: nat, turns: seq<Turn>, t: nat, i: nat, x: Item)
    requires t < threads <= MaxThreads && PhaseIn(Exec(threads, turns), t).Idle?
    requires LiesIn(Exec(threads, turns), i, x) && x.producer != t && PhaseIn(Exec(threads, turns), x.producer).Idle?
    ensures exists more :: WholeCall(threads, turns, more, t, GetAll) && !Gone(Exec(threads, turns + more), x)
  {
    hide Inv, Safe, Step, Exec, Undisputed, StageOf, ToGo, ToPop, LiesIn, TookAlone;
    var p, first := x.producer, Turn(t, GetAll);
    var s0 := Exec(threads, turns);
    RunInv(threads, turns);
    LiesWith(s0, i, x);
    InvSized(s0);
    OwnSlot(s0, i);
    ExecStep(threads, turns, first);
    Begun(s0, t, GetAll);
    StartPushing(s0, t, GetAll);
    var s1 := Exec(threads, turns + [first]);
    InvSized(s1);
    StepFramed(s0, t, GetAll, p);
    StartTakes(s0, t);
    ExecSteals(threads, turns + [first], p);
    var begun := [first] + StealsBack(p);
    assert turns + [first] + StealsBack(p) == turns + begun;
    BegunStill(threads, turns, t, p);
    var whole := Completed(threads, turns, begun, t, GetAll);
    var rest := whole[|begun|..];
    assert whole == begun + rest && turns + whole == turns + begun + rest;
    AloneRun(threads, turns + begun, rest, t, p);
    KeptAlone(Exec(threads, turns + begun), Exec(threads, turns + whole), t, p);
    RunInv(threads, turns + whole);
  }

  lemma KeptAlone(s0: State, s: State, t: nat, p: nat)
    requires TookAlone(s0, s, t, p) && p != t && Held(s0.threads[p].phase).Ref?
    ensures p < |s.drawn| && p < |s0.drawn| && s.drawn[p] == s0.drawn[p]
  {
  }

  lemma OwnSlot(s: State, i: nat)
    requires Inv(s) && i < s.counter && i < |s.owner| && s.owner[i] < |s.threads|
    requires s.threads[s.owner[i]].phase.Idle?
    ensures s.threads[s.owner[i]].home.Ref?
  {
    hide Owned, Contents, Counts, Deliveries;
    assert SlotOf(s.threads[s.owner[i]]) == Ref(i);
  }

  lemma StartTakes(s: State, t: nat)
    requires Safe(s, t) && s.threads[t].phase.Idle?
    ensures Step(s, t, GetAll).drawn == s.drawn
  {
  }

  /** The consumer that has taken its first step stands where it stood, once the producer has its queue. */
  lemma BegunStill(threads: nat, turns: seq<Turn>, t: nat, p: nat)
    requires t < threads <= MaxThreads && p < threads && p != t && PhaseIn(Exec(threads, turns), t).Idle?
    ensures var begun := [Turn(t, GetAll)] + StealsBack(p);
            && OneCall(threads, turns, begun, t, GetAll)
            && var s := Exec(threads, turns + begun);
               Inv(s) && |s.threads| == threads && Undisputed(s, t) && ToGo(PhaseIn(s, t)) >= 0
  {
    hide Inv, Safe, Step, Exec;
    var first := Turn(t, GetAll);
    RunInv(threads, turns);
    ExecStep(threads, turns, first);
    StartPushing(Exec(threads, turns), t, GetAll);
    Waits(Exec(threads, turns), t);
    var begun := [first] + StealsBack(p);
    forall k | 0 < k <= |begun|
      ensures var s := Exec(threads, turns + begun[..k]);
              Inv(s) && |s.threads| == threads && s.threads[t] == Exec(threads, turns + [first]).threads[t]
    {
      StillRun(threads, turns + [first], begun[1..k], t);
      assert turns + [first] + begun[1..k] == turns + begun[..k];
    }
    assert begun[..|begun|] == begun;
  }

  lemma Waits(s: State, t: nat)
    requires Safe(s, t) && s.threads[t].phase.Idle?
    ensures var ph := PhaseIn(Step(s, t, GetAll), t); ph.Allocated? || ph.StealLoad?
  {
  }
}
