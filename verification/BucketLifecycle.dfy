/**
 Bucket deletion and global shutdown in the bucket engine. Client calls, bucket deletions, the shutdown threads
 they start and one global shutdown interleave between critical sections; each event below is one of them.
 Reference counts are not modelled: a shutdown thread may stop waiting for references at any moment.
 */
module BucketLifecycle {
  import opened Sums

  datatype BucketState = Running | StopRequested | Stopping | Stopped

  /** Where a shutdown thread stands. */
  datatype Phase =
    | Spawned     // about to look at the global shutdown
    | Skipped     // gave way to the global shutdown
    | Entered     // counted by the global shutdown
    | Checked     // past the sanity check, about to destroy the engine
    | Destroyed   // about to clear the engine pointer
    | Cleared     // about to unlink the bucket
    | Unlinked    // about to report the bucket as stopped
    | Waiting     // for the references to go away
    | Leaving     // about to free the handle
    | Freed       // about to be discounted
    | Finished

  /** `inside`, `destroyed` and `swept` are history: the calls inside the engine, and how often it was destroyed. */
  datatype Handle = Handle(name: string, state: BucketState, clients: int, engine: bool, threads: seq<Phase>,
                           inside: set<nat>, destroyed: nat, swept: bool, unlinked: bool)

  /** Stage of `bucket_destroy`; while sweeping, the names still to visit. */
  datatype Stage = NotCalled | Awaiting | Sweeping(rest: set<string>) | Done

  datatype State = State(handles: seq<Handle>, table: map<string, nat>, inProgress: bool, counter: int, stage: Stage)

  datatype Event =
    | Create(name: string)
    | Enter(h: nat, call: nat)
    | Leave(h: nat, call: nat)
    | Drop(h: nat)
    | RequestStop(h: nat)
    | Advance(h: nat, k: nat)
    | Shutdown
    | BeginSweep
    | Sweep(name: string)
    | EndSweep

  function Init(): State {
    State([], map[], false, 0, NotCalled)
  }

  // ---------------------------------------------------------------- critical sections

  /** `maybe_start_engine_shutdown_LOCKED` */
  function MaybeStart(hd: Handle): Handle {
    if hd.clients == 0 && hd.state.StopRequested? then hd.(state := Stopping, threads := hd.threads + [Spawned]) else hd
  }

  /** `get_engine_handle` and `try_get_engine_handle`; the call is inside if the bucket was running. */
  function EnterHandle(hd: Handle, call: nat): Handle {
    if hd.state.Running? then hd.(clients := hd.clients + 1, inside := hd.inside + {call}) else hd
  }

  /** `release_engine_handle` */
  function LeaveHandle(hd: Handle, call: nat): Handle {
    MaybeStart(hd.(clients := hd.clients - 1, inside := hd.inside - {call}))
  }

  /** The critical section of `handle_delete_bucket`: drops the main reference, then its own. */
  function Stop(hd: Handle): Handle {
    MaybeStart(if hd.state.Running? then MaybeStart(hd.(state := StopRequested)) else hd)
  }

  /** Between counting itself and discounting itself. */
  predicate Active(ph: Phase) {
    !ph.Spawned? && !ph.Skipped? && !ph.Finished?
  }

  function Next(ph: Phase, inProgress: bool): Phase {
    match ph
    case Spawned => if inProgress then Skipped else Entered
    case Skipped => Skipped
    case Entered => Checked
    case Checked => Destroyed
    case Destroyed => Cleared
    case Cleared => Unlinked
    case Unlinked => Waiting
    case Waiting => Leaving
    case Leaving => Freed
    case Freed => Finished
    case Finished => Finished
  }

  /** What one step of `engine_shutdown_thread` does to its handle. */
  function Stepped(hd: Handle, k: nat, inProgress: bool): Handle
    requires k < |hd.threads|
  {
    var ph := hd.threads[k];
    var hd' := hd.(threads := hd.threads[k := Next(ph, inProgress)]);
    match ph
    case Checked => hd'.(destroyed := hd.destroyed + 1)
    case Destroyed => hd'.(engine := false)
    case Cleared => hd'.(unlinked := true)
    case Unlinked => hd'.(state := Stopped)
    case _ => hd'
  }

  function AdvanceThread(s: State, h: nat, k: nat): State
    requires h < |s.handles| && k < |s.handles[h].threads|
  {
    var ph := s.handles[h].threads[k];
    s.(handles := s.handles[h := Stepped(s.handles[h], k, s.inProgress)],
       counter := if ph.Spawned? && !s.inProgress then s.counter + 1
                  else if ph.Freed? then s.counter - 1 else s.counter,
       table := if ph.Cleared? then map n | n in s.table && n != s.handles[h].name :: s.table[n] else s.table)
  }

  /** `bucket_shutdown_engine` on one entry of the table. */
  function SweepOne(hd: Handle): Handle {
    if hd.engine then hd.(destroyed := hd.destroyed + 1, swept := true) else hd
  }

  predicate Enabled(s: State, e: Event) {
    match e
    case Create(_) => s.stage.NotCalled? || s.stage.Awaiting?
    case Enter(h, call) => h < |s.handles| && call !in s.handles[h].inside
    case Leave(h, call) => h < |s.handles| && call in s.handles[h].inside
    case Drop(h) => h < |s.handles|
    case RequestStop(h) => h < |s.handles|
    case Advance(h, k) => h < |s.handles| && k < |s.handles[h].threads|
    case Shutdown => s.stage.NotCalled?
    case BeginSweep => s.stage.Awaiting? && s.counter == 0
    case Sweep(name) => s.stage.Sweeping? && name in s.stage.rest && name in s.table && s.table[name] < |s.handles|
    case EndSweep => s.stage.Sweeping? && s.stage.rest == {}
  }

  function Apply(s: State, e: Event): State
    requires Enabled(s, e)
  {
    match e
    case Create(name) =>
      if name in s.table then s
      else s.(handles := s.handles + [Handle(name, Running, 0, true, [], {}, 0, false, false)],
              table := s.table[name := |s.handles|])
    case Enter(h, call) => s.(handles := s.handles[h := EnterHandle(s.handles[h], call)])
    case Leave(h, call) => s.(handles := s.handles[h := LeaveHandle(s.handles[h], call)])
    case Drop(h) => s.(handles := s.handles[h := MaybeStart(s.handles[h])])
    case RequestStop(h) => s.(handles := s.handles[h := Stop(s.handles[h])])
    case Advance(h, k) => AdvanceThread(s, h, k)
    case Shutdown => s.(inProgress := true, stage := Awaiting)
    case BeginSweep => s.(stage := Sweeping(s.table.Keys))
    case Sweep(name) =>
      s.(handles := s.handles[s.table[name] := SweepOne(s.handles[s.table[name]])],
          stage := Sweeping(s.stage.rest - {name}))
    case EndSweep => s.(stage := Done)
  }

  // ---------------------------------------------------------------- the invariant

  /** The engine has been destroyed by its shutdown thread. */
  predicate ByThread(hd: Handle) {
    |hd.threads| == 1 && (hd.threads[0].Destroyed? || hd.threads[0].Cleared? || Past(hd.threads[0]))
  }

  /** The thread has unlinked the bucket. */
  predicate Past(ph: Phase) {
    ph.Unlinked? || ph.Waiting? || ph.Leaving? || ph.Freed? || ph.Finished?
  }

  predicate HandleOk(hd: Handle) {
    && hd.clients == |hd.inside|
    && (hd.state.Running? || hd.state.StopRequested? ==> hd.threads == [])
    && (hd.state.StopRequested? ==> hd.inside != {})
    && (hd.state.Stopping? || hd.state.Stopped? ==> |hd.threads| == 1 && hd.inside == {})
    && (hd.state.Stopped? <==> |hd.threads| == 1 && Past(hd.threads[0]) && !hd.threads[0].Unlinked?)
    && (hd.unlinked <==> |hd.threads| == 1 && Past(hd.threads[0]))
    && (hd.engine <==> !(hd.unlinked || (|hd.threads| == 1 && hd.threads[0].Cleared?)))
    && hd.destroyed == (if ByThread(hd) then 1 else 0) + (if hd.swept then 1 else 0)
    && (hd.swept ==> !ByThread(hd))
  }

  function ActiveIn(hd: Handle): int {
    if |hd.threads| == 1 && Active(hd.threads[0]) then 1 else 0
  }

  function Actives(s: State): (f: seq<int>)
    ensures |f| == |s.handles| && forall h :: 0 <= h < |f| ==> f[h] == ActiveIn(s.handles[h])
  {
    seq(|s.handles|, h requires 0 <= h < |s.handles| => ActiveIn(s.handles[h]))
  }

  /** The table holds exactly the buckets that are not unlinked, each under its own name. */
  ghost predicate TableOk(s: State) {
    && (forall n :: n in s.table ==>
          s.table[n] < |s.handles| && s.handles[s.table[n]].name == n && !s.handles[s.table[n]].unlinked)
    && (forall h :: 0 <= h < |s.handles| && !s.handles[h].unlinked ==>
        s.handles[h].name in s.table && s.table[s.handles[h].name] == h)
  }

  ghost predicate StageOk(s: State) {
    && (s.inProgress <==> !s.stage.NotCalled?)
    && match s.stage {
         case NotCalled => forall h :: 0 <= h < |s.handles| ==> !s.handles[h].swept
         case Awaiting => forall h :: 0 <= h < |s.handles| ==> !s.handles[h].swept
         case Sweeping(rest) => s.counter == 0 && rest <= s.table.Keys
           && forall h :: 0 <= h < |s.handles| && !s.handles[h].unlinked ==>
               (s.handles[h].swept <==> s.handles[h].name !in rest)
         case Done => s.counter == 0
           && forall h :: 0 <= h < |s.handles| && !s.handles[h].unlinked ==> s.handles[h].swept
       }
  }

  ghost predicate Inv(s: State) {
    && (forall h :: 0 <= h < |s.handles| ==> HandleOk(s.handles[h]))
    && TableOk(s) && StageOk(s) && s.counter == Sum(Actives(s))
  }

  // ---------------------------------------------------------------- the invariant is kept

  /** A critical section of one handle that neither counts threads nor touches the table. */
  lemma HandleStep(s: State, h: nat, hd: Handle)
    requires Inv(s) && h < |s.handles| && HandleOk(hd) && ActiveIn(hd) == ActiveIn(s.handles[h])
    requires hd.name == s.handles[h].name && hd.swept == s.handles[h].swept && hd.unlinked == s.handles[h].unlinked
    ensures Inv(s.(handles := s.handles[h := hd]))
  {
    hide HandleOk, ActiveIn;
    var s' := s.(handles := s.handles[h := hd]);
    assert Actives(s') == Actives(s);
  }

  /** The critical section that a client or a deletion runs on a handle. */
  function Called(hd: Handle, e: Event): Handle {
    match e
    case Enter(_, call) => EnterHandle(hd, call)
    case Leave(_, call) => LeaveHandle(hd, call)
    case Drop(_) => MaybeStart(hd)
    case _ => Stop(hd)
  }

  lemma CalledOk(hd: Handle, e: Event)
    requires HandleOk(hd) && (e.Enter? ==> e.call !in hd.inside) && (e.Leave? ==> e.call in hd.inside)
    ensures HandleOk(Called(hd, e)) && ActiveIn(Called(hd, e)) == ActiveIn(hd)
    ensures var hd' := Called(hd, e); hd'.name == hd.name && hd'.swept == hd.swept && hd'.unlinked == hd.unlinked
  {
  }

  lemma {:induction false} NoneActive(f: seq<int>, h: nat)
    requires (forall i :: 0 <= i < |f| ==> 0 <= f[i]) && Sum(f) == 0 && h < |f|
    ensures f[h] == 0
  {
    SumAtLeast(f[..|f| - 1]);
    if h < |f| - 1 {
      NoneActive(f[..|f| - 1], h);
    }
  }

  /** Once the global shutdown waits no longer, no shutdown thread is at work. */
  lemma QuietAfterWait(s: State, h: nat)
    requires Inv(s) && s.counter == 0 && h < |s.handles|
    ensures ActiveIn(s.handles[h]) == 0
  {
    NoneActive(Actives(s), h);
  }

  lemma AdvanceInv(s: State, h: nat, k: nat)
    requires Inv(s) && h < |s.handles| && k < |s.handles[h].threads|
    ensures Inv(AdvanceThread(s, h, k))
  {
    hide StageOk, TableOk, Stepped;
    OneThread(s, h);
    AdvanceHandle(s.handles[h], s.inProgress);
    AdvanceTable(s, h);
    AdvanceCount(s, h);
    AdvanceStage(s, h);
    hide HandleOk;
  }

  lemma OneThread(s: State, h: nat)
    requires Inv(s) && h < |s.handles| && s.handles[h].threads != []
    ensures |s.handles[h].threads| == 1
    ensures (!s.inProgress ==> !s.handles[h].swept) && (s.handles[h].swept ==> !Active(s.handles[h].threads[0]))
  {
    assert HandleOk(s.handles[h]);
    if s.counter == 0 {
      QuietAfterWait(s, h);
    }
  }

  lemma AdvanceCount(s: State, h: nat)
    requires h < |s.handles| && |s.handles[h].threads| == 1 && s.counter == Sum(Actives(s))
    ensures var s' := AdvanceThread(s, h, 0); s'.counter == Sum(Actives(s'))
  {
    AdvanceActive(s.handles[h], s.inProgress);
    hide Stepped, ActiveIn;
    SumChange(Actives(s), Actives(AdvanceThread(s, h, 0)), h);
  }

  lemma AdvanceActive(hd: Handle, inProgress: bool)
    requires |hd.threads| == 1
    ensures ActiveIn(Stepped(hd, 0, inProgress)) - ActiveIn(hd)
         == if hd.threads[0].Spawned? && !inProgress then 1 else if hd.threads[0].Freed? then -1 else 0
  {
  }

  lemma AdvanceStage(s: State, h: nat)
    requires Inv(s) && h < |s.handles| && |s.handles[h].threads| == 1
    ensures StageOk(AdvanceThread(s, h, 0))
  {
    hide HandleOk;
    if s.counter == 0 {
      QuietAfterWait(s, h);
    }
  }

  lemma AdvanceHandle(hd: Handle, inProgress: bool)
    requires HandleOk(hd) && |hd.threads| == 1 && (!inProgress ==> !hd.swept) && (hd.swept ==> !Active(hd.threads[0]))
    ensures HandleOk(Stepped(hd, 0, inProgress))
  {
  }

  lemma AdvanceTable(s: State, h: nat)
    requires TableOk(s) && h < |s.handles| && HandleOk(s.handles[h]) && |s.handles[h].threads| == 1
    ensures TableOk(AdvanceThread(s, h, 0))
  {
  }

  lemma SweepInv(s: State, name: string)
    requires Inv(s) && Enabled(s, Sweep(name))
    ensures Inv(Apply(s, Sweep(name)))
  {
    var h := s.table[name];
    QuietAfterWait(s, h);
    var hd := s.handles[h];
    SweptOk(hd);
    var s' := Apply(s, Sweep(name));
    assert HandleOk(hd) && hd.engine;
    assert Actives(s') == Actives(s);
    hide HandleOk, ActiveIn;
  }

  lemma SweptOk(hd: Handle)
    requires HandleOk(hd) && !hd.unlinked && !hd.swept && ActiveIn(hd) == 0
    ensures HandleOk(SweepOne(hd)) && hd.engine
  {
  }

  lemma CreateInv(s: State, name: string)
    requires Inv(s) && Enabled(s, Create(name))
    ensures Inv(Apply(s, Create(name)))
  {
    var s' := Apply(s, Create(name));
    if name !in s.table {
      assert Actives(s')[..|s.handles|] == Actives(s);
    }
    hide HandleOk, ActiveIn;
  }

  lemma StageInv(s: State, e: Event)
    requires Inv(s) && Enabled(s, e) && (e.Shutdown? || e.BeginSweep? || e.EndSweep?)
    ensures Inv(Apply(s, e))
  {
    hide HandleOk, ActiveIn;
    assert Actives(Apply(s, e)) == Actives(s);
  }

  lemma CallInv(s: State, e: Event)
    requires Inv(s) && Enabled(s, e) && (e.Enter? || e.Leave? || e.Drop? || e.RequestStop?)
    ensures Inv(Apply(s, e))
  {
    hide TableOk, StageOk, HandleOk, ActiveIn;
    CalledOk(s.handles[e.h], e);
    HandleStep(s, e.h, Called(s.handles[e.h], e));
  }

  lemma StepInv(s: State, e: Event)
    requires Inv(s) && Enabled(s, e)
    ensures Inv(Apply(s, e))
  {
    hide Inv;
    if e.Create? {
      CreateInv(s, e.name);
    } else if e.Advance? {
      AdvanceInv(s, e.h, e.k);
    } else if e.Sweep? {
      SweepInv(s, e.name);
    } else if e.Enter? || e.Leave? || e.Drop? || e.RequestStop? {
      CallInv(s, e);
    } else {
      StageInv(s, e);
    }
  }

  // ---------------------------------------------------------------- every run

  /** The state after a sequence of events, in any interleaving; events that cannot happen are ignored. */
  function Exec(es: seq<Event>): State {
    if es == [] then Init()
    else
      var s, e := Exec(es[..|es| - 1]), es[|es| - 1];
      if Enabled(s, e) then Apply(s, e) else s
  }

  lemma {:induction false} RunInv(es: seq<Event>)
    ensures Inv(Exec(es))
  {
    if es != [] {
      RunInv(es[..|es| - 1]);
      hide Inv, Enabled, Apply;
      var s, e := Exec(es[..|es| - 1]), es[|es| - 1];
      if Enabled(s, e) {
        StepInv(s, e);
      }
    }
  }

  /** No engine is destroyed twice, and after the global shutdown every one that was ever created is destroyed. */
  lemma DestroyedExactlyOnce(es: seq<Event>, h: nat)
    requires h < |Exec(es).handles|
    ensures Exec(es).handles[h].destroyed <= 1
    ensures Exec(es).stage.Done? ==> Exec(es).handles[h].destroyed == 1
  {
    hide TableOk, Exec;
    RunInv(es);
    var s := Exec(es);
    assert HandleOk(s.handles[h]);
  }

  /** A thread destroys its engine before it is discounted, or it gives way and the global shutdown does. */
  lemma WhoDestroys(es: seq<Event>, h: nat)
    requires h < |Exec(es).handles| && Exec(es).stage.Done?
    ensures var s := Exec(es);
            && s.counter == 0 && |s.handles[h].threads| <= 1
            && (s.handles[h].swept <==> !(s.handles[h].threads == [Finished]))
            && (s.handles[h].swept <==> s.handles[h].name in s.table && s.table[s.handles[h].name] == h)
  {
    hide Exec;
    RunInv(es);
    var s := Exec(es);
    assert HandleOk(s.handles[h]);
    QuietAfterWait(s, h);
  }

  /** At most one shutdown thread per bucket, and a stop request is never left without one when no call is inside. */
  lemma OneShutdownThread(es: seq<Event>, h: nat)
    requires h < |Exec(es).handles|
    ensures var hd := Exec(es).handles[h];
            && |hd.threads| <= 1 && hd.clients == |hd.inside|
            && (hd.threads != [] <==> hd.state.Stopping? || hd.state.Stopped?)
            && (hd.state.StopRequested? ==> hd.inside != {})
  {
    hide TableOk, StageOk, Exec;
    RunInv(es);
    assert HandleOk(Exec(es).handles[h]);
  }

  lemma ThreadsStay(s: State, e: Event, h: nat)
    requires Enabled(s, e) && h < |s.handles| && s.handles[h].threads != []
    ensures h < |Apply(s, e).handles| && Apply(s, e).handles[h].threads != []
  {
  }

  lemma {:induction false} ThreadsRemain(es: seq<Event>, more: seq<Event>, h: nat)
    requires h < |Exec(es).handles| && Exec(es).handles[h].threads != []
    ensures h < |Exec(es + more).handles| && Exec(es + more).handles[h].threads != []
  {
    if more == [] {
      assert es + more == es;
    } else {
      var n := |more| - 1;
      ThreadsRemain(es, more[..n], h);
      assert (es + more)[..|es + more| - 1] == es + more[..n];
      if Enabled(Exec(es + more[..n]), more[n]) {
        ThreadsStay(Exec(es + more[..n]), more[n], h);
      }
    }
  }

  /** From the moment its shutdown thread exists, no call is inside the engine and none gets in. */
  lemma NobodyInside(es: seq<Event>, more: seq<Event>, h: nat, call: nat)
    requires h < |Exec(es).handles| && Exec(es).handles[h].threads != []
    ensures h < |Exec(es + more).handles|
    ensures var hd := Exec(es + more).handles[h]; hd.inside == {} && hd.clients == 0 && EnterHandle(hd, call) == hd
  {
    hide TableOk, StageOk, Exec;
    RunInv(es + more);
    ThreadsRemain(es, more, h);
    assert HandleOk(Exec(es + more).handles[h]);
  }

  // ---------------------------------------------------------------- what a stop request brings about

  /** Executing one more event. */
  lemma ExecOne(es: seq<Event>, e: Event)
    ensures var s := Exec(es); Exec(es + [e]) == if Enabled(s, e) then Apply(s, e) else s
  {
    assert (es + [e])[..|es + [e]| - 1] == es;
  }

  /**
   A stop request for a running bucket stops it at once: with nobody inside, its only shutdown thread has just
   been spawned; with calls inside they go on, and the thread waits for them. Further requests change nothing.
   */
  lemma StopAtOnce(es: seq<Event>, h: nat)
    requires h < |Exec(es).handles|
    ensures h < |Exec(es + [RequestStop(h)]).handles|
    ensures var hd, hd' := Exec(es).handles[h], Exec(es + [RequestStop(h)]).handles[h];
            && !hd'.state.Running? && hd'.inside == hd.inside && hd'.destroyed == hd.destroyed
            && (!hd.state.Running? ==> hd' == hd)
            && (hd.state.Running? && hd.inside == {} ==> hd'.state.Stopping? && hd'.threads == [Spawned])
            && (hd.state.Running? && hd.inside != {} ==> hd'.state.StopRequested? && hd'.threads == [])
  {
    hide TableOk, StageOk, Exec;
    RunInv(es);
    ExecOne(es, RequestStop(h));
    assert HandleOk(Exec(es).handles[h]);
  }

  lemma StoppedStays(s: State, e: Event, h: nat)
    requires Enabled(s, e) && h < |s.handles| && !s.handles[h].state.Running?
    ensures h < |Apply(s, e).handles| && !Apply(s, e).handles[h].state.Running?
  {
  }

  lemma {:induction false} NeverRunsAgain(es: seq<Event>, more: seq<Event>, h: nat)
    requires h < |Exec(es).handles| && !Exec(es).handles[h].state.Running?
    ensures h < |Exec(es + more).handles| && !Exec(es + more).handles[h].state.Running?
  {
    hide Apply, Enabled;
    if more == [] {
      assert es + more == es;
    } else {
      var n := |more| - 1;
      NeverRunsAgain(es, more[..n], h);
      assert (es + more)[..|es + more| - 1] == es + more[..n];
      if Enabled(Exec(es + more[..n]), more[n]) {
        StoppedStays(Exec(es + more[..n]), more[n], h);
      }
    }
  }

  /**
   Whatever happens after a stop request, the bucket never runs again, no call gets in, and as soon as nobody is
   inside there is a shutdown thread.
   */
  lemma StopForGood(es: seq<Event>, more: seq<Event>, h: nat, call: nat)
    requires h < |Exec(es).handles|
    ensures var s := Exec(es + [RequestStop(h)] + more);
            && h < |s.handles| && !s.handles[h].state.Running?
            && (Enabled(s, Enter(h, call)) ==> Apply(s, Enter(h, call)) == s)
            && (s.handles[h].inside == {} <==> |s.handles[h].threads| == 1)
  {
    hide TableOk, StageOk, Exec;
    StopAtOnce(es, h);
    NeverRunsAgain(es + [RequestStop(h)], more, h);
    RunInv(es + [RequestStop(h)] + more);
    var s := Exec(es + [RequestStop(h)] + more);
    assert HandleOk(s.handles[h]);
    assert s.handles[h := s.handles[h]] == s.handles;
  }

  /** A call gets in exactly if the bucket is running, and the call that leaves is inside no longer. */
  lemma CallsInside(es: seq<Event>, h: nat, call: nat)
    requires h < |Exec(es).handles|
    ensures var s := Exec(es);
            var inside := s.handles[h].inside;
            if call in inside
            then Enabled(s, Leave(h, call)) && Apply(s, Leave(h, call)).handles[h].inside == inside - {call}
            else && Enabled(s, Enter(h, call))
                 && Apply(s, Enter(h, call)).handles[h].inside
                    == if s.handles[h].state.Running? then inside + {call} else inside
  {
    hide Exec;
  }

  /** The shutdown thread of bucket `h` takes `n` steps. */
  function ThreadSteps(h: nat, n: nat): seq<Event> {
    seq(n, _ => Advance(h, 0))
  }

  /**
   Left to itself, a shutdown thread comes to its end: it has destroyed the engine, unlinked the bucket and
   reported it as stopped, or it gives way to the global shutdown that was under way when it began.
   */
  lemma {:induction false} DeletionCompletes(es: seq<Event>, h: nat, n: nat)
    requires h < |Exec(es).handles| && Exec(es).handles[h].threads != []
    requires n >= Remaining(Exec(es).handles[h].threads[0])
    ensures var s, s' := Exec(es), Exec(es + ThreadSteps(h, n));
            && |s'.handles| == |s.handles|
            && if s.handles[h].threads == [Skipped] || (s.handles[h].threads == [Spawned] && s.inProgress)
               then s'.handles[h].threads == [Skipped] && s'.table == s.table
               else && s'.handles[h].threads == [Finished] && s'.handles[h].state.Stopped?
                    && s'.handles[h].destroyed == 1 && !s'.handles[h].engine
                    && !(s'.handles[h].name in s'.table && s'.table[s'.handles[h].name] == h)
    decreases n
  {
    hide Exec, StageOk, TableOk, HandleOk, Remaining, Apply, Stepped;
    RunInv(es);
    var s := Exec(es);
    OneThread(s, h);
    if n == 0 {
      assert es + ThreadSteps(h, n) == es;
      ThreadEnded(s, h);
    } else {
      ExecOne(es, Advance(h, 0));
      assert es + ThreadSteps(h, n) == (es + [Advance(h, 0)]) + ThreadSteps(h, n - 1);
      ThreadStep(s, h, n);
      DeletionCompletes(es + [Advance(h, 0)], h, n - 1);
    }
  }

  lemma ThreadEnded(s: State, h: nat)
    requires Inv(s) && h < |s.handles| && |s.handles[h].threads| == 1 && Remaining(s.handles[h].threads[0]) == 0
    ensures s.handles[h].threads == [Skipped] || s.handles[h].threads == [Finished]
    ensures s.handles[h].threads == [Finished] ==>
              && s.handles[h].state.Stopped? && s.handles[h].destroyed == 1 && !s.handles[h].engine
              && !(s.handles[h].name in s.table && s.table[s.handles[h].name] == h)
  {
    hide StageOk;
    OneThread(s, h);
    assert HandleOk(s.handles[h]);
  }

  lemma ThreadStep(s: State, h: nat, n: nat)
    requires h < |s.handles| && |s.handles[h].threads| == 1 && n > 0 && n >= Remaining(s.handles[h].threads[0])
    ensures Enabled(s, Advance(h, 0))
    ensures var s' := Apply(s, Advance(h, 0));
            && |s'.handles| == |s.handles| && |s'.handles[h].threads| == 1 && s'.inProgress == s.inProgress
            && n - 1 >= Remaining(s'.handles[h].threads[0])
            && !s'.handles[h].threads[0].Spawned?
            && (s'.handles[h].threads == [Skipped] <==>
                s.handles[h].threads == [Skipped] || (s.handles[h].threads == [Spawned] && s.inProgress))
            && (s'.handles[h].threads == [Skipped] ==> s'.table == s.table)
  {
  }

  /** Creating a bucket under a free name, that of a deleted bucket too, gives a new running one; others stay. */
  lemma CreateRuns(es: seq<Event>, name: string)
    requires !Exec(es).stage.Sweeping? && !Exec(es).stage.Done?
    ensures var s, s' := Exec(es), Exec(es + [Create(name)]);
            && name in s'.table && s'.table[name] < |s'.handles| && s'.handles[s'.table[name]].name == name
            && s.handles <= s'.handles && (name in s.table ==> s' == s)
            && (name !in s.table ==> s'.handles[s'.table[name]].state.Running? && s'.table[name] == |s.handles|)
  {
    hide Exec, HandleOk, StageOk;
    RunInv(es);
    ExecOne(es, Create(name));
  }

  /** The global shutdown never hangs: it waits for a thread that can go on, or it can take its next step. */
  lemma ShutdownProceeds(es: seq<Event>)
    ensures var s := Exec(es);
            match s.stage {
              case NotCalled => Enabled(s, Shutdown) && Apply(s, Shutdown).stage.Awaiting?
              case Awaiting =>
                if s.counter > 0 then exists h :: AtWork(s, h) && Enabled(s, Advance(h, 0))
                else Enabled(s, BeginSweep) && Apply(s, BeginSweep).stage == Sweeping(s.table.Keys)
              case Sweeping(rest) =>
                if rest == {} then Enabled(s, EndSweep) && Apply(s, EndSweep).stage.Done?
                else forall name :: name in rest ==>
                       Enabled(s, Sweep(name)) && Apply(s, Sweep(name)).stage == Sweeping(rest - {name})
              case Done => true
            }
  {
    hide Exec, HandleOk;
    RunInv(es);
    WaitsForThreads(es);
    var s := Exec(es);
    QuietCounter(s);
  }

  lemma QuietCounter(s: State)
    requires Inv(s)
    ensures s.counter >= 0
  {
    hide TableOk, StageOk, HandleOk;
    SumAtLeast(Actives(s));
  }

  /** The assertions of the shutdown thread: at its sanity check, and when it unlinks its own entry of the table. */
  lemma ThreadAssertions(es: seq<Event>, h: nat, k: nat)
    requires h < |Exec(es).handles| && k < |Exec(es).handles[h].threads|
    ensures var s := Exec(es);
            var hd := s.handles[h];
            && (hd.threads[k].Entered? || hd.threads[k].Checked? ==> hd.state.Stopping? && hd.clients == 0)
            && (hd.threads[k].Checked? ==> hd.engine && hd.destroyed == 0)
            && (hd.threads[k].Cleared? ==> hd.name in s.table && s.table[hd.name] == h)
  {
    hide Exec;
    RunInv(es);
    var s := Exec(es);
    assert HandleOk(s.handles[h]);
    OneThread(s, h);
  }

  predicate AtWork(s: State, h: nat) {
    h < |s.handles| && s.handles[h].threads != [] && Active(s.handles[h].threads[0])
  }

  /** The global shutdown waits exactly for the threads at work, all of which can go on. */
  lemma WaitsForThreads(es: seq<Event>)
    ensures Exec(es).counter == Sum(Actives(Exec(es)))
    ensures Exec(es).counter > 0 ==> exists h :: AtWork(Exec(es), h) && Enabled(Exec(es), Advance(h, 0))
  {
    hide TableOk, StageOk, HandleOk, Exec;
    RunInv(es);
    var s := Exec(es);
    if s.counter > 0 {
      if forall h :: 0 <= h < |s.handles| ==> ActiveIn(s.handles[h]) == 0 {
        SumZero(Actives(s));
      } else {
        var h :| 0 <= h < |s.handles| && ActiveIn(s.handles[h]) != 0;
        assert AtWork(s, h);
      }
    }
  }

  /** Threads at work come to an end: each of their steps brings them closer to being discounted. */
  function Remaining(ph: Phase): nat {
    match ph
    case Spawned => 9
    case Entered => 8
    case Checked => 7
    case Destroyed => 6
    case Cleared => 5
    case Unlinked => 4
    case Waiting => 3
    case Leaving => 2
    case Freed => 1
    case Skipped => 0
    case Finished => 0
  }

  function Work(hd: Handle): int {
    if hd.threads != [] then Remaining(hd.threads[0]) else 0
  }

  function Works(s: State): (f: seq<int>)
    ensures |f| == |s.handles| && forall h :: 0 <= h < |f| ==> f[h] == Work(s.handles[h])
  {
    seq(|s.handles|, h requires 0 <= h < |s.handles| => Work(s.handles[h]))
  }

  lemma ThreadsEnd(es: seq<Event>, h: nat, k: nat)
    requires h < |Exec(es).handles| && k < |Exec(es).handles[h].threads|
             && Remaining(Exec(es).handles[h].threads[k]) > 0
    ensures Sum(Works(AdvanceThread(Exec(es), h, k))) < Sum(Works(Exec(es)))
  {
    hide Exec, TableOk, StageOk, HandleOk, Stepped;
    RunInv(es);
    var s := Exec(es);
    OneThread(s, h);
    WorkLess(s.handles[h], s.inProgress);
    WorksLess(s, h);
  }

  lemma WorkLess(hd: Handle, inProgress: bool)
    requires |hd.threads| == 1 && Remaining(hd.threads[0]) > 0
    ensures Work(Stepped(hd, 0, inProgress)) < Work(hd)
  {
  }

  lemma WorksLess(s: State, h: nat)
    requires h < |s.handles| && |s.handles[h].threads| == 1
    requires Work(Stepped(s.handles[h], 0, s.inProgress)) < Work(s.handles[h])
    ensures Sum(Works(AdvanceThread(s, h, 0))) < Sum(Works(s))
  {
    hide Work, Stepped;
    SumChange(Works(s), Works(AdvanceThread(s, h, 0)), h);
  }
}
