/**
 The lock-free multi-producer queue: every thread has a slot holding its own inner queue, steals that queue to
 push, and a consumer exchanges an empty queue for each other thread's. Threads interleave between the atomic
 operations on the slots and the counters; an inner queue held by one thread is touched by no other.
 */
module AtomicQueues {
  import opened Sums

  const MaxThreads: nat := 100

  /** An inner queue, or a slot, by number. */
  datatype Ptr = Null | Ref(id: nat)

  /** The `index`-th item pushed by a thread. */
  datatype Item = Item(producer: nat, index: nat)

  datatype Op = Push | PushQueue(size: nat) | GetAll

  /** Where a thread stands, between two atomic operations. */
  datatype Phase =
    | Idle
    | Allocated(op: Op, q: nat)                                      // initialize: queue allocated
    | Numbered(op: Op, q: nat, i: nat)                               // initialize: slot number drawn
    | StealLoad(op: Op)                                              // swap(NULL): about to load
    | StealCas(op: Op, seen: Ptr)                                    // swap(NULL): about to compare and swap
    | Filling(op: Op, q: nat, left: nat, due: nat)                   // items to push, and to add to numItems
    | DrainOwn(q: nat, count: nat)
    | Visit(q: nat, i: nat, c: nat, count: nat)                      // swapIfNot on slot i: about to load
    | VisitCas(q: nat, i: nat, c: nat, count: nat, found: nat)       // swapIfNot on slot i: about to compare and swap
    | DrainSlot(q: nat, i: nat, c: nat, count: nat)
    | ReturnLoad(q: nat, count: nat, consumer: bool)                 // swap(q): about to load
    | ReturnCas(q: nat, count: nat, consumer: bool, seen: Ptr)       // swap(q): about to compare and swap
    | Settle(count: nat)                                             // about to subtract from numItems

  datatype Thread = Thread(home: Ptr, phase: Phase, out: seq<Item>)

  datatype Owner = InSlot(i: nat) | ByThread(t: nat)

  /**
   The last five fields are history: how many items each thread pushed and added to `numItems`, who took each
   of its items out of its slot, whose slot each is, and who owns each inner queue. No step branches on them.
   */
  datatype State = State(slots: seq<Ptr>, counter: nat, numItems: int, heap: seq<seq<Item>>, threads: seq<Thread>,
                         pushed: seq<nat>, counted: seq<nat>, drawn: seq<seq<nat>>, owner: seq<nat>, own: seq<Owner>)

  function Held(ph: Phase): Ptr {
    if ph.Idle? || ph.StealLoad? || ph.StealCas? || ph.Settle? then Null else Ref(ph.q)
  }

  function SlotOf(th: Thread): Ptr {
    if th.phase.Numbered? then Ref(th.phase.i) else th.home
  }

  function Init(threads: nat): State {
    State(seq(MaxThreads, _ => Null), 0, 0, [], seq(threads, _ => Thread(Null, Idle, [])),
          seq(threads, _ => 0), seq(threads, _ => 0), seq(threads, _ => []), [], [])
  }

  // ---------------------------------------------------------------- the steps

  /** No pointer a step follows is null or dangling, and no slot number is out of bounds. */
  predicate Safe(s: State, t: nat) {
    && t < |s.threads| && |s.pushed| == |s.counted| == |s.drawn| == |s.threads|
    && s.counter <= |s.slots| && |s.own| == |s.heap| && |s.owner| == s.counter
    && (Held(s.threads[t].phase).Ref? ==> s.threads[t].phase.q < |s.heap|)
    && (forall i :: 0 <= i < s.counter ==> s.owner[i] < |s.threads|)
    && match s.threads[t].phase {
         case Idle | Settle(_) => true
         case Allocated(_, _) => s.counter < |s.slots|
         case Numbered(_, _, i) => i < |s.slots|
         case StealCas(_, seen) => HomeIn(s, t) && seen.Ref? && seen.id < |s.heap|
         case Visit(_, i, c, _) => i <= c <= s.counter
         case VisitCas(_, i, c, _, found) => i < c <= s.counter && found < |s.heap|
         case DrainSlot(_, i, c, _) => i < c <= s.counter
         case DrainOwn(_, _) => true
         case _ => HomeIn(s, t)
       }
  }

  predicate HomeIn(s: State, t: nat)
    requires t < |s.threads|
  {
    s.threads[t].home.Ref? && s.threads[t].home.id < |s.slots|
  }

  function At(s: State, t: nat, ph: Phase): State
    requires t < |s.threads|
  {
    s.(threads := s.threads[t := s.threads[t].(phase := ph)])
  }

  /** History: `taker` took everything of `p` not taken before. */
  function Took(s: State, p: nat, taker: nat): State
    requires p < |s.pushed| == |s.drawn|
  {
    var n := if |s.drawn[p]| <= s.pushed[p] then s.pushed[p] - |s.drawn[p]| else 0;
    s.(drawn := s.drawn[p := s.drawn[p] + seq(n, _ => taker)])
  }

  function Start(s: State, t: nat, op: Op): State
    requires Safe(s, t)
  {
    if s.threads[t].home.Null? then
      At(s.(heap := s.heap + [[]], own := s.own + [ByThread(t)]), t, Allocated(op, |s.heap|))
    else At(s, t, StealLoad(op))
  }

  function Number(s: State, t: nat): State
    requires Safe(s, t) && s.threads[t].phase.Allocated?
  {
    var ph := s.threads[t].phase;
    At(s.(counter := s.counter + 1, owner := s.owner + [t]), t, Numbered(ph.op, ph.q, s.counter))
  }

  function Install(s: State, t: nat): State
    requires Safe(s, t) && s.threads[t].phase.Numbered?
  {
    var ph := s.threads[t].phase;
    s.(slots := s.slots[ph.i := Ref(ph.q)], own := s.own[ph.q := InSlot(ph.i)],
       threads := s.threads[t := s.threads[t].(home := Ref(ph.i), phase := StealLoad(ph.op))])
  }

  /** The compare-and-swap of `swapQueue()`; on success the thread owns its queue. */
  function Steal(s: State, t: nat): State
    requires Safe(s, t) && s.threads[t].phase.StealCas?
  {
    var ph, h := s.threads[t].phase, s.threads[t].home.id;
    if s.slots[h] != ph.seen then At(s, t, StealLoad(ph.op))
    else
      var q := ph.seen.id;
      var s1 := s.(slots := s.slots[h := Null], own := s.own[q := ByThread(t)]);
      match ph.op
      case Push => At(s1, t, Filling(Push, q, 1, 1))
      case PushQueue(n) => At(s1, t, Filling(ph.op, q, n, n))
      case GetAll => At(Took(s1, t, t), t, DrainOwn(q, 0))
  }

  function PushOne(s: State, t: nat): State
    requires Safe(s, t) && s.threads[t].phase.Filling? && s.threads[t].phase.left > 0
  {
    var ph := s.threads[t].phase;
    At(s.(heap := s.heap[ph.q := s.heap[ph.q] + [Item(t, s.pushed[t])]], pushed := s.pushed[t := s.pushed[t] + 1]),
       t, ph.(left := ph.left - 1))
  }

  function Count(s: State, t: nat): State
    requires Safe(s, t) && s.threads[t].phase.Filling?
  {
    var ph := s.threads[t].phase;
    At(s.(numItems := s.numItems + ph.due, counted := s.counted[t := s.counted[t] + ph.due]), t, ph.(due := 0))
  }

  /** `push` adds the item, then counts it; `pushQueue` counts the items, then adds them. */
  function Fill(s: State, t: nat): State
    requires Safe(s, t) && s.threads[t].phase.Filling?
  {
    var ph := s.threads[t].phase;
    if ph.due > 0 && (ph.op.PushQueue? || ph.left == 0) then Count(s, t)
    else if ph.left > 0 then PushOne(s, t)
    else At(s, t, ReturnLoad(ph.q, 0, false))
  }

  predicate Draining(ph: Phase) {
    ph.DrainOwn? || ph.DrainSlot?
  }

  function Popped(ph: Phase): Phase
    requires Draining(ph)
  {
    match ph
    case DrainOwn(q, count) => DrainOwn(q, count + 1)
    case DrainSlot(q, i, c, count) => DrainSlot(q, i, c, count + 1)
  }

  function Pop(s: State, t: nat): State
    requires Safe(s, t) && Draining(s.threads[t].phase) && s.heap[s.threads[t].phase.q] != []
  {
    var ph := s.threads[t].phase;
    var items := s.heap[ph.q];
    s.(heap := s.heap[ph.q := items[1..]],
       threads := s.threads[t := s.threads[t].(out := s.threads[t].out + [items[0]], phase := Popped(ph))])
  }

  function Drain(s: State, t: nat): State
    requires Safe(s, t) && Draining(s.threads[t].phase)
  {
    var ph := s.threads[t].phase;
    if s.heap[ph.q] != [] then Pop(s, t)
    else if ph.DrainOwn? then At(s, t, Visit(ph.q, 0, s.counter, ph.count))
    else At(s, t, Visit(ph.q, ph.i + 1, ph.c, ph.count))
  }

  function Look(s: State, t: nat): State
    requires Safe(s, t) && s.threads[t].phase.Visit?
  {
    var ph := s.threads[t].phase;
    if ph.i >= ph.c then At(s, t, ReturnLoad(ph.q, ph.count, true))
    else match s.slots[ph.i]
      case Null => At(s, t, Visit(ph.q, ph.i + 1, ph.c, ph.count))
      case Ref(x) => At(s, t, VisitCas(ph.q, ph.i, ph.c, ph.count, x))
  }

  /** The compare-and-swap of `swapIfNot`: an empty queue for another thread's. */
  function Exchange(s: State, t: nat): State
    requires Safe(s, t) && s.threads[t].phase.VisitCas?
  {
    var ph := s.threads[t].phase;
    if s.slots[ph.i] != Ref(ph.found) then At(s, t, Visit(ph.q, ph.i, ph.c, ph.count))
    else
      var s1 := s.(slots := s.slots[ph.i := Ref(ph.q)], own := s.own[ph.q := InSlot(ph.i)][ph.found := ByThread(t)]);
      At(Took(s1, s.owner[ph.i], t), t, DrainSlot(ph.found, ph.i, ph.c, ph.count))
  }

  /** The compare-and-swap of `swapQueue(q)`; the old pointer is dropped. */
  function PutBack(s: State, t: nat): State
    requires Safe(s, t) && s.threads[t].phase.ReturnCas?
  {
    var ph, h := s.threads[t].phase, s.threads[t].home.id;
    if s.slots[h] != ph.seen then At(s, t, ReturnLoad(ph.q, ph.count, ph.consumer))
    else At(s.(slots := s.slots[h := Ref(ph.q)], own := s.own[ph.q := InSlot(h)]), t,
            if ph.consumer then Settle(ph.count) else Idle)
  }

  function Subtract(s: State, t: nat): State
    requires Safe(s, t) && s.threads[t].phase.Settle?
  {
    At(s.(numItems := s.numItems - s.threads[t].phase.count), t, Idle)
  }

  /** The next atomic step of thread `t`; an idle thread begins `op`. */
  function Step(s: State, t: nat, op: Op): State
    requires Safe(s, t)
  {
    var ph := s.threads[t].phase;
    match ph
    case Idle => Start(s, t, op)
    case Allocated(_, _) => Number(s, t)
    case Numbered(_, _, _) => Install(s, t)
    case StealLoad(o) => At(s, t, StealCas(o, s.slots[s.threads[t].home.id]))
    case StealCas(_, _) => Steal(s, t)
    case Filling(_, _, _, _) => Fill(s, t)
    case DrainOwn(_, _) => Drain(s, t)
    case Visit(_, _, _, _) => Look(s, t)
    case VisitCas(_, _, _, _, _) => Exchange(s, t)
    case DrainSlot(_, _, _, _) => Drain(s, t)
    case ReturnLoad(q, count, consumer) => At(s, t, ReturnCas(q, count, consumer, s.slots[s.threads[t].home.id]))
    case ReturnCas(_, _, _, _) => PutBack(s, t)
    case Settle(_) => Subtract(s, t)
  }

  // ---------------------------------------------------------------- the invariant

  /** The items `lo` to `hi` of one producer, in the order they were pushed. */
  function Items(p: nat, lo: nat, hi: nat): (r: seq<Item>)
    ensures |r| == if lo <= hi then hi - lo else 0
    ensures forall k :: 0 <= k < |r| ==> r[k] == Item(p, lo + k)
  {
    if lo <= hi then seq(hi - lo, k requires 0 <= k => Item(p, lo + k)) else []
  }

  /** What thread `t` pushed and nobody took yet. */
  function Mine(s: State, t: nat): seq<Item>
    requires t < |s.pushed| == |s.drawn|
  {
    Items(t, |s.drawn[t]|, s.pushed[t])
  }

  predicate Sized(s: State) {
    && |s.pushed| == |s.counted| == |s.drawn| == |s.threads| <= |s.slots|
    && |s.own| == |s.heap| && |s.owner| == s.counter <= |s.slots|
    && (forall i :: 0 <= i < s.counter ==> s.owner[i] < |s.threads|)
  }

  predicate PhaseOk(s: State, th: Thread) {
    && (th.home.Null? ==> th.phase.Idle? || th.phase.Allocated? || th.phase.Numbered?)
    && (th.phase.Allocated? || th.phase.Numbered? ==> th.home.Null?)
    && (th.phase.StealCas? ==> th.phase.seen.Ref? && th.phase.seen.id < |s.heap|)
    && (th.phase.Visit? ==> th.phase.i <= th.phase.c <= s.counter)
    && (th.phase.VisitCas? ==> th.phase.i < th.phase.c <= s.counter && th.phase.found < |s.heap|)
    && (th.phase.DrainSlot? ==> th.phase.i < th.phase.c <= s.counter)
  }

  /** Threads and slots in use correspond one to one, and a slot is empty exactly while its thread holds a queue. */
  ghost predicate Homes(s: State)
    requires Sized(s)
  {
    && (forall t :: 0 <= t < |s.threads| ==> PhaseOk(s, s.threads[t]))
    && (forall t :: 0 <= t < |s.threads| && SlotOf(s.threads[t]).Ref? ==>
          SlotOf(s.threads[t]).id < s.counter && s.owner[SlotOf(s.threads[t]).id] == t)
    && (forall i :: 0 <= i < s.counter ==> SlotOf(s.threads[s.owner[i]]) == Ref(i))
    && (forall i :: 0 <= i < s.counter ==> (s.slots[i].Null? <==> Held(s.threads[s.owner[i]].phase).Ref?))
    && (forall i :: s.counter <= i < |s.slots| ==> s.slots[i].Null?)
  }

  /** Every inner queue has exactly one owner: the slot or the thread that points to it. */
  ghost predicate Owned(s: State)
    requires Sized(s)
  {
    && (forall i :: 0 <= i < |s.slots| && s.slots[i].Ref? ==>
        s.slots[i].id < |s.own| && s.own[s.slots[i].id] == InSlot(i))
    && (forall t :: 0 <= t < |s.threads| && Held(s.threads[t].phase).Ref? ==>
          s.threads[t].phase.q < |s.own| && s.own[s.threads[t].phase.q] == ByThread(t))
    && (forall q :: 0 <= q < |s.own| ==>
          match s.own[q] {
            case InSlot(i) => i < |s.slots| && s.slots[i] == Ref(q)
            case ByThread(t) => t < |s.threads| && Held(s.threads[t].phase) == Ref(q)
          })
  }

  /** What the queue held by thread `t` contains, and where its own items are. */
  predicate HoldsOk(s: State, t: nat)
    requires Sized(s) && t < |s.threads|
  {
    var th := s.threads[t];
    && |s.drawn[t]| <= s.pushed[t]
    && (th.home.Null? || Draining(th.phase) || th.phase.Visit? || th.phase.VisitCas? ==> |s.drawn[t]| == s.pushed[t])
    && (Held(th.phase).Ref? && th.phase.q < |s.heap| && !Draining(th.phase) ==> s.heap[th.phase.q] == Mine(s, t))
  }

  predicate SlotOk(s: State, i: nat)
    requires Sized(s) && i < s.counter
  {
    s.slots[i].Ref? && s.slots[i].id < |s.heap| ==> s.heap[s.slots[i].id] == Mine(s, s.owner[i])
  }

  ghost predicate Contents(s: State)
    requires Sized(s)
  {
    && (forall t :: 0 <= t < |s.threads| ==> HoldsOk(s, t))
    && (forall i :: 0 <= i < s.counter ==> SlotOk(s, i))
  }

  predicate CountOk(s: State, t: nat)
    requires Sized(s) && t < |s.threads|
  {
    var ph := s.threads[t].phase;
    && |s.drawn[t]| <= s.counted[t]
    && if ph.Filling? then s.counted[t] + ph.due == s.pushed[t] + ph.left else s.counted[t] == s.pushed[t]
  }

  /** Taken by thread `t` and not yet subtracted from `numItems`. */
  function Pend(s: State, t: nat): nat
    requires Sized(s) && t < |s.threads|
  {
    var ph := s.threads[t].phase;
    match ph
    case DrainOwn(_, _) => ph.count + |Pending(s, t)|
    case DrainSlot(_, _, _, _) => ph.count + |Pending(s, t)|
    case Visit(_, _, _, _) => ph.count
    case VisitCas(_, _, _, _, _) => ph.count
    case ReturnLoad(_, _, _) => if ph.consumer then ph.count else 0
    case ReturnCas(_, _, _, _) => if ph.consumer then ph.count else 0
    case Settle(_) => ph.count
    case _ => 0
  }

  function Credit(s: State, t: nat): int
    requires Sized(s) && t < |s.threads|
  {
    s.counted[t] - |s.drawn[t]| + Pend(s, t)
  }

  function Credits(s: State): (f: seq<int>)
    requires Sized(s)
    ensures |f| == |s.threads| && forall t :: 0 <= t < |f| ==> f[t] == Credit(s, t)
  {
    seq(|s.threads|, t requires 0 <= t < |s.threads| => Credit(s, t))
  }

  ghost predicate Counts(s: State)
    requires Sized(s)
  {
    && (forall t :: 0 <= t < |s.threads| ==> CountOk(s, t))
    && s.numItems == Sum(Credits(s))
  }

  /** Items in the queue thread `t` is draining. */
  function Pending(s: State, t: nat): seq<Item>
    requires Sized(s) && t < |s.threads|
  {
    var ph := s.threads[t].phase;
    if Draining(ph) && ph.q < |s.heap| then s.heap[ph.q] else []
  }

  /** Everything thread `t` took out of slots, in order. */
  function Grabbed(s: State, t: nat): seq<Item>
    requires Sized(s) && t < |s.threads|
  {
    s.threads[t].out + Pending(s, t)
  }

  /** No two items of one producer are out of order, or equal. */
  predicate InPushOrder(items: seq<Item>) {
    forall a, b :: 0 <= a < b < |items| && items[a].producer == items[b].producer ==> items[a].index < items[b].index
  }

  /** `items` are taken items of `drawn`, and the history says `c` took them. */
  predicate TakenBy(items: seq<Item>, drawn: seq<seq<nat>>, c: nat) {
    forall n :: 0 <= n < |items| ==>
      items[n].producer < |drawn| && items[n].index < |drawn[items[n].producer]|
          && drawn[items[n].producer][items[n].index] == c
  }

  ghost predicate Deliveries(s: State)
    requires Sized(s)
  {
    && (forall c :: 0 <= c < |s.threads| ==> InPushOrder(Grabbed(s, c)) && TakenBy(Grabbed(s, c), s.drawn, c))
    && (forall p, k :: 0 <= p < |s.threads| && 0 <= k < |s.drawn[p]| ==>
          s.drawn[p][k] < |s.threads| && Item(p, k) in Grabbed(s, s.drawn[p][k]))
  }

  ghost predicate Inv(s: State) {
    Sized(s) && Homes(s) && Owned(s) && Contents(s) && Counts(s) && Deliveries(s)
  }

  // ---------------------------------------------------------------- frames

  /** A step by `t` that leaves the other threads, their histories and the queues they hold as they were. */
  ghost predicate OnlyBy(s: State, s': State, t: nat) {
    && Sized(s) && Sized(s') && |s.threads| == |s'.threads| && |s.slots| == |s'.slots|
    && forall u :: 0 <= u < |s.threads| && u != t ==> Undisturbed(s, s', u)
  }

  ghost predicate Undisturbed(s: State, s': State, u: nat)
    requires Sized(s) && Sized(s') && u < |s.threads| == |s'.threads|
  {
    && s'.threads[u] == s.threads[u] && s'.pushed[u] == s.pushed[u] && s'.counted[u] == s.counted[u]
    && s'.drawn[u] == s.drawn[u]
    && (Held(s.threads[u].phase).Ref? && s.threads[u].phase.q < |s.heap| ==>
          s.threads[u].phase.q < |s'.heap| && s'.heap[s.threads[u].phase.q] == s.heap[s.threads[u].phase.q])
  }

  lemma UndisturbedKeeps(s: State, s': State, u: nat)
    requires Sized(s) && Sized(s') && u < |s.threads| == |s'.threads| && Undisturbed(s, s', u)
    requires Held(s.threads[u].phase).Ref? ==> s.threads[u].phase.q < |s.heap|
    ensures Pending(s', u) == Pending(s, u) && Grabbed(s', u) == Grabbed(s, u) && Credit(s', u) == Credit(s, u)
    ensures HoldsOk(s', u) == HoldsOk(s, u) && CountOk(s', u) == CountOk(s, u)
  {
  }

  lemma HeldIn(s: State, u: nat)
    requires Sized(s) && Owned(s) && u < |s.threads| && Held(s.threads[u].phase).Ref?
    ensures s.threads[u].phase.q < |s.heap| && s.own[s.threads[u].phase.q] == ByThread(u)
  {
  }

  lemma CountsBy(s: State, s': State, t: nat)
    requires OnlyBy(s, s', t) && t < |s.threads| && Owned(s) && Counts(s)
    requires CountOk(s', t) && s'.numItems - s.numItems == Credit(s', t) - Credit(s, t)
    ensures Counts(s')
  {
    hide Owned, CountOk, Credit, Undisturbed, Sized;
    forall u | 0 <= u < |s.threads| && u != t ensures CountOk(s', u) && Credit(s', u) == Credit(s, u) {
      Untouched(s, s', t, u);
    }
    SumChange(Credits(s), Credits(s'), t);
  }

  lemma Untouched(s: State, s': State, t: nat, u: nat)
    requires OnlyBy(s, s', t) && u < |s.threads| && u != t && Owned(s)
    ensures Pending(s', u) == Pending(s, u) && Grabbed(s', u) == Grabbed(s, u) && Credit(s', u) == Credit(s, u)
    ensures HoldsOk(s', u) == HoldsOk(s, u) && CountOk(s', u) == CountOk(s, u)
  {
    hide Owned;
    if Held(s.threads[u].phase).Ref? {
      HeldIn(s, u);
    }
    UndisturbedKeeps(s, s', u);
  }

  lemma DeliveriesBy(s: State, s': State, t: nat)
    requires OnlyBy(s, s', t) && t < |s.threads| && Owned(s) && Deliveries(s)
    requires s'.drawn == s.drawn && Grabbed(s', t) == Grabbed(s, t)
    ensures Deliveries(s')
  {
    hide Owned, Undisturbed, Grabbed, InPushOrder, TakenBy, Sized;
    forall u | 0 <= u < |s.threads| ensures Grabbed(s', u) == Grabbed(s, u) {
      if u != t {
        Untouched(s, s', t, u);
      }
    }
    DeliveriesSame(s, s');
  }

  lemma DeliveriesSame(s: State, s': State)
    requires Sized(s) && Sized(s') && |s.threads| == |s'.threads| && Deliveries(s) && s'.drawn == s.drawn
    requires forall u :: 0 <= u < |s.threads| ==> Grabbed(s', u) == Grabbed(s, u)
    ensures Deliveries(s')
  {
    hide Grabbed, InPushOrder, TakenBy;
  }

  // ---------------------------------------------------------------- steps that only move a thread on

  lemma MovedOn(s: State, t: nat, ph: Phase)
    requires Inv(s) && t < |s.threads|
    requires Held(ph) == Held(s.threads[t].phase) && !ph.Numbered? && !s.threads[t].phase.Numbered?
    requires PhaseOk(s, s.threads[t].(phase := ph))
    requires HoldsOk(At(s, t, ph), t) && CountOk(At(s, t, ph), t)
    requires Credit(At(s, t, ph), t) == Credit(s, t) && Pending(At(s, t, ph), t) == Pending(s, t)
    ensures Inv(At(s, t, ph))
  {
    hide HoldsOk, CountOk, Credit, Pending, Deliveries, Counts, Homes, Owned, Contents;
    var s' := At(s, t, ph);
    assert OnlyBy(s, s', t);
    CountsBy(s, s', t);
    DeliveriesBy(s, s', t);
    MovedHomes(s, t, ph);
    MovedOwned(s, t, ph);
    ContentsBy(s, s', t);
  }

  lemma MovedHomes(s: State, t: nat, ph: Phase)
    requires Sized(s) && Homes(s) && t < |s.threads|
    requires Held(ph) == Held(s.threads[t].phase) && !ph.Numbered? && !s.threads[t].phase.Numbered?
    requires PhaseOk(s, s.threads[t].(phase := ph))
    ensures Homes(At(s, t, ph))
  {
  }

  lemma MovedOwned(s: State, t: nat, ph: Phase)
    requires Sized(s) && Owned(s) && t < |s.threads| && Held(ph) == Held(s.threads[t].phase)
    ensures Owned(At(s, t, ph))
  {
  }

  /** Slots that still point to the same, unchanged queues. */
  lemma ContentsBy(s: State, s': State, t: nat)
    requires OnlyBy(s, s', t) && t < |s.threads| && Owned(s) && Contents(s) && HoldsOk(s', t)
    requires s'.slots == s.slots && s'.owner == s.owner && s'.counter == s.counter
    requires |s.heap| <= |s'.heap|
    requires forall i :: 0 <= i < s.counter && s.slots[i].Ref? && s.slots[i].id < |s.heap| ==>
               s'.heap[s.slots[i].id] == s.heap[s.slots[i].id] && Mine(s', s.owner[i]) == Mine(s, s.owner[i])
    ensures Contents(s')
  {
    hide HoldsOk, Mine, Owned;
    forall u | 0 <= u < |s.threads| && u != t ensures HoldsOk(s', u) {
      Untouched(s, s', t, u);
    }
    forall i | 0 <= i < s.counter ensures SlotOk(s', i) {
      assert SlotOk(s, i);
      if s.slots[i].Ref? {
        SlotIn(s, i);
      }
    }
  }

  lemma SlotIn(s: State, i: nat)
    requires Sized(s) && Owned(s) && i < |s.slots| && s.slots[i].Ref?
    ensures s.slots[i].id < |s.heap| && s.own[s.slots[i].id] == InSlot(i)
  {
  }

  // ---------------------------------------------------------------- every step is safe

  lemma {:induction false} Pigeonhole(a: seq<nat>, n: nat)
    requires forall i :: 0 <= i < |a| ==> a[i] < n
    requires forall i, j :: 0 <= i < j < |a| ==> a[i] != a[j]
    ensures |a| <= n
  {
    assert a != [] ==> a[0] < n;
    if n > 0 {
      if k :| 0 <= k < |a| && a[k] == n - 1 {
        Pigeonhole(a[..k] + a[k + 1..], n - 1);
      } else {
        Pigeonhole(a, n - 1);
      }
    }
  }

  /** A thread that is about to draw a slot number finds a free slot. */
  lemma RoomLeft(s: State, t: nat)
    requires Sized(s) && Homes(s) && t < |s.threads| && s.threads[t].phase.Allocated?
    ensures s.counter < |s.slots| && t !in s.owner
  {
    var a := s.owner + [t];
    forall i, j | 0 <= i < j < |a| ensures a[i] != a[j] {
      assert SlotOf(s.threads[a[i]]) == Ref(i);
      assert j < s.counter ==> SlotOf(s.threads[a[j]]) == Ref(j);
      assert SlotOf(s.threads[t]) == Null;
    }
    Pigeonhole(a, |s.threads|);
  }

  lemma InvSafe(s: State, t: nat)
    requires Inv(s) && t < |s.threads|
    ensures Safe(s, t)
  {
    hide Contents, Counts, Deliveries;
    if Held(s.threads[t].phase).Ref? {
      HeldIn(s, t);
    }
    if s.threads[t].phase.Allocated? {
      RoomLeft(s, t);
    }
  }

  // ---------------------------------------------------------------- steps on a queue the thread holds

  /** `s'` differs from `s` only in thread `t`, its counts and the queue it holds throughout. */
  ghost predicate HeldStep(s: State, s': State, t: nat) {
    && Sized(s) && Sized(s') && t < |s.threads| && Held(s.threads[t].phase).Ref? && s.threads[t].phase.q < |s.heap|
    && s'.slots == s.slots && s'.owner == s.owner && s'.drawn == s.drawn && s'.own == s.own
    && |s'.threads| == |s.threads| && s'.threads == s.threads[t := s'.threads[t]]
    && s'.threads[t].home == s.threads[t].home && Held(s'.threads[t].phase) == Held(s.threads[t].phase)
    && !s.threads[t].phase.Numbered? && !s'.threads[t].phase.Numbered?
    && s'.pushed == s.pushed[t := s'.pushed[t]] && s'.counted == s.counted[t := s'.counted[t]]
    && s'.heap == s.heap[s.threads[t].phase.q := s'.heap[s.threads[t].phase.q]]
  }

  lemma HeldStepInv(s: State, s': State, t: nat)
    requires Inv(s) && HeldStep(s, s', t) && PhaseOk(s, s'.threads[t]) && HoldsOk(s', t) && CountOk(s', t)
    requires s'.numItems - s.numItems == Credit(s', t) - Credit(s, t) && Grabbed(s', t) == Grabbed(s, t)
    ensures Inv(s')
  {
    hide Deliveries, Counts, Contents, HoldsOk, CountOk, Credit, Grabbed, HeldStep;
    HeldStepFrame(s, s', t);
    HeldStepShape(s, s', t);
    CountsBy(s, s', t);
    DeliveriesBy(s, s', t);
    ContentsBy(s, s', t);
  }

  lemma HeldStepShape(s: State, s': State, t: nat)
    requires HeldStep(s, s', t) && Homes(s) && Owned(s) && PhaseOk(s, s'.threads[t])
    ensures Homes(s') && Owned(s')
    ensures t < |s.threads| && s'.slots == s.slots && s'.owner == s.owner && s'.counter == s.counter
            && s'.drawn == s.drawn && |s'.heap| == |s.heap|
  {
    hide Homes, Owned;
    var ph := s'.threads[t].phase;
    var m := At(s, t, ph);
    MovedHomes(s, t, ph);
    MovedOwned(s, t, ph);
    assert forall u :: 0 <= u < |s.threads| ==>
            SlotOf(s'.threads[u]) == SlotOf(m.threads[u]) && s'.threads[u].phase == m.threads[u].phase;
    SamePlaces(m, s');
  }

  lemma SamePlaces(s: State, s': State)
    requires Sized(s) && Sized(s') && Homes(s) && Owned(s) && s'.slots == s.slots && s'.own == s.own
             && s'.owner == s.owner
    requires |s.threads| == |s'.threads|
    requires forall u :: 0 <= u < |s.threads| ==>
               s'.threads[u].home == s.threads[u].home && s'.threads[u].phase == s.threads[u].phase
    ensures Homes(s') && Owned(s')
  {
    SameHomes(s, s');
    SameOwned(s, s');
  }

  lemma SameHomes(s: State, s': State)
    requires Sized(s) && Sized(s') && Homes(s) && s'.slots == s.slots && |s.heap| <= |s'.heap| && s'.owner == s.owner
    requires |s.threads| == |s'.threads|
    requires forall u :: 0 <= u < |s.threads| ==>
               s'.threads[u].home == s.threads[u].home && s'.threads[u].phase == s.threads[u].phase
    ensures Homes(s')
  {
    forall u | 0 <= u < |s.threads| ensures PhaseOk(s', s'.threads[u])
        && SlotOf(s'.threads[u]) == SlotOf(s.threads[u]) {
      assert PhaseOk(s, s.threads[u]);
    }
  }

  lemma SameOwned(s: State, s': State)
    requires Sized(s) && Sized(s') && Owned(s) && s'.slots == s.slots && s'.own == s.own
    requires |s.threads| == |s'.threads|
    requires forall u :: 0 <= u < |s.threads| ==> s'.threads[u].phase == s.threads[u].phase
    ensures Owned(s')
  {
  }

  /** A step on the queue that `t` holds disturbs no other thread and no slot. */
  lemma HeldStepFrame(s: State, s': State, t: nat)
    requires HeldStep(s, s', t) && Owned(s) && Homes(s)
    ensures OnlyBy(s, s', t)
    ensures forall i :: 0 <= i < s.counter && s.slots[i].Ref? && s.slots[i].id < |s.heap| ==>
               s'.heap[s.slots[i].id] == s.heap[s.slots[i].id] && Mine(s', s.owner[i]) == Mine(s, s.owner[i])
  {
    var q := s.threads[t].phase.q;
    HeldIn(s, t);
    forall u | 0 <= u < |s.threads| && u != t ensures Undisturbed(s, s', u) {
      if Held(s.threads[u].phase).Ref? {
        HeldIn(s, u);
      }
    }
    forall i | 0 <= i < s.counter && s.slots[i].Ref? && s.slots[i].id < |s.heap|
      ensures s'.heap[s.slots[i].id] == s.heap[s.slots[i].id] && Mine(s', s.owner[i]) == Mine(s, s.owner[i])
    {
      assert s.own[s.slots[i].id] == InSlot(i);
      assert s.owner[i] != t;
    }
  }

  lemma PushOneInv(s: State, t: nat)
    requires Inv(s) && Safe(s, t) && s.threads[t].phase.Filling? && s.threads[t].phase.left > 0
    ensures Inv(PushOne(s, t))
  {
    hide Deliveries, Homes, Owned;
    var s' := PushOne(s, t);
    assert HoldsOk(s, t) && CountOk(s, t);
    PhaseOf(s, t);
    HeldStepInv(s, s', t);
  }

  lemma CountInv(s: State, t: nat)
    requires Inv(s) && Safe(s, t) && s.threads[t].phase.Filling?
    ensures Inv(Count(s, t))
  {
    hide Deliveries, Homes, Owned;
    var s' := Count(s, t);
    assert HoldsOk(s, t) && CountOk(s, t);
    PhaseOf(s, t);
    HeldStepInv(s, s', t);
  }

  lemma PopInv(s: State, t: nat)
    requires Inv(s) && Safe(s, t) && Draining(s.threads[t].phase) && s.heap[s.threads[t].phase.q] != []
    ensures Inv(Pop(s, t))
  {
    hide Deliveries, Homes, Owned;
    var s' := Pop(s, t);
    assert HoldsOk(s, t) && CountOk(s, t);
    PhaseOf(s, t);
    HeldStepInv(s, s', t);
  }

  lemma PhaseOf(s: State, t: nat)
    requires Sized(s) && Homes(s) && t < |s.threads|
    ensures PhaseOk(s, s.threads[t])
  {
  }

  lemma SubtractInv(s: State, t: nat)
    requires Inv(s) && Safe(s, t) && s.threads[t].phase.Settle?
    ensures Inv(Subtract(s, t))
  {
    hide Deliveries, Homes, Owned;
    var s' := Subtract(s, t);
    assert HoldsOk(s, t) && CountOk(s, t);
    PhaseOf(s, t);
    assert OnlyBy(s, s', t);
    MovedHomes(s, t, Idle);
    MovedOwned(s, t, Idle);
    SamePlaces(At(s, t, Idle), s');
    CountsBy(s, s', t);
    DeliveriesBy(s, s', t);
    hide Counts;
    ContentsBy(s, s', t);
  }

  // ---------------------------------------------------------------- steps that hand a queue over

  lemma AllocateInv(s: State, t: nat, op: Op)
    requires Inv(s) && Safe(s, t) && s.threads[t].phase.Idle? && s.threads[t].home.Null?
    ensures Inv(Start(s, t, op))
  {
    hide Deliveries, Homes, Owned, Counts, Contents;
    var s' := Start(s, t, op);
    HoldsOf(s, t);
    assert OnlyBy(s, s', t) by {
      forall u | 0 <= u < |s.threads| && u != t ensures Undisturbed(s, s', u) { }
    }
    AllocatePlaces(s, t, op);
    CountsBy(s, s', t);
    DeliveriesBy(s, s', t);
    ContentsBy(s, s', t);
  }

  lemma HoldsOf(s: State, t: nat)
    requires Inv(s) && t < |s.threads|
    ensures HoldsOk(s, t) && CountOk(s, t) && PhaseOk(s, s.threads[t])
  {
  }

  lemma AllocatePlaces(s: State, t: nat, op: Op)
    requires Sized(s) && Homes(s) && Owned(s) && Safe(s, t) && s.threads[t].phase.Idle? && s.threads[t].home.Null?
    ensures Sized(Start(s, t, op)) && Homes(Start(s, t, op)) && Owned(Start(s, t, op))
  {
    hide Homes, Owned;
    NoSlot(s, t);
    AllocateHomes(s, t, op);
    AllocateOwned(s, t, op);
  }

  lemma NoSlot(s: State, t: nat)
    requires Sized(s) && Homes(s) && t < |s.threads| && SlotOf(s.threads[t]).Null?
    ensures t !in s.owner
  {
  }

  lemma AllocateOwned(s: State, t: nat, op: Op)
    requires Sized(s) && Owned(s) && Safe(s, t) && s.threads[t].phase.Idle? && s.threads[t].home.Null?
    ensures Owned(Start(s, t, op))
  {
    var s' := Start(s, t, op);
    forall q | 0 <= q < |s.own| ensures s'.own[q] == s.own[q] { }
  }

  lemma AllocateHomes(s: State, t: nat, op: Op)
    requires Sized(s) && Homes(s) && Safe(s, t) && s.threads[t].phase.Idle? && s.threads[t].home.Null? && t !in s.owner
    ensures Homes(Start(s, t, op))
  {
  }

  lemma NumberInv(s: State, t: nat)
    requires Inv(s) && Safe(s, t) && s.threads[t].phase.Allocated?
    ensures Inv(Number(s, t))
  {
    hide Deliveries, Homes, Owned, Counts, Contents;
    var s' := Number(s, t);
    HoldsOf(s, t);
    assert OnlyBy(s, s', t) by {
      forall u | 0 <= u < |s.threads| && u != t ensures Undisturbed(s, s', u) { }
    }
    NumberHomes(s, t);
    NumberOwned(s, t);
    CountsBy(s, s', t);
    DeliveriesBy(s, s', t);
    NumberContents(s, t);
  }

  lemma NumberHomes(s: State, t: nat)
    requires Sized(s) && Homes(s) && Safe(s, t) && s.threads[t].phase.Allocated?
    ensures Homes(Number(s, t))
  {
    RoomLeft(s, t);
  }

  lemma NumberOwned(s: State, t: nat)
    requires Sized(s) && Owned(s) && Safe(s, t) && s.threads[t].phase.Allocated?
    ensures Owned(Number(s, t))
  {
  }

  lemma NumberContents(s: State, t: nat)
    requires Sized(s) && Owned(s) && Homes(s) && Contents(s) && Safe(s, t) && s.threads[t].phase.Allocated?
    ensures Contents(Number(s, t))
  {
    hide HoldsOk, Homes, Owned, SlotOk, Mine;
    var s' := Number(s, t);
    forall u | 0 <= u < |s.threads| ensures HoldsOk(s', u) {
      HoldsSame(s, s', u);
    }
    forall i | 0 <= i < s'.counter ensures SlotOk(s', i) {
      NumberSlot(s, t, i);
    }
  }

  lemma NumberSlot(s: State, t: nat, i: nat)
    requires Sized(s) && Homes(s) && Safe(s, t) && s.threads[t].phase.Allocated? && i <= s.counter
    requires i < s.counter ==> SlotOk(s, i)
    ensures SlotOk(Number(s, t), i)
  {
    if i == s.counter {
      assert s.slots[i].Null?;
    }
  }

  lemma HoldsSame(s: State, s': State, u: nat)
    requires Sized(s) && Sized(s') && u < |s.threads| == |s'.threads| && HoldsOk(s, u)
    requires s'.pushed == s.pushed && s'.drawn == s.drawn && s'.heap == s.heap
    requires s'.threads[u].home == s.threads[u].home && Held(s'.threads[u].phase) == Held(s.threads[u].phase)
    requires Draining(s'.threads[u].phase) == Draining(s.threads[u].phase)
    requires s'.threads[u] == s.threads[u] || s'.threads[u].phase.Numbered?
    ensures HoldsOk(s', u)
  {
  }

  /** Thread `t` leaves its queue in its slot `i`. */
  function Deposit(s: State, t: nat, i: nat, th: Thread): State
    requires t < |s.threads| && i < |s.slots| && Held(s.threads[t].phase).Ref? && s.threads[t].phase.q < |s.own|
  {
    var q := s.threads[t].phase.q;
    s.(slots := s.slots[i := Ref(q)], own := s.own[q := InSlot(i)], threads := s.threads[t := th])
  }

  ghost predicate CanDeposit(s: State, t: nat, i: nat, th: Thread) {
    && Sized(s) && t < |s.threads| && i < |s.slots| && Held(s.threads[t].phase).Ref? && s.threads[t].phase.q < |s.own|
    && SlotOf(s.threads[t]) == Ref(i) && SlotOf(th) == Ref(i) && th.home == Ref(i) && Held(th.phase).Null?
    && PhaseOk(s, th)
  }

  lemma DepositHomes(s: State, t: nat, i: nat, th: Thread)
    requires CanDeposit(s, t, i, th) && Homes(s)
    ensures Homes(Deposit(s, t, i, th))
  {
  }

  lemma DepositOwned(s: State, t: nat, i: nat, th: Thread)
    requires CanDeposit(s, t, i, th) && Homes(s) && Owned(s)
    ensures Owned(Deposit(s, t, i, th))
  {
    assert s.slots[i].Null?;
    hide Homes;
    DepositOwnedAt(s, t, i, th);
  }

  lemma DepositOwnedAt(s: State, t: nat, i: nat, th: Thread)
    requires CanDeposit(s, t, i, th) && s.slots[i].Null? && Owned(s)
    ensures Owned(Deposit(s, t, i, th))
  {
  }

  lemma DepositContents(s: State, t: nat, i: nat, th: Thread)
    requires CanDeposit(s, t, i, th) && Homes(s) && Owned(s) && Contents(s) && !Draining(s.threads[t].phase)
    ensures Contents(Deposit(s, t, i, th))
  {
    var s' := Deposit(s, t, i, th);
    hide Homes, Owned, Mine, HoldsOk, SlotOk;
    SlotCounted(s, t);
    forall u | 0 <= u < |s.threads| ensures HoldsOk(s', u) {
      DepositHolds(s, t, i, th, u);
    }
    forall j | 0 <= j < s.counter ensures SlotOk(s', j) {
      DepositHolds(s, t, i, th, t);
      DepositSlot(s, t, i, th, j);
    }
  }

  lemma DepositSlot(s: State, t: nat, i: nat, th: Thread, j: nat)
    requires CanDeposit(s, t, i, th) && j < s.counter && SlotOk(s, j) && i < s.counter && s.owner[i] == t
    requires s.heap[s.threads[t].phase.q] == Mine(s, t)
    ensures SlotOk(Deposit(s, t, i, th), j)
  {
  }

  lemma DepositHolds(s: State, t: nat, i: nat, th: Thread, u: nat)
    requires CanDeposit(s, t, i, th) && u < |s.threads| && HoldsOk(s, u)
    ensures HoldsOk(Deposit(s, t, i, th), u)
    ensures u == t && s.threads[t].phase.q < |s.heap| && !Draining(s.threads[t].phase) ==>
              s.heap[s.threads[t].phase.q] == Mine(s, t)
  {
  }

  lemma DepositInv(s: State, t: nat, i: nat, th: Thread)
    requires Inv(s) && CanDeposit(s, t, i, th) && !Draining(s.threads[t].phase) && th.out == s.threads[t].out
    requires CountOk(Deposit(s, t, i, th), t) && Credit(Deposit(s, t, i, th), t) == Credit(s, t)
    ensures Inv(Deposit(s, t, i, th))
  {
    hide Deliveries, Homes, Owned, Counts, Contents, CountOk, Credit;
    var s' := Deposit(s, t, i, th);
    assert OnlyBy(s, s', t) by {
      forall u | 0 <= u < |s.threads| && u != t ensures Undisturbed(s, s', u) { }
    }
    DepositHomes(s, t, i, th);
    DepositOwned(s, t, i, th);
    DepositContents(s, t, i, th);
    CountsBy(s, s', t);
    DeliveriesBy(s, s', t);
  }

  lemma InstallInv(s: State, t: nat)
    requires Inv(s) && Safe(s, t) && s.threads[t].phase.Numbered?
    ensures Inv(Install(s, t))
  {
    hide Deliveries, Homes, Owned, Counts, Contents;
    HoldsOf(s, t);
    SlotCounted(s, t);
    var ph := s.threads[t].phase;
    DepositInv(s, t, ph.i, s.threads[t].(home := Ref(ph.i), phase := StealLoad(ph.op)));
  }

  lemma SlotCounted(s: State, t: nat)
    requires Sized(s) && Homes(s) && t < |s.threads| && SlotOf(s.threads[t]).Ref?
    ensures SlotOf(s.threads[t]).id < s.counter && s.owner[SlotOf(s.threads[t]).id] == t
    ensures s.slots[SlotOf(s.threads[t]).id].Null? <==> Held(s.threads[t].phase).Ref?
  {
  }

  lemma PutBackInv(s: State, t: nat)
    requires Inv(s) && Safe(s, t) && s.threads[t].phase.ReturnCas?
    requires s.slots[s.threads[t].home.id] == s.threads[t].phase.seen
    ensures Inv(PutBack(s, t))
  {
    hide Deliveries, Homes, Owned, Counts, Contents;
    HoldsOf(s, t);
    SlotCounted(s, t);
    var ph := s.threads[t].phase;
    DepositInv(s, t, s.threads[t].home.id, s.threads[t].(phase := if ph.consumer then Settle(ph.count) else Idle));
  }

  /** Thread `t` empties its slot `h`, which points to `q`. */
  function Withdraw(s: State, t: nat, h: nat, q: nat, ph: Phase): State
    requires t < |s.threads| && h < |s.slots| && q < |s.own|
  {
    At(s.(slots := s.slots[h := Null], own := s.own[q := ByThread(t)]), t, ph)
  }

  ghost predicate CanWithdraw(s: State, t: nat, h: nat, q: nat, ph: Phase) {
    && Sized(s) && t < |s.threads| && s.threads[t].home == Ref(h) && h < |s.slots| && s.slots[h] == Ref(q)
        && q < |s.own|
    && s.threads[t].phase.StealCas? && Held(ph) == Ref(q) && !ph.Numbered? && PhaseOk(s, s.threads[t].(phase := ph))
  }

  lemma WithdrawHomes(s: State, t: nat, h: nat, q: nat, ph: Phase)
    requires CanWithdraw(s, t, h, q, ph) && Homes(s)
    ensures Homes(Withdraw(s, t, h, q, ph))
  {
  }

  lemma WithdrawOwned(s: State, t: nat, h: nat, q: nat, ph: Phase)
    requires CanWithdraw(s, t, h, q, ph) && Owned(s)
    ensures Owned(Withdraw(s, t, h, q, ph))
  {
  }

  /** After a step by `t` that empties its own slot. */
  lemma WithdrawContents(s: State, s': State, t: nat, h: nat)
    requires OnlyBy(s, s', t) && t < |s.threads| && Homes(s) && Owned(s) && Contents(s) && HoldsOk(s', t)
    requires s.threads[t].home == Ref(h) && s.threads[t].phase.StealCas? && h < |s.slots|
             && s'.slots == s.slots[h := Null]
    requires s'.owner == s.owner && s'.heap == s.heap
    ensures Contents(s')
  {
    hide HoldsOk, Owned, Homes, Mine, Undisturbed;
    SlotCounted(s, t);
    forall u | 0 <= u < |s.threads| && u != t ensures HoldsOk(s', u) {
      Untouched(s, s', t, u);
    }
    forall i | 0 <= i < s.counter ensures SlotOk(s', i) {
      assert SlotOk(s, i);
      if i != h {
        SlotOwner(s, t, h, i);
        MineSame(s, s', t, s.owner[i]);
      }
    }
  }

  lemma SlotOwner(s: State, t: nat, h: nat, i: nat)
    requires Sized(s) && Homes(s) && t < |s.threads| && SlotOf(s.threads[t]) == Ref(h) && i < s.counter && i != h
    ensures s.owner[i] != t
  {
  }

  lemma MineSame(s: State, s': State, t: nat, u: nat)
    requires OnlyBy(s, s', t) && u < |s.threads| && u != t
    ensures Mine(s', u) == Mine(s, u)
  {
    assert Undisturbed(s, s', u);
  }

  ghost predicate CanSteal(s: State, t: nat) {
    Safe(s, t) && Sized(s) && s.threads[t].phase.StealCas? && s.slots[s.threads[t].home.id] == s.threads[t].phase.seen
  }

  lemma StealPlaces(s: State, t: nat)
    requires CanSteal(s, t) && Homes(s) && Owned(s)
    ensures Sized(Steal(s, t)) && Homes(Steal(s, t)) && Owned(Steal(s, t))
  {
    hide Homes, Owned;
    var ph, h := s.threads[t].phase, s.threads[t].home.id;
    var q, s' := ph.seen.id, Steal(s, t);
    PhaseOf(s, t);
    var w := Withdraw(s, t, h, q, s'.threads[t].phase);
    WithdrawHomes(s, t, h, q, s'.threads[t].phase);
    WithdrawOwned(s, t, h, q, s'.threads[t].phase);
    SamePlaces(w, s');
  }

  lemma StealFrame(s: State, t: nat)
    requires CanSteal(s, t)
    ensures OnlyBy(s, Steal(s, t), t)
    ensures var s' := Steal(s, t);
            s'.owner == s.owner && s'.heap == s.heap && s'.numItems == s.numItems && s'.pushed == s.pushed
            && s'.slots == s.slots[s.threads[t].home.id := Null] && s'.threads[t].out == s.threads[t].out
            && s'.drawn == (if s.threads[t].phase.op.GetAll? then Took(s, t, t).drawn else s.drawn)
  {
    var s' := Steal(s, t);
    forall u | 0 <= u < |s.threads| && u != t ensures Undisturbed(s, s', u) { }
  }

  /** The thread's own entries after the theft. */
  lemma StealLocal(s: State, t: nat)
    requires CanSteal(s, t) && HoldsOk(s, t) && CountOk(s, t) && s.heap[s.threads[t].phase.seen.id] == Mine(s, t)
    ensures var s' := Steal(s, t);
            && Sized(s') && HoldsOk(s', t) && CountOk(s', t) && Credit(s', t) == Credit(s, t) && Pending(s, t) == []
            && Pending(s', t) == (if s.threads[t].phase.op.GetAll? then Mine(s, t) else [])
  {
  }

  lemma StealInv(s: State, t: nat)
    requires Inv(s) && CanSteal(s, t)
    ensures Inv(Steal(s, t))
  {
    hide Deliveries, Homes, Owned, Counts, Contents, Steal, HoldsOk, CountOk, Credit, Pending, Mine, Took;
    var h, s' := s.threads[t].home.id, Steal(s, t);
    HoldsOf(s, t);
    SlotCounted(s, t);
    SlotHolds(s, h);
    StealLocal(s, t);
    StealFrame(s, t);
    StealPlaces(s, t);
    WithdrawContents(s, s', t, h);
    CountsBy(s, s', t);
    if s.threads[t].phase.op.GetAll? {
      forall u | 0 <= u < |s.threads| && u != t ensures Grabbed(s', u) == Grabbed(s, u) {
        Untouched(s, s', t, u);
      }
      Untaken(s, t);
      TakeDeliveries(s, s', t, t);
    } else {
      DeliveriesBy(s, s', t);
    }
  }

  lemma Untaken(s: State, t: nat)
    requires Sized(s) && t < |s.threads| && HoldsOk(s, t)
    ensures |s.drawn[t]| <= s.pushed[t]
  {
  }

  lemma SlotHolds(s: State, i: nat)
    requires Inv(s) && i < s.counter && s.slots[i].Ref?
    ensures s.slots[i].id < |s.heap| && s.heap[s.slots[i].id] == Mine(s, s.owner[i])
  {
    assert SlotOk(s, i);
  }

  // ---------------------------------------------------------------- taking another thread's items

  /** `c` takes everything of `p` not taken before. */
  lemma TakeDeliveries(s: State, s': State, c: nat, p: nat)
    requires Sized(s) && Sized(s') && |s.threads| == |s'.threads| && c < |s.threads| && p < |s.threads| && Deliveries(s)
    requires |s.drawn[p]| <= s.pushed[p] && s'.drawn == Took(s, p, c).drawn
    requires s.threads[c].out == s'.threads[c].out && Pending(s, c) == [] && Pending(s', c) == Mine(s, p)
    requires forall u :: 0 <= u < |s.threads| && u != c ==> Grabbed(s', u) == Grabbed(s, u)
    ensures Deliveries(s')
  {
    hide InPushOrder, TakenBy, Grabbed, Mine, Took, Deliveries;
    assert Grabbed(s', c) == Grabbed(s, c) + Mine(s, p) by {
      GrabbedMore(s, s', c, Mine(s, p));
    }
    TakeSound(s, s', c, p);
    TakeComplete(s, s', c, p);
    DeliveriesFrom(s');
  }

  lemma DeliveriesFrom(s: State)
    requires Sized(s)
    requires forall u :: 0 <= u < |s.threads| ==> InPushOrder(Grabbed(s, u)) && TakenBy(Grabbed(s, u), s.drawn, u)
    requires forall p, k :: 0 <= p < |s.threads| && 0 <= k < |s.drawn[p]| ==>
               s.drawn[p][k] < |s.threads| && Item(p, k) in Grabbed(s, s.drawn[p][k])
    ensures Deliveries(s)
  {
    hide InPushOrder, TakenBy, Grabbed;
  }

  lemma GrabbedMore(s: State, s': State, c: nat, more: seq<Item>)
    requires Sized(s) && Sized(s') && c < |s.threads| == |s'.threads|
    requires s.threads[c].out == s'.threads[c].out && Pending(s, c) == [] && Pending(s', c) == more
    ensures Grabbed(s', c) == Grabbed(s, c) + more
  {
    hide Pending;
  }

  lemma TakeSound(s: State, s': State, c: nat, p: nat)
    requires Sized(s) && Sized(s') && |s.threads| == |s'.threads| && c < |s.threads| && p < |s.threads| && Deliveries(s)
    requires |s.drawn[p]| <= s.pushed[p] && s'.drawn == Took(s, p, c).drawn
    requires Grabbed(s', c) == Grabbed(s, c) + Mine(s, p)
    requires forall u :: 0 <= u < |s.threads| && u != c ==> Grabbed(s', u) == Grabbed(s, u)
    ensures forall u :: 0 <= u < |s.threads| ==> InPushOrder(Grabbed(s', u)) && TakenBy(Grabbed(s', u), s'.drawn, u)
  {
    hide InPushOrder, TakenBy, Grabbed;
    TakeOrder(Grabbed(s, c), s.drawn, c, p, s.pushed[p]);
    forall u | 0 <= u < |s.threads| && u != c ensures TakenBy(Grabbed(s, u), s'.drawn, u) {
      TakeOthers(Grabbed(s, u), s.drawn, s'.drawn, u);
    }
  }

  lemma TakeComplete(s: State, s': State, c: nat, p: nat)
    requires Sized(s) && Sized(s') && |s.threads| == |s'.threads| && c < |s.threads| && p < |s.threads| && Deliveries(s)
    requires |s.drawn[p]| <= s.pushed[p] && s'.drawn == Took(s, p, c).drawn
    requires Grabbed(s', c) == Grabbed(s, c) + Mine(s, p)
    requires forall u :: 0 <= u < |s.threads| && u != c ==> Grabbed(s', u) == Grabbed(s, u)
    ensures forall p', k :: 0 <= p' < |s.threads| && 0 <= k < |s'.drawn[p']| ==>
              s'.drawn[p'][k] < |s.threads| && Item(p', k) in Grabbed(s', s'.drawn[p'][k])
  {
    hide InPushOrder, TakenBy, Grabbed;
    forall p', k | 0 <= p' < |s.threads| && 0 <= k < |s'.drawn[p']|
      ensures s'.drawn[p'][k] < |s.threads| && Item(p', k) in Grabbed(s', s'.drawn[p'][k])
    {
      if p' == p && k >= |s.drawn[p]| {
        assert Mine(s, p)[k - |s.drawn[p]|] == Item(p, k);
      } else {
        assert s'.drawn[p'][k] == s.drawn[p'][k];
        assert Item(p', k) in Grabbed(s, s.drawn[p'][k]);
      }
    }
  }

  lemma TakeOrder(g: seq<Item>, drawn: seq<seq<nat>>, c: nat, p: nat, hi: nat)
    requires p < |drawn| && |drawn[p]| <= hi && InPushOrder(g) && TakenBy(g, drawn, c)
    ensures InPushOrder(g + Items(p, |drawn[p]|, hi))
    ensures TakenBy(g + Items(p, |drawn[p]|, hi), drawn[p := drawn[p] + seq(hi - |drawn[p]|, _ => c)], c)
  {
  }

  lemma TakeOthers(g: seq<Item>, drawn: seq<seq<nat>>, drawn': seq<seq<nat>>, u: nat)
    requires TakenBy(g, drawn, u) && |drawn| == |drawn'|
    requires forall p :: 0 <= p < |drawn| ==> |drawn[p]| <= |drawn'[p]| && drawn[p] == drawn'[p][..|drawn[p]|]
    ensures TakenBy(g, drawn', u)
  {
  }

  ghost predicate CanExchange(s: State, t: nat) {
    Safe(s, t) && Sized(s) && s.threads[t].phase.VisitCas?
        && s.slots[s.threads[t].phase.i] == Ref(s.threads[t].phase.found)
  }

  lemma ExchangeHomes(s: State, t: nat)
    requires CanExchange(s, t) && Homes(s)
    ensures Sized(Exchange(s, t)) && Homes(Exchange(s, t))
  {
  }

  lemma ExchangeOwned(s: State, t: nat)
    requires CanExchange(s, t) && Owned(s)
    ensures Sized(Exchange(s, t)) && Owned(Exchange(s, t))
  {
    hide Owned;
    var ph := s.threads[t].phase;
    HeldIn(s, t);
    SlotIn(s, ph.i);
    SwappedOwned(s, Exchange(s, t), t, ph.i, ph.q, ph.found);
  }

  /** Slot `i` and thread `t` trade queues. */
  lemma SwappedOwned(s: State, s': State, t: nat, i: nat, q: nat, x: nat)
    requires Sized(s) && Sized(s') && Owned(s) && t < |s.threads| == |s'.threads| && i < |s.slots|
    requires q < |s.own| && x < |s.own| && s.own[q] == ByThread(t) && s.own[x] == InSlot(i)
    requires s'.slots == s.slots[i := Ref(q)] && s'.own == s.own[q := InSlot(i)][x := ByThread(t)]
    requires Held(s'.threads[t].phase) == Ref(x)
    requires forall u :: 0 <= u < |s.threads| && u != t ==> s'.threads[u] == s.threads[u]
    ensures Owned(s')
  {
    forall y | 0 <= y < |s'.own|
      ensures match s'.own[y] {
                case InSlot(j) => j < |s'.slots| && s'.slots[j] == Ref(y)
                case ByThread(u) => u < |s'.threads| && Held(s'.threads[u].phase) == Ref(y)
              }
    {
      if y != q && y != x {
        assert s'.own[y] == s.own[y];
      }
    }
  }

  lemma NotOwnSlot(s: State, t: nat)
    requires CanExchange(s, t) && Homes(s)
    ensures s.owner[s.threads[t].phase.i] != t && !Draining(s.threads[s.owner[s.threads[t].phase.i]].phase)
    ensures Held(s.threads[s.owner[s.threads[t].phase.i]].phase).Null?
  {
  }

  lemma ExchangeOther(s: State, t: nat, u: nat)
    requires Inv(s) && CanExchange(s, t) && u < |s.threads| && u != t && u != s.owner[s.threads[t].phase.i]
    ensures Sized(Exchange(s, t)) && Undisturbed(s, Exchange(s, t), u)
  {
    hide Deliveries, Homes, Owned, Counts, Contents;
  }

  lemma ExchangeContents(s: State, t: nat)
    requires Inv(s) && CanExchange(s, t)
    ensures Sized(Exchange(s, t)) && Contents(Exchange(s, t))
  {
    hide Deliveries, Homes, Owned, Counts, HoldsOk, SlotOk;
    var s' := Exchange(s, t);
    var i := s.threads[t].phase.i;
    NotOwnSlot(s, t);
    forall u | 0 <= u < |s.threads| ensures HoldsOk(s', u) {
      ExchangeHolds(s, t, u);
    }
    forall j | 0 <= j < s.counter ensures SlotOk(s', j) {
      ExchangeSlot(s, t, j);
    }
  }

  lemma ExchangeHolds(s: State, t: nat, u: nat)
    requires CanExchange(s, t) && Homes(s) && u < |s.threads| && HoldsOk(s, u)
    ensures Sized(Exchange(s, t)) && HoldsOk(Exchange(s, t), u)
  {
    NotOwnSlot(s, t);
    hide Homes;
  }

  lemma ExchangeSlot(s: State, t: nat, j: nat)
    requires CanExchange(s, t) && Homes(s) && j < s.counter && SlotOk(s, j) && HoldsOk(s, t)
    ensures Sized(Exchange(s, t)) && SlotOk(Exchange(s, t), j)
  {
    var i := s.threads[t].phase.i;
    NotOwnSlot(s, t);
    if j != i {
      assert s.owner[j] != s.owner[i] by {
        assert SlotOf(s.threads[s.owner[i]]) == Ref(i) && SlotOf(s.threads[s.owner[j]]) == Ref(j);
      }
    }
    hide Homes;
  }

  lemma ExchangeCounts(s: State, t: nat)
    requires Inv(s) && CanExchange(s, t)
    ensures Sized(Exchange(s, t)) && Counts(Exchange(s, t))
  {
    hide Deliveries, Homes, Owned, Contents, CountOk, Credit;
    var s', p := Exchange(s, t), s.owner[s.threads[t].phase.i];
    NotOwnSlot(s, t);
    ExchangeCredit(s, t);
    forall u | 0 <= u < |s.threads| && u != t && u != p ensures CountOk(s', u) && Credit(s', u) == Credit(s, u) {
      ExchangeOther(s, t, u);
      if Held(s.threads[u].phase).Ref? {
        HeldIn(s, u);
      }
      UndisturbedKeeps(s, s', u);
    }
    var mid := Credits(s)[p := Credit(s', p)];
    SumChange(Credits(s), mid, p);
    SumChange(mid, Credits(s'), t);
  }

  lemma ExchangeCredit(s: State, t: nat)
    requires Inv(s) && CanExchange(s, t)
    ensures var s', p := Exchange(s, t), s.owner[s.threads[t].phase.i];
            && Sized(s') && CountOk(s', t) && CountOk(s', p)
            && Credit(s', t) + Credit(s', p) == Credit(s, t) + Credit(s, p)
  {
    hide Deliveries, Homes, Owned, Contents, Counts;
    var p := s.owner[s.threads[t].phase.i];
    NotOwnSlot(s, t);
    HoldsOf(s, t);
    HoldsOf(s, p);
    SlotHolds(s, s.threads[t].phase.i);
  }

  lemma ExchangeInv(s: State, t: nat)
    requires Inv(s) && CanExchange(s, t)
    ensures Inv(Exchange(s, t))
  {
    hide Deliveries, Homes, Owned, Contents, Counts, Grabbed, Undisturbed, HoldsOk, CountOk;
    var s', p := Exchange(s, t), s.owner[s.threads[t].phase.i];
    ExchangeHomes(s, t);
    ExchangeOwned(s, t);
    ExchangeContents(s, t);
    ExchangeCounts(s, t);
    NotOwnSlot(s, t);
    SlotHolds(s, s.threads[t].phase.i);
    HoldsOf(s, p);
    forall u | 0 <= u < |s.threads| && u != t ensures Grabbed(s', u) == Grabbed(s, u) {
      ExchangeGrabbed(s, t, u);
    }
    TakeDeliveries(s, s', t, p);
  }

  lemma ExchangeGrabbed(s: State, t: nat, u: nat)
    requires Inv(s) && CanExchange(s, t) && u < |s.threads| && u != t
    ensures Sized(Exchange(s, t)) && Grabbed(Exchange(s, t), u) == Grabbed(s, u)
  {
    hide Deliveries, Homes, Owned, Contents, Counts;
  }

  // ---------------------------------------------------------------- every run

  lemma StepInv(s: State, t: nat, op: Op)
    requires Inv(s) && t < |s.threads|
    ensures Safe(s, t) && Inv(Step(s, t, op))
  {
    hide Deliveries, Homes, Owned, Counts, Contents;
    InvSafe(s, t);
    HoldsOf(s, t);
    var ph := s.threads[t].phase;
    match ph
    case Idle =>
      if s.threads[t].home.Null? {
        AllocateInv(s, t, op);
      } else {
        MovedOn(s, t, StealLoad(op));
      }
    case Allocated(_, _) => NumberInv(s, t);
    case Numbered(_, _, _) => InstallInv(s, t);
    case StealLoad(_) => StealingInv(s, t, op);
    case StealCas(_, _) => StealingInv(s, t, op);
    case Filling(_, _, _, _) => FillInv(s, t);
    case DrainOwn(_, _) => DrainInv(s, t);
    case DrainSlot(_, _, _, _) => DrainInv(s, t);
    case Visit(_, _, _, _) => LookInv(s, t);
    case VisitCas(q, i, c, count, found) =>
      if s.slots[i] == Ref(found) {
        ExchangeInv(s, t);
      } else {
        MovedOn(s, t, Visit(q, i, c, count));
      }
    case ReturnLoad(q, count, consumer) => MovedOn(s, t, ReturnCas(q, count, consumer, s.slots[s.threads[t].home.id]));
    case ReturnCas(q, count, consumer, seen) =>
      if s.slots[s.threads[t].home.id] == seen {
        PutBackInv(s, t);
      } else {
        MovedOn(s, t, ReturnLoad(q, count, consumer));
      }
    case Settle(_) => SubtractInv(s, t);
  }

  lemma StealingInv(s: State, t: nat, op: Op)
    requires Inv(s) && Safe(s, t) && (s.threads[t].phase.StealLoad? || s.threads[t].phase.StealCas?)
    ensures Inv(Step(s, t, op))
  {
    hide Deliveries, Homes, Owned, Counts, Contents;
    HoldsOf(s, t);
    var h, o := s.threads[t].home.id, s.threads[t].phase.op;
    SlotCounted(s, t);
    SlotHolds(s, h);
    if s.threads[t].phase.StealLoad? {
      MovedOn(s, t, StealCas(o, s.slots[h]));
    } else if s.slots[h] == s.threads[t].phase.seen {
      StealInv(s, t);
    } else {
      MovedOn(s, t, StealLoad(o));
    }
  }

  lemma FillInv(s: State, t: nat)
    requires Inv(s) && Safe(s, t) && s.threads[t].phase.Filling?
    ensures Inv(Fill(s, t))
  {
    hide Inv;
    var ph := s.threads[t].phase;
    if ph.due > 0 && (ph.op.PushQueue? || ph.left == 0) {
      CountInv(s, t);
    } else if ph.left > 0 {
      PushOneInv(s, t);
    } else {
      HoldsOf(s, t);
      MovedOn(s, t, ReturnLoad(ph.q, 0, false));
    }
  }

  lemma DrainInv(s: State, t: nat)
    requires Inv(s) && Safe(s, t) && Draining(s.threads[t].phase)
    ensures Inv(Drain(s, t))
  {
    hide Inv;
    var ph := s.threads[t].phase;
    HoldsOf(s, t);
    if s.heap[ph.q] != [] {
      PopInv(s, t);
    } else if ph.DrainOwn? {
      MovedOn(s, t, Visit(ph.q, 0, s.counter, ph.count));
    } else {
      MovedOn(s, t, Visit(ph.q, ph.i + 1, ph.c, ph.count));
    }
  }

  lemma LookInv(s: State, t: nat)
    requires Inv(s) && Safe(s, t) && s.threads[t].phase.Visit?
    ensures Inv(Look(s, t))
  {
    hide Deliveries, Homes, Owned, Counts, Contents;
    var ph := s.threads[t].phase;
    HoldsOf(s, t);
    if ph.i >= ph.c {
      MovedOn(s, t, ReturnLoad(ph.q, ph.count, true));
    } else if s.slots[ph.i].Null? {
      MovedOn(s, t, Visit(ph.q, ph.i + 1, ph.c, ph.count));
    } else {
      SlotHolds(s, ph.i);
      MovedOn(s, t, VisitCas(ph.q, ph.i, ph.c, ph.count, s.slots[ph.i].id));
    }
  }

  datatype Turn = Turn(thread: nat, op: Op)

  /** The state after a schedule: each turn is one atomic step of one thread. Turns of unknown threads are ignored. */
  function Exec(threads: nat, turns: seq<Turn>): State {
    if turns == [] then Init(threads)
    else
      var s, turn := Exec(threads, turns[..|turns| - 1]), turns[|turns| - 1];
      if turn.thread < threads && Safe(s, turn.thread) then Step(s, turn.thread, turn.op) else s
  }

  /** The invariant holds throughout, so no step is ever held back for being unsafe. */
  lemma {:induction false} RunInv(threads: nat, turns: seq<Turn>)
    requires threads <= MaxThreads
    ensures var s := Exec(threads, turns);
            Inv(s) && |s.threads| == threads && forall t :: 0 <= t < threads ==> Safe(s, t)
  {
    hide Inv, Safe, Step;
    if turns == [] {
      InitInv(threads);
    } else {
      var s, turn := Exec(threads, turns[..|turns| - 1]), turns[|turns| - 1];
      RunInv(threads, turns[..|turns| - 1]);
      if turn.thread < threads {
        StepInv(s, turn.thread, turn.op);
        StepThreads(s, turn.thread, turn.op);
      }
    }
    var s' := Exec(threads, turns);
    forall t | 0 <= t < threads ensures Safe(s', t) {
      InvSafe(s', t);
    }
  }

  lemma InitInv(threads: nat)
    requires threads <= MaxThreads
    ensures Inv(Init(threads)) && |Init(threads).threads| == threads
  {
    var s := Init(threads);
    SumZero(Credits(s));
  }

  lemma StepThreads(s: State, t: nat, op: Op)
    requires Safe(s, t)
    ensures |Step(s, t, op).threads| == |s.threads|
  {
  }

  // ---------------------------------------------------------------- what holds at every moment of every run

  predicate Owns(s: State, o: Owner, q: nat) {
    match o
    case InSlot(i) => i < |s.slots| && s.slots[i] == Ref(q)
    case ByThread(t) => t < |s.threads| && Held(s.threads[t].phase) == Ref(q)
  }

  /** Every inner queue is in one slot or with one thread; none is shared and none is lost. */
  lemma UniqueOwner(threads: nat, turns: seq<Turn>, q: nat)
    requires threads <= MaxThreads && q < |Exec(threads, turns).heap|
    ensures exists o :: Owns(Exec(threads, turns), o, q)
    ensures forall o, o' :: Owns(Exec(threads, turns), o, q) && Owns(Exec(threads, turns), o', q) ==> o == o'
  {
    hide Homes, Contents, Counts, Deliveries, Exec;
    RunInv(threads, turns);
    var s := Exec(threads, turns);
    assert Owned(s) && Owns(s, s.own[q], q);
  }

  /** A place for an item: the `n`-th received by a consumer, or the `n`-th in an inner queue. */
  datatype Place = Out(c: nat, n: nat) | In(q: nat, n: nat)

  predicate IsAt(s: State, x: Item, p: Place) {
    match p
    case Out(c, n) => c < |s.threads| && n < |s.threads[c].out| && s.threads[c].out[n] == x
    case In(q, n) => q < |s.heap| && n < |s.heap[q]| && s.heap[q][n] == x
  }

  predicate IsPushed(s: State, x: Item) {
    x.producer < |s.pushed| && x.index < s.pushed[x.producer]
  }

  /** Thread `c` is draining queue `q`. */
  predicate Drains(s: State, c: nat, q: nat) {
    && c < |s.threads| && q < |s.own| && s.own[q] == ByThread(c)
    && Draining(s.threads[c].phase) && s.threads[c].phase.q == q
  }

  /** Where the queues are and what they contain, thread by thread. */
  lemma QueueItems(s: State, q: nat)
    requires Inv(s) && q < |s.heap|
    ensures (exists c :: 0 <= c < |s.threads| && Drains(s, c, q))
            || (exists t :: 0 <= t < |s.threads| && s.heap[q] == Mine(s, t) && s.own[q] == Keeper(s, t))
            || s.heap[q] == []
  {
    hide Counts, Deliveries, Homes, Contents, Owned, Mine;
    OwnerHolds(s, q);
    match s.own[q]
    case InSlot(i) =>
      SlotHolds(s, i);
      SlotHome(s, i);
      assert s.own[q] == Keeper(s, s.owner[i]);
    case ByThread(t) =>
      HoldsOf(s, t);
      if Draining(s.threads[t].phase) {
        assert Drains(s, t, q);
      } else {
        assert s.own[q] == Keeper(s, t);
      }
  }

  lemma OwnerHolds(s: State, q: nat)
    requires Inv(s) && q < |s.own|
    ensures s.own[q].InSlot? ==> s.own[q].i < s.counter && s.slots[s.own[q].i] == Ref(q)
    ensures s.own[q].ByThread? ==> s.own[q].t < |s.threads| && Held(s.threads[s.own[q].t].phase) == Ref(q)
  {
    hide Counts, Deliveries, Contents;
  }

  lemma SlotHome(s: State, i: nat)
    requires Sized(s) && Homes(s) && i < s.counter && s.slots[i].Ref?
    ensures s.threads[s.owner[i]].home == Ref(i) && Held(s.threads[s.owner[i]].phase).Null?
  {
    assert SlotOf(s.threads[s.owner[i]]) == Ref(i);
  }

  /** Who owns the queue with the items of thread `t` that nobody took. */
  function Keeper(s: State, t: nat): Owner
    requires t < |s.threads|
  {
    if Held(s.threads[t].phase).Ref? then ByThread(t)
    else if s.threads[t].home.Ref? then InSlot(s.threads[t].home.id) else ByThread(t)
  }

  /** The place of the `g`-th item that `c` took. */
  function PlaceIn(s: State, c: nat, g: nat): Place
    requires c < |s.threads| && (g >= |s.threads[c].out| ==> Draining(s.threads[c].phase))
  {
    if g < |s.threads[c].out| then Out(c, g) else In(s.threads[c].phase.q, g - |s.threads[c].out|)
  }

  /** Taken items are with their taker. */
  ghost predicate WithTaker(s: State, x: Item, p: Place)
    requires Sized(s)
  {
    && x.producer < |s.threads| && x.index < |s.drawn[x.producer]|
    && var c := s.drawn[x.producer][x.index];
    && c < |s.threads|
    && exists g :: 0 <= g < |Grabbed(s, c)| && Grabbed(s, c)[g] == x && p == PlaceIn(s, c, g)
  }

  /** Items not taken are with their producer, or in its slot. */
  ghost predicate WithProducer(s: State, x: Item, p: Place)
    requires Sized(s)
  {
    && x.producer < |s.threads| && |s.drawn[x.producer]| <= x.index < s.pushed[x.producer]
    && p.In? && p.q < |s.own| && s.own[p.q] == Keeper(s, x.producer) && p.n == x.index - |s.drawn[x.producer]|
  }

  lemma GrabbedAt(s: State, x: Item, c: nat, g: nat)
    requires Inv(s) && c < |s.threads| && g < |Grabbed(s, c)| && Grabbed(s, c)[g] == x
    ensures WithTaker(s, x, PlaceIn(s, c, g)) && s.drawn[x.producer][x.index] == c && IsPushed(s, x)
  {
    hide Homes, Owned, Counts;
    assert TakenBy(Grabbed(s, c), s.drawn, c);
    assert HoldsOk(s, x.producer);
  }

  lemma Located(s: State, x: Item, p: Place)
    requires Inv(s) && IsAt(s, x, p)
    ensures IsPushed(s, x) && (WithTaker(s, x, p) || WithProducer(s, x, p))
  {
    hide Inv, WithTaker;
    match p
    case Out(c, n) =>
      InvSized(s);
      GrabbedAt(s, x, c, n);
    case In(q, n) =>
      InvSized(s);
      QueueItems(s, q);
      if c :| 0 <= c < |s.threads| && Drains(s, c, q) {
        GrabbedAt(s, x, c, |s.threads[c].out| + n);
      }
  }

  lemma InvSized(s: State)
    requires Inv(s)
    ensures Sized(s)
  {
  }

  lemma PlaceUnique(s: State, x: Item, p: Place, p': Place)
    requires Inv(s) && (WithTaker(s, x, p) || WithProducer(s, x, p)) && (WithTaker(s, x, p') || WithProducer(s, x, p'))
    ensures p == p'
  {
    hide Homes, Contents, Counts;
    if x.index < |s.drawn[x.producer]| {
      hide Owned, WithProducer;
      var c := s.drawn[x.producer][x.index];
      var g :| 0 <= g < |Grabbed(s, c)| && Grabbed(s, c)[g] == x && p == PlaceIn(s, c, g);
      var g' :| 0 <= g' < |Grabbed(s, c)| && Grabbed(s, c)[g'] == x && p' == PlaceIn(s, c, g');
      assert InPushOrder(Grabbed(s, c));
    } else {
      hide Deliveries;
      OneQueue(s, p.q, p'.q);
    }
  }

  lemma OneQueue(s: State, q: nat, q': nat)
    requires Sized(s) && Owned(s) && q < |s.own| && q' < |s.own| && s.own[q] == s.own[q']
    ensures q == q'
  {
  }

  lemma Kept(s: State, x: Item)
    requires Inv(s) && IsPushed(s, x) && |s.drawn[x.producer]| <= x.index
    ensures exists p :: IsAt(s, x, p)
  {
    hide Counts, Deliveries, Homes, Owned, Contents;
    var t := x.producer;
    var n := x.index - |s.drawn[t]|;
    HoldsOf(s, t);
    assert Mine(s, t)[n] == x;
    if Held(s.threads[t].phase).Ref? {
      HeldIn(s, t);
      assert IsAt(s, x, In(s.threads[t].phase.q, n));
    } else {
      SlotCounted(s, t);
      SlotHolds(s, s.threads[t].home.id);
      assert IsAt(s, x, In(s.slots[s.threads[t].home.id].id, n));
    }
  }

  lemma Taken(s: State, x: Item)
    requires Inv(s) && x.producer < |s.threads| && x.index < |s.drawn[x.producer]|
    ensures exists p :: IsAt(s, x, p)
  {
    hide Counts, Homes, Owned, Contents;
    var c := s.drawn[x.producer][x.index];
    assert x == Item(x.producer, x.index);
    assert x in Grabbed(s, c);
    var g :| 0 <= g < |Grabbed(s, c)| && Grabbed(s, c)[g] == x;
    assert IsAt(s, x, PlaceIn(s, c, g));
  }

  /** Pushed items are exactly those received or still queued, each in one place only. */
  lemma ExactlyOnce(threads: nat, turns: seq<Turn>, x: Item)
    requires threads <= MaxThreads
    ensures var s := Exec(threads, turns);
            && (IsPushed(s, x) <==> exists p :: IsAt(s, x, p))
            && forall p, p' :: IsAt(s, x, p) && IsAt(s, x, p') ==> p == p'
  {
    hide Inv, Exec;
    RunInv(threads, turns);
    var s := Exec(threads, turns);
    InvSized(s);
    forall p | IsAt(s, x, p) ensures IsPushed(s, x) {
      Located(s, x, p);
    }
    forall p, p' | IsAt(s, x, p) && IsAt(s, x, p') ensures p == p' {
      Located(s, x, p);
      Located(s, x, p');
      PlaceUnique(s, x, p, p');
    }
    if IsPushed(s, x) {
      if x.index < |s.drawn[x.producer]| {
        Taken(s, x);
      } else {
        Kept(s, x);
      }
    }
  }

  /** A consumer receives each producer's items in the order they were pushed. */
  lemma ProducerOrder(threads: nat, turns: seq<Turn>, c: nat, a: nat, b: nat)
    requires threads <= MaxThreads && c < |Exec(threads, turns).threads|
    requires var out := Exec(threads, turns).threads[c].out; a < b < |out| && out[a].producer == out[b].producer
    ensures var out := Exec(threads, turns).threads[c].out; out[a].index < out[b].index
  {
    hide Homes, Owned, Contents, Counts, Exec;
    RunInv(threads, turns);
    var s := Exec(threads, turns);
    assert InPushOrder(Grabbed(s, c));
    assert Grabbed(s, c)[a] == s.threads[c].out[a] && Grabbed(s, c)[b] == s.threads[c].out[b];
  }

  // ---------------------------------------------------------------- the item count

  /** Items in the inner queue that slot `i` points to. */
  function SlotSize(s: State, i: nat): nat
    requires i < |s.slots|
  {
    if s.slots[i].Ref? && s.slots[i].id < |s.heap| then |s.heap[s.slots[i].id]| else 0
  }

  function SlotSizes(s: State): (f: seq<int>)
    ensures |f| == |s.slots| && forall i :: 0 <= i < |f| ==> f[i] == SlotSize(s, i)
  {
    seq(|s.slots|, i requires 0 <= i < |s.slots| => SlotSize(s, i))
  }

  lemma SlotSizeBound(s: State, i: nat)
    requires Inv(s) && i < s.counter
    ensures SlotSize(s, i) <= Credit(s, s.owner[i])
    ensures s.threads[s.owner[i]].phase.Idle? ==> SlotSize(s, i) == Credit(s, s.owner[i])
  {
    hide Deliveries, Owned, Contents, Counts;
    var t := s.owner[i];
    HoldsOf(s, t);
    assert s.slots[i].Null? <==> Held(s.threads[t].phase).Ref?;
    if s.slots[i].Ref? {
      SlotHolds(s, i);
    }
  }

  lemma CreditNonNegative(s: State, t: nat)
    requires Inv(s) && t < |s.threads|
    ensures 0 <= Credit(s, t) && (s.threads[t].phase.Idle? && t !in s.owner ==> Credit(s, t) == 0)
  {
    hide Deliveries, Owned, Counts, Contents, Homes;
    HoldsOf(s, t);
    if s.threads[t].phase.Idle? && t !in s.owner && s.threads[t].home.Ref? {
      SlotCounted(s, t);
      assert false;
    }
  }

  /** `numItems` is never below the number of items in the slots, and equal to it when no operation is under way. */
  lemma SizeCoversSlots(threads: nat, turns: seq<Turn>)
    requires threads <= MaxThreads
    ensures var s := Exec(threads, turns);
            && Sum(SlotSizes(s)) <= s.numItems
            && ((forall t :: 0 <= t < |s.threads| ==> s.threads[t].phase.Idle?) ==> s.numItems == Sum(SlotSizes(s)))
  {
    hide Deliveries, Owned, Contents, CountOk, Exec;
    RunInv(threads, turns);
    var s := Exec(threads, turns);
    var g := SlotSizes(s)[..s.counter];
    SumZeroTail(SlotSizes(s), s.counter);
    forall i, j | 0 <= i < j < |s.owner| ensures s.owner[i] != s.owner[j] {
      assert SlotOf(s.threads[s.owner[i]]) == Ref(i) && SlotOf(s.threads[s.owner[j]]) == Ref(j);
    }
    hide Homes, Credit, SlotSize;
    forall i | 0 <= i < s.counter
      ensures g[i] <= Credits(s)[s.owner[i]] && (s.threads[s.owner[i]].phase.Idle? ==> g[i] == Credits(s)[s.owner[i]])
    {
      SlotSizeBound(s, i);
    }
    forall t | 0 <= t < |s.threads| ensures 0 <= Credits(s)[t]
        && (s.threads[t].phase.Idle? && t !in s.owner ==> Credits(s)[t] == 0) {
      CreditNonNegative(s, t);
    }
    SumSpread(g, Credits(s), s.owner);
  }
}
