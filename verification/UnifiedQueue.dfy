/**
 The unified queue of one vbucket, seen through positions only: a list of checkpoints, each a
 deduplicated list of items, and the cursors that walk it. There are no counters and no key index
 here; `CheckpointManager` maintains those incrementally and is proved to refine these functions.

 A position is a checkpoint index and an item index. A list iterator survives the erasure of other
 nodes, so an erasure renumbers the positions behind it.
 */
module UnifiedQueue {
  import opened Items

  datatype Option<+T> = None | Some(value: T)

  datatype Chk = Chk(id: nat, open: bool, items: seq<Item>)
  datatype Pos = Pos(chk: nat, at: nat)
  datatype Tap = Tap(pos: Pos, closedOnly: bool)

  /** `barrier` is the checkpoint the online-update cursor sits at the start of, during online update. */
  datatype Queue = Queue(chks: seq<Chk>, persist: Pos, taps: map<string, Tap>, barrier: Option<nat>) {

    /** Replaces the checkpoints and moves every cursor by `f`. */
    function Reposition(chks': seq<Chk>, f: Pos -> Pos, barrier': Option<nat>): Queue {
      Queue(chks', f(persist), map n | n in taps :: taps[n].(pos := f(taps[n].pos)), barrier')
    }
  }

  // ---------------------------------------------------------------- well-formedness

  predicate DistinctKeys(s: seq<Item>) {
    forall i, j :: 0 <= i < j < |s| && s[i].key == s[j].key ==> s[i].key == ""
  }

  predicate ChkOk(c: Chk) {
    && 2 <= |c.items|
    && c.items[0] == Dummy && c.items[1] == StartItem(c.id)
    && (forall i :: 1 <= i < |c.items| ==> c.items[i].op != OpEmpty)
    && DistinctKeys(c.items)
    && (!c.open ==> 3 <= |c.items| && c.items[|c.items| - 1].op == OpCheckpointEnd)
    && (forall i :: 0 <= i < |c.items| - (if c.open then 0 else 1) ==> c.items[i].op != OpCheckpointEnd)
  }

  predicate ListOk(chks: seq<Chk>) {
    && (forall i :: 0 <= i < |chks| ==> ChkOk(chks[i]))
    && (forall i :: 0 <= i < |chks| - 1 ==> !chks[i].open)
    && (forall i, j :: 0 <= i < j < |chks| ==> chks[i].id < chks[j].id)
  }

  predicate PosOk(chks: seq<Chk>, p: Pos) {
    p.chk < |chks| && p.at < |chks[p.chk].items|
  }

  predicate WF(q: Queue) {
    && |q.chks| > 0 && ListOk(q.chks)
    && PosOk(q.chks, q.persist)
    && (forall n :: n in q.taps ==> PosOk(q.chks, q.taps[n].pos))
    && (q.barrier.Some? ==> q.barrier.value < |q.chks| && q.chks[q.barrier.value].id > 0)
  }

  function Last(chks: seq<Chk>): Chk
    requires chks != []
  {
    chks[|chks| - 1]
  }

  // ---------------------------------------------------------------- what lies ahead of a position

  function Body(c: Chk): seq<Item> {
    if c.items == [] then [] else c.items[1..]
  }

  /** All items of the checkpoints, dummies excluded, in list order. */
  function Flat(chks: seq<Chk>): seq<Item> {
    if chks == [] then [] else Body(chks[0]) + Flat(chks[1..])
  }

  /** The items a cursor at `p` has still to visit. */
  function Ahead(chks: seq<Chk>, p: Pos): seq<Item>
    requires PosOk(chks, p)
  {
    chks[p.chk].items[p.at + 1..] + Flat(chks[p.chk + 1..])
  }

  /** The items a cursor at `p` has already passed. */
  function Behind(chks: seq<Chk>, p: Pos): seq<Item>
    requires PosOk(chks, p)
  {
    Flat(chks[..p.chk]) + chks[p.chk].items[..p.at + 1][1..]
  }

  lemma {:induction false} FlatConcat(a: seq<Chk>, b: seq<Chk>)
    ensures Flat(a + b) == Flat(a) + Flat(b)
  {
    if a == [] {
      assert a + b == b;
    } else {
      assert (a + b)[1..] == a[1..] + b;
      FlatConcat(a[1..], b);
    }
  }

  lemma FlatOne(c: Chk)
    ensures Flat([c]) == Body(c)
  {
    assert [c][1..] == [];
  }

  lemma FlatAt(chks: seq<Chk>, i: nat)
    requires i < |chks|
    ensures Flat(chks) == Flat(chks[..i]) + (Body(chks[i]) + Flat(chks[i + 1..]))
  {
    assert chks == chks[..i] + chks[i..];
    FlatConcat(chks[..i], chks[i..]);
    assert chks[i..][1..] == chks[i + 1..];
  }

  /** A position splits the list. */
  lemma BehindAhead(chks: seq<Chk>, p: Pos)
    requires PosOk(chks, p)
    ensures Behind(chks, p) + Ahead(chks, p) == Flat(chks)
  {
    hide Flat;
    var c := chks[p.chk];
    FlatAt(chks, p.chk);
    assert c.items[..p.at + 1][1..] + c.items[p.at + 1..] == Body(c);
  }

  // ---------------------------------------------------------------- opening and closing

  function NewChk(id: nat): Chk {
    Chk(id, true, [Dummy, StartItem(id)])
  }

  function Close(c: Chk): Chk {
    if c.open then c.(open := false, items := c.items + [EndItem(c.id)]) else c
  }

  function CloseLast(chks: seq<Chk>): seq<Chk> {
    if chks == [] then [] else chks[|chks| - 1 := Close(Last(chks))]
  }

  function AddNew(chks: seq<Chk>, id: nat): seq<Chk> {
    CloseLast(chks) + [NewChk(id)]
  }

  /** `closeOpenCheckpoint`: does nothing for any id but the last one. */
  function CloseOpen(q: Queue, id: nat): Queue
    requires q.chks != []
  {
    if id == Last(q.chks).id then q.(chks := CloseLast(q.chks)) else q
  }

  function Rollover(q: Queue): Queue
    requires q.chks != []
  {
    q.(chks := AddNew(q.chks, Last(q.chks).id + 1))
  }

  // ---------------------------------------------------------------- writing

  /** Index of the item with key `k`; the length if there is none. Items without a key are never found. */
  function IndexOf(s: seq<Item>, k: Key): (i: nat)
    ensures i <= |s|
    ensures i < |s| ==> k != "" && s[i].key == k
    ensures k != "" ==> forall j :: 0 <= j < i ==> s[j].key != k
    ensures k == "" ==> i == |s|
  {
    if s == [] || k == "" then |s| else if s[0].key == k then 0 else 1 + IndexOf(s[1..], k)
  }

  /** The item as stored: it inherits the queueing time of the copy it replaces. */
  function Stored(s: seq<Item>, x: Item): (y: Item)
    ensures y == x.(queuedTime := y.queuedTime)
    ensures DistinctKeys(s) && x.key != "" ==>
            forall i :: 0 <= i < |s| && s[i].key == x.key ==> y.queuedTime == s[i].queuedTime
    ensures x.key == "" || (forall i :: 0 <= i < |s| ==> s[i].key != x.key) ==> y == x
  {
    var i := IndexOf(s, x.key);
    if i < |s| then x.(queuedTime := s[i].queuedTime) else x
  }

  function Without(s: seq<Item>, k: Key): seq<Item> {
    var i := IndexOf(s, k);
    if i < |s| then s[..i] + s[i + 1..] else s
  }

  function Requeue(s: seq<Item>, x: Item): seq<Item> {
    Without(s, x.key) + [Stored(s, x)]
  }

  function ShiftPos(chks: seq<Chk>, k: Key, p: Pos): Pos
    requires chks != []
  {
    var s := Last(chks).items;
    if p.chk == |chks| - 1 && IndexOf(s, k) < |s| && IndexOf(s, k) <= p.at && p.at > 0
    then Pos(p.chk, p.at - 1) else p
  }

  /** Queue `x` in the last checkpoint: the older copy of its key, if any, is erased. */
  function Write(q: Queue, x: Item): Queue
    requires q.chks != []
  {
    var c := Last(q.chks);
    q.Reposition(q.chks[|q.chks| - 1 := c.(items := Requeue(c.items, x))],
                 p => ShiftPos(q.chks, x.key, p), q.barrier)
  }

  predicate Accepts(q: Queue, active: bool)
    requires q.chks != []
  {
    active || Last(q.chks).open
  }

  /** The checkpoint holds enough keys, or it holds one and is older than the checkpoint period. */
  predicate Full(c: Chk, maxItems: nat, elapsed: bool) {
    |KeySet(c.items)| >= maxItems || (KeySet(c.items) != {} && elapsed)
  }

  /** `roll`: the open checkpoint was found full or old after the write. */
  function QueueDirty(q: Queue, x: Item, active: bool, roll: bool): Queue
    requires q.chks != []
  {
    if !Accepts(q, active) then q
    else
      var q1 := Write(q, x);
      if roll then Rollover(q1) else q1
  }

  // ---------------------------------------------------------------- reading

  function EndPos(chks: seq<Chk>): Pos
    requires chks != [] && Last(chks).items != []
  {
    Pos(|chks| - 1, |Last(chks).items| - 1)
  }

  /** Where the persistence cursor stops: at the tail, or at the start of the barrier checkpoint. */
  function DrawTo(q: Queue): Pos
    requires WF(q)
  {
    match q.barrier
    case None => EndPos(q.chks)
    case Some(b) => if q.persist.chk < b then Pos(b, 0) else q.persist
  }

  function Drawn(q: Queue): seq<Item>
    requires WF(q)
  {
    match q.barrier
    case None => Ahead(q.chks, q.persist)
    case Some(b) => if q.persist.chk < b then Ahead(q.chks[..b], q.persist) else []
  }

  function Draw(q: Queue): Queue
    requires WF(q)
  {
    q.(persist := DrawTo(q))
  }

  /** The id reported with a draw: the one before the checkpoint the cursor stopped in. */
  function DrawnId(q: Queue): nat
    requires WF(q)
  {
    var id := q.chks[DrawTo(q).chk].id;
    if id > 0 then id - 1 else 0
  }

  /** One `nextItem` of a cursor: its new position and what it returns (`None`: the empty item). */
  function Step(chks: seq<Chk>, t: Tap): (Pos, Option<Item>)
    requires chks != [] && PosOk(chks, t.pos)
    requires forall i :: 0 <= i < |chks| ==> 2 <= |chks[i].items|
  {
    var p := t.pos;
    var c := chks[p.chk];
    if Last(chks).id == 0 then (p, None)
    else if c.open && t.closedOnly then (p, None)
    else if p.at + 1 < |c.items| then (Pos(p.chk, p.at + 1), Some(c.items[p.at + 1]))
    else if c.open || p.chk + 1 == |chks| then (p, None)
    else if chks[p.chk + 1].open && t.closedOnly then (Pos(p.chk + 1, 0), None)
    else (Pos(p.chk + 1, 1), Some(chks[p.chk + 1].items[1]))
  }

  function NextItem(q: Queue, name: string): Queue
    requires WF(q) && name in q.taps
  {
    var t := q.taps[name];
    q.(taps := q.taps[name := t.(pos := Step(q.chks, t).0)])
  }

  function ReadAll(q: Queue, name: string): Queue
    requires WF(q) && name in q.taps
  {
    q.(taps := q.taps[name := q.taps[name].(pos := EndPos(q.chks))])
  }

  /** Back off from a checkpoint_end item so that it is sent again. */
  function BackOff(q: Queue, name: string): Queue
    requires WF(q) && name in q.taps
  {
    var t := q.taps[name];
    if q.chks[t.pos.chk].items[t.pos.at].op == OpCheckpointEnd && t.pos.at > 0
    then q.(taps := q.taps[name := t.(pos := Pos(t.pos.chk, t.pos.at - 1))])
    else q
  }

  // ---------------------------------------------------------------- registering TAP cursors

  /** Index of the checkpoint with this id; the length if there is none. */
  function FindId(chks: seq<Chk>, id: nat): (i: nat)
    ensures i <= |chks|
    ensures i < |chks| ==> chks[i].id == id
    ensures forall j :: 0 <= j < i ==> chks[j].id != id
  {
    if chks == [] || chks[0].id == id then 0 else 1 + FindId(chks[1..], id)
  }

  function RegisterPos(q: Queue, name: string, id: nat, fromBeginning: bool): Pos
    requires q.chks != []
  {
    var i := FindId(q.chks, id);
    if i == |q.chks| then Pos(|q.chks| - 1, 0)
    else if !fromBeginning && name in q.taps && q.taps[name].pos.chk == i then q.taps[name].pos
    else Pos(i, 0)
  }

  function Register(q: Queue, name: string, id: nat, closedOnly: bool, fromBeginning: bool): Queue
    requires q.chks != []
  {
    q.(taps := q.taps[name := Tap(RegisterPos(q, name, id, fromBeginning), closedOnly)])
  }

  function Unregister(q: Queue, name: string): Queue {
    q.(taps := q.taps - {name})
  }

  // ---------------------------------------------------------------- dropping a prefix

  predicate Referenced(q: Queue, i: nat) {
    || q.persist.chk == i
    || (exists n :: n in q.taps && q.taps[n].pos.chk == i)
    || q.barrier == Some(i)
  }

  /** The number of leading checkpoints, from `i` on, that no cursor is in. */
  function FirstReferenced(q: Queue, i: nat): (n: nat)
    requires i <= q.persist.chk
    ensures i <= n <= q.persist.chk && Referenced(q, n)
    ensures forall j :: i <= j < n ==> !Referenced(q, j)
    decreases q.persist.chk - i
  {
    if Referenced(q, i) then i else FirstReferenced(q, i + 1)
  }

  /** Cursors on the very last item of checkpoint `c` step into its successor. */
  function HopPos(chks: seq<Chk>, c: nat, p: Pos): Pos {
    if p.chk == c && c + 1 < |chks| && p.at + 1 == |chks[c].items| then Pos(c + 1, 0) else p
  }

  function DropPos(n: nat, p: Pos): Pos {
    if n <= p.chk then Pos(p.chk - n, p.at) else p
  }

  function Drop(q: Queue, n: nat): Queue
    requires n <= |q.chks|
  {
    q.Reposition(q.chks[n..], p => DropPos(n, p),
                 match q.barrier case Some(b) => Some(if n <= b then b - n else b) case None => None)
  }

  /** `create`: a new open checkpoint is made first. An old id of 0 reads as "not created". */
  function PreTrim(q: Queue, create: bool): Queue
    requires q.chks != []
  {
    if !create then q
    else if Last(q.chks).id == 0 then Rollover(q)
    else
      var q1 := Rollover(q);
      q1.Reposition(q1.chks, p => HopPos(q1.chks, |q.chks| - 1, p), q1.barrier)
  }

  /** Where that leaves a cursor. */
  function PrePos(q: Queue, create: bool, p: Pos): Pos
    requires q.chks != []
  {
    if create && Last(q.chks).id != 0 then HopPos(Rollover(q).chks, |q.chks| - 1, p) else p
  }

  function Trim(q: Queue, create: bool): Queue
    requires WF(q)
  {
    PreTrimWF(q, create);
    var q2 := PreTrim(q, create);
    Drop(q2, FirstReferenced(q2, 0))
  }

  // ---------------------------------------------------------------- rollback and clear

  /** The number of leading checkpoints with an id below `id`. */
  function KeepBelow(chks: seq<Chk>, id: nat): (k: nat)
    ensures k <= |chks|
    ensures forall i :: 0 <= i < k ==> chks[i].id < id
    ensures k < |chks| ==> id <= chks[k].id
  {
    if chks == [] || id <= chks[0].id then 0 else 1 + KeepBelow(chks[1..], id)
  }

  function RewindPos(k: nat, p: Pos): Pos {
    if k <= p.chk then Pos(k, 0) else p
  }

  /** A checkpoint start drops checkpoints when one with this id or a higher one exists. */
  predicate RollsBack(q: Queue, id: nat)
    requires q.chks != []
  {
    id != 0 && Last(q.chks).id != 0 && KeepBelow(q.chks, id) < |q.chks|
  }

  function CheckAndAdd(q: Queue, id: nat): Queue
    requires WF(q)
  {
    if id == 0 then q
    else if Last(q.chks).id == 0 then
      Rename(q, id)
    else
      var k := KeepBelow(q.chks, id);
      if k == |q.chks| then q.(chks := AddNew(q.chks, id))
      else q.Reposition(AddNew(q.chks[..k], id), p => RewindPos(k, p), q.barrier)
  }

  function Clear(q: Queue, active: bool): Queue {
    q.Reposition([NewChk(if active then 1 else 0)], p => Pos(0, 0), q.barrier)
  }

  // ---------------------------------------------------------------- online update

  function AppendLast(q: Queue, x: Item): Queue
    requires q.chks != []
  {
    q.(chks := q.chks[|q.chks| - 1 := Last(q.chks).(items := Last(q.chks).items + [x])])
  }

  function StartOnline(q: Queue): Queue
    requires q.chks != []
  {
    if q.barrier.Some? then q
    else
      var q1 := AppendLast(Rollover(q), OnlineStart);
      q1.(barrier := Some(|q1.chks| - 1))
  }

  function StopOnline(q: Queue): Queue
    requires q.chks != []
  {
    if q.barrier.None? then q
    else Rollover(AppendLast(q, OnlineEnd)).(barrier := None)
  }

  // ---------------------------------------------------------------- every operation keeps WF

  lemma CloseOk(c: Chk)
    requires ChkOk(c)
    ensures ChkOk(Close(c)) && !Close(c).open && Close(c).id == c.id && |c.items| <= |Close(c).items|
    ensures Body(Close(c)) == Body(c) + (if c.open then [EndItem(c.id)] else [])
  {
  }

  lemma NewOk(id: nat)
    ensures ChkOk(NewChk(id)) && NewChk(id).id == id && NewChk(id).open
  {
  }

  lemma AddNewAt(chks: seq<Chk>, id: nat)
    ensures var r := AddNew(chks, id);
            && |r| == |chks| + 1
            && r[|chks|] == NewChk(id)
            && (forall i :: 0 <= i < |chks| - 1 ==> r[i] == chks[i])
            && (chks != [] ==> r[|chks| - 1] == Close(Last(chks)))
  {
  }

  lemma AddNewOk(chks: seq<Chk>, id: nat)
    requires ListOk(chks)
    requires chks != [] ==> Last(chks).id < id
    ensures ListOk(AddNew(chks, id)) && |AddNew(chks, id)| == |chks| + 1
    ensures forall i :: 0 <= i < |chks| ==> |AddNew(chks, id)[i].items| >= |chks[i].items|
  {
    hide ChkOk;
    hide NewChk;
    hide AddNew;
    hide Close;
    AddNewAt(chks, id);
    NewOk(id);
    if chks != [] {
      CloseOk(Last(chks));
    }
  }

  lemma CloseOpenWF(q: Queue, id: nat)
    requires WF(q)
    ensures WF(CloseOpen(q, id))
  {
    hide ChkOk, Close;
    CloseOk(Last(q.chks));
  }

  lemma RolloverWF(q: Queue)
    requires WF(q)
    ensures WF(Rollover(q))
  {
    hide ListOk;
    ExtendWF(q, Last(q.chks).id + 1);
  }

  /** The items of a requeue, in terms of the items before it. */
  lemma RequeueAt(s: seq<Item>, x: Item)
    ensures var r := Requeue(s, x); var i := IndexOf(s, x.key);
            && |r| == (if i < |s| then |s| else |s| + 1)
            && r[|r| - 1] == Stored(s, x)
            && forall j :: 0 <= j < |r| - 1 ==> r[j] == s[if j < i then j else j + 1]
  {
  }

  lemma RequeueDistinct(s: seq<Item>, x: Item)
    requires DistinctKeys(s)
    ensures DistinctKeys(Requeue(s, x))
  {
    RequeueAt(s, x);
    hide Requeue;
  }

  lemma RequeueOk(c: Chk, x: Item)
    requires ChkOk(c) && c.open && IsMutation(x)
    ensures ChkOk(c.(items := Requeue(c.items, x)))
  {
    RequeueDistinct(c.items, x);
    RequeueAt(c.items, x);
    hide DistinctKeys;
    hide Requeue;
  }

  lemma WriteWF(q: Queue, x: Item)
    requires WF(q) && Last(q.chks).open && IsMutation(x)
    ensures WF(Write(q, x))
  {
    hide ChkOk, Requeue, ShiftPos, PosOk;
    RequeueOk(Last(q.chks), x);
    WritePosOk(q, x, q.persist);
    forall n | n in q.taps ensures PosOk(Write(q, x).chks, ShiftPos(q.chks, x.key, q.taps[n].pos)) {
      WritePosOk(q, x, q.taps[n].pos);
    }
  }

  lemma WritePosOk(q: Queue, x: Item, p: Pos)
    requires q.chks != [] && PosOk(q.chks, p)
    ensures PosOk(Write(q, x).chks, ShiftPos(q.chks, x.key, p))
  {
    RequeueAt(Last(q.chks).items, x);
    hide Requeue;
  }

  lemma QueueDirtyWF(q: Queue, x: Item, active: bool, roll: bool)
    requires WF(q) && IsMutation(x)
    requires active ==> Last(q.chks).open
    ensures WF(QueueDirty(q, x, active, roll))
  {
    if Accepts(q, active) {
      WriteWF(q, x);
      RolloverWF(Write(q, x));
    }
  }

  lemma PreTrimWF(q: Queue, create: bool)
    requires WF(q)
    ensures WF(PreTrim(q, create))
  {
    hide ListOk;
    RolloverWF(q);
    hide Rollover;
  }

  lemma ListSlice(chks: seq<Chk>, i: nat, j: nat)
    requires ListOk(chks) && i <= j <= |chks|
    ensures ListOk(chks[i..j])
  {
    hide ChkOk;
    assert forall k :: 0 <= k < j - i ==> chks[i..j][k] == chks[i + k];
  }

  /** Nothing in front of the first referenced checkpoint holds a cursor. */
  lemma FirstReferencedBounds(q: Queue)
    ensures forall m :: m in q.taps ==> FirstReferenced(q, 0) <= q.taps[m].pos.chk
    ensures q.barrier.Some? ==> FirstReferenced(q, 0) <= q.barrier.value
  {
    var n := FirstReferenced(q, 0);
    forall m | m in q.taps ensures n <= q.taps[m].pos.chk {
      assert Referenced(q, q.taps[m].pos.chk);
    }
    if q.barrier.Some? {
      assert Referenced(q, q.barrier.value);
    }
  }

  lemma DropPosOk(chks: seq<Chk>, n: nat, p: Pos)
    requires PosOk(chks, p) && n <= p.chk
    ensures PosOk(chks[n..], DropPos(n, p))
  {
  }

  lemma PersistIn(q: Queue)
    requires WF(q)
    ensures q.persist.chk < |q.chks|
  {
  }

  lemma DropWF(q: Queue)
    requires WF(q)
    ensures WF(Drop(q, FirstReferenced(q, 0)))
  {
    hide ListOk, PosOk, DropPos, Referenced, FirstReferenced;
    PersistIn(q);
    FirstReferencedBounds(q);
    var n := FirstReferenced(q, 0);
    ListSlice(q.chks, n, |q.chks|);
    assert q.chks[n..|q.chks|] == q.chks[n..];
    DropPosOk(q.chks, n, q.persist);
    forall m | m in q.taps ensures PosOk(q.chks[n..], DropPos(n, q.taps[m].pos)) {
      DropPosOk(q.chks, n, q.taps[m].pos);
    }
  }

  lemma TrimWF(q: Queue, create: bool)
    requires WF(q)
    ensures WF(Trim(q, create))
  {
    PreTrimWF(q, create);
    hide PreTrim;
    hide ChkOk;
    DropWF(PreTrim(q, create));
  }

  lemma RenameOk(c: Chk, id: nat)
    requires ChkOk(c)
    ensures ChkOk(c.(id := id, items := c.items[1 := StartItem(id)]))
  {
    var r := c.items[1 := StartItem(id)];
    assert forall i :: 0 <= i < |r| && i != 1 ==> r[i] == c.items[i];
  }

  lemma RewindPosOk(chks: seq<Chk>, id: nat, k: nat, p: Pos)
    requires ListOk(chks) && PosOk(chks, p) && k <= |chks|
    requires k > 0 ==> chks[k - 1].id < id
    ensures PosOk(AddNew(chks[..k], id), RewindPos(k, p))
  {
    ListSlice(chks, 0, k);
    AddNewOk(chks[..k], id);
    hide ListOk;
  }

  lemma RollbackWF(q: Queue, id: nat, k: nat)
    requires WF(q) && q.barrier.None? && k <= |q.chks|
    requires k > 0 ==> q.chks[k - 1].id < id
    ensures WF(q.Reposition(AddNew(q.chks[..k], id), p => RewindPos(k, p), q.barrier))
  {
    hide ListOk;
    hide PosOk;
    hide AddNew;
    hide RewindPos;
    ListSlice(q.chks, 0, k);
    AddNewOk(q.chks[..k], id);
    RewindPosOk(q.chks, id, k, q.persist);
    forall m | m in q.taps ensures PosOk(AddNew(q.chks[..k], id), RewindPos(k, q.taps[m].pos)) {
      RewindPosOk(q.chks, id, k, q.taps[m].pos);
    }
  }

  function Rename(q: Queue, id: nat): Queue
    requires q.chks != [] && 2 <= |Last(q.chks).items|
  {
    q.(chks := q.chks[|q.chks| - 1 := Last(q.chks).(id := id, items := Last(q.chks).items[1 := StartItem(id)])])
  }

  /** May the last checkpoint be given this id? Above the one before it, and not 0 under the barrier. */
  predicate CanRename(q: Queue, id: nat)
    requires q.chks != []
  {
    && (|q.chks| > 1 ==> q.chks[|q.chks| - 2].id < id)
    && (q.barrier == Some(|q.chks| - 1) ==> id > 0)
  }

  /** `setOpenCheckpointId` checks nothing; it keeps the list in order exactly if the id fits. */
  lemma RenameWF(q: Queue, id: nat)
    requires WF(q)
    ensures WF(Rename(q, id)) <==> CanRename(q, id)
  {
    hide ChkOk;
    LastLong(q);
    RenameOk(Last(q.chks), id);
    var n := |q.chks|;
    var c := Last(Rename(q, id).chks);
    hide PosOk;
    assert forall p :: PosOk(q.chks, p) ==> PosOk(Rename(q, id).chks, p) by {
      RenamePos(q, id);
    }
    ListRenamed(q.chks, c);
  }

  lemma LastLong(q: Queue)
    requires WF(q)
    ensures |Last(q.chks).items| >= 2 && ChkOk(Last(q.chks))
  {
  }

  lemma RenamePos(q: Queue, id: nat)
    requires q.chks != [] && 2 <= |Last(q.chks).items|
    ensures forall p :: PosOk(q.chks, p) ==> PosOk(Rename(q, id).chks, p)
  {
  }

  lemma ListRenamed(chks: seq<Chk>, c: Chk)
    requires ListOk(chks) && chks != [] && ChkOk(c) && c.open == Last(chks).open
    ensures ListOk(chks[|chks| - 1 := c]) <==> (|chks| > 1 ==> chks[|chks| - 2].id < c.id)
  {
    hide ChkOk;
    var r, n := chks[|chks| - 1 := c], |chks|;
    if n > 1 && ListOk(r) {
      assert r[n - 2].id < r[n - 1].id;
    }
  }

  /** Two checkpoints, and the last one renamed to 0. */
  lemma RenameOutOfOrder()
    ensures var q := Queue(AddNew([NewChk(1)], 2), Pos(0, 0), map[], None);
            && WF(q) && !CanRename(q, 0) && !WF(Rename(q, 0))
  {
    NewOk(1);
    AddNewOk([NewChk(1)], 2);
    var q := Queue(AddNew([NewChk(1)], 2), Pos(0, 0), map[], None);
    AddNewAt([NewChk(1)], 2);
    assert WF(q);
    RenameWF(q, 0);
  }

  lemma ExtendWF(q: Queue, id: nat)
    requires WF(q) && Last(q.chks).id < id
    ensures WF(q.(chks := AddNew(q.chks, id)))
  {
    hide ChkOk;
    AddNewOk(q.chks, id);
    hide AddNew;
  }

  /** Only a rollback needs an online update to be over. */
  lemma CheckAndAddWF(q: Queue, id: nat)
    requires WF(q) && (q.barrier.None? || !RollsBack(q, id))
    ensures WF(CheckAndAdd(q, id))
  {
    if id != 0 {
      var k := KeepBelow(q.chks, id);
      assert k == |q.chks| ==> Last(q.chks).id < id;
      if Last(q.chks).id == 0 {
        LastIdZero(q);
      }
      hide ListOk;
      hide AddNew;
      if Last(q.chks).id == 0 {
        RenameWF(q, id);
      } else if k == |q.chks| {
        ExtendWF(q, id);
      } else {
        RollbackWF(q, id, k);
      }
    }
  }

  /** Ids increase, so a last id of 0 means there is one checkpoint. */
  lemma LastIdZero(q: Queue)
    requires WF(q) && Last(q.chks).id == 0
    ensures |q.chks| == 1 && q.barrier.None?
  {
    assert q.chks[0].id <= Last(q.chks).id;
  }

  lemma AppendOk(c: Chk, x: Item)
    requires ChkOk(c) && c.open && x.key == "" && x.op != OpEmpty && x.op != OpCheckpointEnd
    ensures ChkOk(c.(items := c.items + [x]))
  {
  }

  lemma AppendWF(q: Queue, x: Item)
    requires WF(q) && Last(q.chks).open && x.key == "" && x.op != OpEmpty && x.op != OpCheckpointEnd
    ensures WF(AppendLast(q, x))
  {
    hide ChkOk;
    AppendOk(Last(q.chks), x);
  }

  lemma StartOnlineWF(q: Queue)
    requires WF(q)
    ensures WF(StartOnline(q))
  {
    RolloverWF(q);
    hide ChkOk;
    var q1 := Rollover(q);
    assert Last(q1.chks).open;
    hide Rollover;
    AppendWF(q1, OnlineStart);
  }

  lemma StopOnlineWF(q: Queue)
    requires WF(q) && (q.barrier.Some? ==> Last(q.chks).open)
    ensures WF(StopOnline(q))
  {
    if q.barrier.Some? {
      hide ChkOk;
      AppendWF(q, OnlineEnd);
      RolloverWF(AppendLast(q, OnlineEnd));
      hide AppendLast;
      hide Rollover;
    }
  }

  /**
   The end marker goes behind the end item of a closed last checkpoint, so then the list is out of shape. A build
   with assertions stops there instead.
   */
  lemma StopOnlineBreaks(q: Queue)
    requires WF(q) && q.barrier.Some? && !Last(q.chks).open
    ensures !WF(StopOnline(q))
  {
    hide ListOk;
    var n := |q.chks| - 1;
    var c := Last(AppendLast(q, OnlineEnd).chks);
    assert !ChkOk(c) by { assert c.items[|c.items| - 1] == OnlineEnd; }
    var r := StopOnline(q).chks;
    AddNewAt(AppendLast(q, OnlineEnd).chks, Last(q.chks).id + 1);
    assert r[n] == c;
    NotListed(r, n);
  }

  lemma NotListed(chks: seq<Chk>, i: nat)
    requires i < |chks| && !ChkOk(chks[i])
    ensures !ListOk(chks)
  {
  }

  /** An online update, whose checkpoint is closed before the update stops. */
  lemma StopOnlineOutOfShape()
    ensures var q := CloseOpen(StartOnline(Queue([NewChk(1)], Pos(0, 0), map[], None)), 2);
            WF(q) && q.barrier.Some? && !Last(q.chks).open && !WF(StopOnline(q))
  {
    NewOk(1);
    var q0 := Queue([NewChk(1)], Pos(0, 0), map[], None);
    assert WF(q0);
    StartOnlineWF(q0);
    AddNewAt(q0.chks, 2);
    CloseOpenWF(StartOnline(q0), 2);
    StopOnlineBreaks(CloseOpen(StartOnline(q0), 2));
  }
}
