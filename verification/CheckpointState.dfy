/**
 The state the checkpoint manager really keeps: besides the items and positions of `UnifiedQueue`, a key
 index with mutation ids per checkpoint, reference counters, item counters and cursor offsets. `Abstract`
 forgets them, `Consistent` is what every operation keeps, and `Exact` says that the counters, which are
 only ever adjusted incrementally, agree with the lists.
 */
module CheckpointState {
  import opened Items
  import opened UnifiedQueue
  import opened Pending

  datatype CheckpointMode = Opened | Closed

  datatype IndexEntry = IndexEntry(position: nat, mutationId: nat)

  datatype Checkpoint = Checkpoint(
    id: nat, state: CheckpointMode, referenceCounter: nat, numItems: nat,
    toWrite: seq<Item>, keyIndex: map<Key, IndexEntry>)

  /** `checkpoint` and `pos` are list indices; `offset` is an int, as the counter may be off during online update. */
  datatype Cursor = Cursor(checkpoint: nat, pos: nat, offset: int, closedOnly: bool)

  datatype State = State(
    list: seq<Checkpoint>, numItems: int, mutationCounter: nat,
    persist: Cursor, taps: map<string, Cursor>, online: Option<nat>)

  // ---------------------------------------------------------------- abstraction

  function AbsChk(c: Checkpoint): Chk {
    Chk(c.id, c.state.Opened?, c.toWrite)
  }

  function AbsList(l: seq<Checkpoint>): (r: seq<Chk>)
    ensures |r| == |l|
  {
    seq(|l|, i requires 0 <= i < |l| => AbsChk(l[i]))
  }

  function AbsPos(c: Cursor): Pos {
    Pos(c.checkpoint, c.pos)
  }

  function AbsTaps(taps: map<string, Cursor>): map<string, Tap> {
    map n | n in taps :: Tap(AbsPos(taps[n]), taps[n].closedOnly)
  }

  function Abstract(s: State): Queue {
    Queue(AbsList(s.list), AbsPos(s.persist), AbsTaps(s.taps), s.online)
  }

  // ---------------------------------------------------------------- consistency

  predicate IndexSound(c: Checkpoint, counter: nat) {
    forall k :: k in c.keyIndex ==>
      && k != "" && c.keyIndex[k].position < |c.toWrite|
      && c.toWrite[c.keyIndex[k].position].key == k
      && c.keyIndex[k].mutationId <= counter
  }

  predicate IndexComplete(c: Checkpoint) {
    forall i :: 0 <= i < |c.toWrite| && c.toWrite[i].key != "" ==>
      c.toWrite[i].key in c.keyIndex && c.keyIndex[c.toWrite[i].key].position == i
  }

  predicate IndexOrdered(c: Checkpoint) {
    forall k, l :: k in c.keyIndex && l in c.keyIndex && c.keyIndex[k].position < c.keyIndex[l].position ==>
      c.keyIndex[k].mutationId < c.keyIndex[l].mutationId
  }

  predicate KeysCounted(c: Checkpoint) {
    c.numItems == |c.keyIndex|
  }

  /** The index maps exactly the keys of the list to their nodes and counts them; mutation ids follow list order. */
  predicate IndexOk(c: Checkpoint, counter: nat) {
    IndexSound(c, counter) && IndexComplete(c) && IndexOrdered(c) && KeysCounted(c)
  }

  function One(b: bool): nat { if b then 1 else 0 }

  function NamesAt(taps: map<string, Cursor>, i: nat): set<string> {
    set n | n in taps && taps[n].checkpoint == i
  }

  /** The number of cursors in checkpoint `i`. */
  function CursorsAt(i: nat, persist: nat, taps: map<string, Cursor>, online: Option<nat>): nat {
    One(persist == i) + |NamesAt(taps, i)| + One(online == Some(i))
  }

  predicate RefsOk(s: State) {
    forall i :: 0 <= i < |s.list| ==>
      s.list[i].referenceCounter == CursorsAt(i, s.persist.checkpoint, s.taps, s.online)
  }

  predicate Indexed(l: seq<Checkpoint>, counter: nat) {
    forall i :: 0 <= i < |l| ==> IndexOk(l[i], counter)
  }

  predicate Consistent(s: State) {
    WF(Abstract(s)) && Indexed(s.list, s.mutationCounter) && RefsOk(s)
  }

  // ---------------------------------------------------------------- exact counters

  /** Apart from the dummy and the control items a checkpoint holds keyed items only, and counts them. */
  predicate Tidy(c: Checkpoint) {
    && (forall j :: 2 <= j < |c.toWrite| - One(c.state.Closed?) ==> c.toWrite[j].key != "")
    && c.numItems + 2 + One(c.state.Closed?) == |c.toWrite|
  }

  predicate OffsetOk(chks: seq<Chk>, c: Cursor) {
    PosOk(chks, AbsPos(c)) && c.offset == |Behind(chks, AbsPos(c))|
  }

  predicate Exact(s: State) {
    var chks := AbsList(s.list);
    && s.online.None?
    && (forall i :: 0 <= i < |s.list| ==> Tidy(s.list[i]))
    && s.numItems == |Flat(chks)|
    && OffsetOk(chks, s.persist)
    && forall n :: n in s.taps ==> OffsetOk(chks, s.taps[n])
  }

  /** An offset is exact just when adding what lies ahead gives everything. */
  lemma OffsetAhead(chks: seq<Chk>, c: Cursor)
    requires PosOk(chks, AbsPos(c))
    ensures OffsetOk(chks, c) <==> c.offset + |Ahead(chks, AbsPos(c))| == |Flat(chks)|
  {
    hide Flat, Ahead;
    BehindAhead(chks, AbsPos(c));
    hide Behind;
  }

  /** An offset stays exact if everything and what lies ahead grow alike. */
  lemma OffsetKept(chks: seq<Chk>, c: Cursor, chks': seq<Chk>, c': Cursor)
    requires OffsetOk(chks, c) && PosOk(chks', AbsPos(c'))
    requires c'.offset + |Ahead(chks', AbsPos(c'))| - |Flat(chks')| ==
             c.offset + |Ahead(chks, AbsPos(c))| - |Flat(chks)|
    ensures OffsetOk(chks', c')
  {
    hide Flat, Ahead;
    OffsetAhead(chks, c);
    OffsetAhead(chks', c');
  }

  lemma AbsUpdate(l: seq<Checkpoint>, i: nat, c: Checkpoint)
    requires i < |l|
    ensures AbsList(l[i := c]) == AbsList(l)[i := AbsChk(c)]
  {
  }

  lemma AbsConcat(l: seq<Checkpoint>, r: seq<Checkpoint>)
    ensures AbsList(l + r) == AbsList(l) + AbsList(r)
  {
  }

  lemma AbsSlice(l: seq<Checkpoint>, i: nat, j: nat)
    requires i <= j <= |l|
    ensures AbsList(l[i..j]) == AbsList(l)[i..j]
  {
  }

  lemma FlatLast(chks: seq<Chk>, c: Chk)
    requires chks != []
    ensures |Flat(chks[|chks| - 1 := c])| == |Flat(chks)| - |Body(Last(chks))| + |Body(c)|
  {
    hide Flat;
    FlatUpdateLast(chks, c);
  }

  // ---------------------------------------------------------------- queueing an item in a checkpoint

  function Reindex(index: map<Key, IndexEntry>, i: nat): map<Key, IndexEntry> {
    map k | k in index ::
      if index[k].position > i then IndexEntry(index[k].position - 1, index[k].mutationId) else index[k]
  }

  /** The checkpoint after `x` is queued in it under mutation id `mid`. */
  function Push(c: Checkpoint, x: Item, mid: nat): Checkpoint
    requires x.key in c.keyIndex ==> c.keyIndex[x.key].position < |c.toWrite|
  {
    if x.key in c.keyIndex then
      var i := c.keyIndex[x.key].position;
      var y := x.(queuedTime := c.toWrite[i].queuedTime);
      c.(toWrite := c.toWrite[..i] + c.toWrite[i + 1..] + [y],
         keyIndex := Reindex(c.keyIndex, i)[x.key := IndexEntry(|c.toWrite| - 1, mid)])
    else if x.key != "" then
      c.(toWrite := c.toWrite + [x], numItems := c.numItems + 1,
         keyIndex := c.keyIndex[x.key := IndexEntry(|c.toWrite|, mid)])
    else
      c.(toWrite := c.toWrite + [x])
  }

  /** The test on mutation ids that decides whether the copy of `k` is at or left of position `pos`. */
  predicate NotAfter(c: Checkpoint, k: Key, pos: nat)
    requires k in c.keyIndex && pos < |c.toWrite|
  {
    var at := c.toWrite[pos].key;
    at in c.keyIndex && c.keyIndex[k].mutationId <= c.keyIndex[at].mutationId
  }

  /** Position of a cursor in the checkpoint after the node at `i` is erased. */
  function ErasedPos(i: nat, pos: nat): nat {
    if i <= pos && pos > 0 then pos - 1 else pos
  }

  /** The mutation-id test is the test on positions, in a tidy open checkpoint. */
  lemma NotAfterPosition(c: Checkpoint, counter: nat, k: Key, pos: nat)
    requires IndexOk(c, counter) && ChkOk(AbsChk(c)) && c.state.Opened? && Tidy(c)
    requires k in c.keyIndex && pos < |c.toWrite|
    ensures NotAfter(c, k, pos) <==> c.keyIndex[k].position <= pos
  {
    var at := c.toWrite[pos].key;
    if at == "" {
      assert pos < 2;
      assert at !in c.keyIndex;
      assert c.toWrite[0].key == "" && c.toWrite[1].key == "";
    } else {
      assert c.keyIndex[at].position == pos;
    }
  }

  lemma IndexPosition(c: Checkpoint, counter: nat, k: Key)
    requires IndexOk(c, counter)
    ensures k in c.keyIndex <==> IndexOf(c.toWrite, k) < |c.toWrite|
    ensures k in c.keyIndex ==> c.keyIndex[k].position == IndexOf(c.toWrite, k)
  {
    var i := IndexOf(c.toWrite, k);
    if i < |c.toWrite| {
      assert c.toWrite[i].key == k;
    }
  }

  lemma PushAbs(c: Checkpoint, counter: nat, x: Item, mid: nat)
    requires IndexOk(c, counter)
    ensures AbsChk(Push(c, x, mid)) == AbsChk(c).(items := Requeue(c.toWrite, x))
  {
    IndexPosition(c, counter, x.key);
  }

  lemma PushSound(c: Checkpoint, counter: nat, x: Item, mid: nat)
    requires IndexSound(c, counter) && counter < mid
    ensures IndexSound(Push(c, x, mid), mid)
  {
    var d := Push(c, x, mid);
    if x.key in c.keyIndex {
      var i := c.keyIndex[x.key].position;
      forall k | k in c.keyIndex && k != x.key
        ensures d.keyIndex[k].position < |d.toWrite| && d.toWrite[d.keyIndex[k].position].key == k
      {
        assert c.keyIndex[k].position != i;
      }
    }
  }

  lemma PushComplete(c: Checkpoint, counter: nat, x: Item, mid: nat)
    requires IndexSound(c, counter) && IndexComplete(c)
    ensures IndexComplete(Push(c, x, mid))
  {
    var d := Push(c, x, mid);
    if x.key in c.keyIndex {
      var i := c.keyIndex[x.key].position;
      forall j | 0 <= j < |c.toWrite| - 1 && d.toWrite[j].key != ""
        ensures d.toWrite[j].key in d.keyIndex && d.keyIndex[d.toWrite[j].key].position == j
      {
        var o := if j < i then j else j + 1;
        assert d.toWrite[j] == c.toWrite[o];
      }
    }
  }

  lemma PushOrdered(c: Checkpoint, counter: nat, x: Item, mid: nat)
    requires IndexSound(c, counter) && IndexComplete(c) && IndexOrdered(c) && counter < mid
    ensures IndexOrdered(Push(c, x, mid))
  {
    var d := Push(c, x, mid);
    forall k, l | k in d.keyIndex && l in d.keyIndex && d.keyIndex[k].position < d.keyIndex[l].position
      ensures d.keyIndex[k].mutationId < d.keyIndex[l].mutationId
    {
      if l == x.key {
        assert c.keyIndex[k].mutationId <= counter;
      } else if k != x.key {
        assert c.keyIndex[k].position != c.keyIndex[l].position;
      }
    }
  }

  lemma PushIndex(c: Checkpoint, counter: nat, x: Item, mid: nat)
    requires IndexOk(c, counter) && counter < mid
    ensures IndexOk(Push(c, x, mid), mid)
  {
    PushSound(c, counter, x, mid);
    PushComplete(c, counter, x, mid);
    PushOrdered(c, counter, x, mid);
    PushCounted(c, x, mid);
    hide IndexSound, IndexComplete, IndexOrdered, KeysCounted, Push;
  }

  lemma PushCounted(c: Checkpoint, x: Item, mid: nat)
    requires KeysCounted(c) && (x.key in c.keyIndex ==> c.keyIndex[x.key].position < |c.toWrite|)
    ensures KeysCounted(Push(c, x, mid))
  {
    var d := Push(c, x, mid);
    SizeOfKeys(c.keyIndex);
    SizeOfKeys(d.keyIndex);
    if x.key in c.keyIndex {
      assert d.keyIndex.Keys == c.keyIndex.Keys;
    } else if x.key != "" {
      assert d.keyIndex.Keys == c.keyIndex.Keys + {x.key};
    }
  }

  lemma SizeOfKeys<V>(m: map<Key, V>)
    ensures |m| == |m.Keys|
  {
  }

  /** The counter of a checkpoint is the number of keys in it. */
  lemma CountsKeys(c: Checkpoint, counter: nat)
    requires IndexOk(c, counter)
    ensures c.numItems == |KeySet(c.toWrite)|
  {
    SizeOfKeys(c.keyIndex);
    assert c.keyIndex.Keys == KeySet(c.toWrite) by {
      forall k | k in c.keyIndex ensures k in KeySet(c.toWrite) {
        assert c.toWrite[c.keyIndex[k].position].key == k;
      }
    }
  }
}
