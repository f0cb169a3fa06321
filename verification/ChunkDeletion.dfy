/**
 Ranged vbucket deletion: the collected row ids become a sorted list of ranges, which is split and merged
 while a cursor walks it, as the measured deletion time suggests. Row ids and sizes are unbounded here.
 */
module ChunkDeletion {

  datatype Range = Range(first: int, second: int)

  predicate Sorted(rs: seq<Range>) {
    && (forall i :: 0 <= i < |rs| ==> rs[i].first <= rs[i].second)
    && (forall i, j :: 0 <= i < j < |rs| ==> rs[i].second < rs[j].first)
  }

  /** Proper ranges in order, of which neighbours may share an end. */
  predicate Ordered(rs: seq<Range>) {
    && (forall i :: 0 <= i < |rs| ==> rs[i].first <= rs[i].second)
    && (forall i, j :: 0 <= i < j < |rs| ==> rs[i].second <= rs[j].first)
  }

  predicate Covers(rs: seq<Range>, x: int) {
    exists i :: 0 <= i < |rs| && rs[i].first <= x <= rs[i].second
  }

  /** Both lists start and end at the same row ids, and the second covers what the first covers. */
  ghost predicate Refits(rs: seq<Range>, rs': seq<Range>) {
    && rs != [] && rs' != []
    && rs'[0].first == rs[0].first && rs'[|rs'| - 1].second == rs[|rs| - 1].second
    && forall x :: Covers(rs, x) ==> Covers(rs', x)
  }

  // ---------------------------------------------------------------- splitting and merging the front range

  function Split(rs: seq<Range>, size: int): seq<Range>
    requires rs != []
  {
    var r := rs[0];
    if r.second - r.first <= size then rs
    else [Range(r.first, r.first + size), Range(r.first + size + 1, r.second)] + rs[1..]
  }

  /** Index of the first range, from `i` on, that ends beyond `limit`; the length if there is none. */
  function Beyond(rs: seq<Range>, i: nat, limit: int): (p: nat)
    requires i <= |rs|
    ensures i <= p <= |rs|
    ensures forall j :: i <= j < p ==> rs[j].second <= limit
    ensures p < |rs| ==> rs[p].second > limit
    decreases |rs| - i
  {
    if i < |rs| && rs[i].second <= limit then Beyond(rs, i + 1, limit) else i
  }

  function Merge(rs: seq<Range>, size: int): seq<Range>
    requires rs != []
  {
    var r := rs[0];
    var limit := r.first + size;
    if r.second - r.first >= size then rs
    else
      var p := Beyond(rs, 0, limit);
      if p == |rs| then [Range(r.first, rs[|rs| - 1].second)]
      else if rs[p].first <= limit then [Range(r.first, limit), Range(limit + 1, rs[p].second)] + rs[p + 1..]
      else if p == 0 then rs
      else [Range(r.first, rs[p - 1].second)] + rs[p..]
  }

  /** What the callback does to the ranges not yet deleted. */
  function Resize(rs: seq<Range>, size: int): seq<Range>
    requires rs != []
  {
    if rs[0].second - rs[0].first > size then Split(rs, size) else Merge(rs, size)
  }

  /** One range, or two adjacent ones, in place of the first `k` ranges. */
  function Regrouped(rs: seq<Range>, k: nat, cut: int): seq<Range>
    requires 0 < k <= |rs|
  {
    var last := rs[k - 1].second;
    (if cut < last then [Range(rs[0].first, cut), Range(cut + 1, last)] else [Range(rs[0].first, last)]) + rs[k..]
  }

  lemma RegroupedSorted(rs: seq<Range>, k: nat, cut: int)
    requires 0 < k <= |rs| && Sorted(rs) && rs[0].first <= cut
    ensures Sorted(Regrouped(rs, k, cut))
  {
    var rs' := Regrouped(rs, k, cut);
    var m := |rs'| - (|rs| - k);
    assert forall i :: m <= i < |rs'| ==> rs'[i] == rs[i - m + k];
    assert rs[0].first <= rs[k - 1].second;
    assert forall j :: k <= j < |rs| ==> rs[k - 1].second < rs[j].first;
  }

  lemma RegroupedCovers(rs: seq<Range>, k: nat, cut: int, x: int)
    requires 0 < k <= |rs| && Sorted(rs) && Covers(rs, x)
    ensures Covers(Regrouped(rs, k, cut), x)
  {
    var rs' := Regrouped(rs, k, cut);
    var m := |rs'| - (|rs| - k);
    var i :| 0 <= i < |rs| && rs[i].first <= x <= rs[i].second;
    if i >= k {
      assert rs'[m + i - k] == rs[i];
    } else {
      assert i > 0 ==> rs[0].second < rs[i].first;
      assert i < k - 1 ==> rs[i].second < rs[k - 1].first;
      assert rs[0].first <= x <= rs[k - 1].second;
      assert rs'[if cut < rs[k - 1].second && x > cut then 1 else 0].first <= x;
    }
  }

  lemma RegroupedRefits(rs: seq<Range>, k: nat, cut: int)
    requires 0 < k <= |rs| && Sorted(rs) && rs[0].first <= cut
    ensures Sorted(Regrouped(rs, k, cut)) && Refits(rs, Regrouped(rs, k, cut))
  {
    hide Sorted, Covers;
    RegroupedSorted(rs, k, cut);
    forall x | Covers(rs, x) ensures Covers(Regrouped(rs, k, cut), x) {
      RegroupedCovers(rs, k, cut, x);
    }
  }

  lemma RefitsSame(rs: seq<Range>)
    requires rs != []
    ensures Refits(rs, rs)
  {
  }

  lemma SplitRefits(rs: seq<Range>, size: int)
    requires rs != [] && Sorted(rs) && 0 <= size
    ensures Sorted(Split(rs, size)) && Refits(rs, Split(rs, size))
  {
    hide Sorted, Covers, Refits;
    RefitsSame(rs);
    RegroupedRefits(rs, 1, rs[0].first + size);
  }

  /** The branches of a merge that changes the list, in terms of the first range that ends beyond the limit. */
  lemma MergeForm(rs: seq<Range>, size: int)
    requires rs != [] && rs[0].second - rs[0].first < size
    ensures var limit := rs[0].first + size;
            var p := Beyond(rs, 0, limit);
            && 0 < p && rs[p - 1].second <= limit
            && Merge(rs, size) == Regrouped(rs, if p < |rs| && rs[p].first <= limit then p + 1 else p, limit)
  {
    var limit := rs[0].first + size;
    var p := Beyond(rs, 0, limit);
    assert rs[0].second <= limit;
    if p == |rs| {
      assert rs[p..] == [];
    }
  }

  lemma MergeRefits(rs: seq<Range>, size: int)
    requires rs != [] && Sorted(rs) && 0 <= size
    ensures Sorted(Merge(rs, size)) && Refits(rs, Merge(rs, size))
  {
    hide Sorted, Covers, Refits, Regrouped, Beyond;
    if rs[0].second - rs[0].first < size {
      MergeForm(rs, size);
      var limit := rs[0].first + size;
      var p := Beyond(rs, 0, limit);
      RegroupedRefits(rs, if p < |rs| && rs[p].first <= limit then p + 1 else p, limit);
    } else {
      RefitsSame(rs);
    }
  }

  /** Whatever size the timing suggests, resizing keeps order, extent and coverage. */
  lemma ResizeRefits(rs: seq<Range>, size: int)
    requires rs != [] && Sorted(rs) && 0 <= size
    ensures Sorted(Resize(rs, size)) && Refits(rs, Resize(rs, size))
  {
    hide Split, Merge, Sorted, Refits;
    SplitRefits(rs, size);
    MergeRefits(rs, size);
  }

  /** The front range then ends within the window of the given size, and everything else begins beyond it. */
  lemma ResizeWindow(rs: seq<Range>, size: int)
    requires rs != [] && Sorted(rs) && 0 <= size
    ensures var rs', limit := Resize(rs, size), rs[0].first + size;
            rs' != [] && rs'[0].first == rs[0].first && rs'[0].second <= limit && (|rs'| > 1 ==> limit < rs'[1].first)
  {
    hide Sorted, Beyond;
    if rs[0].second - rs[0].first < size {
      MergeForm(rs, size);
    } else if |rs| > 1 {
      SortedNext(rs, 1);
    }
  }

  // ---------------------------------------------------------------- the range list, edited in place

  /** Iterators are indices; `|rangeList|` stands for `end()`. */
  class VBDeletionChunkRangeList {
    var rangeList: seq<Range>

    constructor ()
      ensures rangeList == []
    {
      rangeList := [];
    }

    method Add(r: Range)
      modifies this
      ensures rangeList == if r.first > r.second
                              || (old(rangeList) != [] && old(rangeList)[|old(rangeList)| - 1].second > r.first)
                           then old(rangeList) else old(rangeList) + [r]
      ensures old(Ordered(rangeList)) ==>
                rangeList == if Ordered(old(rangeList) + [r]) then old(rangeList) + [r] else old(rangeList)
    {
      if Ordered(rangeList) {
        OrderedMore(rangeList, r);
      }
      if r.first > r.second || (|rangeList| > 0 && rangeList[|rangeList| - 1].second > r.first) {
        return;
      }
      rangeList := rangeList + [r];
    }

    method SplitChunkRange(it: nat, size: int)
      requires it <= |rangeList|
      modifies this
      ensures rangeList == if it == |old(rangeList)| then old(rangeList)
                           else old(rangeList)[..it] + Split(old(rangeList)[it..], size)
    {
      if it == |rangeList| || rangeList[it].second - rangeList[it].first <= size {
        assert rangeList == rangeList[..it] + rangeList[it..];
        return;
      }
      var rangeEnd := rangeList[it].second;
      rangeList := rangeList[it := Range(rangeList[it].first, rangeList[it].first + size)];
      var r := Range(rangeList[it].second + 1, rangeEnd);
      rangeList := rangeList[..it + 1] + [r] + rangeList[it + 1..];
    }

    method FindClosestChunkByRangeSize(it: nat, size: int) returns (p: nat)
      requires it < |rangeList|
      ensures p == it + Beyond(rangeList[it..], 0, rangeList[it].first + size) && p <= |rangeList|
    {
      p := it;
      var limit := rangeList[it].first + size;
      while p != |rangeList| && rangeList[p].second <= limit
        invariant it <= p <= |rangeList|
        invariant forall j :: 0 <= j < p - it ==> rangeList[it..][j].second <= limit
        decreases |rangeList| - p
      {
        p := p + 1;
      }
      BeyondUnique(rangeList[it..], limit, p - it);
    }

    /** Erases the ranges strictly between two positions, unless they are out of order. */
    method RemoveChunkRanges(first: nat, last: nat)
      requires first <= last <= |rangeList|
      modifies this
      ensures rangeList == if first == last
                              || (last < |old(rangeList)| && old(rangeList)[first].second > old(rangeList)[last].first)
                           then old(rangeList) else old(rangeList)[..first + 1] + old(rangeList)[last..]
      ensures old(Ordered(rangeList)) && first < last ==>
                Ordered(rangeList) && rangeList == old(rangeList)[..first + 1] + old(rangeList)[last..]
    {
      if first == last || first == |rangeList|
          || (last != |rangeList| && rangeList[first].second > rangeList[last].first) {
        return;
      }
      rangeList := rangeList[..first + 1] + rangeList[last..];
    }

    method MergeChunkRanges(start: nat, size: int)
      requires start <= |rangeList| && Sorted(rangeList[start..])
      modifies this
      ensures rangeList == if start == |old(rangeList)| then old(rangeList)
                           else old(rangeList)[..start] + Merge(old(rangeList)[start..], size)
    {
      hide Sorted, Beyond, Merge;
      ghost var l := rangeList;
      if start == |rangeList| {
        return;
      }
      if rangeList[start].second - rangeList[start].first >= size {
        MergeNothing(l, start, size);
        return;
      }
      var p := FindClosestChunkByRangeSize(start, size);
      var r := rangeList[start];
      MergeTail(l, start, size, p);
      ghost var merged := Merge(l[start..], size);
      if p != |rangeList| {
        var endpoint := r.first + size;
        if rangeList[p].first <= endpoint && endpoint <= rangeList[p].second {
          rangeList := rangeList[start := Range(r.first, endpoint)];
          rangeList := rangeList[p := Range(endpoint + 1, rangeList[p].second)];
          assert merged == [Range(r.first, endpoint), Range(endpoint + 1, l[p].second)] + l[p + 1..];
          SpliceTwo(l, start, p, Range(r.first, endpoint), Range(endpoint + 1, l[p].second));
        } else {
          rangeList := rangeList[start := Range(r.first, rangeList[p - 1].second)];
          assert merged == [Range(r.first, l[p - 1].second)] + l[p..];
          SpliceOne(l, start, p, Range(r.first, l[p - 1].second));
        }
      } else {
        rangeList := rangeList[start := Range(r.first, rangeList[|rangeList| - 1].second)];
        SpliceOne(l, start, p, Range(r.first, l[p - 1].second));
      }
      assert rangeList[..start + 1] + rangeList[p..] == l[..start] + merged;
      assert p < |rangeList| ==> rangeList[start].second <= rangeList[p].first;
      RemoveChunkRanges(start, p);
    }
  }

  /** A range may be appended to an ordered list exactly if it is proper and does not begin before the last one ends. */
  lemma OrderedMore(rs: seq<Range>, r: Range)
    requires Ordered(rs)
    ensures Ordered(rs + [r]) <==> r.first <= r.second && (rs != [] ==> rs[|rs| - 1].second <= r.first)
  {
    var rs', n := rs + [r], |rs|;
    assert rs'[n] == r && forall i :: 0 <= i < n ==> rs'[i] == rs[i];
    if rs != [] && Ordered(rs') {
      assert rs'[n - 1].second <= rs'[n].first;
    }
    if rs != [] {
      assert forall i :: 0 <= i < n - 1 ==> rs[i].second <= rs[n - 1].first <= rs[n - 1].second;
    }
  }

  lemma BeyondUnique(rs: seq<Range>, limit: int, p: nat)
    requires p <= |rs| && (forall j :: 0 <= j < p ==> rs[j].second <= limit) && (p < |rs| ==> rs[p].second > limit)
    ensures p == Beyond(rs, 0, limit)
  {
    var f := Beyond(rs, 0, limit);
    assert f < |rs| ==> rs[f].second > limit;
  }

  lemma MergeNothing(l: seq<Range>, start: nat, size: int)
    requires start < |l| && l[start].second - l[start].first >= size
    ensures l == l[..start] + Merge(l[start..], size)
  {
    assert l == l[..start] + l[start..];
  }

  /** The three outcomes of a merge that starts in the middle of a list. */
  lemma MergeTail(l: seq<Range>, start: nat, size: int, p: nat)
    requires start < |l| && p == start + Beyond(l[start..], 0, l[start].first + size)
    requires Sorted(l[start..]) && l[start].second - l[start].first < size
    ensures start < p <= |l| && (p < |l| ==> l[p].second > l[start].first + size && l[p - 1].second <= l[p].first)
    ensures var r, limit := l[start], l[start].first + size;
            Merge(l[start..], size) ==
            if p < |l| && l[p].first <= limit then [Range(r.first, limit), Range(limit + 1, l[p].second)] + l[p + 1..]
            else [Range(r.first, l[p - 1].second)] + l[p..]
  {
    hide Sorted, Merge, Beyond;
    var rs, q := l[start..], p - start;
    assert rs[0] == l[start];
    MergeForm(rs, size);
    assert rs[q - 1] == l[p - 1];
    if p < |l| {
      assert rs[q] == l[p];
      SortedNext(rs, q);
    }
    if p < |l| && l[p].first <= l[start].first + size {
      assert rs[q + 1..] == l[p + 1..];
    } else {
      assert rs[q..] == l[p..];
    }
  }

  lemma SortedNext(rs: seq<Range>, q: nat)
    requires Sorted(rs) && 0 < q < |rs|
    ensures rs[q - 1].second < rs[q].first
  {
  }

  lemma SpliceOne(l: seq<Range>, start: nat, p: nat, r: Range)
    requires start < p <= |l|
    ensures l[start := r][..start + 1] + l[start := r][p..] == l[..start] + ([r] + l[p..])
  {
  }

  lemma SpliceTwo(l: seq<Range>, start: nat, p: nat, r: Range, r': Range)
    requires start < p < |l|
    ensures var l' := l[start := r][p := r'];
            l'[..start + 1] + l'[p..] == l[..start] + ([r, r'] + l[p + 1..])
  {
  }

  // ---------------------------------------------------------------- collecting the ranges

  predicate Increasing(ids: seq<int>) {
    forall i, j :: 0 <= i < j < |ids| ==> ids[i] < ids[j]
  }

  /** Ranges that exactly span the row ids, in order. */
  ghost predicate Spans(rs: seq<Range>, ids: seq<int>) {
    && Sorted(rs) && (rs == [] <==> ids == [])
    && (rs != [] ==> rs[0].first == ids[0] && rs[|rs| - 1].second == ids[|ids| - 1])
    && forall i :: 0 <= i < |ids| ==> Covers(rs, ids[i])
  }

  lemma SpansNone(ids: seq<int>)
    ensures Spans([], ids[..0])
  {
    assert ids[..0] == [];
  }

  lemma SpansMore(rs: seq<Range>, ids: seq<int>, start: nat, n: nat)
    requires Increasing(ids) && start < n <= |ids| && Spans(rs, ids[..start])
    ensures Spans(rs + [Range(ids[start], ids[n - 1])], ids[..n])
    ensures ids[start] <= ids[n - 1] && (rs != [] ==> rs[|rs| - 1].second <= ids[start])
  {
    var r := Range(ids[start], ids[n - 1]);
    var rs' := rs + [r];
    assert start > 0 ==> ids[..start][start - 1] == ids[start - 1];
    forall i | 0 <= i < n ensures Covers(rs', ids[..n][i]) {
      if i < start {
        assert ids[..start][i] == ids[i];
        var k :| 0 <= k < |rs| && rs[k].first <= ids[i] <= rs[k].second;
        assert rs'[k] == rs[k];
      } else {
        assert rs'[|rs|] == r;
      }
    }
  }

  /** The ranges that take `size` ids each, the last one what is left; a single range if `size` is 0. */
  function Chunks(ids: seq<int>, size: nat): seq<Range> {
    if ids == [] then []
    else if size == 0 || |ids| <= size then [Range(ids[0], ids[|ids| - 1])]
    else [Range(ids[0], ids[size - 1])] + Chunks(ids[size..], size)
  }

  /** Range `k` holds the ids from number `k * size` on: `size` of them, but for the last range. */
  lemma {:induction false} ChunkAt(ids: seq<int>, size: nat, k: nat)
    requires 0 < size && k < |Chunks(ids, size)|
    ensures var lo := k * size;
            && 0 <= lo < |ids|
            && (k < |Chunks(ids, size)| - 1 <==> lo + size < |ids|)
            && Chunks(ids, size)[k] == Range(ids[lo], if lo + size < |ids| then ids[lo + size - 1] else ids[|ids| - 1])
  {
    if |ids| > size && k > 0 {
      ChunkAt(ids[size..], size, k - 1);
      assert k * size == (k - 1) * size + size;
    }
  }

  lemma ChunksFirst(ids: seq<int>, size: nat, n: nat)
    requires 0 < n <= |ids| && (n == size || n == |ids|) && (0 < size ==> n <= size)
    ensures Chunks(ids, size) == [Range(ids[0], ids[n - 1])] + Chunks(ids[n..], size)
  {
    if n == |ids| {
      assert ids[n..] == [];
    }
  }

  /** `createRangeList`: `chunkSize` ids per range, the last one shorter. */
  method CreateRangeList(ids: seq<int>, chunkSize: nat, list: VBDeletionChunkRangeList)
    requires Increasing(ids) && list.rangeList == []
    modifies list
    ensures Spans(list.rangeList, ids)
    ensures list.rangeList == Chunks(ids, chunkSize)
  {
    hide Spans, Increasing, Chunks;
    var counter, startRowId, endRowId := 0, -1, -1;
    var i := 0;
    ghost var start := 0;
    SpansNone(ids);
    assert ids[0..] == ids;
    while i < |ids|
      invariant 0 <= start <= i <= |ids| && counter == i - start
      invariant counter > 0 ==> startRowId == ids[start]
      invariant Spans(list.rangeList, ids[..start])
      invariant i == |ids| ==> start == i
      invariant 0 < chunkSize ==> counter < chunkSize
      invariant list.rangeList + Chunks(ids[start..], chunkSize) == Chunks(ids, chunkSize)
    {
      counter := counter + 1;
      if counter == 1 {
        startRowId := ids[i];
      }
      if counter == chunkSize || i == |ids| - 1 {
        endRowId := ids[i];
        SpansMore(list.rangeList, ids, start, i + 1);
        ChunksFirst(ids[start..], chunkSize, counter);
        assert ids[start..][counter..] == ids[i + 1..];
        list.Add(Range(startRowId, endRowId));
        counter := 0;
        start := i + 1;
      }
      i := i + 1;
    }
    assert ids[..|ids|] == ids && ids[|ids|..] == [];
    assert Chunks([], chunkSize) == [] by { NoChunks(chunkSize); }
  }

  lemma NoChunks(size: nat)
    ensures Chunks([], size) == []
  {
  }

  // ---------------------------------------------------------------- the deletion job

  datatype DeletionResult = Success | Fail | Invalid

  /** Everything the deletion has to do is done or still ahead of the cursor. */
  ghost predicate Progress(ids: seq<int>, handed: seq<Range>, ahead: seq<Range>) {
    && Sorted(handed + ahead)
    && (forall i :: 0 <= i < |ids| ==> Covers(handed, ids[i]) || Covers(ahead, ids[i]))
    && (ahead != [] ==> ids != [] && ahead[|ahead| - 1].second == ids[|ids| - 1])
  }

  lemma SpansProgress(rs: seq<Range>, ids: seq<int>)
    requires Spans(rs, ids)
    ensures Progress(ids, [], rs)
    ensures (rs == [] <==> ids == []) && (rs != [] ==> rs[0].first == ids[0] && rs[0].first <= rs[0].second)
  {
    assert [] + rs == rs;
  }

  lemma ProgressStep(ids: seq<int>, handed: seq<Range>, ahead: seq<Range>, size: int)
    requires Progress(ids, handed, ahead) && |ahead| > 1 && 0 <= size
    ensures Sorted(ahead[1..]) && Progress(ids, handed + [ahead[0]], Resize(ahead[1..], size))
    ensures Resize(ahead[1..], size) != [] && ahead[0].first < Resize(ahead[1..], size)[0].first <= ids[|ids| - 1]
  {
    var rest := ahead[1..];
    SortedParts(handed, ahead);
    hide Resize;
    ResizeRefits(rest, size);
    var rest' := Resize(rest, size);
    HandOver(handed, ahead, rest');
    forall i | 0 <= i < |ids| ensures Covers(handed + [ahead[0]], ids[i]) || Covers(rest', ids[i]) {
      CoversMove(handed, ahead, ids[i]);
    }
    SortedEnds(rest');
  }

  lemma SortedEnds(rs: seq<Range>)
    requires Sorted(rs) && rs != []
    ensures rs[0].first <= rs[|rs| - 1].second
  {
  }

  lemma SortedParts(a: seq<Range>, b: seq<Range>)
    requires Sorted(a + b)
    ensures Sorted(a) && Sorted(b) && (b != [] ==> Sorted(b[1..]))
    ensures forall i, j :: 0 <= i < |a| && 0 <= j < |b| ==> a[i].second < b[j].first
    ensures |b| > 1 ==> b[0].second < b[1].first && b[0].first <= b[0].second
  {
    assert forall i :: 0 <= i < |a| ==> (a + b)[i] == a[i];
    assert forall j :: 0 <= j < |b| ==> (a + b)[|a| + j] == b[j];
  }

  lemma HandOver(handed: seq<Range>, ahead: seq<Range>, rest: seq<Range>)
    requires Sorted(handed + ahead) && |ahead| > 1 && Sorted(rest) && rest != [] && rest[0].first == ahead[1].first
    ensures Sorted(handed + [ahead[0]] + rest)
  {
    SortedParts(handed, ahead);
    var l := handed + [ahead[0]] + rest;
    var n := |handed|;
    assert forall j :: 0 <= j < |rest| ==> ahead[1].first <= rest[j].first by {
      assert forall j :: 0 < j < |rest| ==> rest[0].second < rest[j].first;
    }
    forall i, j | 0 <= i < j < |l| ensures l[i].second < l[j].first {
      if j > n {
        assert l[j] == rest[j - n - 1];
        if i > n {
          assert l[i] == rest[i - n - 1];
        } else if i < n {
          assert l[i] == handed[i] && handed[i].second < ahead[1].first;
        }
      } else if j == n {
        assert l[i] == handed[i] && handed[i].second < ahead[0].first;
      } else {
        assert l[i] == handed[i] && l[j] == handed[j];
      }
    }
  }

  lemma CoversMove(handed: seq<Range>, ahead: seq<Range>, x: int)
    requires ahead != [] && (Covers(handed, x) || Covers(ahead, x))
    ensures Covers(handed + [ahead[0]], x) || Covers(ahead[1..], x)
  {
    var h := handed + [ahead[0]];
    if Covers(handed, x) {
      var i :| 0 <= i < |handed| && handed[i].first <= x <= handed[i].second;
      assert h[i] == handed[i];
    } else {
      var i :| 0 <= i < |ahead| && ahead[i].first <= x <= ahead[i].second;
      if i == 0 {
        assert h[|handed|] == ahead[0];
      } else {
        assert ahead[1..][i - 1] == ahead[i];
      }
    }
  }

  class VBucketDeletionCallback {
    const list: VBDeletionChunkRangeList
    const threshold: nat
    var current: nat
    var chunkDelRangeSize: int
    ghost const ids: seq<int>
    ghost var handed: seq<Range>
    ghost var done: bool

    /** The ranges from the cursor on are those still to be deleted. */
    ghost predicate Valid()
      reads this, list
    {
      && current <= |list.rangeList| && 0 <= chunkDelRangeSize
      && (current == |list.rangeList| ==> list.rangeList == [])
      && if done then Progress(ids, handed, []) && Sorted(handed)
         else Progress(ids, handed, list.rangeList[current..])
    }

    constructor (rowIds: seq<int>, chunkSize: nat, chunkDelTime: nat)
      requires Increasing(rowIds)
      ensures Valid() && !done && handed == [] && ids == rowIds && fresh(list)
      ensures Distance() == Bound(rowIds)
      ensures list.rangeList == Chunks(rowIds, chunkSize) && threshold == chunkDelTime && current == 0
      ensures chunkDelRangeSize == if rowIds == [] then 100 else list.rangeList[0].second - list.rangeList[0].first
    {
      hide Spans, Progress, Sorted, Increasing, Chunks;
      var l := new VBDeletionChunkRangeList();
      CreateRangeList(rowIds, chunkSize, l);
      SpansProgress(l.rangeList, rowIds);
      list, threshold, current := l, chunkDelTime, 0;
      ids, handed, done := rowIds, [], false;
      if l.rangeList != [] {
        chunkDelRangeSize := l.rangeList[0].second - l.rangeList[0].first;
      } else {
        chunkDelRangeSize := 100;
      }
      assert l.rangeList[0..] == l.rangeList;
    }

    /** How far the current range's start is from the last row id, counting both. */
    ghost function Distance(): int
      requires Valid()
      reads this, list
    {
      if done then 0 else if current == |list.rangeList| then 1 else 1 + ids[|ids| - 1] - list.rangeList[current].first
    }

    lemma HandedSorted()
      requires Valid()
      ensures Sorted(handed)
    {
      SortedParts(handed, if done then [] else list.rangeList[current..]);
    }

    lemma DistancePositive()
      requires Valid() && !done
      ensures Distance() > 0
    {
      if current < |list.rangeList| {
        DistanceAhead(ids, handed, list.rangeList[current..]);
      }
    }

    /** After a range that is not the last one was deleted: the new range size, the cursor and the next range. */
    method Advance(range: Range, chunkDelTime: nat)
      requires Valid() && !done && current + 1 < |list.rangeList| && range == list.rangeList[current]
      modifies this, list
      ensures Valid() && !done && handed == old(handed) + [range] && Distance() < old(Distance())
      ensures range.first == -1 || range.second == -1 || chunkDelTime == 0 ==>
                chunkDelRangeSize == old(chunkDelRangeSize)
      ensures range.first != -1 && range.second != -1 && chunkDelTime != 0 ==>
                var size := old(chunkDelRangeSize) * threshold / chunkDelTime;
                chunkDelRangeSize == if size < 100 then 100 else size
      ensures current == old(current) + 1 < |list.rangeList|
      ensures var next := list.rangeList[current];
              && next.first == old(list.rangeList)[current].first
              && next.second <= next.first + chunkDelRangeSize
              && (current + 1 < |list.rangeList| ==> next.first + chunkDelRangeSize < list.rangeList[current + 1].first)
    {
      hide Progress, Sorted, Split, Merge;
      if range.first != -1 && range.second != -1 && chunkDelTime != 0 {
        chunkDelRangeSize := (chunkDelRangeSize * threshold) / chunkDelTime;
        chunkDelRangeSize := if chunkDelRangeSize < 100 then 100 else chunkDelRangeSize;
      }
      ghost var ahead := list.rangeList[current..];
      ProgressStep(ids, handed, ahead, chunkDelRangeSize);
      ResizeWindow(ahead[1..], chunkDelRangeSize);
      ghost var before := list.rangeList;
      current := current + 1;
      assert before[current..] == ahead[1..];
      if list.rangeList[current].second - list.rangeList[current].first > chunkDelRangeSize {
        list.SplitChunkRange(current, chunkDelRangeSize);
      } else {
        list.MergeChunkRanges(current, chunkDelRangeSize);
      }
      assert list.rangeList[current..] == Resize(ahead[1..], chunkDelRangeSize);
      handed := handed + [range];
    }

    /**
     One run of the deletion job. `result` is what the store reports for `range` and `chunkDelTime` the time it took,
     in milliseconds; the range handed over is (-1, -1) when no row ids were collected.
     */
    method Callback(result: DeletionResult, chunkDelTime: nat) returns (again: bool, range: Range)
      requires Valid() && !done
      modifies this, list
      ensures Valid()
      ensures range == if old(current) == |old(list.rangeList)| then Range(-1, -1)
              else old(list.rangeList)[old(current)]
      ensures !result.Success? ==>
              handed == old(handed) && !done && list.rangeList == old(list.rangeList) && current == old(current)
      ensures !result.Success? ==> (again <==> result.Fail?)
      ensures result.Success? ==>
              handed == if old(current) == |old(list.rangeList)| then old(handed) else old(handed) + [range]
      ensures result.Success? ==> (again <==> !done)
      ensures again && result.Success? ==> Distance() < old(Distance())
    {
      var isLastChunk;
      if current == |list.rangeList| {
        range := Range(-1, -1);
        isLastChunk := true;
      } else {
        range := list.rangeList[current];
        isLastChunk := range.second == list.rangeList[|list.rangeList| - 1].second;
        LastChunk(list.rangeList, current, handed);
      }
      match result {
        case Success =>
          if !isLastChunk {
            Advance(range, chunkDelTime);
            again := true;
          } else {
            LastHanded(ids, handed, list.rangeList[current..]);
            if current < |list.rangeList| {
              handed := handed + [range];
            }
            done := true;
            again := false;
          }
        case Fail => again := true;
        case Invalid => again := false;
      }
    }
  }

  lemma LastChunk(rs: seq<Range>, i: nat, handed: seq<Range>)
    requires i < |rs| && Sorted(handed + rs[i..])
    ensures rs[i].second == rs[|rs| - 1].second <==> i == |rs| - 1
  {
    SortedParts(handed, rs[i..]);
    var b := rs[i..];
    assert b[|b| - 1] == rs[|rs| - 1] && b[0] == rs[i];
    assert |b| > 1 ==> b[0].second < b[|b| - 1].first <= b[|b| - 1].second;
  }

  lemma LastHanded(ids: seq<int>, handed: seq<Range>, ahead: seq<Range>)
    requires Progress(ids, handed, ahead) && |ahead| <= 1
    ensures ahead == [] ==> Progress(ids, handed, []) && Sorted(handed)
    ensures ahead != [] ==> Progress(ids, handed + [ahead[0]], []) && Sorted(handed + [ahead[0]])
  {
    if ahead == [] {
      assert handed + ahead == handed;
    } else {
      var h := handed + [ahead[0]];
      assert h == handed + ahead && h + [] == h;
      forall i | 0 <= i < |ids| ensures Covers(h, ids[i]) {
        CoversMove(handed, ahead, ids[i]);
      }
    }
  }

  /** What one chunk deletion reports, and the time it took in milliseconds. */
  datatype Outcome = Outcome(result: DeletionResult, time: nat)

  function Successes(os: seq<Outcome>): nat {
    if os == [] then 0
    else Successes(os[..|os| - 1]) + if os[|os| - 1].result.Success? then 1 else 0
  }

  /** Callbacks that succeed needed, at most, to delete these rows. */
  function Bound(rowIds: seq<int>): int {
    if rowIds == [] then 1 else 1 + rowIds[|rowIds| - 1] - rowIds[0]
  }

  lemma DistanceAhead(ids: seq<int>, handed: seq<Range>, ahead: seq<Range>)
    requires Progress(ids, handed, ahead) && ahead != []
    ensures ids != [] && ahead[0].first <= ids[|ids| - 1]
  {
    SortedParts(handed, ahead);
    SortedEnds(ahead);
  }

  /**
   The deletion job over the outcomes of its chunks, whatever they and their times are. The ranges handed to
   the store successfully are disjoint and increasing; once the job is finished they contain every collected
   row id; and it is finished after at most as many successes as the row ids span, unless the vbucket is gone.
   */
  method RunDeletion(rowIds: seq<int>, chunkSize: nat, threshold: nat, outcomes: seq<Outcome>)
    returns (handed: seq<Range>, finished: bool)
    requires Increasing(rowIds)
    ensures Sorted(handed)
    ensures finished ==> forall i :: 0 <= i < |rowIds| ==> Covers(handed, rowIds[i])
    ensures (forall o :: o in outcomes ==> !o.result.Invalid?) && Successes(outcomes) >= Bound(rowIds) ==> finished
  {
    hide Sorted;
    var task := new VBucketDeletionCallback(rowIds, chunkSize, threshold);
    handed, finished := [], false;
    var again, n := true, 0;
    assert outcomes[..0] == [];
    while again && n < |outcomes|
      invariant fresh(task) && fresh(task.list)
      invariant task.Valid() && task.ids == rowIds && task.handed == handed
      invariant n <= |outcomes|
      invariant !task.done ==> task.Distance() + Successes(outcomes[..n]) <= Bound(rowIds)
      invariant finished <==> task.done
      invariant !again && !finished ==> exists i :: 0 <= i < n && outcomes[i].result.Invalid?
      invariant again ==> !finished
      decreases |outcomes| - n
    {
      var o := outcomes[n];
      var empty := task.current == |task.list.rangeList|;
      var range;
      again, range := task.Callback(o.result, o.time);
      if o.result.Success? && !empty {
        handed := handed + [range];
      }
      assert outcomes[..n + 1][..n] == outcomes[..n];
      finished := !again && o.result.Success?;
      n := n + 1;
    }
    task.HandedSorted();
    if !finished && again {
      assert outcomes[..n] == outcomes;
      task.DistancePositive();
    }
  }
}
