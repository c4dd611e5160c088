/** One edit of the newer file, seen through the regions that lead to it. */
module RegionEdits {
  import opened Regions

  datatype Edit = Edit(start: int, before: seq<Line>, after: seq<Line>)
  {
    function End(): int { start + |before| }
    function Shift(): int { |after| - |before| }
  }

  predicate Lies(p: int, start: int, end: int) { start <= p < end }

  /** A stretch overlaps a region's newer side if they share a line; an empty one lies between two lines
      of the other, or both are empty at the same place. */
  lemma OverlapMeans(start: int, end: int, region: Region)
    requires start <= end
    ensures ReviewOverlaps(start, end, region) <==>
              if start < end && region.after != [] then exists p :: Lies(p, start, end) && Lies(p, region.afterStart, region.afterStart + |region.after|)
              else if start < end then start < region.afterStart < end
              else if region.after != [] then region.afterStart < start < region.afterStart + |region.after|
              else start == region.afterStart
  {
    var a, b := region.afterStart, region.AfterEnd();
    if start < end && region.after != [] && ReviewOverlaps(start, end, region) {
      var p := if start < a then a else start;
      assert Lies(p, start, end) && Lies(p, a, b);
    }
  }

  predicate ReviewOverlaps(start: int, end: int, region: Region)
  {
    var a, b := region.afterStart, region.AfterEnd();
    if start == end && a == b then
      start == a
    else if start == end then
      a < start < b
    else if a == b then
      start < a < end
    else
      start < b && a < end
  }

  // A region that changes something.
  predicate Changes(r: Region) { r.before != r.after }

  ghost predicate InOrder(rs: seq<Region>)
  {
    && (forall k :: 0 <= k < |rs| ==> 0 <= rs[k].afterStart)
    && (forall k, l :: 0 <= k < l < |rs| ==> rs[k].BeforeEnd() <= rs[l].beforeStart && rs[k].AfterEnd() <= rs[l].afterStart)
  }

  lemma CarriesInOrder(rs: seq<Region>, base: seq<Line>, cur: seq<Line>)
    requires Carries(rs, base, cur)
    ensures InOrder(rs)
  {
    RunBounds(rs, base, cur, 0, 0, |base|, |cur|);
  }

  /** Overlapping regions are neighbours: the ones between two of them overlap as well, so
      removing first..last removes nothing else. */
  lemma OverlapsAreNeighbours(rs: seq<Region>, start: int, end: int, first: int, last: int)
    requires InOrder(rs) && start <= end
    requires 0 <= first <= last < |rs|
    requires ReviewOverlaps(start, end, rs[first]) && ReviewOverlaps(start, end, rs[last])
    ensures forall k :: first <= k <= last ==> ReviewOverlaps(start, end, rs[k])
  {
  }

  // The newer positions an edit of [start, end) has to rewrite: itself and every region it overlaps.
  function Left(rs: seq<Region>, start: int, lo: nat, hi: nat): int
    requires lo <= hi <= |rs|
  {
    if lo < hi && rs[lo].afterStart < start then rs[lo].afterStart else start
  }

  function Right(rs: seq<Region>, end: int, lo: nat, hi: nat): int
    requires lo <= hi <= |rs|
  {
    if lo < hi && end < rs[hi - 1].AfterEnd() then rs[hi - 1].AfterEnd() else end
  }

  // rs[lo..hi] are the overlapped regions, the others lie on either side of [start, end).
  ghost predicate Cuts(rs: seq<Region>, start: int, end: int, lo: nat, hi: nat)
  {
    && lo <= hi <= |rs|
    && (forall k :: 0 <= k < lo ==> rs[k].AfterEnd() <= Left(rs, start, lo, hi))
    && (forall k :: hi <= k < |rs| ==> Right(rs, end, lo, hi) <= rs[k].afterStart)
    && (forall k :: 0 <= k < |rs| ==> (lo <= k < hi <==> ReviewOverlaps(start, end, rs[k])))
  }

  lemma OverlapsCut(rs: seq<Region>, start: int, end: int, lo: nat, hi: nat)
    requires InOrder(rs) && start <= end
    requires lo < hi <= |rs|
    requires forall k :: 0 <= k < |rs| ==> (lo <= k < hi <==> ReviewOverlaps(start, end, rs[k]))
    ensures Cuts(rs, start, end, lo, hi)
  {
    assert ReviewOverlaps(start, end, rs[lo]) && ReviewOverlaps(start, end, rs[hi - 1]);
    forall k | 0 <= k < lo ensures rs[k].AfterEnd() <= Left(rs, start, lo, hi) {
      assert !ReviewOverlaps(start, end, rs[k]);
    }
    forall k | hi <= k < |rs| ensures Right(rs, end, lo, hi) <= rs[k].afterStart {
      assert !ReviewOverlaps(start, end, rs[k]);
    }
  }

  lemma CutTwice(rs: seq<Region>, base: seq<Line>, cur: seq<Line>, lo: nat, hi: nat, left: int, right: int) returns (m: int, m2: int)
    requires Carries(rs, base, cur)
    requires 0 <= left <= right <= |cur|
    requires lo <= hi <= |rs|
    requires lo > 0 ==> rs[lo - 1].AfterEnd() <= left
    requires lo < |rs| ==> left <= rs[lo].afterStart
    requires hi > 0 ==> rs[hi - 1].AfterEnd() <= right
    requires hi < |rs| ==> right <= rs[hi].afterStart
    ensures m == if lo < |rs| then left + rs[lo].beforeStart - rs[lo].afterStart else left + |base| - |cur|
    ensures 0 <= m <= m2 <= |base|
    ensures Run(rs[..lo], base, cur, 0, 0, m, left)
    ensures Run(rs[lo..hi], base, cur, m, left, m2, right)
    ensures Run(rs[hi..], base, cur, m2, right, |base|, |cur|)
  {
    hide Run;
    m := RunCutAt(rs, base, cur, 0, 0, |base|, |cur|, lo, left);
    var rest, k := rs[lo..], hi - lo;
    assert k > 0 ==> rest[k - 1] == rs[hi - 1];
    assert k < |rest| ==> rest[k] == rs[hi];
    m2 := RunCutAt(rest, base, cur, m, left, |base|, |cur|, k, right);
    assert rest[..k] == rs[lo..hi] && rest[k..] == rs[hi..];
    RunOrdered(rs[lo..hi], base, cur, m, left, m2, right);
  }

  /** Rewriting regions lo..hi as one.  The run splits around [left, right); the part before
      stays, the part after moves, and the stretch between is one region from its original
      text to its edited text. */
  lemma SpliceRun(rs: seq<Region>, base: seq<Line>, cur: seq<Line>, edit: Edit, lo: nat, hi: nat, left: int, right: int)
    returns (m: int, m2: int)
    requires Carries(rs, base, cur)
    requires 0 <= left <= edit.start <= edit.End() <= right <= |cur|
    requires lo <= hi <= |rs|
    requires lo > 0 ==> rs[lo - 1].AfterEnd() <= left
    requires lo < |rs| ==> left <= rs[lo].afterStart
    requires hi > 0 ==> rs[hi - 1].AfterEnd() <= right
    requires hi < |rs| ==> right <= rs[hi].afterStart
    ensures m == if lo < |rs| then left + rs[lo].beforeStart - rs[lo].afterStart else left + |base| - |cur|
    ensures 0 <= m <= m2 <= |base|
    ensures Run(rs[lo..hi], base, cur, m, left, m2, right)
    ensures SplicedRuns(rs, base, Spliced(cur, edit.start, edit.End(), edit.after), lo, hi, m, left, m2, right, edit.Shift())
    ensures Spliced(cur, edit.start, edit.End(), edit.after)[left..right + edit.Shift()] == cur[left..edit.start] + edit.after + cur[edit.End()..right]
  {
    hide Run;
    m, m2 := CutTwice(rs, base, cur, lo, hi, left, right);
    SplicedParts(cur, edit.start, edit.End(), edit.after, left, right);
    SplicedSides(rs[..lo], rs[hi..], base, cur, Spliced(cur, edit.start, edit.End(), edit.after), m, left, m2, right, edit.Shift());
  }

  lemma SplicedSides(ps: seq<Region>, qs: seq<Region>, base: seq<Line>, cur: seq<Line>, next: seq<Line>, m: int, left: int, m2: int, right: int, shift: int)
    requires Run(ps, base, cur, 0, 0, m, left) && Run(qs, base, cur, m2, right, |base|, |cur|)
    requires |next| == |cur| + shift && left <= |next| && 0 <= right + shift
    requires next[0..left] == cur[0..left] && next[right + shift..|next|] == cur[right..|cur|]
    ensures Run(ps, base, next, 0, 0, m, left)
    ensures Run(Shift(qs, shift), base, next, m2, right + shift, |base|, |next|)
  {
    RunUnmoved(ps, base, cur, next, 0, 0, m, left);
    RunMoved(qs, base, cur, next, m2, right, |base|, |cur|, shift);
  }

  // The regions on either side of the rewritten stretch, against the edited file.
  ghost predicate SplicedRuns(rs: seq<Region>, base: seq<Line>, next: seq<Line>, lo: nat, hi: nat, m: int, left: int, m2: int, right: int, shift: int)
  {
    && lo <= hi <= |rs|
    && 0 <= left <= right + shift <= |next|
    && Run(rs[..lo], base, next, 0, 0, m, left)
    && Run(Shift(rs[hi..], shift), base, next, m2, right + shift, |base|, |next|)
  }

  lemma RunOrdered(rs: seq<Region>, base: seq<Line>, cur: seq<Line>, i: int, j: int, i2: int, j2: int)
    requires Run(rs, base, cur, i, j, i2, j2)
    ensures 0 <= i <= i2 <= |base| && 0 <= j <= j2 <= |cur|
  {
  }

  lemma SplicedParts(cur: seq<Line>, start: int, end: int, mid: seq<Line>, left: int, right: int)
    requires 0 <= left <= start <= end <= right <= |cur|
    ensures var next := Spliced(cur, start, end, mid);
            var s := |mid| - (end - start);
            && |next| == |cur| + s
            && next[0..left] == cur[0..left]
            && next[left..right + s] == cur[left..start] + mid + cur[end..right]
            && next[right + s..|next|] == cur[right..|cur|]
  {
    var next := Spliced(cur, start, end, mid);
    var s := |mid| - (end - start);
    assert next == cur[..left] + (cur[left..start] + mid + cur[end..right]) + cur[right..] by {
      assert cur[..start] == cur[..left] + cur[left..start];
      assert cur[end..] == cur[end..right] + cur[right..];
    }
  }

  // The region list after an edit, the stretch rewritten as one region.
  lemma SpliceCarries(rs: seq<Region>, base: seq<Line>, next: seq<Line>, lo: nat, hi: nat, m: int, left: int, m2: int, right: int, shift: int, r: Region)
    requires SplicedRuns(rs, base, next, lo, hi, m, left, m2, right, shift) && 0 <= m <= m2 <= |base|
    requires r.beforeStart == m && r.afterStart == left && r.before == base[m..m2] && r.after == next[left..right + shift]
    ensures Carries(rs[..lo] + [r] + Shift(rs[hi..], shift), base, next)
  {
    RunSnoc(rs[..lo], r, base, next, 0, 0);
    RunConcat(rs[..lo] + [r], Shift(rs[hi..], shift), base, next, 0, 0, m2, right + shift, |base|, |next|);
  }

  // The same when the edit restores the stretch's original text: no region remains.
  lemma RestoreCarries(rs: seq<Region>, base: seq<Line>, next: seq<Line>, lo: nat, hi: nat, m: int, left: int, m2: int, right: int, shift: int)
    requires SplicedRuns(rs, base, next, lo, hi, m, left, m2, right, shift) && 0 <= m <= m2 <= |base|
    requires base[m..m2] == next[left..right + shift]
    ensures Carries(rs[..lo] + Shift(rs[hi..], shift), base, next)
  {
    assert |base[m..m2]| == |next[left..right + shift]|;
    RunExtend(rs[..lo], base, next, 0, 0, m, left, m2 - m);
    RunConcat(rs[..lo], Shift(rs[hi..], shift), base, next, 0, 0, m2, right + shift, |base|, |next|);
  }

  // ----- Order

  predicate Precedes(a: Region, b: Region)
  {
    a.afterStart < b.afterStart || (a.afterStart == b.afterStart && a.beforeStart < b.beforeStart)
  }

  // Insertion sort by newer, then older position.
  function SortByStart(rs: seq<Region>): (r: seq<Region>)
    ensures |r| == |rs|
  {
    if rs == [] then [] else Insert(SortByStart(rs[..|rs| - 1]), rs[|rs| - 1])
  }

  function Insert(rs: seq<Region>, r: Region): (res: seq<Region>)
    ensures |res| == |rs| + 1
  {
    if rs == [] || !Precedes(r, rs[|rs| - 1]) then rs + [r] else Insert(rs[..|rs| - 1], r) + [rs[|rs| - 1]]
  }

  lemma InOrderPrecedes(rs: seq<Region>)
    requires InOrder(rs) && forall k :: 0 <= k < |rs| ==> Changes(rs[k])
    ensures forall k, l :: 0 <= k < l < |rs| ==> Precedes(rs[k], rs[l])
  {
    forall k, l | 0 <= k < l < |rs| ensures Precedes(rs[k], rs[l]) {
      assert Changes(rs[k]);
      assert |rs[k].before| > 0 || |rs[k].after| > 0;
    }
  }

  lemma {:induction false} SortSorted(rs: seq<Region>)
    requires forall k, l :: 0 <= k < l < |rs| ==> Precedes(rs[k], rs[l])
    ensures SortByStart(rs) == rs
  {
    if rs != [] {
      SortSorted(rs[..|rs| - 1]);
      assert |rs| > 1 ==> Precedes(rs[|rs| - 2], rs[|rs| - 1]);
    }
  }

  lemma {:induction false} InsertBetween(ps: seq<Region>, r: Region, qs: seq<Region>)
    requires forall k, l :: 0 <= k < l < |ps + [r] + qs| ==> Precedes((ps + [r] + qs)[k], (ps + [r] + qs)[l])
    ensures Insert(ps + qs, r) == ps + [r] + qs
    decreases |qs|
  {
    var all := ps + [r] + qs;
    if qs == [] {
      assert ps + qs == ps && all == ps + [r];
      assert ps != [] ==> Precedes(all[|ps| - 1], all[|ps|]);
    } else {
      var n := |qs| - 1;
      assert Precedes(all[|ps|], all[|all| - 1]);
      assert (ps + qs)[..|ps + qs| - 1] == ps + qs[..n];
      assert all[..|all| - 1] == ps + [r] + qs[..n];
      InsertBetween(ps, r, qs[..n]);
      assert ps + [r] + qs == (ps + [r] + qs[..n]) + [qs[n]];
    }
  }

  /** A stable sort of the regions around a new one puts it in its place. */
  lemma SortPlaces(ps: seq<Region>, r: Region, qs: seq<Region>)
    requires InOrder(ps + [r] + qs)
    requires forall k :: 0 <= k < |ps + [r] + qs| ==> Changes((ps + [r] + qs)[k])
    ensures SortByStart(ps + qs + [r]) == ps + [r] + qs
  {
    var all := ps + [r] + qs;
    InOrderPrecedes(all);
    forall k, l | 0 <= k < l < |ps + qs| ensures Precedes((ps + qs)[k], (ps + qs)[l]) {
      var k', l' := if k < |ps| then k else k + 1, if l < |ps| then l else l + 1;
      assert (ps + qs)[k] == all[k'] && (ps + qs)[l] == all[l'];
    }
    SortSorted(ps + qs);
    assert (ps + qs + [r])[..|ps + qs|] == ps + qs;
    InsertBetween(ps, r, qs);
  }

  // ----- Positions

  /** Outside the regions, the two files share their text, at positions apart by the growth
      of the regions passed. */
  lemma OriginalText(rs: seq<Region>, base: seq<Line>, cur: seq<Line>, n: nat, position: int) returns (o: int)
    requires Carries(rs, base, cur) && n <= |rs| && 0 <= position <= |cur|
    requires n > 0 ==> rs[n - 1].AfterEnd() <= position
    requires n < |rs| ==> position < rs[n].afterStart
    ensures o == position - Growth(rs[..n])
    ensures n < |rs| ==> o == position + rs[n].beforeStart - rs[n].afterStart
    ensures n == |rs| ==> o == position + |base| - |cur|
    ensures 0 <= o <= |base| && (position < |cur| ==> o < |base| && base[o] == cur[position])
  {
    o := RunCutAt(rs, base, cur, 0, 0, |base|, |cur|, n, position);
    RunGrowth(rs[..n], base, cur, 0, 0, o, position);
    if position < |cur| {
      RunFirst(rs[n..], base, cur, o, position, |base|, |cur|);
    }
  }

  lemma RunFirst(rs: seq<Region>, base: seq<Line>, cur: seq<Line>, i: int, j: int, i2: int, j2: int)
    requires Run(rs, base, cur, i, j, i2, j2) && j < j2
    requires rs != [] ==> j < rs[0].afterStart
    ensures i < i2 && base[i] == cur[j]
  {
    var e := if rs == [] then (i2, j2) else (rs[0].beforeStart, rs[0].afterStart);
    assert base[i..e.0] == cur[j..e.1];
    assert |base[i..e.0]| == |cur[j..e.1]|;
    assert base[i..e.0][0] == base[i] && cur[j..e.1][0] == cur[j];
  }
}
