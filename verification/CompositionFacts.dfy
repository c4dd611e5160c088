/** What a composition's fields say about the two files, and how one edit or one
    re-diffing changes that. */
module CompositionFacts {
  import opened Text
  import opened Regions
  import opened RegionEdits
  import opened Review
  import opened Matcher
  import opened ReviewText
  import opened Recall

  datatype ComposeError =
    | DirectoryContents | IncompleteHistory | Malformed(error: ParseError) | WrongIdentity
    | SourceMismatch | OriginalMismatch
    | RegionTooLarge | Uncaptured | EditMismatch | TooManyLines

  // A region that changes something, and is only highlighted while visible.
  predicate Sound(r: Region)
  {
    Changes(r) && (r.highlighted ==> !r.hidden)
  }

  // Every line on the newer side of every region has been captured.
  ghost predicate Captured(regions: seq<Region>, current: map<int, Line>)
  {
    forall k, p :: 0 <= k < |regions| && regions[k].afterStart <= p < regions[k].AfterEnd() ==> p in current
  }

  // Every remembered line is the file's line at that position.
  ghost predicate Knows(lines: map<int, Line>, file: seq<Line>)
  {
    forall p :: p in lines ==> 0 <= p < |file| && file[p] == lines[p]
  }

  // The remembered lines from `at` on are `text`.
  ghost predicate ReadsAs(lines: map<int, Line>, at: int, text: seq<Line>)
  {
    forall p :: at <= p < at + |text| ==> p in lines && lines[p] == text[p - at]
  }

  lemma KnownText(lines: map<int, Line>, file: seq<Line>, at: int, text: seq<Line>)
    requires Knows(lines, file) && ReadsAs(lines, at, text) && (text == [] ==> 0 <= at <= |file|)
    ensures Reads(file, at, text)
  {
    if text != [] {
      assert at in lines && at + |text| - 1 in lines;
      forall i | 0 <= i < |text| ensures file[at..at + |text|][i] == text[i] {
        assert at + i in lines;
      }
    }
  }

  /** The composition's fields describe the change from `base` to `cur`. */
  ghost predicate Describe(regions: seq<Region>, original: map<int, Line>, current: map<int, Line>, base: seq<Line>, cur: seq<Line>)
  {
    && Carries(regions, base, cur)
    && (forall k :: 0 <= k < |regions| ==> Sound(regions[k]))
    && Captured(regions, current)
    && Knows(original, base)
    && Knows(current, cur)
    && Recalled(regions, original, current)
  }

  // What the scan for overlaps finds.
  ghost predicate Scanned(rs: seq<Region>, start: int, end: int, first: int, last: int)
  {
    if first < 0 then first == last == -1 && forall k :: 0 <= k < |rs| ==> !ReviewOverlaps(start, end, rs[k])
    else
      && first <= last < |rs| && ReviewOverlaps(start, end, rs[first]) && ReviewOverlaps(start, end, rs[last])
      && forall k :: 0 <= k < |rs| && !(first <= k <= last) ==> !ReviewOverlaps(start, end, rs[k])
  }

  lemma OverlappedCut(rs: seq<Region>, start: int, end: int, first: int, last: int, left: int, passed: nat, ok: bool)
    requires InOrder(rs) && start <= end && first >= 0
    requires Scanned(rs, start, end, first, last)
    requires left == if rs[first].afterStart < start then rs[first].afterStart else start
    requires Walked(rs, left, passed, ok)
    ensures Cuts(rs, start, end, first, last + 1)
    ensures left < rs[first].afterStart ==> ok && passed == first
  {
    OverlapsAreNeighbours(rs, start, end, first, last);
    OverlapsCut(rs, start, end, first, last + 1);
  }

  lemma FreeCut(rs: seq<Region>, start: int, end: int, passed: nat, ok: bool)
    requires InOrder(rs) && start <= end
    requires Scanned(rs, start, end, -1, -1)
    requires Walked(rs, start, passed, ok)
    ensures Cuts(rs, start, end, passed, passed)
    ensures !ok ==> rs[passed].afterStart == start && forall k :: 0 <= k < passed ==> rs[k].afterStart != start
  {
    forall k | 0 <= k < |rs| ensures k < passed ==> rs[k].afterStart != start || ok
    ensures passed <= k ==> end <= rs[k].afterStart {
      assert !ReviewOverlaps(start, end, rs[k]);
      if !ok { assert !ReviewOverlaps(start, end, rs[passed]); }
    }
  }

  // The edit's old side is where it says.
  predicate EditFits(edit: Edit, cur: seq<Line>)
  {
    Reads(cur, edit.start, edit.before)
  }

  // What is remembered after an edit: the lines before it, its own lines, and the lines behind it, moved.
  ghost predicate Remembered(was: map<int, Line>, now: map<int, Line>, edit: Edit)
  {
    && (forall p :: p in now ==> RememberedAt(was, edit, p) && now[p] == LineAfter(was, edit, p))
    && (forall p :: RememberedAt(was, edit, p) ==> p in now)
  }

  predicate RememberedAt(was: map<int, Line>, edit: Edit, p: int)
  {
    if p < edit.start then p in was
    else p < edit.start + |edit.after| || p - edit.Shift() in was
  }

  function LineAfter(was: map<int, Line>, edit: Edit, p: int): Line
    requires RememberedAt(was, edit, p)
  {
    if p < edit.start then was[p]
    else if p < edit.start + |edit.after| then edit.after[p - edit.start]
    else was[p - edit.Shift()]
  }

  // Position p holds a line from outside the edit whose old position is no longer in `rest`.
  ghost predicate MovedAt(was: map<int, Line>, rest: set<int>, edit: Edit, p: int)
  {
    && RememberedAt(was, edit, p)
    && !(edit.start <= p < edit.start + |edit.after|)
    && (if p < edit.start then p else p - edit.Shift()) !in rest
  }

  // The next key of a map iteration, in no particular order.
  method Pick<T(==)>(s: set<T>) returns (p: T)
    requires s != {}
    ensures p in s
  {
    p :| p in s;
  }

  ghost predicate AllIn(lines: map<int, Line>, lo: int, hi: int)
  {
    forall p :: lo <= p < hi ==> p in lines
  }

  /** The region list after an edit: what the edit does not overlap stays or moves; what it
      overlaps becomes at most one region, hidden only if the edit and all of it were, and
      highlighted if the edit or any of it was. */
  ghost predicate Rewritten(was: seq<Region>, now: seq<Region>, edit: Edit, hidden: bool, highlighted: bool, lo: nat, hi: nat, net: seq<Region>)
  {
    && Cuts(was, edit.start, edit.End(), lo, hi)
    && now == was[..lo] + net + Shift(was[hi..], edit.Shift())
    && |net| <= 1
    && (net != [] ==>
          && net[0].hidden == (hidden && forall k :: lo <= k < hi ==> was[k].hidden)
          && net[0].highlighted == (highlighted || exists k :: lo <= k < hi && was[k].highlighted))
  }

  ghost predicate Located(rs: seq<Region>, current: map<int, Line>, base: seq<Line>, cur: seq<Line>, edit: Edit, left: int, right: int, originalStart: int, lo: nat, hi: nat)
  {
    && Cuts(rs, edit.start, edit.End(), lo, hi)
    && left == Left(rs, edit.start, lo, hi) && right == Right(rs, edit.End(), lo, hi)
    && 0 <= left && right <= |cur|
    && originalStart == (if lo < |rs| then left + rs[lo].beforeStart - rs[lo].afterStart else left + |base| - |cur|)
    && EditFits(edit, cur)
    && AllIn(current, left, right)
  }

  lemma CutsSpan(rs: seq<Region>, start: int, end: int, lo: nat, hi: nat)
    requires Cuts(rs, start, end, lo, hi)
    ensures lo <= hi <= |rs|
  {
  }

  // An overlapped region reaches the edit, so only captured lines lie in the stretch.
  lemma StretchCaptured(rs: seq<Region>, current: map<int, Line>, edit: Edit, lo: nat, hi: nat)
    requires Cuts(rs, edit.start, edit.End(), lo, hi) && Captured(rs, current)
    ensures AllIn(current, edit.start, edit.End()) ==> AllIn(current, Left(rs, edit.start, lo, hi), Right(rs, edit.End(), lo, hi))
  {
    if lo < hi {
      assert ReviewOverlaps(edit.start, edit.End(), rs[lo]) && ReviewOverlaps(edit.start, edit.End(), rs[hi - 1]);
    }
  }

  // The stretch found by the scan lies within the edit and the regions it overlaps.
  lemma ScannedCaptured(rs: seq<Region>, current: map<int, Line>, edit: Edit, first: int, last: int, left: int, right: int)
    requires Scanned(rs, edit.start, edit.End(), first, last) && Captured(rs, current) && AllIn(current, edit.start, edit.End())
    requires left == if first >= 0 && rs[first].afterStart < edit.start then rs[first].afterStart else edit.start
    requires right == if first >= 0 && edit.End() < rs[last].AfterEnd() then rs[last].AfterEnd() else edit.End()
    ensures AllIn(current, left, right)
  {
  }

  lemma LocatedText(rs: seq<Region>, current: map<int, Line>, cur: seq<Line>, edit: Edit, left: int, right: int, lo: nat, hi: nat, text: seq<Line>)
    requires InOrder(rs) && Cuts(rs, edit.start, edit.End(), lo, hi) && 0 <= edit.start <= |cur|
    requires left == Left(rs, edit.start, lo, hi) && right == Right(rs, edit.End(), lo, hi)
    requires |text| == right - left && Knows(current, cur) && ReadsAs(current, left, text)
    ensures 0 <= left && right <= |cur| && text == cur[left..right] && AllIn(current, left, right)
    ensures text[edit.start - left..edit.End() - left] == cur[edit.start..edit.End()]
  {
    KnownText(current, cur, left, text);
    assert text == cur[left..right];
    SliceSlice(cur, left, right - left, edit.start - left, edit.End() - left);
  }

  lemma LocatedEnd(rs: seq<Region>, base: seq<Line>, cur: seq<Line>, start: int, end: int, first: int, last: int)
    requires Carries(rs, base, cur) && Scanned(rs, start, end, first, last)
    ensures first >= 0 ==> 0 <= rs[first].afterStart && rs[last].AfterEnd() <= |cur|
  {
    RunBounds(rs, base, cur, 0, 0, |base|, |cur|);
  }

  // The rebuilt list after looking at the first i regions.
  ghost function KeptUpTo(rs: seq<Region>, lo: nat, hi: nat, shift: int, i: nat): seq<Region>
    requires lo <= hi <= |rs| && i <= |rs|
  {
    if i <= lo then rs[..i] else if i <= hi then rs[..lo] else rs[..lo] + Shift(rs[hi..i], shift)
  }

  lemma KeptNone(rs: seq<Region>, lo: nat, hi: nat, shift: int)
    requires lo <= hi <= |rs|
    ensures KeptUpTo(rs, lo, hi, shift, 0) == []
  {
  }

  lemma KeptAll(rs: seq<Region>, lo: nat, hi: nat, shift: int)
    requires lo <= hi <= |rs|
    ensures KeptUpTo(rs, lo, hi, shift, |rs|) == rs[..lo] + Shift(rs[hi..], shift)
  {
    assert rs[hi..|rs|] == rs[hi..];
    if |rs| <= hi {
      assert rs[hi..] == [] && Shift(rs[hi..], shift) == [];
      assert rs[..|rs|] == rs[..lo] + [] || lo < |rs|;
    }
  }

  lemma KeptNext(rs: seq<Region>, start: int, end: int, shift: int, lo: nat, hi: nat, i: nat)
    requires start <= end && Cuts(rs, start, end, lo, hi) && i < |rs|
    ensures i < lo ==> rs[i].afterStart < end
    ensures hi <= i ==> end <= rs[i].afterStart
    ensures KeptUpTo(rs, lo, hi, shift, i + 1) == KeptUpTo(rs, lo, hi, shift, i) + if i < lo then [rs[i]] else if i < hi then [] else [rs[i].Shifted(shift)]
  {
    assert i < lo || hi <= i ==> !ReviewOverlaps(start, end, rs[i]);
    assert lo <= hi;
    hide Cuts, ReviewOverlaps;
    KeptSnoc(rs, lo, hi, shift, i);
  }

  // The same, as the kept regions are collected.
  function KeptOne(r: Region, i: int, first: int, last: int, end: int, shift: int): seq<Region>
  {
    if first >= 0 && first <= i <= last then [] else [if r.afterStart >= end then r.Shifted(shift) else r]
  }

  lemma KeptStep(rs: seq<Region>, first: int, last: int, start: int, end: int, shift: int, lo: nat, hi: nat, i: nat)
    requires start <= end && Cuts(rs, start, end, lo, hi) && i < |rs|
    requires if first >= 0 then lo == first && hi == last + 1 else lo == hi
    ensures lo <= hi <= |rs| && KeptUpTo(rs, lo, hi, shift, i + 1) == KeptUpTo(rs, lo, hi, shift, i) + KeptOne(rs[i], i, first, last, end, shift)
  {
    CutsSpan(rs, start, end, lo, hi);
    hide Cuts, KeptUpTo;
    KeptNext(rs, start, end, shift, lo, hi, i);
  }

  lemma ShiftNext(rs: seq<Region>, r: Region, shift: int)
    ensures Shift(rs + [r], shift) == Shift(rs, shift) + [r.Shifted(shift)]
    ensures Shift([], shift) == []
  {
    hide Shift;
  }

  lemma KeptSnoc(rs: seq<Region>, lo: nat, hi: nat, shift: int, i: nat)
    requires lo <= hi <= |rs| && i < |rs|
    ensures KeptUpTo(rs, lo, hi, shift, i + 1) == KeptUpTo(rs, lo, hi, shift, i) + if i < lo then [rs[i]] else if i < hi then [] else [rs[i].Shifted(shift)]
  {
    hide Shift;
    if hi <= i {
      var moved := rs[hi..i];
      assert rs[hi..i + 1] == moved + [rs[i]];
      ShiftNext(moved, rs[i], shift);
      assert i == hi ==> moved == [];
    }
  }

  lemma LocatedCuts(rs: seq<Region>, current: map<int, Line>, base: seq<Line>, cur: seq<Line>, edit: Edit, left: int, right: int, originalStart: int, lo: nat, hi: nat)
    requires Located(rs, current, base, cur, edit, left, right, originalStart, lo, hi)
    ensures 0 <= left <= edit.start <= edit.End() <= right <= |cur| && lo <= hi <= |rs|
    ensures lo > 0 ==> rs[lo - 1].AfterEnd() <= left
    ensures lo < |rs| ==> left <= rs[lo].afterStart
    ensures hi > 0 ==> rs[hi - 1].AfterEnd() <= right
    ensures hi < |rs| ==> right <= rs[hi].afterStart
    ensures originalStart == if lo < |rs| then left + rs[lo].beforeStart - rs[lo].afterStart else left + |base| - |cur|
    ensures EditFits(edit, cur) && AllIn(current, left, right)
  {
  }

  // Before and after an edit, the pieces a composition is made of.
  ghost predicate Stretch(rs: seq<Region>, base: seq<Line>, cur: seq<Line>, edit: Edit, left: int, right: int, lo: nat, hi: nat, m: int, m2: int)
  {
    && lo <= hi <= |rs| && 0 <= m <= m2 <= |base|
    && 0 <= left <= edit.start <= edit.End() <= right <= |cur|
    && SplicedRuns(rs, base, Spliced(cur, edit.start, edit.End(), edit.after), lo, hi, m, left, m2, right, edit.Shift())
    && Spliced(cur, edit.start, edit.End(), edit.after)[left..right + edit.Shift()] == cur[left..edit.start] + edit.after + cur[edit.End()..right]
  }

  lemma LocatedStretch(rs: seq<Region>, current: map<int, Line>, base: seq<Line>, cur: seq<Line>, edit: Edit, left: int, right: int, originalStart: int, lo: nat, hi: nat)
    returns (m: int, m2: int)
    requires Carries(rs, base, cur) && Located(rs, current, base, cur, edit, left, right, originalStart, lo, hi)
    ensures originalStart == m && Stretch(rs, base, cur, edit, left, right, lo, hi, m, m2)
    ensures Run(rs[lo..hi], base, cur, m, left, m2, right)
    ensures Cuts(rs, edit.start, edit.End(), lo, hi) && left == Left(rs, edit.start, lo, hi) && right == Right(rs, edit.End(), lo, hi)
    ensures AllIn(current, left, right) && AllIn(current, edit.start, edit.End()) && EditFits(edit, cur)
  {
    LocatedCuts(rs, current, base, cur, edit, left, right, originalStart, lo, hi);
    hide Run, Carries, SplicedRuns;
    m, m2 := SpliceRun(rs, base, cur, edit, lo, hi, left, right);
  }

  // At most one net region, from the stretch's original text to its edited text; none if they agree.
  ghost predicate Net(net: seq<Region>, base: seq<Line>, cur: seq<Line>, edit: Edit, left: int, right: int, m: int, m2: int)
    requires 0 <= m <= m2 <= |base|
    requires 0 <= left <= edit.start <= edit.End() <= right <= |cur|
  {
    var after := cur[left..edit.start] + edit.after + cur[edit.End()..right];
    if net == [] then base[m..m2] == after
    else |net| == 1 && Sound(net[0]) && net[0].beforeStart == m && net[0].afterStart == left && net[0].before == base[m..m2] && net[0].after == after
  }

  lemma NetCarries(rs: seq<Region>, base: seq<Line>, cur: seq<Line>, edit: Edit, left: int, right: int, lo: nat, hi: nat, m: int, m2: int, net: seq<Region>)
    requires Stretch(rs, base, cur, edit, left, right, lo, hi, m, m2)
    requires Net(net, base, cur, edit, left, right, m, m2)
    ensures Carries(rs[..lo] + net + Shift(rs[hi..], edit.Shift()), base, Spliced(cur, edit.start, edit.End(), edit.after))
  {
    var next := Spliced(cur, edit.start, edit.End(), edit.after);
    hide Run, Carries, SplicedRuns;
    if net == [] {
      RestoreCarries(rs, base, next, lo, hi, m, left, m2, right, edit.Shift());
      assert rs[..lo] + net == rs[..lo];
    } else {
      SpliceCarries(rs, base, next, lo, hi, m, left, m2, right, edit.Shift(), net[0]);
      assert net == [net[0]];
    }
  }

  lemma SliceFlags(rs: seq<Region>, lo: nat, hi: nat)
    requires lo <= hi <= |rs|
    ensures var part := rs[lo..hi];
            && ((forall k :: 0 <= k < |rs| ==> Sound(rs[k])) ==> forall k :: 0 <= k < |part| ==> Sound(part[k]))
            && ((forall k :: 0 <= k < |part| ==> part[k].hidden) <==> forall k :: lo <= k < hi ==> rs[k].hidden)
            && ((exists k :: 0 <= k < |part| && part[k].highlighted) <==> exists k :: lo <= k < hi && rs[k].highlighted)
  {
    var part := rs[lo..hi];
    forall k | lo <= k < hi ensures part[k - lo] == rs[k] {}
  }

  lemma NetSorted(ps: seq<Region>, net: seq<Region>, qs: seq<Region>)
    requires InOrder(ps + net + qs) && |net| <= 1
    requires forall k :: 0 <= k < |ps + net + qs| ==> Sound((ps + net + qs)[k])
    ensures SortByStart(ps + qs + net) == ps + net + qs
  {
    SoundChanges(ps + net + qs);
    hide *;
    if net == [] {
      assert ps + net + qs == ps + qs && ps + qs + net == ps + qs;
      InOrderPrecedes(ps + qs);
      SortSorted(ps + qs);
    } else {
      assert net == [net[0]];
      SortPlaces(ps, net[0], qs);
    }
  }

  lemma SoundChanges(rs: seq<Region>)
    requires forall k :: 0 <= k < |rs| ==> Sound(rs[k])
    ensures forall k :: 0 <= k < |rs| ==> Changes(rs[k])
  {
  }

  lemma NetSound(rs: seq<Region>, net: seq<Region>, lo: nat, hi: nat, shift: int)
    requires lo <= hi <= |rs| && forall k :: 0 <= k < |rs| ==> Sound(rs[k])
    requires forall k :: 0 <= k < |net| ==> Sound(net[k])
    ensures var now := rs[..lo] + net + Shift(rs[hi..], shift); forall k :: 0 <= k < |now| ==> Sound(now[k])
  {
  }

  lemma KeptCaptured(rs: seq<Region>, current: map<int, Line>, updated: map<int, Line>, edit: Edit, left: int, lo: nat)
    requires Captured(rs, current) && Remembered(current, updated, edit) && lo <= |rs| && left <= edit.start
    requires forall k :: 0 <= k < lo ==> rs[k].AfterEnd() <= left
    ensures Captured(rs[..lo], updated)
  {
    hide Remembered;
    var kept := rs[..lo];
    forall k, p | 0 <= k < |kept| && kept[k].afterStart <= p < kept[k].AfterEnd() ensures p in updated {
      assert kept[k] == rs[k];
      LineCaptured(current, updated, edit, p);
    }
  }

  lemma MovedCaptured(rs: seq<Region>, current: map<int, Line>, updated: map<int, Line>, edit: Edit, right: int, hi: nat)
    requires Captured(rs, current) && Remembered(current, updated, edit) && hi <= |rs| && edit.End() <= right
    requires forall k :: hi <= k < |rs| ==> right <= rs[k].afterStart
    ensures Captured(Shift(rs[hi..], edit.Shift()), updated)
  {
    hide Remembered, Shift;
    var moved := Shift(rs[hi..], edit.Shift());
    forall k, p | 0 <= k < |moved| && moved[k].afterStart <= p < moved[k].AfterEnd() ensures p in updated {
      var r := rs[hi + k];
      assert r == rs[hi..][k] && moved[k] == r.Shifted(edit.Shift());
      LineCaptured(current, updated, edit, p);
    }
  }

  lemma OneCaptured(net: seq<Region>, current: map<int, Line>, updated: map<int, Line>, edit: Edit, left: int, right: int)
    requires Remembered(current, updated, edit) && AllIn(current, left, right) && left <= edit.start && edit.End() <= right
    requires |net| <= 1 && (net != [] ==> net[0].afterStart == left && net[0].AfterEnd() == right + edit.Shift())
    ensures Captured(net, updated)
  {
    hide Remembered;
    forall k, p | 0 <= k < |net| && net[k].afterStart <= p < net[k].AfterEnd() ensures p in updated {
      assert p < edit.start ==> p in current;
      assert edit.start + |edit.after| <= p ==> p - edit.Shift() in current;
      LineCaptured(current, updated, edit, p);
    }
  }

  lemma NetCaptured(rs: seq<Region>, net: seq<Region>, current: map<int, Line>, updated: map<int, Line>, edit: Edit, left: int, right: int, lo: nat, hi: nat)
    requires Captured(rs, current) && Remembered(current, updated, edit) && AllIn(current, left, right)
    requires lo <= hi <= |rs| && left <= edit.start <= edit.End() <= right
    requires forall k :: 0 <= k < lo ==> rs[k].AfterEnd() <= left
    requires forall k :: hi <= k < |rs| ==> right <= rs[k].afterStart
    requires |net| <= 1 && (net != [] ==> net[0].afterStart == left && net[0].AfterEnd() == right + edit.Shift())
    ensures Captured(rs[..lo] + net + Shift(rs[hi..], edit.Shift()), updated)
  {
    hide *;
    var moved := Shift(rs[hi..], edit.Shift());
    KeptCaptured(rs, current, updated, edit, left, lo);
    MovedCaptured(rs, current, updated, edit, right, hi);
    OneCaptured(net, current, updated, edit, left, right);
    CapturedJoin(rs[..lo], net, updated);
    CapturedJoin(rs[..lo] + net, moved, updated);
  }

  lemma LineCaptured(current: map<int, Line>, updated: map<int, Line>, edit: Edit, p: int)
    requires Remembered(current, updated, edit) && RememberedAt(current, edit, p)
    ensures p in updated
  {
  }

  lemma CapturedJoin(ps: seq<Region>, qs: seq<Region>, lines: map<int, Line>)
    requires Captured(ps, lines) && Captured(qs, lines)
    ensures Captured(ps + qs, lines)
  {
    var rs := ps + qs;
    forall k, p | 0 <= k < |rs| && rs[k].afterStart <= p < rs[k].AfterEnd() ensures p in lines {
      if k < |ps| {
        assert rs[k] == ps[k];
      } else {
        assert rs[k] == qs[k - |ps|];
      }
    }
  }

  lemma UpdatedKnows(current: map<int, Line>, updated: map<int, Line>, edit: Edit, cur: seq<Line>)
    requires Knows(current, cur) && Remembered(current, updated, edit) && 0 <= edit.start && edit.End() <= |cur|
    ensures Knows(updated, Spliced(cur, edit.start, edit.End(), edit.after))
  {
    var next := Spliced(cur, edit.start, edit.End(), edit.after);
    forall p | p in updated ensures 0 <= p < |next| && next[p] == updated[p] {
      assert RememberedAt(current, edit, p);
    }
  }

  lemma NetRecalled(rs: seq<Region>, original: map<int, Line>, current: map<int, Line>, updated: map<int, Line>, base: seq<Line>, cur: seq<Line>,
                    edit: Edit, left: int, right: int, lo: nat, hi: nat, m: int, m2: int, net: seq<Region>)
    requires Carries(rs, base, cur) && Recalled(rs, original, current)
    requires Stretch(rs, base, cur, edit, left, right, lo, hi, m, m2) && Net(net, base, cur, edit, left, right, m, m2)
    requires Remembered(current, updated, edit) && AllIn(current, left, right)
    requires Cuts(rs, edit.start, edit.End(), lo, hi) && left == Left(rs, edit.start, lo, hi) && right == Right(rs, edit.End(), lo, hi)
    ensures Recalled(rs[..lo] + net + Shift(rs[hi..], edit.Shift()), original, updated)
  {
    hide *;
    StretchAround(rs, base, cur, edit, left, right, lo, hi, m, m2);
    assert forall p :: left <= p < right ==> p in current by { InIs(current, left, right); }
    NetCovering(net, base, cur, edit, left, right, m, m2);
    RememberedMoved(current, updated, edit, left, right);
    RewrittenMoved(rs, net, lo, hi, edit.Shift());
    EditRecalled(rs, net, original, current, updated, lo, hi, m, left, m2, right, edit.Shift(), rs[..lo] + net + Shift(rs[hi..], edit.Shift()));
  }

  lemma InIs(lines: map<int, Line>, lo: int, hi: int)
    ensures AllIn(lines, lo, hi) <==> forall p :: lo <= p < hi ==> p in lines
  {
  }

  // Both cuts of the stretch, in line with the regions on either side.
  lemma StretchAround(rs: seq<Region>, base: seq<Line>, cur: seq<Line>, edit: Edit, left: int, right: int, lo: nat, hi: nat, m: int, m2: int)
    requires Carries(rs, base, cur) && Stretch(rs, base, cur, edit, left, right, lo, hi, m, m2)
    requires Cuts(rs, edit.start, edit.End(), lo, hi) && left == Left(rs, edit.start, lo, hi) && right == Right(rs, edit.End(), lo, hi)
    ensures Around(rs, lo, hi, m, left, m2, right) && lo <= hi <= |rs|
    ensures 0 <= m <= m2 <= |base| && 0 <= left <= edit.start <= edit.End() <= right <= |cur|
  {
    hide *;
    CarriesLined(rs, base, cur);
    StretchParts(rs, base, cur, edit, left, right, lo, hi, m, m2);
    CutsEnds(rs, edit.start, edit.End(), lo, hi);
    FrontDrift(rs, base, Spliced(cur, edit.start, edit.End(), edit.after), lo, m, left);
    BackDrift(rs, base, cur, Spliced(cur, edit.start, edit.End(), edit.after), hi, m2, right, edit.Shift());
    MakeAround(rs, lo, hi, m, left, m2, right);
  }

  lemma StretchParts(rs: seq<Region>, base: seq<Line>, cur: seq<Line>, edit: Edit, left: int, right: int, lo: nat, hi: nat, m: int, m2: int)
    requires Stretch(rs, base, cur, edit, left, right, lo, hi, m, m2)
    ensures lo <= hi <= |rs| && 0 <= m <= m2 <= |base| && 0 <= left <= edit.start <= edit.End() <= right <= |cur|
    ensures var next := Spliced(cur, edit.start, edit.End(), edit.after);
            && |next| == |cur| + edit.Shift()
            && Run(rs[..lo], base, next, 0, 0, m, left) && Run(Shift(rs[hi..], edit.Shift()), base, next, m2, right + edit.Shift(), |base|, |next|)
  {
    hide Run, Shift;
  }

  lemma CutsEnds(rs: seq<Region>, start: int, end: int, lo: nat, hi: nat)
    requires Cuts(rs, start, end, lo, hi) && start <= end
    ensures lo <= hi <= |rs|
    ensures lo < |rs| ==> Left(rs, start, lo, hi) <= rs[lo].afterStart
    ensures hi > 0 ==> rs[hi - 1].AfterEnd() <= Right(rs, end, lo, hi)
  {
    if 0 < lo == hi {
      assert rs[lo - 1].AfterEnd() <= Left(rs, start, lo, hi);
    }
  }

  lemma NetCovering(net: seq<Region>, base: seq<Line>, cur: seq<Line>, edit: Edit, left: int, right: int, m: int, m2: int)
    requires 0 <= m <= m2 <= |base| && 0 <= left <= edit.start <= edit.End() <= right <= |cur| && Net(net, base, cur, edit, left, right, m, m2)
    ensures Covering(net, m, left, m2, right, edit.Shift())
  {
    var after := cur[left..edit.start] + edit.after + cur[edit.End()..right];
    assert |after| == right - left + edit.Shift();
    if net == [] {
      assert |base[m..m2]| == |after|;
    }
  }

  lemma RememberedMoved(current: map<int, Line>, updated: map<int, Line>, edit: Edit, left: int, right: int)
    requires Remembered(current, updated, edit) && left <= edit.start <= edit.End() <= right
    ensures MovedBehind(current, updated, left, right, edit.Shift())
  {
    assert forall p :: p in updated ==> RememberedAt(current, edit, p);
    hide Remembered;
  }

  /** The edit's effect on the whole composition: the sorted list and the updated lines
      describe the edited file. */
  lemma EditDescribed(rs: seq<Region>, original: map<int, Line>, current: map<int, Line>, updated: map<int, Line>, base: seq<Line>, cur: seq<Line>,
                      edit: Edit, left: int, right: int, lo: nat, hi: nat, m: int, m2: int, net: seq<Region>)
    requires Describe(rs, original, current, base, cur)
    requires Stretch(rs, base, cur, edit, left, right, lo, hi, m, m2) && Net(net, base, cur, edit, left, right, m, m2)
    requires Remembered(current, updated, edit) && AllIn(current, left, right)
    requires Cuts(rs, edit.start, edit.End(), lo, hi) && left == Left(rs, edit.start, lo, hi) && right == Right(rs, edit.End(), lo, hi)
    ensures var now := rs[..lo] + net + Shift(rs[hi..], edit.Shift());
            && SortByStart(rs[..lo] + Shift(rs[hi..], edit.Shift()) + net) == now
            && Describe(now, original, updated, base, Spliced(cur, edit.start, edit.End(), edit.after))
  {
    hide Run, Carries, SplicedRuns, SortByStart, InOrder, Sound, Captured, Remembered, AllIn, Knows, Recalled;
    NetRecalled(rs, original, current, updated, base, cur, edit, left, right, lo, hi, m, m2, net);
    var now := rs[..lo] + net + Shift(rs[hi..], edit.Shift());
    NetCarries(rs, base, cur, edit, left, right, lo, hi, m, m2, net);
    NetSound(rs, net, lo, hi, edit.Shift());
    NetCaptured(rs, net, current, updated, edit, left, right, lo, hi);
    UpdatedKnows(current, updated, edit, cur);
    CarriesInOrder(now, base, Spliced(cur, edit.start, edit.End(), edit.after));
    NetSorted(rs[..lo], net, Shift(rs[hi..], edit.Shift()));
  }

  // Regions first..last as one stretch: its old text is `a`, its new text, all captured, is `b`.
  ghost predicate Grouped(rs: seq<Region>, current: map<int, Line>, base: seq<Line>, cur: seq<Line>, first: nat, last: nat, a: seq<Line>, b: seq<Line>)
  {
    && first < last <= |rs|
    && Reads(base, rs[first].beforeStart, a) && Reads(cur, rs[first].afterStart, b)
    && AllIn(current, rs[first].afterStart, rs[first].afterStart + |b|)
    && Run(rs[last..], base, cur, rs[first].beforeStart + |a|, rs[first].afterStart + |b|, |base|, |cur|)
    && (forall k :: first <= k < last ==> rs[k].AfterEnd() <= rs[first].afterStart + |b| && rs[k].BeforeEnd() <= rs[first].beforeStart + |a|)
  }

  // The i-th lines from old position o and new position n on are both remembered.
  predicate KnownAt(original: map<int, Line>, current: map<int, Line>, o: int, n: int, i: int)
  {
    o + i in original && n + i in current
  }

  // Every line between region k and the one before it is remembered, on both sides.
  ghost predicate Connected(rs: seq<Region>, original: map<int, Line>, current: map<int, Line>, k: nat)
    requires 0 < k < |rs|
  {
    Filled(original, current, rs[k - 1].BeforeEnd(), rs[k - 1].AfterEnd(), rs[k].beforeStart - rs[k - 1].BeforeEnd())
  }

  ghost predicate Filled(original: map<int, Line>, current: map<int, Line>, o: int, n: int, gap: int)
  {
    forall i :: 0 <= i < gap ==> KnownAt(original, current, o, n, i)
  }

  ghost predicate AllConnected(rs: seq<Region>, original: map<int, Line>, current: map<int, Line>)
  {
    forall k :: 0 < k < |rs| ==> Connected(rs, original, current, k)
  }

  // A group as gathered so far: it ends where its last region ends, and no gap inside it is unknown.
  ghost predicate Gathered(rs: seq<Region>, original: map<int, Line>, current: map<int, Line>, base: seq<Line>, cur: seq<Line>,
                           first: nat, last: nat, a: seq<Line>, b: seq<Line>)
  {
    && Grouped(rs, current, base, cur, first, last, a, b)
    && rs[first].beforeStart + |a| == rs[last - 1].BeforeEnd() && rs[first].afterStart + |b| == rs[last - 1].AfterEnd()
    && forall k :: first < k < last ==> Connected(rs, original, current, k)
  }

  lemma GatheredOne(rs: seq<Region>, original: map<int, Line>, current: map<int, Line>, base: seq<Line>, cur: seq<Line>, first: nat)
    requires Describe(rs, original, current, base, cur) && first < |rs|
    ensures Gathered(rs, original, current, base, cur, first, first + 1, rs[first].before, rs[first].after)
  {
    GroupOne(rs, current, base, cur, first);
  }

  // The gap behind a group is common text.
  lemma GapText(rs: seq<Region>, original: map<int, Line>, current: map<int, Line>, base: seq<Line>, cur: seq<Line>,
                first: nat, last: nat, a: seq<Line>, b: seq<Line>)
    requires last < |rs| && Gathered(rs, original, current, base, cur, first, last, a, b)
    ensures first < last
    ensures var x, y := rs[first].beforeStart + |a|, rs[first].afterStart + |b|;
            var gap := rs[last].beforeStart - x;
            && 0 <= x <= x + gap <= |base| && 0 <= y <= y + gap <= |cur|
            && rs[last].afterStart == y + gap && base[x..x + gap] == cur[y..y + gap]
  {
    var x, y := rs[first].beforeStart + |a|, rs[first].afterStart + |b|;
    assert rs[last..][0] == rs[last];
    assert |base[x..rs[last].beforeStart]| == |cur[y..rs[last].afterStart]|;
  }

  lemma KnownGap(original: map<int, Line>, current: map<int, Line>, base: seq<Line>, cur: seq<Line>, x: int, y: int, gap: int, i: int)
    requires Knows(original, base) && Knows(current, cur) && 0 <= i < gap
    requires 0 <= x <= x + gap <= |base| && 0 <= y <= y + gap <= |cur| && base[x..x + gap] == cur[y..y + gap]
    ensures KnownAt(original, current, x, y, i) ==> original[x + i] == current[y + i]
  {
    assert base[x..x + gap][i] == cur[y..y + gap][i];
  }

  lemma GatheredStop(rs: seq<Region>, original: map<int, Line>, current: map<int, Line>, base: seq<Line>, cur: seq<Line>,
                     first: nat, last: nat, a: seq<Line>, b: seq<Line>, i: int)
    requires last < |rs| && Gathered(rs, original, current, base, cur, first, last, a, b) && Describe(rs, original, current, base, cur)
    requires var x, y := rs[first].beforeStart + |a|, rs[first].afterStart + |b|;
             && 0 <= i < rs[last].beforeStart - x
             && (KnownAt(original, current, x, y, i) ==> original[x + i] != current[y + i])
    ensures first < last && !Connected(rs, original, current, last)
  {
    hide Grouped, Carries, Captured, Sound;
    GapText(rs, original, current, base, cur, first, last, a, b);
    var x, y := rs[first].beforeStart + |a|, rs[first].afterStart + |b|;
    KnownGap(original, current, base, cur, x, y, rs[last].beforeStart - x, i);
  }

  lemma GatheredNext(rs: seq<Region>, original: map<int, Line>, current: map<int, Line>, base: seq<Line>, cur: seq<Line>,
                     first: nat, last: nat, a: seq<Line>, b: seq<Line>, context: seq<Line>)
    requires last < |rs| && Gathered(rs, original, current, base, cur, first, last, a, b) && Describe(rs, original, current, base, cur)
    requires ReadsAs(original, rs[first].beforeStart + |a|, context) && ReadsAs(current, rs[first].afterStart + |b|, context)
    requires |context| == rs[last].beforeStart - (rs[first].beforeStart + |a|)
    ensures Gathered(rs, original, current, base, cur, first, last + 1, a + context + rs[last].before, b + context + rs[last].after)
  {
    hide *;
    GapText(rs, original, current, base, cur, first, last, a, b);
    GatheredAre(rs, original, current, base, cur, first, last, a, b);
    DescribeKnows(rs, original, current, base, cur);
    ContextKnown(original, current, rs[last - 1].BeforeEnd(), rs[last - 1].AfterEnd(), context);
    GroupNext(rs, original, current, base, cur, first, last, a, b, context);
    RegionEnds(rs[last]);
    MakeGathered(rs, original, current, base, cur, first, last + 1, a + context + rs[last].before, b + context + rs[last].after);
  }

  lemma GatheredAre(rs: seq<Region>, original: map<int, Line>, current: map<int, Line>, base: seq<Line>, cur: seq<Line>, first: nat, last: nat, a: seq<Line>, b: seq<Line>)
    requires Gathered(rs, original, current, base, cur, first, last, a, b)
    ensures first < last <= |rs| && Grouped(rs, current, base, cur, first, last, a, b)
    ensures rs[first].beforeStart + |a| == rs[last - 1].BeforeEnd() && rs[first].afterStart + |b| == rs[last - 1].AfterEnd()
    ensures forall k :: first < k < last ==> Connected(rs, original, current, k)
    ensures last < |rs| ==> (Connected(rs, original, current, last) <==>
                               Filled(original, current, rs[last - 1].BeforeEnd(), rs[last - 1].AfterEnd(), rs[last].beforeStart - rs[last - 1].BeforeEnd()))
  {
    hide Filled, Run, Reads, AllIn;
  }

  lemma DescribeKnows(rs: seq<Region>, original: map<int, Line>, current: map<int, Line>, base: seq<Line>, cur: seq<Line>)
    requires Describe(rs, original, current, base, cur)
    ensures Captured(rs, current) && Knows(original, base) && Knows(current, cur)
  {
    hide Carries, Sound, Captured, Knows, Recalled;
  }

  lemma MakeGathered(rs: seq<Region>, original: map<int, Line>, current: map<int, Line>, base: seq<Line>, cur: seq<Line>, first: nat, last: nat, a: seq<Line>, b: seq<Line>)
    requires first < last <= |rs| && Grouped(rs, current, base, cur, first, last, a, b)
    requires rs[first].beforeStart + |a| == rs[last - 1].BeforeEnd() && rs[first].afterStart + |b| == rs[last - 1].AfterEnd()
    requires forall k :: first < k < last ==> Connected(rs, original, current, k)
    ensures Gathered(rs, original, current, base, cur, first, last, a, b)
  {
    hide Connected, Grouped;
  }

  lemma ContextKnown(original: map<int, Line>, current: map<int, Line>, o: int, n: int, context: seq<Line>)
    requires ReadsAs(original, o, context) && ReadsAs(current, n, context)
    ensures Filled(original, current, o, n, |context|)
  {
  }

  // A group of everything, between two equal files, has equal sides.
  lemma WholeGroup(rs: seq<Region>, current: map<int, Line>, base: seq<Line>, a: seq<Line>, b: seq<Line>)
    requires rs != [] && Carries(rs, base, base) && Grouped(rs, current, base, base, 0, |rs|, a, b)
    ensures a == b
  {
    assert |base[0..rs[0].beforeStart]| == |base[0..rs[0].afterStart]|;
    assert rs[|rs|..] == [];
    var x := rs[0].beforeStart;
    assert |base[x + |a|..|base|]| == |base[x + |b|..|base|]|;
  }

  /** Re-diffing leaves nothing: the two files are equal, every gap is remembered, and the
      matcher finds no change between the regions' text and itself. */
  ghost predicate Cancels(differ: Differ, rs: seq<Region>, original: map<int, Line>, current: map<int, Line>, base: seq<Line>, cur: seq<Line>)
  {
    && base == cur && AllConnected(rs, original, current)
    && (rs != [] ==> FindsSelf(differ, Slice(base, rs[0].beforeStart, rs[|rs| - 1].BeforeEnd())))
  }

  lemma GroupText(rs: seq<Region>, current: map<int, Line>, base: seq<Line>, cur: seq<Line>, first: nat, last: nat, a: seq<Line>, b: seq<Line>)
    requires Grouped(rs, current, base, cur, first, last, a, b) && rs[first].beforeStart + |a| == rs[last - 1].BeforeEnd()
    ensures a == Slice(base, rs[first].beforeStart, rs[last - 1].BeforeEnd())
  {
    hide Run, AllIn;
  }

  lemma CancelGroup(differ: Differ, rs: seq<Region>, original: map<int, Line>, current: map<int, Line>, base: seq<Line>, cur: seq<Line>,
                    last: nat, a: seq<Line>, b: seq<Line>)
    requires Matches(differ) && Describe(rs, original, current, base, cur) && Cancels(differ, rs, original, current, base, cur)
    requires 0 < last <= |rs| && Gathered(rs, original, current, base, cur, 0, last, a, b)
    requires last < |rs| ==> !Connected(rs, original, current, last)
    ensures last == |rs| && AllEqual(differ(a, b))
  {
    hide Carries, Grouped, Matches, Connected, Sound, Captured, Knows;
    WholeGroup(rs, current, base, a, b);
    assert a == Slice(base, rs[0].beforeStart, rs[last - 1].BeforeEnd()) by { GroupText(rs, current, base, cur, 0, last, a, b); }
  }

  lemma GroupOne(rs: seq<Region>, current: map<int, Line>, base: seq<Line>, cur: seq<Line>, first: nat)
    requires Carries(rs, base, cur) && Captured(rs, current) && first < |rs|
    ensures Grouped(rs, current, base, cur, first, first + 1, rs[first].before, rs[first].after)
  {
    hide *;
    var r, rest := rs[first], rs[first + 1..];
    CarriesRun(rs, base, cur);
    RunCut(rs, base, cur, 0, 0, |base|, |cur|, first);
    assert rs[first..] == [r] + rest;
    HeadReads(r, rest, base, cur, r.beforeStart, r.afterStart, |base|, |cur|);
    OneGrouped(rs, current, base, cur, first);
  }

  lemma OneGrouped(rs: seq<Region>, current: map<int, Line>, base: seq<Line>, cur: seq<Line>, first: nat)
    requires Captured(rs, current) && first < |rs| && Reads(base, rs[first].beforeStart, rs[first].before) && Reads(cur, rs[first].afterStart, rs[first].after)
    requires Run(rs[first + 1..], base, cur, rs[first].BeforeEnd(), rs[first].AfterEnd(), |base|, |cur|)
    ensures Grouped(rs, current, base, cur, first, first + 1, rs[first].before, rs[first].after)
  {
    hide Run, Reads;
  }

  lemma GroupNext(rs: seq<Region>, original: map<int, Line>, current: map<int, Line>, base: seq<Line>, cur: seq<Line>,
                  first: nat, last: nat, a: seq<Line>, b: seq<Line>, context: seq<Line>)
    requires first < last < |rs| && Grouped(rs, current, base, cur, first, last, a, b) && Captured(rs, current)
    requires Knows(original, base) && Knows(current, cur)
    requires ReadsAs(original, rs[first].beforeStart + |a|, context) && ReadsAs(current, rs[first].afterStart + |b|, context)
    requires rs[last].beforeStart == rs[first].beforeStart + |a + context|
    requires rs[last].afterStart == rs[first].afterStart + |b + context|
    ensures Grouped(rs, current, base, cur, first, last + 1, a + context + rs[last].before, b + context + rs[last].after)
  {
    hide *;
    var r, x, y := rs[last], rs[first].beforeStart, rs[first].afterStart;
    GroupRest(rs, current, base, cur, first, last, a, b, context);
    KnownText(original, base, x + |a|, context);
    KnownText(current, cur, y + |b|, context);
    GroupKnown(rs, current, first, last, b, context);
    JoinReads(base, x, a, context);
    JoinReads(base, x, a + context, r.before);
    JoinReads(cur, y, b, context);
    JoinReads(cur, y, b + context, r.after);
    GroupParts(rs, current, base, cur, first, last, a, b, a + context + r.before, b + context + r.after);
  }

  lemma GroupRest(rs: seq<Region>, current: map<int, Line>, base: seq<Line>, cur: seq<Line>, first: nat, last: nat, a: seq<Line>, b: seq<Line>, context: seq<Line>)
    requires last < |rs| && Grouped(rs, current, base, cur, first, last, a, b)
    requires rs[last].beforeStart == rs[first].beforeStart + |a + context|
    requires rs[last].afterStart == rs[first].afterStart + |b + context|
    ensures var x, y, r := rs[first].beforeStart, rs[first].afterStart, rs[last];
            && first < last && r.BeforeEnd() == x + |a + context + r.before| && r.AfterEnd() == y + |b + context + r.after|
            && 0 <= x + |a| <= |base| && 0 <= y + |b| <= |cur|
            && Reads(base, x, a) && Reads(base, x + |a + context|, r.before) && Reads(cur, y, b) && Reads(cur, y + |b + context|, r.after)
            && AllIn(current, y, y + |b|)
            && Run(rs[last + 1..], base, cur, r.BeforeEnd(), r.AfterEnd(), |base|, |cur|)
  {
    hide *;
    assert rs[last..] == [rs[last]] + rs[last + 1..];
    GroupedParts(rs, current, base, cur, first, last, a, b);
    HeadReads(rs[last], rs[last + 1..], base, cur, rs[first].beforeStart + |a|, rs[first].afterStart + |b|, |base|, |cur|);
    RegionEnds(rs[last]);
  }

  lemma GroupedParts(rs: seq<Region>, current: map<int, Line>, base: seq<Line>, cur: seq<Line>, first: nat, last: nat, a: seq<Line>, b: seq<Line>)
    requires Grouped(rs, current, base, cur, first, last, a, b)
    ensures first < last <= |rs| && Reads(base, rs[first].beforeStart, a) && Reads(cur, rs[first].afterStart, b)
    ensures AllIn(current, rs[first].afterStart, rs[first].afterStart + |b|)
    ensures Run(rs[last..], base, cur, rs[first].beforeStart + |a|, rs[first].afterStart + |b|, |base|, |cur|)
  {
    hide Run, Reads, AllIn;
  }

  lemma HeadReads(r: Region, rest: seq<Region>, base: seq<Line>, cur: seq<Line>, i: int, j: int, i2: int, j2: int)
    requires Run([r] + rest, base, cur, i, j, i2, j2)
    ensures 0 <= i <= |base| && 0 <= j <= |cur| && Reads(base, r.beforeStart, r.before) && Reads(cur, r.afterStart, r.after)
    ensures Run(rest, base, cur, r.BeforeEnd(), r.AfterEnd(), i2, j2)
  {
    RunHead(r, rest, base, cur, i, j, i2, j2);
  }

  lemma GroupParts(rs: seq<Region>, current: map<int, Line>, base: seq<Line>, cur: seq<Line>, first: nat, last: nat,
                   a: seq<Line>, b: seq<Line>, a': seq<Line>, b': seq<Line>)
    requires last < |rs| && Grouped(rs, current, base, cur, first, last, a, b) && |a| <= |a'| && |b| <= |b'|
    requires Reads(base, rs[first].beforeStart, a') && Reads(cur, rs[first].afterStart, b')
    requires AllIn(current, rs[first].afterStart, rs[first].afterStart + |b'|)
    requires rs[last].BeforeEnd() == rs[first].beforeStart + |a'| && rs[last].AfterEnd() == rs[first].afterStart + |b'|
    requires Run(rs[last + 1..], base, cur, rs[last].BeforeEnd(), rs[last].AfterEnd(), |base|, |cur|)
    ensures Grouped(rs, current, base, cur, first, last + 1, a', b')
  {
    hide Run, Reads, AllIn;
  }

  lemma GroupKnown(rs: seq<Region>, current: map<int, Line>, first: nat, last: nat, b: seq<Line>, context: seq<Line>)
    requires first < last < |rs| && Captured(rs, current)
    requires AllIn(current, rs[first].afterStart, rs[first].afterStart + |b|)
    requires ReadsAs(current, rs[first].afterStart + |b|, context)
    requires rs[last].afterStart == rs[first].afterStart + |b + context|
    ensures AllIn(current, rs[first].afterStart, rs[first].afterStart + |b + context + rs[last].after|)
  {
  }

  lemma JoinReads(s: seq<Line>, at: int, p: seq<Line>, q: seq<Line>)
    requires Reads(s, at, p) && Reads(s, at + |p|, q)
    ensures Reads(s, at, p + q)
  {
    assert s[at..at + |p| + |q|] == s[at..at + |p|] + s[at + |p|..at + |p| + |q|];
  }

  // ----- Re-diffing a group

  // Both regions change text, and they share a line of the newer or of the older file.
  predicate Touches(r: Region, prior: Region)
  {
    || (|r.after| > 0 && |prior.after| > 0 && ReviewOverlaps(r.afterStart, r.AfterEnd(), prior))
    || (|r.before| > 0 && |prior.before| > 0 && ReviewOverlaps(r.beforeStart, r.BeforeEnd(), Region(0, prior.beforeStart, [], prior.before, false, false)))
  }

  /** A re-diffed region is visible exactly when it touches a visible prior region, and
      highlighted exactly when it touches a visible, highlighted one. */
  ghost predicate Shown(r: Region, priors: seq<Region>)
  {
    && (r.hidden <==> forall k :: 0 <= k < |priors| && Touches(r, priors[k]) ==> priors[k].hidden)
    && (r.highlighted <==> exists k :: 0 <= k < |priors| && Touches(r, priors[k]) && !priors[k].hidden && priors[k].highlighted)
  }

  lemma ShownNext(r: Region, priors: seq<Region>, i: nat)
    requires i < |priors| && Shown(r, priors[..i])
    ensures var p := priors[i];
            var r' := if !p.hidden && Touches(r, p) then r.(hidden := false, highlighted := r.highlighted || p.highlighted) else r;
            Shown(r', priors[..i + 1])
  {
    var p, init := priors[i], priors[..i];
    var r' := if !p.hidden && Touches(r, p) then r.(hidden := false, highlighted := r.highlighted || p.highlighted) else r;
    assert priors[..i + 1] == init + [p];
    forall k | 0 <= k < i ensures Touches(r', priors[..i + 1][k]) == Touches(r, init[k]) && priors[..i + 1][k] == init[k] {}
    assert Touches(r', p) == Touches(r, p);
    if r.highlighted {
      var k :| 0 <= k < i && Touches(r, init[k]) && !init[k].hidden && init[k].highlighted;
      assert priors[..i + 1][k] == init[k];
    }
    if !r.hidden {
      var k :| 0 <= k < i && Touches(r, init[k]) && !init[k].hidden;
      assert priors[..i + 1][k] == init[k];
    }
    assert priors[..i + 1][i] == p;
  }

  lemma ShownSound(r: Region, priors: seq<Region>)
    requires Shown(r, priors) && r.before != r.after
    ensures Sound(r)
  {
  }

  // The regions emitted so far carry the files up to the group's positions `i` and `j`.
  ghost predicate Emitted(rs: seq<Region>, current: map<int, Line>, base: seq<Line>, cur: seq<Line>, initial: Region, a: seq<Line>, b: seq<Line>, i: int, j: int)
  {
    && Reads(base, initial.beforeStart, a) && Reads(cur, initial.afterStart, b)
    && AllIn(current, initial.afterStart, initial.afterStart + |b|)
    && Run(rs, base, cur, 0, 0, initial.beforeStart + i, initial.afterStart + j)
    && (forall k :: 0 <= k < |rs| ==> Sound(rs[k]))
    && Captured(rs, current)
  }

  // The boundaries of the regions: start and end of each, in both files, one after the other.
  function Corner(priors: seq<Region>, n: nat): (int, int)
    requires n < 2 * |priors|
  {
    var r := priors[n / 2];
    if n % 2 == 0 then (r.beforeStart, r.afterStart) else (r.BeforeEnd(), r.AfterEnd())
  }

  // The boundary does not fall inside the region, on both sides at once.
  predicate Uncut(r: Region, c: (int, int))
  {
    r.beforeStart <= c.0 <= r.BeforeEnd() && r.afterStart <= c.1 <= r.AfterEnd() ==>
      c == (r.beforeStart, r.afterStart) || c == (r.BeforeEnd(), r.AfterEnd())
  }

  /** No boundary of a prior region falls inside the region. */
  ghost predicate KeepsBoundaries(r: Region, priors: seq<Region>)
  {
    forall n :: 0 <= n < 2 * |priors| ==> Uncut(r, Corner(priors, n))
  }

  lemma CornersOrdered(priors: seq<Region>, m: nat, n: nat)
    requires InOrder(priors) && m <= n < 2 * |priors|
    ensures Corner(priors, m).0 <= Corner(priors, n).0 && Corner(priors, m).1 <= Corner(priors, n).1
  {
    if m / 2 < n / 2 {
      assert priors[m / 2].BeforeEnd() <= priors[n / 2].beforeStart && priors[m / 2].AfterEnd() <= priors[n / 2].afterStart;
    }
  }

  // From (i, j) to the opcode's end, the boundary is met at (i, j) or not at all.
  predicate Behind(initial: Region, op: OpCode, i: int, j: int, c: (int, int))
  {
    var x, y := c.0 - initial.beforeStart, c.1 - initial.afterStart;
    i <= x <= op.i2 && j <= y <= op.j2 ==> x == i && y == j
  }

  ghost predicate Passed(priors: seq<Region>, initial: Region, op: OpCode, n: nat, i: int, j: int)
  {
    n <= 2 * |priors| && forall m :: 0 <= m < n ==> Behind(initial, op, i, j, Corner(priors, m))
  }

  // Whether a part of the opcode ends at (i2, j2).
  predicate Advances(op: OpCode, i: int, j: int, i2: int, j2: int)
  {
    i <= i2 <= op.i2 && j <= j2 <= op.j2 && (i < i2 || j < j2)
  }

  lemma PassedNext(priors: seq<Region>, initial: Region, op: OpCode, n: nat, i: int, j: int, i2: int, j2: int)
    requires n < 2 * |priors| && Passed(priors, initial, op, n, i, j)
    requires var c := Corner(priors, n); i2 == c.0 - initial.beforeStart && j2 == c.1 - initial.afterStart
    ensures Advances(op, i, j, i2, j2) ==> Passed(priors, initial, op, n + 1, i2, j2)
    ensures !Advances(op, i, j, i2, j2) ==> Passed(priors, initial, op, n + 1, i, j)
  {
    hide Corner;
  }

  lemma PieceUncut(priors: seq<Region>, initial: Region, op: OpCode, n: nat, i: int, j: int, i2: int, j2: int, r: Region)
    requires InOrder(priors) && Passed(priors, initial, op, n, i, j) && Advances(op, i, j, i2, j2)
    requires n < 2 * |priors| ==> Corner(priors, n) == (initial.beforeStart + i2, initial.afterStart + j2)
    requires r.beforeStart == initial.beforeStart + i && r.BeforeEnd() == initial.beforeStart + i2
    requires r.afterStart == initial.afterStart + j && r.AfterEnd() == initial.afterStart + j2
    ensures KeepsBoundaries(r, priors)
  {
    hide InOrder, Corner;
    forall m | 0 <= m < 2 * |priors| ensures Uncut(r, Corner(priors, m)) {
      if m < n {
        assert Behind(initial, op, i, j, Corner(priors, m));
      } else {
        CornersOrdered(priors, n, m);
      }
    }
  }

  // A part of a re-diffed group, as it may be emitted.
  ghost predicate Piece(r: Region, priors: seq<Region>, initial: Region, a: seq<Line>, b: seq<Line>)
  {
    Shown(r, priors) && KeepsBoundaries(r, priors) && Inside(r, initial, a, b)
  }

  // The region lies within the group's text.
  predicate Inside(r: Region, initial: Region, a: seq<Line>, b: seq<Line>)
  {
    && initial.beforeStart <= r.beforeStart && r.BeforeEnd() <= initial.beforeStart + |a|
    && initial.afterStart <= r.afterStart && r.AfterEnd() <= initial.afterStart + |b|
  }

  lemma EmitStep(rs: seq<Region>, current: map<int, Line>, base: seq<Line>, cur: seq<Line>, initial: Region, a: seq<Line>, b: seq<Line>,
                 i: int, j: int, i2: int, j2: int, r: Region)
    requires Emitted(rs, current, base, cur, initial, a, b, i, j)
    requires 0 <= i <= i2 <= |a| && 0 <= j <= j2 <= |b|
    requires r.beforeStart == initial.beforeStart + i && r.before == a[i..i2]
    requires r.afterStart == initial.afterStart + j && r.after == b[j..j2]
    ensures r.before == r.after ==> Emitted(rs, current, base, cur, initial, a, b, i2, j2)
    ensures Run(rs + [r], base, cur, 0, 0, initial.beforeStart + i2, initial.afterStart + j2)
  {
    hide Run, Sound, Captured, AllIn;
    var x, y := initial.beforeStart, initial.afterStart;
    SliceSlice(base, x, |a|, i, i2);
    SliceSlice(cur, y, |b|, j, j2);
    EmitRun(rs, base, cur, x + i, y + j, r);
  }

  lemma EmitRun(rs: seq<Region>, base: seq<Line>, cur: seq<Line>, x: int, y: int, r: Region)
    requires Run(rs, base, cur, 0, 0, x, y) && x == r.beforeStart && y == r.afterStart
    requires 0 <= x && r.BeforeEnd() <= |base| && base[x..r.BeforeEnd()] == r.before
    requires 0 <= y && r.AfterEnd() <= |cur| && cur[y..r.AfterEnd()] == r.after
    ensures Run(rs + [r], base, cur, 0, 0, r.BeforeEnd(), r.AfterEnd())
    ensures r.before == r.after ==> Run(rs, base, cur, 0, 0, r.BeforeEnd(), r.AfterEnd())
  {
    hide Run;
    RunSnoc(rs, r, base, cur, 0, 0);
    if r.before == r.after {
      RunExtend(rs, base, cur, 0, 0, x, y, |r.before|);
    }
  }

  lemma EmitFlags(rs: seq<Region>, current: map<int, Line>, base: seq<Line>, cur: seq<Line>, initial: Region, a: seq<Line>, b: seq<Line>,
                  i2: int, j2: int, r: Region)
    requires Reads(base, initial.beforeStart, a) && Reads(cur, initial.afterStart, b)
    requires AllIn(current, initial.afterStart, initial.afterStart + |b|)
    requires Run(rs + [r.(hidden := true, highlighted := false)], base, cur, 0, 0, initial.beforeStart + i2, initial.afterStart + j2)
    requires (forall k :: 0 <= k < |rs| ==> Sound(rs[k])) && Captured(rs, current) && Sound(r) && Inside(r, initial, a, b)
    ensures Emitted(rs + [r], current, base, cur, initial, a, b, i2, j2)
  {
    RunFlags(rs + [r.(hidden := true, highlighted := false)], rs + [r], base, cur, 0, 0, initial.beforeStart + i2, initial.afterStart + j2);
  }

  ghost predicate AllShown(rs: seq<Region>, priors: seq<Region>, initial: Region, a: seq<Line>, b: seq<Line>)
  {
    forall k :: 0 <= k < |rs| ==> Piece(rs[k], priors, initial, a, b)
  }

  lemma NoneShown(before: seq<Region>, priors: seq<Region>, initial: Region, a: seq<Line>, b: seq<Line>)
    ensures AllShown(before[|before|..], priors, initial, a, b)
  {
  }

  lemma PieceInside(r: Region, initial: Region, a: seq<Line>, b: seq<Line>, i: int, j: int, i2: int, j2: int)
    requires 0 <= i && i2 <= |a| && 0 <= j && j2 <= |b|
    requires r.beforeStart == initial.beforeStart + i && r.BeforeEnd() == initial.beforeStart + i2
    requires r.afterStart == initial.afterStart + j && r.AfterEnd() == initial.afterStart + j2
    ensures Inside(r, initial, a, b)
  {
  }

  lemma GroupInOrder(rs: seq<Region>, base: seq<Line>, cur: seq<Line>, first: nat, last: nat)
    requires Carries(rs, base, cur) && first < last <= |rs|
    ensures InOrder(rs[first..last])
  {
    CarriesInOrder(rs, base, cur);
  }

  lemma EmitEqual(rs: seq<Region>, current: map<int, Line>, base: seq<Line>, cur: seq<Line>, initial: Region, a: seq<Line>, b: seq<Line>, op: OpCode)
    requires OpFits(op, a, b) && op.tag == Equal
    requires Emitted(rs, current, base, cur, initial, a, b, op.i1, op.j1)
    ensures Emitted(rs, current, base, cur, initial, a, b, op.i2, op.j2)
  {
    EmitStep(rs, current, base, cur, initial, a, b, op.i1, op.j1, op.i2, op.j2,
      Region(initial.beforeStart + op.i1, initial.afterStart + op.j1, a[op.i1..op.i2], b[op.j1..op.j2], false, false));
  }

  // Moving on to the next opcode of a tiling.
  lemma TilesNext(ops: seq<OpCode>, a: seq<Line>, b: seq<Line>, n: nat, i: int, j: int)
    requires n < |ops| && Tiles(ops[n..], a, b, i, j, |a|, |b|)
    ensures OpFits(ops[n], a, b) && ops[n].i1 == i && ops[n].j1 == j
    ensures Tiles(ops[n + 1..], a, b, ops[n].i2, ops[n].j2, |a|, |b|)
  {
    assert ops[n..][1..] == ops[n + 1..];
  }

  lemma ShownJoin(before: seq<Region>, was: seq<Region>, now: seq<Region>, priors: seq<Region>, initial: Region, a: seq<Line>, b: seq<Line>)
    requires before <= was <= now
    requires AllShown(was[|before|..], priors, initial, a, b) && AllShown(now[|was|..], priors, initial, a, b)
    ensures AllShown(now[|before|..], priors, initial, a, b)
  {
    hide Piece;
    forall k | 0 <= k < |now[|before|..]| ensures Piece(now[|before|..][k], priors, initial, a, b) {
      if |before| + k < |was| {
        assert now[|before|..][k] == was[|before|..][k];
      } else {
        assert now[|before|..][k] == now[|was|..][|before| + k - |was|];
      }
    }
  }

  lemma GatheredGroup(rs: seq<Region>, original: map<int, Line>, current: map<int, Line>, base: seq<Line>, cur: seq<Line>,
                      first: nat, last: nat, a: seq<Line>, b: seq<Line>)
    requires Describe(rs, original, current, base, cur) && Gathered(rs, original, current, base, cur, first, last, a, b)
    ensures first < last <= |rs| && Carries(rs, base, cur) && Grouped(rs, current, base, cur, first, last, a, b)
  {
    hide Carries, Connected;
  }

  lemma TilesWhole(differ: Differ, a: seq<Line>, b: seq<Line>)
    requires Matches(differ)
    ensures Tiles(differ(a, b), a, b, 0, 0, |a|, |b|)
  {
  }

  // The groups before region `first` re-diffed, up to positions p and q.
  ghost predicate Renormalized(normalized: seq<Region>, rs: seq<Region>, original: map<int, Line>, current: map<int, Line>, base: seq<Line>, cur: seq<Line>, first: nat, p: int, q: int)
  {
    && first <= |rs|
    && Run(normalized, base, cur, 0, 0, p, q) && Run(rs[first..], base, cur, p, q, |base|, |cur|)
    && (forall k :: 0 <= k < |normalized| ==> Sound(normalized[k]) && Shown(normalized[k], rs) && KeepsBoundaries(normalized[k], rs))
    && Captured(normalized, current)
    && RecalledTo(normalized, rs, original, current, first, p)
  }

  // What has to be remembered up to the end of the last group is.
  ghost predicate RecalledTo(normalized: seq<Region>, rs: seq<Region>, original: map<int, Line>, current: map<int, Line>, first: nat, p: int)
  {
    && first <= |rs| && (first > 0 ==> rs[first - 1].BeforeEnd() <= p)
    && BeforeRecalled(normalized, original) && GapsRecalled(normalized, original, current, p)
  }

  lemma NormalizedStart(rs: seq<Region>, original: map<int, Line>, current: map<int, Line>, base: seq<Line>, cur: seq<Line>)
    requires Describe(rs, original, current, base, cur)
    ensures Renormalized([], rs, original, current, base, cur, 0, 0, 0)
  {
    assert rs[0..] == rs;
  }

  lemma GroupDone(rs: seq<Region>, original: map<int, Line>, current: map<int, Line>, base: seq<Line>, cur: seq<Line>, first: nat, last: nat, a: seq<Line>, b: seq<Line>,
                  was: seq<Region>, normalized: seq<Region>, p: int, q: int)
    requires Describe(rs, original, current, base, cur) && Gathered(rs, original, current, base, cur, first, last, a, b) && was <= normalized
    requires Renormalized(was, rs, original, current, base, cur, first, p, q)
    requires AllShown(normalized[|was|..], rs[first..last], rs[first], a, b)
    requires Emitted(normalized, current, base, cur, rs[first], a, b, |a|, |b|)
    ensures Renormalized(normalized, rs, original, current, base, cur, last, rs[first].beforeStart + |a|, rs[first].afterStart + |b|)
  {
    GroupRemembered(rs, original, current, base, cur, first, last, a, b, was, normalized, p, q);
    CarriesInOrder(rs, base, cur);
    hide Run, Carries, Shown, KeepsBoundaries, Sound, InOrder, AllShown, Captured, Reads, AllIn, Connected, RecalledTo;
    GroupShown(rs, current, base, cur, first, last, a, b, normalized, |was|);
  }

  lemma GroupRemembered(rs: seq<Region>, original: map<int, Line>, current: map<int, Line>, base: seq<Line>, cur: seq<Line>, first: nat, last: nat,
                        a: seq<Line>, b: seq<Line>, was: seq<Region>, normalized: seq<Region>, p: int, q: int)
    requires Describe(rs, original, current, base, cur) && Gathered(rs, original, current, base, cur, first, last, a, b) && was <= normalized
    requires Renormalized(was, rs, original, current, base, cur, first, p, q)
    requires AllShown(normalized[|was|..], rs[first..last], rs[first], a, b)
    ensures RecalledTo(normalized, rs, original, current, last, rs[first].beforeStart + |a|)
  {
    hide *;
    DescribeParts(rs, original, current, base, cur);
    GatheredEnds(rs, original, current, base, cur, first, last, a, b);
    RenormalizedParts(was, rs, original, current, base, cur, first, p, q);
    CarriesLined(rs, base, cur);
    GroupFilled(rs, original, current, base, cur, first, last, a, b);
    GroupRecalled(rs, original, current, first, last);
    var gs := normalized[|was|..];
    PiecesInside(gs, rs[first..last], rs[first], a, b);
    assert was == normalized[..|was|] && was + gs == normalized;
    assert was[..|was|] == was;
    FrontDrift(was, base, cur, |was|, p, q);
    RunBounds(was, base, cur, 0, 0, p, q);
    GroupDrift(rs, base, cur, first, p, q);
    RediffStep(rs, original, current, was, gs, first, p, rs[last - 1].BeforeEnd());
    MakeRecalledTo(normalized, rs, original, current, last, rs[last - 1].BeforeEnd());
  }

  lemma DescribeParts(rs: seq<Region>, original: map<int, Line>, current: map<int, Line>, base: seq<Line>, cur: seq<Line>)
    requires Describe(rs, original, current, base, cur)
    ensures Carries(rs, base, cur) && Recalled(rs, original, current)
  {
    hide Carries, Sound, Captured, Knows, Recalled;
  }

  lemma GatheredEnds(rs: seq<Region>, original: map<int, Line>, current: map<int, Line>, base: seq<Line>, cur: seq<Line>, first: nat, last: nat, a: seq<Line>, b: seq<Line>)
    requires Gathered(rs, original, current, base, cur, first, last, a, b)
    ensures first < last <= |rs| && rs[first].beforeStart + |a| == rs[last - 1].BeforeEnd()
  {
    hide Connected, Run;
  }

  lemma RenormalizedParts(was: seq<Region>, rs: seq<Region>, original: map<int, Line>, current: map<int, Line>, base: seq<Line>, cur: seq<Line>, first: nat, p: int, q: int)
    requires Renormalized(was, rs, original, current, base, cur, first, p, q)
    ensures first <= |rs| && Run(was, base, cur, 0, 0, p, q) && Run(rs[first..], base, cur, p, q, |base|, |cur|)
    ensures (first > 0 ==> rs[first - 1].BeforeEnd() <= p) && BeforeRecalled(was, original) && GapsRecalled(was, original, current, p)
  {
    hide Run, Sound, Shown, KeepsBoundaries, Captured, BeforeRecalled, GapsRecalled;
  }

  // No gap inside a group is unknown.
  lemma GroupFilled(rs: seq<Region>, original: map<int, Line>, current: map<int, Line>, base: seq<Line>, cur: seq<Line>, first: nat, last: nat, a: seq<Line>, b: seq<Line>)
    requires Gathered(rs, original, current, base, cur, first, last, a, b)
    ensures first < last <= |rs|
    ensures forall k, q :: first < k < last && rs[k - 1].BeforeEnd() <= q < rs[k].beforeStart ==> q in original
  {
    hide Run;
    forall k, q | first < k < last && rs[k - 1].BeforeEnd() <= q < rs[k].beforeStart ensures q in original {
      assert Connected(rs, original, current, k);
      assert KnownAt(original, current, rs[k - 1].BeforeEnd(), rs[k - 1].AfterEnd(), q - rs[k - 1].BeforeEnd());
    }
  }

  lemma PiecesInside(gs: seq<Region>, priors: seq<Region>, initial: Region, a: seq<Line>, b: seq<Line>)
    requires AllShown(gs, priors, initial, a, b)
    ensures forall k :: 0 <= k < |gs| ==> initial.beforeStart <= gs[k].beforeStart && gs[k].BeforeEnd() <= initial.beforeStart + |a|
  {
    hide Shown, KeepsBoundaries;
    forall k | 0 <= k < |gs| ensures initial.beforeStart <= gs[k].beforeStart && gs[k].BeforeEnd() <= initial.beforeStart + |a| {
      assert Piece(gs[k], priors, initial, a, b);
    }
  }

  // The files are as far apart in front of a group as behind what was re-diffed.
  lemma GroupDrift(rs: seq<Region>, base: seq<Line>, cur: seq<Line>, first: nat, p: int, q: int)
    requires Lined(rs) && Drift(rs, |rs|) == |cur| - |base| && first <= |rs| && Run(rs[first..], base, cur, p, q, |base|, |cur|)
    ensures q - p == Drift(rs, first) && (first < |rs| ==> p <= rs[first].beforeStart)
  {
    if first < |rs| {
      assert rs[first..][0] == rs[first] && LinedAt(rs, first);
      assert |base[p..rs[first].beforeStart]| == |cur[q..rs[first].afterStart]|;
    } else {
      assert rs[first..] == [] && |base[p..|base|]| == |cur[q..|cur|]|;
    }
  }

  lemma MakeRecalledTo(normalized: seq<Region>, rs: seq<Region>, original: map<int, Line>, current: map<int, Line>, first: nat, p: int)
    requires first <= |rs| && (first > 0 ==> rs[first - 1].BeforeEnd() <= p)
    requires BeforeRecalled(normalized, original) && GapsRecalled(normalized, original, current, p)
    ensures RecalledTo(normalized, rs, original, current, first, p)
  {
    hide BeforeRecalled, GapsRecalled;
  }

  // Text common to both files lies between the regions emitted so far and the next group.
  lemma GroupEmitted(normalized: seq<Region>, rs: seq<Region>, original: map<int, Line>, current: map<int, Line>, base: seq<Line>, cur: seq<Line>,
                     first: nat, last: nat, a: seq<Line>, b: seq<Line>, p: int, q: int)
    requires first < |rs| && Grouped(rs, current, base, cur, first, last, a, b)
    requires Renormalized(normalized, rs, original, current, base, cur, first, p, q)
    ensures Emitted(normalized, current, base, cur, rs[first], a, b, 0, 0)
  {
    RunCut(rs[first..], base, cur, p, q, |base|, |cur|, 0);
    assert rs[first..][0] == rs[first];
    assert base[p..rs[first].beforeStart] == cur[q..rs[first].afterStart];
    assert |base[p..rs[first].beforeStart]| == |cur[q..rs[first].afterStart]|;
    RunExtend(normalized, base, cur, 0, 0, p, q, rs[first].beforeStart - p);
  }

  // A region inside a group touches no prior region outside of it, and meets none of their boundaries.
  lemma GroupShown(rs: seq<Region>, current: map<int, Line>, base: seq<Line>, cur: seq<Line>, first: nat, last: nat, a: seq<Line>, b: seq<Line>,
                   normalized: seq<Region>, n: nat)
    requires InOrder(rs) && Grouped(rs, current, base, cur, first, last, a, b) && n <= |normalized|
    requires AllShown(normalized[n..], rs[first..last], rs[first], a, b)
    ensures forall k :: n <= k < |normalized| ==> Shown(normalized[k], rs) && KeepsBoundaries(normalized[k], rs)
  {
    RunBounds(rs[last..], base, cur, rs[first].beforeStart + |a|, rs[first].afterStart + |b|, |base|, |cur|);
    hide Shown, KeepsBoundaries, Inside, InOrder, Run;
    forall k | n <= k < |normalized| ensures Shown(normalized[k], rs) && KeepsBoundaries(normalized[k], rs) {
      var r := normalized[k];
      assert normalized[n..][k - n] == r;
      ShownWider(r, rs, first, last, a, b);
      KeepsWider(r, rs, first, last, a, b);
    }
  }

  lemma KeepsWider(r: Region, rs: seq<Region>, first: nat, last: nat, a: seq<Line>, b: seq<Line>)
    requires InOrder(rs) && first < last <= |rs| && KeepsBoundaries(r, rs[first..last]) && Inside(r, rs[first], a, b)
    requires forall k :: 0 <= k < |rs[last..]| ==> rs[first].beforeStart + |a| <= rs[last..][k].beforeStart && rs[first].afterStart + |b| <= rs[last..][k].afterStart
    ensures KeepsBoundaries(r, rs)
  {
    forall n | 0 <= n < 2 * |rs| ensures Uncut(r, Corner(rs, n)) {
      if n / 2 < first {
        assert rs[n / 2].BeforeEnd() <= rs[first].beforeStart && rs[n / 2].AfterEnd() <= rs[first].afterStart;
      } else if n / 2 < last {
        assert Corner(rs, n) == Corner(rs[first..last], n - 2 * first);
      } else {
        assert rs[last..][n / 2 - last] == rs[n / 2];
      }
    }
  }

  lemma ShownWider(r: Region, rs: seq<Region>, first: nat, last: nat, a: seq<Line>, b: seq<Line>)
    requires InOrder(rs) && first < last <= |rs| && Shown(r, rs[first..last]) && Inside(r, rs[first], a, b)
    requires forall k :: 0 <= k < |rs[last..]| ==> rs[first].beforeStart + |a| <= rs[last..][k].beforeStart && rs[first].afterStart + |b| <= rs[last..][k].afterStart
    ensures Shown(r, rs)
  {
    var part := rs[first..last];
    forall k | 0 <= k < |rs| && !(first <= k < last) ensures !Touches(r, rs[k]) {
      if last <= k { assert rs[last..][k - last] == rs[k]; }
    }
    forall k | first <= k < last ensures part[k - first] == rs[k] {}
    if r.highlighted {
      var k :| 0 <= k < |part| && Touches(r, part[k]) && !part[k].hidden && part[k].highlighted;
      assert rs[first + k] == part[k];
    }
    if !r.hidden {
      var k :| 0 <= k < |part| && Touches(r, part[k]) && !part[k].hidden;
      assert rs[first + k] == part[k];
    }
  }

  lemma NormalizedRecalled(normalized: seq<Region>, rs: seq<Region>, original: map<int, Line>, current: map<int, Line>, base: seq<Line>, cur: seq<Line>, p: int, q: int)
    requires Describe(rs, original, current, base, cur) && Renormalized(normalized, rs, original, current, base, cur, |rs|, p, q)
    ensures Recalled(normalized, original, current)
  {
    hide *;
    DescribeParts(rs, original, current, base, cur);
    RenormalizedParts(normalized, rs, original, current, base, cur, |rs|, p, q);
    CarriesLined(rs, base, cur);
    assert normalized[..|normalized|] == normalized;
    FrontDrift(normalized, base, cur, |normalized|, p, q);
    RunBounds(normalized, base, cur, 0, 0, p, q);
    GroupDrift(rs, base, cur, |rs|, p, q);
    RediffEnd(rs, original, current, normalized, p);
  }

  lemma NormalizedDescribe(normalized: seq<Region>, rs: seq<Region>, original: map<int, Line>, current: map<int, Line>, base: seq<Line>, cur: seq<Line>, p: int, q: int)
    requires Describe(rs, original, current, base, cur) && Renormalized(normalized, rs, original, current, base, cur, |rs|, p, q)
    ensures Describe(normalized, original, current, base, cur)
    ensures forall k :: 0 <= k < |normalized| ==> Shown(normalized[k], rs) && KeepsBoundaries(normalized[k], rs)
  {
    NormalizedRecalled(normalized, rs, original, current, base, cur, p, q);
    hide Shown, KeepsBoundaries, Recalled, RecalledTo;
    assert rs[|rs|..] == [];
    RunConcat(normalized, [], base, cur, 0, 0, p, q, |base|, |cur|);
    assert normalized + [] == normalized;
  }

  lemma RevertStep(original: seq<Line>, r: Region, base: seq<Line>, cur: seq<Line>, m: int, left: int, m2: int, p: int, q: int)
    requires 0 <= m <= r.beforeStart && r.BeforeEnd() <= p <= m2 <= |base| && base[r.beforeStart..r.BeforeEnd()] == r.before
    requires 0 <= left <= r.afterStart && r.AfterEnd() <= q <= |cur| && cur[r.afterStart..r.AfterEnd()] == r.after
    requires base[r.BeforeEnd()..p] == cur[r.AfterEnd()..q]
    requires original == cur[left..q] + base[p..m2]
    ensures var offset := r.afterStart - left;
            && 0 <= offset <= offset + |r.after| <= |original|
            && original[..offset] + r.before + original[offset + |r.after|..] == cur[left..r.afterStart] + base[r.beforeStart..m2]
  {
    var offset := r.afterStart - left;
    assert original[..offset] == cur[left..r.afterStart];
    assert original[offset + |r.after|..] == cur[r.AfterEnd()..q] + base[p..m2];
    assert base[r.beforeStart..m2] == base[r.beforeStart..r.BeforeEnd()] + base[r.BeforeEnd()..p] + base[p..m2];
  }

  // The regions from the i-th on are taken out of the text; what is left is still to do.
  ghost predicate Reverting(original: seq<Line>, rs: seq<Region>, i: int, base: seq<Line>, cur: seq<Line>, m: int, left: int, m2: int, p: int, q: int)
  {
    && 0 <= i <= |rs| && Run(rs[..i], base, cur, m, left, p, q) && 0 <= m <= p <= m2 <= |base| && 0 <= left <= q <= |cur|
    && original == cur[left..q] + base[p..m2]
  }

  lemma RevertStart(rs: seq<Region>, base: seq<Line>, cur: seq<Line>, m: int, left: int, m2: int, right: int)
    requires Run(rs, base, cur, m, left, m2, right)
    ensures 0 <= left <= right <= |cur| && Reverting(cur[left..right], rs, |rs|, base, cur, m, left, m2, m2, right)
  {
    RunRange(rs, base, cur, m, left, m2, right);
    hide Run;
    assert rs[..|rs|] == rs && cur[left..right] + base[m2..m2] == cur[left..right];
  }

  lemma RevertNext(original: seq<Line>, rs: seq<Region>, i: int, base: seq<Line>, cur: seq<Line>, m: int, left: int, m2: int, p: int, q: int)
    requires Reverting(original, rs, i, base, cur, m, left, m2, p, q) && i > 0
    ensures i <= |rs|
    ensures var r := rs[i - 1]; var offset := r.afterStart - left;
            && 0 <= offset && offset + |r.after| <= |original|
            && Reverting(original[..offset] + r.before + original[offset + |r.after|..], rs, i - 1, base, cur, m, left, m2, r.beforeStart, r.afterStart)
  {
    hide Run;
    var r, part := rs[i - 1], rs[..i];
    assert part[|part| - 1] == r && part[..|part| - 1] == rs[..i - 1];
    RunLast(part, base, cur, m, left, p, q);
    RunRange(rs[..i - 1], base, cur, m, left, r.beforeStart, r.afterStart);
    RunRange([], base, cur, r.BeforeEnd(), r.AfterEnd(), p, q);
    RevertStep(original, r, base, cur, m, left, m2, p, q);
  }

  lemma RevertDone(original: seq<Line>, rs: seq<Region>, base: seq<Line>, cur: seq<Line>, m: int, left: int, m2: int, p: int, q: int)
    requires Reverting(original, rs, 0, base, cur, m, left, m2, p, q)
    ensures 0 <= m <= m2 <= |base| && original == base[m..m2]
  {
    hide Run;
    assert rs[..0] == [];
    RunRange([], base, cur, m, left, p, q);
    assert base[m..m2] == base[m..p] + base[p..m2];
  }
}
