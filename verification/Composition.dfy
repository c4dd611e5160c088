/** One file's ordered captures, composed into the net regions between the file as first
    seen and the file as last seen.  The object never holds either file; `Describes` says
    which pairs of files it can be describing. */
module Composition {
  import opened Text
  import opened Regions
  import opened RegionEdits
  import opened Review
  import opened Matcher
  import opened Recall
  import opened CompositionFacts
  import opened Learning
  import opened Capacity
  import opened ReviewText
  import opened ReviewRender
  import opened DisplayFacts
  import opened Rediff
  import opened Composing

  class ReviewComposition {
    var started: bool
    var beforePath: string
    var afterPath: string
    var pathHidden: bool
    var pathHighlighted: bool
    var regions: seq<Region>
    var original: map<int, Line>
    var current: map<int, Line>

    ghost predicate Describes(base: seq<Line>, cur: seq<Line>)
      reads this
    {
      Describe(regions, original, current, base, cur)
    }

    function Snap(): Snapshot
      reads this
    {
      Snapshot(regions, original, current)
    }

    // Nothing has been captured before the first capture.
    predicate Valid()
      reads this
    {
      !started ==> regions == [] && original == map[] && current == map[]
    }

    // The zero value: it describes every file, unchanged.
    constructor ()
      ensures Valid() && !started && !pathHidden && !pathHighlighted
      ensures forall file: seq<Line> :: Describes(file, file)
    {
      started, pathHidden, pathHighlighted := false, false, false;
      beforePath, afterPath := "", "";
      regions, original, current := [], map[], map[];
    }

    constructor Copy(c: ReviewComposition)
      ensures started == c.started && beforePath == c.beforePath && afterPath == c.afterPath
      ensures pathHidden == c.pathHidden && pathHighlighted == c.pathHighlighted
      ensures regions == c.regions && original == c.original && current == c.current
    {
      started, beforePath, afterPath := c.started, c.beforePath, c.afterPath;
      pathHidden, pathHighlighted := c.pathHidden, c.pathHighlighted;
      regions, original, current := c.regions, c.original, c.current;
    }

    // Where the line at a newer position stood originally, if no region covers it.
    method OriginalPosition(position: int) returns (o: int, ok: bool, ghost passed: nat)
      ensures OriginOf(regions, position) == (o, ok)
      ensures Walked(regions, position, passed, ok)
      ensures ok ==> o == position - Growth(regions[..passed])
    {
      hide OriginFrom, Growth;
      NoDrift(regions);
      var shift, i := 0, 0;
      passed := 0;
      while i < |regions|
        invariant 0 <= i == passed <= |regions|
        invariant forall k :: 0 <= k < i ==> regions[k].AfterEnd() <= position
        invariant shift == Growth(regions[..i]) && OriginFrom(regions, position, i) == OriginOf(regions, position)
      {
        OriginNext(regions, position, i);
        if position < regions[i].afterStart {
          break;
        }
        if position < regions[i].AfterEnd() {
          return 0, false, i;
        }
        GrowthNext(regions, i);
        shift := shift + |regions[i].after| - |regions[i].before|;
        i := i + 1;
        passed := i;
      }
      OriginNext(regions, position, i);
      return position - shift, true, i;
    }

    // The regions an edit of [start, end) overlaps, as the first and last of them, or -1.
    method Overlapped(start: int, end: int) returns (first: int, last: int)
      ensures Scanned(regions, start, end, first, last)
    {
      first, last := -1, -1;
      var i := 0;
      while i < |regions|
        invariant 0 <= i <= |regions|
        invariant first < 0 ==> first == last == -1 && forall k :: 0 <= k < i ==> !ReviewOverlaps(start, end, regions[k])
        invariant first >= 0 ==> 0 <= first <= last < i && ReviewOverlaps(start, end, regions[first]) && ReviewOverlaps(start, end, regions[last])
        invariant first >= 0 ==> forall k :: 0 <= k < i && !(first <= k <= last) ==> !ReviewOverlaps(start, end, regions[k])
      {
        if ReviewOverlaps(start, end, regions[i]) {
          if first < 0 {
            first := i;
          }
          last := i;
        }
        i := i + 1;
      }
    }

    /** Where the rewritten stretch starts in the original.  There always is such a place: the
        stretch never starts inside a region. */
    method Boundary(start: int, end: int, first: int, last: int, left: int, ghost base: seq<Line>, ghost cur: seq<Line>)
      returns (originalStart: int, ok: bool, ghost lo: nat, ghost hi: nat)
      requires Carries(regions, base, cur) && 0 <= start <= end
      requires Scanned(regions, start, end, first, last)
      requires left == if first >= 0 && regions[first].afterStart < start then regions[first].afterStart else start
      ensures ok
      ensures first >= 0 ==> lo == first && hi == last + 1
      ensures first < 0 ==> lo == hi
      ensures Cuts(regions, start, end, lo, hi)
      ensures left <= |cur| ==> originalStart == if lo < |regions| then left + regions[lo].beforeStart - regions[lo].afterStart else left + |base| - |cur|
    {
      ghost var passed: nat;
      originalStart, ok, passed := OriginalPosition(left);
      lo, hi := if first >= 0 then first else passed, if first >= 0 then last + 1 else passed;
      CarriesInOrder(regions, base, cur);
      if first >= 0 {
        OverlappedCut(regions, start, end, first, last, left, passed, ok);
      } else {
        FreeCut(regions, start, end, passed, ok);
      }
      if ok && left <= |cur| {
        var _ := OriginalText(regions, base, cur, passed, left);
      }
      if first >= 0 && left == regions[first].afterStart {
        originalStart, ok := regions[first].beforeStart, true;
      }
      if !ok {
        var i := 0;
        while i < |regions|
          invariant 0 <= i <= passed && !ok
          decreases |regions| - i
        {
          if left == regions[i].afterStart {
            originalStart, ok := regions[i].beforeStart, true;
            break;
          }
          i := i + 1;
        }
      }
    }

    // The captured lines from left to right, unless one of them is unknown.
    method CapturedText(left: int, right: int) returns (text: Option<seq<Line>>)
      requires left <= right
      ensures text.None? ==> !AllIn(current, left, right)
      ensures text.Some? ==> |text.value| == right - left && ReadsAs(current, left, text.value)
    {
      var lines := [];
      while |lines| < right - left
        invariant |lines| <= right - left
        invariant ReadsAs(current, left, lines)
      {
        if left + |lines| !in current {
          return None;
        }
        lines := lines + [current[left + |lines|]];
      }
      return Some(lines);
    }

    // Takes the overlapped regions out of the captured text, last one first.
    static method Reverted(overlapped: seq<Region>, text: seq<Line>, left: int, ghost base: seq<Line>, ghost cur: seq<Line>, ghost m: int, ghost m2: int, ghost right: int)
      returns (original: seq<Line>)
      requires Run(overlapped, base, cur, m, left, m2, right) && text == cur[left..right]
      ensures original == base[m..m2]
    {
      hide *;
      RevertStart(overlapped, base, cur, m, left, m2, right);
      original := text;
      var i := |overlapped|;
      ghost var p, q := m2, right;
      while i > 0
        invariant 0 <= i <= |overlapped|
        invariant Reverting(original, overlapped, i, base, cur, m, left, m2, p, q)
      {
        RevertNext(original, overlapped, i, base, cur, m, left, m2, p, q);
        i := i - 1;
        var region := overlapped[i];
        var offset := region.afterStart - left;
        original := original[..offset] + region.before + original[offset + |region.after|..];
        p, q := region.beforeStart, region.afterStart;
      }
      RevertDone(original, overlapped, base, cur, m, left, m2, p, q);
    }

    // The remembered lines after an edit.
    static method Updated(current: map<int, Line>, edit: Edit) returns (updated: map<int, Line>)
      ensures Remembered(current, updated, edit)
    {
      updated := map[];
      var rest := current.Keys;
      while rest != {}
        invariant rest <= current.Keys
        invariant forall p :: p in updated ==> MovedAt(current, rest, edit, p) && updated[p] == LineAfter(current, edit, p)
        invariant forall p :: MovedAt(current, rest, edit, p) ==> p in updated
        decreases |rest|
      {
        var position := Pick(rest);
        rest := rest - {position};
        if position < edit.start {
          updated := updated[position := current[position]];
        } else if position >= edit.End() {
          updated := updated[position + edit.Shift() := current[position]];
        }
      }
      var i := 0;
      while i < |edit.after|
        invariant 0 <= i <= |edit.after|
        invariant forall p :: p in updated ==> (edit.start <= p < edit.start + i || MovedAt(current, {}, edit, p)) && updated[p] == LineAfter(current, edit, p)
        invariant forall p :: edit.start <= p < edit.start + i || MovedAt(current, {}, edit, p) ==> p in updated
      {
        updated := updated[edit.start + i := edit.after[i]];
        i := i + 1;
      }
    }

    // The regions an edit leaves alone, those behind it moved.
    static method Kept(regions: seq<Region>, first: int, last: int, start: int, end: int, shift: int, ghost lo: nat, ghost hi: nat) returns (kept: seq<Region>)
      requires start <= end && Cuts(regions, start, end, lo, hi)
      requires if first >= 0 then lo == first && hi == last + 1 else lo == hi
      ensures lo <= hi <= |regions| && kept == KeptUpTo(regions, lo, hi, shift, |regions|)
    {
      hide *;
      CutsSpan(regions, start, end, lo, hi);
      KeptNone(regions, lo, hi, shift);
      kept := [];
      var i := 0;
      while i < |regions|
        invariant 0 <= i <= |regions|
        invariant kept == KeptUpTo(regions, lo, hi, shift, i)
      {
        KeptStep(regions, first, last, start, end, shift, lo, hi, i);
        kept := KeptWith(kept, regions[i], i, first, last, end, shift);
        i := i + 1;
      }
    }

    // One region more, unless it is overlapped.
    static method KeptWith(was: seq<Region>, region: Region, i: int, first: int, last: int, end: int, shift: int) returns (kept: seq<Region>)
      ensures kept == was + KeptOne(region, i, first, last, end, shift)
    {
      if first >= 0 && first <= i <= last {
        return was;
      }
      var moved := region;
      if region.afterStart >= end {
        moved := region.Shifted(shift);
      }
      return was + [moved];
    }

    static method Visibility(overlapped: seq<Region>, hidden: bool, highlighted: bool) returns (visible: bool, lit: bool)
      ensures visible <==> !hidden || exists k :: 0 <= k < |overlapped| && !overlapped[k].hidden
      ensures lit <==> highlighted || exists k :: 0 <= k < |overlapped| && overlapped[k].highlighted
    {
      visible, lit := !hidden, highlighted;
      for i := 0 to |overlapped|
        invariant visible <==> !hidden || exists k :: 0 <= k < i && !overlapped[k].hidden
        invariant lit <==> highlighted || exists k :: 0 <= k < i && overlapped[k].highlighted
      {
        visible := visible || !overlapped[i].hidden;
        lit := lit || overlapped[i].highlighted;
      }
    }

    // The captured text of the stretch, which must hold what the edit replaces.
    method Matched(edit: Edit, left: int, right: int, ghost cur: seq<Line>, ghost lo: nat, ghost hi: nat)
      returns (err: Option<ComposeError>, captured: seq<Line>)
      requires InOrder(regions) && Captured(regions, current) && Knows(current, cur)
      requires 0 <= edit.start <= |cur| && Cuts(regions, edit.start, edit.End(), lo, hi)
      requires left == Left(regions, edit.start, lo, hi) && right == Right(regions, edit.End(), lo, hi)
      ensures err.None? ==> 0 <= left && right <= |cur| && captured == cur[left..right] && AllIn(current, left, right) && EditFits(edit, cur)
      ensures EditFits(edit, cur) && AllIn(current, edit.start, edit.End()) ==> err.None?
    {
      StretchCaptured(regions, current, edit, lo, hi);
      hide InOrder, Captured, Cuts, Knows, ReadsAs;
      var text := CapturedText(left, right);
      if text.None? {
        return Some(Uncaptured), [];
      }
      captured := text.value;
      LocatedText(regions, current, cur, edit, left, right, lo, hi, captured);
      err := if captured[edit.start - left..edit.End() - left] != edit.before then Some(EditMismatch) else None;
    }

    /** Finds the stretch an edit rewrites: the edit itself and the regions it overlaps. */
    method Locate(edit: Edit, ghost base: seq<Line>, ghost cur: seq<Line>)
      returns (err: Option<ComposeError>, first: int, last: int, left: int, right: int, originalStart: int, captured: seq<Line>, ghost lo: nat, ghost hi: nat)
      requires Describes(base, cur) && 0 <= edit.start <= |cur|
      ensures err.None? ==> Located(regions, current, base, cur, edit, left, right, originalStart, lo, hi) && captured == cur[left..right]
      ensures err.None? ==> if first >= 0 then lo == first && hi == last + 1 else lo == hi
      ensures EditFits(edit, cur) && AllIn(current, edit.start, edit.End()) && err.Some? ==> err.value == RegionTooLarge && |current| > MAX_ROWS
    {
      var start, end := edit.start, edit.End();
      first, last := Overlapped(start, end);
      left, right := start, end;
      if first >= 0 {
        left := if regions[first].afterStart < left then regions[first].afterStart else left;
        right := if right < regions[last].AfterEnd() then regions[last].AfterEnd() else right;
      }
      originalStart, captured, lo, hi := 0, [], 0, 0;
      hide *;
      LocateFacts(edit, base, cur, first, last, left, right);
      if right - left > MAX_ROWS {
        err := Some(RegionTooLarge);
        return;
      }
      var ok;
      originalStart, ok, lo, hi := Boundary(start, end, first, last, left, base, cur);
      CutsSpan(regions, start, end, lo, hi);
      ScannedEnds(edit, first, last, left, right, lo, hi);
      err, captured := Matched(edit, left, right, cur, lo, hi);
      if err.None? {
        MakeLocated(edit, base, cur, left, right, originalStart, lo, hi);
      }
    }

    lemma LocateFacts(edit: Edit, base: seq<Line>, cur: seq<Line>, first: int, last: int, left: int, right: int)
      requires Describes(base, cur) && 0 <= edit.start <= |cur| && Scanned(regions, edit.start, edit.End(), first, last)
      requires left == if first >= 0 && regions[first].afterStart < edit.start then regions[first].afterStart else edit.start
      requires right == if first >= 0 && edit.End() < regions[last].AfterEnd() then regions[last].AfterEnd() else edit.End()
      ensures Carries(regions, base, cur) && InOrder(regions) && Captured(regions, current) && Knows(current, cur) && edit.start <= edit.End()
      ensures first >= 0 ==> 0 <= regions[first].afterStart && regions[last].AfterEnd() <= |cur|
      ensures AllIn(current, edit.start, edit.End()) ==> right - left <= |current|
    {
      CarriesInOrder(regions, base, cur);
      LocatedEnd(regions, base, cur, edit.start, edit.End(), first, last);
      hide Carries, Recalled, Sound, Knows, InOrder;
      if AllIn(current, edit.start, edit.End()) {
        ScannedCaptured(regions, current, edit, first, last, left, right);
        SpanSize(current, left, right);
      }
    }

    // The scan's stretch is the one the cuts define.
    lemma ScannedEnds(edit: Edit, first: int, last: int, left: int, right: int, lo: nat, hi: nat)
      requires Scanned(regions, edit.start, edit.End(), first, last) && lo <= hi <= |regions|
      requires if first >= 0 then lo == first && hi == last + 1 else lo == hi
      requires left == if first >= 0 && regions[first].afterStart < edit.start then regions[first].afterStart else edit.start
      requires right == if first >= 0 && edit.End() < regions[last].AfterEnd() then regions[last].AfterEnd() else edit.End()
      ensures left == Left(regions, edit.start, lo, hi) && right == Right(regions, edit.End(), lo, hi)
    {
      hide ReviewOverlaps;
    }

    lemma MakeLocated(edit: Edit, base: seq<Line>, cur: seq<Line>, left: int, right: int, originalStart: int, lo: nat, hi: nat)
      requires Cuts(regions, edit.start, edit.End(), lo, hi) && left == Left(regions, edit.start, lo, hi) && right == Right(regions, edit.End(), lo, hi)
      requires 0 <= left && right <= |cur| && EditFits(edit, cur) && AllIn(current, left, right)
      requires originalStart == if lo < |regions| then left + regions[lo].beforeStart - regions[lo].afterStart else left + |base| - |cur|
      ensures Located(regions, current, base, cur, edit, left, right, originalStart, lo, hi)
    {
      hide Cuts, Left, Right, EditFits, AllIn;
    }

    /** The one region that replaces the overlapped regions and the edit, or none when the
        edit restores the original text. */
    static method NetRegion(overlapped: seq<Region>, captured: seq<Line>, edit: Edit, left: int, originalStart: int, hidden: bool, highlighted: bool,
                            ghost base: seq<Line>, ghost cur: seq<Line>, ghost right: int, ghost m: int, ghost m2: int)
      returns (net: Option<seq<Region>>)
      requires 0 <= left <= edit.start <= edit.End() <= right <= |cur| && captured == cur[left..right] && originalStart == m
      requires Run(overlapped, base, cur, m, left, m2, right)
      requires (highlighted ==> !hidden) && forall k :: 0 <= k < |overlapped| ==> Sound(overlapped[k])
      ensures 0 <= m <= m2 <= |base|
      ensures net.None? ==> m2 - m > MAX_ROWS || right - left + edit.Shift() > MAX_ROWS
      ensures net.Some? ==> Net(net.value, base, cur, edit, left, right, m, m2)
      ensures net.Some? && net.value != [] ==>
                && net.value[0].hidden == (hidden && forall k :: 0 <= k < |overlapped| ==> overlapped[k].hidden)
                && net.value[0].highlighted == (highlighted || exists k :: 0 <= k < |overlapped| && overlapped[k].highlighted)
    {
      RunOrdered(overlapped, base, cur, m, left, m2, right);
      var original := Reverted(overlapped, captured, left, base, cur, m, m2, right);
      hide Run;
      var after := captured[..edit.start - left] + edit.after + captured[edit.End() - left..];
      assert after == cur[left..edit.start] + edit.after + cur[edit.End()..right];
      if |original| > MAX_ROWS || |after| > MAX_ROWS {
        return None;
      }
      if original == after {
        return Some([]);
      }
      var visible, lit := Visibility(overlapped, hidden, highlighted);
      return Some([Region(originalStart, left, original, after, !visible, lit)]);
    }

    /** Applies one edit of the newer file.  It fails, changing nothing, only if the edit does not
        fit, reaches uncaptured lines, or more is remembered than a region may hold; otherwise the
        composition describes the edited file. */
    method ApplyEdit(edit: Edit, hidden: bool, highlighted: bool, ghost base: seq<Line>, ghost cur: seq<Line>)
      returns (err: Option<ComposeError>, ghost lo: nat, ghost hi: nat, ghost net: seq<Region>)
      requires Describes(base, cur) && 0 <= edit.start <= |cur| && (highlighted ==> !hidden)
      modifies `regions, `current
      ensures err.Some? ==> regions == old(regions) && current == old(current)
      ensures err.None? ==> EditFits(edit, cur) && AllIn(old(current), edit.start, edit.End())
      ensures err.None? ==> Describes(base, Spliced(cur, edit.start, edit.End(), edit.after))
      ensures err.None? ==> Remembered(old(current), current, edit)
      ensures err.None? ==> Rewritten(old(regions), regions, edit, hidden, highlighted, lo, hi, net) && NetOf(old(regions), edit, base, cur, lo, hi, net)
      ensures EditFits(edit, cur) && AllIn(old(current), edit.start, edit.End()) && err.Some? ==>
                && err.value == RegionTooLarge
                && (|old(current)| > MAX_ROWS || |original| > MAX_ROWS || |old(current)| + edit.Shift() > MAX_ROWS)
    {
      var first, last, left, right, originalStart, captured;
      err, first, last, left, right, originalStart, captured, lo, hi := Locate(edit, base, cur);
      net := [];
      if err.Some? {
        return;
      }
      hide Run, Carries, SplicedRuns, Cuts, AllIn, Net, Left, Right, Remembered, NetOf, StretchStart;
      LocatedStart(regions, current, base, cur, edit, left, right, originalStart, lo, hi);
      ghost var m, m2 := LocatedStretch(regions, current, base, cur, edit, left, right, originalStart, lo, hi);
      StretchSize(regions, original, current, base, cur, edit, left, right, lo, hi, m, m2);
      hide Located, Recalled;
      var overlapped := if first >= 0 then regions[first..last + 1] else [];
      assert overlapped == regions[lo..hi];
      SliceFlags(regions, lo, hi);
      var rewritten := NetRegion(overlapped, captured, edit, left, originalStart, hidden, highlighted, base, cur, right, m, m2);
      if rewritten.None? {
        err := Some(RegionTooLarge);
        return;
      }
      net := rewritten.value;
      MakeNetOf(regions, edit, base, cur, lo, hi, net, left, right, m, m2);
      Rewrite(edit, first, last, rewritten.value, base, cur, left, right, lo, hi, m, m2);
    }

    // Publishes the net region, the moved regions and the updated lines.
    method Rewrite(edit: Edit, first: int, last: int, net: seq<Region>, ghost base: seq<Line>, ghost cur: seq<Line>,
                   ghost left: int, ghost right: int, ghost lo: nat, ghost hi: nat, ghost m: int, ghost m2: int)
      requires Describes(base, cur)
      requires Stretch(regions, base, cur, edit, left, right, lo, hi, m, m2) && Net(net, base, cur, edit, left, right, m, m2)
      requires AllIn(current, left, right)
      requires Cuts(regions, edit.start, edit.End(), lo, hi) && left == Left(regions, edit.start, lo, hi) && right == Right(regions, edit.End(), lo, hi)
      requires if first >= 0 then lo == first && hi == last + 1 else lo == hi
      modifies `regions, `current
      ensures Describes(base, Spliced(cur, edit.start, edit.End(), edit.after))
      ensures Remembered(old(current), current, edit)
      ensures regions == old(regions)[..lo] + net + Shift(old(regions)[hi..], edit.Shift())
    {
      hide Run, Carries, SplicedRuns, Stretch, Left, Right, Net, AllIn, Remembered;
      var updated := Updated(current, edit);
      var kept := Kept(regions, first, last, edit.start, edit.End(), edit.Shift(), lo, hi);
      KeptAll(regions, lo, hi, edit.Shift());
      EditDescribed(regions, original, current, updated, base, cur, edit, left, right, lo, hi, m, m2, net);
      current := updated;
      regions := SortByStart(kept + net);
    }

    // The remembered context that both sides share from oldEnd and newEnd on, at most `gap` lines.
    method Context(oldEnd: int, newEnd: int, gap: int) returns (context: seq<Line>)
      requires 0 <= gap
      ensures |context| <= gap && ReadsAs(original, oldEnd, context) && ReadsAs(current, newEnd, context)
      ensures |context| < gap && KnownAt(original, current, oldEnd, newEnd, |context|) ==> original[oldEnd + |context|] != current[newEnd + |context|]
    {
      context := [];
      while |context| < gap
        invariant |context| <= gap
        invariant ReadsAs(original, oldEnd, context) && ReadsAs(current, newEnd, context)
      {
        var i := |context|;
        if oldEnd + i !in original || newEnd + i !in current || original[oldEnd + i] != current[newEnd + i] {
          return;
        }
        context := context + [original[oldEnd + i]];
      }
    }

    /** Joins to region `first` every following region that remembered context connects to
        it, and returns the joined old and new text. */
    method Group(first: nat, ghost base: seq<Line>, ghost cur: seq<Line>) returns (a: seq<Line>, b: seq<Line>, last: nat)
      requires first < |regions| && Describes(base, cur)
      ensures first < last <= |regions| && Gathered(regions, original, current, base, cur, first, last, a, b)
      ensures last < |regions| ==> !Connected(regions, original, current, last)
    {
      hide *;
      Describing(base, cur);
      var initial := regions[first];
      a, b := initial.before, initial.after;
      last := first + 1;
      GatheredOne(regions, original, current, base, cur, first);
      while last < |regions|
        invariant first < last <= |regions|
        invariant Gathered(regions, original, current, base, cur, first, last, a, b)
      {
        var r := regions[last];
        var oldEnd, newEnd := initial.beforeStart + |a|, initial.afterStart + |b|;
        var gap := r.beforeStart - oldEnd;
        GapText(regions, original, current, base, cur, first, last, a, b);
        if gap < 0 || gap != r.afterStart - newEnd {
          break;
        }
        var context := Context(oldEnd, newEnd, gap);
        if |context| != gap {
          GatheredStop(regions, original, current, base, cur, first, last, a, b, |context|);
          break;
        }
        GatheredNext(regions, original, current, base, cur, first, last, a, b, context);
        a := a + context + r.before;
        b := b + context + r.after;
        last := last + 1;
      }
    }

    /** Emits the part of an opcode up to a prior region's boundary, unless the boundary lies
        outside the opcode or the part changes nothing.  The part is visible when it touches a
        visible prior region. */
    static method Emit(priors: seq<Region>, initial: Region, op: OpCode, a: seq<Line>, b: seq<Line>,
                       oldStart: int, newStart: int, oldEnd: int, newEnd: int, normalized: seq<Region>, ghost n: nat,
                       ghost current: map<int, Line>, ghost base: seq<Line>, ghost cur: seq<Line>)
      returns (oldStart': int, newStart': int, normalized': seq<Region>)
      requires OpFits(op, a, b) && op.i1 <= oldStart <= op.i2 && op.j1 <= newStart <= op.j2
      requires Emitted(normalized, current, base, cur, initial, a, b, oldStart, newStart)
      requires InOrder(priors) && Passed(priors, initial, op, n, oldStart, newStart)
      requires if n < 2 * |priors| then Corner(priors, n) == (initial.beforeStart + oldEnd, initial.afterStart + newEnd) else oldEnd == op.i2 && newEnd == op.j2
      ensures if Advances(op, oldStart, newStart, oldEnd, newEnd) then oldStart' == oldEnd && newStart' == newEnd else oldStart' == oldStart && newStart' == newStart
      ensures n < 2 * |priors| ==> Passed(priors, initial, op, n + 1, oldStart', newStart')
      ensures Emitted(normalized', current, base, cur, initial, a, b, oldStart', newStart')
      ensures normalized <= normalized' && AllShown(normalized'[|normalized|..], priors, initial, a, b)
      ensures normalized' == normalized + Emission(Part(initial, a, b, (oldStart, newStart), (oldStart', newStart')), priors)
    {
      oldStart', newStart', normalized' := oldStart, newStart, normalized;
      NoEmission(initial, a, b, (oldStart, newStart), priors);
      if n < 2 * |priors| {
        PassedNext(priors, initial, op, n, oldStart, newStart, oldEnd, newEnd);
      }
      hide InOrder, Passed, Corner, Inside, Shown, KeepsBoundaries, Touches, Emission, Part, Displayed;
      if oldEnd < oldStart || newEnd < newStart || oldEnd > op.i2 || newEnd > op.j2 {
        return;
      }
      if oldEnd == oldStart && newEnd == newStart {
        return;
      }
      var region := Region(initial.beforeStart + oldStart, initial.afterStart + newStart, a[oldStart..oldEnd], b[newStart..newEnd], true, false);
      oldStart', newStart' := oldEnd, newEnd;
      EmitStep(normalized, current, base, cur, initial, a, b, oldStart, newStart, oldEnd, newEnd, region);
      OneEmission(initial, a, b, (oldStart, newStart), (oldEnd, newEnd), priors, region);
      if region.before == region.after {
        return;
      }
      region := Display(region, priors);
      PieceUncut(priors, initial, op, n, oldStart, newStart, oldEnd, newEnd, region);
      PieceInside(region, initial, a, b, oldStart, newStart, oldEnd, newEnd);
      ShownSound(region, priors);
      EmitFlags(normalized, current, base, cur, initial, a, b, oldEnd, newEnd, region);
      normalized' := normalized + [region];
    }

    // A part is visible when it touches a visible prior region, and highlighted when it touches a highlighted one.
    static method Display(part: Region, priors: seq<Region>) returns (region: Region)
      requires part.hidden && !part.highlighted
      ensures region == part.(hidden := region.hidden, highlighted := region.highlighted) && Shown(region, priors)
      ensures region == Displayed(part, priors)
    {
      region := part;
      for i := 0 to |priors|
        invariant region == part.(hidden := region.hidden, highlighted := region.highlighted)
        invariant Shown(region, priors[..i])
      {
        ShownNext(region, priors, i);
        if !priors[i].hidden && Touches(region, priors[i]) {
          region := region.(hidden := false, highlighted := region.highlighted || priors[i].highlighted);
        }
      }
      assert priors[..|priors|] == priors;
      DisplayedIs(part, region, priors);
    }

    // Emits the part of an opcode up to its n-th edge.
    static method EmitTo(priors: seq<Region>, initial: Region, op: OpCode, a: seq<Line>, b: seq<Line>, oldStart: int, newStart: int, oldEnd: int, newEnd: int,
                         before: seq<Region>, was: seq<Region>, ghost n: nat, ghost current: map<int, Line>, ghost base: seq<Line>, ghost cur: seq<Line>)
      returns (oldStart': int, newStart': int, normalized: seq<Region>)
      requires OpFits(op, a, b) && InOrder(priors) && n <= 2 * |priors| && (oldEnd, newEnd) == Edge(priors, initial, op, n)
      requires AtCut(priors, initial, op, a, b, before, was, n, oldStart, newStart, current, base, cur)
      ensures AtCut(priors, initial, op, a, b, before, normalized, n + 1, oldStart', newStart', current, base, cur)
    {
      hide *;
      CutFacts(priors, initial, op, a, b, before, was, n, oldStart, newStart, current, base, cur);
      oldStart', newStart', normalized := Emit(priors, initial, op, a, b, oldStart, newStart, oldEnd, newEnd, was, n, current, base, cur);
      CutMore(priors, initial, op, a, b, before, was, normalized, n, oldStart, newStart, oldStart', newStart', (oldEnd, newEnd), current, base, cur);
    }

    // Splits one opcode at the boundaries of the prior regions.
    static method EmitOp(priors: seq<Region>, initial: Region, op: OpCode, a: seq<Line>, b: seq<Line>, before: seq<Region>,
                         ghost current: map<int, Line>, ghost base: seq<Line>, ghost cur: seq<Line>)
      returns (normalized: seq<Region>)
      requires OpFits(op, a, b) && InOrder(priors)
      requires Emitted(before, current, base, cur, initial, a, b, op.i1, op.j1)
      ensures Emitted(normalized, current, base, cur, initial, a, b, op.i2, op.j2)
      ensures before <= normalized
      ensures AllShown(normalized[|before|..], priors, initial, a, b)
      ensures normalized == before + PartsUpTo(priors, initial, op, a, b, 2 * |priors| + 1)
    {
      hide *;
      normalized := before;
      var oldStart, newStart := op.i1, op.j1;
      CutStart(priors, initial, op, a, b, before, current, base, cur);
      var i := 0;
      while i < |priors|
        invariant 0 <= i <= |priors|
        invariant AtCut(priors, initial, op, a, b, before, normalized, 2 * i, oldStart, newStart, current, base, cur)
      {
        var prior := priors[i];
        EdgesAt(priors, initial, op, i);
        oldStart, newStart, normalized := EmitTo(priors, initial, op, a, b, oldStart, newStart,
          prior.beforeStart - initial.beforeStart, prior.afterStart - initial.afterStart, before, normalized, 2 * i, current, base, cur);
        oldStart, newStart, normalized := EmitTo(priors, initial, op, a, b, oldStart, newStart,
          prior.BeforeEnd() - initial.beforeStart, prior.AfterEnd() - initial.afterStart, before, normalized, 2 * i + 1, current, base, cur);
        i := i + 1;
      }
      EdgesAt(priors, initial, op, i);
      oldStart, newStart, normalized := EmitTo(priors, initial, op, a, b, oldStart, newStart, op.i2, op.j2, before, normalized, 2 * |priors|, current, base, cur);
      CutEnd(priors, initial, op, a, b, before, normalized, oldStart, newStart, current, base, cur);
    }

    static method Rediff(priors: seq<Region>, initial: Region, ops: seq<OpCode>, a: seq<Line>, b: seq<Line>, before: seq<Region>,
                         ghost current: map<int, Line>, ghost base: seq<Line>, ghost cur: seq<Line>)
      returns (normalized: seq<Region>)
      requires Tiles(ops, a, b, 0, 0, |a|, |b|) && InOrder(priors)
      requires Emitted(before, current, base, cur, initial, a, b, 0, 0)
      ensures Emitted(normalized, current, base, cur, initial, a, b, |a|, |b|)
      ensures before <= normalized && AllShown(normalized[|before|..], priors, initial, a, b)
      ensures AllEqual(ops) ==> normalized == before
      ensures normalized == before + OpsUpTo(priors, initial, ops, a, b, |ops|)
    {
      hide Emitted, AllShown, InOrder, OpsUpTo, PartsUpTo;
      OpNone(priors, initial, ops, a, b);
      normalized := before;
      NoneShown(before, priors, initial, a, b);
      var n := 0;
      ghost var i, j := 0, 0;
      assert ops[0..] == ops;
      while n < |ops|
        invariant 0 <= n <= |ops|
        invariant Tiles(ops[n..], a, b, i, j, |a|, |b|)
        invariant Emitted(normalized, current, base, cur, initial, a, b, i, j)
        invariant before <= normalized && AllShown(normalized[|before|..], priors, initial, a, b)
        invariant (forall k :: 0 <= k < n ==> ops[k].tag == Equal) ==> normalized == before
        invariant normalized == before + OpsUpTo(priors, initial, ops, a, b, n)
      {
        var op := ops[n];
        OpNext(priors, initial, ops, a, b, n);
        TilesNext(ops, a, b, n, i, j);
        ghost var was := normalized;
        if op.tag == Equal {
          EmitEqual(normalized, current, base, cur, initial, a, b, op);
        } else {
          normalized := EmitOp(priors, initial, op, a, b, normalized, current, base, cur);
          ShownJoin(before, was, normalized, priors, initial, a, b);
        }
        i, j := op.i2, op.j2;
        n := n + 1;
      }
    }

    // Re-diffs the group of regions that starts at first.
    method NormalizeGroup(differ: Differ, before: seq<Region>, first: nat, ghost base: seq<Line>, ghost cur: seq<Line>, ghost p: int, ghost q: int)
      returns (normalized: seq<Region>, last: nat, ghost p': int, ghost q': int)
      requires Matches(differ) && Describes(base, cur) && first < |regions|
      requires Renormalized(before, regions, original, current, base, cur, first, p, q)
      ensures first < last <= |regions|
      ensures Renormalized(normalized, regions, original, current, base, cur, last, p', q')
      ensures Cancels(differ, regions, original, current, base, cur) && before == [] && first == 0 ==> normalized == [] && last == |regions|
      ensures last == GroupEnd(regions, original, current, first + 1) && normalized == before + GroupRediffed(differ, regions, base, cur, first, last)
    {
      hide *;
      Describing(base, cur);
      var a, b;
      a, b, last := Group(first, base, cur);
      GatheredGroup(regions, original, current, base, cur, first, last, a, b);
      GroupEmitted(before, regions, original, current, base, cur, first, last, a, b, p, q);
      if Cancels(differ, regions, original, current, base, cur) && before == [] && first == 0 {
        CancelGroup(differ, regions, original, current, base, cur, last, a, b);
      }
      TilesWhole(differ, a, b);
      GroupInOrder(regions, base, cur, first, last);
      GatheredTexts(regions, original, current, base, cur, first, last, a, b);
      GroupIs(differ, regions, base, cur, first, last);
      normalized := Rediff(regions[first..last], regions[first], differ(a, b), a, b, before, current, base, cur);
      GroupDone(regions, original, current, base, cur, first, last, a, b, before, normalized, p, q);
      p', q' := regions[first].beforeStart + |a|, regions[first].afterStart + |b|;
    }

    /** Re-diffs each group of connected regions, so that text restored in pieces cancels: the
        composition still describes the same two files, and if they are equal and every gap is
        remembered, no region is left. */
    method Normalize(differ: Differ, ghost base: seq<Line>, ghost cur: seq<Line>)
      requires Matches(differ) && Describes(base, cur)
      modifies `regions
      ensures Describes(base, cur)
      ensures forall k :: 0 <= k < |regions| ==> Shown(regions[k], old(regions)) && KeepsBoundaries(regions[k], old(regions))
      ensures Cancels(differ, old(regions), original, current, base, cur) ==> regions == []
      ensures regions == RediffedFrom(differ, old(regions), original, current, base, cur, 0)
    {
      hide *;
      var normalized: seq<Region> := [];
      var first := 0;
      ghost var p, q := 0, 0;
      Describing(base, cur);
      NormalizedStart(regions, original, current, base, cur);
      while first < |regions|
        invariant unchanged(this) && 0 <= first <= |regions|
        invariant Renormalized(normalized, regions, original, current, base, cur, first, p, q)
        invariant Cancels(differ, regions, original, current, base, cur) ==> normalized == [] && (first == 0 || first == |regions|)
        invariant normalized + RediffedFrom(differ, regions, original, current, base, cur, first) == RediffedFrom(differ, regions, original, current, base, cur, 0)
      {
        RediffedNext(differ, regions, original, current, base, cur, first, normalized);
        normalized, first, p, q := NormalizeGroup(differ, normalized, first, base, cur, p, q);
      }
      NormalizedDescribe(normalized, regions, original, current, base, cur, p, q);
      RediffedEnd(differ, regions, original, current, base, cur);
      regions := normalized;
      Described(base, cur);
    }

    lemma Describing(base: seq<Line>, cur: seq<Line>)
      requires Describes(base, cur)
      ensures Describe(regions, original, current, base, cur)
    {
    }

    lemma Described(base: seq<Line>, cur: seq<Line>)
      requires Describe(regions, original, current, base, cur)
      ensures Describes(base, cur)
    {
    }

    /** Learns one row of text at a position of the newer file, and of the older one if no
        region covers it. */
    method LearnRow(position: int, text: Line, ghost base: seq<Line>, ghost cur: seq<Line>)
      returns (err: Option<ComposeError>, ghost base': seq<Line>, ghost cur': seq<Line>)
      requires Describes(base, cur) && 0 <= position <= |cur|
      modifies `original, `current
      ensures err.None? ==> current == old(current)[position := text]
      ensures err.None? ==> original.Keys == old(original.Keys) + if OriginOf(regions, position).1 then {OriginOf(regions, position).0} else {}
      ensures err.None? ==> Narrower(old(original), original) && Narrower(old(current), current) && Tracked(regions, original, position, position + 1)
      ensures err.None? ==> Describes(base', cur')
      ensures err.None? ==> |cur| <= |cur'| && position < |cur'|
      ensures position < |cur| && cur[position] == text ==> err.None? && base' == base && cur' == cur
      ensures err.Some? ==> err.value == SourceMismatch || err.value == OriginalMismatch
    {
      hide *;
      base', cur' := base, cur;
      Describing(base, cur);
      if position < |cur| && cur[position] == text {
        TextRemembered(regions, original, current, base, cur, position, text);
      }
      if position in current && current[position] != text {
        return Some(SourceMismatch), base, cur;
      }
      var o, ok, passed := OriginalPosition(position);
      if position < |cur| && cur[position] == text && ok {
        OriginalRemembered(regions, original, current, base, cur, position, text, passed, o);
      }
      if ok && o in original && original[o] != text {
        return Some(OriginalMismatch), base, cur;
      }
      base', cur' := RowLearned(regions, original, current, base, cur, position, text, passed, ok, o);
      RowNarrower(original, current, ok, o, position, text);
      current := current[position := text];
      if ok {
        original := original[o := text];
      }
      Described(base', cur');
      DescribeOrder(regions, original, current, base', cur');
      TrackedOne(regions, original, position, passed, ok);
      err := None;
    }

    // Between rows n - 1 and n of hunk h.
    ghost predicate AtRow(hunks: seq<Hunk>, h: nat, n: nat, edits: seq<Edit>, open: bool, position: int, base: seq<Line>, cur: seq<Line>)
      requires h < |hunks| && n <= |hunks[h].rows|
      reads this
    {
      RowAt(Snap(), hunks, h, n, edits, open, position, base, cur)
    }

    method LearnHunkRow(hunks: seq<Hunk>, h: nat, n: nat, was: seq<Edit>, open: bool, position: int, ghost base: seq<Line>, ghost cur: seq<Line>)
      returns (err: Option<ComposeError>, edits: seq<Edit>, ghost base': seq<Line>, ghost cur': seq<Line>)
      requires h < |hunks| && n < |hunks[h].rows| && Ordered(hunks, true)
      requires AtRow(hunks, h, n, was, open, position, base, cur)
      modifies `original, `current
      ensures err.None? ==> AtRow(hunks, h, n + 1, edits, hunks[h].rows[n].kind != ' ', if hunks[h].rows[n].kind == '+' then position else position + 1, base', cur')
      ensures err.None? ==> Narrower(old(original), original) && Narrower(old(current), current)
      ensures err.None? ==> Enlarged(regions, old(original), old(current), original, current, hunks)
      ensures Reads(cur, hunks[h].beforeStart, OldSide(hunks[h].rows)) ==> err.None? && base' == base && cur' == cur
      ensures err.Some? ==> err.value == SourceMismatch || err.value == OriginalMismatch
    {
      hide *;
      var rows, row := hunks[h].rows, hunks[h].rows[n];
      base', cur' := base, cur;
      ghost var before := Snapped();
      RowIs(hunks, h, n, was, open, position, base, cur);
      RowFacts(before, hunks, h, n, was, open, position, base, cur);
      NarrowerSelf(original);
      NarrowerSelf(current);
      EnlargedSelf(regions, original, current, hunks);
      edits := AddToEdits(was, row, open, position);
      err := None;
      if row.kind != '+' {
        err, base', cur' := LearnRow(position, row.text, base, cur);
        if err.Some? {
          return;
        }
        RowPosition(before, hunks, h, n, was, open, position, base, cur);
        RowEnlarged(regions, before.original, before.current, original, current, hunks, h, n, position);
        ghost var now := Snapped();
        RowDescribed(base', cur');
        RowKnown(before, now, hunks, h, n, was, open, position, base, cur, base', cur');
        RowIs(hunks, h, n + 1, edits, row.kind != ' ', position + 1, base', cur');
      } else {
        RowAdded(before, hunks, h, n, was, open, position, base, cur);
        RowIs(hunks, h, n + 1, edits, true, position, base, cur);
      }
    }

    lemma RowIs(hunks: seq<Hunk>, h: nat, n: nat, edits: seq<Edit>, open: bool, position: int, base: seq<Line>, cur: seq<Line>)
      requires h < |hunks| && n <= |hunks[h].rows|
      ensures AtRow(hunks, h, n, edits, open, position, base, cur) <==> RowAt(Snap(), hunks, h, n, edits, open, position, base, cur)
      ensures RowAt(Snap(), hunks, h, n, edits, open, position, base, cur) ==> Describes(base, cur)
    {
      hide Describe, Learned, ReadsAs, Tracked, TrackedHunks, OldUpTo, EditsUpTo, HunkEditsUpTo;
    }

    lemma RowDescribed(base: seq<Line>, cur: seq<Line>)
      ensures Describes(base, cur) <==> Describe(regions, original, current, base, cur)
    {
    }

    // The first h hunks learned, and their edits listed.
    ghost predicate AtHunk(hunks: seq<Hunk>, h: nat, edits: seq<Edit>, base: seq<Line>, cur: seq<Line>)
      reads this
    {
      && h <= |hunks| && Describes(base, cur)
      && Learned(hunks, h, current, cur) && edits == ToEdits(HunkEditsUpTo(hunks, h))
      && TrackedHunks(regions, hunks, h, original)
    }

    /** Learns a hunk's old side and lists its edits. */
    method LearnHunk(hunks: seq<Hunk>, h: nat, was: seq<Edit>, ghost base: seq<Line>, ghost cur: seq<Line>)
      returns (err: Option<ComposeError>, edits: seq<Edit>, ghost base': seq<Line>, ghost cur': seq<Line>)
      requires h < |hunks| && Ordered(hunks, true) && AtHunk(hunks, h, was, base, cur)
      modifies `original, `current
      ensures err.None? ==> AtHunk(hunks, h + 1, edits, base', cur')
      ensures err.None? ==> Narrower(old(original), original) && Narrower(old(current), current)
      ensures err.None? ==> Enlarged(regions, old(original), old(current), original, current, hunks)
      ensures Reads(cur, hunks[h].beforeStart, OldSide(hunks[h].rows)) ==> err.None? && base' == base && cur' == cur
      ensures err.Some? ==> err.value == SourceMismatch || err.value == OriginalMismatch
    {
      hide *;
      var rows, position, open := hunks[h].rows, hunks[h].beforeStart, false;
      edits := was;
      base', cur' := StartHunk(hunks, h, was, base, cur);
      NarrowerSelf(original);
      NarrowerSelf(current);
      EnlargedSelf(regions, original, current, hunks);
      var n := 0;
      while n < |rows|
        invariant 0 <= n <= |rows|
        invariant AtRow(hunks, h, n, edits, open, position, base', cur')
        invariant Narrower(old(original), original) && Narrower(old(current), current)
        invariant Enlarged(regions, old(original), old(current), original, current, hunks) && regions == old(regions)
        invariant Reads(cur, hunks[h].beforeStart, OldSide(rows)) ==> base' == base && cur' == cur
      {
        ghost var o, c := original, current;
        err, edits, base', cur' := LearnHunkRow(hunks, h, n, edits, open, position, base', cur');
        if err.Some? {
          return;
        }
        NarrowerJoin(old(original), o, original);
        NarrowerJoin(old(current), c, current);
        EnlargedJoin(regions, old(original), old(current), o, c, original, current, hunks);
        open := rows[n].kind != ' ';
        position := if rows[n].kind == '+' then position else position + 1;
        n := n + 1;
      }
      EndHunk(hunks, h, edits, open, position, base', cur');
      err := None;
    }

    // A hunk may start past everything remembered; the files then simply go on.
    lemma StartHunk(hunks: seq<Hunk>, h: nat, was: seq<Edit>, base: seq<Line>, cur: seq<Line>) returns (base': seq<Line>, cur': seq<Line>)
      requires h < |hunks| && Ordered(hunks, true) && AtHunk(hunks, h, was, base, cur)
      ensures AtRow(hunks, h, 0, was, false, hunks[h].beforeStart, base', cur')
      ensures Reads(cur, hunks[h].beforeStart, OldSide(hunks[h].rows)) ==> base' == base && cur' == cur
    {
      RowStart(hunks[h].rows, hunks[h].beforeStart, hunks[h].afterStart, was, current);
      base', cur' := base, cur;
      if hunks[h].beforeStart > |cur| {
        var tail := seq(hunks[h].beforeStart - |cur|, _ => "");
        base', cur' := base + tail, cur + tail;
        DescribeLonger(regions, original, current, base, cur, tail);
        LearnedLonger(hunks, h, current, cur, cur');
      }
    }

    lemma EndHunk(hunks: seq<Hunk>, h: nat, edits: seq<Edit>, open: bool, position: int, base: seq<Line>, cur: seq<Line>)
      requires h < |hunks| && AtRow(hunks, h, |hunks[h].rows|, edits, open, position, base, cur)
      ensures AtHunk(hunks, h + 1, edits, base, cur)
    {
      RowEnds(Snap(), hunks, h, edits, open, position, base, cur);
    }

    lemma NoHunkYet(hunks: seq<Hunk>, base: seq<Line>, cur: seq<Line>)
      requires Describes(base, cur)
      ensures AtHunk(hunks, 0, [], base, cur)
    {
      hide Describe;
    }

    /** Validates a capture's old side against everything remembered, and remembers it.  If it
        is accepted, some pair of files agrees with both; if the capture fits a file the
        composition describes, it is accepted, and that file is such a one. */
    method Learn(hunks: seq<Hunk>, ghost base: seq<Line>, ghost cur: seq<Line>)
      returns (err: Option<ComposeError>, edits: seq<Edit>, ghost base': seq<Line>, ghost cur': seq<Line>)
      requires Describes(base, cur) && Ordered(hunks, true)
      modifies `original, `current
      ensures err.None? ==> AtHunk(hunks, |hunks|, edits, base', cur')
      ensures err.None? ==> Narrower(old(original), original) && Narrower(old(current), current)
      ensures err.None? ==> Enlarged(regions, old(original), old(current), original, current, hunks)
      ensures Fits(HunkRegions(hunks), cur) ==> err.None? && base' == base && cur' == cur
      ensures err.Some? ==> err.value == SourceMismatch || err.value == OriginalMismatch
    {
      hide *;
      edits, base', cur' := [], base, cur;
      NoHunkYet(hunks, base, cur);
      NarrowerSelf(original);
      NarrowerSelf(current);
      EnlargedSelf(regions, original, current, hunks);
      var h := 0;
      while h < |hunks|
        invariant 0 <= h <= |hunks| && AtHunk(hunks, h, edits, base', cur')
        invariant Narrower(old(original), original) && Narrower(old(current), current)
        invariant Enlarged(regions, old(original), old(current), original, current, hunks) && regions == old(regions)
        invariant Fits(HunkRegions(hunks), cur) ==> base' == base && cur' == cur
      {
        if Fits(HunkRegions(hunks), cur) {
          FitsReads(hunks, h, cur);
        }
        ghost var o, c := original, current;
        err, edits, base', cur' := LearnHunk(hunks, h, edits, base', cur');
        if err.Some? {
          return;
        }
        NarrowerJoin(old(original), o, original);
        NarrowerJoin(old(current), c, current);
        EnlargedJoin(regions, old(original), old(current), o, c, original, current, hunks);
        h := h + 1;
      }
      err := None;
    }

    /** Applies the edits, last one first, so that every position is still one of the file
        the capture started from.  Only the capacity can stop it. */
    method ApplyEdits(edits: seq<Edit>, hidden: bool, highlighted: bool, ghost rs: seq<Region>, ghost base: seq<Line>, ghost cur: seq<Line>, ghost goal: seq<Line>)
      returns (err: Option<ComposeError>)
      requires Describes(base, cur) && (highlighted ==> !hidden)
      requires edits == ToEdits(rs) && Carries(rs, cur, goal) && EditsIn(edits, |rs|, current)
      modifies `regions, `current
      ensures err.None? ==> Describes(base, goal)
      ensures err.None? ==> Applied(Working(old(regions), old(current), cur), Working(regions, current, goal), edits, 0, hidden, highlighted, base)
      ensures err.Some? ==> err.value == RegionTooLarge && (|original| > MAX_ROWS || TooLong(|old(current)|, edits))
      ensures err.None? ==> |current| == LengthAfter(|old(current)|, edits, 0)
      ensures hidden && AllHidden(old(regions)) ==> AllHidden(regions)
      ensures !highlighted && NoneHighlighted(old(regions)) ==> NoneHighlighted(regions)
    {
      hide *;
      var i := |edits|;
      ghost var was, mid := Working(regions, current, cur), cur;
      NoneDone(was, rs, hidden, highlighted, base, goal);
      while i > 0
        invariant 0 <= i <= |edits| && |edits| == |rs|
        invariant Describes(base, mid) && EditsDone(was, Working(regions, current, mid), rs, i, hidden, highlighted, base, goal)
        invariant hidden && AllHidden(old(regions)) ==> AllHidden(regions)
        invariant !highlighted && NoneHighlighted(old(regions)) ==> NoneHighlighted(regions)
      {
        i := i - 1;
        ghost var before := Working(regions, current, mid);
        ghost var next := EditFacts(was, before, rs, i, hidden, highlighted, base, goal);
        ghost var lo, hi, net;
        err, lo, hi, net := ApplyEdit(edits[i], hidden, highlighted, base, mid);
        if err.Some? {
          return;
        }
        EditDone(was, before, Working(regions, current, next), rs, i, hidden, highlighted, base, goal, lo, hi, net);
        EditFlags(was, Working(regions, current, next), rs, i, hidden, highlighted, base, goal);
        mid := next;
      }
      AllDone(was, Working(regions, current, mid), rs, hidden, highlighted, base, goal);
      err := None;
    }

    /** Extends the composition by a capture's hunks.  It goes through only if the hunks fit a
        file the composition can be describing, and then describes the patched file. */
    method Extend(hunks: seq<Hunk>, differ: Differ, hidden: bool, highlighted: bool, ghost base: seq<Line>, ghost cur: seq<Line>)
      returns (err: Option<ComposeError>, ghost base': seq<Line>, ghost cur': seq<Line>)
      requires Describes(base, cur) && Ordered(hunks, true) && Matches(differ) && (highlighted ==> !hidden)
      modifies `regions, `original, `current
      ensures err.None? ==> Describe(old(regions), old(original), old(current), base', cur') && Fits(HunkRegions(hunks), cur')
      ensures err.None? ==> Describes(base', Patched(HunkRegions(hunks), cur'))
      ensures err.None? ==> Composes(old(Snap()), Snap(), hunks, differ, hidden, highlighted, base', cur')
      ensures Fits(HunkRegions(hunks), cur) ==> base' == base && cur' == cur
      ensures Fits(HunkRegions(hunks), cur) && err.Some? ==> (err.value == RegionTooLarge || err.value == TooManyLines) && old(Oversized(regions, original, current, hunks))
      ensures err.None? ==> Sized(old(Snap()), Snap(), hunks)
      ensures hidden && AllHidden(old(regions)) ==> AllHidden(regions)
      ensures !highlighted && NoneHighlighted(old(regions)) ==> NoneHighlighted(regions)
    {
      hide *;
      ghost var rs, o, c := regions, original, current;
      ghost var before := Snapped();
      Describing(base, cur);
      var edits;
      err, edits, base', cur' := Learn(hunks, base, cur);
      if err.Some? {
        return;
      }
      HunksLearned(hunks, edits, base', cur');
      DescribeNarrow(rs, o, c, original, current, base, cur, base', cur');
      ghost var goal := LearnedGoal(hunks, edits, current, cur');
      ghost var known := current;
      LearnedSizes(rs, o, c, original, current, hunks);
      err := ApplyEdits(edits, hidden, highlighted, HunkEdits(hunks), base', cur', goal);
      if err.Some? {
        return;
      }
      ghost var was := regions;
      Normalize(differ, base', goal);
      ShownFlags(was, regions);
      ghost var now := Snapped();
      MakeComposes(before, now, hunks, differ, hidden, highlighted, base', cur', known, was);
      if |original| > MAX_ROWS || |current| > MAX_ROWS {
        err := Some(TooManyLines);
      } else {
        MakeSized(before, now, hunks);
      }
    }

    lemma Snapped() returns (now: Snapshot)
      ensures now == Snap() == Snapshot(regions, original, current)
    {
      now := Snap();
    }

    lemma HunksLearned(hunks: seq<Hunk>, edits: seq<Edit>, base: seq<Line>, cur: seq<Line>)
      requires AtHunk(hunks, |hunks|, edits, base, cur)
      ensures Describes(base, cur) && Describe(regions, original, current, base, cur) && Learned(hunks, |hunks|, current, cur) && Knows(current, cur)
      ensures edits == ToEdits(HunkEditsUpTo(hunks, |hunks|)) && TrackedHunks(regions, hunks, |hunks|, original)
      ensures |HunkEdits(hunks)| == |edits|
    {
      hide Learned, TrackedHunks, Carries, Captured, Sound, Recalled, Knows, HunkEditsUpTo;
    }

    // Why a capture is refused before its rows are looked at.
    function Refusal(file: ReviewFile, quote: Quote): Option<ComposeError>
      reads this
    {
      if file.directory then Some(DirectoryContents)
      else if file.incomplete != "" then Some(IncompleteHistory)
      else
        var parsed := ParseHunks(file, quote, true);
        if parsed.Err? then Some(Malformed(parsed.error))
        else if started && file.beforePath != afterPath then Some(WrongIdentity)
        else None
    }

    /** A directory is refused, then what has no complete history, then what does not parse as one, then a
        change of path once there is one to keep. */
    lemma RefusalMeans(file: ReviewFile, quote: Quote)
      ensures Refusal(file, quote) == Some(DirectoryContents) <==> file.directory
      ensures Refusal(file, quote) == Some(IncompleteHistory) <==> !file.directory && file.incomplete != ""
      ensures Refusal(file, quote) == None ==> !file.directory && file.incomplete == "" && ParseHunks(file, quote, true).Ok?
      ensures Refusal(file, quote) == Some(WrongIdentity) <==>
                !file.directory && file.incomplete == "" && ParseHunks(file, quote, true).Ok? && started && file.beforePath != afterPath
      ensures forall e :: Refusal(file, quote) == Some(Malformed(e)) <==> !file.directory && file.incomplete == "" && ParseHunks(file, quote, true) == Err(e)
    {
      hide ParseHunks;
    }

    // The capture's hunks, unless it is refused.
    method Accepted(file: ReviewFile, quote: Quote) returns (r: Result<seq<Hunk>, ComposeError>)
      ensures Refusal(file, quote) == if r.Err? then Some(r.error) else None
      ensures r.Ok? ==> ParseHunks(file, quote, true) == Ok(r.value) && Ordered(r.value, true)
    {
      hide ParseHunks, Ordered;
      if file.directory {
        return Err(DirectoryContents);
      }
      if file.incomplete != "" {
        return Err(IncompleteHistory);
      }
      var parsed := ParseReviewHunks(file, quote, true);
      if parsed.Err? {
        return Err(Malformed(parsed.error));
      }
      var known := if started then afterPath else file.beforePath;
      r := if file.beforePath != known then Err(WrongIdentity) else Ok(parsed.value);
    }

    // A copy of the composition, extended; the composition itself is left as it is.
    method Extended(path: string, hunks: seq<Hunk>, differ: Differ, hidden: bool, highlighted: bool, ghost base: seq<Line>, ghost cur: seq<Line>)
      returns (err: Option<ComposeError>, next: ReviewComposition, ghost base': seq<Line>, ghost cur': seq<Line>)
      requires Valid() && Describes(base, cur) && Ordered(hunks, true) && Matches(differ) && (highlighted ==> !hidden)
      ensures fresh(next)
      ensures err.None? ==> Describe(regions, original, current, base', cur') && Fits(HunkRegions(hunks), cur') && next.Describes(base', Patched(HunkRegions(hunks), cur'))
      ensures err.None? ==> Composes(Snap(), next.Snap(), hunks, differ, hidden, highlighted, base', cur')
      ensures Fits(HunkRegions(hunks), cur) ==> base' == base && cur' == cur
      ensures Fits(HunkRegions(hunks), cur) && err.Some? ==> (err.value == RegionTooLarge || err.value == TooManyLines) && Oversized(regions, original, current, hunks)
      ensures err.None? ==> Sized(Snap(), next.Snap(), hunks)
      ensures next.started && next.beforePath == if started then beforePath else path
      ensures next.pathHidden == pathHidden && next.pathHighlighted == pathHighlighted
      ensures hidden && AllHidden(regions) ==> AllHidden(next.regions)
      ensures !highlighted && NoneHighlighted(regions) ==> NoneHighlighted(next.regions)
    {
      hide Describe, Fits, HunkRegions, ParseHunks, Ordered, Patched, Matches, AllHidden, NoneHighlighted, Oversized, Sized, Refusal, Composes;
      next := new ReviewComposition.Copy(this);
      if !next.started {
        next.started := true;
        next.beforePath, next.afterPath := path, path;
        next.original, next.current := map[], map[];
      }
      assert next.Describes(base, cur);
      err, base', cur' := next.Extend(hunks, differ, hidden, highlighted, base, cur);
    }

    /** Composes one more capture.  It is accepted only if its hunks fit a file the composition
        can be describing, and then the composition describes that file patched; it is refused,
        and nothing changes, only for a reason visible in the capture itself, when no such file
        fits, or when more has to be remembered than the capacity allows. */
    method ApplyWithHighlight(file: ReviewFile, quote: Quote, differ: Differ, hidden: bool, highlighted: bool, ghost base: seq<Line>, ghost cur: seq<Line>)
      returns (err: Option<ComposeError>, ghost base': seq<Line>, ghost cur': seq<Line>)
      requires Valid() && Describes(base, cur) && Matches(differ)
      modifies this
      ensures Valid() && (err.Some? ==> unchanged(this))
      ensures old(Refusal(file, quote)).Some? ==> err == old(Refusal(file, quote))
      ensures err.None? ==> var parsed := ParseHunks(file, quote, true);
                && old(Refusal(file, quote)).None? && parsed.Ok? && Fits(HunkRegions(parsed.value), cur')
                && old(Describes(base', cur')) && Describes(base', Patched(HunkRegions(parsed.value), cur'))
      ensures err.None? ==> Composes(old(Snap()), Snap(), ParseHunks(file, quote, true).value, differ, hidden, highlighted && !hidden, base', cur')
      ensures old(Refusal(file, quote)).None? ==> var parsed := ParseHunks(file, quote, true);
                && parsed.Ok?
                && (Fits(HunkRegions(parsed.value), cur) ==> base' == base && cur' == cur)
                && (Fits(HunkRegions(parsed.value), cur) && err.Some? ==>
                      (err.value == RegionTooLarge || err.value == TooManyLines) && old(Oversized(regions, original, current, parsed.value)))
      ensures err.None? ==> Sized(old(Snap()), Snap(), ParseHunks(file, quote, true).value)
      ensures err.None? ==> started && afterPath == file.afterPath && beforePath == if old(started) then old(beforePath) else file.beforePath
      ensures err.None? ==> if file.beforePath == file.afterPath then pathHidden == old(pathHidden) && pathHighlighted == old(pathHighlighted)
                            else pathHidden == hidden && pathHighlighted == (highlighted && !hidden)
      ensures hidden && AllHidden(old(regions)) ==> AllHidden(regions)
      ensures (hidden || !highlighted) && NoneHighlighted(old(regions)) ==> NoneHighlighted(regions)
    {
      hide Describe, Fits, HunkRegions, ParseHunks, Ordered, Patched, Matches, AllHidden, NoneHighlighted, Oversized, Sized, Refusal, Composes, Snap;
      base', cur' := base, cur;
      var lit := highlighted && !hidden;
      var hunks := Accepted(file, quote);
      if hunks.Err? {
        return Some(hunks.error), base, cur;
      }
      var next;
      err, next, base', cur' := Extended(file.beforePath, hunks.value, differ, hidden, lit, base, cur);
      if err.Some? {
        return;
      }
      Publish(next, file, hidden, lit);
      SameDescribes(next, base', Patched(HunkRegions(hunks.value), cur'));
    }

    // Takes over the extended copy, under the capture's new path.
    method Publish(next: ReviewComposition, file: ReviewFile, hidden: bool, lit: bool)
      requires next != this
      modifies this
      ensures started == next.started && beforePath == next.beforePath && afterPath == file.afterPath && Snap() == next.Snap()
      ensures if file.beforePath == file.afterPath then pathHidden == next.pathHidden && pathHighlighted == next.pathHighlighted
              else pathHidden == hidden && pathHighlighted == lit
    {
      started, beforePath, afterPath := next.started, next.beforePath, file.afterPath;
      pathHidden, pathHighlighted := next.pathHidden, next.pathHighlighted;
      regions, original, current := next.regions, next.original, next.current;
      if file.beforePath != file.afterPath {
        pathHidden := hidden;
        pathHighlighted := lit;
      }
    }

    lemma SameDescribes(next: ReviewComposition, base: seq<Line>, cur: seq<Line>)
      requires Snap() == next.Snap() && next.Describes(base, cur)
      ensures Describes(base, cur) && regions == next.regions
    {
      hide Describe;
    }

    // A region with up to three lines of remembered context before it, none of them shown already.
    method Leading(region: Region, oldEnd: int, newEnd: int, ghost base: seq<Line>, ghost cur: seq<Line>) returns (f: Region)
      requires Knows(original, base) && Knows(current, cur) && Framed(region, region, base, cur)
      requires oldEnd <= region.beforeStart && newEnd <= region.afterStart
      ensures Framed(f, region, base, cur)
      ensures oldEnd <= f.beforeStart && newEnd <= f.afterStart && f.BeforeEnd() == region.BeforeEnd() && f.AfterEnd() == region.AfterEnd()
      ensures var n := region.beforeStart - f.beforeStart;
              && 0 <= n <= 3
              && (n < 3 ==> f.beforeStart <= oldEnd || f.afterStart <= newEnd || Stops(original, current, f.beforeStart - 1, f.afterStart - 1))
    {
      hide Knows, Framed, Stops;
      f := region;
      var n := 0;
      while n < 3
        invariant 0 <= n <= 3 && Framed(f, region, base, cur) && f.beforeStart == region.beforeStart - n
        invariant oldEnd <= f.beforeStart && newEnd <= f.afterStart && f.BeforeEnd() == region.BeforeEnd() && f.AfterEnd() == region.AfterEnd()
      {
        if f.beforeStart <= oldEnd || f.afterStart <= newEnd || Stops(original, current, f.beforeStart - 1, f.afterStart - 1) {
          return;
        }
        NotStopped(original, current, base, cur, f.beforeStart - 1, f.afterStart - 1);
        var line := original[f.beforeStart - 1];
        ghost var g := FramedLeft(f, region, original, current, base, cur, line);
        f := f.(beforeStart := f.beforeStart - 1, afterStart := f.afterStart - 1, before := [line] + f.before, after := [line] + f.after);
        n := n + 1;
      }
    }

    // The same with up to three lines behind, none of them reaching the next region.
    method Trailing(lead: Region, region: Region, next: Option<Region>, ghost base: seq<Line>, ghost cur: seq<Line>) returns (f: Region)
      requires Knows(original, base) && Knows(current, cur) && Framed(lead, region, base, cur)
      requires next.Some? ==> lead.BeforeEnd() <= next.value.beforeStart && lead.AfterEnd() <= next.value.afterStart
      ensures Framed(f, region, base, cur) && f.beforeStart == lead.beforeStart && f.afterStart == lead.afterStart
      ensures next.Some? ==> f.BeforeEnd() <= next.value.beforeStart && f.AfterEnd() <= next.value.afterStart
      ensures var n := f.BeforeEnd() - lead.BeforeEnd();
              && 0 <= n <= 3
              && (n < 3 ==>
                    || (next.Some? && (next.value.beforeStart <= f.BeforeEnd() || next.value.afterStart <= f.AfterEnd()))
                    || Stops(original, current, f.BeforeEnd(), f.AfterEnd()))
    {
      hide Knows, Framed, Stops;
      f := lead;
      var n := 0;
      while n < 3
        invariant 0 <= n <= 3 && Framed(f, region, base, cur) && f.beforeStart == lead.beforeStart && f.afterStart == lead.afterStart
        invariant f.BeforeEnd() == lead.BeforeEnd() + n
        invariant next.Some? ==> f.BeforeEnd() <= next.value.beforeStart && f.AfterEnd() <= next.value.afterStart
      {
        if next.Some? && (f.BeforeEnd() >= next.value.beforeStart || f.AfterEnd() >= next.value.afterStart) {
          return;
        }
        if Stops(original, current, f.BeforeEnd(), f.AfterEnd()) {
          return;
        }
        NotStopped(original, current, base, cur, f.BeforeEnd(), f.AfterEnd());
        var line := original[f.BeforeEnd()];
        ghost var g := FramedRight(f, region, original, current, base, cur, line);
        f := f.(before := f.before + [line], after := f.after + [line]);
        n := n + 1;
      }
    }

    // What every displayed file says about the composition's paths.
    function Header(): ReviewFile
      reads this
    {
      ReviewFile(beforePath, afterPath, "", "", false, false)
    }

    // A changed path with no change to show.
    function PathFiles(quote: Quote): seq<HighlightedFile>
      reads this
    {
      if started && beforePath != afterPath && !pathHidden
      then [HighlightedFile(Header().(diff := RenderedDiff(Header(), quote, [])), pathHighlighted)]
      else []
    }

    /** The visible regions as files, each with its surrounding context: one fragment a region,
        in order and apart, each reading as both files do.  If nothing is shown, a changed path
        is. */
    method FilesWithHighlights(quote: Quote, grouper: Grouper, ghost base: seq<Line>, ghost cur: seq<Line>)
      returns (files: seq<HighlightedFile>, ghost shown: seq<Region>)
      requires Denotes(regions, original, current, base, cur) && Groups(grouper)
      ensures Fragments(shown, Visible(regions), base, cur) && Contextual(shown, regions, |regions|, original, current)
      ensures if shown == [] then files == PathFiles(quote) else Shows(files, Header(), shown, Visible(regions), quote, grouper)
      ensures forall k :: 0 <= k < |files| ==> files[k].file.beforePath == beforePath && files[k].file.afterPath == afterPath
      ensures shown == [] ==> |files| <= 1 && (files != [] <==> started && !pathHidden && beforePath != afterPath) && (files != [] ==> files[0].highlighted == pathHighlighted)
    {
      hide *;
      files, shown := [], [];
      var oldEnd, newEnd := 0, 0;
      ghost var header := Header();
      DenotesCarries(regions, original, current, base, cur);
      ShowingNone(header, regions, original, current, base, cur, quote, grouper);
      var i := 0;
      while i < |regions|
        invariant 0 <= i <= |regions|
        invariant Showing(files, header, shown, regions, i, (oldEnd, newEnd), original, current, base, cur, quote, grouper)
      {
        var region := regions[i];
        if region.hidden {
          ShowingSkip(files, header, shown, regions, i, (oldEnd, newEnd), original, current, base, cur, quote, grouper);
          i := i + 1;
          continue;
        }
        ShowingParts(files, header, shown, regions, i, (oldEnd, newEnd), original, current, base, cur, quote, grouper);
        var f := Fragment(i, oldEnd, newEnd, shown, base, cur);
        ShowingAdd(files, header, shown, regions, i, (oldEnd, newEnd), f, original, current, base, cur, quote, grouper);
        oldEnd, newEnd := f.BeforeEnd(), f.AfterEnd();
        files := files + [HighlightedFile(FragmentFile(Header(), f, quote, grouper), region.highlighted)];
        shown := shown + [f];
        i := i + 1;
      }
      ShowingParts(files, header, shown, regions, i, (oldEnd, newEnd), original, current, base, cur, quote, grouper);
      if files == [] {
        files := PathFiles(quote);
      }
      TitlesAre(files, shown, Visible(regions), quote, grouper);
    }

    // What is shown goes by the composition's paths; a path is shown alone exactly if it changed, visibly.
    lemma TitlesAre(files: seq<HighlightedFile>, shown: seq<Region>, visible: seq<Region>, quote: Quote, grouper: Grouper)
      requires Groups(grouper)
      requires if shown == [] then files == PathFiles(quote) else Shows(files, Header(), shown, visible, quote, grouper)
      ensures forall k :: 0 <= k < |files| ==> files[k].file.beforePath == beforePath && files[k].file.afterPath == afterPath
      ensures shown == [] ==> |files| <= 1 && (files != [] <==> started && !pathHidden && beforePath != afterPath) && (files != [] ==> files[0].highlighted == pathHighlighted)
    {
      hide Groups, FragmentHunks, RenderedDiff;
    }

    method Fragment(i: nat, oldEnd: int, newEnd: int, ghost shown: seq<Region>, ghost base: seq<Line>, ghost cur: seq<Line>) returns (f: Region)
      requires Denotes(regions, original, current, base, cur) && i < |regions| && FragmentsTo(shown, regions, i, base, cur, oldEnd, newEnd)
      ensures Framed(f, regions[i], base, cur) && oldEnd <= f.beforeStart && newEnd <= f.afterStart
      ensures i + 1 < |regions| ==> f.BeforeEnd() <= regions[i + 1].beforeStart && f.AfterEnd() <= regions[i + 1].afterStart
      ensures Surrounds(f, regions[i], (oldEnd, newEnd), if i + 1 < |regions| then Some(regions[i + 1]) else None, original, current)
    {
      hide *;
      FragmentFacts(i, oldEnd, newEnd, shown, base, cur);
      ghost var lead;
      f := Leading(regions[i], oldEnd, newEnd, base, cur);
      lead := f;
      f := Trailing(f, regions[i], if i + 1 < |regions| then Some(regions[i + 1]) else None, base, cur);
      MakeSurrounds(f, lead, regions[i], (oldEnd, newEnd), if i + 1 < |regions| then Some(regions[i + 1]) else None, original, current);
    }

    lemma FragmentFacts(i: nat, oldEnd: int, newEnd: int, shown: seq<Region>, base: seq<Line>, cur: seq<Line>)
      requires Denotes(regions, original, current, base, cur) && i < |regions| && FragmentsTo(shown, regions, i, base, cur, oldEnd, newEnd)
      ensures Knows(original, base) && Knows(current, cur) && Framed(regions[i], regions[i], base, cur)
      ensures oldEnd <= regions[i].beforeStart && newEnd <= regions[i].afterStart
      ensures i + 1 < |regions| ==> regions[i].BeforeEnd() <= regions[i + 1].beforeStart && regions[i].AfterEnd() <= regions[i + 1].afterStart
    {
      FramedSelf(regions, base, cur, i);
      CarriesInOrder(regions, base, cur);
      hide Fragments, Framed, Carries, Knows, Visible;
    }

    /** The display as a patch.  Adjacent regions are first joined, which changes neither the files
        the composition describes nor what is shown. */
    method Files(quote: Quote, grouper: Grouper, ghost base: seq<Line>, ghost cur: seq<Line>)
      returns (files: seq<HighlightedFile>, ghost shown: seq<Region>)
      requires Denotes(regions, original, current, base, cur) && Groups(grouper)
      ensures var joined := JoinedAll(regions);
              && SameShown(joined, regions, base, cur) && NoneAdjacent(joined)
              && Fragments(shown, Visible(joined), base, cur) && Contextual(shown, joined, |joined|, original, current)
              && if shown == [] then files == PathFiles(quote) else Shows(files, Header(), shown, Visible(joined), quote, grouper)
      ensures forall k :: 0 <= k < |files| ==> files[k].file.beforePath == beforePath && files[k].file.afterPath == afterPath
      ensures shown == [] ==> |files| <= 1 && (files != [] <==> started && !pathHidden && beforePath != afterPath) && (files != [] ==> files[0].highlighted == pathHighlighted)
    {
      var projection := new ReviewComposition.Copy(this);
      projection.regions := Coalesced(regions, base, cur);
      hide Knows, Carries, Groups, Fragments, Visible, Shows, NoneAdjacent, SameShown, JoinedAll;
      SameCarries(JoinedAll(regions), regions, base, cur);
      files, shown := projection.FilesWithHighlights(quote, grouper, base, cur);
    }

    static method Coalesced(regions: seq<Region>, ghost base: seq<Line>, ghost cur: seq<Line>) returns (joined: seq<Region>)
      requires Carries(regions, base, cur)
      ensures joined == JoinedAll(regions) && SameShown(joined, regions, base, cur) && NoneAdjacent(joined)
    {
      joined := [];
      var i := 0;
      hide *;
      CoalesceStart(regions, base, cur);
      while i < |regions|
        invariant 0 <= i <= |regions| && Coalescing(joined, regions, i, base, cur)
      {
        var region := regions[i];
        var n := |joined|;
        CoalesceStep(joined, regions, i, base, cur);
        JoinMoreIs(joined, region);
        if n > 0 && Adjacent(joined[n - 1], region) {
          joined := joined[..n - 1] + [Joined(joined[n - 1], region)];
        } else {
          joined := joined + [region];
        }
        i := i + 1;
      }
      CoalesceEnd(joined, regions, base, cur);
    }

    /** Whether the content agrees with every remembered line of the newer file; it does if the
        composition can be describing it. */
    method Consistent(content: string) returns (ok: bool)
      ensures ok <==> Knows(current, ReviewLines(content))
      ensures forall base: seq<Line> :: Describes(base, ReviewLines(content)) ==> ok
    {
      hide Run, Carries, Captured, Sound, ReviewLines;
      var lines := ReviewLines(content);
      var rest := current.Keys;
      while rest != {}
        invariant rest <= current.Keys
        invariant forall p :: p in current && p !in rest ==> 0 <= p < |lines| && lines[p] == current[p]
        decreases |rest|
      {
        var position := Pick(rest);
        if position < 0 || position >= |lines| || lines[position] != current[position] {
          return false;
        }
        rest := rest - {position};
      }
      return true;
    }
  }
}
