/** What composing one more capture makes of the regions between the file as first seen and as
    last seen. */
module Composing {
  import opened Text
  import opened Regions
  import opened RegionEdits
  import opened Review
  import opened Matcher
  import opened Recall
  import opened CompositionFacts
  import opened Learning
  import opened Capacity
  import opened ReviewText
  import opened Rediff

  // The state of a composition.
  datatype Snapshot = Snapshot(regions: seq<Region>, original: map<int, Line>, current: map<int, Line>)

  // What is remembered after a capture is what was learned, and the growth of its edits, and fits.
  ghost predicate Sized(was: Snapshot, now: Snapshot, hunks: seq<Hunk>)
  {
    && |now.original| <= |LearnedOriginal(was.regions, was.original, hunks)| && |now.original| <= MAX_ROWS
    && |now.current| <= LengthAfter(|LearnedCurrent(was.current, hunks)|, ToEdits(HunkEdits(hunks)), 0) && |now.current| <= MAX_ROWS
  }

  lemma MakeSized(was: Snapshot, now: Snapshot, hunks: seq<Hunk>)
    requires |now.original| <= |LearnedOriginal(was.regions, was.original, hunks)| && |now.original| <= MAX_ROWS
    requires |now.current| <= LengthAfter(|LearnedCurrent(was.current, hunks)|, ToEdits(HunkEdits(hunks)), 0) && |now.current| <= MAX_ROWS
    ensures Sized(was, now, hunks)
  {
    hide LearnedOriginal, LearnedCurrent, LengthAfter;
  }

  // ----- One edit

  // The stretch an edit rewrites, in the older file: where it starts, and where it ends.
  function StretchStart(rs: seq<Region>, edit: Edit, base: seq<Line>, cur: seq<Line>, lo: nat, hi: nat): int
    requires lo <= hi <= |rs|
  {
    Left(rs, edit.start, lo, hi) + if lo < |rs| then rs[lo].beforeStart - rs[lo].afterStart else |base| - |cur|
  }

  function StretchEnd(rs: seq<Region>, edit: Edit, base: seq<Line>, cur: seq<Line>, lo: nat, hi: nat): int
    requires lo <= hi <= |rs|
  {
    StretchStart(rs, edit, base, cur, lo, hi) + Right(rs, edit.End(), lo, hi) - Left(rs, edit.start, lo, hi) - Growth(rs[lo..hi])
  }

  /** The net region says how the stretch's text in the older file becomes its edited text. */
  ghost predicate NetOf(rs: seq<Region>, edit: Edit, base: seq<Line>, cur: seq<Line>, lo: nat, hi: nat, net: seq<Region>)
  {
    && lo <= hi <= |rs|
    && var left, right := Left(rs, edit.start, lo, hi), Right(rs, edit.End(), lo, hi);
       var m, m2 := StretchStart(rs, edit, base, cur, lo, hi), StretchEnd(rs, edit, base, cur, lo, hi);
       && 0 <= m <= m2 <= |base| && 0 <= left <= edit.start <= edit.End() <= right <= |cur|
       && Net(net, base, cur, edit, left, right, m, m2)
  }

  lemma MakeNetOf(rs: seq<Region>, edit: Edit, base: seq<Line>, cur: seq<Line>, lo: nat, hi: nat, net: seq<Region>, left: int, right: int, m: int, m2: int)
    requires lo <= hi <= |rs| && left == Left(rs, edit.start, lo, hi) && right == Right(rs, edit.End(), lo, hi)
    requires m == StretchStart(rs, edit, base, cur, lo, hi) && Run(rs[lo..hi], base, cur, m, left, m2, right)
    requires 0 <= m <= m2 <= |base| && 0 <= left <= edit.start <= edit.End() <= right <= |cur|
    requires Net(net, base, cur, edit, left, right, m, m2)
    ensures NetOf(rs, edit, base, cur, lo, hi, net)
  {
    RunGrowth(rs[lo..hi], base, cur, m, left, m2, right);
    hide Run, Left, Right, Net, StretchStart;
  }

  // The regions, what is remembered of the newer file, and that file.
  datatype Working = Working(regions: seq<Region>, current: map<int, Line>, text: seq<Line>)

  /** One edit applied: the regions it overlaps give way to one net region, and what is behind
      the edit moves. */
  ghost predicate ReplacedBy(was: Working, now: Working, edit: Edit, hidden: bool, highlighted: bool, base: seq<Line>)
  {
    && 0 <= edit.start <= edit.End() <= |was.text| && now.text == Spliced(was.text, edit.start, edit.End(), edit.after)
    && Remembered(was.current, now.current, edit)
    && exists lo, hi, net :: Replaces(was, now, edit, hidden, highlighted, base, lo, hi, net)
  }

  ghost predicate Replaces(was: Working, now: Working, edit: Edit, hidden: bool, highlighted: bool, base: seq<Line>, lo: nat, hi: nat, net: seq<Region>)
  {
    Rewritten(was.regions, now.regions, edit, hidden, highlighted, lo, hi, net) && NetOf(was.regions, edit, base, was.text, lo, hi, net)
  }

  /** The edits from the i-th on applied, the last one first. */
  ghost predicate Applied(was: Working, now: Working, edits: seq<Edit>, i: nat, hidden: bool, highlighted: bool, base: seq<Line>)
    requires i <= |edits|
    decreases |edits| - i
  {
    if i == |edits| then now == was
    else exists mid :: Applied(was, mid, edits, i + 1, hidden, highlighted, base) && ReplacedBy(mid, now, edits[i], hidden, highlighted, base)
  }

  lemma AppliedNone(was: Working, edits: seq<Edit>, hidden: bool, highlighted: bool, base: seq<Line>)
    ensures Applied(was, was, edits, |edits|, hidden, highlighted, base)
  {
  }

  lemma AppliedNext(was: Working, mid: Working, now: Working, edits: seq<Edit>, i: nat, hidden: bool, highlighted: bool, base: seq<Line>, lo: nat, hi: nat, net: seq<Region>)
    requires i < |edits| && Applied(was, mid, edits, i + 1, hidden, highlighted, base)
    requires var e := edits[i];
             && 0 <= e.start <= e.End() <= |mid.text| && now.text == Spliced(mid.text, e.start, e.End(), e.after)
             && Remembered(mid.current, now.current, e)
    requires Rewritten(mid.regions, now.regions, edits[i], hidden, highlighted, lo, hi, net) && NetOf(mid.regions, edits[i], base, mid.text, lo, hi, net)
    ensures Applied(was, now, edits, i, hidden, highlighted, base)
  {
    hide Rewritten, NetOf, Remembered;
    assert Replaces(mid, now, edits[i], hidden, highlighted, base, lo, hi, net);
    assert ReplacedBy(mid, now, edits[i], hidden, highlighted, base);
    hide ReplacedBy;
  }

  /** The edits of rs from the i-th on are applied, and the first i are still to come. */
  ghost predicate EditsDone(was: Working, now: Working, rs: seq<Region>, i: nat, hidden: bool, highlighted: bool, base: seq<Line>, goal: seq<Line>)
  {
    && i <= |rs| && AtEdit(rs, i, now.current, now.text, goal) && |now.current| == LengthAfter(|was.current|, ToEdits(rs), i)
    && Applied(was, now, ToEdits(rs), i, hidden, highlighted, base)
    && (hidden && AllHidden(was.regions) ==> AllHidden(now.regions))
    && (!highlighted && NoneHighlighted(was.regions) ==> NoneHighlighted(now.regions))
  }

  lemma NoneDone(was: Working, rs: seq<Region>, hidden: bool, highlighted: bool, base: seq<Line>, goal: seq<Line>)
    requires Carries(rs, was.text, goal) && EditsIn(ToEdits(rs), |rs|, was.current)
    ensures EditsDone(was, was, rs, |rs|, hidden, highlighted, base, goal)
  {
    EditsStart(rs, was.current, was.text, goal);
    AppliedNone(was, ToEdits(rs), hidden, highlighted, base);
    hide Carries, EditsIn, AtEdit, AllHidden, NoneHighlighted, Applied;
  }

  lemma EditFacts(was: Working, mid: Working, rs: seq<Region>, i: nat, hidden: bool, highlighted: bool, base: seq<Line>, goal: seq<Line>) returns (next: seq<Line>)
    requires i < |rs| && EditsDone(was, mid, rs, i + 1, hidden, highlighted, base, goal)
    ensures var e := ToEdits(rs)[i];
            && 0 <= e.start <= e.End() <= |mid.text| && EditFits(e, mid.text) && AllIn(mid.current, e.start, e.End())
            && next == Spliced(mid.text, e.start, e.End(), e.after)
            && (|mid.current| > MAX_ROWS || |mid.current| + e.Shift() > MAX_ROWS ==> TooLong(|was.current|, ToEdits(rs)))
  {
    hide AtEdit, Applied, AllHidden, NoneHighlighted, TooLong, AllIn, Remembered, ToEdits;
    next := EditsStep(rs, i, mid.current, mid.text, goal);
    EditBounds(ToEdits(rs)[i], mid.text);
    LengthNext(|was.current|, ToEdits(rs), i);
  }

  lemma EditDone(was: Working, mid: Working, now: Working, rs: seq<Region>, i: nat, hidden: bool, highlighted: bool, base: seq<Line>, goal: seq<Line>, lo: nat, hi: nat, net: seq<Region>)
    requires i < |rs| && EditsDone(was, mid, rs, i + 1, hidden, highlighted, base, goal)
    requires var e := ToEdits(rs)[i];
             0 <= e.start <= e.End() <= |mid.text| && now.text == Spliced(mid.text, e.start, e.End(), e.after) && Remembered(mid.current, now.current, e)
    requires Rewritten(mid.regions, now.regions, ToEdits(rs)[i], hidden, highlighted, lo, hi, net) && NetOf(mid.regions, ToEdits(rs)[i], base, mid.text, lo, hi, net)
    ensures EditsDone(was, now, rs, i, hidden, highlighted, base, goal)
  {
    hide AtEdit, Applied, AllHidden, NoneHighlighted, Remembered, Rewritten, NetOf, ToEdits;
    var next := EditsStep(rs, i, mid.current, mid.text, goal);
    LengthNext(|was.current|, ToEdits(rs), i);
    UpdatedSize(mid.current, now.current, ToEdits(rs)[i]);
    RewrittenFlags(mid.regions, now.regions, ToEdits(rs)[i], hidden, highlighted, lo, hi, net);
    AppliedNext(was, mid, now, ToEdits(rs), i, hidden, highlighted, base, lo, hi, net);
  }

  lemma EditFlags(was: Working, now: Working, rs: seq<Region>, i: nat, hidden: bool, highlighted: bool, base: seq<Line>, goal: seq<Line>)
    requires EditsDone(was, now, rs, i, hidden, highlighted, base, goal)
    ensures hidden && AllHidden(was.regions) ==> AllHidden(now.regions)
    ensures !highlighted && NoneHighlighted(was.regions) ==> NoneHighlighted(now.regions)
  {
    hide AtEdit, Applied, AllHidden, NoneHighlighted;
  }

  lemma AllDone(was: Working, now: Working, rs: seq<Region>, hidden: bool, highlighted: bool, base: seq<Line>, goal: seq<Line>)
    requires EditsDone(was, now, rs, 0, hidden, highlighted, base, goal)
    ensures now.text == goal && Applied(was, now, ToEdits(rs), 0, hidden, highlighted, base) && |now.current| == LengthAfter(|was.current|, ToEdits(rs), 0)
    ensures hidden && AllHidden(was.regions) ==> AllHidden(now.regions)
    ensures !highlighted && NoneHighlighted(was.regions) ==> NoneHighlighted(now.regions)
  {
    hide Applied, AllHidden, NoneHighlighted;
    EditsEnd(rs, now.current, now.text, goal);
  }

  // ----- Learning

  // The original of every line from `from` to `to` of the newer file is remembered, unless a region covers it.
  ghost predicate Tracked(rs: seq<Region>, original: map<int, Line>, from: int, to: int)
  {
    forall p, passed: nat :: from <= p < to && Walked(rs, p, passed, true) ==> p - Growth(rs[..passed]) in original
  }

  lemma TrackedKept(rs: seq<Region>, was: map<int, Line>, now: map<int, Line>, from: int, to: int)
    requires Narrower(was, now) && Tracked(rs, was, from, to)
    ensures Tracked(rs, now, from, to)
  {
    hide Walked, Growth;
  }

  lemma TrackedNext(rs: seq<Region>, original: map<int, Line>, from: int, to: int)
    requires Tracked(rs, original, from, to) && Tracked(rs, original, to, to + 1)
    ensures Tracked(rs, original, from, to + 1)
  {
    hide Walked, Growth;
  }

  lemma TrackedOne(rs: seq<Region>, original: map<int, Line>, p: int, passed: nat, ok: bool)
    requires InOrder(rs) && Walked(rs, p, passed, ok) && (ok ==> p - Growth(rs[..passed]) in original)
    ensures Tracked(rs, original, p, p + 1)
  {
    forall q, n: nat | p <= q < p + 1 && Walked(rs, q, n, true) ensures q - Growth(rs[..n]) in original {
      WalkedOnce(rs, p, passed, ok, n);
    }
  }

  // The originals of the first h hunks' old sides are remembered.
  ghost predicate TrackedHunks(rs: seq<Region>, hunks: seq<Hunk>, h: nat, original: map<int, Line>)
    requires h <= |hunks|
  {
    forall m :: 0 <= m < h ==> Tracked(rs, original, hunks[m].beforeStart, hunks[m].beforeStart + |OldSide(hunks[m].rows)|)
  }

  lemma TrackedHunksKept(rs: seq<Region>, hunks: seq<Hunk>, h: nat, was: map<int, Line>, now: map<int, Line>)
    requires h <= |hunks| && Narrower(was, now) && TrackedHunks(rs, hunks, h, was)
    ensures TrackedHunks(rs, hunks, h, now)
  {
    hide Tracked, Narrower;
    forall m | 0 <= m < h ensures Tracked(rs, now, hunks[m].beforeStart, hunks[m].beforeStart + |OldSide(hunks[m].rows)|) {
      TrackedKept(rs, was, now, hunks[m].beforeStart, hunks[m].beforeStart + |OldSide(hunks[m].rows)|);
    }
  }

  // ----- A whole capture

  /** What composing a capture makes of a composition of `base` and `cur`: its old side is learned,
      its edits are applied, and the regions re-diffed. */
  ghost predicate Composes(was: Snapshot, now: Snapshot, hunks: seq<Hunk>, differ: Differ, hidden: bool, highlighted: bool, base: seq<Line>, cur: seq<Line>)
  {
    exists known, prior :: ComposesBy(was, now, hunks, differ, hidden, highlighted, base, cur, known, prior)
  }

  ghost predicate ComposesBy(was: Snapshot, now: Snapshot, hunks: seq<Hunk>, differ: Differ, hidden: bool, highlighted: bool, base: seq<Line>, cur: seq<Line>,
                             known: map<int, Line>, prior: seq<Region>)
  {
    var edits := ToEdits(HunkEdits(hunks));
    && Fits(HunkRegions(hunks), cur)
    && Narrower(was.original, now.original) && Narrower(was.current, known) && Learned(hunks, |hunks|, known, cur) && TrackedHunks(was.regions, hunks, |hunks|, now.original)
    && Applied(Working(was.regions, known, cur), Working(prior, now.current, Patched(HunkRegions(hunks), cur)), edits, 0, hidden, highlighted, base)
    && now.regions == RediffedFrom(differ, prior, now.original, now.current, base, Patched(HunkRegions(hunks), cur), 0)
  }

  lemma MakeComposes(was: Snapshot, now: Snapshot, hunks: seq<Hunk>, differ: Differ, hidden: bool, highlighted: bool, base: seq<Line>, cur: seq<Line>,
                     known: map<int, Line>, prior: seq<Region>)
    requires Fits(HunkRegions(hunks), cur)
    requires Narrower(was.original, now.original) && Narrower(was.current, known) && Learned(hunks, |hunks|, known, cur) && TrackedHunks(was.regions, hunks, |hunks|, now.original)
    requires Applied(Working(was.regions, known, cur), Working(prior, now.current, Patched(HunkRegions(hunks), cur)), ToEdits(HunkEdits(hunks)), 0, hidden, highlighted, base)
    requires now.regions == RediffedFrom(differ, prior, now.original, now.current, base, Patched(HunkRegions(hunks), cur), 0)
    ensures Composes(was, now, hunks, differ, hidden, highlighted, base, cur)
  {
    hide Fits, Narrower, Learned, TrackedHunks, Applied, Patched, HunkRegions, ToEdits, HunkEdits, RediffedFrom;
    assert ComposesBy(was, now, hunks, differ, hidden, highlighted, base, cur, known, prior);
  }

  lemma EditBounds(e: Edit, text: seq<Line>)
    requires EditFits(e, text) && 0 <= e.start
    ensures 0 <= e.start <= e.End() <= |text|
  {
  }

  lemma LocatedStart(rs: seq<Region>, current: map<int, Line>, base: seq<Line>, cur: seq<Line>, edit: Edit, left: int, right: int, originalStart: int, lo: nat, hi: nat)
    requires Located(rs, current, base, cur, edit, left, right, originalStart, lo, hi)
    ensures lo <= hi <= |rs| && originalStart == StretchStart(rs, edit, base, cur, lo, hi)
  {
    hide Left, Right, AllIn;
  }

  // ----- When nothing is hidden

  lemma RewrittenVisible(was: seq<Region>, now: seq<Region>, edit: Edit, highlighted: bool, lo: nat, hi: nat, net: seq<Region>)
    requires Rewritten(was, now, edit, false, highlighted, lo, hi, net) && NoneHidden(was)
    ensures NoneHidden(now)
  {
    CutsSpan(was, edit.start, edit.End(), lo, hi);
    hide Cuts;
    assert NoneHidden(was[..lo]) && NoneHidden(net) && NoneHidden(Shift(was[hi..], edit.Shift()));
    HiddenJoin(was[..lo], net);
    HiddenJoin(was[..lo] + net, Shift(was[hi..], edit.Shift()));
  }

  lemma {:induction false} AppliedVisible(was: Working, now: Working, edits: seq<Edit>, i: nat, highlighted: bool, base: seq<Line>)
    requires i <= |edits| && Applied(was, now, edits, i, false, highlighted, base) && NoneHidden(was.regions)
    ensures NoneHidden(now.regions)
    decreases |edits| - i
  {
    hide ReplacedBy, NoneHidden;
    if i < |edits| {
      var mid :| Applied(was, mid, edits, i + 1, false, highlighted, base) && ReplacedBy(mid, now, edits[i], false, highlighted, base);
      AppliedVisible(was, mid, edits, i + 1, highlighted, base);
      ReplacedVisible(mid, now, edits[i], highlighted, base);
    }
  }

  lemma ReplacedVisible(was: Working, now: Working, edit: Edit, highlighted: bool, base: seq<Line>)
    requires ReplacedBy(was, now, edit, false, highlighted, base) && NoneHidden(was.regions)
    ensures NoneHidden(now.regions)
  {
    hide Rewritten, NetOf, NoneHidden, Remembered;
    var lo, hi, net :| Replaces(was, now, edit, false, highlighted, base, lo, hi, net);
    RewrittenVisible(was.regions, now.regions, edit, highlighted, lo, hi, net);
  }

  /** A capture that is not hidden, composed where nothing is, leaves nothing hidden exactly if
      comparing anew moves no change between the regions. */
  lemma VisibleCapture(was: Snapshot, now: Snapshot, hunks: seq<Hunk>, differ: Differ, highlighted: bool, base: seq<Line>, cur: seq<Line>, known: map<int, Line>, prior: seq<Region>)
    requires ComposesBy(was, now, hunks, differ, false, highlighted, base, cur, known, prior) && NoneHidden(was.regions)
    ensures NoneHidden(now.regions) <==> NoStray(differ, prior, now.original, now.current, base, Patched(HunkRegions(hunks), cur), 0)
  {
    var goal := Patched(HunkRegions(hunks), cur);
    hide Applied, NoneHidden, RediffedFrom, NoStray, HunkRegions, Learned, TrackedHunks;
    AppliedVisible(Working(was.regions, known, cur), Working(prior, now.current, goal), ToEdits(HunkEdits(hunks)), 0, highlighted, base);
    NothingHides(differ, prior, now.original, now.current, base, goal, 0);
  }

  // ----- One row

  lemma RowEnds(c: Snapshot, hunks: seq<Hunk>, h: nat, edits: seq<Edit>, open: bool, position: int, base: seq<Line>, cur: seq<Line>)
    requires h < |hunks| && RowAt(c, hunks, h, |hunks[h].rows|, edits, open, position, base, cur)
    ensures Describe(c.regions, c.original, c.current, base, cur) && Learned(hunks, h + 1, c.current, cur)
    ensures edits == ToEdits(HunkEditsUpTo(hunks, h + 1)) && TrackedHunks(c.regions, hunks, h + 1, c.original)
  {
    hide Describe, Learned, ReadsAs, Tracked, ToEdits, EditsUpTo, HunkEditsUpTo, OldUpTo;
    HunkLearned(hunks, h, c.current, cur, edits);
  }

  // Between rows n - 1 and n of hunk h, its edits so far listed.
  ghost predicate RowAt(c: Snapshot, hunks: seq<Hunk>, h: nat, n: nat, edits: seq<Edit>, open: bool, position: int, base: seq<Line>, cur: seq<Line>)
    requires h < |hunks| && n <= |hunks[h].rows|
  {
    var rows := hunks[h].rows;
    && Describe(c.regions, c.original, c.current, base, cur) && Learned(hunks, h, c.current, cur)
    && 0 <= position <= |cur| && position == hunks[h].beforeStart + |OldUpTo(rows, n)|
    && ReadsAs(c.current, hunks[h].beforeStart, OldUpTo(rows, n))
    && edits == ToEdits(HunkEditsUpTo(hunks, h)) + ToEdits(EditsUpTo(rows, n, hunks[h].beforeStart, hunks[h].afterStart))
    && open == EndsChanged(rows, n)
    && TrackedHunks(c.regions, hunks, h, c.original) && Tracked(c.regions, c.original, hunks[h].beforeStart, position)
  }

  lemma RowFacts(c: Snapshot, hunks: seq<Hunk>, h: nat, n: nat, edits: seq<Edit>, open: bool, position: int, base: seq<Line>, cur: seq<Line>)
    requires h < |hunks| && n < |hunks[h].rows| && RowAt(c, hunks, h, n, edits, open, position, base, cur)
    ensures Describe(c.regions, c.original, c.current, base, cur) && 0 <= position <= |cur| && (open ==> edits != [])
    ensures Reads(cur, hunks[h].beforeStart, OldSide(hunks[h].rows)) && hunks[h].rows[n].kind != '+' ==> position < |cur| && cur[position] == hunks[h].rows[n].text
  {
    RowStep(hunks[h].rows, n, hunks[h].beforeStart, hunks[h].afterStart, ToEdits(HunkEditsUpTo(hunks, h)));
    hide Describe, Learned, ReadsAs, TrackedHunks, Tracked, ToEdits, EditsUpTo, OldUpTo;
    if Reads(cur, hunks[h].beforeStart, OldSide(hunks[h].rows)) && hunks[h].rows[n].kind != '+' {
      RowReads(hunks[h].rows, n, hunks[h].beforeStart, cur);
    }
  }

  lemma RowPosition(c: Snapshot, hunks: seq<Hunk>, h: nat, n: nat, edits: seq<Edit>, open: bool, position: int, base: seq<Line>, cur: seq<Line>)
    requires h < |hunks| && n < |hunks[h].rows| && RowAt(c, hunks, h, n, edits, open, position, base, cur)
    ensures position == hunks[h].beforeStart + |OldUpTo(hunks[h].rows, n)|
  {
    hide Describe, Learned, ReadsAs, Tracked, TrackedHunks, ToEdits, HunkEditsUpTo, EditsUpTo, OldUpTo;
  }

  lemma RowAdded(c: Snapshot, hunks: seq<Hunk>, h: nat, n: nat, edits: seq<Edit>, open: bool, position: int, base: seq<Line>, cur: seq<Line>)
    requires h < |hunks| && n < |hunks[h].rows| && RowAt(c, hunks, h, n, edits, open, position, base, cur) && hunks[h].rows[n].kind == '+'
    ensures (open ==> edits != []) && RowAt(c, hunks, h, n + 1, AddToEdits(edits, hunks[h].rows[n], open, position), true, position, base, cur)
  {
    RowStep(hunks[h].rows, n, hunks[h].beforeStart, hunks[h].afterStart, ToEdits(HunkEditsUpTo(hunks, h)));
    hide Describe, Learned, ReadsAs, TrackedHunks, Tracked, ToEdits, EditsUpTo, OldUpTo, AddToEdits, HunkEditsUpTo;
  }

  // A row of text, learned at its position.
  lemma RowKnown(was: Snapshot, now: Snapshot, hunks: seq<Hunk>, h: nat, n: nat, edits: seq<Edit>, open: bool, position: int,
                 base: seq<Line>, cur: seq<Line>, base': seq<Line>, cur': seq<Line>)
    requires h < |hunks| && n < |hunks[h].rows| && Ordered(hunks, true) && RowAt(was, hunks, h, n, edits, open, position, base, cur)
    requires var row := hunks[h].rows[n];
             row.kind != '+' && now.regions == was.regions && now.current == was.current[position := row.text] && Narrower(was.original, now.original)
    requires Tracked(now.regions, now.original, position, position + 1) && Describe(now.regions, now.original, now.current, base', cur')
    requires |cur| <= |cur'| && position < |cur'|
    ensures (open ==> edits != []) && RowAt(now, hunks, h, n + 1, AddToEdits(edits, hunks[h].rows[n], open, position), hunks[h].rows[n].kind != ' ', position + 1, base', cur')
  {
    hide *;
    var rows, b := hunks[h].rows, hunks[h].beforeStart;
    RowParts(was, hunks, h, n, edits, open, position, base, cur);
    RowStep(rows, n, b, hunks[h].afterStart, ToEdits(HunkEditsUpTo(hunks, h)));
    RowKept(hunks, h, n, was.current, cur, cur', position);
    TrackedHunksKept(was.regions, hunks, h, was.original, now.original);
    TrackedKept(was.regions, was.original, now.original, b, position);
    TrackedNext(was.regions, now.original, b, position);
    MakeRow(now, hunks, h, n + 1, AddToEdits(edits, rows[n], open, position), rows[n].kind != ' ', position + 1, base', cur');
  }

  lemma RowParts(c: Snapshot, hunks: seq<Hunk>, h: nat, n: nat, edits: seq<Edit>, open: bool, position: int, base: seq<Line>, cur: seq<Line>)
    requires h < |hunks| && n <= |hunks[h].rows| && RowAt(c, hunks, h, n, edits, open, position, base, cur)
    ensures Describe(c.regions, c.original, c.current, base, cur) && Learned(hunks, h, c.current, cur)
    ensures 0 <= position <= |cur| && position == hunks[h].beforeStart + |OldUpTo(hunks[h].rows, n)|
    ensures ReadsAs(c.current, hunks[h].beforeStart, OldUpTo(hunks[h].rows, n))
    ensures edits == ToEdits(HunkEditsUpTo(hunks, h)) + ToEdits(EditsUpTo(hunks[h].rows, n, hunks[h].beforeStart, hunks[h].afterStart))
    ensures open == EndsChanged(hunks[h].rows, n)
    ensures TrackedHunks(c.regions, hunks, h, c.original) && Tracked(c.regions, c.original, hunks[h].beforeStart, position)
  {
    hide Describe, Learned, ReadsAs, TrackedHunks, Tracked, ToEdits, EditsUpTo, OldUpTo, HunkEditsUpTo, EndsChanged;
  }

  lemma MakeRow(c: Snapshot, hunks: seq<Hunk>, h: nat, n: nat, edits: seq<Edit>, open: bool, position: int, base: seq<Line>, cur: seq<Line>)
    requires h < |hunks| && n <= |hunks[h].rows|
    requires Describe(c.regions, c.original, c.current, base, cur) && Learned(hunks, h, c.current, cur)
    requires 0 <= position <= |cur| && position == hunks[h].beforeStart + |OldUpTo(hunks[h].rows, n)|
    requires ReadsAs(c.current, hunks[h].beforeStart, OldUpTo(hunks[h].rows, n))
    requires edits == ToEdits(HunkEditsUpTo(hunks, h)) + ToEdits(EditsUpTo(hunks[h].rows, n, hunks[h].beforeStart, hunks[h].afterStart))
    requires open == EndsChanged(hunks[h].rows, n)
    requires TrackedHunks(c.regions, hunks, h, c.original) && Tracked(c.regions, c.original, hunks[h].beforeStart, position)
    ensures RowAt(c, hunks, h, n, edits, open, position, base, cur)
  {
    hide Describe, Learned, ReadsAs, TrackedHunks, Tracked, ToEdits, EditsUpTo, OldUpTo, HunkEditsUpTo, EndsChanged;
  }

  lemma TextRemembered(rs: seq<Region>, original: map<int, Line>, current: map<int, Line>, base: seq<Line>, cur: seq<Line>, position: int, text: Line)
    requires Describe(rs, original, current, base, cur) && 0 <= position < |cur| && cur[position] == text
    ensures position in current ==> current[position] == text
  {
    hide Carries, Sound, Captured;
  }

  lemma OriginalRemembered(rs: seq<Region>, original: map<int, Line>, current: map<int, Line>, base: seq<Line>, cur: seq<Line>, position: int, text: Line, passed: nat, o: int)
    requires Describe(rs, original, current, base, cur) && 0 <= position < |cur| && cur[position] == text
    requires Walked(rs, position, passed, true) && o == position - Growth(rs[..passed])
    ensures o in original ==> original[o] == text
  {
    hide Sound, Captured, Carries;
    var _ := OriginalText(rs, base, cur, passed, position);
  }

  lemma RowNarrower(original: map<int, Line>, current: map<int, Line>, ok: bool, o: int, position: int, text: Line)
    requires (position in current ==> current[position] == text) && (ok && o in original ==> original[o] == text)
    ensures Narrower(current, current[position := text])
    ensures Narrower(original, Noted(original, ok, o, text)) && Noted(original, ok, o, text) == if ok then original[o := text] else original
  {
  }

  lemma DescribeOrder(rs: seq<Region>, original: map<int, Line>, current: map<int, Line>, base: seq<Line>, cur: seq<Line>)
    requires Describe(rs, original, current, base, cur)
    ensures InOrder(rs)
  {
    hide Sound, Captured, Knows, Carries;
    CarriesInOrder(rs, base, cur);
  }
}
