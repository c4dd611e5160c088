/** Finding where a hunk belongs in a text that has drifted. */
module Anchors {
  import opened Text
  import opened Regions
  import opened Review

  function Distance(a: int, b: int): nat { if a > b then a - b else b - a }

  lemma DistanceMeans(a: int, n: nat)
    ensures Distance(a, a + n) == n && Distance(a + n, a) == n
  {
  }

  // Position `at` is nearer to `expected` than `x`, or as near and no later.
  predicate Nearer(at: int, x: int, expected: int)
  {
    Distance(at, expected) < Distance(x, expected) || (Distance(at, expected) == Distance(x, expected) && at <= x)
  }

  /** The occurrence of the run at or after the cursor that is nearest to where it is expected,
      if any.  An empty run is only at the end. */
  ghost predicate Nearest(lines: seq<Line>, run: seq<Line>, cursor: int, expected: int, found: Option<int>)
  {
    if run == [] then found == if cursor == |lines| then Some(cursor) else None
    else
      && (found.Some? ==> cursor <= found.value && Reads(lines, found.value, run))
      && forall x :: cursor <= x && Reads(lines, x, run) ==> found.Some? && Nearer(found.value, x, expected)
  }

  lemma NearestOnce(lines: seq<Line>, run: seq<Line>, cursor: int, expected: int, a: Option<int>, b: Option<int>)
    requires Nearest(lines, run, cursor, expected, a) && Nearest(lines, run, cursor, expected, b)
    ensures a == b
  {
    hide Reads;
  }

  lemma NearestReads(lines: seq<Line>, run: seq<Line>, cursor: int, expected: int, found: Option<int>)
    requires Nearest(lines, run, cursor, expected, found) && found.Some? && 0 <= cursor <= |lines|
    ensures cursor <= found.value && found.value + |run| <= |lines| && Reads(lines, found.value, run)
    ensures run == [] ==> found.value == cursor == |lines|
  {
  }

  method NearestReviewRun(lines: seq<Line>, run: seq<Line>, cursor: nat, expected: int) returns (found: Option<int>)
    requires cursor <= |lines|
    ensures Nearest(lines, run, cursor, expected, found)
  {
    if run == [] {
      return if cursor == |lines| then Some(cursor) else None;
    }
    hide Reads;
    found := None;
    var x: int := cursor;
    while x + |run| <= |lines|
      invariant cursor <= x
      invariant found.Some? ==> cursor <= found.value < x && Reads(lines, found.value, run)
      invariant forall y :: cursor <= y < x && Reads(lines, y, run) ==> found.Some? && Nearer(found.value, y, expected)
      decreases |lines| - x
    {
      ReadsAt(lines, x, run);
      if lines[x..x + |run|] == run && (found.None? || Distance(x, expected) < Distance(found.value, expected)) {
        found := Some(x);
      }
      x := x + 1;
    }
    forall y | cursor <= y && Reads(lines, y, run) ensures y < x {
      ReadsBound(lines, y, run);
    }
  }

  lemma ReadsAt(lines: seq<Line>, x: int, run: seq<Line>)
    requires 0 <= x && x + |run| <= |lines|
    ensures Reads(lines, x, run) <==> lines[x..x + |run|] == run
  {
  }

  lemma ReadsBound(lines: seq<Line>, x: int, run: seq<Line>)
    requires Reads(lines, x, run)
    ensures 0 <= x && x + |run| <= |lines|
  {
  }

  // ----- Anchoring by context

  /** The contexts a search may settle for.  It gives up `fuzz` lines on the side away from the
      change, or else on the side next to it; no lines at all stand for the end of the text. */
  function ReviewAnchors(start: int, end: int, fuzz: nat, leading: bool): (r: seq<(int, int)>)
    requires start <= end
    ensures r != [] && forall k :: 0 <= k < |r| ==> start <= r[k].0 <= r[k].1 <= end && (start < end ==> r[k].0 < r[k].1)
  {
    var keep := if end - start - fuzz > 1 then end - start - fuzz else 1;
    if start == end || keep == end - start then [(start, end)]
    else
      var inner, outer := if leading then (end - keep, end) else (start, start + keep), if leading then (start, start + keep) else (end - keep, end);
      if inner == outer then [inner] else [inner, outer]
  }

  // What a hunk asks of the text: its old side, how much of it is leading and trailing context,
  // and where it is looked for.
  datatype Search = Search(lines: seq<Line>, from: seq<Line>, lead: nat, trail: nat, cursor: nat, expected: int)
  {
    predicate Valid() { lead + trail <= |from| && cursor <= |lines| }

    function Span(): int { 2 * (|from| - lead - trail) + 20 }

    function Levels(): nat { if lead > 1 || trail > 1 then if lead > trail then lead else trail else 1 }

    function Leading(fuzz: nat): seq<(int, int)> { ReviewAnchors(0, lead, fuzz, true) }

    function Trailing(fuzz: nat): seq<(int, int)>
      requires Valid()
    {
      ReviewAnchors(|from| - trail, |from|, fuzz, false)
    }

    // How far a region starting at `first` is from where it is expected, given the anchor before it.
    function Off(l: (int, int), first: int): nat { Distance(first, expected - lead + l.1) }
  }

  // The trailing anchor's first occurrence from `start` on, within the span; the end without trailing context.
  ghost predicate EndsRegion(s: Search, t: (int, int), first: int, last: int)
    requires 0 <= t.0 <= t.1 <= |s.from|
  {
    if s.trail == 0 then last == |s.lines|
    else
      && first <= last <= first + s.Span() && Reads(s.lines, last, s.from[t.0..t.1])
      && forall x :: first <= x < last ==> !Reads(s.lines, x, s.from[t.0..t.1])
  }

  // The anchors l and t, found from `at` on, enclose the lines first..last.
  ghost predicate Candidate(s: Search, l: (int, int), t: (int, int), at: int, last: int)
    requires 0 <= l.0 <= l.1 <= |s.from| && 0 <= t.0 <= t.1 <= |s.from|
  {
    && s.cursor <= at && Reads(s.lines, at, s.from[l.0..l.1])
    && (s.lead == 0 ==> at + (l.1 - l.0) == 0)
    && EndsRegion(s, t, at + (l.1 - l.0), last)
  }

  // The best region so far: where it lies, and the anchors, the i-th and j-th of the level, it was found by.
  datatype Best = Best(first: int, last: int, l: (int, int), t: (int, int), at: int, fuzz: nat, i: nat, j: nat)

  // The region was found in the order of the search: less context dropped first, then the
  // earlier anchors, then the earlier position.
  predicate Sooner(b: Best, fuzz: nat, i: nat, j: nat, at: int)
  {
    b.fuzz < fuzz || (b.fuzz == fuzz && (b.i < i || (b.i == i && (b.j < j || (b.j == j && b.at <= at)))))
  }

  // The region, if any, was found before this point of the search.
  predicate Past(best: Option<Best>, fuzz: nat, i: nat, j: nat, at: int)
  {
    best.Some? ==> Sooner(best.value, fuzz, i, j, at - 1)
  }

  lemma PastOn(best: Option<Best>, fuzz: nat, i: nat, j: nat, at: int)
    requires Past(best, fuzz, i, j, at)
    ensures at <= 0 ==> forall x :: 0 <= x ==> Past(best, fuzz, i, j, x)
    ensures Past(best, fuzz, i, j, at + 1) && Past(best, fuzz, i, j + 1, 0) && Past(best, fuzz, i + 1, 0, 0) && Past(best, fuzz + 1, 0, 0, 0)
  {
  }

  predicate InFrom(s: Search, p: (int, int)) { 0 <= p.0 <= p.1 <= |s.from| }

  // The best region is a candidate of some tried level.
  ghost predicate Found(s: Search, best: Option<Best>)
    requires s.Valid()
  {
    best.Some? ==>
      var b := best.value;
      && b.fuzz < s.Levels() && b.i < |s.Leading(b.fuzz)| && b.j < |s.Trailing(b.fuzz)|
      && b.l == s.Leading(b.fuzz)[b.i] && b.t == s.Trailing(b.fuzz)[b.j]
      && InFrom(s, b.l) && InFrom(s, b.t)
      && Candidate(s, b.l, b.t, b.at, b.last) && b.first == b.at + (b.l.1 - b.l.0)
  }

  // A candidate is no nearer than the best, and comes no sooner if as near.
  ghost predicate Beats(s: Search, best: Option<Best>, fuzz: nat, i: nat, j: nat, l: (int, int), t: (int, int), at: int)
    requires InFrom(s, l) && InFrom(s, t)
  {
    (exists last :: Candidate(s, l, t, at, last)) ==>
      && best.Some?
      && var first := at + (l.1 - l.0);
         s.Off(best.value.l, best.value.first) < s.Off(l, first) || (s.Off(best.value.l, best.value.first) == s.Off(l, first) && Sooner(best.value, fuzz, i, j, at))
  }

  // The later best is at least as good.
  predicate Improves(s: Search, was: Option<Best>, now: Option<Best>)
  {
    was.Some? ==>
      && now.Some?
      && (s.Off(now.value.l, now.value.first) < s.Off(was.value.l, was.value.first) || now == was)
  }

  ghost predicate BeatsPair(s: Search, best: Option<Best>, fuzz: nat, i: nat, j: nat, l: (int, int), t: (int, int), upTo: int)
    requires InFrom(s, l) && InFrom(s, t)
  {
    forall at :: s.cursor <= at < upTo ==> Beats(s, best, fuzz, i, j, l, t, at)
  }

  lemma BeatsKept(s: Search, was: Option<Best>, now: Option<Best>, fuzz: nat, i: nat, j: nat, l: (int, int), t: (int, int), upTo: int)
    requires InFrom(s, l) && InFrom(s, t) && BeatsPair(s, was, fuzz, i, j, l, t, upTo) && Improves(s, was, now)
    ensures BeatsPair(s, now, fuzz, i, j, l, t, upTo)
  {
    hide Candidate;
    forall at | s.cursor <= at < upTo ensures Beats(s, now, fuzz, i, j, l, t, at) {
      assert Beats(s, was, fuzz, i, j, l, t, at);
    }
  }

  // Where the region ends that starts at `start`, if the trailing anchor is near enough.
  method RegionEnd(s: Search, t: (int, int), start: nat) returns (end: Option<int>)
    requires s.Valid() && InFrom(s, t) && start <= |s.lines|
    ensures end.Some? ==> EndsRegion(s, t, start, end.value) && start <= end.value <= |s.lines|
    ensures end.None? ==> forall last :: !EndsRegion(s, t, start, last)
  {
    if s.trail == 0 {
      return Some(|s.lines|);
    }
    var tail := s.from[t.0..t.1];
    var candidate: int := start;
    while candidate + |tail| <= |s.lines| && candidate - start <= s.Span()
      invariant start <= candidate
      invariant forall x :: start <= x < candidate ==> !Reads(s.lines, x, tail)
      decreases |s.lines| - candidate
    {
      if s.lines[candidate..candidate + |tail|] == tail {
        return Some(candidate);
      }
      candidate := candidate + 1;
    }
    return None;
  }

  predicate Anchored(s: Search, fuzz: nat, i: nat, j: nat, l: (int, int), t: (int, int))
    requires s.Valid()
  {
    i < |s.Leading(fuzz)| && j < |s.Trailing(fuzz)| && l == s.Leading(fuzz)[i] && t == s.Trailing(fuzz)[j]
  }

  /** Tries one pair of anchors at every position. */
  method TryPair(s: Search, fuzz: nat, i: nat, j: nat, l: (int, int), t: (int, int), was: Option<Best>) returns (best: Option<Best>)
    requires s.Valid() && fuzz < s.Levels() && Anchored(s, fuzz, i, j, l, t) && InFrom(s, l) && InFrom(s, t)
    requires Found(s, was) && Past(was, fuzz, i, j, 0)
    ensures Found(s, best) && Past(best, fuzz, i, j + 1, 0) && Improves(s, was, best)
    ensures BeatsPair(s, best, fuzz, i, j, l, t, |s.lines| + 1)
  {
    best := was;
    PastOn(was, fuzz, i, j, 0);
    var anchor := s.from[l.0..l.1];
    var at: int := s.cursor;
    while at + |anchor| <= |s.lines|
      invariant s.cursor <= at
      invariant Found(s, best) && Past(best, fuzz, i, j, at) && Improves(s, was, best)
      invariant BeatsPair(s, best, fuzz, i, j, l, t, at)
      decreases |s.lines| - at
    {
      best := TryAt(s, fuzz, i, j, l, t, at, best);
      at := at + 1;
    }
    PastOn(best, fuzz, i, j, at);
    NoneBeyond(s, best, fuzz, i, j, l, t, at);
  }

  lemma NoneBeyond(s: Search, best: Option<Best>, fuzz: nat, i: nat, j: nat, l: (int, int), t: (int, int), at: int)
    requires InFrom(s, l) && InFrom(s, t) && |s.lines| < at + (l.1 - l.0) && BeatsPair(s, best, fuzz, i, j, l, t, at)
    ensures BeatsPair(s, best, fuzz, i, j, l, t, |s.lines| + 1)
  {
    forall x | s.cursor <= x < |s.lines| + 1 ensures Beats(s, best, fuzz, i, j, l, t, x) {
      if at <= x {
        assert forall last :: !Candidate(s, l, t, x, last);
      }
    }
  }

  method TryAt(s: Search, fuzz: nat, i: nat, j: nat, l: (int, int), t: (int, int), at: int, was: Option<Best>) returns (best: Option<Best>)
    requires s.Valid() && fuzz < s.Levels() && Anchored(s, fuzz, i, j, l, t) && InFrom(s, l) && InFrom(s, t)
    requires Found(s, was) && Past(was, fuzz, i, j, at)
    requires s.cursor <= at && at + (l.1 - l.0) <= |s.lines| && BeatsPair(s, was, fuzz, i, j, l, t, at)
    ensures Found(s, best) && Past(best, fuzz, i, j, at + 1) && Improves(s, was, best)
    ensures BeatsPair(s, best, fuzz, i, j, l, t, at + 1)
  {
    hide *;
    best := was;
    PastOn(was, fuzz, i, j, at);
    var start := at + (l.1 - l.0);
    AnchorSpan(s, l);
    if (s.lead == 0 && start != 0) || s.lines[at..start] != s.from[l.0..l.1] {
      NoStart(s, l, t, at);
      SkipAt(s, was, fuzz, i, j, l, t, at);
      return;
    }
    var end := RegionEnd(s, t, start);
    if end.None? {
      NoEnd(s, l, t, at, start);
      SkipAt(s, was, fuzz, i, j, l, t, at);
      return;
    }
    if was.None? || s.Off(l, start) < s.Off(was.value.l, was.value.first) {
      best := Some(Best(start, end.value, l, t, at, fuzz, i, j));
    }
    TakeAt(s, fuzz, i, j, l, t, at, was, best, end.value);
    BeatsKept(s, was, best, fuzz, i, j, l, t, at);
    BeatsNext(s, best, fuzz, i, j, l, t, at);
  }

  lemma AnchorSpan(s: Search, l: (int, int))
    requires InFrom(s, l)
    ensures 0 <= l.0 <= l.1 <= |s.from|
  {
  }

  lemma NoStart(s: Search, l: (int, int), t: (int, int), at: int)
    requires InFrom(s, l) && InFrom(s, t) && s.cursor <= at && at + (l.1 - l.0) <= |s.lines|
    requires (s.lead == 0 && at + (l.1 - l.0) != 0) || s.lines[at..at + (l.1 - l.0)] != s.from[l.0..l.1]
    ensures forall last :: !Candidate(s, l, t, at, last)
  {
  }

  lemma NoEnd(s: Search, l: (int, int), t: (int, int), at: int, first: int)
    requires InFrom(s, l) && InFrom(s, t) && first == at + (l.1 - l.0) && forall last :: !EndsRegion(s, t, first, last)
    ensures forall last :: !Candidate(s, l, t, at, last)
  {
    hide EndsRegion;
  }

  lemma SkipAt(s: Search, best: Option<Best>, fuzz: nat, i: nat, j: nat, l: (int, int), t: (int, int), at: int)
    requires InFrom(s, l) && InFrom(s, t) && BeatsPair(s, best, fuzz, i, j, l, t, at) && forall last :: !Candidate(s, l, t, at, last)
    ensures BeatsPair(s, best, fuzz, i, j, l, t, at + 1)
    ensures Improves(s, best, best)
  {
    hide Candidate;
  }

  lemma BeatsNext(s: Search, best: Option<Best>, fuzz: nat, i: nat, j: nat, l: (int, int), t: (int, int), at: int)
    requires InFrom(s, l) && InFrom(s, t) && BeatsPair(s, best, fuzz, i, j, l, t, at) && Beats(s, best, fuzz, i, j, l, t, at)
    ensures BeatsPair(s, best, fuzz, i, j, l, t, at + 1)
  {
    hide Beats;
  }

  lemma TakeAt(s: Search, fuzz: nat, i: nat, j: nat, l: (int, int), t: (int, int), at: int, was: Option<Best>, best: Option<Best>, end: int)
    requires s.Valid() && fuzz < s.Levels() && Anchored(s, fuzz, i, j, l, t) && InFrom(s, l) && InFrom(s, t)
    requires Found(s, was) && Past(was, fuzz, i, j, at)
    requires s.cursor <= at && at + (l.1 - l.0) <= |s.lines|
    requires (s.lead == 0 ==> at + (l.1 - l.0) == 0) && s.lines[at..at + (l.1 - l.0)] == s.from[l.0..l.1]
    requires EndsRegion(s, t, at + (l.1 - l.0), end)
    requires best == if was.None? || s.Off(l, at + (l.1 - l.0)) < s.Off(was.value.l, was.value.first) then Some(Best(at + (l.1 - l.0), end, l, t, at, fuzz, i, j)) else was
    ensures Found(s, best) && Past(best, fuzz, i, j, at + 1) && Improves(s, was, best)
    ensures Beats(s, best, fuzz, i, j, l, t, at)
  {
    hide EndsRegion, Search.Leading, Search.Trailing, Search.Levels, Search.Off;
    assert Reads(s.lines, at, s.from[l.0..l.1]);
  }

  // All pairs of the first i leading anchors with any trailing one, and of leading anchor i with the first j.
  ghost predicate BeatsLevel(s: Search, best: Option<Best>, fuzz: nat, i: nat, j: nat)
    requires s.Valid()
  {
    forall k, n :: 0 <= k < |s.Leading(fuzz)| && 0 <= n < |s.Trailing(fuzz)| && (k < i || (k == i && n < j)) ==> BeatsAnchors(s, best, fuzz, k, n)
  }

  ghost predicate BeatsAnchors(s: Search, best: Option<Best>, fuzz: nat, k: nat, n: nat)
    requires s.Valid() && k < |s.Leading(fuzz)| && n < |s.Trailing(fuzz)|
  {
    && InFrom(s, s.Leading(fuzz)[k]) && InFrom(s, s.Trailing(fuzz)[n])
    && BeatsPair(s, best, fuzz, k, n, s.Leading(fuzz)[k], s.Trailing(fuzz)[n], |s.lines| + 1)
  }

  ghost predicate BeatsLevels(s: Search, best: Option<Best>, fuzz: nat)
    requires s.Valid()
  {
    forall f :: 0 <= f < fuzz ==> BeatsLevel(s, best, f, |s.Leading(f)|, 0)
  }

  lemma AnchorIn(s: Search, fuzz: nat, i: nat, j: nat)
    requires s.Valid() && i < |s.Leading(fuzz)| && j < |s.Trailing(fuzz)|
    ensures InFrom(s, s.Leading(fuzz)[i]) && InFrom(s, s.Trailing(fuzz)[j])
  {
  }

  lemma LevelKept(s: Search, was: Option<Best>, now: Option<Best>, fuzz: nat, i: nat, j: nat)
    requires s.Valid() && BeatsLevel(s, was, fuzz, i, j) && Improves(s, was, now)
    ensures BeatsLevel(s, now, fuzz, i, j)
  {
    hide BeatsPair, Improves, Search.Leading, Search.Trailing;
    forall k, n | 0 <= k < |s.Leading(fuzz)| && 0 <= n < |s.Trailing(fuzz)| && (k < i || (k == i && n < j)) ensures BeatsAnchors(s, now, fuzz, k, n) {
      assert BeatsAnchors(s, was, fuzz, k, n);
      BeatsKept(s, was, now, fuzz, k, n, s.Leading(fuzz)[k], s.Trailing(fuzz)[n], |s.lines| + 1);
    }
  }

  lemma LevelsKept(s: Search, was: Option<Best>, now: Option<Best>, fuzz: nat)
    requires s.Valid() && BeatsLevels(s, was, fuzz) && Improves(s, was, now)
    ensures BeatsLevels(s, now, fuzz)
  {
    hide BeatsLevel, Improves;
    forall f | 0 <= f < fuzz ensures BeatsLevel(s, now, f, |s.Leading(f)|, 0) {
      LevelKept(s, was, now, f, |s.Leading(f)|, 0);
    }
  }

  lemma LevelNext(s: Search, best: Option<Best>, fuzz: nat, i: nat, j: nat)
    requires s.Valid() && i < |s.Leading(fuzz)| && j < |s.Trailing(fuzz)| && BeatsLevel(s, best, fuzz, i, j)
    requires InFrom(s, s.Leading(fuzz)[i]) && InFrom(s, s.Trailing(fuzz)[j])
    requires BeatsPair(s, best, fuzz, i, j, s.Leading(fuzz)[i], s.Trailing(fuzz)[j], |s.lines| + 1)
    ensures BeatsLevel(s, best, fuzz, i, j + 1)
    ensures j + 1 == |s.Trailing(fuzz)| ==> BeatsLevel(s, best, fuzz, i + 1, 0)
  {
    assert BeatsAnchors(s, best, fuzz, i, j);
    hide BeatsAnchors, Search.Leading, Search.Trailing;
  }

  lemma LevelsNext(s: Search, best: Option<Best>, fuzz: nat)
    requires s.Valid() && BeatsLevels(s, best, fuzz) && BeatsLevel(s, best, fuzz, |s.Leading(fuzz)|, 0)
    ensures BeatsLevels(s, best, fuzz + 1)
  {
    hide BeatsLevel;
  }

  // Nothing has been tried.
  lemma LevelStart(s: Search, best: Option<Best>, fuzz: nat)
    requires s.Valid()
    ensures BeatsLevel(s, best, fuzz, 0, 0) && s.Leading(fuzz) != [] && s.Trailing(fuzz) != []
    ensures BeatsLevels(s, best, 0) && Improves(s, best, best)
  {
  }

  lemma ImprovesJoin(s: Search, a: Option<Best>, b: Option<Best>, c: Option<Best>)
    requires Improves(s, a, b) && Improves(s, b, c)
    ensures Improves(s, a, c)
  {
  }

  // Tries every pair of anchors of one level.
  method TryLevel(s: Search, fuzz: nat, was: Option<Best>) returns (best: Option<Best>)
    requires s.Valid() && fuzz < s.Levels() && Found(s, was) && Past(was, fuzz, 0, 0, 0)
    ensures Found(s, best) && Past(best, fuzz + 1, 0, 0, 0) && Improves(s, was, best)
    ensures BeatsLevel(s, best, fuzz, |s.Leading(fuzz)|, 0)
  {
    best := was;
    LevelStart(s, was, fuzz);
    hide *;
    var leading, trailing := s.Leading(fuzz), s.Trailing(fuzz);
    var i := 0;
    while i < |leading|
      invariant 0 <= i <= |leading| && Improves(s, was, best)
      invariant Found(s, best) && Past(best, fuzz, i, 0, 0) && BeatsLevel(s, best, fuzz, i, 0)
    {
      var j := 0;
      while j < |trailing|
        invariant 0 <= j <= |trailing| && Improves(s, was, best)
        invariant Found(s, best) && Past(best, fuzz, i, j, 0) && BeatsLevel(s, best, fuzz, i, j)
        invariant j == |trailing| ==> BeatsLevel(s, best, fuzz, i + 1, 0)
      {
        ghost var so := best;
        AnchorIn(s, fuzz, i, j);
        best := TryPair(s, fuzz, i, j, leading[i], trailing[j], best);
        LevelKept(s, so, best, fuzz, i, j);
        LevelNext(s, best, fuzz, i, j);
        ImprovesJoin(s, was, so, best);
        j := j + 1;
      }
      PastOn(best, fuzz, i, j, 0);
      i := i + 1;
    }
    PastOn(best, fuzz, i, 0, 0);
  }

  /** The region of the text between a hunk's leading and trailing context.  If the context is
      to be found at all, in full or shortened, it is found; the region is the nearest to the
      recorded position, and of the equally near ones the one that drops the least context, then
      the first found. */
  method AnchorReviewRegion(s: Search) returns (best: Option<Best>)
    requires s.Valid()
    ensures Chosen(s, best)
  {
    best := None;
    LevelStart(s, None, 0);
    NoneFound(s);
    hide *;
    var fuzz := 0;
    while fuzz == 0 || fuzz < s.Levels()
      invariant 0 <= fuzz <= s.Levels()
      invariant Found(s, best) && Past(best, fuzz, 0, 0, 0) && BeatsLevels(s, best, fuzz)
      decreases s.Levels() - fuzz
    {
      ghost var was := best;
      SomeLevel(s);
      best := TryLevel(s, fuzz, best);
      LevelsKept(s, was, best, fuzz);
      LevelsNext(s, best, fuzz);
      fuzz := fuzz + 1;
    }
    IsChosen(s, best);
  }

  lemma IsChosen(s: Search, best: Option<Best>)
    requires s.Valid()
    ensures Chosen(s, best) <==> Found(s, best) && BeatsLevels(s, best, s.Levels())
  {
  }

  lemma NoneFound(s: Search)
    requires s.Valid()
    ensures Found(s, None) && 0 < s.Levels()
  {
  }

  lemma SomeLevel(s: Search)
    ensures 0 < s.Levels()
  {
  }

  // ----- What the search means for the text

  // How many lines of context are kept when `fuzz` are given up: one at least, if there is any.
  function KeptOf(context: nat, fuzz: nat): nat
  {
    if context == 0 then 0 else if fuzz < context then context - fuzz else 1
  }

  // So many lines may be given up.
  predicate Allowed(s: Search, fuzz: nat) { fuzz == 0 || fuzz < s.lead || fuzz < s.trail }

  // The k-th choice of leading lines to keep: those next to the change, or else those away from it.
  predicate KeepsLeading(s: Search, fuzz: nat, k: nat, l: (int, int))
  {
    l.1 - l.0 == KeptOf(s.lead, fuzz) && ((k == 0 && l.1 == s.lead) || (k == 1 && l.0 == 0 && l.1 < s.lead))
  }

  predicate KeepsTrailing(s: Search, fuzz: nat, k: nat, t: (int, int))
  {
    t.1 - t.0 == KeptOf(s.trail, fuzz) && ((k == 0 && t.0 == |s.from| - s.trail) || (k == 1 && t.1 == |s.from| && |s.from| - s.trail < t.0))
  }

  lemma LevelsAllowed(s: Search, fuzz: nat)
    ensures fuzz < s.Levels() <==> Allowed(s, fuzz)
  {
  }

  // These are exactly the contexts that are tried.
  lemma LeadingKept(s: Search, fuzz: nat, k: nat, l: (int, int))
    ensures k < |s.Leading(fuzz)| && s.Leading(fuzz)[k] == l <==> KeepsLeading(s, fuzz, k, l)
  {
  }

  lemma TrailingKept(s: Search, fuzz: nat, k: nat, t: (int, int))
    requires s.Valid()
    ensures k < |s.Trailing(fuzz)| && s.Trailing(fuzz)[k] == t <==> KeepsTrailing(s, fuzz, k, t)
  {
  }

  /** What a found region means for the text: of the context before it and behind it as many lines are
      kept as may be, on either edge; they stand there, the trailing ones for the first time; and the
      change and the context given up lie between. */
  lemma RegionFound(s: Search, best: Option<Best>)
    requires s.Valid() && Found(s, best) && best.Some?
    ensures var b := best.value;
            && Allowed(s, b.fuzz) && KeepsLeading(s, b.fuzz, b.i, b.l) && KeepsTrailing(s, b.fuzz, b.j, b.t)
            && s.cursor <= b.at <= b.first <= b.last <= |s.lines|
            && 0 <= b.l.0 <= b.l.1 <= s.lead && |s.from| - s.trail <= b.t.0 <= b.t.1 <= |s.from|
            && b.first == b.at + (b.l.1 - b.l.0) && s.lines[b.at..b.first] == s.from[b.l.0..b.l.1]
            && (if s.lead == 0 then b.first == 0 else b.l.0 < b.l.1)
            && (if s.trail == 0 then b.last == |s.lines| && b.t.0 == |s.from|
                else
                  && b.last <= b.first + 2 * (|s.from| - s.lead - s.trail) + 20 && b.t.0 < b.t.1
                  && StandsAt(s.lines, b.last, s.from[b.t.0..b.t.1]) && forall x: nat :: b.first <= x < b.last ==> !StandsAt(s.lines, x, s.from[b.t.0..b.t.1]))
  {
    var b := best.value;
    LevelsAllowed(s, b.fuzz);
    LeadingKept(s, b.fuzz, b.i, b.l);
    TrailingKept(s, b.fuzz, b.j, b.t);
    hide Search.Leading, Search.Trailing, Search.Levels;
    FoundText(s, b);
  }

  lemma FoundText(s: Search, b: Best)
    requires s.Valid() && KeepsLeading(s, b.fuzz, b.i, b.l) && KeepsTrailing(s, b.fuzz, b.j, b.t)
    requires InFrom(s, b.l) && InFrom(s, b.t) && Candidate(s, b.l, b.t, b.at, b.last) && b.first == b.at + (b.l.1 - b.l.0)
    ensures s.cursor <= b.at <= b.first <= b.last <= |s.lines|
    ensures s.lines[b.at..b.first] == s.from[b.l.0..b.l.1] && (s.lead == 0 ==> b.first == 0)
    ensures s.trail == 0 ==> b.last == |s.lines| && b.t.0 == |s.from|
    ensures s.trail > 0 ==>
              && b.last <= b.first + s.Span() && StandsAt(s.lines, b.last, s.from[b.t.0..b.t.1])
              && forall x: nat :: b.first <= x < b.last ==> !StandsAt(s.lines, x, s.from[b.t.0..b.t.1])
  {
    assert Reads(s.lines, b.at, s.from[b.l.0..b.l.1]);
    if s.trail > 0 {
      assert Reads(s.lines, b.last, s.from[b.t.0..b.t.1]);
      forall x: nat | b.first <= x < b.last ensures !StandsAt(s.lines, x, s.from[b.t.0..b.t.1]) {
        assert !Reads(s.lines, x, s.from[b.t.0..b.t.1]);
      }
    }
  }

  predicate StandsAt(lines: seq<Line>, x: nat, run: seq<Line>) { x + |run| <= |lines| && lines[x..x + |run|] == run }

  /** The search misses nothing.  Give up as many lines of context as the longer context can spare, and
      keep the lines on either edge: wherever the kept leading lines stand, at or behind the cursor, and
      the kept trailing lines stand near enough behind them, a region is chosen that is no farther from
      its place; and if it is as far, it gives up fewer lines, or keeps the lines closer to the change, or
      comes first. */
  lemma RegionMissed(s: Search, best: Option<Best>, fuzz: nat, i: nat, j: nat, l: (int, int), t: (int, int), at: nat, last: nat)
    requires Chosen(s, best) && Allowed(s, fuzz) && KeepsLeading(s, fuzz, i, l) && KeepsTrailing(s, fuzz, j, t)
    requires 0 <= l.0 <= l.1 <= |s.from| && 0 <= t.0 <= t.1 <= |s.from|
    requires s.cursor <= at && StandsAt(s.lines, at, s.from[l.0..l.1]) && (s.lead == 0 ==> at == 0)
    requires s.trail > 0 ==>
               var first := at + (l.1 - l.0); first <= last <= first + 2 * (|s.from| - s.lead - s.trail) + 20 && StandsAt(s.lines, last, s.from[t.0..t.1])
    ensures best.Some?
    ensures var b, off := best.value, Distance(at + (l.1 - l.0), s.expected - s.lead + l.1);
            var nearest := Distance(b.first, s.expected - s.lead + b.l.1);
            && nearest <= off
            && (nearest == off ==> b.fuzz <= fuzz && (b.fuzz == fuzz ==> b.i <= i && (b.i == i ==> b.j <= j && (b.j == j ==> b.at <= at))))
  {
    LevelsAllowed(s, fuzz);
    LeadingKept(s, fuzz, i, l);
    TrailingKept(s, fuzz, j, t);
    hide Search.Leading, Search.Trailing, Search.Levels, KeepsLeading, KeepsTrailing, Candidate, Chosen;
    var first := at + (l.1 - l.0);
    var end := FirstEnd(s, t, first, last);
    StandsCandidate(s, l, t, at, end);
    ChosenBeats(s, best, fuzz, i, j, l, t, at);
    assert Beats(s, best, fuzz, i, j, l, t, at);
  }

  lemma ChosenBeats(s: Search, best: Option<Best>, fuzz: nat, i: nat, j: nat, l: (int, int), t: (int, int), at: nat)
    requires Chosen(s, best) && fuzz < s.Levels() && i < |s.Leading(fuzz)| && j < |s.Trailing(fuzz)|
    requires s.Leading(fuzz)[i] == l && s.Trailing(fuzz)[j] == t && s.cursor <= at <= |s.lines|
    ensures InFrom(s, l) && InFrom(s, t) && Beats(s, best, fuzz, i, j, l, t, at)
  {
    hide Search.Leading, Search.Trailing, Search.Levels, Beats, Found;
    assert BeatsLevel(s, best, fuzz, |s.Leading(fuzz)|, 0);
    assert BeatsAnchors(s, best, fuzz, i, j);
  }

  lemma StandsCandidate(s: Search, l: (int, int), t: (int, int), at: nat, end: int)
    requires InFrom(s, l) && InFrom(s, t) && s.cursor <= at && StandsAt(s.lines, at, s.from[l.0..l.1]) && (s.lead == 0 ==> at + (l.1 - l.0) == 0)
    requires EndsRegion(s, t, at + (l.1 - l.0), end)
    ensures Candidate(s, l, t, at, end)
  {
    hide EndsRegion;
    ReadsAt(s.lines, at, s.from[l.0..l.1]);
  }

  // The first occurrence of the trailing lines is no farther than any.
  lemma FirstEnd(s: Search, t: (int, int), first: int, last: nat) returns (end: int)
    requires s.Valid() && InFrom(s, t) && 0 <= first
    requires s.trail > 0 ==> first <= last <= first + s.Span() && StandsAt(s.lines, last, s.from[t.0..t.1])
    ensures EndsRegion(s, t, first, end)
  {
    if s.trail == 0 {
      return |s.lines|;
    }
    end := first;
    var run := s.from[t.0..t.1];
    ReadsAt(s.lines, last, run);
    hide Reads, Search.Span;
    while !Reads(s.lines, end, run)
      invariant first <= end <= last && forall x :: first <= x < end ==> !Reads(s.lines, x, run)
      decreases last - end
    {
      end := end + 1;
    }
  }

  // No candidate of any level is nearer, or as near and sooner.
  ghost predicate Chosen(s: Search, best: Option<Best>) { s.Valid() && Found(s, best) && BeatsLevels(s, best, s.Levels()) }

  lemma FoundBeaten(s: Search, best: Option<Best>, other: Best)
    requires Chosen(s, best) && Found(s, Some(other))
    ensures best.Some?
    ensures var b := best.value;
            s.Off(b.l, b.first) < s.Off(other.l, other.first) || (s.Off(b.l, b.first) == s.Off(other.l, other.first) && Sooner(b, other.fuzz, other.i, other.j, other.at))
  {
    RegionFound(s, Some(other));
    assert BeatsLevel(s, best, other.fuzz, |s.Leading(other.fuzz)|, 0);
    assert BeatsAnchors(s, best, other.fuzz, other.i, other.j);
    assert Beats(s, best, other.fuzz, other.i, other.j, other.l, other.t, other.at);
  }

  lemma EndsOnce(s: Search, t: (int, int), first: int, last: int, last': int)
    requires InFrom(s, t) && EndsRegion(s, t, first, last) && EndsRegion(s, t, first, last')
    ensures last == last'
  {
  }

  /** What is asked for decides the region. */
  lemma ChosenOnce(s: Search, a: Option<Best>, b: Option<Best>)
    requires Chosen(s, a) && Chosen(s, b)
    ensures a == b
  {
    if a.Some? {
      FoundBeaten(s, b, a.value);
      FoundBeaten(s, a, b.value);
      EndsOnce(s, a.value.t, a.value.first, a.value.last, b.value.last);
    } else if b.Some? {
      FoundBeaten(s, a, b.value);
      assert false;
    }
  }
}
