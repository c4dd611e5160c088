/** What re-diffing the regions of a composition leaves: each connected group compared anew, its
    changes cut at the old regions' boundaries, and shown where they touch a visible one. */
module Rediff {
  import opened Text
  import opened Regions
  import opened RegionEdits
  import opened Matcher
  import opened Recall
  import opened CompositionFacts

  // ----- One opcode

  // The n-th boundary an opcode may be cut at, within the group; the last one is its own end.
  function Edge(priors: seq<Region>, initial: Region, op: OpCode, n: nat): (int, int)
    requires n <= 2 * |priors|
  {
    if n == 2 * |priors| then (op.i2, op.j2)
    else (Corner(priors, n).0 - initial.beforeStart, Corner(priors, n).1 - initial.afterStart)
  }

  // How far the opcode is cut after n boundaries.
  function CutAfter(priors: seq<Region>, initial: Region, op: OpCode, n: nat): (int, int)
    requires n <= 2 * |priors| + 1
  {
    if n == 0 then (op.i1, op.j1) else
      var (at, to) := (CutAfter(priors, initial, op, n - 1), Edge(priors, initial, op, n - 1));
      if Advances(op, at.0, at.1, to.0, to.1) then to else at
  }

  // What lies between two cuts.
  function Part(initial: Region, a: seq<Line>, b: seq<Line>, from: (int, int), to: (int, int)): Region
  {
    Region(initial.beforeStart + from.0, initial.afterStart + from.1, Slice(a, from.0, to.0), Slice(b, from.1, to.1), true, false)
  }

  ghost function Displayed(part: Region, priors: seq<Region>): Region
  {
    part.(hidden := forall k :: 0 <= k < |priors| && Touches(part, priors[k]) ==> priors[k].hidden,
          highlighted := exists k :: 0 <= k < |priors| && Touches(part, priors[k]) && !priors[k].hidden && priors[k].highlighted)
  }

  // A part that changes nothing is dropped.
  ghost function Emission(part: Region, priors: seq<Region>): seq<Region>
  {
    if part.before == part.after then [] else [Displayed(part, priors)]
  }

  function PartAt(priors: seq<Region>, initial: Region, op: OpCode, a: seq<Line>, b: seq<Line>, n: nat): Region
    requires n <= 2 * |priors|
  {
    Part(initial, a, b, CutAfter(priors, initial, op, n), CutAfter(priors, initial, op, n + 1))
  }

  ghost function PartsUpTo(priors: seq<Region>, initial: Region, op: OpCode, a: seq<Line>, b: seq<Line>, n: nat): seq<Region>
    requires n <= 2 * |priors| + 1
  {
    if n == 0 then [] else PartsUpTo(priors, initial, op, a, b, n - 1) + Emission(PartAt(priors, initial, op, a, b, n - 1), priors)
  }

  // ----- A group

  ghost function OpsUpTo(priors: seq<Region>, initial: Region, ops: seq<OpCode>, a: seq<Line>, b: seq<Line>, n: nat): seq<Region>
    requires n <= |ops|
  {
    if n == 0 then [] else
      OpsUpTo(priors, initial, ops, a, b, n - 1)
        + if ops[n - 1].tag == Equal then [] else PartsUpTo(priors, initial, ops[n - 1], a, b, 2 * |priors| + 1)
  }

  // Where the group of regions ends that has been joined up to `last`.
  ghost function GroupEnd(rs: seq<Region>, original: map<int, Line>, current: map<int, Line>, last: nat): (end: nat)
    requires 0 < last <= |rs|
    ensures last <= end <= |rs|
    decreases |rs| - last
  {
    if last < |rs| && Connected(rs, original, current, last) then GroupEnd(rs, original, current, last + 1) else last
  }

  // The group's text in one file: from the start of its first region to the end of its last.
  function OldText(rs: seq<Region>, base: seq<Line>, first: nat, last: nat): seq<Line>
    requires first < last <= |rs|
  {
    Slice(base, rs[first].beforeStart, rs[last - 1].BeforeEnd())
  }

  function NewText(rs: seq<Region>, cur: seq<Line>, first: nat, last: nat): seq<Line>
    requires first < last <= |rs|
  {
    Slice(cur, rs[first].afterStart, rs[last - 1].AfterEnd())
  }

  ghost function GroupRediffed(differ: Differ, rs: seq<Region>, base: seq<Line>, cur: seq<Line>, first: nat, last: nat): seq<Region>
    requires first < last <= |rs|
  {
    var a, b := OldText(rs, base, first, last), NewText(rs, cur, first, last);
    OpsUpTo(rs[first..last], rs[first], differ(a, b), a, b, |differ(a, b)|)
  }

  /** All groups from region `first` on, re-diffed. */
  ghost function RediffedFrom(differ: Differ, rs: seq<Region>, original: map<int, Line>, current: map<int, Line>, base: seq<Line>, cur: seq<Line>, first: nat): seq<Region>
    requires first <= |rs|
    decreases |rs| - first
  {
    if first == |rs| then [] else
      var last := GroupEnd(rs, original, current, first + 1);
      GroupRediffed(differ, rs, base, cur, first, last) + RediffedFrom(differ, rs, original, current, base, cur, last)
  }

  // ----- What the methods compute

  lemma DisplayedIs(part: Region, region: Region, priors: seq<Region>)
    requires region == part.(hidden := region.hidden, highlighted := region.highlighted) && Shown(region, priors)
    ensures region == Displayed(part, priors)
  {
    assert forall k :: 0 <= k < |priors| ==> (Touches(region, priors[k]) <==> Touches(part, priors[k]));
    hide Touches;
  }

  // Moving on from one cut to the next.
  lemma CutNext(priors: seq<Region>, initial: Region, op: OpCode, a: seq<Line>, b: seq<Line>, n: nat, was: (int, int), now: (int, int), to: (int, int), parts: seq<Region>)
    requires n <= 2 * |priors| && was == CutAfter(priors, initial, op, n) && parts == PartsUpTo(priors, initial, op, a, b, n)
    requires to == Edge(priors, initial, op, n) && now == if Advances(op, was.0, was.1, to.0, to.1) then to else was
    ensures now == CutAfter(priors, initial, op, n + 1)
    ensures PartsUpTo(priors, initial, op, a, b, n + 1) == parts + Emission(Part(initial, a, b, was, now), priors)
  {
    hide Advances, Edge, Emission, Part;
  }

  lemma NoEmission(initial: Region, a: seq<Line>, b: seq<Line>, at: (int, int), priors: seq<Region>)
    ensures Emission(Part(initial, a, b, at, at), priors) == []
  {
  }

  lemma OneEmission(initial: Region, a: seq<Line>, b: seq<Line>, from: (int, int), to: (int, int), priors: seq<Region>, part: Region)
    requires 0 <= from.0 <= to.0 <= |a| && 0 <= from.1 <= to.1 <= |b|
    requires part == Region(initial.beforeStart + from.0, initial.afterStart + from.1, a[from.0..to.0], b[from.1..to.1], true, false)
    ensures part == Part(initial, a, b, from, to)
    ensures Emission(part, priors) == if part.before == part.after then [] else [Displayed(part, priors)]
  {
    hide Displayed;
  }

  /** An opcode cut at its first n edges, up to (i, j). */
  ghost predicate AtCut(priors: seq<Region>, initial: Region, op: OpCode, a: seq<Line>, b: seq<Line>, before: seq<Region>, now: seq<Region>, n: nat, i: int, j: int,
                        current: map<int, Line>, base: seq<Line>, cur: seq<Line>)
  {
    && n <= 2 * |priors| + 1 && op.i1 <= i <= op.i2 && op.j1 <= j <= op.j2
    && (n <= 2 * |priors| ==> Passed(priors, initial, op, n, i, j))
    && (i, j) == CutAfter(priors, initial, op, n) && now == before + PartsUpTo(priors, initial, op, a, b, n)
    && Emitted(now, current, base, cur, initial, a, b, i, j)
    && AllShown(now[|before|..], priors, initial, a, b)
  }

  lemma CutStart(priors: seq<Region>, initial: Region, op: OpCode, a: seq<Line>, b: seq<Line>, before: seq<Region>, current: map<int, Line>, base: seq<Line>, cur: seq<Line>)
    requires OpFits(op, a, b) && Emitted(before, current, base, cur, initial, a, b, op.i1, op.j1)
    ensures AtCut(priors, initial, op, a, b, before, before, 0, op.i1, op.j1, current, base, cur)
  {
    NoneShown(before, priors, initial, a, b);
    hide Emitted, AllShown;
  }

  lemma CutFacts(priors: seq<Region>, initial: Region, op: OpCode, a: seq<Line>, b: seq<Line>, before: seq<Region>, now: seq<Region>, n: nat, i: int, j: int,
                 current: map<int, Line>, base: seq<Line>, cur: seq<Line>)
    requires n <= 2 * |priors| && AtCut(priors, initial, op, a, b, before, now, n, i, j, current, base, cur)
    ensures op.i1 <= i <= op.i2 && op.j1 <= j <= op.j2 && Passed(priors, initial, op, n, i, j)
    ensures Emitted(now, current, base, cur, initial, a, b, i, j)
    ensures var e := Edge(priors, initial, op, n);
            if n < 2 * |priors| then Corner(priors, n) == (initial.beforeStart + e.0, initial.afterStart + e.1) else e == (op.i2, op.j2)
  {
    hide Emitted, AllShown, Passed, PartsUpTo, CutAfter, Corner;
  }

  lemma CutMore(priors: seq<Region>, initial: Region, op: OpCode, a: seq<Line>, b: seq<Line>, before: seq<Region>, was: seq<Region>, now: seq<Region>, n: nat, i: int, j: int,
                i2: int, j2: int, to: (int, int), current: map<int, Line>, base: seq<Line>, cur: seq<Line>)
    requires n <= 2 * |priors| && AtCut(priors, initial, op, a, b, before, was, n, i, j, current, base, cur)
    requires to == Edge(priors, initial, op, n) && (i2, j2) == if Advances(op, i, j, to.0, to.1) then to else (i, j)
    requires n < 2 * |priors| ==> Passed(priors, initial, op, n + 1, i2, j2)
    requires Emitted(now, current, base, cur, initial, a, b, i2, j2) && was <= now && AllShown(now[|was|..], priors, initial, a, b)
    requires now == was + Emission(Part(initial, a, b, (i, j), (i2, j2)), priors)
    ensures AtCut(priors, initial, op, a, b, before, now, n + 1, i2, j2, current, base, cur)
  {
    hide Emitted, AllShown, Passed, PartsUpTo, CutAfter, Emission, Part, Edge;
    CutNext(priors, initial, op, a, b, n, (i, j), (i2, j2), to, PartsUpTo(priors, initial, op, a, b, n));
    ShownJoin(before, was, now, priors, initial, a, b);
  }

  lemma CutEnd(priors: seq<Region>, initial: Region, op: OpCode, a: seq<Line>, b: seq<Line>, before: seq<Region>, now: seq<Region>, i: int, j: int,
               current: map<int, Line>, base: seq<Line>, cur: seq<Line>)
    requires AtCut(priors, initial, op, a, b, before, now, 2 * |priors| + 1, i, j, current, base, cur) && OpFits(op, a, b)
    ensures Emitted(now, current, base, cur, initial, a, b, op.i2, op.j2)
    ensures now == before + PartsUpTo(priors, initial, op, a, b, 2 * |priors| + 1) && AllShown(now[|before|..], priors, initial, a, b)
  {
    CutLast(priors, initial, op);
    hide Emitted, AllShown, Passed, PartsUpTo, CutAfter;
  }

  lemma CutLast(priors: seq<Region>, initial: Region, op: OpCode)
    requires op.i1 <= op.i2 && op.j1 <= op.j2
    ensures CutAfter(priors, initial, op, 2 * |priors| + 1) == (op.i2, op.j2)
  {
    var n := 2 * |priors|;
    CutBounds(priors, initial, op, n);
    assert Edge(priors, initial, op, n) == (op.i2, op.j2);
    var at := CutAfter(priors, initial, op, n);
    assert CutAfter(priors, initial, op, n + 1) == if Advances(op, at.0, at.1, op.i2, op.j2) then (op.i2, op.j2) else at;
  }

  // The two edges a region gives, and the last.
  lemma EdgesAt(priors: seq<Region>, initial: Region, op: OpCode, i: nat)
    requires i <= |priors|
    ensures i < |priors| ==>
              var prior := priors[i];
              && Edge(priors, initial, op, 2 * i) == (prior.beforeStart - initial.beforeStart, prior.afterStart - initial.afterStart)
              && Edge(priors, initial, op, 2 * i + 1) == (prior.BeforeEnd() - initial.beforeStart, prior.AfterEnd() - initial.afterStart)
    ensures Edge(priors, initial, op, 2 * |priors|) == (op.i2, op.j2)
  {
  }

  lemma OpNext(priors: seq<Region>, initial: Region, ops: seq<OpCode>, a: seq<Line>, b: seq<Line>, n: nat)
    requires n < |ops|
    ensures OpsUpTo(priors, initial, ops, a, b, n + 1) ==
              OpsUpTo(priors, initial, ops, a, b, n) + if ops[n].tag == Equal then [] else PartsUpTo(priors, initial, ops[n], a, b, 2 * |priors| + 1)
  {
    hide PartsUpTo;
  }

  lemma OpNone(priors: seq<Region>, initial: Region, ops: seq<OpCode>, a: seq<Line>, b: seq<Line>)
    ensures OpsUpTo(priors, initial, ops, a, b, 0) == []
  {
  }

  lemma {:induction false} GroupEndIs(rs: seq<Region>, original: map<int, Line>, current: map<int, Line>, first: nat, last: nat)
    requires 0 < first <= last <= |rs| && (forall k :: first <= k < last ==> Connected(rs, original, current, k))
    requires last < |rs| ==> !Connected(rs, original, current, last)
    ensures GroupEnd(rs, original, current, first) == last
    decreases last - first
  {
    hide Connected;
    if first < last {
      GroupEndIs(rs, original, current, first + 1, last);
    }
  }

  // The group a composition has joined is the whole connected one, with its text.
  lemma GatheredTexts(rs: seq<Region>, original: map<int, Line>, current: map<int, Line>, base: seq<Line>, cur: seq<Line>, first: nat, last: nat, a: seq<Line>, b: seq<Line>)
    requires Gathered(rs, original, current, base, cur, first, last, a, b) && (last < |rs| ==> first < last && !Connected(rs, original, current, last))
    ensures first < last <= |rs| && last == GroupEnd(rs, original, current, first + 1)
    ensures a == OldText(rs, base, first, last) && b == NewText(rs, cur, first, last)
  {
    GroupEndIs(rs, original, current, first + 1, last);
    hide Connected, Run, AllIn;
  }

  lemma RediffedNext(differ: Differ, rs: seq<Region>, original: map<int, Line>, current: map<int, Line>, base: seq<Line>, cur: seq<Line>, first: nat, before: seq<Region>)
    requires first < |rs|
    ensures var last := GroupEnd(rs, original, current, first + 1);
            before + RediffedFrom(differ, rs, original, current, base, cur, first) ==
              before + GroupRediffed(differ, rs, base, cur, first, last) + RediffedFrom(differ, rs, original, current, base, cur, last)
  {
    hide GroupRediffed, GroupEnd;
  }

  lemma GroupIs(differ: Differ, rs: seq<Region>, base: seq<Line>, cur: seq<Line>, first: nat, last: nat)
    requires first < last <= |rs|
    ensures var a, b := OldText(rs, base, first, last), NewText(rs, cur, first, last);
            GroupRediffed(differ, rs, base, cur, first, last) == OpsUpTo(rs[first..last], rs[first], differ(a, b), a, b, |differ(a, b)|)
  {
    hide OpsUpTo, OldText, NewText;
  }

  lemma RediffedEnd(differ: Differ, rs: seq<Region>, original: map<int, Line>, current: map<int, Line>, base: seq<Line>, cur: seq<Line>)
    ensures RediffedFrom(differ, rs, original, current, base, cur, |rs|) == []
  {
  }

  // ----- When nothing is hidden

  // The region holds this line of the older, or of the newer file.
  predicate HoldsOld(r: Region, p: int) { r.beforeStart <= p < r.BeforeEnd() }

  predicate HoldsNew(r: Region, p: int) { r.afterStart <= p < r.AfterEnd() }

  // A line of the older, or of the newer file, that no region holds.
  predicate OldGap(rs: seq<Region>, p: int) { forall k :: 0 <= k < |rs| ==> !HoldsOld(rs[k], p) }

  predicate NewGap(rs: seq<Region>, p: int) { forall k :: 0 <= k < |rs| ==> !HoldsNew(rs[k], p) }

  /** The part changes text, but only lines between the regions: the matcher has moved a change
      to where none was made. */
  ghost predicate Stray(part: Region, rs: seq<Region>)
  {
    && part.before != part.after
    && (forall p :: HoldsOld(part, p) ==> OldGap(rs, p))
    && (forall p :: HoldsNew(part, p) ==> NewGap(rs, p))
  }

  // No part of a changed opcode strays.
  ghost predicate NoStrayOp(priors: seq<Region>, initial: Region, op: OpCode, a: seq<Line>, b: seq<Line>)
  {
    op.tag != Equal ==> forall n :: 0 <= n <= 2 * |priors| ==> !Stray(PartAt(priors, initial, op, a, b, n), priors)
  }

  ghost predicate NoStrayGroup(differ: Differ, rs: seq<Region>, base: seq<Line>, cur: seq<Line>, first: nat, last: nat)
    requires first < last <= |rs|
  {
    var a, b := OldText(rs, base, first, last), NewText(rs, cur, first, last);
    forall n :: 0 <= n < |differ(a, b)| ==> NoStrayOp(rs[first..last], rs[first], differ(a, b)[n], a, b)
  }

  /** Nowhere does the matcher move a change between the regions. */
  ghost predicate NoStray(differ: Differ, rs: seq<Region>, original: map<int, Line>, current: map<int, Line>, base: seq<Line>, cur: seq<Line>, first: nat)
    requires first <= |rs|
    decreases |rs| - first
  {
    first < |rs| ==>
      var last := GroupEnd(rs, original, current, first + 1);
      NoStrayGroup(differ, rs, base, cur, first, last) && NoStray(differ, rs, original, current, base, cur, last)
  }

  predicate NoneHidden(rs: seq<Region>) { forall k :: 0 <= k < |rs| ==> !rs[k].hidden }

  lemma HiddenJoin(p: seq<Region>, q: seq<Region>)
    ensures NoneHidden(p + q) <==> NoneHidden(p) && NoneHidden(q)
  {
    if NoneHidden(p + q) {
      assert forall k :: 0 <= k < |p| ==> p[k] == (p + q)[k];
      assert forall k :: 0 <= k < |q| ==> q[k] == (p + q)[|p| + k];
    }
  }

  // Two regions touch where they share a line.
  ghost predicate ShareLine(part: Region, prior: Region)
  {
    (exists p :: HoldsOld(part, p) && HoldsOld(prior, p)) || (exists p :: HoldsNew(part, p) && HoldsNew(prior, p))
  }

  lemma TouchesLine(part: Region, prior: Region)
    ensures Touches(part, prior) <==> ShareLine(part, prior)
  {
    var o, n := if part.beforeStart < prior.beforeStart then prior.beforeStart else part.beforeStart, if part.afterStart < prior.afterStart then prior.afterStart else part.afterStart;
    if |part.after| > 0 && |prior.after| > 0 && ReviewOverlaps(part.afterStart, part.AfterEnd(), prior) {
      assert HoldsNew(part, n) && HoldsNew(prior, n);
    } else if Touches(part, prior) {
      assert HoldsOld(part, o) && HoldsOld(prior, o);
    }
  }

  // A changing part shares no line with any region exactly if it strays.
  lemma StrayApart(part: Region, priors: seq<Region>)
    requires part.before != part.after
    ensures Stray(part, priors) <==> forall k :: 0 <= k < |priors| ==> !ShareLine(part, priors[k])
  {
    hide HoldsOld, HoldsNew;
  }

  /** A changing part is hidden, all old regions being visible, exactly if it strays. */
  lemma EmissionHidden(part: Region, priors: seq<Region>)
    requires NoneHidden(priors)
    ensures NoneHidden(Emission(part, priors)) <==> !Stray(part, priors)
  {
    hide Touches, ShareLine;
    if part.before != part.after {
      StrayApart(part, priors);
      hide Stray;
      forall k | 0 <= k < |priors| ensures Touches(part, priors[k]) <==> ShareLine(part, priors[k]) {
        TouchesLine(part, priors[k]);
      }
      var shown := Displayed(part, priors);
      assert Emission(part, priors) == [shown];
      assert NoneHidden([shown]) <==> !shown.hidden by { assert [shown][0] == shown; }
    }
  }

  lemma {:induction false} PartsHidden(priors: seq<Region>, initial: Region, op: OpCode, a: seq<Line>, b: seq<Line>, n: nat)
    requires NoneHidden(priors) && n <= 2 * |priors| + 1
    ensures NoneHidden(PartsUpTo(priors, initial, op, a, b, n)) <==> forall m :: 0 <= m < n ==> !Stray(PartAt(priors, initial, op, a, b, m), priors)
  {
    hide Stray, Emission, PartAt;
    if n > 0 {
      PartsHidden(priors, initial, op, a, b, n - 1);
      EmissionHidden(PartAt(priors, initial, op, a, b, n - 1), priors);
      HiddenJoin(PartsUpTo(priors, initial, op, a, b, n - 1), Emission(PartAt(priors, initial, op, a, b, n - 1), priors));
    }
  }

  lemma {:induction false} OpsHidden(priors: seq<Region>, initial: Region, ops: seq<OpCode>, a: seq<Line>, b: seq<Line>, n: nat)
    requires NoneHidden(priors) && n <= |ops|
    ensures NoneHidden(OpsUpTo(priors, initial, ops, a, b, n)) <==> forall m :: 0 <= m < n ==> NoStrayOp(priors, initial, ops[m], a, b)
  {
    hide Stray, PartAt, PartsUpTo;
    if n > 0 {
      OpsHidden(priors, initial, ops, a, b, n - 1);
      PartsHidden(priors, initial, ops[n - 1], a, b, 2 * |priors| + 1);
      HiddenJoin(OpsUpTo(priors, initial, ops, a, b, n - 1), if ops[n - 1].tag == Equal then [] else PartsUpTo(priors, initial, ops[n - 1], a, b, 2 * |priors| + 1));
    }
  }

  /** With every region visible, re-diffing hides nothing exactly if no changed opcode, cut at the
      regions' boundaries, has a changing part that lies between the regions on both sides. */
  lemma {:induction false} NothingHides(differ: Differ, rs: seq<Region>, original: map<int, Line>, current: map<int, Line>, base: seq<Line>, cur: seq<Line>, first: nat)
    requires NoneHidden(rs) && first <= |rs|
    ensures NoneHidden(RediffedFrom(differ, rs, original, current, base, cur, first)) <==> NoStray(differ, rs, original, current, base, cur, first)
    decreases |rs| - first
  {
    hide NoStrayOp, OpsUpTo;
    if first < |rs| {
      var last := GroupEnd(rs, original, current, first + 1);
      var a, b := OldText(rs, base, first, last), NewText(rs, cur, first, last);
      OpsHidden(rs[first..last], rs[first], differ(a, b), a, b, |differ(a, b)|);
      NothingHides(differ, rs, original, current, base, cur, last);
      HiddenJoin(GroupRediffed(differ, rs, base, cur, first, last), RediffedFrom(differ, rs, original, current, base, cur, last));
    }
  }

  // A cut stays within its opcode.
  lemma {:induction false} CutBounds(priors: seq<Region>, initial: Region, op: OpCode, n: nat)
    requires op.i1 <= op.i2 && op.j1 <= op.j2 && n <= 2 * |priors| + 1
    ensures var at := CutAfter(priors, initial, op, n); op.i1 <= at.0 <= op.i2 && op.j1 <= at.1 <= op.j2
    ensures n > 0 ==> var (was, at) := (CutAfter(priors, initial, op, n - 1), CutAfter(priors, initial, op, n)); was.0 <= at.0 && was.1 <= at.1
  {
    if n > 0 {
      CutBounds(priors, initial, op, n - 1);
    }
  }

  /** A region that is not connected to another never hides. */
  lemma OneRegionShown(differ: Differ, rs: seq<Region>, base: seq<Line>, cur: seq<Line>, first: nat)
    requires Matches(differ) && first < |rs| && Carries(rs, base, cur)
    ensures NoStrayGroup(differ, rs, base, cur, first, first + 1)
  {
    var r, a, b := rs[first], OldText(rs, base, first, first + 1), NewText(rs, cur, first, first + 1);
    RunBounds(rs, base, cur, 0, 0, |base|, |cur|);
    assert rs[first..first + 1] == [r] && a == r.before && b == r.after;
    hide Carries, Stray, PartAt;
    TilesWhole(differ, a, b);
    forall n | 0 <= n < |differ(a, b)| ensures NoStrayOp([r], r, differ(a, b)[n], a, b) {
      TilesAt(differ(a, b), a, b, 0, 0, n);
      forall m | 0 <= m <= 2 ensures !Stray(PartAt([r], r, differ(a, b)[n], a, b, m), [r]) {
        WithinRegion(r, differ(a, b)[n], m);
      }
    }
  }

  lemma {:induction false} TilesAt(ops: seq<OpCode>, a: seq<Line>, b: seq<Line>, i: int, j: int, n: nat)
    requires Tiles(ops, a, b, i, j, |a|, |b|) && n < |ops|
    ensures OpFits(ops[n], a, b)
  {
    if n > 0 {
      TilesAt(ops[1..], a, b, ops[0].i2, ops[0].j2, n - 1);
    }
  }

  lemma WithinRegion(r: Region, op: OpCode, m: nat)
    requires OpFits(op, r.before, r.after) && m <= 2
    ensures !Stray(PartAt([r], r, op, r.before, r.after, m), [r])
  {
    CutBounds([r], r, op, m);
    CutBounds([r], r, op, m + 1);
    hide CutAfter;
    var part := PartAt([r], r, op, r.before, r.after, m);
    if part.before != part.after {
      if part.before != [] {
        assert HoldsOld(part, part.beforeStart) && !OldGap([r], part.beforeStart) by { assert [r][0] == r; }
      } else {
        assert HoldsNew(part, part.afterStart) && !NewGap([r], part.afterStart) by { assert [r][0] == r; }
      }
    }
  }
}
