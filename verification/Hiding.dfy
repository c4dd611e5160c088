/** A history that hides what no capture hid: the first of two equal lines is deleted, then the line
    behind them changed.  Comparing anew, the matcher keeps the first of the two lines, so that the
    second is the deleted one; it lies between the regions the captures made. */
module Hiding {
  import opened Text
  import opened Regions
  import opened RegionEdits
  import opened Review
  import opened Matcher
  import opened ReviewText
  import opened Recall
  import opened CompositionFacts
  import opened Learning
  import opened DisplayFacts
  import opened Rediff
  import opened Composing
  import opened Composition
  import opened Chain

  // Three different whole lines.
  predicate Lines3(s: Line, x: Line, y: Line) { FullLine(s) && FullLine(x) && FullLine(y) && s != x && s != y && x != y }

  function Versions(s: Line, x: Line, y: Line): seq<seq<Line>> { [[s, s, y], [s, y], [s, x]] }

  function FirstHunk(s: Line, y: Line): Hunk { Hunk(0, 0, 0, [Row('-', s), Row(' ', s), Row(' ', y)]) }

  function SecondHunk(s: Line, x: Line, y: Line): Hunk { Hunk(0, 0, 1, [Row(' ', s), Row('-', y), Row('+', x)]) }

  function CaptureOf(hunk: Hunk, quote: Quote): Capture
  {
    var file := ReviewFile("f", "f", "", "", false, false);
    Capture(file.(diff := RenderedDiff(file, quote, [hunk])), false, false)
  }

  function Captures(s: Line, x: Line, y: Line, quote: Quote): seq<Capture> { [CaptureOf(FirstHunk(s, y), quote), CaptureOf(SecondHunk(s, x, y), quote)] }

  // Between the first and the last version, the first equal lines are matched.
  function FirstMatch(s: Line, x: Line, y: Line): Differ
  {
    (a, b) => if a == [s, s, y] && b == [s, x] then [OpCode(Equal, 0, 1, 0, 1), OpCode(Replace, 1, 3, 1, 2)] else WholeDiffer(a, b)
  }

  lemma FirstMatchMatches(s: Line, x: Line, y: Line)
    requires Lines3(s, x, y)
    ensures Matches(FirstMatch(s, x, y))
  {
    WholeDifferMatches();
    var differ := FirstMatch(s, x, y);
    forall a: seq<Line>, b: seq<Line> ensures Tiles(differ(a, b), a, b, 0, 0, |a|, |b|) {
      if a == [s, s, y] && b == [s, x] {
        var ops := [OpCode(Equal, 0, 1, 0, 1), OpCode(Replace, 1, 3, 1, 2)];
        assert ops[1..] == [ops[1]] && ops[1..][1..] == [];
        assert OpFits(ops[0], a, b) && OpFits(ops[1], a, b);
      } else {
        assert Tiles(WholeDiffer(a, b), a, b, 0, 0, |a|, |b|);
      }
    }
  }

  // ----- The captures

  lemma Sides3(r: Row, t: Row, u: Row)
    ensures OldSide([r, t, u]) == OldRow(r) + OldRow(t) + OldRow(u) && NewSide([r, t, u]) == NewRow(r) + NewRow(t) + NewRow(u)
  {
    var rows := [r, t, u];
    assert OldUpTo(rows, 0) == [] && OldUpTo(rows, 1) == OldRow(r) && OldUpTo(rows, 2) == OldRow(r) + OldRow(t);
    assert NewUpTo(rows, 0) == [] && NewUpTo(rows, 1) == NewRow(r) && NewUpTo(rows, 2) == NewRow(r) + NewRow(t);
  }

  lemma HunkSides(s: Line, x: Line, y: Line)
    ensures HunkRegion(FirstHunk(s, y)) == Region(0, 0, [s, s, y], [s, y], false, false)
    ensures HunkRegion(SecondHunk(s, x, y)) == Region(0, 0, [s, y], [s, x], false, false)
  {
    Sides3(Row('-', s), Row(' ', s), Row(' ', y));
    Sides3(Row(' ', s), Row('-', y), Row('+', x));
  }

  // A hunk that covers a whole text is a step to its other side.
  lemma WholeStep(hunk: Hunk, quote: Quote, from: seq<Line>, to: seq<Line>)
    requires Quotes(quote) && HunkRegion(hunk) == Region(0, 0, from, to, false, false) && 0 < |from| <= 3 && 0 < |to| <= 3 && |hunk.rows| == 3
    requires Printable(hunk.rows) && hunk.changedStart == FirstChange(hunk.rows)
    ensures ParseHunks(CaptureOf(hunk, quote).file, quote, true) == Ok([hunk])
    ensures Step(CaptureOf(hunk, quote).file, quote, from, to)
  {
    var file := CaptureOf(hunk, quote).file;
    assert HunkRegions([hunk]) == [HunkRegion(hunk)];
    assert HunkRepresentable(hunk);
    assert Plain([hunk]) && TotalRows([hunk]) == 3 && FitsFormat([hunk]);
    FollowsAlone(hunk);
    SameRendered(hunk, quote);
    ParseRendered(file, quote, [hunk], true);
    PatchedWhole(HunkRegion(hunk), from, to);
    StepIs(file, quote, [hunk], from, to);
  }

  lemma FollowsAlone(hunk: Hunk)
    requires hunk.beforeStart == 0 == hunk.afterStart && Printable(hunk.rows)
    ensures Follows([hunk], true, Progress(0, 0, 0, 0))
  {
    assert HunkRegions([hunk])[..0] == [];
    assert Growth([]) == 0;
  }

  // The diff text does not depend on the diff it replaces.
  lemma SameRendered(hunk: Hunk, quote: Quote)
    ensures var file := CaptureOf(hunk, quote).file; file.diff == RenderedDiff(file, quote, [hunk])
  {
    hide PrintHunks;
  }

  lemma PatchedWhole(r: Region, from: seq<Line>, to: seq<Line>)
    requires r == Region(0, 0, from, to, false, false)
    ensures Fits([r], from) && Patched([r], from) == to
  {
    assert from[0..|from|] == from;
    assert [r][..0] == [];
    assert Spliced(from, 0, |from|, to) == to;
  }

  lemma HistoryHolds(s: Line, x: Line, y: Line, quote: Quote)
    requires Lines3(s, x, y) && Quotes(quote)
    ensures History(Captures(s, x, y, quote), quote, Versions(s, x, y)) && WithinCapacity(Captures(s, x, y, quote), quote, Versions(s, x, y))
    ensures ParseHunks(Captures(s, x, y, quote)[0].file, quote, true) == Ok([FirstHunk(s, y)])
    ensures ParseHunks(Captures(s, x, y, quote)[1].file, quote, true) == Ok([SecondHunk(s, x, y)])
  {
    var captures, versions := Captures(s, x, y, quote), Versions(s, x, y);
    hide ParseHunks, RenderedDiff, Patched, Fits, Step;
    HunkSides(s, x, y);
    FirstChanges(s, x, y);
    WholeStep(FirstHunk(s, y), quote, [s, s, y], [s, y]);
    WholeStep(SecondHunk(s, x, y), quote, [s, y], [s, x]);
    hide FirstHunk, SecondHunk, FirstChange, CaptureOf;
    assert captures[0] == CaptureOf(FirstHunk(s, y), quote) && captures[1] == CaptureOf(SecondHunk(s, x, y), quote);
    assert versions[0] == [s, s, y] && versions[1] == [s, y] && versions[2] == [s, x];
    forall i | 0 <= i < |captures| ensures Step(captures[i].file, quote, versions[i], versions[i + 1]) {
      assert i == 0 || i == 1;
    }
    SixRows(captures, quote, s, x, y);
    hide CapturedRows;
    forall i | 0 <= i < |captures| ensures Roomy(captures, quote, versions, i) {
      assert i == 0 || i == 1;
    }
  }

  lemma {:induction false} SixRows(captures: seq<Capture>, quote: Quote, s: Line, x: Line, y: Line)
    requires |captures| == 2 && ParseHunks(captures[0].file, quote, true) == Ok([FirstHunk(s, y)]) && ParseHunks(captures[1].file, quote, true) == Ok([SecondHunk(s, x, y)])
    ensures CapturedRows(captures, quote, 1) == 3 && CapturedRows(captures, quote, 2) == 6
  {
    hide ParseHunks;
    assert TotalRows([FirstHunk(s, y)]) == 3 && TotalRows([SecondHunk(s, x, y)]) == 3;
    assert CapturedRows(captures, quote, 0) == 0;
    assert CapturedRows(captures, quote, 1) == 3;
  }

  lemma FirstChanges(s: Line, x: Line, y: Line)
    ensures FirstChange(FirstHunk(s, y).rows) == 0 && FirstChange(SecondHunk(s, x, y).rows) == 1
  {
    var rows, rows' := FirstHunk(s, y).rows, SecondHunk(s, x, y).rows;
    assert rows[0].kind == '-' && rows'[0].kind == ' ' && rows'[1].kind == '-';
    assert rows'[1..][0] == rows'[1];
  }

  // ----- What they make of the regions

  // The region the first capture leaves, and the one the second adds.
  function Deleted(s: Line): Region { Region(0, 0, [s], [], false, false) }

  function Changed(x: Line, y: Line): Region { Region(2, 1, [y], [x], false, false) }

  // What comparing anew makes of them.
  function Strayed(s: Line): Region { Region(1, 1, [s], [], true, false) }

  lemma Edits(s: Line, x: Line, y: Line)
    ensures ToEdits(HunkEdits([FirstHunk(s, y)])) == [Edit(0, [s], [])]
    ensures ToEdits(HunkEdits([SecondHunk(s, x, y)])) == [Edit(1, [y], [x])]
  {
    EditsAlone(FirstHunk(s, y));
    EditsAlone(SecondHunk(s, x, y));
    FirstEdits(s, y);
    SecondEdits(s, x, y);
  }

  lemma EditsNext(rows: seq<Row>, n: nat)
    requires n < |rows|
    ensures EditsUpTo(rows, n + 1, 0, 0) == AddRow(EditsUpTo(rows, n, 0, 0), rows[n], EndsChanged(rows, n), |OldUpTo(rows, n)|, |NewUpTo(rows, n)|)
    ensures EditsUpTo(rows, 0, 0, 0) == [] && OldUpTo(rows, 0) == [] && NewUpTo(rows, 0) == []
    ensures OldUpTo(rows, n + 1) == OldUpTo(rows, n) + OldRow(rows[n]) && NewUpTo(rows, n + 1) == NewUpTo(rows, n) + NewRow(rows[n])
  {
  }

  // What the rows do, one after the other.
  lemma FirstAdds(s: Line, y: Line)
    ensures var rows := FirstHunk(s, y).rows;
            && |rows| == 3 && !EndsChanged(rows, 0) && AddRow([], rows[0], false, 0, 0) == [Deleted(s)]
            && EndsChanged(rows, 1) && (forall i, j :: AddRow([Deleted(s)], rows[1], true, i, j) == [Deleted(s)])
            && !EndsChanged(rows, 2) && forall i, j :: AddRow([Deleted(s)], rows[2], false, i, j) == [Deleted(s)]
  {
  }

  lemma SecondAdds(s: Line, x: Line, y: Line)
    ensures var rows := SecondHunk(s, x, y).rows;
            && |rows| == 3 && !EndsChanged(rows, 0) && AddRow([], rows[0], false, 0, 0) == []
            && |OldRow(rows[0])| == |NewRow(rows[0])| == 1
            && !EndsChanged(rows, 1) && AddRow([], rows[1], false, 1, 1) == [Region(1, 1, [y], [], false, false)]
            && EndsChanged(rows, 2) && forall i, j :: AddRow([Region(1, 1, [y], [], false, false)], rows[2], true, i, j) == [Region(1, 1, [y], [x], false, false)]
  {
    assert [y] + [] == [y] && [] + [x] == [x];
    assert Grown(Region(1, 1, [y], [], false, false), [], [x]) == Region(1, 1, [y], [x], false, false);
  }

  lemma FirstEdits(s: Line, y: Line)
    ensures EditsUpTo(FirstHunk(s, y).rows, 3, 0, 0) == [Deleted(s)]
  {
    var rows := FirstHunk(s, y).rows;
    hide *;
    FirstAdds(s, y);
    EditsNext(rows, 0);
    EditsNext(rows, 1);
    EditsNext(rows, 2);
  }

  lemma SecondEdits(s: Line, x: Line, y: Line)
    ensures EditsUpTo(SecondHunk(s, x, y).rows, 3, 0, 0) == [Region(1, 1, [y], [x], false, false)]
  {
    var rows := SecondHunk(s, x, y).rows;
    hide *;
    SecondAdds(s, x, y);
    EditsNext(rows, 0);
    EditsNext(rows, 1);
    EditsNext(rows, 2);
  }

  lemma EditsAlone(hunk: Hunk)
    ensures HunkEdits([hunk]) == EditsUpTo(hunk.rows, |hunk.rows|, hunk.beforeStart, hunk.afterStart)
  {
    hide EditsUpTo;
    assert HunkEditsUpTo([hunk], 0) == [];
    assert HunkEditsUpTo([hunk], 1) == [] + EditsUpTo(hunk.rows, |hunk.rows|, hunk.beforeStart, hunk.afterStart);
  }

  lemma OneEdit(was: Working, now: Working, e: Edit, base: seq<Line>)
    requires Applied(was, now, [e], 0, false, false, base)
    ensures ReplacedBy(was, now, e, false, false, base)
  {
    hide ReplacedBy;
    var mid :| Applied(was, mid, [e], 1, false, false, base) && ReplacedBy(mid, now, [e][0], false, false, base);
    assert mid == was;
  }

  lemma FirstReplaced(s: Line, x: Line, y: Line, known: map<int, Line>, now: Working)
    requires Lines3(s, x, y) && ReplacedBy(Working([], known, [s, s, y]), now, Edit(0, [s], []), false, false, [s, s, y])
    ensures now.regions == [Deleted(s)]
  {
    var base, e := [s, s, y], Edit(0, [s], []);
    var lo, hi, net :| Replaces(Working([], known, base), now, e, false, false, base, lo, hi, net);
    assert base[0..1] == [s];
    assert now.regions == net;
  }

  lemma SecondReplaced(s: Line, x: Line, y: Line, known: map<int, Line>, now: Working)
    requires Lines3(s, x, y) && ReplacedBy(Working([Deleted(s)], known, [s, y]), now, Edit(1, [y], [x]), false, false, [s, s, y])
    ensures now.regions == [Deleted(s), Changed(x, y)] && (0 in known ==> 0 in now.current)
  {
    var base, cur, e, rs := [s, s, y], [s, y], Edit(1, [y], [x]), [Deleted(s)];
    assert rs[0].afterStart == 0 == rs[0].AfterEnd() && !ReviewOverlaps(1, 2, rs[0]);
    var lo, hi, net :| Replaces(Working(rs, known, cur), now, e, false, false, base, lo, hi, net);
    assert lo == hi == 1 && rs[1..1] == [] && Growth([]) == 0;
    assert StretchStart(rs, e, base, cur, 1, 1) == 2 && StretchEnd(rs, e, base, cur, 1, 1) == 3;
    assert base[2..3] == [y] && cur[1..1] + [x] + cur[2..2] == [x];
    assert [y] != [x] by { assert [y][0] != [x][0]; }
    assert net == [Changed(x, y)];
    if 0 in known {
      assert RememberedAt(known, e, 0);
    }
  }

  lemma FirstParts(s: Line)
    ensures PartsUpTo([Deleted(s)], Deleted(s), OpCode(Delete, 0, 1, 0, 0), [s], [], 3) == [Deleted(s)]
  {
    var rs, r, op := [Deleted(s)], Deleted(s), OpCode(Delete, 0, 1, 0, 0);
    assert CutAfter(rs, r, op, 0) == (0, 0) == CutAfter(rs, r, op, 1) && CutAfter(rs, r, op, 2) == (1, 0) == CutAfter(rs, r, op, 3);
    NoEmission(r, [s], [], (0, 0), rs);
    NoEmission(r, [s], [], (1, 0), rs);
    var part := Part(r, [s], [], (0, 0), (1, 0));
    assert part == r.(hidden := true);
    assert Touches(part, rs[0]);
    assert Emission(part, rs) == [r];
    hide CutAfter, Emission, Part;
    assert PartsUpTo(rs, r, op, [s], [], 1) == [];
    assert PartsUpTo(rs, r, op, [s], [], 2) == [r];
  }

  lemma FirstRediffed(s: Line, x: Line, y: Line, original: map<int, Line>, current: map<int, Line>)
    requires Lines3(s, x, y)
    ensures RediffedFrom(FirstMatch(s, x, y), [Deleted(s)], original, current, [s, s, y], [s, y], 0) == [Deleted(s)]
  {
    var rs, r, base, cur, differ := [Deleted(s)], Deleted(s), [s, s, y], [s, y], FirstMatch(s, x, y);
    var op := OpCode(Delete, 0, 1, 0, 0);
    assert GroupEnd(rs, original, current, 1) == 1;
    assert OldText(rs, base, 0, 1) == [s] && NewText(rs, cur, 0, 1) == [] && differ([s], []) == [op] && rs[0..1] == [r];
    FirstParts(s);
    hide PartsUpTo, FirstMatch, OldText, NewText, GroupEnd;
    assert OpsUpTo(rs, r, [op], [s], [], 0) == [];
    assert OpsUpTo(rs, r, [op], [s], [], 1) == [r];
    assert RediffedFrom(differ, rs, original, current, base, cur, 1) == [];
  }

  // The second opcode, cut at the end of the deleted line's region and where the changed line is.
  lemma SecondParts(s: Line, x: Line, y: Line)
    requires Lines3(s, x, y)
    ensures PartsUpTo([Deleted(s), Changed(x, y)], Deleted(s), OpCode(Replace, 1, 3, 1, 2), [s, s, y], [s, x], 5) == [Strayed(s), Changed(x, y)]
  {
    var rs, r, a, b, op := [Deleted(s), Changed(x, y)], Deleted(s), [s, s, y], [s, x], OpCode(Replace, 1, 3, 1, 2);
    SecondCuts(s, x, y);
    NoEmission(r, a, b, (1, 1), rs);
    NoEmission(r, a, b, (3, 2), rs);
    var stray, changed := Part(r, a, b, (1, 1), (2, 1)), Part(r, a, b, (2, 1), (3, 2));
    assert a[1..2] == [s] && a[2..3] == [y] && b[1..1] == [] && b[1..2] == [x];
    assert stray == Strayed(s) && changed == Changed(x, y).(hidden := true);
    assert [y] != [x] by { assert [y][0] != [x][0]; }
    assert !Touches(stray, rs[0]) && !Touches(stray, rs[1]) && Touches(changed, rs[1]);
    assert Emission(stray, rs) == [Strayed(s)] && Emission(changed, rs) == [Changed(x, y)];
    hide CutAfter, Emission, Part;
    assert PartsUpTo(rs, r, op, a, b, 0) == [] && PartsUpTo(rs, r, op, a, b, 1) == [] && PartsUpTo(rs, r, op, a, b, 2) == [];
    assert PartsUpTo(rs, r, op, a, b, 3) == [Strayed(s)] && PartsUpTo(rs, r, op, a, b, 4) == [Strayed(s), Changed(x, y)];
  }

  lemma SecondCuts(s: Line, x: Line, y: Line)
    ensures var rs, r, op := [Deleted(s), Changed(x, y)], Deleted(s), OpCode(Replace, 1, 3, 1, 2);
            && CutAfter(rs, r, op, 0) == CutAfter(rs, r, op, 1) == CutAfter(rs, r, op, 2) == (1, 1)
            && CutAfter(rs, r, op, 3) == (2, 1) && CutAfter(rs, r, op, 4) == CutAfter(rs, r, op, 5) == (3, 2)
  {
    var rs, r, op := [Deleted(s), Changed(x, y)], Deleted(s), OpCode(Replace, 1, 3, 1, 2);
    assert Edge(rs, r, op, 0) == (0, 0) && Edge(rs, r, op, 1) == (1, 0) && Edge(rs, r, op, 2) == (2, 1) && Edge(rs, r, op, 3) == (3, 2) == Edge(rs, r, op, 4);
  }

  lemma SecondRediffed(s: Line, x: Line, y: Line, original: map<int, Line>, current: map<int, Line>)
    requires Lines3(s, x, y) && 1 in original && 0 in current
    ensures RediffedFrom(FirstMatch(s, x, y), [Deleted(s), Changed(x, y)], original, current, [s, s, y], [s, x], 0) == [Strayed(s), Changed(x, y)]
  {
    var rs, r, base, cur, differ := [Deleted(s), Changed(x, y)], Deleted(s), [s, s, y], [s, x], FirstMatch(s, x, y);
    var ops := [OpCode(Equal, 0, 1, 0, 1), OpCode(Replace, 1, 3, 1, 2)];
    assert Connected(rs, original, current, 1) by { assert KnownAt(original, current, 1, 0, 0); }
    assert GroupEnd(rs, original, current, 2) == 2 && GroupEnd(rs, original, current, 1) == 2;
    assert OldText(rs, base, 0, 2) == base && NewText(rs, cur, 0, 2) == cur && differ(base, cur) == ops && rs[0..2] == rs;
    SecondParts(s, x, y);
    hide PartsUpTo;
    assert OpsUpTo(rs, r, ops, base, cur, 0) == [] && OpsUpTo(rs, r, ops, base, cur, 1) == [];
    assert OpsUpTo(rs, r, ops, base, cur, 2) == [Strayed(s), Changed(x, y)];
    assert RediffedFrom(differ, rs, original, current, base, cur, 2) == [];
  }

  lemma FirstComposed(s: Line, x: Line, y: Line, now: Snapshot)
    requires Lines3(s, x, y) && Composes(Snapshot([], map[], map[]), now, [FirstHunk(s, y)], FirstMatch(s, x, y), false, false, [s, s, y], [s, s, y])
    ensures now.regions == [Deleted(s)]
  {
    var base, hunks, differ := [s, s, y], [FirstHunk(s, y)], FirstMatch(s, x, y);
    hide *;
    ComposesUnfolds(Snapshot([], map[], map[]), now, hunks, differ, base, base);
    var known, prior :| ComposesBy(Snapshot([], map[], map[]), now, hunks, differ, false, false, base, base, known, prior);
    var next := Unpacked(Snapshot([], map[], map[]), now, hunks, differ, base, base, known, prior);
    Edits(s, x, y);
    PatchedHunks(s, x, y);
    OneEdit(Working([], known, base), Working(prior, now.current, next), Edit(0, [s], []), base);
    FirstReplaced(s, x, y, known, Working(prior, now.current, next));
    FirstRediffed(s, x, y, now.original, now.current);
  }

  lemma Unpacked(was: Snapshot, now: Snapshot, hunks: seq<Hunk>, differ: Differ, base: seq<Line>, cur: seq<Line>, known: map<int, Line>, prior: seq<Region>) returns (next: seq<Line>)
    requires ComposesBy(was, now, hunks, differ, false, false, base, cur, known, prior)
    ensures Fits(HunkRegions(hunks), cur) && next == Patched(HunkRegions(hunks), cur)
    ensures Applied(Working(was.regions, known, cur), Working(prior, now.current, next), ToEdits(HunkEdits(hunks)), 0, false, false, base)
    ensures now.regions == RediffedFrom(differ, prior, now.original, now.current, base, next, 0)
    ensures Learned(hunks, |hunks|, known, cur) && TrackedHunks(was.regions, hunks, |hunks|, now.original)
  {
    hide Applied, RediffedFrom, Learned, TrackedHunks, ToEdits, HunkEdits, Fits, Patched, HunkRegions;
    next := Patched(HunkRegions(hunks), cur);
  }

  lemma SecondComposed(s: Line, x: Line, y: Line, was: Snapshot, now: Snapshot)
    requires Lines3(s, x, y) && was.regions == [Deleted(s)]
    requires Composes(was, now, [SecondHunk(s, x, y)], FirstMatch(s, x, y), false, false, [s, s, y], [s, y])
    ensures now.regions == [Strayed(s), Changed(x, y)]
  {
    var base, cur, hunks, differ := [s, s, y], [s, y], [SecondHunk(s, x, y)], FirstMatch(s, x, y);
    hide *;
    ComposesUnfolds(was, now, hunks, differ, base, cur);
    var known, prior :| ComposesBy(was, now, hunks, differ, false, false, base, cur, known, prior);
    var next := Unpacked(was, now, hunks, differ, base, cur, known, prior);
    Edits(s, x, y);
    PatchedHunks(s, x, y);
    SecondLearned(s, x, y, known, now.original);
    OneEdit(Working([Deleted(s)], known, cur), Working(prior, now.current, next), Edit(1, [y], [x]), base);
    SecondReplaced(s, x, y, known, Working(prior, now.current, next));
    SecondRediffed(s, x, y, now.original, now.current);
  }

  lemma ComposesUnfolds(was: Snapshot, now: Snapshot, hunks: seq<Hunk>, differ: Differ, base: seq<Line>, cur: seq<Line>)
    requires Composes(was, now, hunks, differ, false, false, base, cur)
    ensures exists known, prior :: ComposesBy(was, now, hunks, differ, false, false, base, cur, known, prior)
  {
    hide ComposesBy;
  }

  lemma PatchedHunks(s: Line, x: Line, y: Line)
    ensures Fits(HunkRegions([FirstHunk(s, y)]), [s, s, y]) && Patched(HunkRegions([FirstHunk(s, y)]), [s, s, y]) == [s, y]
    ensures Fits(HunkRegions([SecondHunk(s, x, y)]), [s, y]) && Patched(HunkRegions([SecondHunk(s, x, y)]), [s, y]) == [s, x]
  {
    HunkSides(s, x, y);
    assert HunkRegions([FirstHunk(s, y)]) == [HunkRegion(FirstHunk(s, y))] && HunkRegions([SecondHunk(s, x, y)]) == [HunkRegion(SecondHunk(s, x, y))];
    hide Fits, Patched, HunkRegions, FirstHunk, SecondHunk;
    PatchedWhole(HunkRegion(FirstHunk(s, y)), [s, s, y], [s, y]);
    PatchedWhole(HunkRegion(SecondHunk(s, x, y)), [s, y], [s, x]);
  }

  // The kept line is remembered on both sides.
  lemma SecondLearned(s: Line, x: Line, y: Line, known: map<int, Line>, original: map<int, Line>)
    requires Learned([SecondHunk(s, x, y)], 1, known, [s, y]) && TrackedHunks([Deleted(s)], [SecondHunk(s, x, y)], 1, original)
    ensures 0 in known && 1 in original
  {
    var hunk, rs := SecondHunk(s, x, y), [Deleted(s)];
    HunkSides(s, x, y);
    assert HunkRegion(hunk).before == OldSide(hunk.rows);
    assert [hunk][0] == hunk;
    assert Tracked(rs, original, 0, 2);
    assert Walked(rs, 0, 1, true);
    assert rs[..1] == rs && rs[1..] == [] && Growth(rs[1..]) == 0 && Growth(rs) == -1;
  }

  lemma HiddenTrail(s: Line, x: Line, y: Line, quote: Quote, trail: seq<Snapshot>)
    requires Lines3(s, x, y) && Quotes(quote) && Trail(Captures(s, x, y, quote), quote, FirstMatch(s, x, y), Versions(s, x, y), trail) && |trail| == 3
    ensures trail[2].regions == [Strayed(s), Changed(x, y)]
  {
    HistoryHolds(s, x, y, quote);
    hide History, WithinCapacity, Composes, ParseHunks, FirstMatch, RenderedDiff;
    assert TrailStep(Captures(s, x, y, quote), quote, FirstMatch(s, x, y), Versions(s, x, y), trail, 0);
    assert TrailStep(Captures(s, x, y, quote), quote, FirstMatch(s, x, y), Versions(s, x, y), trail, 1);
    FirstComposed(s, x, y, trail[1]);
    SecondComposed(s, x, y, trail[1], trail[2]);
  }

  lemma AllVisible3(s: Line, x: Line, y: Line, quote: Quote)
    ensures var captures := Captures(s, x, y, quote); |captures| == 2 && !captures[0].hidden && !captures[1].hidden
    ensures Versions(s, x, y) == [[s, s, y], [s, y], [s, x]]
  {
  }

  /** All captures are visible, and yet the composition hides a change, so that what it shows is not
      the last version. */
  method HiddenByComparingAnew(s: Line, x: Line, y: Line, quote: Quote) returns (c: ReviewComposition)
    requires Lines3(s, x, y) && Quotes(quote)
    ensures var captures := Captures(s, x, y, quote); |captures| == 2 && !captures[0].hidden && !captures[1].hidden
    ensures History(Captures(s, x, y, quote), quote, [[s, s, y], [s, y], [s, x]]) && Matches(FirstMatch(s, x, y))
    ensures c.Describes([s, s, y], [s, x]) && c.regions == [Strayed(s), Changed(x, y)]
    ensures ShownText(c.regions, [s, s, y]) == [s, s, x] != [s, x]
  {
    hide *;
    HistoryHolds(s, x, y, quote);
    FirstMatchMatches(s, x, y);
    AllVisible3(s, x, y, quote);
    ghost var trail;
    c, trail := Compose(Captures(s, x, y, quote), quote, FirstMatch(s, x, y), Versions(s, x, y));
    HiddenTrail(s, x, y, quote, trail);
    SnapRegions(c);
    ShownDiffers(s, x, y);
  }

  lemma SnapRegions(c: ReviewComposition)
    ensures c.Snap().regions == c.regions
  {
  }

  lemma ShownDiffers(s: Line, x: Line, y: Line)
    requires Lines3(s, x, y)
    ensures ShownText([Strayed(s), Changed(x, y)], [s, s, y]) == [s, s, x] != [s, x]
  {
    var rs, base, r := [Strayed(s), Changed(x, y)], [s, s, y], Changed(x, y);
    assert rs[1..] == [r] && [r][1..] == [] && !rs[0].hidden == false && !r.hidden;
    assert Visible([]) == [] && Visible([r]) == [r] + Visible([]);
    assert Visible(rs) == [] + Visible([r]);
    assert base[2..3] == [y];
    hide Visible;
    assert [r][..0] == [] && Fits([r], base);
    assert Spliced(base, 2, 3, [x]) == [s, s, x];
    assert Patched([r], base) == Patched([], [s, s, x]) == [s, s, x];
    assert |[s, s, x]| != |[s, x]|;
  }
}
