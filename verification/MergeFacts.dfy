/** What replaying hunks on a drifted text does to it. */
module MergeFacts {
  import opened Text
  import opened Regions
  import opened Matcher
  import opened Review
  import opened ReviewText
  import opened ReviewRender
  import opened Recall
  import opened CompositionFacts
  import opened DisplayFacts
  import opened Diff3
  import opened Anchors

  // ----- The two sides of a hunk

  // What a hunk expects to find, what replaces it, and where it was recorded.
  function From(h: Hunk, reverse: bool): seq<Line> { if reverse then NewSide(h.rows) else OldSide(h.rows) }

  function To(h: Hunk, reverse: bool): seq<Line> { if reverse then OldSide(h.rows) else NewSide(h.rows) }

  function Start(h: Hunk, reverse: bool): int { if reverse then h.afterStart else h.beforeStart }

  // The hunk as one replacement, in the requested direction.
  function Plan(h: Hunk, reverse: bool): Region
  {
    Region(Start(h, reverse), Start(h, !reverse), From(h, reverse), To(h, reverse), false, false)
  }

  function Plans(hunks: seq<Hunk>, reverse: bool): (rs: seq<Region>)
    ensures |rs| == |hunks| && forall k :: 0 <= k < |rs| ==> rs[k] == Plan(hunks[k], reverse)
  {
    seq(|hunks|, k requires 0 <= k < |hunks| => Plan(hunks[k], reverse))
  }

  // The number of rows before the first change.
  function LeadOf(rows: seq<Row>): (lead: nat)
    ensures lead <= |rows| && (forall k :: 0 <= k < lead ==> rows[k].kind == ' ') && (lead < |rows| ==> rows[lead].kind != ' ')
  {
    if rows == [] || rows[0].kind != ' ' then 0 else 1 + LeadOf(rows[1..])
  }

  // The number of rows behind the last change.
  function TrailOf(rows: seq<Row>): (trail: nat)
    ensures trail <= |rows| && (forall k :: |rows| - trail <= k < |rows| ==> rows[k].kind == ' ')
    ensures trail < |rows| ==> rows[|rows| - 1 - trail].kind != ' '
  {
    if rows == [] || rows[|rows| - 1].kind != ' ' then 0 else 1 + TrailOf(rows[..|rows| - 1])
  }

  // The rows before the first change, and those behind the last; all rows lead if none changes.
  predicate ContextOf(rows: seq<Row>, lead: nat, trail: nat)
  {
    lead == LeadOf(rows) && trail == TrailOf(rows[lead..])
  }

  lemma LeadIs(rows: seq<Row>, lead: nat)
    requires lead <= |rows| && (forall k :: 0 <= k < lead ==> rows[k].kind == ' ') && (lead < |rows| ==> rows[lead].kind != ' ')
    ensures lead == LeadOf(rows)
  {
    hide LeadOf;
    var n := LeadOf(rows);
  }

  lemma TrailIs(rows: seq<Row>, trail: nat)
    requires trail <= |rows| && (forall k :: |rows| - trail <= k < |rows| ==> rows[k].kind == ' ')
    requires trail < |rows| ==> rows[|rows| - 1 - trail].kind != ' '
    ensures trail == TrailOf(rows)
  {
    hide TrailOf;
    var n, l := TrailOf(rows), |rows| - 1;
    assert 0 <= l - n < |rows| ==> rows[l - n].kind != ' ';
  }

  lemma ContextRows(rows: seq<Row>, lead: nat, trail: nat)
    requires ContextOf(rows, lead, trail)
    ensures lead + trail <= |rows| && forall k :: 0 <= k < lead || |rows| - trail <= k < |rows| ==> rows[k].kind == ' '
  {
    hide LeadOf, TrailOf;
    var n, m := LeadOf(rows), TrailOf(rows[lead..]);
    forall k | |rows| - trail <= k < |rows| ensures rows[k].kind == ' ' {
      assert rows[lead..][k - lead] == rows[k];
    }
  }

  lemma {:induction false} ContextSides(rows: seq<Row>)
    requires forall k :: 0 <= k < |rows| ==> rows[k].kind == ' '
    ensures OldSide(rows) == NewSide(rows) && |OldSide(rows)| == |rows|
  {
    if rows != [] {
      var n := |rows| - 1;
      ContextSides(rows[..n]);
      SidesPrefix(rows[..n], rows[n..], n);
      assert rows[..n] + rows[n..] == rows;
    }
  }

  /** Context is part of both sides: it starts both alike, and leaves room behind it. */
  lemma ContextShared(rows: seq<Row>, lead: nat, trail: nat)
    requires ContextOf(rows, lead, trail)
    ensures lead + trail <= |OldSide(rows)| && lead + trail <= |NewSide(rows)|
    ensures OldSide(rows)[..lead] == NewSide(rows)[..lead]
  {
    ContextRows(rows, lead, trail);
    hide *;
    var head, mid, tail := rows[..lead], rows[lead..|rows| - trail], rows[|rows| - trail..];
    assert rows == head + mid + tail;
    ContextSides(head);
    ContextSides(tail);
    SideConcat(head + mid, tail);
    SideConcat(head, mid);
  }

  // ----- Windows

  /** The output so far is the text up to the cursor with the windows rs rewritten. */
  ghost predicate Windows(rs: seq<Region>, lines: seq<Line>, output: seq<Line>, cursor: int)
  {
    Run(rs, lines, output, 0, 0, cursor, |output|)
  }

  lemma WindowsStart(lines: seq<Line>)
    ensures Windows([], lines, [], 0)
  {
  }

  lemma WindowsBounds(rs: seq<Region>, lines: seq<Line>, output: seq<Line>, cursor: int)
    requires Windows(rs, lines, output, cursor)
    ensures 0 <= cursor <= |lines|
  {
  }

  lemma WindowsRun(rs: seq<Region>, lines: seq<Line>, output: seq<Line>, cursor: int)
    ensures Windows(rs, lines, output, cursor) <==> Run(rs, lines, output, 0, 0, cursor, |output|)
  {
  }

  lemma Appended(output: seq<Line>, more: seq<Line>)
    ensures (output + more)[0..|output|] == output[0..|output|] && (output + more)[|output|..|output + more|] == more
  {
  }

  // Copying the text on to `at`.
  lemma WindowsCopy(rs: seq<Region>, lines: seq<Line>, output: seq<Line>, cursor: int, at: int)
    requires Windows(rs, lines, output, cursor) && cursor <= at <= |lines|
    ensures 0 <= cursor && Windows(rs, lines, output + lines[cursor..at], at)
  {
    hide *;
    WindowsBounds(rs, lines, output, cursor);
    WindowsRun(rs, lines, output, cursor);
    var more := lines[cursor..at];
    var next := output + more;
    Appended(output, more);
    RunUnmoved(rs, lines, output, next, 0, 0, cursor, |output|);
    RunExtend(rs, lines, next, 0, 0, cursor, |output|, at - cursor);
    WindowsRun(rs, lines, next, at);
  }

  // Rewriting the n lines at the cursor.
  lemma WindowsRewrite(rs: seq<Region>, lines: seq<Line>, output: seq<Line>, cursor: int, end: int, mid: seq<Line>) returns (next: seq<Region>)
    requires Windows(rs, lines, output, cursor) && cursor <= end <= |lines|
    ensures 0 <= cursor && next == rs + [Region(cursor, |output|, lines[cursor..end], mid, false, false)]
    ensures Windows(next, lines, output + mid, end)
  {
    hide *;
    WindowsBounds(rs, lines, output, cursor);
    WindowsRun(rs, lines, output, cursor);
    var r := Region(cursor, |output|, lines[cursor..end], mid, false, false);
    Appended(output, mid);
    RunUnmoved(rs, lines, output, output + mid, 0, 0, cursor, |output|);
    SnocWindow(rs, r, lines, output + mid, cursor, end);
    next := rs + [r];
    WindowsRun(next, lines, output + mid, end);
  }

  lemma SnocWindow(rs: seq<Region>, r: Region, lines: seq<Line>, output: seq<Line>, cursor: int, end: int)
    requires Run(rs, lines, output, 0, 0, r.beforeStart, r.afterStart) && r.beforeStart == cursor && 0 <= cursor <= end <= |lines|
    requires r.before == lines[cursor..end] && r.afterStart + |r.after| == |output| && 0 <= r.afterStart && output[r.afterStart..|output|] == r.after
    ensures Run(rs + [r], lines, output, 0, 0, end, |output|)
  {
    hide Run;
    RunSnoc(rs, r, lines, output, 0, 0);
  }

  /** The rest of the text is copied: the windows carry the text to the whole output, so every
      line outside them survives, in order. */
  lemma WindowsDone(rs: seq<Region>, lines: seq<Line>, output: seq<Line>, cursor: int)
    requires Windows(rs, lines, output, cursor)
    ensures 0 <= cursor <= |lines| && Carries(rs, lines, output + lines[cursor..])
  {
    WindowsCopy(rs, lines, output, cursor, |lines|);
    assert lines[cursor..|lines|] == lines[cursor..];
  }

  // ----- Newlines

  // The output is a text, and full as long as the text goes on behind the cursor.
  ghost predicate Settled(lines: seq<Line>, output: seq<Line>, cursor: int)
  {
    0 <= cursor <= |lines| && TextLines(output) && (cursor < |lines| ==> FullLines(output))
  }

  predicate OpenEnded(to: seq<Line>) { to != [] && !EndsLine(to[|to| - 1]) }

  lemma SettledCopy(lines: seq<Line>, output: seq<Line>, cursor: int, at: int)
    requires Settled(lines, output, cursor) && TextLines(lines) && cursor <= at <= |lines|
    ensures Settled(lines, output + lines[cursor..at], at)
    ensures FullLines(output) && at < |lines| ==> FullLines(output + lines[cursor..at])
  {
    if cursor < at {
      TextPart(lines, cursor, at);
      FullText(output, lines[cursor..at]);
    } else {
      assert output + lines[cursor..at] == output;
    }
  }

  lemma SettledJoin(lines: seq<Line>, output: seq<Line>, cursor: int, end: int, mid: seq<Line>)
    requires Settled(lines, output, cursor) && cursor <= end <= |lines| && TextLines(mid) && (end < |lines| ==> FullLines(mid))
    requires FullLines(output) || mid == []
    ensures Settled(lines, output + mid, end)
  {
    if mid == [] {
      assert output + mid == output;
    } else {
      FullText(output, mid);
    }
  }

  // Lines that end the text's side end with what it ends with.
  lemma FullSide(to: seq<Line>)
    requires TextLines(to) && !OpenEnded(to)
    ensures FullLines(to)
  {
    forall k | 0 <= k < |to| ensures FullLine(to[k]) {
      assert k < |to| - 1 ==> EndsLine(to[k]);
    }
  }

  /** Replacing an exact occurrence keeps the newlines: a side that ends the file is only put at
      its end. */
  lemma SettledExact(lines: seq<Line>, output: seq<Line>, cursor: int, at: int, from: seq<Line>, to: seq<Line>)
    requires Settled(lines, output, cursor) && TextLines(lines) && TextLines(to)
    requires cursor <= at && Reads(lines, at, from) && (OpenEnded(to) ==> at + |from| == |lines|)
    requires from == [] ==> output == [] && at == cursor
    ensures Settled(lines, output + lines[cursor..at] + to, at + |from|)
  {
    SettledCopy(lines, output, cursor, at);
    if !OpenEnded(to) {
      FullSide(to);
    }
    if from == [] {
      assert output + lines[cursor..at] == [];
    }
    SettledJoin(lines, output + lines[cursor..at], at, at + |from|, to);
  }

  lemma SettledPresent(lines: seq<Line>, output: seq<Line>, cursor: int, at: int, to: seq<Line>)
    requires Settled(lines, output, cursor) && TextLines(lines) && cursor <= at && Reads(lines, at, to)
    ensures Settled(lines, output + lines[cursor..at + |to|], at + |to|)
  {
    SettledCopy(lines, output, cursor, at + |to|);
  }

  // ----- Newlines in a merged region

  lemma {:induction false} MergedFull(base: seq<Line>, ours: seq<Line>, theirs: seq<Line>, mo: seq<int>, mt: seq<int>, b: nat, o: nat, t: nat, name: string)
    requires Aligned(base, ours, mo, b, o) && Aligned(base, theirs, mt, b, t)
    requires FullLines(base) && FullLines(ours) && FullLines(theirs) && '\n' !in name
    ensures FullLines(ResolvedAll(Chunks(base, ours, theirs, mo, mt, b, o, t), name))
    decreases |base| - b + |ours| - o + |theirs| - t
  {
    hide *;
    if !(b == |base| && o == |ours| && t == |theirs|) {
      AlignedLength(base, ours, mo, b, o);
      AlignedLength(base, theirs, mt, b, t);
      var c, b', o', t' := ChunksStep(base, ours, theirs, mo, mt, b, o, t);
      MergedFull(base, ours, theirs, mo, mt, b', o', t', name);
      var rest := Chunks(base, ours, theirs, mo, mt, b', o', t');
      Cons(c, rest, name);
      FullPart(ours, o, o');
      FullPart(theirs, t, t');
      FullPart(base, b, b');
      if c.Stable? {
        assert base[b..b'] == [c.line];
      }
      FullResolved(c, name);
      FullJoin(Resolved(c, name), ResolvedAll(rest, name));
    } else {
      NoChunks(base, ours, theirs, mo, mt, name);
      NoneFull();
    }
  }

  lemma NoneFull()
    ensures FullLines([])
  {
  }

  lemma FullPart(s: seq<Line>, i: int, j: int)
    requires FullLines(s) && 0 <= i <= j <= |s|
    ensures FullLines(s[i..j])
  {
  }

  lemma FullJoin(p: seq<Line>, q: seq<Line>)
    requires FullLines(p) && FullLines(q)
    ensures FullLines(p + q)
  {
  }

  lemma FullIsText(s: seq<Line>)
    requires FullLines(s)
    ensures TextLines(s)
  {
    FullParts(s);
  }

  lemma FullResolved(c: Chunk, name: string)
    requires if c.Stable? then FullLines([c.line]) else FullLines(c.ours) && FullLines(c.theirs)
    requires '\n' !in name
    ensures FullLines(Resolved(c, name))
  {
    if c.Changed? {
      FullIsText(c.ours);
      FullIsText(c.theirs);
    }
    ResolvedFull(c, name);
  }

  // Where nothing is left of a region, what is put there is terminated.
  lemma MergedIntoNothing(base: seq<Line>, theirs: seq<Line>, mo: seq<int>, mt: seq<int>, name: string, output: seq<Line>, conflicts: nat)
    requires Merged(base, [], theirs, mo, mt, output, conflicts, name) && base != [] && TextLines(theirs) && '\n' !in name
    ensures FullLines(output)
  {
    var c, b', o', t' := ChunksStep(base, [], theirs, mo, mt, 0, 0, 0);
    AlignedLength(base, [], mo, 0, 0);
    assert forall k :: 0 <= k < |mo| ==> mo[k] < 0;
    assert b' == |base| && c == Changed(base[0..|base|], [], theirs[0..|theirs|]);
    assert theirs[0..|theirs|] == theirs && base[0..|base|] == base;
    NoChunks(base, [], theirs, mo, mt, name);
    Cons(c, [], name);
    assert ResolvedAll([c], name) == Resolved(c, name) by { assert [c] + [] == [c]; assert ResolvedAll([], name) == []; assert Resolved(c, name) + [] == Resolved(c, name); }
    if Conflicting(c) {
      ConflictFull(c, name);
    }
  }

  lemma MergedParts(base: seq<Line>, ours: seq<Line>, theirs: seq<Line>, mo: seq<int>, mt: seq<int>, output: seq<Line>, conflicts: nat, name: string)
    requires Merged(base, ours, theirs, mo, mt, output, conflicts, name)
    ensures Aligned(base, ours, mo, 0, 0) && Aligned(base, theirs, mt, 0, 0)
    ensures output == ResolvedAll(Chunks(base, ours, theirs, mo, mt, 0, 0, 0), name)
  {
    hide Aligned, Chunks, ResolvedAll;
  }

  lemma MergedNothing(base: seq<Line>, ours: seq<Line>, theirs: seq<Line>, mo: seq<int>, mt: seq<int>, output: seq<Line>, conflicts: nat, name: string)
    requires Merged(base, ours, theirs, mo, mt, output, conflicts, name) && base == ours == theirs == []
    ensures output == []
  {
  }

  lemma BeforeFull(lines: seq<Line>, output: seq<Line>, cursor: int, at: int, before: seq<Line>)
    requires Settled(lines, output, cursor) && cursor <= at <= |lines| && before == output + lines[cursor..at] && Settled(lines, before, at)
    requires at < |lines| || (lines == [] && FullLines(output))
    ensures FullLines(before)
  {
  }

  // A region behind the last line, when that line lacks its newline, is empty on all sides.
  lemma RegionAtEnd(s: Search, b: Best, to: seq<Line>, before: seq<Line>, output: seq<Line>)
    requires s.Valid() && Found(s, Some(b)) && s.lines != [] && b.first == |s.lines|
    requires TextLines(s.lines) && TextLines(s.from) && TextLines(to) && Settled(s.lines, output, s.cursor)
    requires s.lead <= |to| && s.from[..s.lead] == to[..s.lead] && b.l.1 <= b.t.0 <= |s.from| && b.l.1 <= |to|
    requires before == output + s.lines[s.cursor..b.first] && !FullLines(before)
    ensures b.l.1 == b.t.0 == |s.from| && b.l.1 == |to| && b.last == b.first
  {
    RegionFound(s, Some(b));
    hide Found;
    var n, l := |s.lines|, b.l.1;
    assert s.from[b.l.0..l][l - b.l.0 - 1] == s.from[l - 1] && s.lines[b.at..n][n - b.at - 1] == s.lines[n - 1];
    assert to[l - 1] == to[..s.lead][l - 1] == s.from[..s.lead][l - 1] == s.from[l - 1];
    LastFull(s.lines, output, s.cursor, before);
  }

  lemma LastFull(lines: seq<Line>, output: seq<Line>, cursor: int, before: seq<Line>)
    requires TextLines(lines) && lines != [] && 0 <= cursor <= |lines| && FullLines(output) && before == output + lines[cursor..]
    ensures EndsLine(lines[|lines| - 1]) ==> FullLines(before)
  {
    if EndsLine(lines[|lines| - 1]) {
      FullSide(lines);
      FullJoin(output, lines[cursor..]);
    }
  }

  // The three texts of a found region.
  ghost predicate Region3(s: Search, b: Best, to: seq<Line>, base: seq<Line>, ours: seq<Line>, theirs: seq<Line>)
  {
    && 0 <= b.l.1 <= b.t.0 <= |s.from| && b.l.1 <= |to| - (|s.from| - b.t.0) <= |to| && 0 <= b.first <= b.last <= |s.lines|
    && base == s.from[b.l.1..b.t.0] && ours == s.lines[b.first..b.last] && theirs == to[b.l.1..|to| - (|s.from| - b.t.0)]
  }

  // What is put into a region keeps the newlines within it.
  lemma MergedRegion(s: Search, b: Best, to: seq<Line>, base: seq<Line>, ours: seq<Line>, theirs: seq<Line>, merged: seq<Line>, conflicts: nat,
                     mo: seq<int>, mt: seq<int>, name: string)
    requires s.Valid() && Found(s, Some(b)) && '\n' !in name && Region3(s, b, to, base, ours, theirs)
    requires TextLines(s.lines) && TextLines(s.from) && TextLines(to)
    requires Merged(base, ours, theirs, mo, mt, merged, conflicts, name)
    ensures TextLines(merged) && (b.last < |s.lines| ==> FullLines(merged)) && (s.lines == [] && s.from != [] ==> FullLines(merged))
  {
    hide *;
    RegionParts(s, b, to, base, ours, theirs);
    MergedParts(base, ours, theirs, mo, mt, merged, conflicts, name);
    MergedText(base, ours, theirs, mo, mt, 0, 0, 0, name);
    if b.last < |s.lines| {
      MergedFull(base, ours, theirs, mo, mt, 0, 0, 0, name);
    }
    if s.lines == [] && s.from != [] {
      MergedIntoNothing(base, theirs, mo, mt, name, merged, conflicts);
    }
  }

  lemma RegionParts(s: Search, b: Best, to: seq<Line>, base: seq<Line>, ours: seq<Line>, theirs: seq<Line>)
    requires s.Valid() && Found(s, Some(b)) && Region3(s, b, to, base, ours, theirs)
    requires TextLines(s.lines) && TextLines(s.from) && TextLines(to)
    ensures TextLines(base) && TextLines(ours) && TextLines(theirs)
    ensures b.last < |s.lines| ==> FullLines(base) && FullLines(ours) && FullLines(theirs)
    ensures s.lines == [] ==> base == s.from && ours == []
  {
    RegionFound(s, Some(b));
    hide Found, TextLines, FullLines;
    TextPart(s.from, b.l.1, b.t.0);
    TextPart(s.lines, b.first, b.last);
    TextPart(to, b.l.1, |to| - (|s.from| - b.t.0));
  }

  /** A merged region keeps the newlines. */
  lemma SettledMerge(s: Search, b: Best, to: seq<Line>, output: seq<Line>, base: seq<Line>, ours: seq<Line>, theirs: seq<Line>,
                     merged: seq<Line>, conflicts: nat, mo: seq<int>, mt: seq<int>, name: string)
    requires s.Valid() && Found(s, Some(b)) && '\n' !in name && Region3(s, b, to, base, ours, theirs)
    requires TextLines(s.lines) && TextLines(s.from) && TextLines(to)
    requires s.lead <= |to| && s.from[..s.lead] == to[..s.lead] && Settled(s.lines, output, s.cursor)
    requires s.lines == [] ==> FullLines(output)
    requires Merged(base, ours, theirs, mo, mt, merged, conflicts, name)
    ensures s.cursor <= b.first <= |s.lines| && Settled(s.lines, output + s.lines[s.cursor..b.first] + merged, b.last)
    ensures s.lines == [] && s.from != [] ==> FullLines(output + s.lines[s.cursor..b.first] + merged)
  {
    hide *;
    RegionFound(s, Some(b));
    MergedRegion(s, b, to, base, ours, theirs, merged, conflicts, mo, mt, name);
    SettledCopy(s.lines, output, s.cursor, b.first);
    var before := output + s.lines[s.cursor..b.first];
    BeforeRegion(s, b, to, output, before, base, ours, theirs, merged, conflicts, mo, mt, name);
    SettledJoin(s.lines, before, b.first, b.last, merged);
    if s.lines == [] && s.from != [] {
      FullJoin(before, merged);
    }
  }

  // Before a region the output is full, or nothing is put behind it.
  lemma BeforeRegion(s: Search, b: Best, to: seq<Line>, output: seq<Line>, before: seq<Line>, base: seq<Line>, ours: seq<Line>, theirs: seq<Line>,
                     merged: seq<Line>, conflicts: nat, mo: seq<int>, mt: seq<int>, name: string)
    requires s.Valid() && Found(s, Some(b)) && Region3(s, b, to, base, ours, theirs)
    requires TextLines(s.lines) && TextLines(s.from) && TextLines(to)
    requires s.lead <= |to| && s.from[..s.lead] == to[..s.lead] && Settled(s.lines, output, s.cursor)
    requires s.lines == [] ==> FullLines(output)
    requires s.cursor <= b.first <= |s.lines| && before == output + s.lines[s.cursor..b.first] && Settled(s.lines, before, b.first)
    requires Merged(base, ours, theirs, mo, mt, merged, conflicts, name)
    ensures FullLines(before) || (merged == [] && s.lines != [])
  {
    hide *;
    if b.first < |s.lines| || s.lines == [] {
      BeforeFull(s.lines, output, s.cursor, b.first, before);
    } else if !FullLines(before) {
      Region3Bounds(s, b, to, base, ours, theirs);
      RegionAtEnd(s, b, to, before, output);
      MergedNothing(base, ours, theirs, mo, mt, merged, conflicts, name);
    }
  }

  lemma Region3Bounds(s: Search, b: Best, to: seq<Line>, base: seq<Line>, ours: seq<Line>, theirs: seq<Line>)
    requires Region3(s, b, to, base, ours, theirs)
    ensures b.l.1 <= b.t.0 <= |s.from| && b.l.1 <= |to|
    ensures b.l.1 == b.t.0 == |s.from| && b.l.1 == |to| && b.last == b.first ==> base == ours == theirs == []
  {
  }

  // ----- Hunks that fit exactly

  /** The hunks, in the requested direction, say exactly how the text becomes `goal`; only an
      empty text has an empty side. */
  ghost predicate Planned(hunks: seq<Hunk>, reverse: bool, lines: seq<Line>, goal: seq<Line>)
  {
    && Carries(Plans(hunks, reverse), lines, goal) && TextLines(goal)
    && forall k :: 0 <= k < |hunks| ==> SidesKept(hunks[k], reverse, lines, goal)
  }

  predicate SidesKept(h: Hunk, reverse: bool, lines: seq<Line>, goal: seq<Line>)
  {
    (From(h, reverse) == [] ==> lines == []) && (To(h, reverse) == [] ==> goal == [])
  }

  // The first i hunks done, the output is the start of the goal.
  ghost predicate AtPlan(hunks: seq<Hunk>, reverse: bool, i: nat, lines: seq<Line>, goal: seq<Line>, output: seq<Line>, cursor: int)
  {
    && i <= |hunks| && Planned(hunks, reverse, lines, goal)
    && |output| <= |goal| && output == goal[..|output|]
    && Run(Plans(hunks, reverse)[i..], lines, goal, cursor, |output|, |lines|, |goal|)
  }

  lemma PlanStart(hunks: seq<Hunk>, reverse: bool, lines: seq<Line>, goal: seq<Line>)
    requires Planned(hunks, reverse, lines, goal)
    ensures AtPlan(hunks, reverse, 0, lines, goal, [], 0)
  {
    assert Plans(hunks, reverse)[0..] == Plans(hunks, reverse);
  }

  lemma PlanDone(hunks: seq<Hunk>, reverse: bool, lines: seq<Line>, goal: seq<Line>, output: seq<Line>, cursor: int)
    requires AtPlan(hunks, reverse, |hunks|, lines, goal, output, cursor)
    ensures 0 <= cursor <= |lines| && output + lines[cursor..] == goal
  {
    assert Plans(hunks, reverse)[|hunks|..] == [];
    assert lines[cursor..|lines|] == goal[|output|..|goal|];
    assert goal == goal[..|output|] + goal[|output|..|goal|];
  }

  // What the next hunk finds where it was recorded.
  ghost predicate Exact(h: Hunk, reverse: bool, lines: seq<Line>, cursor: int)
  {
    var at, from, to := Start(h, reverse), From(h, reverse), To(h, reverse);
    cursor <= at && Reads(lines, at, from) && (from == [] ==> cursor == |lines|) && (OpenEnded(to) ==> at + |from| == |lines|)
  }

  lemma PlanStep(hunks: seq<Hunk>, reverse: bool, i: nat, lines: seq<Line>, goal: seq<Line>, output: seq<Line>, cursor: int)
    requires i < |hunks| && AtPlan(hunks, reverse, i, lines, goal, output, cursor)
    ensures Exact(hunks[i], reverse, lines, cursor)
    ensures var at, from, to := Start(hunks[i], reverse), From(hunks[i], reverse), To(hunks[i], reverse);
            && 0 <= cursor <= at <= |lines|
            && AtPlan(hunks, reverse, i + 1, lines, goal, output + lines[cursor..at] + to, at + |from|)
  {
    hide *;
    var h, r, rest := hunks[i], Plan(hunks[i], reverse), Plans(hunks, reverse)[i + 1..];
    PlanParts(hunks, reverse, i, lines, goal, output, cursor);
    PlanIs(h, reverse);
    PlanHead(r, rest, lines, goal, output, cursor);
    PlanEnd(hunks, reverse, i, lines, goal);
    SideKept(hunks, reverse, lines, goal, i);
    RunRange(rest, lines, goal, r.BeforeEnd(), r.AfterEnd(), |lines|, |goal|);
    PlanExact(h, reverse, lines, cursor);
    PlanMore(hunks, reverse, i, lines, goal, output + lines[cursor..r.beforeStart] + r.after, r);
  }

  lemma PlanIs(h: Hunk, reverse: bool)
    ensures var r := Plan(h, reverse);
            && r.beforeStart == Start(h, reverse) && r.before == From(h, reverse) && r.after == To(h, reverse)
            && r.BeforeEnd() == Start(h, reverse) + |From(h, reverse)| && r.AfterEnd() == r.afterStart + |r.after|
  {
  }

  lemma PlanParts(hunks: seq<Hunk>, reverse: bool, i: nat, lines: seq<Line>, goal: seq<Line>, output: seq<Line>, cursor: int)
    requires i < |hunks| && AtPlan(hunks, reverse, i, lines, goal, output, cursor)
    ensures Planned(hunks, reverse, lines, goal) && |output| <= |goal| && output == goal[..|output|]
    ensures Run([Plan(hunks[i], reverse)] + Plans(hunks, reverse)[i + 1..], lines, goal, cursor, |output|, |lines|, |goal|)
  {
    hide Run, Planned, Plan;
    var rs := Plans(hunks, reverse);
    assert rs[i..] == [rs[i]] + rs[i + 1..];
  }

  lemma SideKept(hunks: seq<Hunk>, reverse: bool, lines: seq<Line>, goal: seq<Line>, i: nat)
    requires i < |hunks| && Planned(hunks, reverse, lines, goal)
    ensures From(hunks[i], reverse) == [] ==> lines == []
  {
    hide Carries, TextLines, From, To;
    assert SidesKept(hunks[i], reverse, lines, goal);
  }

  lemma PlanExact(h: Hunk, reverse: bool, lines: seq<Line>, cursor: int)
    requires 0 <= cursor <= Start(h, reverse) && Reads(lines, Start(h, reverse), From(h, reverse))
    requires (From(h, reverse) == [] ==> lines == []) && (OpenEnded(To(h, reverse)) ==> Start(h, reverse) + |From(h, reverse)| == |lines|)
    ensures Exact(h, reverse, lines, cursor) && Start(h, reverse) <= |lines|
  {
    hide From, To, Start, OpenEnded;
  }

  lemma PlanMore(hunks: seq<Hunk>, reverse: bool, i: nat, lines: seq<Line>, goal: seq<Line>, output: seq<Line>, r: Region)
    requires i < |hunks| && Planned(hunks, reverse, lines, goal) && 0 <= r.AfterEnd() <= |goal| && output == goal[..r.AfterEnd()]
    requires Run(Plans(hunks, reverse)[i + 1..], lines, goal, r.BeforeEnd(), r.AfterEnd(), |lines|, |goal|)
    ensures AtPlan(hunks, reverse, i + 1, lines, goal, output, r.BeforeEnd())
  {
    hide Run, Planned, Plans;
  }

  lemma PlanHead(r: Region, rest: seq<Region>, lines: seq<Line>, goal: seq<Line>, output: seq<Line>, cursor: int)
    requires Run([r] + rest, lines, goal, cursor, |output|, |lines|, |goal|) && |output| <= |goal| && output == goal[..|output|]
    ensures 0 <= cursor <= r.beforeStart && Reads(lines, r.beforeStart, r.before) && Reads(goal, r.afterStart, r.after)
    ensures Run(rest, lines, goal, r.BeforeEnd(), r.AfterEnd(), |lines|, |goal|)
    ensures output + lines[cursor..r.beforeStart] + r.after == goal[..r.AfterEnd()]
  {
    hide *;
    HeadReads(r, rest, lines, goal, cursor, |output|, |lines|, |goal|);
    HeadGap(r, rest, lines, goal, cursor, |output|, |lines|, |goal|);
    ThreeParts(goal, output, lines[cursor..r.beforeStart], r);
  }

  lemma HeadGap(r: Region, rest: seq<Region>, lines: seq<Line>, goal: seq<Line>, i: int, j: int, i2: int, j2: int)
    requires Run([r] + rest, lines, goal, i, j, i2, j2)
    ensures 0 <= i <= r.beforeStart <= |lines| && 0 <= j <= r.afterStart <= |goal| && lines[i..r.beforeStart] == goal[j..r.afterStart]
    ensures r.afterStart <= r.AfterEnd() <= |goal|
  {
    assert ([r] + rest)[0] == r;
  }

  lemma ThreeParts(goal: seq<Line>, output: seq<Line>, gap: seq<Line>, r: Region)
    requires |output| <= r.afterStart <= r.AfterEnd() <= |goal|
    requires output == goal[..|output|] && gap == goal[|output|..r.afterStart] && Reads(goal, r.afterStart, r.after)
    ensures output + gap + r.after == goal[..r.AfterEnd()]
  {
  }

  // A side that ends the file belongs to the last hunk, at the end of both files.
  lemma PlanEnd(hunks: seq<Hunk>, reverse: bool, i: nat, lines: seq<Line>, goal: seq<Line>)
    requires i < |hunks| && Planned(hunks, reverse, lines, goal)
    requires var r := Plan(hunks[i], reverse);
             Reads(goal, r.afterStart, r.after) && Run(Plans(hunks, reverse)[i + 1..], lines, goal, r.BeforeEnd(), r.AfterEnd(), |lines|, |goal|)
    ensures OpenEnded(To(hunks[i], reverse)) ==> Plan(hunks[i], reverse).BeforeEnd() == |lines|
  {
    NextKept(hunks, reverse, i, lines, goal);
    PlannedGoal(hunks, reverse, lines, goal);
    hide Planned, Plans, Run, Reads, TextLines, OpenEnded;
    OpenAtEnd(Plan(hunks[i], reverse), Plans(hunks, reverse)[i + 1..], lines, goal);
  }

  lemma PlannedGoal(hunks: seq<Hunk>, reverse: bool, lines: seq<Line>, goal: seq<Line>)
    requires Planned(hunks, reverse, lines, goal)
    ensures TextLines(goal)
  {
    hide TextLines;
  }

  lemma OpenAtEnd(r: Region, rest: seq<Region>, lines: seq<Line>, goal: seq<Line>)
    requires TextLines(goal) && Reads(goal, r.afterStart, r.after) && Run(rest, lines, goal, r.BeforeEnd(), r.AfterEnd(), |lines|, |goal|)
    requires rest != [] && rest[0].after == [] ==> goal == []
    ensures OpenEnded(r.after) ==> r.BeforeEnd() == |lines|
  {
    hide *;
    if OpenEnded(r.after) {
      RegionEnds(r);
      OpenLast(goal, r.afterStart, r.after);
      RunRange(rest, lines, goal, r.BeforeEnd(), r.AfterEnd(), |lines|, |goal|);
      NoneBehind(rest, lines, goal, r.BeforeEnd());
    }
  }

  // A line without a newline is the text's last.
  lemma OpenLast(goal: seq<Line>, at: int, text: seq<Line>)
    requires TextLines(goal) && Reads(goal, at, text) && OpenEnded(text)
    ensures at + |text| == |goal| && goal != []
  {
    var n := |text| - 1;
    assert goal[at..at + |text|][n] == goal[at + n];
  }

  lemma NoneBehind(rest: seq<Region>, lines: seq<Line>, goal: seq<Line>, i: int)
    requires Run(rest, lines, goal, i, |goal|, |lines|, |goal|) && goal != [] && (rest != [] ==> rest[0].after != [])
    ensures i == |lines|
  {
    if rest == [] {
      assert |lines[i..|lines|]| == |goal[|goal|..|goal|]|;
    }
  }

  lemma NextKept(hunks: seq<Hunk>, reverse: bool, i: nat, lines: seq<Line>, goal: seq<Line>)
    requires i < |hunks| && Planned(hunks, reverse, lines, goal)
    ensures var rest := Plans(hunks, reverse)[i + 1..];
            rest != [] ==> rest[0] == Plan(hunks[i + 1], reverse) && (rest[0].after == [] ==> goal == [])
  {
    if i + 1 < |hunks| {
      assert SidesKept(hunks[i + 1], reverse, lines, goal);
    }
  }
}
