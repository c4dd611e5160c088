/** A rendered capture, cut into independently replayable hunks, says exactly how to go from one
    text to the other, and back. */
module MergePlan {
  import opened Text
  import opened Regions
  import opened Matcher
  import opened Review
  import opened ReviewText
  import opened ReviewRender
  import opened Recall
  import opened CompositionFacts
  import opened DisplayFacts
  import opened Diff3
  import opened MergeFacts
  import opened Sizes

  // ----- Runs inside runs, and backwards

  // A region where two stretches have its text, in the files that hold them.
  lemma StepWithin(r: Region, rest: seq<Region>, a: seq<Line>, b: seq<Line>, i: int, j: int, i2: int, j2: int,
                   base: seq<Line>, cur: seq<Line>, offset: int, shift: int)
    requires Run([r] + rest, a, b, i, j, i2, j2) && Reads(base, offset, a) && Reads(cur, shift, b)
    requires Run(MovedBy(rest, offset, shift), base, cur, offset + r.BeforeEnd(), shift + r.AfterEnd(), offset + i2, shift + j2)
    ensures Run(MovedBy([r] + rest, offset, shift), base, cur, offset + i, shift + j, offset + i2, shift + j2)
  {
    hide Run, MovedBy;
    RunParts(r, rest, a, b, i, j, i2, j2);
    var moved := r.(beforeStart := r.beforeStart + offset, afterStart := r.afterStart + shift);
    MovedCons(r, rest, offset, shift);
    SliceSlice(base, offset, |a|, i, r.beforeStart);
    SliceSlice(base, offset, |a|, r.beforeStart, r.BeforeEnd());
    SliceSlice(cur, shift, |b|, j, r.afterStart);
    SliceSlice(cur, shift, |b|, r.afterStart, r.AfterEnd());
    RunAfter(moved, MovedBy(rest, offset, shift), base, cur, offset + i, shift + j, offset + i2, shift + j2);
  }

  lemma MovedCons(r: Region, rest: seq<Region>, offset: int, shift: int)
    ensures MovedBy([r] + rest, offset, shift) == [r.(beforeStart := r.beforeStart + offset, afterStart := r.afterStart + shift)] + MovedBy(rest, offset, shift)
  {
  }

  lemma RunParts(r: Region, rest: seq<Region>, a: seq<Line>, b: seq<Line>, i: int, j: int, i2: int, j2: int)
    requires Run([r] + rest, a, b, i, j, i2, j2)
    ensures 0 <= i <= r.beforeStart && r.BeforeEnd() <= i2 <= |a| && 0 <= j <= r.afterStart && r.AfterEnd() <= j2 <= |b|
    ensures a[i..r.beforeStart] == b[j..r.afterStart]
    ensures a[r.beforeStart..r.BeforeEnd()] == r.before && b[r.afterStart..r.AfterEnd()] == r.after
  {
  }

  lemma RunAfter(r: Region, rest: seq<Region>, a: seq<Line>, b: seq<Line>, i: int, j: int, i2: int, j2: int)
    requires 0 <= i <= r.beforeStart && r.BeforeEnd() <= i2 <= |a| && 0 <= j <= r.afterStart && r.AfterEnd() <= j2 <= |b|
    requires a[i..r.beforeStart] == b[j..r.afterStart]
    requires a[r.beforeStart..r.BeforeEnd()] == r.before && b[r.afterStart..r.AfterEnd()] == r.after
    requires Run(rest, a, b, r.BeforeEnd(), r.AfterEnd(), i2, j2)
    ensures Run([r] + rest, a, b, i, j, i2, j2)
  {
    assert ([r] + rest)[1..] == rest;
  }

  lemma NoneWithin(a: seq<Line>, b: seq<Line>, i: int, j: int, i2: int, j2: int, base: seq<Line>, cur: seq<Line>, offset: int, shift: int)
    requires Run([], a, b, i, j, i2, j2) && Reads(base, offset, a) && Reads(cur, shift, b)
    ensures Run(MovedBy([], offset, shift), base, cur, offset + i, shift + j, offset + i2, shift + j2)
  {
    SliceSlice(base, offset, |a|, i, i2);
    SliceSlice(cur, shift, |b|, j, j2);
  }

  /** A run between two stretches is a run of the files that hold them. */
  lemma {:induction false} RunWithin(rs: seq<Region>, a: seq<Line>, b: seq<Line>, i: int, j: int, i2: int, j2: int,
                                     base: seq<Line>, cur: seq<Line>, offset: int, shift: int)
    requires Run(rs, a, b, i, j, i2, j2) && Reads(base, offset, a) && Reads(cur, shift, b)
    ensures Run(MovedBy(rs, offset, shift), base, cur, offset + i, shift + j, offset + i2, shift + j2)
  {
    hide *;
    if rs == [] {
      NoneWithin(a, b, i, j, i2, j2, base, cur, offset, shift);
    } else {
      var r, rest := rs[0], rs[1..];
      assert rs == [r] + rest;
      RunHead(r, rest, a, b, i, j, i2, j2);
      RunWithin(rest, a, b, r.BeforeEnd(), r.AfterEnd(), i2, j2, base, cur, offset, shift);
      StepWithin(r, rest, a, b, i, j, i2, j2, base, cur, offset, shift);
    }
  }

  function Turned(rs: seq<Region>): (ts: seq<Region>)
    ensures |ts| == |rs|
  {
    seq(|rs|, k requires 0 <= k < |rs| => Region(rs[k].afterStart, rs[k].beforeStart, rs[k].after, rs[k].before, rs[k].hidden, rs[k].highlighted))
  }

  /** A run read backwards undoes it. */
  lemma {:induction false} RunTurned(rs: seq<Region>, base: seq<Line>, cur: seq<Line>, i: int, j: int, i2: int, j2: int)
    requires Run(rs, base, cur, i, j, i2, j2)
    ensures Run(Turned(rs), cur, base, j, i, j2, i2)
  {
    if rs != [] {
      RunTurned(rs[1..], base, cur, rs[0].BeforeEnd(), rs[0].AfterEnd(), i2, j2);
      assert Turned(rs)[1..] == Turned(rs[1..]);
    }
  }

  lemma PlansTurned(hunks: seq<Hunk>)
    ensures Plans(hunks, false) == HunkRegions(hunks) && Plans(hunks, true) == Turned(HunkRegions(hunks))
  {
  }

  // ----- Compact hunks

  // A captured hunk, rendered again with less context, and read back.
  function CompactHunk(file: ReviewFile, h: Hunk, quote: Quote, grouper: Grouper): Result<seq<Hunk>, ParseError>
    requires Groups(grouper)
  {
    ParseHunks(FragmentFile(file, HunkRegion(h), quote, grouper), quote, false)
  }

  function CompactUpTo(file: ReviewFile, hunks: seq<Hunk>, n: nat, quote: Quote, grouper: Grouper): Result<seq<Hunk>, ParseError>
    requires Groups(grouper) && n <= |hunks|
  {
    if n == 0 then Ok([])
    else
      var init := CompactUpTo(file, hunks, n - 1, quote, grouper);
      if init.Err? then init
      else
        var last := CompactHunk(file, hunks[n - 1], quote, grouper);
        if last.Err? then last else Ok(init.value + last.value)
  }

  lemma CompactNext(file: ReviewFile, hunks: seq<Hunk>, n: nat, quote: Quote, grouper: Grouper)
    requires Groups(grouper) && n < |hunks|
    ensures var init, last, all := CompactUpTo(file, hunks, n, quote, grouper), CompactHunk(file, hunks[n], quote, grouper), CompactUpTo(file, hunks, n + 1, quote, grouper);
            all == if init.Err? then init else if last.Err? then last else Ok(init.value + last.value)
  {
  }

  // Only an empty text has an empty side.
  predicate Kept(h: Hunk, base: seq<Line>, cur: seq<Line>)
  {
    (OldSide(h.rows) == [] ==> base == []) && (NewSide(h.rows) == [] ==> cur == [])
  }

  predicate AllKept(hunks: seq<Hunk>, base: seq<Line>, cur: seq<Line>) { forall k :: 0 <= k < |hunks| ==> Kept(hunks[k], base, cur) }

  lemma GroupsKept(groups: seq<seq<OpCode>>, a: seq<Line>, b: seq<Line>, offset: int, shift: int)
    requires GroupsFit(groups, a, b)
    ensures AllKept(GroupHunks(groups, a, b, offset, shift), a, b)
    ensures a == [] || b == [] ==> |GroupHunks(groups, a, b, offset, shift)| <= 1
  {
    forall k | 0 <= k < |groups| ensures Kept(GroupHunks(groups, a, b, offset, shift)[k], a, b) {
      GroupHunkRegion(groups[k], a, b, offset, shift);
    }
  }

  lemma KeptWider(hunks: seq<Hunk>, h: Hunk, base: seq<Line>, cur: seq<Line>)
    requires Kept(h, base, cur) && AllKept(hunks, OldSide(h.rows), NewSide(h.rows))
    ensures AllKept(hunks, base, cur)
  {
    hide OldSide, NewSide;
    forall k | 0 <= k < |hunks| ensures Kept(hunks[k], base, cur) {
      assert Kept(hunks[k], OldSide(h.rows), NewSide(h.rows));
    }
  }

  // A wide hunk's compact hunks run between its ends.
  lemma CompactOne(file: ReviewFile, w: Hunk, quote: Quote, grouper: Grouper, base: seq<Line>, cur: seq<Line>) returns (hunks: seq<Hunk>)
    requires Groups(grouper) && Quotes(quote) && LinesOk(base) && LinesOk(cur) && Kept(w, base, cur)
    requires Reads(base, w.beforeStart, OldSide(w.rows)) && Reads(cur, w.afterStart, NewSide(w.rows))
    ensures AllKept(hunks, base, cur)
    ensures var r := CompactHunk(file, w, quote, grouper); if FitsFormat(FragmentHunks(HunkRegion(w), grouper)) then r == Ok(hunks) else r.Err?
    ensures var r := HunkRegion(w); Run(HunkRegions(hunks), base, cur, r.beforeStart, r.afterStart, r.BeforeEnd(), r.AfterEnd())
    ensures base == [] || cur == [] ==> |hunks| <= 1
  {
    var f := HunkRegion(w);
    hunks := FragmentHunks(f, grouper);
    ReadsSpan(base, w.beforeStart, f.before);
    ReadsSpan(cur, w.afterStart, f.after);
    hide OldSide, NewSide, LinesOk, Groups, Quotes, FragmentHunks, FragmentFile, ParseHunks, FitsFormat, HunkRegions, Reads, AllKept;
    FragmentParses(file, f, quote, grouper, base, cur);
    FragmentGroupsKept(f, grouper);
    KeptWider(hunks, w, base, cur);
    FragmentRun(f, grouper, base, cur);
  }

  lemma ReadsSpan(s: seq<Line>, at: int, text: seq<Line>)
    requires Reads(s, at, text)
    ensures 0 <= at && at + |text| <= |s|
  {
  }

  lemma FragmentGroupsKept(f: Region, grouper: Grouper)
    requires Groups(grouper)
    ensures AllKept(FragmentHunks(f, grouper), f.before, f.after)
    ensures f.before == [] || f.after == [] ==> |FragmentHunks(f, grouper)| <= 1
  {
    assert GroupsFit(FragmentGroups(f, grouper), f.before, f.after);
    GroupsKept(FragmentGroups(f, grouper), f.before, f.after, f.beforeStart, f.afterStart);
  }

  lemma FragmentRun(f: Region, grouper: Grouper, base: seq<Line>, cur: seq<Line>)
    requires Groups(grouper) && Reads(base, f.beforeStart, f.before) && Reads(cur, f.afterStart, f.after)
    ensures Run(HunkRegions(FragmentHunks(f, grouper)), base, cur, f.beforeStart, f.afterStart, f.BeforeEnd(), f.AfterEnd())
  {
    hide *;
    FragmentRegions(f, grouper);
    var rs := InnerRun(f, grouper);
    RegionEnds(f);
    RunWithin(rs, f.before, f.after, 0, 0, |f.before|, |f.after|, base, cur, f.beforeStart, f.afterStart);
  }

  // The format can hold what the first n hunks are cut into.
  ghost predicate CompactFit(wide: seq<Hunk>, n: nat, grouper: Grouper)
    requires Groups(grouper) && n <= |wide|
  {
    forall k :: 0 <= k < n ==> FitsFormat(FragmentHunks(HunkRegion(wide[k]), grouper))
  }

  lemma CompactFitNext(wide: seq<Hunk>, n: nat, grouper: Grouper)
    requires Groups(grouper) && n < |wide|
    ensures CompactFit(wide, 0, grouper)
    ensures CompactFit(wide, n + 1, grouper) <==> CompactFit(wide, n, grouper) && FitsFormat(FragmentHunks(HunkRegion(wide[n]), grouper))
  {
    hide Groups, FitsFormat, FragmentHunks;
  }

  /** Cutting a run of wide hunks into compact ones leaves a run between the same texts. */
  lemma {:induction false} CompactRun(file: ReviewFile, wide: seq<Hunk>, n: nat, quote: Quote, grouper: Grouper,
                                      base: seq<Line>, cur: seq<Line>, i2: int, j2: int) returns (hunks: seq<Hunk>)
    requires Groups(grouper) && Quotes(quote) && LinesOk(base) && LinesOk(cur)
    requires n <= |wide| && AllKept(wide, base, cur) && Run(HunkRegions(wide)[..n], base, cur, 0, 0, i2, j2)
    ensures AllKept(hunks, base, cur)
    ensures var r := CompactUpTo(file, wide, n, quote, grouper); if CompactFit(wide, n, grouper) then r == Ok(hunks) else r.Err?
    ensures Run(HunkRegions(hunks), base, cur, 0, 0, i2, j2)
    ensures base == [] || cur == [] ==> |hunks| <= n
  {
    hide *;
    if n == 0 {
      hunks := [];
      NoCompact(file, wide, quote, grouper, base, cur);
    } else {
      var w := wide[n - 1];
      LastWide(wide, n, base, cur, i2, j2);
      var rest := CompactRun(file, wide, n - 1, quote, grouper, base, cur, HunkRegion(w).beforeStart, HunkRegion(w).afterStart);
      var last := CompactOne(file, w, quote, grouper, base, cur);
      CompactNext(file, wide, n - 1, quote, grouper);
      CompactFitNext(wide, n - 1, grouper);
      hunks := rest + last;
      RegionsConcat(rest, last);
      JoinRuns(HunkRegions(rest), HunkRegions(last), base, cur, HunkRegion(w).beforeStart, HunkRegion(w).afterStart, HunkRegion(w).BeforeEnd(), HunkRegion(w).AfterEnd(), i2, j2);
      KeptJoin(rest, last, base, cur);
    }
  }

  lemma NoCompact(file: ReviewFile, wide: seq<Hunk>, quote: Quote, grouper: Grouper, base: seq<Line>, cur: seq<Line>)
    requires Groups(grouper)
    ensures CompactUpTo(file, wide, 0, quote, grouper) == Ok([]) && AllKept([], base, cur) && HunkRegions(wide)[..0] == HunkRegions([])
    ensures CompactFit(wide, 0, grouper)
  {
  }

  lemma LastWide(wide: seq<Hunk>, n: nat, base: seq<Line>, cur: seq<Line>, i2: int, j2: int)
    requires 0 < n <= |wide| && AllKept(wide, base, cur) && Run(HunkRegions(wide)[..n], base, cur, 0, 0, i2, j2)
    ensures var w, r := wide[n - 1], HunkRegion(wide[n - 1]);
            && |HunkRegions(wide)| == |wide| && Kept(w, base, cur)
            && Reads(base, w.beforeStart, OldSide(w.rows)) && Reads(cur, w.afterStart, NewSide(w.rows))
            && Run(HunkRegions(wide)[..n - 1], base, cur, 0, 0, r.beforeStart, r.afterStart)
            && Run([], base, cur, r.BeforeEnd(), r.AfterEnd(), i2, j2)
  {
    hide OldSide, NewSide, Run;
    var rs := HunkRegions(wide)[..n];
    RunLast(rs, base, cur, 0, 0, i2, j2);
    assert rs[..|rs| - 1] == HunkRegions(wide)[..n - 1];
  }

  lemma KeptJoin(ps: seq<Hunk>, qs: seq<Hunk>, base: seq<Line>, cur: seq<Line>)
    requires AllKept(ps, base, cur) && AllKept(qs, base, cur)
    ensures AllKept(ps + qs, base, cur)
  {
    hide Kept;
  }

  // ----- Rendered captures

  /** The file is a capture of the change from a to b, rendered with ten lines of context. */
  ghost predicate Rendered(file: ReviewFile, quote: Quote, grouper: Grouper, a: seq<Line>, b: seq<Line>)
  {
    && !file.directory && file.incomplete == "" && !file.binary
    && Groups(grouper) && Quotes(quote) && TextLines(a) && TextLines(b)
    && GroupsFit(grouper(a, b, 10), a, b)
    && file.diff == RenderedDiff(file, quote, GroupHunks(grouper(a, b, 10), a, b, 0, 0))
  }

  /** The format can hold the capture, and what its hunks are cut into. */
  ghost predicate Mergeable(grouper: Grouper, a: seq<Line>, b: seq<Line>)
    requires Groups(grouper) && GroupsFit(grouper(a, b, 10), a, b)
  {
    var wide := WideHunks(grouper, a, b); FitsFormat(wide) && CompactFit(wide, |wide|, grouper)
  }

  /** Such a capture reads back as hunks, which cut up compactly are a plan from a to b, and,
      reversed, from b to a, if the format can hold them; if not, it is refused. */
  lemma RenderedPlan(file: ReviewFile, quote: Quote, grouper: Grouper, a: seq<Line>, b: seq<Line>) returns (wide: seq<Hunk>, hunks: seq<Hunk>)
    requires Rendered(file, quote, grouper, a, b)
    ensures Planned(hunks, false, a, b) && Planned(hunks, true, b, a)
    ensures |hunks| <= 1 || (a != [] && b != [])
    ensures Groups(grouper) && GroupsFit(grouper(a, b, 10), a, b)
    ensures if Mergeable(grouper, a, b) then ParseHunks(file, quote, false) == Ok(wide) && CompactUpTo(file, wide, |wide|, quote, grouper) == Ok(hunks)
            else ParseHunks(file, quote, false).Err? || (ParseHunks(file, quote, false) == Ok(wide) && CompactUpTo(file, wide, |wide|, quote, grouper).Err?)
  {
    hide *;
    wide := RenderedWide(file, quote, grouper, a, b);
    RenderedGiven(file, quote, grouper, a, b);
    hunks := CompactRun(file, wide, |wide|, quote, grouper, a, b, |a|, |b|);
    MakePlans(hunks, a, b);
    MergeableIs(grouper, a, b);
  }

  lemma MergeableIs(grouper: Grouper, a: seq<Line>, b: seq<Line>)
    requires Groups(grouper) && GroupsFit(grouper(a, b, 10), a, b)
    ensures var wide := WideHunks(grouper, a, b); Mergeable(grouper, a, b) <==> FitsFormat(wide) && CompactFit(wide, |wide|, grouper)
  {
  }

  lemma RenderedGiven(file: ReviewFile, quote: Quote, grouper: Grouper, a: seq<Line>, b: seq<Line>)
    requires Rendered(file, quote, grouper, a, b)
    ensures Groups(grouper) && Quotes(quote) && LinesOk(a) && LinesOk(b) && TextLines(a) && TextLines(b) && GroupsFit(grouper(a, b, 10), a, b)
  {
    hide GroupsFit, Groups, Quotes, RenderedDiff, OneLine;
  }

  lemma RenderedWide(file: ReviewFile, quote: Quote, grouper: Grouper, a: seq<Line>, b: seq<Line>) returns (wide: seq<Hunk>)
    requires Rendered(file, quote, grouper, a, b)
    ensures GroupsFit(grouper(a, b, 10), a, b) && wide == WideHunks(grouper, a, b) && AllKept(wide, a, b)
    ensures var r := ParseHunks(file, quote, false); if FitsFormat(wide) then r == Ok(wide) else r.Err?
    ensures Run(HunkRegions(wide)[..|wide|], a, b, 0, 0, |a|, |b|)
    ensures a == [] || b == [] ==> |wide| <= 1
  {
    RenderedGiven(file, quote, grouper, a, b);
    hide Groups, GroupsFit, Quotes, LinesOk, TextLines, ParseHunks, RenderedDiff, FitsFormat, HunkRegions, AllKept;
    var groups := grouper(a, b, 10);
    wide := GroupHunks(groups, a, b, 0, 0);
    RenderParses(file, quote, groups, a, b, 0, 0, false);
    RenderCarries(groups, a, b);
    GroupsKept(groups, a, b, 0, 0);
    WholeRun(wide, a, b);
  }

  /** Texts of together no more lines than the capacity make a capture the format can hold. */
  lemma SmallMergeable(grouper: Grouper, a: seq<Line>, b: seq<Line>)
    requires Groups(grouper) && GroupsFit(grouper(a, b, 10), a, b) && |a| + |b| <= MAX_ROWS
    ensures Mergeable(grouper, a, b)
  {
    var wide := WideHunks(grouper, a, b);
    WideFits(grouper(a, b, 10), a, b);
    RenderCarries(grouper(a, b, 10), a, b);
    RunBounds(HunkRegions(wide), a, b, 0, 0, |a|, |b|);
    hide Groups, GroupsFit, FitsFormat, FragmentHunks, HunkRegion, Run;
    forall k | 0 <= k < |wide| ensures FitsFormat(FragmentHunks(HunkRegion(wide[k]), grouper)) {
      assert HunkRegions(wide)[k] == HunkRegion(wide[k]);
      SmallFits(HunkRegion(wide[k]), grouper);
    }
  }

  lemma WholeRun(wide: seq<Hunk>, a: seq<Line>, b: seq<Line>)
    requires Carries(HunkRegions(wide), a, b)
    ensures Run(HunkRegions(wide)[..|wide|], a, b, 0, 0, |a|, |b|)
  {
    assert HunkRegions(wide)[..|wide|] == HunkRegions(wide);
  }

  lemma MakePlans(hunks: seq<Hunk>, a: seq<Line>, b: seq<Line>)
    requires Run(HunkRegions(hunks), a, b, 0, 0, |a|, |b|) && AllKept(hunks, a, b) && TextLines(a) && TextLines(b)
    ensures Planned(hunks, false, a, b) && Planned(hunks, true, b, a)
  {
    hide Run, TextLines, HunkRegions, OldSide, NewSide;
    PlansTurned(hunks);
    RunTurned(HunkRegions(hunks), a, b, 0, 0, |a|, |b|);
    forall k | 0 <= k < |hunks| ensures SidesKept(hunks[k], false, a, b) && SidesKept(hunks[k], true, b, a) {
      assert Kept(hunks[k], a, b);
    }
  }
}
