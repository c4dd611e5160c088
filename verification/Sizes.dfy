/** The review format holds what two texts of limited size hold. */
module Sizes {
  import opened Text
  import opened Regions
  import opened Matcher
  import opened Review
  import opened ReviewText
  import opened ReviewRender
  import opened DisplayFacts

  lemma {:induction false} RowsSides(rows: seq<Row>, n: nat)
    requires n <= |rows|
    ensures n <= |OldUpTo(rows, n)| + |NewUpTo(rows, n)|
  {
    if n > 0 {
      RowsSides(rows, n - 1);
    }
  }

  function SideLines(rs: seq<Region>): nat
  {
    if rs == [] then 0 else |rs[0].before| + |rs[0].after| + SideLines(rs[1..])
  }

  // Regions apart from each other hold no more lines than the files.
  lemma {:induction false} RunLines(rs: seq<Region>, base: seq<Line>, cur: seq<Line>, i: int, j: int, i2: int, j2: int)
    requires Run(rs, base, cur, i, j, i2, j2)
    ensures SideLines(rs) <= i2 - i + j2 - j
  {
    if rs != [] {
      RunLines(rs[1..], base, cur, rs[0].BeforeEnd(), rs[0].AfterEnd(), i2, j2);
    }
  }

  lemma {:induction false} HunkLines(hunks: seq<Hunk>)
    ensures TotalRows(hunks) <= SideLines(HunkRegions(hunks))
  {
    if hunks != [] {
      HunkLines(hunks[1..]);
      assert HunkRegions(hunks)[1..] == HunkRegions(hunks[1..]);
      RowsSides(hunks[0].rows, |hunks[0].rows|);
    }
  }

  // Moving changes no lengths.
  lemma {:induction false} MovedLines(rs: seq<Region>, offset: int, shift: int)
    ensures SideLines(MovedBy(rs, offset, shift)) == SideLines(rs)
  {
    if rs != [] {
      MovedLines(rs[1..], offset, shift);
      assert MovedBy(rs, offset, shift)[1..] == MovedBy(rs[1..], offset, shift);
    }
  }

  /** The format holds the hunks of any two texts that together have no more than the maximal
      number of rows. */
  lemma SmallFits(f: Region, grouper: Grouper)
    requires Groups(grouper) && 0 <= f.beforeStart && 0 <= f.afterStart
    requires f.BeforeEnd() <= MAX_ROWS && f.AfterEnd() <= MAX_ROWS && |f.before| + |f.after| <= MAX_ROWS
    ensures FitsFormat(FragmentHunks(f, grouper))
  {
    hide *;
    var hunks := FragmentHunks(f, grouper);
    var rs := InnerRun(f, grouper);
    RegionEnds(f);
    HunkLines(hunks);
    MovedLines(rs, f.beforeStart, f.afterStart);
    RunLines(rs, f.before, f.after, 0, 0, |f.before|, |f.after|);
    AllSmall(hunks, rs, f);
    MakeFits(hunks);
  }

  lemma {:induction false} AllSmall(hunks: seq<Hunk>, rs: seq<Region>, f: Region)
    requires HunkRegions(hunks) == MovedBy(rs, f.beforeStart, f.afterStart) && |rs| == |hunks|
    requires Run(rs, f.before, f.after, 0, 0, |f.before|, |f.after|)
    requires 0 <= f.beforeStart && 0 <= f.afterStart && f.BeforeEnd() <= MAX_ROWS && f.AfterEnd() <= MAX_ROWS
    ensures forall k :: 0 <= k < |hunks| ==> HunkRepresentable(hunks[k])
  {
    hide Run;
    RunBounds(rs, f.before, f.after, 0, 0, |f.before|, |f.after|);
    forall k | 0 <= k < |hunks| ensures HunkRepresentable(hunks[k]) {
      assert HunkRegions(hunks)[k] == HunkRegion(hunks[k]);
      HunkSmall(hunks[k], rs[k], f);
    }
  }

  lemma MakeFits(hunks: seq<Hunk>)
    requires (forall k :: 0 <= k < |hunks| ==> HunkRepresentable(hunks[k])) && TotalRows(hunks) <= MAX_ROWS
    ensures FitsFormat(hunks)
  {
  }

  lemma HunkSmall(h: Hunk, r: Region, f: Region)
    requires HunkRegion(h) == r.(beforeStart := r.beforeStart + f.beforeStart, afterStart := r.afterStart + f.afterStart)
    requires 0 <= f.beforeStart && 0 <= f.afterStart && f.BeforeEnd() <= MAX_ROWS && f.AfterEnd() <= MAX_ROWS
    requires 0 <= r.beforeStart && r.BeforeEnd() <= |f.before| && 0 <= r.afterStart && r.AfterEnd() <= |f.after|
    ensures HunkRepresentable(h)
  {
  }

  lemma WideFits(groups: seq<seq<OpCode>>, a: seq<Line>, b: seq<Line>)
    requires GroupsFit(groups, a, b) && |a| + |b| <= MAX_ROWS
    ensures FitsFormat(GroupHunks(groups, a, b, 0, 0))
  {
    var hunks := GroupHunks(groups, a, b, 0, 0);
    var rs := HunkRegions(hunks);
    var f := Region(0, 0, a, b, false, false);
    RenderCarries(groups, a, b);
    hide GroupsFit, GroupHunks, HunkRegions;
    HunkLines(hunks);
    RunLines(rs, a, b, 0, 0, |a|, |b|);
    RunBounds(rs, a, b, 0, 0, |a|, |b|);
    forall k | 0 <= k < |hunks| ensures HunkRepresentable(hunks[k]) {
      assert rs[k] == HunkRegion(hunks[k]);
      HunkSmall(hunks[k], rs[k], f);
    }
  }

  // The fragment's own regions, from one of its sides to the other.
  lemma InnerRun(f: Region, grouper: Grouper) returns (rs: seq<Region>)
    requires Groups(grouper)
    ensures Run(rs, f.before, f.after, 0, 0, |f.before|, |f.after|)
    ensures HunkRegions(FragmentHunks(f, grouper)) == MovedBy(rs, f.beforeStart, f.afterStart) && |rs| == |FragmentHunks(f, grouper)|
  {
    FragmentRegions(f, grouper);
    rs := GroupRegions(FragmentGroups(f, grouper), f.before, f.after);
    hide Groups, GroupsFit, Run;
  }
}
